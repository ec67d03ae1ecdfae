/**
 * Host normalisation: `host.replace(/.*?:\/\//g, '')`, which deletes every
 * run of text that ends in "://", one line at a time (the regular-expression
 * dot does not match a line terminator).
 */
module HostName {
  import opened Wrappers

  /** The characters the regular-expression dot refuses to match. */
  predicate IsLineTerminator(c: char) {
    c == '\n' || c == '\r' || c == '\U{2028}' || c == '\U{2029}'
  }

  predicate NoLineTerminator(s: string) {
    forall i :: 0 <= i < |s| ==> !IsLineTerminator(s[i])
  }

  /** A "://" starts at index i of s. */
  predicate SchemeAt(s: string, i: int) {
    0 <= i && i + 3 <= |s| && s[i] == ':' && s[i + 1] == '/' && s[i + 2] == '/'
  }

  predicate HasScheme(s: string) {
    exists i | 0 <= i < |s| :: SchemeAt(s, i)
  }

  /**
   * The pattern `.*?:\/\/` tried at position p: the lazy `.*?` grows one
   * character at a time until "://" follows, and fails at a line terminator
   * or at the end of the text. The result is where the match ends.
   */
  function MatchAt(s: string, p: nat): (e: Option<nat>)
    ensures e.Some? ==> p + 3 <= e.value <= |s| && SchemeAt(s, e.value - 3)
    ensures e.Some? ==> forall j :: p <= j < e.value - 3 ==> !SchemeAt(s, j)
    ensures e.Some? ==> forall t :: p <= t < e.value - 3 ==> !IsLineTerminator(s[t])
    ensures e.None? ==> forall j :: p <= j && SchemeAt(s, j) ==>
                          exists t :: p <= t < j && IsLineTerminator(s[t])
    decreases |s| - p
  {
    if SchemeAt(s, p) then Some(p + 3)
    else if p < |s| && !IsLineTerminator(s[p]) then MatchAt(s, p + 1)
    else None
  }

  /**
   * The global replacement loop: text from `last` on has not been copied yet,
   * and p is the next position the pattern is tried at. Each match is
   * replaced by nothing and the search resumes where the match ended.
   */
  function ReplaceFrom(s: string, last: nat, p: nat): (r: string)
    requires last <= p <= |s|
    ensures |r| <= |s| - last
    decreases |s| - p
  {
    if p == |s| then s[last..]
    else match MatchAt(s, p)
      case Some(e) => s[last..p] + ReplaceFrom(s, e, e)
      case None => ReplaceFrom(s, last, p + 1)
  }

  /** The host after `.replace(/.*?:\/\//g, '')`. */
  function StripSchemes(s: string): (r: string)
    ensures !HasScheme(r)
    ensures !HasScheme(s) ==> r == s
    ensures |r| <= |s|
  {
    ReplaceFromNoScheme(s, 0, 0);
    if !HasScheme(s) then ReplaceFromWithoutScheme(s, 0, 0); ReplaceFrom(s, 0, 0)
    else ReplaceFrom(s, 0, 0)
  }

  /**
   * Where the text after the last "://" of s begins: 0 when s has none.
   * A reference definition that scans from the end, independent of the
   * replacement loop.
   */
  function LastSchemeEnd(s: string): (k: nat)
    ensures k <= |s|
    ensures k == 0 || SchemeAt(s, k - 3)
    ensures forall j :: k <= j ==> !SchemeAt(s, j)
    decreases |s|
  {
    if |s| < 3 then 0
    else if SchemeAt(s, |s| - 3) then |s|
    else
      var k := LastSchemeEnd(s[..|s| - 1]);
      assert k > 0 ==> SchemeAt(s, k - 3) by {
        if k > 0 { assert SchemeAt(s[..|s| - 1], k - 3); }
      }
      assert forall j :: k <= j ==> !SchemeAt(s, j) by {
        forall j | k <= j && SchemeAt(s, j) && j + 3 < |s| ensures false {
          assert SchemeAt(s[..|s| - 1], j);
        }
      }
      k
  }

  /** Two occurrences of "://" never overlap. */
  lemma SchemesDisjoint(s: string, i: int, j: int)
    requires SchemeAt(s, i) && SchemeAt(s, j) && i < j
    ensures i + 3 <= j
  {
  }

  /** A failed match is not at a "://", and moves past a non-terminator. */
  lemma MatchFails(s: string, p: nat)
    requires MatchAt(s, p) == None
    ensures !SchemeAt(s, p)
    ensures p < |s| && !IsLineTerminator(s[p]) ==> MatchAt(s, p + 1) == None
  {
  }

  /** Joining two scheme-free texts at a line terminator creates no "://". */
  lemma {:induction false} JoinAtLineBreak(a: string, b: string)
    requires !HasScheme(a) && !HasScheme(b)
    requires a == [] || IsLineTerminator(a[|a| - 1])
    ensures !HasScheme(a + b)
  {
    forall i | 0 <= i < |a + b| ensures !SchemeAt(a + b, i) {
      if SchemeAt(a + b, i) {
        if i + 3 <= |a| {
          assert SchemeAt(a, i);
        } else if i >= |a| {
          assert SchemeAt(b, i - |a|);
        } else {
          assert false;
        }
      }
    }
  }

  /** The text before the first match is scheme-free and ends at a line terminator. */
  lemma {:induction false} SkippedTextEndsAtLineBreak(s: string, last: nat, p: nat)
    requires last <= p < |s|
    requires forall j :: last <= j < p ==> MatchAt(s, j) == None
    requires MatchAt(s, p).Some?
    ensures !HasScheme(s[last..p])
    ensures s[last..p] == [] || IsLineTerminator(s[p - 1])
  {
    forall i | 0 <= i < |s[last..p]| ensures !SchemeAt(s[last..p], i) {
      if SchemeAt(s[last..p], i) {
        assert SchemeAt(s, last + i);
        MatchFails(s, last + i);
      }
    }
    if last < p && !IsLineTerminator(s[p - 1]) {
      MatchFails(s, p - 1);
    }
  }

  /** Every position the loop has tried and failed at leaves no "://" behind. */
  lemma {:induction false} ReplaceFromNoScheme(s: string, last: nat, p: nat)
    requires last <= p <= |s|
    requires forall j :: last <= j < p ==> MatchAt(s, j) == None
    ensures !HasScheme(ReplaceFrom(s, last, p))
    decreases |s| - p
  {
    if p == |s| {
      forall i | 0 <= i < |s[last..]| ensures !SchemeAt(s[last..], i) {
        if SchemeAt(s[last..], i) {
          assert SchemeAt(s, last + i);
          MatchFails(s, last + i);
        }
      }
    } else {
      match MatchAt(s, p)
      case Some(e) =>
        SkippedTextEndsAtLineBreak(s, last, p);
        ReplaceFromNoScheme(s, e, e);
        JoinAtLineBreak(s[last..p], ReplaceFrom(s, e, e));
      case None =>
        ReplaceFromNoScheme(s, last, p + 1);
    }
  }

  /** The normalised host never contains "://". */
  lemma StripLeavesNoScheme(s: string)
    ensures !HasScheme(StripSchemes(s))
  {
    ReplaceFromNoScheme(s, 0, 0);
  }

  lemma {:induction false} ReplaceFromWithoutScheme(s: string, last: nat, p: nat)
    requires last <= p <= |s|
    requires !HasScheme(s)
    ensures ReplaceFrom(s, last, p) == s[last..]
    decreases |s| - p
  {
    if p < |s| {
      assert MatchAt(s, p) == None;
      ReplaceFromWithoutScheme(s, last, p + 1);
    }
  }

  /** A host without "://" is left as it is. */
  lemma StripWithoutScheme(s: string)
    requires !HasScheme(s)
    ensures StripSchemes(s) == s
  {
    ReplaceFromWithoutScheme(s, 0, 0);
  }

  /** Normalising twice is normalising once. */
  lemma StripIdempotent(s: string)
    ensures StripSchemes(StripSchemes(s)) == StripSchemes(s)
  {
    StripLeavesNoScheme(s);
    StripWithoutScheme(StripSchemes(s));
  }

  /** On one line, a failed match rules out any later "://". */
  lemma {:induction false} NoMatchNoLaterScheme(s: string, p: nat)
    requires NoLineTerminator(s)
    requires MatchAt(s, p) == None
    ensures forall j :: p <= j ==> !SchemeAt(s, j)
    decreases |s| - p
  {
    MatchFails(s, p);
    if p < |s| {
      NoMatchNoLaterScheme(s, p + 1);
    }
  }

  /** The end of any "://" is at most the end of the last one. */
  lemma SchemeBeforeLast(s: string, i: int)
    requires SchemeAt(s, i)
    ensures i + 3 <= LastSchemeEnd(s)
  {
    var k := LastSchemeEnd(s);
    if i + 3 > k {
      assert k > 0 && k - 3 < i;
      SchemesDisjoint(s, k - 3, i);
    }
  }

  lemma {:induction false} ReplaceFromOneLine(s: string, last: nat, p: nat)
    requires NoLineTerminator(s)
    requires last <= p <= |s|
    requires last == 0 || SchemeAt(s, last - 3)
    requires forall j :: last <= j < p ==> MatchAt(s, j) == None
    ensures ReplaceFrom(s, last, p) == s[LastSchemeEnd(s)..]
    decreases |s| - p
  {
    var k := LastSchemeEnd(s);
    if last > 0 {
      SchemeBeforeLast(s, last - 3);
    }
    if p == |s| {
      if last < p {
        NoMatchNoLaterScheme(s, last);
      }
      if k > last {
        if k - 3 < last {
          SchemesDisjoint(s, k - 3, last - 3);
        }
      }
    } else {
      match MatchAt(s, p)
      case Some(e) =>
        if last < p {
          MatchFails(s, p - 1);
        }
        ReplaceFromOneLine(s, e, e);
      case None =>
        ReplaceFromOneLine(s, last, p + 1);
    }
  }

  /** On a single line the normalised host is the text after the last "://". */
  lemma StripKeepsTextAfterLastScheme(s: string)
    requires NoLineTerminator(s)
    ensures StripSchemes(s) == s[LastSchemeEnd(s)..]
  {
    ReplaceFromOneLine(s, 0, 0);
  }

  /**
   * Why the single-line condition is needed: the dot stops at a line break,
   * so every line loses its own scheme prefix, and the result is not the
   * text after the last "://".
   */
  lemma MultiLineHostKeepsEveryLine()
    ensures StripSchemes("a://b\nc://d") == "b\nd"
    ensures LastSchemeEnd("a://b\nc://d") == 10
    ensures "a://b\nc://d"[LastSchemeEnd("a://b\nc://d")..] == "d"
  {
    var s := "a://b\nc://d";
    assert MatchAt(s, 0) == Some(4);
    assert MatchAt(s, 4) == None;
    assert MatchAt(s, 5) == None;
    assert MatchAt(s, 6) == Some(10);
    assert SchemeAt(s, 7);
  }
}
