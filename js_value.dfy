/**
 * The JavaScript values the controller reads from its options and from the
 * command line, and the truthiness its `||` chains test.
 */
module JsValue {
  /**
   * A JavaScript value. Numbers are kept as integers: ports and session
   * counts are the only numbers the controller looks at.
   */
  datatype Value = Undefined | Null | Bool(b: bool) | Num(n: int) | Str(s: string)

  /** JavaScript ToBoolean: undefined, null, false, 0 and "" are falsy. */
  predicate Truthy(v: Value): (b: bool)
    ensures !b <==> v in {Undefined, Null, Bool(false), Num(0), Str("")}
  {
    match v
    case Undefined => false
    case Null => false
    case Bool(b) => b
    case Num(n) => n != 0
    case Str(s) => s != ""
  }

  /** `a || b`: the left operand when it is truthy, otherwise the right one. */
  function Or(a: Value, b: Value): (r: Value)
    ensures Truthy(r) <==> Truthy(a) || Truthy(b)
    ensures Truthy(a) ==> r == a
    ensures !Truthy(a) ==> r == b
  {
    if Truthy(a) then a else b
  }

  /**
   * A precedence chain read as a list: the first truthy candidate, or the
   * last candidate when none is truthy.
   */
  function FirstTruthy(candidates: seq<Value>): (r: Value)
    requires |candidates| > 0
    ensures exists i :: (0 <= i < |candidates| && r == candidates[i] &&
                         (forall j :: 0 <= j < i ==> !Truthy(candidates[j])) &&
                         (Truthy(r) || i == |candidates| - 1))
    decreases |candidates|
  {
    if |candidates| == 1 || Truthy(candidates[0]) then candidates[0]
    else
      var r := FirstTruthy(candidates[1..]);
      ghost var i :| 0 <= i < |candidates| - 1 && r == candidates[1..][i] &&
        (forall j :: 0 <= j < i ==> !Truthy(candidates[1..][j])) &&
        (Truthy(r) || i == |candidates| - 2);
      assert r == candidates[i + 1];
      assert forall j :: 0 <= j < i + 1 ==> !Truthy(candidates[j]) by {
        forall j | 0 <= j < i + 1 ensures !Truthy(candidates[j]) {
          if j > 0 { assert candidates[j] == candidates[1..][j - 1]; }
        }
      }
      r
  }

  /** A left-nested chain `a || b || c` picks the first truthy of the three. */
  lemma OrChain(a: Value, b: Value, c: Value)
    ensures Or(Or(a, b), c) == FirstTruthy([a, b, c])
    ensures Or(a, b) == FirstTruthy([a, b])
  {
    assert [a, b, c][1..] == [b, c];
    assert [b, c][1..] == [c];
    assert [a, b][1..] == [b];
  }
}
