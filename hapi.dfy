/**
 * The part of a Hapi server the controller touches: the connections it
 * adds, the request-lifecycle extensions it registers and the stop requests
 * it makes. The framework itself is not part of this model.
 */
module Hapi {
  import opened Wrappers
  import opened JsValue

  /** TLS key and certificate material, opaque to the controller. */
  datatype Bundle = Bundle(key: string, cert: string)

  /** One `server.connection({port, labels, tls})` call. */
  datatype Connection = Connection(labels: string, port: Value, tls: Option<Bundle>)

  /** The request-lifecycle points the controller extends. */
  datatype Event = OnRequest | OnPostHandler

  /** The handlers it installs there. */
  datatype Handler = RequestHandler | ResponseHandler

  /** One `server.ext(event, handler)` call. */
  datatype Extension = Extension(event: Event, handler: Handler)

  class Server {
    var connections: seq<Connection>
    var extensions: seq<Extension>
    /** The timeout of every `server.stop` call, in order. */
    var stopTimeouts: seq<int>

    /** `new Hapi.Server()`. */
    constructor ()
      ensures connections == [] && extensions == [] && stopTimeouts == []
    {
      connections, extensions, stopTimeouts := [], [], [];
    }

    method AddConnection(c: Connection)
      modifies this
      ensures connections == old(connections) + [c]
      ensures extensions == old(extensions) && stopTimeouts == old(stopTimeouts)
    {
      connections := connections + [c];
    }

    method Ext(event: Event, handler: Handler)
      modifies this
      ensures extensions == old(extensions) + [Extension(event, handler)]
      ensures connections == old(connections) && stopTimeouts == old(stopTimeouts)
    {
      extensions := extensions + [Extension(event, handler)];
    }

    /** Requests shutdown; what the framework reports back is supplied by the caller of the model. */
    method Stop(timeout: int)
      modifies this
      ensures stopTimeouts == old(stopTimeouts) + [timeout]
      ensures connections == old(connections) && extensions == old(extensions)
    {
      stopTimeouts := stopTimeouts + [timeout];
    }
  }
}
