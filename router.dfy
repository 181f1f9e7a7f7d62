/**
 * The application object the autoloader registers handlers on. Only what the
 * autoloader uses is modelled: a set of method names that are callable
 * registration functions (`get`, `post`, ..., `all` on a typical router) and
 * the route table those functions extend, in registration order.
 */
module Router {
  /** One call `app[verb](route, handler)`; a handler is identified by a number. */
  datatype Registration = Registration(verb: string, route: string, handler: nat)

  class App {
    /** The property names of the application object that are registration functions. */
    const methods: set<string>
    /** Every registration made so far, oldest first. */
    var routes: seq<Registration>

    constructor (methods: set<string>)
      ensures this.methods == methods && routes == []
    {
      this.methods := methods;
      routes := [];
    }

    /**
     * `app[verb](route, handler)`: appends a registration when `app[verb]` is a
     * registration function; otherwise the call is a type error and nothing changes.
     */
    method Register(verb: string, route: string, handler: nat) returns (ok: bool)
      modifies this
      ensures ok == (verb in methods)
      ensures routes == if ok then old(routes) + [Registration(verb, route, handler)] else old(routes)
    {
      ok := verb in methods;
      if ok {
        routes := routes + [Registration(verb, route, handler)];
      }
    }
  }
}
