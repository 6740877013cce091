/**
 * The router's registration interface: `page(pattern, handler)` appends to the
 * ordered list of navigation handlers and `page.exit(pattern, handler)` to the
 * list of exit handlers. How the router matches and runs them is modelled by
 * the clients of this module.
 */
module PageRouter {

  /** A route pattern: the wildcard `'*'` or one exact path such as `'/'`. */
  datatype Pattern = Any | Exact(path: string)

  predicate Matches(p: Pattern, pathname: string)
  {
    p.Any? || p.path == pathname
  }

  datatype Route<H> = Route(pattern: Pattern, handler: H)

  class Router<H> {
    var routes: seq<Route<H>>
    var exits: seq<Route<H>>

    constructor ()
      ensures routes == [] && exits == []
    {
      routes := [];
      exits := [];
    }

    /** `page(pattern, handler)`. */
    method Page(pattern: Pattern, handler: H)
      modifies this
      ensures routes == old(routes) + [Route(pattern, handler)]
      ensures exits == old(exits)
    {
      routes := routes + [Route(pattern, handler)];
    }

    /** `page.exit(pattern, handler)`. */
    method Exit(pattern: Pattern, handler: H)
      modifies this
      ensures exits == old(exits) + [Route(pattern, handler)]
      ensures routes == old(routes)
    {
      exits := exits + [Route(pattern, handler)];
    }
  }
}
