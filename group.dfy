/** Route groups of pkg/router/group.go: a path prefix and a list of
    handlers run before every route registered through the group. */
module Groups {
  import opened Strings
  import opened Handlers
  import opened Routing

  /** calculateAbsolutePath. `join` stands for path.Join of the Go
      standard library, which is not part of this model. */
  function AbsolutePath(prefix: string, relative: string, join: (string, string) -> string): (r: string)
    ensures relative == [] ==> r == prefix
    ensures relative != [] && HasSuffix(relative, "/") ==> HasSuffix(r, "/")
    ensures relative != [] && !HasSuffix(relative, "/") ==> r == join(prefix, relative)
    ensures relative != [] && HasSuffix(join(prefix, relative), "/") ==> r == join(prefix, relative)
    ensures relative != [] && HasSuffix(relative, "/") && !HasSuffix(join(prefix, relative), "/")
      ==> r == join(prefix, relative) + "/"
  {
    if relative == [] then prefix
    else
      var absolute := join(prefix, relative);
      if HasSuffix(relative, "/") && !HasSuffix(absolute, "/") then absolute + "/" else absolute
  }

  class RouterGroup {
    var prefix: string
    var parent: RouterGroup?
    var router: Router
    var middlewares: seq<HandlerFunc>

    /** Router.Group: a top-level group, with no parent and no middleware. */
    constructor (r: Router, prefix: string)
      ensures this.prefix == prefix && parent == null && router == r && middlewares == []
    {
      this.prefix := prefix;
      parent := null;
      router := r;
      middlewares := [];
    }

    /** RouterGroup.Group: a child group whose prefix extends this one's,
        sharing the router and starting with no middleware of its own. */
    method Group(prefix: string) returns (g: RouterGroup)
      ensures fresh(g) && g.prefix == this.prefix + prefix && g.parent == this && g.router == router
      ensures g.middlewares == []
    {
      g := new RouterGroup(router, this.prefix + prefix);
      g.parent := this;
    }

    /** RouterGroup.Use. */
    method Use(handlers: seq<HandlerFunc>)
      modifies this
      ensures middlewares == old(middlewares) + handlers
      ensures prefix == old(prefix) && router == old(router) && parent == old(parent)
    {
      middlewares := middlewares + handlers;
    }

    /** combineHandlers: the group's middlewares followed by the route's
        handlers, copied into a new slice. */
    method CombineHandlers(handlers: seq<HandlerFunc>) returns (merged: seq<HandlerFunc>)
      ensures merged == middlewares + handlers
    {
      var m := |middlewares|;
      var a := new HandlerFunc[m + |handlers|];
      var i := 0;
      while i < m
        invariant 0 <= i <= m
        invariant a[..i] == middlewares[..i]
      {
        a[i] := middlewares[i];
        i := i + 1;
      }
      var j := 0;
      while j < |handlers|
        invariant 0 <= j <= |handlers|
        invariant a[..m] == middlewares && a[m..m + j] == handlers[..j]
      {
        a[m + j] := handlers[j];
        j := j + 1;
      }
      merged := a[..];
      assert merged == a[..m] + a[m..m + |handlers|];
    }

    /** handle: the route goes to the router at the group's absolute path,
        behind the group's middlewares; the result is addRoute's panic, if
        any. */
    method Handle(verb: string, relative: string, handlers: seq<HandlerFunc>, join: (string, string) -> string)
      returns (err: Option<string>)
      requires router.Valid()
      modifies router
      ensures router.Valid()
      ensures (router.nodes, err) == AddRouteSpec(old(router.nodes), verb, AbsolutePath(prefix, relative, join), middlewares + handlers)
      ensures router.middlewares == old(router.middlewares)
    {
      var absolute := AbsolutePath(prefix, relative, join);
      var merged := CombineHandlers(handlers);
      err := router.AddRoute(verb, absolute, merged);
    }
  }

  /** Serving a route registered through a group, at a path without
      parameters or wildcards, runs the group's middlewares first, and the
      route's handlers only when the middlewares leave the context
      unaborted. */
  lemma GroupMiddlewaresRunFirst(s: Ctx, nodes: seq<Node>, w: Sink, req: HttpRequest,
                                 middlewares: seq<HandlerFunc>, handlers: seq<HandlerFunc>)
    requires WellFormed(nodes) && StaticFrom(SplitPath(req.path), 0)
    requires AddRouteSpec(nodes, req.httpMethod, req.path, middlewares + handlers).1 == None
    ensures var after := AddRouteSpec(nodes, req.httpMethod, req.path, middlewares + handlers).0;
      var t := RunChain(Prepared(s, w, req).(params := Some(map[])), middlewares);
      Served(s, after, [], w, req) == if Aborted(t) then t else RunChain(t, handlers)
  {
    AddThenFind(nodes, req.httpMethod, req.path, middlewares + handlers);
    ChainAppend(Prepared(s, w, req).(params := Some(map[])), middlewares, handlers);
  }
}
