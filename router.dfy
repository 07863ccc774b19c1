/** The router of pkg/router/router.go: the trie of path segments that
    addRoute builds and find walks, the router-wide middlewares, and
    ServeHTTP.

    The Go trie is a tree of `*node`; here the router owns its nodes in a
    sequence and a child is the position of its node in that sequence. Every
    child sits after its parent, so the walks below only ever move forward. */
module Routing {
  import opened Strings
  import opened Handlers
  import opened Middleware

  /** The key under which a node keeps the child of its parameter segment. */
  const ParamKey := "*param"
  const StatusMethodNotAllowed := 405

  const ErrParamAfterWildcard := "router: parameter after wildcard not allowed"
  const ErrWildcardNotLast := "router: wildcard must be the last part of the path"
  const ErrDuplicate := "router: duplicate route"

  datatype Node = Node(children: map<string, nat>, handler: map<string, HandlerFunc>,
                       paramName: string, isParam: bool, isWildcard: bool)

  const Empty := Node(map[], map[], [], false, false)

  /** Node `i` points only forward and inside the trie, and a parameter node
      has its parameter child. */
  predicate NodeOk(nodes: seq<Node>, i: nat)
    requires i < |nodes|
  {
    && (forall key | key in nodes[i].children :: i < nodes[i].children[key] < |nodes|)
    && (nodes[i].isParam ==> ParamKey in nodes[i].children)
  }

  predicate WellFormed(nodes: seq<Node>)
  {
    |nodes| >= 1 && forall i | 0 <= i < |nodes| :: NodeOk(nodes, i)
  }

  /** strings.Split(strings.Trim(path, "/"), "/"). */
  function SplitPath(path: string): (parts: seq<string>)
    ensures |parts| >= 1
  {
    Split(Trim(path, {'/'}), '/')
  }

  predicate IsParamPart(part: string)
  {
    |part| > 0 && part[0] == ':'
  }

  /** A segment matched only by a child of the same name. */
  predicate Static(part: string)
  {
    !IsParamPart(part) && part != "*"
  }

  // ----------------------------------------------------------- addRoute

  /** Where the walk of addRoute stopped, with the trie as it left it; `err`
      is the panic message, if it panicked. */
  datatype Walk = Walk(nodes: seq<Node>, at: nat, err: Option<string>)

  /** Moves from node `cur` to its child under `key`, adding an empty child
      when there is none. */
  function Descend(nodes: seq<Node>, cur: nat, key: string): (r: (seq<Node>, nat))
    requires WellFormed(nodes) && cur < |nodes|
    ensures WellFormed(r.0) && cur < r.1 < |r.0| && |nodes| <= |r.0|
    ensures key in r.0[cur].children && r.0[cur].children[key] == r.1
    ensures key in nodes[cur].children ==> r == (nodes, nodes[cur].children[key])
    ensures forall j | 0 <= j < |nodes| && j != cur :: r.0[j] == nodes[j]
    ensures forall j | |nodes| <= j < |r.0| :: r.0[j] == Empty
    ensures r.0[cur].handler == nodes[cur].handler && r.0[cur].isParam == nodes[cur].isParam
    ensures r.0[cur].isWildcard == nodes[cur].isWildcard && r.0[cur].paramName == nodes[cur].paramName
  {
    assert NodeOk(nodes, cur);
    if key in nodes[cur].children then (nodes, nodes[cur].children[key])
    else
      var added := |nodes|;
      var r := nodes[cur := nodes[cur].(children := nodes[cur].children[key := added])] + [Empty];
      assert forall i | 0 <= i < |r| :: NodeOk(r, i) by {
        forall i | 0 <= i < |r| ensures NodeOk(r, i) {
          if i < |nodes| && i != cur {
            assert NodeOk(nodes, i) && r[i] == nodes[i];
          }
        }
      }
      (r, added)
  }

  /** Marks node `cur` as the parameter node of `name`; its parameter child
      must already be there. */
  function MarkParam(nodes: seq<Node>, cur: nat, name: string): (r: seq<Node>)
    requires WellFormed(nodes) && cur < |nodes| && ParamKey in nodes[cur].children
    ensures WellFormed(r) && |r| == |nodes| && r[cur].isParam && r[cur].paramName == name
    ensures forall j | 0 <= j < |nodes| && j != cur :: r[j] == nodes[j]
    ensures r[cur].children == nodes[cur].children && r[cur].handler == nodes[cur].handler
    ensures r[cur].isWildcard == nodes[cur].isWildcard
  {
    var r := nodes[cur := nodes[cur].(isParam := true, paramName := name)];
    assert forall j | 0 <= j < |r| :: NodeOk(r, j) by {
      forall j | 0 <= j < |r| ensures NodeOk(r, j) {
        assert NodeOk(nodes, j);
      }
    }
    r
  }

  /** Marks node `cur` as ending in a wildcard. */
  function MarkWildcard(nodes: seq<Node>, cur: nat): (r: seq<Node>)
    requires WellFormed(nodes) && cur < |nodes|
    ensures WellFormed(r) && |r| == |nodes| && r[cur].isWildcard
    ensures forall j | 0 <= j < |nodes| && j != cur :: r[j] == nodes[j]
    ensures r[cur].children == nodes[cur].children && r[cur].handler == nodes[cur].handler
  {
    var r := nodes[cur := nodes[cur].(isWildcard := true)];
    assert forall j | 0 <= j < |r| :: NodeOk(r, j) by {
      forall j | 0 <= j < |r| ensures NodeOk(r, j) {
        assert NodeOk(nodes, j);
      }
    }
    r
  }

  /** Stores `h` as node `cur`'s handler for `verb`. */
  function Store(nodes: seq<Node>, cur: nat, verb: string, h: HandlerFunc): (r: seq<Node>)
    requires WellFormed(nodes) && cur < |nodes|
    ensures WellFormed(r) && |r| == |nodes| && verb in r[cur].handler && r[cur].handler[verb] == h
    ensures forall j | 0 <= j < |nodes| && j != cur :: r[j] == nodes[j]
    ensures r[cur].children == nodes[cur].children
    ensures forall other | other in nodes[cur].handler && other != verb :: other in r[cur].handler && r[cur].handler[other] == nodes[cur].handler[other]
    ensures r[cur].isWildcard == nodes[cur].isWildcard && r[cur].isParam == nodes[cur].isParam
  {
    var r := nodes[cur := nodes[cur].(handler := nodes[cur].handler[verb := h])];
    assert forall j | 0 <= j < |r| :: NodeOk(r, j) by {
      forall j | 0 <= j < |r| ensures NodeOk(r, j) {
        assert NodeOk(nodes, j);
      }
    }
    r
  }

  /** The walk of addRoute over `parts[i..]` from node `cur`. */
  function Insert(nodes: seq<Node>, cur: nat, parts: seq<string>, i: nat): (w: Walk)
    requires WellFormed(nodes) && cur < |nodes| && i <= |parts|
    ensures WellFormed(w.nodes) && cur <= w.at < |w.nodes| && |nodes| <= |w.nodes|
    ensures forall j | 0 <= j < cur :: w.nodes[j] == nodes[j]
    decreases |parts| - i
  {
    if i == |parts| then Walk(nodes, cur, None)
    else
      var part := parts[i];
      if IsParamPart(part) then
        if nodes[cur].isWildcard then Walk(nodes, cur, Some(ErrParamAfterWildcard))
        else
          var (n1, next) := Descend(nodes, cur, ParamKey);
          Insert(MarkParam(n1, cur, part[1..]), next, parts, i + 1)
      else if part == "*" then
        if i != |parts| - 1 then Walk(nodes, cur, Some(ErrWildcardNotLast))
        else Walk(MarkWildcard(nodes, cur), cur, None)
      else
        var (n1, next) := Descend(nodes, cur, part);
        Insert(n1, next, parts, i + 1)
  }

  /** addRoute: the trie after registering `handlers` for `method` at
      `path`, and the panic message if it panicked. A panic leaves the nodes
      it had already added or marked. */
  function AddRouteSpec(nodes: seq<Node>, verb: string, path: string, handlers: seq<HandlerFunc>): (r: (seq<Node>, Option<string>))
    requires WellFormed(nodes)
    ensures WellFormed(r.0) && |nodes| <= |r.0|
  {
    var w := Insert(nodes, 0, SplitPath(path), 0);
    if w.err.Some? then (w.nodes, w.err)
    else if verb in w.nodes[w.at].handler then (w.nodes, Some(ErrDuplicate))
    else (Store(w.nodes, w.at, verb, Combined(handlers)), None)
  }

  // ---------------------------------------------------------------- find

  /** What find returns: the handler (nil when None) and the parameters (a
      nil map when None). */
  datatype Match = Match(handler: Option<HandlerFunc>, params: Option<map<string, string>>)

  function Lookup(handler: map<string, HandlerFunc>, verb: string): (r: Option<HandlerFunc>)
    ensures r.Some? <==> verb in handler
    ensures r.Some? ==> r.value == handler[verb]
  {
    if verb in handler then Some(handler[verb]) else None
  }

  /** The walk of find over `parts[i..]` from node `cur`, with the
      parameters captured so far. */
  function FindWalk(nodes: seq<Node>, cur: nat, parts: seq<string>, i: nat, verb: string,
                    params: map<string, string>): (m: Match)
    requires WellFormed(nodes) && cur < |nodes| && i <= |parts|
    ensures m.params.None? ==> m.handler.None?
    ensures m.params.Some? ==> params.Keys <= m.params.value.Keys
    decreases |parts| - i
  {
    if i == |parts| then Match(Lookup(nodes[cur].handler, verb), Some(params))
    else
      var part := parts[i];
      var n := nodes[cur];
      assert NodeOk(nodes, cur);
      if part in n.children then FindWalk(nodes, n.children[part], parts, i + 1, verb, params)
      else if n.isParam then FindWalk(nodes, n.children[ParamKey], parts, i + 1, verb, params[n.paramName := part])
      else if n.isWildcard then Match(Lookup(n.handler, verb), Some(params))
      else Match(None, None)
  }

  function FindSpec(nodes: seq<Node>, verb: string, path: string): (m: Match)
    requires WellFormed(nodes)
    ensures m.params.None? ==> m.handler.None?
  {
    FindWalk(nodes, 0, SplitPath(path), 0, verb, map[])
  }

  // ------------------------------------------------------------ serving

  const NotAllowedReply := Reply(StatusMethodNotAllowed, "text/plain")

  /** ServeHTTP on a pooled context: newContext, find, the parameters, then
      methodNotAllowed when there is no handler, or the handler wrapped in
      the router's middlewares. */
  ghost function Served(s: Ctx, nodes: seq<Node>, middlewares: seq<MiddlewareFunc>, w: Sink, req: HttpRequest): (r: Ctx)
    requires WellFormed(nodes)
    ensures Live(r) && r.request == Some(req) && r.handlers == []
    ensures r.params == FindSpec(nodes, req.httpMethod, req.path).params
  {
    var m := FindSpec(nodes, req.httpMethod, req.path);
    var t := Prepared(s, w, req).(params := m.params);
    if m.handler.None? then RunStep(t, NotAllowedReply) else RunH(t, Nest(m.handler.value, middlewares))
  }

  class Router {
    var nodes: seq<Node>
    var middlewares: seq<MiddlewareFunc>

    predicate Valid()
      reads this
    {
      WellFormed(nodes)
    }

    /** NewRouter: a root node and no middleware. */
    constructor ()
      ensures Valid() && nodes == [Empty] && middlewares == []
    {
      nodes := [Empty];
      middlewares := [];
    }

    /** Router.Use. */
    method Use(ms: seq<MiddlewareFunc>)
      modifies this
      ensures middlewares == old(middlewares) + ms && nodes == old(nodes)
    {
      middlewares := middlewares + ms;
    }

    /** addRoute; the returned message is the panic, if any. */
    method AddRoute(verb: string, path: string, handlers: seq<HandlerFunc>) returns (err: Option<string>)
      requires Valid()
      modifies this
      ensures Valid() && (nodes, err) == AddRouteSpec(old(nodes), verb, path, handlers)
      ensures middlewares == old(middlewares)
    {
      var parts := SplitPath(path);
      var current: nat := 0;
      var i := 0;
      while i < |parts|
        invariant WellFormed(nodes) && current < |nodes| && i <= |parts|
        invariant Insert(nodes, current, parts, i) == Insert(old(nodes), 0, parts, 0)
        invariant middlewares == old(middlewares)
      {
        var part := parts[i];
        if IsParamPart(part) {
          if nodes[current].isWildcard {
            return Some(ErrParamAfterWildcard);
          }
          var next := Child(current, ParamKey);
          MarkParamNode(current, part[1..]);
          current := next;
        } else if part == "*" {
          if i != |parts| - 1 {
            return Some(ErrWildcardNotLast);
          }
          MarkWildcardNode(current);
          break;
        } else {
          current := Child(current, part);
        }
        i := i + 1;
      }
      if verb in nodes[current].handler {
        return Some(ErrDuplicate);
      }
      SetHandler(current, verb, Combined(handlers));
      return None;
    }

    /** The child of node `cur` under `key`, added empty when missing. */
    method Child(cur: nat, key: string) returns (next: nat)
      requires Valid() && cur < |nodes|
      modifies this
      ensures (nodes, next) == Descend(old(nodes), cur, key) && middlewares == old(middlewares)
    {
      if key !in nodes[cur].children {
        nodes := nodes[cur := nodes[cur].(children := nodes[cur].children[key := |nodes|])] + [Empty];
      }
      next := nodes[cur].children[key];
    }

    method MarkParamNode(cur: nat, name: string)
      requires Valid() && cur < |nodes| && ParamKey in nodes[cur].children
      modifies this
      ensures nodes == MarkParam(old(nodes), cur, name) && middlewares == old(middlewares)
    {
      nodes := nodes[cur := nodes[cur].(isParam := true, paramName := name)];
    }

    method MarkWildcardNode(cur: nat)
      requires Valid() && cur < |nodes|
      modifies this
      ensures nodes == MarkWildcard(old(nodes), cur) && middlewares == old(middlewares)
    {
      nodes := nodes[cur := nodes[cur].(isWildcard := true)];
    }

    method SetHandler(cur: nat, verb: string, h: HandlerFunc)
      requires Valid() && cur < |nodes|
      modifies this
      ensures nodes == Store(old(nodes), cur, verb, h) && middlewares == old(middlewares)
    {
      nodes := nodes[cur := nodes[cur].(handler := nodes[cur].handler[verb := h])];
    }

    /** find. */
    method Find(verb: string, path: string) returns (m: Match)
      requires Valid()
      ensures m == FindSpec(nodes, verb, path)
    {
      var parts := SplitPath(path);
      var current: nat := 0;
      var params := map[];
      var i := 0;
      while i < |parts|
        invariant current < |nodes| && i <= |parts|
        invariant FindWalk(nodes, current, parts, i, verb, params) == FindSpec(nodes, verb, path)
      {
        var part := parts[i];
        assert NodeOk(nodes, current);
        if part in nodes[current].children {
          current := nodes[current].children[part];
        } else if nodes[current].isParam {
          params := params[nodes[current].paramName := part];
          current := nodes[current].children[ParamKey];
        } else if nodes[current].isWildcard {
          return Match(Lookup(nodes[current].handler, verb), Some(params));
        } else {
          return Match(None, None);
        }
        i := i + 1;
      }
      return Match(Lookup(nodes[current].handler, verb), Some(params));
    }

    /** applyMiddleware: the handler wrapped in the router's middlewares,
      the first one outermost. */
    method ApplyMiddleware(h: HandlerFunc) returns (r: HandlerFunc)
      ensures r == Nest(h, middlewares)
    {
      r := Chain(h, middlewares);
    }

    /** ServeHTTP, on the context `c` the pool handed out. */
    method ServeHttp(c: Context, w: Sink, req: HttpRequest)
      requires Valid()
      modifies c
      ensures c.State() == Served(old(c.State()), nodes, middlewares, w, req)
    {
      c.Prepare(w, req);
      var m := Find(req.httpMethod, req.path);
      c.params := m.params;
      if m.handler.None? {
        c.DoStep(NotAllowedReply);
        return;
      }
      var h := ApplyMiddleware(m.handler.value);
      c.Invoke(h);
    }
  }

  // ---------------------------------------------------------------- lemmas

  /** The walk through children named exactly as the segments, if every
      segment has one. */
  function Follow(nodes: seq<Node>, cur: nat, parts: seq<string>, i: nat): (r: Option<nat>)
    requires WellFormed(nodes) && cur < |nodes| && i <= |parts|
    ensures r.Some? ==> cur <= r.value < |nodes|
    decreases |parts| - i
  {
    assert NodeOk(nodes, cur);
    if i == |parts| then Some(cur)
    else if parts[i] in nodes[cur].children then Follow(nodes, nodes[cur].children[parts[i]], parts, i + 1)
    else None
  }

  predicate StaticFrom(parts: seq<string>, i: nat)
  {
    forall j | i <= j < |parts| :: Static(parts[j])
  }

  /** addRoute on a path without parameter or wildcard segments never
      panics on the way down, and ends at the node reached through children
      named as the segments. */
  lemma {:induction false} InsertStatic(nodes: seq<Node>, cur: nat, parts: seq<string>, i: nat)
    requires WellFormed(nodes) && cur < |nodes| && i <= |parts| && StaticFrom(parts, i)
    ensures Insert(nodes, cur, parts, i).err == None
    ensures Follow(Insert(nodes, cur, parts, i).nodes, cur, parts, i) == Some(Insert(nodes, cur, parts, i).at)
    decreases |parts| - i
  {
    if i < |parts| {
      var d := Descend(nodes, cur, parts[i]);
      InsertStatic(d.0, d.1, parts, i + 1);
    }
  }

  /** Along an existing static path addRoute changes nothing. */
  lemma {:induction false} InsertExisting(nodes: seq<Node>, cur: nat, parts: seq<string>, i: nat, k: nat)
    requires WellFormed(nodes) && cur < |nodes| && i <= |parts| && StaticFrom(parts, i)
    requires Follow(nodes, cur, parts, i) == Some(k)
    ensures Insert(nodes, cur, parts, i) == Walk(nodes, k, None)
    decreases |parts| - i
  {
    if i < |parts| {
      assert NodeOk(nodes, cur);
      InsertExisting(nodes, nodes[cur].children[parts[i]], parts, i + 1, k);
    }
  }

  /** Storing a handler does not move any child. */
  lemma {:induction false} FollowStore(nodes: seq<Node>, at: nat, verb: string, h: HandlerFunc, cur: nat, parts: seq<string>, i: nat)
    requires WellFormed(nodes) && at < |nodes| && cur < |nodes| && i <= |parts|
    ensures Follow(Store(nodes, at, verb, h), cur, parts, i) == Follow(nodes, cur, parts, i)
    decreases |parts| - i
  {
    var r := Store(nodes, at, verb, h);
    assert r[cur].children == nodes[cur].children;
    assert NodeOk(nodes, cur);
    if i < |parts| && parts[i] in nodes[cur].children {
      FollowStore(nodes, at, verb, h, nodes[cur].children[parts[i]], parts, i + 1);
    }
  }

  /** find along children named exactly as the segments takes them, before
      any parameter or wildcard, and captures nothing. */
  lemma {:induction false} FindFollows(nodes: seq<Node>, cur: nat, parts: seq<string>, i: nat, verb: string,
                                       params: map<string, string>, k: nat)
    requires WellFormed(nodes) && cur < |nodes| && i <= |parts| && Follow(nodes, cur, parts, i) == Some(k)
    ensures FindWalk(nodes, cur, parts, i, verb, params) == Match(Lookup(nodes[k].handler, verb), Some(params))
    decreases |parts| - i
  {
    if i < |parts| {
      assert NodeOk(nodes, cur);
      FindFollows(nodes, nodes[cur].children[parts[i]], parts, i + 1, verb, params, k);
    }
  }

  /** A route registered at a path without parameters or wildcards is
      found there, for its method, with no parameters. */
  lemma AddThenFind(nodes: seq<Node>, verb: string, path: string, handlers: seq<HandlerFunc>)
    requires WellFormed(nodes) && StaticFrom(SplitPath(path), 0)
    requires AddRouteSpec(nodes, verb, path, handlers).1 == None
    ensures FindSpec(AddRouteSpec(nodes, verb, path, handlers).0, verb, path) == Match(Some(Combined(handlers)), Some(map[]))
  {
    var parts := SplitPath(path);
    var w := Insert(nodes, 0, parts, 0);
    InsertStatic(nodes, 0, parts, 0);
    FollowStore(w.nodes, w.at, verb, Combined(handlers), 0, parts, 0);
    FindFollows(Store(w.nodes, w.at, verb, Combined(handlers)), 0, parts, 0, verb, map[], w.at);
  }

  /** Registering the same method and path twice panics the second time,
      leaving the trie as the first registration left it. */
  lemma DuplicateRoute(nodes: seq<Node>, verb: string, path: string, first: seq<HandlerFunc>, second: seq<HandlerFunc>)
    requires WellFormed(nodes) && StaticFrom(SplitPath(path), 0)
    requires AddRouteSpec(nodes, verb, path, first).1 == None
    ensures var after := AddRouteSpec(nodes, verb, path, first).0;
      AddRouteSpec(after, verb, path, second) == (after, Some(ErrDuplicate))
  {
    var parts := SplitPath(path);
    var w := Insert(nodes, 0, parts, 0);
    InsertStatic(nodes, 0, parts, 0);
    var after := Store(w.nodes, w.at, verb, Combined(first));
    FollowStore(w.nodes, w.at, verb, Combined(first), 0, parts, 0);
    InsertExisting(after, 0, parts, 0, w.at);
  }

  /** A request find has no handler for, whether no node matches its path
      or the node has no handler for its method, is answered 405 as plain
      text; no handler of the application runs. */
  lemma NoHandlerAnswers405(s: Ctx, nodes: seq<Node>, middlewares: seq<MiddlewareFunc>, w: Sink, req: HttpRequest)
    requires WellFormed(nodes) && FindSpec(nodes, req.httpMethod, req.path).handler.None?
    ensures var r := Served(s, nodes, middlewares, w, req);
      && r.statusCode == StatusMethodNotAllowed && r.writer.value.written == w.written + [StatusMethodNotAllowed]
      && r.writer.value.header == w.header["Content-Type" := "text/plain"] && r.trace == s.trace && !Aborted(r)
  {
  }

  /** With the context ServeHTTP builds, whose chain is empty, a first
      handler that calls Next ends the route: the handlers after it never
      run, even on a path without parameters where find succeeds. */
  lemma NextInFirstHandlerEndsRoute(s: Ctx, nodes: seq<Node>, w: Sink, req: HttpRequest,
                                    name: string, steps: seq<Step>, rest: seq<HandlerFunc>)
    requires WellFormed(nodes) && StaticFrom(SplitPath(req.path), 0) && NextStep in steps
    requires AddRouteSpec(nodes, req.httpMethod, req.path, [Leaf(name, steps)] + rest).1 == None
    ensures var after := AddRouteSpec(nodes, req.httpMethod, req.path, [Leaf(name, steps)] + rest).0;
      Served(s, after, [], w, req) == RunH(Prepared(s, w, req).(params := Some(map[])), Leaf(name, steps))
  {
    AddThenFind(nodes, req.httpMethod, req.path, [Leaf(name, steps)] + rest);
    NextEndsChain(Prepared(s, w, req).(params := Some(map[])), name, steps, rest);
  }

  /** A path written as "/" and its segments joined by "/" splits back into
      those segments. */
  lemma PathOf(parts: seq<string>)
    requires |parts| >= 1 && forall i | 0 <= i < |parts| :: parts[i] != [] && '/' !in parts[i]
    ensures SplitPath("/" + Join(parts, '/')) == parts
  {
    var j := Join(parts, '/');
    JoinEnds(parts, '/');
    assert "/" + j + [] == "/" + j;
    TrimPadded("/", j, [], {'/'});
    SplitJoin(parts, '/');
  }

  /** Slashes around a path do not matter: "/users/", "users" and
      "//users" name the same route. */
  lemma SlashPadding(w1: string, p: string, w2: string)
    requires forall k | 0 <= k < |w1| :: w1[k] == '/'
    requires forall k | 0 <= k < |w2| :: w2[k] == '/'
    requires p != [] && NoEdge(p, {'/'})
    ensures SplitPath(w1 + p + w2) == SplitPath(p)
  {
    TrimPadded(w1, p, w2, {'/'});
    TrimKeeps(p, {'/'});
  }

  /** The root path is the single empty segment, so the route "/" hangs
      under the root node's child "" rather than on the root node. */
  lemma RootPath()
    ensures SplitPath("/") == [""] && SplitPath("") == [""]
  {
    assert TrimLeft("/", {'/'}) == TrimLeft("/"[1..], {'/'});
    assert "/"[1..] == "";
    SplitNone("", '/');
  }

  lemma OneSegment(a: string)
    requires a != [] && '/' !in a
    ensures SplitPath("/" + a) == [a]
  {
    PathOf([a]);
  }

  lemma TwoSegments(a: string, b: string)
    requires a != [] && '/' !in a && b != [] && '/' !in b
    ensures SplitPath("/" + a + "/" + b) == [a, b]
  {
    PathOf([a, b]);
    assert Join([a, b], '/') == a + "/" + b;
    assert "/" + a + "/" + b == "/" + Join([a, b], '/');
  }

  lemma ThreeSegments(a: string, b: string, c: string)
    requires a != [] && '/' !in a && b != [] && '/' !in b && c != [] && '/' !in c
    ensures SplitPath("/" + a + "/" + b + "/" + c) == [a, b, c]
  {
    PathOf([a, b, c]);
    assert [a, b, c][1..] == [b, c] && [b, c][1..] == [c];
    assert Join([b, c], '/') == b + "/" + c;
    assert Join([a, b, c], '/') == a + "/" + (b + "/" + c);
    assert "/" + a + "/" + b + "/" + c == "/" + Join([a, b, c], '/');
  }

  /** The trie a new router holds after one route `/seg/:name`. */
  function ParamTrie(seg: string, verb: string, name: string, handlers: seq<HandlerFunc>): seq<Node>
  {
    [Node(map[seg := 1], map[], [], false, false),
     Node(map[ParamKey := 2], map[], name, true, false),
     Node(map[], map[verb := Combined(handlers)], [], false, false)]
  }

  lemma ParamTrieBuilt(seg: string, verb: string, name: string, handlers: seq<HandlerFunc>)
    requires Static(seg)
    ensures Insert([Empty], 0, [seg, ":" + name], 0) == Walk(ParamTrie(seg, verb, name, handlers)[2 := Empty], 2, None)
  {
    var parts := [seg, ":" + name];
    var n1 := [Node(map[seg := 1], map[], [], false, false), Empty];
    assert seg !in Empty.children;
    assert [Empty][0 := Empty.(children := Empty.children[seg := |[Empty]|])] + [Empty] == n1;
    assert Descend([Empty], 0, seg) == (n1, 1);
    var n2 := [n1[0], Node(map[ParamKey := 2], map[], [], false, false), Empty];
    assert ParamKey !in n1[1].children;
    assert n1[1 := n1[1].(children := n1[1].children[ParamKey := |n1|])] + [Empty] == n2;
    assert Descend(n1, 1, ParamKey) == (n2, 2);
    var n3 := ParamTrie(seg, verb, name, handlers)[2 := Empty];
    assert IsParamPart(parts[1]) && parts[1][1..] == name;
    assert MarkParam(n2, 1, name) == n3;
    assert Insert(n1, 1, parts, 1) == Insert(n3, 2, parts, 2);
  }

  /** On a new router with the single route `/seg/:name`, a request for
      `/seg/value` finds the route and captures `value` under `name`. */
  lemma ParamCaptured(seg: string, verb: string, name: string, value: string, handlers: seq<HandlerFunc>)
    requires seg != [] && '/' !in seg && Static(seg)
    requires '/' !in name && value != [] && '/' !in value && value != ParamKey
    ensures var trie := AddRouteSpec([Empty], verb, "/" + seg + "/:" + name, handlers);
      && trie.1 == None
      && FindSpec(trie.0, verb, "/" + seg + "/" + value) == Match(Some(Combined(handlers)), Some(map[name := value]))
  {
    var route := [seg, ":" + name];
    var request := [seg, value];
    TwoSegments(seg, ":" + name);
    TwoSegments(seg, value);
    assert "/" + seg + "/:" + name == "/" + route[0] + "/" + route[1];
    ParamTrieBuilt(seg, verb, name, handlers);
    var t := ParamTrie(seg, verb, name, handlers);
    assert Store(t[2 := Empty], 2, verb, Combined(handlers)) == t;
    assert FindWalk(t, 0, request, 0, verb, map[]) == FindWalk(t, 1, request, 1, verb, map[]);
    assert FindWalk(t, 1, request, 1, verb, map[]) == FindWalk(t, 2, request, 2, verb, map[name := value]);
  }

  /** The trie a new router holds after one route `/seg` + "/" + "*" (a wildcard under seg). */
  function WildcardTrie(seg: string, verb: string, handlers: seq<HandlerFunc>): seq<Node>
  {
    [Node(map[seg := 1], map[], [], false, false),
     Node(map[], map[verb := Combined(handlers)], [], false, true)]
  }

  lemma WildcardTrieBuilt(seg: string, verb: string, handlers: seq<HandlerFunc>)
    requires Static(seg)
    ensures Insert([Empty], 0, [seg, "*"], 0) == Walk(WildcardTrie(seg, verb, handlers)[1 := Empty.(isWildcard := true)], 1, None)
  {
    var parts := [seg, "*"];
    var n1 := [Node(map[seg := 1], map[], [], false, false), Empty];
    assert seg !in Empty.children;
    assert [Empty][0 := Empty.(children := Empty.children[seg := |[Empty]|])] + [Empty] == n1;
    assert Descend([Empty], 0, seg) == (n1, 1);
    assert !IsParamPart(parts[1]);
    assert MarkWildcard(n1, 1) == WildcardTrie(seg, verb, handlers)[1 := Empty.(isWildcard := true)];
  }

  lemma WildcardTrieStored(seg: string, verb: string, handlers: seq<HandlerFunc>)
    requires seg != [] && '/' !in seg && Static(seg)
    ensures AddRouteSpec([Empty], verb, "/" + seg + "/*", handlers) == (WildcardTrie(seg, verb, handlers), None)
  {
    TwoSegments(seg, "*");
    assert "/" + seg + "/*" == "/" + seg + "/" + "*";
    WildcardTrieBuilt(seg, verb, handlers);
    var t := WildcardTrie(seg, verb, handlers);
    assert Store(t[1 := Empty.(isWildcard := true)], 1, verb, Combined(handlers)) == t;
  }

  /** On a new router with the single wildcard route under `seg`, it answers
      `/seg` itself and every longer path under it, and the rest of the path
      is not captured as a parameter. */
  lemma WildcardMatchesRest(seg: string, verb: string, a: string, b: string, handlers: seq<HandlerFunc>)
    requires seg != [] && '/' !in seg && Static(seg)
    requires a != [] && '/' !in a && b != [] && '/' !in b
    ensures var trie := AddRouteSpec([Empty], verb, "/" + seg + "/*", handlers);
      && trie.1 == None
      && FindSpec(trie.0, verb, "/" + seg + "/" + a + "/" + b) == Match(Some(Combined(handlers)), Some(map[]))
      && FindSpec(trie.0, verb, "/" + seg) == Match(Some(Combined(handlers)), Some(map[]))
  {
    WildcardTrieStored(seg, verb, handlers);
    ThreeSegments(seg, a, b);
    OneSegment(seg);
    var t := WildcardTrie(seg, verb, handlers);
    var request := [seg, a, b];
    assert FindWalk(t, 0, request, 0, verb, map[]) == FindWalk(t, 1, request, 1, verb, map[]);
    assert FindWalk(t, 0, [seg], 0, verb, map[]) == FindWalk(t, 1, [seg], 1, verb, map[]);
  }
  /** A wildcard segment before the last one makes addRoute panic, once
      the walk reaches it through named segments. */
  lemma {:induction false} InsertWildcardNotLast(nodes: seq<Node>, cur: nat, parts: seq<string>, i: nat, k: nat)
    requires WellFormed(nodes) && cur < |nodes| && i <= k < |parts| - 1 && parts[k] == "*"
    requires forall j | i <= j < k :: Static(parts[j])
    ensures Insert(nodes, cur, parts, i).err == Some(ErrWildcardNotLast)
    decreases k - i
  {
    if i < k {
      assert Static(parts[i]);
      var d := Descend(nodes, cur, parts[i]);
      InsertWildcardNotLast(d.0, d.1, parts, i + 1, k);
    } else {
      assert !IsParamPart(parts[i]);
    }
  }

  /** No node of the trie ends in a wildcard. */
  predicate NoWildcard(nodes: seq<Node>)
  {
    forall j | 0 <= j < |nodes| :: !nodes[j].isWildcard
  }

  /** A "*" segment before the last makes the walk panic, whatever the
      segments before it: with the wildcard message when the walk gets
      there, or earlier with the parameter-after-wildcard message. A trie
      without wildcard nodes can only give the first. */
  lemma {:induction false} InsertEarlyWildcard(nodes: seq<Node>, cur: nat, parts: seq<string>, i: nat, k: nat)
    requires WellFormed(nodes) && cur < |nodes| && i <= k < |parts| - 1 && parts[k] == "*"
    requires forall j | i <= j < k :: parts[j] != "*"
    ensures var e := Insert(nodes, cur, parts, i).err;
      e == Some(ErrWildcardNotLast) || e == Some(ErrParamAfterWildcard)
    ensures NoWildcard(nodes) ==> Insert(nodes, cur, parts, i).err == Some(ErrWildcardNotLast)
    decreases k - i
  {
    if i < k {
      var part := parts[i];
      if IsParamPart(part) {
        if !nodes[cur].isWildcard {
          var d := Descend(nodes, cur, ParamKey);
          var marked := MarkParam(d.0, cur, part[1..]);
          assert NoWildcard(nodes) ==> NoWildcard(marked) by {
            if NoWildcard(nodes) {
              forall j | 0 <= j < |marked| ensures !marked[j].isWildcard {
                if j < |nodes| && j != cur {
                  assert marked[j] == nodes[j];
                }
              }
            }
          }
          InsertEarlyWildcard(marked, d.1, parts, i + 1, k);
        }
      } else {
        var d := Descend(nodes, cur, part);
        assert NoWildcard(nodes) ==> NoWildcard(d.0) by {
          if NoWildcard(nodes) {
            forall j | 0 <= j < |d.0| ensures !d.0[j].isWildcard {
              if j < |nodes| && j != cur {
                assert d.0[j] == nodes[j];
              }
            }
          }
        }
        InsertEarlyWildcard(d.0, d.1, parts, i + 1, k);
      }
    } else {
      assert !IsParamPart(parts[i]);
    }
  }

  /** A route whose first "*" segment is not its last never registers, on
      any trie: addRoute panics, with "wildcard must be the last part of the
      path" or, when a parameter segment before the "*" meets a wildcard
      node, with "parameter after wildcard not allowed". On a trie without
      wildcard nodes (a new router among them), and whenever the segments
      before the "*" are named ones, the panic is the wildcard one. */
  lemma WildcardNotLastPanics(nodes: seq<Node>, verb: string, path: string, handlers: seq<HandlerFunc>, k: nat)
    requires WellFormed(nodes) && k < |SplitPath(path)| - 1 && SplitPath(path)[k] == "*"
    requires forall j | 0 <= j < k :: SplitPath(path)[j] != "*"
    ensures var e := AddRouteSpec(nodes, verb, path, handlers).1;
      e == Some(ErrWildcardNotLast) || e == Some(ErrParamAfterWildcard)
    ensures NoWildcard(nodes) ==> AddRouteSpec(nodes, verb, path, handlers).1 == Some(ErrWildcardNotLast)
    ensures (forall j | 0 <= j < k :: Static(SplitPath(path)[j])) ==>
              AddRouteSpec(nodes, verb, path, handlers).1 == Some(ErrWildcardNotLast)
  {
    var parts := SplitPath(path);
    InsertEarlyWildcard(nodes, 0, parts, 0, k);
    if forall j | 0 <= j < k :: Static(parts[j]) {
      InsertWildcardNotLast(nodes, 0, parts, 0, k);
    }
  }

  /** Along an existing path of named segments the walk adds nothing and
      reaches the node Follow names. */
  lemma {:induction false} InsertAlong(nodes: seq<Node>, cur: nat, parts: seq<string>, i: nat, k: nat, n: nat)
    requires WellFormed(nodes) && cur < |nodes| && i <= k <= |parts| && Follow(nodes, cur, parts[..k], i) == Some(n)
    requires forall j | i <= j < k :: Static(parts[j])
    ensures Insert(nodes, cur, parts, i) == Insert(nodes, n, parts, k)
    decreases k - i
  {
    if i < k {
      assert parts[..k][i] == parts[i] && Static(parts[i]);
      assert NodeOk(nodes, cur);
      InsertAlong(nodes, nodes[cur].children[parts[i]], parts, i + 1, k, n);
    }
  }

  /** A parameter segment that the walk meets at a wildcard node, reached
      through existing named segments, panics with "parameter after
      wildcard not allowed", whatever follows it, and the trie is left as
      it was. */
  lemma ParamAtWildcardPanics(nodes: seq<Node>, verb: string, path: string, handlers: seq<HandlerFunc>, k: nat, n: nat)
    requires WellFormed(nodes) && k < |SplitPath(path)| && IsParamPart(SplitPath(path)[k])
    requires forall j | 0 <= j < k :: Static(SplitPath(path)[j])
    requires Follow(nodes, 0, SplitPath(path)[..k], 0) == Some(n) && nodes[n].isWildcard
    ensures AddRouteSpec(nodes, verb, path, handlers) == (nodes, Some(ErrParamAfterWildcard))
  {
    InsertAlong(nodes, 0, SplitPath(path), 0, k, n);
  }

  /** An instance of ParamAtWildcardPanics: once the wildcard route under
      seg has been registered, for any method and on any trie,
      registering a parameter route "/seg/:x" panics with "parameter after
      wildcard not allowed" and leaves the trie as it was. */
  lemma ParamAfterWildcardPanics(nodes: seq<Node>, seg: string, v1: string, v2: string, x: string,
                                 h1: seq<HandlerFunc>, h2: seq<HandlerFunc>)
    requires WellFormed(nodes) && seg != [] && '/' !in seg && Static(seg) && '/' !in x
    ensures var first := AddRouteSpec(nodes, v1, "/" + seg + "/*", h1);
      AddRouteSpec(first.0, v2, "/" + seg + "/:" + x, h2) == (first.0, Some(ErrParamAfterWildcard))
  {
    TwoSegments(seg, "*");
    assert "/" + seg + "/*" == "/" + seg + "/" + "*";
    TwoSegments(seg, ":" + x);
    assert "/" + seg + "/:" + x == "/" + seg + "/" + (":" + x);
    var wild := [seg, "*"];
    var param := [seg, ":" + x];
    var d := Descend(nodes, 0, seg);
    var c := d.1;
    var marked := MarkWildcard(d.0, c);
    assert Insert(nodes, 0, wild, 0) == Insert(d.0, c, wild, 1);
    assert Insert(d.0, c, wild, 1) == Walk(marked, c, None);
    var first := AddRouteSpec(nodes, v1, "/" + seg + "/*", h1).0;
    assert first == marked || first == Store(marked, c, v1, Combined(h1));
    assert seg in first[0].children && first[0].children[seg] == c && first[c].isWildcard;
    assert Insert(first, 0, param, 0) == Insert(first, c, param, 1);
    assert IsParamPart(param[1]);
  }

  /** find follows children named exactly as the segments, leaving the
      parameters as they are. */
  lemma {:induction false} FindAlong(nodes: seq<Node>, cur: nat, parts: seq<string>, i: nat, k: nat, verb: string,
                                     params: map<string, string>, n: nat)
    requires WellFormed(nodes) && cur < |nodes| && i <= k <= |parts| && Follow(nodes, cur, parts[..k], i) == Some(n)
    ensures FindWalk(nodes, cur, parts, i, verb, params) == FindWalk(nodes, n, parts, k, verb, params)
    decreases k - i
  {
    if i < k {
      assert parts[..k][i] == parts[i];
      assert NodeOk(nodes, cur);
      FindAlong(nodes, nodes[cur].children[parts[i]], parts, i + 1, k, verb, params, n);
    }
  }

  /** What find does, on any trie, at the first segment that names no child
      of the node reached so far: a parameter node captures the segment
      under its current name and goes on below its parameter child; a
      wildcard node that is not a parameter node answers with its own
      handler and the (empty) parameters, whatever the rest of the path is;
      any other node ends the search with no handler and no parameter map. */
  lemma FindAtSegment(nodes: seq<Node>, verb: string, path: string, k: nat, n: nat)
    requires WellFormed(nodes) && k < |SplitPath(path)|
    requires Follow(nodes, 0, SplitPath(path)[..k], 0) == Some(n)
    requires SplitPath(path)[k] !in nodes[n].children
    ensures var parts := SplitPath(path);
      var node := nodes[n];
      node.isParam ==>
        && ParamKey in node.children && node.children[ParamKey] < |nodes|
        && FindSpec(nodes, verb, path) == FindWalk(nodes, node.children[ParamKey], parts, k + 1, verb, map[node.paramName := parts[k]])
        && (k + 1 == |parts| ==>
              FindSpec(nodes, verb, path) == Match(Lookup(nodes[node.children[ParamKey]].handler, verb), Some(map[node.paramName := parts[k]])))
    ensures !nodes[n].isParam && nodes[n].isWildcard ==> FindSpec(nodes, verb, path) == Match(Lookup(nodes[n].handler, verb), Some(map[]))
    ensures !nodes[n].isParam && !nodes[n].isWildcard ==> FindSpec(nodes, verb, path) == Match(None, None)
  {
    var parts := SplitPath(path);
    FindAlong(nodes, 0, parts, 0, k, verb, map[], n);
    assert NodeOk(nodes, n);
  }

  /** The parameter branch is tried before the wildcard branch and never
      falls back to it: with "/seg/:id" registered for one method and
      the wildcard route under seg for another, a request "/seg/x" for the second method takes
      the parameter branch, finds no handler there and gets 405, although
      the wildcard route would have matched it. */
  lemma ParamShadowsWildcard(seg: string, id: string, x: string, v1: string, v2: string,
                             h1: seq<HandlerFunc>, h2: seq<HandlerFunc>)
    requires seg != [] && '/' !in seg && Static(seg) && '/' !in id
    requires x != [] && '/' !in x && x != ParamKey && v1 != v2
    ensures var first := AddRouteSpec([Empty], v1, "/" + seg + "/:" + id, h1);
      var second := AddRouteSpec(first.0, v2, "/" + seg + "/*", h2);
      && first.1 == None && second.1 == None
      && FindSpec(second.0, v1, "/" + seg + "/" + x) == Match(Some(Combined(h1)), Some(map[id := x]))
      && FindSpec(second.0, v2, "/" + seg + "/" + x) == Match(None, Some(map[id := x]))
  {
    TwoSegments(seg, ":" + id);
    assert "/" + seg + "/:" + id == "/" + seg + "/" + (":" + id);
    TwoSegments(seg, "*");
    assert "/" + seg + "/*" == "/" + seg + "/" + "*";
    TwoSegments(seg, x);
    ParamTrieBuilt(seg, v1, id, h1);
    var t := ParamTrie(seg, v1, id, h1);
    assert Store(t[2 := Empty], 2, v1, Combined(h1)) == t;
    var wild := [seg, "*"];
    assert Insert(t, 0, wild, 0) == Insert(t, 1, wild, 1);
    var t2 := MarkWildcard(t, 1);
    assert Insert(t, 1, wild, 1) == Walk(t2, 1, None);
    var t3 := Store(t2, 1, v2, Combined(h2));
    var request := [seg, x];
    assert t3[1].children == map[ParamKey := 2] && t3[1].isParam && t3[1].paramName == id && t3[2] == t[2];
    assert FindWalk(t3, 0, request, 0, v1, map[]) == FindWalk(t3, 1, request, 1, v1, map[]);
    assert FindWalk(t3, 1, request, 1, v1, map[]) == FindWalk(t3, 2, request, 2, v1, map[id := x]);
    assert FindWalk(t3, 0, request, 0, v2, map[]) == FindWalk(t3, 1, request, 1, v2, map[]);
    assert FindWalk(t3, 1, request, 1, v2, map[]) == FindWalk(t3, 2, request, 2, v2, map[id := x]);
  }

  /** addRoute names a parameter node after the route it is adding, so a
      later route with another name at the same place renames the parameter
      for every route through that node. */
  lemma ParamNodeTakesLastName(nodes: seq<Node>, cur: nat, parts: seq<string>, i: nat)
    requires WellFormed(nodes) && cur < |nodes| && i < |parts| && IsParamPart(parts[i]) && !nodes[cur].isWildcard
    ensures var w := Insert(nodes, cur, parts, i);
      w.nodes[cur].isParam && w.nodes[cur].paramName == parts[i][1..]
  {
    var d := Descend(nodes, cur, ParamKey);
    var n2 := MarkParam(d.0, cur, parts[i][1..]);
    assert Insert(nodes, cur, parts, i) == Insert(n2, d.1, parts, i + 1);
  }
}
