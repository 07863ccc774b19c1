# gorouter in Dafny

A verified model of the sequential core of gorouter, a small HTTP routing
library written in Go, and of its demo application. Each Go source file of
the core becomes one Dafny module:

- `SimpleHttp` (request.dfy) is the streaming request parser of the raw TCP
  server. A buffered reader over a character stream reads the request line,
  then header lines one `'\n'`-terminated line at a time, and yields the
  method, the URI and the header map, or fails. The parser is a loose subset
  of the HTTP/1.1 message syntax of RFC 9112 (section 2.1 message format,
  section 3 request line, section 5 field lines).
- `Handlers` (handler.dfy) is the per-request `Context`: a class whose
  fields are the writer (an abstract sink that records headers and status
  codes), the request, the path parameters, the status code, the handler
  chain with its index, and the `Keys` map. Handlers and middlewares are
  values of a datatype (an application handler is a list of steps; a
  combined route handler; a handler wrapped by CORS, Auth, RequestID, Logger
  or Recover), interpreted by specification functions (`RunH`, `RunChain`,
  `RunNext`) and by the class's methods, which are proved equal to them.
- `Middleware` (middleware.dfy) holds `Chain`, the rate limiter's admission
  rule as a class with the per-address counter map, and the request-ID
  generator.
- `Routing` (router.dfy) is the router: the trie of nodes (an arena
  `seq<Node>` whose children are indices), route registration with its
  three panics, lookup, middleware application and dispatch.
- `Groups` (group.dfy) is the route group: prefixes, group middlewares and
  registration through the router.
- `Sample` (sample.dfy) is the demo application: CRUD handlers over the user
  list and the post list with its ID counter.
- `Strings` (strings.dfy) holds the Go standard-library string functions the
  core calls (`TrimSpace`, `Trim`, `Split`, `SplitN(…, 2)`, `HasSuffix`,
  `Join`), with their properties.

Behaviours of the code that the proofs make explicit:

- `find` returns no handler and no parameter map when a segment has no
  match, and `ServeHTTP` answers every missing handler with 405 "method not
  allowed"; the router's 404 handler is never used (`NoHandlerAnswers405`).
- `ServeHTTP` never fills the context's handler chain, so a handler that
  calls `c.Next()` finds nothing to run and leaves the context aborted: in a
  combined route handler it ends the chain, and the handlers after it never
  run (`NextEndsChain`, `NextInFirstHandlerEndsRoute`). Group middlewares
  therefore run strictly before the route's handlers, not around them
  (`GroupMiddlewaresRunFirst`).
- A parameter node keeps the parameter name of the last route registered
  through it (`ParamNodeTakesLastName`).
- A wildcard route `/seg/*` also matches `/seg` itself, and the rest of the
  path is not captured (`WildcardMatchesRest`, `FindAtSegment`).
- `find` tries a parameter node's branch before its wildcard branch and never
  falls back: with `/seg/:id` registered for one method and a wildcard under
  `seg` for another, a request of the second method under `seg` finds no
  handler and gets 405 (`ParamShadowsWildcard`).
- The root route `/` is stored under the root's child named "" (`RootPath`).
- Users are not unique by e-mail (the demo seeds six identical users), so
  the user handlers act on the first match only (`DeleteUserRemovesFirstOnly`).

## Model

| member | source | states |
|---|---|---|
| SimpleHttp.NextLine | tcprouter/request.go:22-25 | a line is read only when a '\n' is left; it is exactly the stream slice up to and including it, and the cursor moves past it |
| SimpleHttp.ReadHeaders | tcprouter/request.go:34-49 | a header block read successfully ends strictly after where it started and within the stream |
| SimpleHttp.Parse | tcprouter/request.go:20-58 | a successful parse leaves the reader strictly further on and within the stream |
| SimpleHttp.BufReader.constructor | tcprouter/request.go:16 | a new reader stands at the start of the stream |
| SimpleHttp.BufReader.ReadString | tcprouter/request.go:22-25 | succeeds exactly when a '\n' is left, returning that line and moving the cursor past it; on a read error everything left is consumed |
| SimpleHttp.ParseRequest | tcprouter/request.go:20-58 | the loop over the reader yields exactly what Parse yields, leaves the reader just after the header block on success, and at the end of the stream on a read error |
| SimpleHttp.NextLineShape | tcprouter/request.go:22-25 | reading a line fails exactly when no '\n' is left; otherwise the line ends at the first '\n' |
| SimpleHttp.NextLineAt | tcprouter/request.go:22 | a line that ends with its only '\n' is read whole |
| SimpleHttp.MalformedIffFewSpaces | tcprouter/request.go:26-30 | the request line is malformed exactly when the trimmed line holds fewer than two spaces |
| SimpleHttp.RequestLineTokens | tcprouter/request.go:31 | on success the method and URI are the first two space-free tokens of the trimmed line, and the rest is discarded |
| SimpleHttp.RequestLineFromTokens | tcprouter/request.go:26-31 | conversely, a trimmed line starting with two space-free tokens each followed by a space yields exactly those tokens |
| SimpleHttp.NoLineNoRequest | tcprouter/request.go:22-25 | a stream without a further line break gives a read error and no request, and the server loop reads no request |
| SimpleHttp.ReadHeadersLocal | tcprouter/request.go:35-49 | the header loop depends only on the stream up to the end of its block |
| SimpleHttp.ReadHeadersCut | tcprouter/request.go:36-39 | a stream cut anywhere inside the header block gives a read error |
| SimpleHttp.ParseIsLocal | tcprouter/request.go:20-58 | no body is consumed: a parse depends only on the stream up to the end of the header block |
| SimpleHttp.ParseCut | tcprouter/request.go:22-39 | a stream cut anywhere before the end of the header block gives a read error, never a partial request |
| SimpleHttp.CrlfEndsHeaders | tcprouter/request.go:40-43 | a bare CRLF ends the header block, leaving the map as it was and the reader after it |
| SimpleHttp.NoColonSkipped | tcprouter/request.go:44-47 | a non-blank header line without a colon is skipped: the result is as if the line were absent |
| SimpleHttp.FieldSplitsAtFirstColon | tcprouter/request.go:44-48 | a field splits at its first colon only, so the value may hold colons; name and value are trimmed |
| SimpleHttp.CollectLastWins | tcprouter/request.go:48 | with a repeated header name the map holds the value of the last occurrence |
| SimpleHttp.CollectKeeps | tcprouter/request.go:48 | a name that no field line carries keeps its earlier value, or stays absent |
| SimpleHttp.FieldLineRoundTrip | tcprouter/request.go:40-48 | a field written as "Name: Value CRLF" is read back as that field |
| SimpleHttp.ReadFieldLines | tcprouter/request.go:35-49 | over a sequence of field lines ending in CRLF the header loop builds the map the fields build in order and stops after the CRLF |
| SimpleHttp.RequestLineRoundTrip | tcprouter/request.go:26-31 | "M SP U SP V CRLF" with space-free tokens parses to M and U |
| SimpleHttp.RoundTrip | tcprouter/request.go:20-58 | a request written in wire form, wherever it stands and whatever follows, parses back to its method, URI and exactly its fields (last one wins), with the reader just after the blank line |
| SimpleHttp.MalformedExample | tcprouter/request.go:28-30 | a one-token request line fails as malformed before any header is read |
| SimpleHttp.ReadAll | tcprouter/server.go:37-48 | every request the connection loop hands over leaves the reader further on and within the stream, each one further than the one before |
| SimpleHttp.ReadAllStops | tcprouter/server.go:39-44 | the loop hands over nothing exactly when the first parse fails, and otherwise starts with the request that parse returned |
| SimpleHttp.ReadAllStep | tcprouter/server.go:37-48 | a successful parse is handed over, and the loop goes on from where it left the reader |
| SimpleHttp.MessageParsed | tcprouter/request.go:20-58 | a well-written message followed by anything parses back to itself and leaves the rest of the stream in place |
| SimpleHttp.MessageStep | tcprouter/server.go:37-48 | a well-written message at the reader is the next request handed over, and the loop resumes just after it |
| SimpleHttp.ReadAllInOrder | tcprouter/server.go:37-48 | back-to-back well-written requests are handed over one by one in the order written, each read as itself; when the stream ends with the last of them, exactly those are handed over |
| Handlers.Prepared | pkg/router/handler.go:29-38 | newContext yields status 200, index -1, no handlers, an empty parameter map and an unaborted live context, keeping the pooled keys |
| Handlers.ResetCtx | pkg/router/handler.go:40-47 | reset clears writer, request, parameters and handlers and restores status 200 and index -1 |
| Handlers.SetStatus | pkg/router/handler.go:92-95 | the code is stored and written to the sink; the chain position is untouched |
| Handlers.WithHeader | pkg/router/handler.go:69-71 | only the named response header changes |
| Handlers.AbortCtx | pkg/router/handler.go:134-136 | after Abort the context is aborted and no handler remains, status untouched |
| Handlers.AbortWithStatusCtx | pkg/router/handler.go:139-142 | the code is stored and written, then the context is aborted |
| Handlers.SetKey | pkg/router/handler.go:74-79 | Keys is created on first use; the key holds the value and every other key is unchanged |
| Handlers.ParamValue | pkg/router/handler.go:59-61 | the stored parameter, or "" for a missing key or a missing map |
| Handlers.Last | pkg/router/handler.go:160-165 | nil exactly for an empty chain, otherwise the final element |
| Handlers.RunStep | pkg/router/handler.go:69-143 | one call of a Context method by a handler (Status, String/JSON as Content-Type then status, SetHeader, Set, Next, Abort, AbortWithStatus) never increases the number of chain handlers still to run, and keeps the context live, the chain, the request and the parameters |
| Handlers.RunSteps | pkg/router/handler.go:69-143 | a handler body, its calls in order, keeps the same guarantees as each single call |
| Handlers.RunH | pkg/router/router.go:199-201 | calling `h(c)`, for an application handler, a combined route handler or a handler wrapped by Logger, Recover, CORS, Auth or RequestID, keeps the context live, the chain, the request and the parameters, and never increases the number of chain handlers still to run |
| Handlers.RunNext | pkg/router/handler.go:50-56 | Next never moves backwards in the chain and always returns with the context aborted |
| Handlers.RunLoop | pkg/router/handler.go:52-55 | the loop of Next strictly shortens what remains and ends aborted |
| Handlers.RunChain | pkg/router/router.go:112-119 | the combined handler never un-runs handlers, keeps the chain, request and parameters |
| Handlers.RunCors | pkg/router/middleware.go:49-64 | CORS keeps request, parameters and chain; its branches are stated by CorsPreflight and CorsPassesOn |
| Handlers.RunAuth | pkg/router/middleware.go:67-77 | Auth keeps request, parameters and chain; its branches are stated by AuthGate |
| Handlers.ChosenId | pkg/router/middleware.go:107-110 | a non-empty incoming X-Request-ID is reused unchanged; otherwise the generated one is used |
| Handlers.StampId | pkg/router/middleware.go:111-112 | the ID becomes the X-Request-ID response header and the "RequestID" key, and nothing else changes |
| Handlers.RunRequestId | pkg/router/middleware.go:104-116 | RequestID keeps request, parameters and chain; what it adds is stated by ChosenId and StampId |
| Handlers.Context.constructor | pkg/router/handler.go:11-19 | the pool's zero Context |
| Handlers.Context.Prepare | pkg/router/handler.go:29-38 | the new state is Prepared of the old |
| Handlers.Context.Reset | pkg/router/handler.go:40-47 | the new state is ResetCtx of the old |
| Handlers.Context.IsAborted | pkg/router/handler.go:81-83 | holds exactly when the index has reached the end of the chain |
| Handlers.Context.Param | pkg/router/handler.go:59-61 | the value ParamValue gives on the current state |
| Handlers.Context.Status | pkg/router/handler.go:92-95 | the new state is SetStatus of the old |
| Handlers.Context.SetHeader | pkg/router/handler.go:69-71 | the new state is WithHeader of the old |
| Handlers.Context.Set | pkg/router/handler.go:74-79 | the new state is SetKey of the old |
| Handlers.Context.Abort | pkg/router/handler.go:134-136 | the new state is AbortCtx of the old |
| Handlers.Context.AbortWithStatus | pkg/router/handler.go:139-142 | the new state is AbortWithStatusCtx of the old |
| Handlers.Context.Next | pkg/router/handler.go:50-56 | the index-advancing loop ends in the state RunNext describes |
| Handlers.Context.DoStep | pkg/router/handler.go:98-112 | one step of an application handler (String/JSON set Content-Type, then the status) |
| Handlers.Context.Invoke | pkg/router/router.go:199-201 | calling a handler on the context ends in the state RunH describes |
| Handlers.Context.InvokeChain | pkg/router/router.go:112-119 | the loop with its abort check ends in the state RunChain describes |
| Handlers.Context.InvokeCors | pkg/router/middleware.go:49-64 | the new state is RunCors of the old |
| Handlers.Context.InvokeAuth | pkg/router/middleware.go:67-77 | the new state is RunAuth of the old |
| Handlers.Context.InvokeRequestId | pkg/router/middleware.go:104-116 | the new state is RunRequestId of the old |
| Handlers.ChainStopsAtFirstAbort | pkg/router/router.go:112-119 | the combined handler runs its handlers in order and stops right after the first that leaves the context aborted |
| Handlers.ChainRunsAll | pkg/router/router.go:112-119 | when no handler aborts, the combined handler runs every one in order |
| Handlers.CallingNextAborts | pkg/router/handler.go:50-56 | a handler that calls Next returns with the context aborted, whatever it does afterwards |
| Handlers.NextEndsChain | pkg/router/router.go:112-119 | in a combined handler, a handler that calls Next is the last one to run |
| Handlers.LoopRunsRest | pkg/router/handler.go:52-55 | over handlers that neither call Next nor abort, the loop runs each remaining one once, in order, and ends past the chain |
| Handlers.NextRunsRest | pkg/router/handler.go:50-56 | Next runs the rest of the chain in order |
| Handlers.ResetIsInvisible | pkg/router/handler.go:29-47 | reset before newContext changes nothing newContext does not set |
| Handlers.CorsPreflight | pkg/router/middleware.go:52-58 | OPTIONS gets the three CORS headers, status 200 and an aborted context, and the wrapped handler never runs |
| Handlers.CorsPassesOn | pkg/router/middleware.go:52-61 | any other method gets the three headers and then exactly the wrapped handler |
| Handlers.AuthGate | pkg/router/middleware.go:69-75 | a refused request gets 401 and an aborted context without the wrapped handler; an accepted one runs exactly the wrapped handler |
| Handlers.ChainAppend | pkg/router/router.go:112-119 | a chain `a + b` runs `a` and reaches `b` only when `a` leaves the context unaborted |
| Middleware.Chain | pkg/router/middleware.go:13-18 | the backwards loop nests the handler so that the first middleware is outermost; with none the handler is returned |
| Middleware.NestAppend | pkg/router/middleware.go:13-18 | chaining `a + b` is chaining `b` inside `a` |
| Middleware.LoggingIsTransparent | pkg/router/middleware.go:21-46 | a handler wrapped only in Logger and Recover behaves as the handler |
| Middleware.Count | pkg/router/middleware.go:93 | a missing address reads as count 0 |
| Middleware.Admit | pkg/router/middleware.go:92-98 | a request is refused exactly when its address's count has reached the limit; otherwise only that count goes up by one |
| Middleware.AdmittedFor | pkg/router/middleware.go:90-100 | no more requests are admitted than arrive |
| Middleware.WindowAdmits | pkg/router/middleware.go:93-97 | within one window each address gets exactly min(its requests, the room below the limit) admitted, whatever other addresses do |
| Middleware.FreshWindowAdmitsAtMostLimit | pkg/router/middleware.go:84-97 | between resets no address gets more than `limit` requests through |
| Middleware.RateLimiter.constructor | pkg/router/middleware.go:80-81 | a limiter starts with an empty counter map |
| Middleware.RateLimiter.Tick | pkg/router/middleware.go:84-88 | the ticker replaces the counters by an empty map |
| Middleware.RateLimiter.Serve | pkg/router/middleware.go:90-100 | a refused request is answered 429 and aborted with the counters unchanged; an admitted one updates the counters and runs the wrapped handler |
| Middleware.RandomString | pkg/router/middleware.go:124-131 | n characters, each one of the 52 ASCII letters, picked by the clock reading |
| Middleware.GenerateRequestId | pkg/router/middleware.go:119-121 | the timestamp, a dash, then six letters |
| Middleware.SameTickSameLetter | pkg/router/middleware.go:127-129 | when the clock does not move, every letter is the same |
| Routing.SplitPath | pkg/router/router.go:74 | a path always splits into at least one segment |
| Routing.Descend | pkg/router/router.go:97-103 | an existing child is taken unchanged; otherwise a new empty child is added under the key; every other node is untouched |
| Routing.MarkParam | pkg/router/router.go:81-89 | the node becomes a parameter node with the new name, keeping children and handlers |
| Routing.MarkWildcard | pkg/router/router.go:94 | the node becomes a wildcard node, keeping children and handlers |
| Routing.Store | pkg/router/router.go:112 | the method's handler is stored; the other methods and the children are untouched |
| Routing.Insert | pkg/router/router.go:76-105 | the walk keeps the trie well formed, only adds nodes and never touches the nodes before its start |
| Routing.AddRouteSpec | pkg/router/router.go:73-120 | registration keeps the trie well formed and never removes a node; its three panics are stated by DuplicateRoute, WildcardNotLastPanics and ParamAtWildcardPanics |
| Routing.Lookup | pkg/router/router.go:175-178 | a handler exactly when the node has one for the method |
| Routing.FindWalk | pkg/router/router.go:158-178 | a failed match carries no handler; a match keeps every parameter captured so far |
| Routing.FindSpec | pkg/router/router.go:153-179 | a lookup without a parameter map has no handler; its branches on any trie are stated by FindFollows and FindAtSegment |
| Routing.Served | pkg/router/router.go:181-202 | dispatch leaves a live context for the request, with the parameters find returned and an empty chain |
| Routing.Router.constructor | pkg/router/router.go:57-71 | a new router has only its root node and no middleware |
| Routing.Router.Use | pkg/router/router.go:149-151 | the middlewares are appended in call order and the trie is untouched |
| Routing.Router.AddRoute | pkg/router/router.go:73-120 | the loop over the segments leaves the trie and the panic AddRouteSpec describes, and keeps the trie well formed |
| Routing.Router.Child | pkg/router/router.go:97-103 | the new state is Descend of the old |
| Routing.Router.MarkParamNode | pkg/router/router.go:81-89 | the new state is MarkParam of the old |
| Routing.Router.MarkWildcardNode | pkg/router/router.go:94 | the new state is MarkWildcard of the old |
| Routing.Router.SetHandler | pkg/router/router.go:107-119 | the new state is Store of the old |
| Routing.Router.Find | pkg/router/router.go:153-179 | the loop yields what FindSpec yields |
| Routing.Router.ApplyMiddleware | pkg/router/router.go:204-209 | the handler wrapped so that the first registered middleware is outermost |
| Routing.Router.ServeHttp | pkg/router/router.go:181-202 | the context ends as Served describes |
| Routing.InsertStatic | pkg/router/router.go:96-104 | along static segments registration never panics and reaches the node named by those segments |
| Routing.InsertExisting | pkg/router/router.go:97-103 | along an existing static path registration changes nothing |
| Routing.FindFollows | pkg/router/router.go:158-160 | an exact child is taken before any parameter or wildcard, capturing nothing |
| Routing.AddThenFind | pkg/router/router.go:73-179 | a route registered on a static path is then found there for its method, with no parameters |
| Routing.DuplicateRoute | pkg/router/router.go:107-109 | registering the same method and static path twice panics the second time and leaves the trie as the first left it |
| Routing.NoHandlerAnswers405 | pkg/router/router.go:194-197 | with no handler found, the answer is 405 as plain text and no application handler runs |
| Routing.NextInFirstHandlerEndsRoute | pkg/router/router.go:112-119 | when the first handler of a route calls Next, it is the only one of the route to run |
| Routing.PathOf | pkg/router/router.go:74 | "/" followed by non-empty slash-free segments joined by "/" splits back into those segments |
| Routing.SlashPadding | pkg/router/router.go:74 | leading and trailing slashes do not change the segments |
| Routing.RootPath | pkg/router/router.go:74 | "/" and "" both become the single empty segment |
| Routing.ParamTrieBuilt | pkg/router/router.go:77-89 | registering `/seg/:name` marks the `seg` node as a parameter node named `name` and descends into its parameter child |
| Routing.ParamCaptured | pkg/router/router.go:161-163 | on a new router holding only `/seg/:name`, a request for `/seg/value` finds the route and captures `value` under `name` (any trie: FindAtSegment) |
| Routing.WildcardTrieBuilt | pkg/router/router.go:90-95 | a final "*" marks the current node as a wildcard node and stops there |
| Routing.WildcardTrieStored | pkg/router/router.go:90-112 | the handler of a wildcard route is stored on the wildcard node itself |
| Routing.WildcardMatchesRest | pkg/router/router.go:164-167 | on a new router holding only the wildcard route under `seg`, any longer path under `seg`, and `/seg` itself, finds the route and captures nothing (any trie: FindAtSegment) |
| Routing.InsertWildcardNotLast | pkg/router/router.go:90-93 | a "*" segment before the last, reached through named segments, makes the walk panic with "wildcard must be the last part of the path" |
| Routing.InsertEarlyWildcard | pkg/router/router.go:76-93 | a "*" segment before the last makes the walk panic, with the wildcard message or, at a wildcard node met by an earlier parameter segment, the parameter-after-wildcard one; only the first on a trie without wildcard nodes |
| Routing.WildcardNotLastPanics | pkg/router/router.go:76-93 | on any trie, a route whose first "*" is not its last segment never registers: it panics with "wildcard must be the last part of the path" or "parameter after wildcard not allowed"; exactly the first on a trie without wildcard nodes (a new router among them) and whenever the segments before the "*" are named ones |
| Routing.InsertAlong | pkg/router/router.go:96-103 | along existing named segments the walk adds nothing and reaches the node they name |
| Routing.ParamAtWildcardPanics | pkg/router/router.go:77-80 | on any trie, a parameter segment reached through existing named segments at a wildcard node panics with "parameter after wildcard not allowed", whatever follows, and leaves the trie unchanged |
| Routing.ParamAfterWildcardPanics | pkg/router/router.go:77-80 | the top-level instance: on any trie, once "/seg" with a final "*" is registered, registering "/seg/:x" panics with "parameter after wildcard not allowed" and leaves the trie unchanged |
| Routing.FindAlong | pkg/router/router.go:158-160 | find along children named exactly as the segments reaches the node they name and keeps the parameters |
| Routing.FindAtSegment | pkg/router/router.go:158-172 | on any trie, at the first segment naming no child: a parameter node captures the segment under its current name and continues below its parameter child; otherwise a wildcard node answers with its own handler for the method (or none) and the parameters, ignoring the rest of the path; any other node gives no handler and no parameter map |
| Routing.ParamShadowsWildcard | pkg/router/router.go:161-168 | with a parameter route for one method and a wildcard route for another at the same place, a request for the second method takes the parameter branch and finds no handler, while the first method's handler is found with the segment captured |
| Routing.ParamNodeTakesLastName | pkg/router/router.go:81-82 | a parameter segment overwrites the node's parameter name, so the last route registered through it decides the name |
| Groups.AbsolutePath | pkg/router/group.go:75-85 | an empty relative path gives the prefix; otherwise the joined path, with exactly one '/' appended when the relative path ends in '/' and the joined one does not, and unchanged in every other case |
| Groups.RouterGroup.constructor | pkg/router/router.go:142-147 | a top-level group with the prefix, the router, no parent and no middleware |
| Groups.RouterGroup.Group | pkg/router/group.go:19-26 | a new child group whose prefix is the plain concatenation, sharing the router, with this group as parent and no middleware of its own |
| Groups.RouterGroup.Use | pkg/router/group.go:28-30 | the middlewares are appended in call order; nothing else changes |
| Groups.RouterGroup.CombineHandlers | pkg/router/group.go:88-94 | the two copy loops give the group's middlewares followed by the handlers, never the parent's |
| Groups.RouterGroup.Handle | pkg/router/group.go:68-72 | exactly one registration, of the absolute path with the combined handlers; the trie stays well formed and the router's middlewares are unchanged |
| Groups.GroupMiddlewaresRunFirst | pkg/router/group.go:68-72 | a grouped route runs the group's middlewares to completion first and its own handlers only when they leave the context unaborted |
| Sample.Atoi | examples/sample.go:182 | a result always lies in the 64-bit range, is negative only for text starting with '-', and the empty text has none |
| Sample.Itoa | examples/sample.go:177 | the decimal text, with a minus sign exactly for negative numbers |
| Sample.AtoiItoa | examples/sample.go:177-182 | the ID text createPost answers with is read back by getPost as the same ID |
| Sample.FirstUser | examples/sample.go:123-128 | the position of the first user with that e-mail; none when no user has it |
| Sample.FirstPost | examples/sample.go:187-191 | the position of the first post with that ID; none when no post has it |
| Sample.RemoveAt | examples/sample.go:153 | one element fewer, and the removed one is the only element missing |
| Sample.Json | pkg/router/handler.go:105-112 | the JSON content type is set and the code stored and written |
| Sample.Store.constructor | examples/sample.go:32-35 | empty lists and no post created yet, which satisfies the ID invariant |
| Sample.Store.SeedUsers | examples/sample.go:68-77 | six copies of the sample user are appended and the earlier list is kept |
| Sample.Store.ListUsers | examples/sample.go:85-96 | the call is counted and the answer is 200, with the lists unchanged |
| Sample.Store.CreateUser | examples/sample.go:98-119 | a body that does not decode or lacks a name or e-mail gets 400 and no change; otherwise the user is appended and the answer is 201 |
| Sample.Store.SearchUser | examples/sample.go:123-128 | the loop finds the first user with the e-mail, as FirstUser states |
| Sample.Store.GetUser | examples/sample.go:121-130 | 200 with the first user whose e-mail is the parameter, else 404 |
| Sample.Store.UpdateUser | examples/sample.go:132-147 | 400 and no change for a bad body; otherwise only the first match is replaced (200), or nothing changes (404) |
| Sample.Store.DeleteUser | examples/sample.go:149-159 | only the first match is removed, keeping the order of the rest (200), or nothing changes (404) |
| Sample.Store.ListPosts | examples/sample.go:161-166 | the answer is 200 |
| Sample.Store.CreatePost | examples/sample.go:168-178 | 400 and no change for a bad body; otherwise the counter goes up by one, the post is appended under that new ID whatever ID it carried, the answer carries the ID text, and the IDs stay strictly increasing |
| Sample.Store.SearchPost | examples/sample.go:187-191 | the loop finds the first post with the ID, as FirstPost states |
| Sample.Store.GetPost | examples/sample.go:180-194 | 400 for a non-integer ID; otherwise 200 with the post of that ID, else 404 |
| Sample.Store.UpdatePost | examples/sample.go:196-217 | 400 and no change for a non-integer ID, then for a bad body; otherwise the post of that ID is replaced and keeps its ID (200), or nothing changes (404); IDs stay ordered |
| Sample.Store.DeletePost | examples/sample.go:219-234 | 400 and no change for a non-integer ID; otherwise the post of that ID is removed keeping the rest in order (200), or nothing changes (404) |
| Sample.RemoveKeepsOrder | examples/sample.go:226-228 | removing a post keeps the IDs strictly increasing |
| Sample.PostIdsUnique | examples/sample.go:168-178 | with the IDs createPost hands out, an ID names at most one post |
| Sample.CreatedPostFound | examples/sample.go:168-194 | a created post gets an ID no earlier post has and is found by getPost under the ID text of the answer |
| Sample.DeletedPostGone | examples/sample.go:219-234 | after deletePost, getPost for that ID answers 404 |
| Sample.DeleteUserRemovesFirstOnly | examples/sample.go:149-159 | with two users sharing an e-mail, deleting removes only the first and the other is then found |

## Left out

- The concurrent TCP server (tcprouter/server.go): workers, the job queue, listeners and TLS. Only its read loop, "parse repeatedly and stop at the first error", is kept, as `SimpleHttp.ReadAll`, whose result is the sequence of requests it would enqueue.
- tcprouter/response.go and tcprouter/server/server.go: a pass-through write and `main` wiring.
- pkg/router/db.go and the load generator: database and network clients.
- `HandlerCache`: its only use in `ServeHTTP` is commented out.
- `PrintRoutes`: it only prints.
- `Query`, `BindJSON`, `Data`, `HTML`, `Redirect`, `AbortWithJSON`, `Error` and `GetHeader`: bodies and encoding. The response writer is a sink that records headers and status codes; `String` and `JSON` are modelled only as their header and status steps.
- The JSON encoding of answers. The messages the demo handlers write are not modelled, only their status codes.
- The `GET`/`POST`/`PUT`/`DELETE`/`PATCH`/`HEAD`/`OPTIONS` wrappers: each is one call to `addRoute` or `handle` with a fixed method name.
- `Static` and `createStaticHandler`: they serve files.
- `authMiddleware` in router.go: it is not part of the router's core.
- Logger and Recover: modelled as pass-through wrappers. Logger only logs a duration, and Recover only acts on a panic, which the model has none of.
- The rate limiter's ticker goroutine: modelled as the `Tick` method, called at will.
- Middleware.RateLimiter.Serve: the rate limiter is a class of its own, not one more case of the middleware datatype, so it cannot be nested by `Chain`.
- Middleware.RandomString: the clock is a parameter `now(i)`, the reading for the i-th letter. Wall-clock time and the timestamp of `generateRequestID` are parameters too.
- Handlers.RunAuth / Handlers.AuthGate / Handlers.Context.InvokeAuth: Go's `authFunc` receives the `*Context`; the model's callback receives only the request (method, path and headers), so it can neither read the parameters or keys nor change the context. A function over the context cannot be a field of the handler datatype that the context itself holds.
- Handlers.HeaderGet / Handlers.ChosenId / Handlers.StampId / Handlers.WithHeader: header names are compared exactly as written. Go canonicalises them (`x-request-id` and `X-Request-ID` are the same header to Go), so an incoming ID sent under another spelling is reused by Go but not by the model.
- Groups.AbsolutePath: `path.Join` of the Go standard library is a parameter `join`. Its cleaning of `.`/`..` and double slashes is not modelled.
- `json.Decode` of request bodies: an `Option` input (the decoded record, or none for invalid JSON).
- Sample.Store.CreatePost: `lastPostID` and `getCount` are unbounded integers. The 64-bit wrap-around after 2^63 - 1 posts is not modelled.
- Sample.Atoi: the two errors of `strconv.Atoi` (bad syntax, out of range) are one `None`.
- `notFound`: the router's 404 handler is never called by the code.
- Concurrency: the globals of the demo and the rate limiter's map are updated by concurrent handlers without locking. The model runs one request at a time.
- Strings are sequences of characters. `TrimSpace` trims ASCII white space only, not the other Unicode spaces.
- `fmt.Println("No match found")` in `find`: console output.
