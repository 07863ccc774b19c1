/** The parts of pkg/router/middleware.go that stand on their own: Chain,
    the admission rule of RateLimiter, and the request-ID generator. What
    CORS, Auth and RequestID do around the handler they wrap is defined with
    the handler calculus, in module Handlers. */
module Middleware {
  import opened Strings
  import opened Handlers

  /** `h` wrapped by `ms`, the first middleware outermost. */
  function Nest(h: HandlerFunc, ms: seq<MiddlewareFunc>): HandlerFunc
  {
    if ms == [] then h else Wrapped(ms[0], Nest(h, ms[1..]))
  }

  /** Chain: applies the middlewares from the last to the first, so that
      the first one listed is the outermost. */
  method Chain(h: HandlerFunc, ms: seq<MiddlewareFunc>) returns (r: HandlerFunc)
    ensures r == Nest(h, ms)
    ensures ms != [] ==> r.Wrapped? && r.middleware == ms[0]
  {
    r := h;
    var i := |ms|;
    assert ms[i..] == [];
    while i > 0
      invariant 0 <= i <= |ms|
      invariant r == Nest(h, ms[i..])
    {
      i := i - 1;
      assert ms[i..][1..] == ms[i + 1..];
      r := Wrapped(ms[i], r);
    }
    assert ms[0..] == ms;
  }

  /** Chaining two lists is chaining the second inside the first. */
  lemma {:induction false} NestAppend(h: HandlerFunc, a: seq<MiddlewareFunc>, b: seq<MiddlewareFunc>)
    ensures Nest(h, a + b) == Nest(Nest(h, b), a)
    decreases |a|
  {
    if a == [] {
      assert a + b == b;
    } else {
      assert (a + b)[1..] == a[1..] + b;
      NestAppend(h, a[1..], b);
    }
  }

  /** Logger and Recover change nothing the model keeps: a handler wrapped
      only by them behaves as the handler. */
  lemma {:induction false} LoggingIsTransparent(s: Ctx, h: HandlerFunc, ms: seq<MiddlewareFunc>)
    requires Live(s)
    requires forall i | 0 <= i < |ms| :: ms[i] == Logger || ms[i] == Recover
    ensures RunH(s, Nest(h, ms)) == RunH(s, h)
    decreases |ms|
  {
    if ms != [] {
      LoggingIsTransparent(s, h, ms[1..]);
    }
  }

  // ------------------------------------------------------------ RateLimiter

  const StatusTooManyRequests := 429

  /** The count the limiter holds for `ip` (a missing entry reads as 0). */
  function Count(limiter: map<string, int>, ip: string): (n: int)
    ensures ip !in limiter ==> n == 0
  {
    if ip in limiter then limiter[ip] else 0
  }

  /** The admission rule: a request from `ip` is refused when its count has
      reached `limit`; otherwise its count goes up by one. */
  function Admit(limiter: map<string, int>, limit: int, ip: string): (r: Option<map<string, int>>)
    ensures r.None? <==> Count(limiter, ip) >= limit
    ensures r.Some? ==> Count(r.value, ip) == Count(limiter, ip) + 1 && r.value.Keys == limiter.Keys + {ip}
    ensures r.Some? ==> forall other | other != ip :: Count(r.value, other) == Count(limiter, other)
  {
    if Count(limiter, ip) >= limit then None else Some(limiter[ip := Count(limiter, ip) + 1])
  }

  /** How many of the requests `ips`, arriving in order within one window,
      from `ip` are admitted. */
  function AdmittedFor(limiter: map<string, int>, limit: int, ips: seq<string>, ip: string): (n: nat)
    ensures n <= |ips|
    decreases |ips|
  {
    if ips == [] then 0
    else
      match Admit(limiter, limit, ips[0])
      case None => AdmittedFor(limiter, limit, ips[1..], ip)
      case Some(next) => (if ips[0] == ip then 1 else 0) + AdmittedFor(next, limit, ips[1..], ip)
  }

  /** How many of `ips` come from `ip`. */
  function Occurrences(ips: seq<string>, ip: string): (n: nat)
    ensures n <= |ips|
  {
    if ips == [] then 0 else (if ips[0] == ip then 1 else 0) + Occurrences(ips[1..], ip)
  }

  function Min(a: int, b: int): int { if a <= b then a else b }

  function Max(a: int, b: int): int { if a >= b then a else b }

  /** Within a window the limiter admits, from each address, exactly as many
      requests as the room its count leaves below `limit`, and refuses the
      rest; other addresses do not affect it. */
  lemma {:induction false} WindowAdmits(limiter: map<string, int>, limit: int, ips: seq<string>, ip: string)
    ensures AdmittedFor(limiter, limit, ips, ip) == Min(Occurrences(ips, ip), Max(limit - Count(limiter, ip), 0))
    decreases |ips|
  {
    if ips != [] {
      match Admit(limiter, limit, ips[0])
      case None =>
        WindowAdmits(limiter, limit, ips[1..], ip);
      case Some(next) =>
        WindowAdmits(next, limit, ips[1..], ip);
    }
  }

  /** After a reset, no address gets more than `limit` requests through. */
  lemma FreshWindowAdmitsAtMostLimit(limit: int, ips: seq<string>, ip: string)
    ensures AdmittedFor(map[], limit, ips, ip) == Min(Occurrences(ips, ip), Max(limit, 0))
  {
    WindowAdmits(map[], limit, ips, ip);
  }

  /** The state RateLimiter(limit, per) closes over: the per-address counts,
      emptied by the ticker every `per`. */
  class RateLimiter {
    const limit: int
    var limiter: map<string, int>

    constructor (limit: int)
      ensures this.limit == limit && limiter == map[]
    {
      this.limit := limit;
      limiter := map[];
    }

    /** The ticker firing: a new, empty map. */
    method Tick()
      modifies this
      ensures limiter == map[]
    {
      limiter := map[];
    }

    /** The middleware around `next`, run on `c`. */
    method Serve(c: Context, next: HandlerFunc)
      requires Live(c.State())
      modifies this, c
      ensures var ip := old(c.State()).request.value.remoteAddr;
        match Admit(old(limiter), limit, ip)
        case None => limiter == old(limiter) && c.State() == AbortWithStatusCtx(old(c.State()), StatusTooManyRequests)
        case Some(counts) => limiter == counts && c.State() == RunH(old(c.State()), next)
    {
      var ip := c.request.value.remoteAddr;
      if Count(limiter, ip) >= limit {
        c.AbortWithStatus(StatusTooManyRequests);
        return;
      }
      limiter := limiter[ip := Count(limiter, ip) + 1];
      c.Invoke(next);
    }
  }

  // ------------------------------------------------------------ request IDs

  const LetterBytes := "abcdefghijklmnopqrstuvwxyzABCDEFGHIJKLMNOPQRSTUVWXYZ"

  /** randomString: `n` letters, the i-th picked by the clock reading
      `now(i)` (UnixNano, which is never negative after 1970). */
  method RandomString(n: nat, now: nat -> nat) returns (s: string)
    ensures |s| == n
    ensures forall i | 0 <= i < n :: s[i] == LetterBytes[now(i) % |LetterBytes|]
    ensures forall i | 0 <= i < n :: s[i] in LetterBytes
  {
    var b := new char[n];
    var i := 0;
    while i < n
      invariant 0 <= i <= n
      invariant forall j | 0 <= j < i :: b[j] == LetterBytes[now(j) % |LetterBytes|]
    {
      b[i] := LetterBytes[now(i) % |LetterBytes|];
      i := i + 1;
    }
    s := b[..];
  }

  /** generateRequestID: a timestamp, a dash, six letters. */
  method GenerateRequestId(stamp: string, now: nat -> nat) returns (id: string)
    ensures |id| == |stamp| + 7 && id[..|stamp|] == stamp && id[|stamp|] == '-'
    ensures forall i | |stamp| < i < |id| :: id[i] in LetterBytes
  {
    var letters := RandomString(6, now);
    id := stamp + "-" + letters;
    assert forall i | |stamp| < i < |id| :: id[i] == letters[i - |stamp| - 1];
  }

  /** When the clock does not move between the reads, every letter is the
      same one: randomString is only as random as the clock is fine. */
  lemma SameTickSameLetter(s: string, n: nat, now: nat -> nat)
    requires |s| == n && forall i | 0 <= i < n :: s[i] == LetterBytes[now(i) % |LetterBytes|]
    requires forall i | 0 <= i < n :: now(i) == now(0)
    ensures forall i | 0 <= i < n :: s[i] == s[0]
  {
  }
}
