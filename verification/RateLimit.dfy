/** The request counter with an expiry that every request refreshes. Times and the
    window are in one unit, in which the window is a whole number. */
module RateLimit {
  import opened Wrappers

  /** A request that reached Redis, and whether its answer came back. */
  datatype Request = Request(at: int, answered: bool)

  datatype Counter = Absent | Present(count: nat, expires: int)

  /** INCR and EXPIRE: a key whose time has come counts as absent. */
  function Hit(c: Counter, at: int, window: int): Counter {
    Present(if c.Present? && at < c.expires then c.count + 1 else 1, at + window)
  }

  function After(rs: seq<Request>, window: int): Counter {
    if rs == [] then Absent else Hit(After(rs[..|rs| - 1], window), rs[|rs| - 1].at, window)
  }

  /** The count request `i` is answered with. */
  function Count(rs: seq<Request>, i: nat, window: int): nat
    requires i < |rs|
  {
    After(rs[..i + 1], window).count
  }

  /** Without an answer the request is refused with an internal error. */
  predicate Admitted(rs: seq<Request>, i: nat, maxRequests: int, window: int)
    requires i < |rs|
  {
    rs[i].answered && Count(rs, i, window) <= maxRequests
  }

  ghost predicate InOrder(rs: seq<Request>) {
    forall i, j :: 0 <= i < j < |rs| ==> rs[i].at <= rs[j].at
  }

  /** Requests `p` to `q - 1` follow each other less than a window apart. */
  ghost predicate Chained(rs: seq<Request>, p: nat, q: nat, window: int)
    requires q <= |rs|
  {
    forall i :: p < i < q ==> rs[i].at - rs[i - 1].at < window
  }

  lemma CountNext(rs: seq<Request>, i: nat, window: int)
    requires i < |rs|
    ensures Count(rs, i, window) >= 1
    ensures i > 0 && rs[i].at - rs[i - 1].at < window ==> Count(rs, i, window) == Count(rs, i - 1, window) + 1
    ensures i == 0 || rs[i].at - rs[i - 1].at >= window ==> Count(rs, i, window) == 1
  {
    assert rs[..i + 1][..i] == rs[..i];
    if i > 0 {
      assert rs[..i][..i - 1] == rs[..i - 1] && After(rs[..i], window).expires == rs[i - 1].at + window;
    }
  }

  lemma {:induction false} CountInChain(rs: seq<Request>, p: nat, i: nat, window: int)
    requires p <= i < |rs| && Chained(rs, p, i + 1, window)
    ensures Count(rs, i, window) == Count(rs, p, window) + (i - p)
    decreases i
  {
    if p < i {
      CountNext(rs, i, window);
      CountInChain(rs, p, i - 1, window);
    }
  }

  /** The admitted requests of the half-open interval that begins at `start`. */
  ghost function AdmittedIn(rs: seq<Request>, maxRequests: int, window: int, start: int): set<nat> {
    set i | 0 <= i < |rs| && start <= rs[i].at < start + window && Admitted(rs, i, maxRequests, window)
  }

  lemma {:induction false} WithinRange(s: set<nat>, lo: nat, n: nat)
    requires forall i :: i in s ==> lo <= i < lo + n
    ensures |s| <= n
    decreases n
  {
    if n == 0 {
      assert s == {};
    } else {
      var rest := s - {lo + n - 1};
      WithinRange(rest, lo, n - 1);
      assert s <= rest + {lo + n - 1};
      assert |s| <= |rest| + 1;
    }
  }

  /** Any two admitted requests of one window are fewer than maxRequests apart. */
  lemma AdmittedClose(rs: seq<Request>, maxRequests: int, window: int, start: int, i: nat, j: nat)
    requires InOrder(rs) && i <= j
    requires i in AdmittedIn(rs, maxRequests, window, start) && j in AdmittedIn(rs, maxRequests, window, start)
    ensures j - i < maxRequests
  {
    forall k | i < k < j + 1
      ensures rs[k].at - rs[k - 1].at < window
    {
      assert rs[k].at <= rs[j].at && rs[i].at <= rs[k - 1].at;
    }
    CountInChain(rs, i, j, window);
    CountNext(rs, i, window);
  }

  /** No half-open interval of one window's length admits more than maxRequests. */
  lemma AtMostMaxPerWindow(rs: seq<Request>, maxRequests: nat, window: int, start: int)
    requires InOrder(rs)
    ensures |AdmittedIn(rs, maxRequests, window, start)| <= maxRequests
  {
    var s := AdmittedIn(rs, maxRequests, window, start);
    if s != {} {
      var first := Smallest(s);
      forall i | i in s
        ensures first <= i < first + maxRequests
      {
        AdmittedClose(rs, maxRequests, window, start, first, i);
      }
      WithinRange(s, first, maxRequests);
    }
  }

  lemma {:induction false} Smallest(s: set<nat>) returns (m: nat)
    requires s != {}
    ensures m in s && forall i :: i in s ==> m <= i
    decreases s
  {
    m :| m in s;
    var rest := s - {m};
    assert forall i :: i in s ==> i == m || i in rest;
    if rest != {} {
      var other := Smallest(rest);
      if other < m {
        m := other;
      }
    }
  }

  /** In a maximal chain of requests less than a window apart, exactly the first
      maxRequests are admitted: a client that never pauses stays locked out. */
  lemma ChainAdmitsFirst(rs: seq<Request>, p: nat, q: nat, i: nat, maxRequests: int, window: int)
    requires p <= i < q <= |rs| && Chained(rs, p, q, window)
    requires p == 0 || rs[p].at - rs[p - 1].at >= window
    requires rs[i].answered
    ensures Admitted(rs, i, maxRequests, window) <==> i - p < maxRequests
  {
    CountNext(rs, p, window);
    CountInChain(rs, p, i, window);
  }

  datatype Decision = Next | TooManyRequests | RateLimitingError

  /** One client's counter in Redis, as both entry points use it. */
  class Limiter {
    const maxRequests: int
    const window: int
    var counter: Counter
    ghost var trace: seq<Request>

    ghost predicate Valid()
      reads this
    {
      counter == After(trace, window)
    }

    constructor (maxRequests: int, window: int)
      requires maxRequests > 0 && window > 0
      ensures Valid() && trace == [] && this.maxRequests == maxRequests && this.window == window
    {
      this.maxRequests, this.window := maxRequests, window;
      counter, trace := Absent, [];
    }

    /** RateLimit, the middleware. */
    method Handle(at: int, net: Reply) returns (d: Decision)
      requires Valid()
      modifies this
      ensures Valid()
      ensures trace == if net.Executed() then old(trace) + [Request(at, net.Answered?)] else old(trace)
      ensures d.Next? <==> net.Executed() && Admitted(trace, |trace| - 1, maxRequests, window)
      ensures d.RateLimitingError? <==> net.Failed?
    {
      if net.Executed() {
        counter := Hit(counter, at, window);
        trace := trace + [Request(at, net.Answered?)];
        assert trace[..|trace| - 1] == old(trace) && trace[..|trace|] == trace;
      }
      if net.Failed? {
        return RateLimitingError;
      }
      if counter.count > maxRequests {
        return TooManyRequests;
      }
      return Next;
    }

    /** CheckRateLimit, the repository method: true means over the limit. */
    method CheckRateLimit(at: int, limit: int, net: Reply) returns (r: Result<bool, ()>)
      requires Valid()
      modifies this
      ensures Valid()
      ensures trace == if net.Executed() then old(trace) + [Request(at, net.Answered?)] else old(trace)
      ensures r.Ok? <==> net.Answered?
      ensures r.Ok? ==> (r.value <==> !Admitted(trace, |trace| - 1, limit, window))
    {
      if net.Executed() {
        counter := Hit(counter, at, window);
        trace := trace + [Request(at, net.Answered?)];
        assert trace[..|trace| - 1] == old(trace) && trace[..|trace|] == trace;
      }
      if net.Failed? {
        return Err(());
      }
      return Ok(counter.count > limit);
    }
  }
}
