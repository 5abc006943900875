/** `CircuitBreaker`: a call gate that opens after repeated failures and lets one call probe after
    a cooldown, over any history of calls. */
module CircuitBreaking {
  import opened Wrappers

  /** What the protected function does if it is called: returns, raises one of the counted
      exceptions, or raises another one, which passes straight through. */
  datatype Behaviour = Succeeds | Fails | Escapes

  datatype State = Closed | Open | HalfOpen

  datatype Breaker = Breaker(state: State, failures: nat, openedAt: Option<real>)

  datatype Limits = Limits(failureThreshold: int, cooldownSeconds: real)
  {
    function Threshold(): nat {
      if failureThreshold < 1 then 1 else failureThreshold
    }

    function Cooldown(): real {
      if cooldownSeconds < 0.0 then 0.0 else cooldownSeconds
    }
  }

  const INITIAL := Breaker(Closed, 0, None)

  /** The breaker rejects a call at `now` without touching the function. */
  predicate Rejects(c: Limits, b: Breaker, now: real) {
    b.state == Open && (if b.openedAt.Some? then now - b.openedAt.value else 0.0) < c.Cooldown()
  }

  function Step(c: Limits, b: Breaker, now: real, f: Behaviour): Breaker {
    if Rejects(c, b, now) then b
    else
      var tried := if b.state == Open then b.(state := HalfOpen) else b;
      match f
      case Succeeds => Breaker(Closed, 0, None)
      case Escapes => tried
      case Fails =>
        var n := tried.failures + 1;
        if tried.state == HalfOpen || n >= c.Threshold() then Breaker(Open, n, Some(now))
        else tried.(failures := n)
  }

  /** The object, updated in place. */
  class CircuitBreaker {
    const limits: Limits
    var state: State
    var failureCount: nat
    var openedAt: Option<real>

    ghost function View(): Breaker
      reads this
    {
      Breaker(state, failureCount, openedAt)
    }

    constructor (limits: Limits)
      ensures this.limits == limits && View() == INITIAL
    {
      this.limits := limits;
      state, failureCount, openedAt := Closed, 0, None;
    }

    /** One call at clock reading `now`; answers whether the function was reached. */
    method Call(now: real, behaviour: Behaviour) returns (reached: bool)
      modifies this
      ensures View() == Step(limits, old(View()), now, behaviour)
      ensures reached <==> !Rejects(limits, old(View()), now)
    {
      if state == Open {
        var elapsed := if openedAt.Some? then now - openedAt.value else 0.0;
        if elapsed < limits.Cooldown() {
          return false;
        }
        state := HalfOpen;
      }
      reached := true;
      match behaviour
      case Succeeds =>
        failureCount, state, openedAt := 0, Closed, None;
      case Fails =>
        failureCount := failureCount + 1;
        if state == HalfOpen || failureCount >= limits.Threshold() {
          state, openedAt := Open, Some(now);
        }
      case Escapes =>
    }
  }

  // ------------------------------------------------------------------ histories

  datatype Attempt = Attempt(now: real, behaviour: Behaviour)

  ghost predicate Ordered(h: seq<Attempt>) {
    forall i, j :: 0 <= i < j < |h| ==> h[i].now <= h[j].now
  }

  function After(c: Limits, h: seq<Attempt>): Breaker {
    if h == [] then INITIAL
    else var n := |h| - 1; Step(c, After(c, h[..n]), h[n].now, h[n].behaviour)
  }

  /** The configured cooldown, a negative one counting as none, is over at `now`. */
  predicate CooledDown(c: Limits, openedAt: real, now: real) {
    now >= openedAt + if c.cooldownSeconds < 0.0 then 0.0 else c.cooldownSeconds
  }

  /** Attempt `k` of the history reached the function. */
  predicate Reached(c: Limits, h: seq<Attempt>, k: nat)
    requires k < |h|
  {
    !Rejects(c, After(c, h[..k]), h[k].now)
  }

  /** The counted failures that reached the function since the last success did. */
  function FailuresSinceSuccess(c: Limits, h: seq<Attempt>): nat {
    if h == [] then 0
    else
      var n := |h| - 1;
      var before := FailuresSinceSuccess(c, h[..n]);
      if !Reached(c, h, n) then before
      else match h[n].behaviour
        case Succeeds => 0
        case Fails => before + 1
        case Escapes => before
  }

  /** Attempt `k` opens the circuit, or opens it again: it reached the function, failed, and the
      failures since the last success are as many as the threshold, at least one. */
  predicate Opened(c: Limits, h: seq<Attempt>, k: nat)
    requires k < |h|
  {
    && Reached(c, h, k) && h[k].behaviour == Fails
    && FailuresSinceSuccess(c, h[..k + 1]) >= if c.failureThreshold < 1 then 1 else c.failureThreshold
  }

  /** After any history the failure count is the number of counted failures since the last success,
      and the circuit is closed exactly when that is below the threshold. */
  lemma {:induction false} CountsFailures(c: Limits, h: seq<Attempt>)
    ensures var b := After(c, h);
      && b.failures == FailuresSinceSuccess(c, h)
      && (b.state == Closed <==> b.failures < if c.failureThreshold < 1 then 1 else c.failureThreshold)
      && (b.state == Open ==> b.openedAt.Some?)
  {
    if h != [] {
      CountsFailures(c, h[..|h| - 1]);
    }
  }

  /** Such an attempt leaves the circuit open from its own time on, and no other one opens it. */
  lemma OpenedIs(c: Limits, h: seq<Attempt>, k: nat)
    requires k < |h|
    ensures Opened(c, h, k) <==>
      Reached(c, h, k) && After(c, h[..k + 1]).state == Open && After(c, h[..k + 1]).openedAt == Some(h[k].now)
  {
    CountsFailures(c, h[..k]);
    CountsFailures(c, h[..k + 1]);
    assert h[..k + 1][..k] == h[..k] && h[..k + 1][k] == h[k];
  }

  /** Since attempt `k` opened it the circuit is still open from then, or the cooldown has passed. */
  lemma {:induction false} OpenOrCooled(c: Limits, h: seq<Attempt>, k: nat)
    requires Ordered(h) && k < |h| && Opened(c, h, k)
    ensures After(c, h) == After(c, h[..k + 1]) || CooledDown(c, h[k].now, h[|h| - 1].now)
    ensures After(c, h[..k + 1]).openedAt == Some(h[k].now)
  {
    var n := |h| - 1;
    OpenedIs(c, h, k);
    if k == n {
      assert h[..k + 1] == h;
    } else {
      PrefixSame(c, h, n, k);
      assert h[..n][..k + 1] == h[..k + 1];
      OpenOrCooled(c, h[..n], k);
      assert h[..n][n - 1] == h[n - 1] && h[n - 1].now <= h[n].now;
    }
  }

  /** With a clock that does not go back, no call reaches the function between an opening of the
      circuit and the end of its cooldown. */
  lemma NoCallDuringCooldown(c: Limits, h: seq<Attempt>, k: nat, m: nat)
    requires Ordered(h) && k < m < |h| && Opened(c, h, k) && Reached(c, h, m)
    ensures CooledDown(c, h[k].now, h[m].now)
  {
    var p := h[..m];
    PrefixSame(c, h, m, k);
    assert p[..k + 1] == h[..k + 1];
    OpenedIs(c, h, k);
    OpenOrCooled(c, p, k);
    assert p[|p| - 1] == h[m - 1] && h[m - 1].now <= h[m].now;
  }

  /** Attempt `k` opened the circuit and nothing in the history has reached the function since. */
  ghost predicate OpenSince(c: Limits, h: seq<Attempt>, k: nat)
    requires k < |h|
  {
    Opened(c, h, k) && forall j: nat :: k < j < |h| ==> !Reached(c, h, j)
  }

  lemma PrefixSame(c: Limits, h: seq<Attempt>, n: nat, j: nat)
    requires j < n <= |h|
    ensures Reached(c, h[..n], j) == Reached(c, h, j) && Opened(c, h[..n], j) == Opened(c, h, j)
  {
    assert h[..n][..j] == h[..j] && h[..n][..j + 1] == h[..j + 1];
  }

  lemma SinceGrows(c: Limits, h: seq<Attempt>, k: nat)
    requires k + 1 < |h|
    ensures var n := |h| - 1; OpenSince(c, h, k) <==> OpenSince(c, h[..n], k) && !Reached(c, h, n)
  {
    var n := |h| - 1;
    forall j: nat | j < n ensures Reached(c, h[..n], j) == Reached(c, h, j) {
      PrefixSame(c, h, n, j);
    }
    PrefixSame(c, h, n, k);
  }

  /** The circuit is open exactly while some attempt opened it and none has reached the function
      since, and remembers when that was. */
  lemma {:induction false} OpenIff(c: Limits, h: seq<Attempt>)
    ensures After(c, h).state == Open <==> exists k: nat :: k < |h| && OpenSince(c, h, k)
    ensures forall k: nat :: k < |h| && OpenSince(c, h, k) ==> After(c, h).openedAt == Some(h[k].now)
  {
    if h != [] {
      var n := |h| - 1;
      OpenIff(c, h[..n]);
      assert h[..n + 1] == h;
      forall k: nat | k < n
        ensures OpenSince(c, h, k) <==> OpenSince(c, h[..n], k) && !Reached(c, h, n)
      {
        SinceGrows(c, h, k);
      }
      if Reached(c, h, n) {
        OpenedIs(c, h, n);
        assert OpenSince(c, h, n) <==> After(c, h).state == Open;
      } else if After(c, h).state == Open {
        var k: nat :| k < n && OpenSince(c, h[..n], k);
        assert OpenSince(c, h, k);
      }
    }
  }

  /** Over any history, any clock and any behaviour a call is turned away if and only if an earlier
      attempt opened the circuit, nothing has reached the function since, and that attempt's cooldown
      is not over. So the first call after a cooldown goes through, and so does the one after a probe
      that ended in an exception which is not counted. */
  lemma RejectedIff(c: Limits, h: seq<Attempt>, m: nat)
    requires m < |h|
    ensures !Reached(c, h, m) <==>
      exists k: nat :: k < m && OpenSince(c, h[..m], k) && !CooledDown(c, h[k].now, h[m].now)
  {
    OpenIff(c, h[..m]);
    if !Reached(c, h, m) {
      var k: nat :| k < m && OpenSince(c, h[..m], k);
      assert h[..m][k] == h[k];
    }
  }
}
