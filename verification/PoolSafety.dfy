/** The pool at the grain of the code: the monitor's tick taken apart into the check of one worker and
    the fallback, each at any moment; and what no untimely check can spoil. */
module PoolSafety {
  import opened PathModel
  import opened WorkerPool

  // ------------------------------------------------------------------ steps

  ghost predicate CheckStep(p: Pool, q: Pool) {
    p.monitoring && exists w: nat :: w < |p.workers| && q == ScanOne(p, w)
  }

  ghost predicate FallbackStep(p: Pool, q: Pool) {
    p.monitoring && AllDead(p) && p.futures != {} && q == FailOutstanding(p)
  }

  /** One step of the workers or the monitor, deaths and shutdown included. */
  ghost predicate LateEnv(p: Pool, q: Pool, agents: Agents) {
    || LiveStep(p, q, agents)
    || (exists w :: CanDie(p, w) && q == Die(p, w))
    || q == SendStops(p)
    || CheckStep(p, q)
    || FallbackStep(p, q)
  }

  /** One step of anyone; each index is submitted once. */
  ghost predicate LateNext(p: Pool, q: Pool, agents: Agents) {
    LateEnv(p, q, agents) || (exists i, u :: i !in p.submitted && q == Submit(p, i, u))
  }

  ghost predicate Steps(tr: seq<Pool>, agents: Agents) {
    |tr| > 0 && forall k :: 0 < k < |tr| ==> LateEnv(tr[k - 1], tr[k], agents)
  }

  /** A scan is a run of checks. */
  lemma {:induction false} ScanIsChecks(p: Pool, w: nat, agents: Agents) returns (tr: seq<Pool>)
    requires p.monitoring && w <= |p.workers|
    ensures Steps(tr, agents) && tr[0] == p && tr[|tr| - 1] == ScanFrom(p, w)
    ensures tr[|tr| - 1].monitoring
    decreases |p.workers| - w
  {
    if w == |p.workers| {
      tr := [p];
    } else {
      var q := ScanOne(p, w);
      assert CheckStep(p, q);
      var rest := ScanIsChecks(q, w + 1, agents);
      tr := [p] + rest;
    }
  }

  /** The tick as one step, timely or late, is one of the ways its parts can run. */
  lemma TickIsSteps(p: Pool, agents: Agents) returns (tr: seq<Pool>)
    requires p.monitoring
    ensures Steps(tr, agents) && tr[0] == p && tr[|tr| - 1] == LateTick(p)
  {
    tr := ScanIsChecks(p, 0, agents);
    var q := tr[|tr| - 1];
    if AllDead(q) && q.futures != {} {
      assert FallbackStep(q, FailOutstanding(q));
      tr := tr + [FailOutstanding(q)];
    }
  }

  // ------------------------------------------------------------------ what always holds

  ghost predicate NoneDead(p: Pool) {
    |p.workers| > 0 && forall w :: 0 <= w < |p.workers| ==> p.workers[w].Alive()
  }

  /** Every path in transit carries its own unit, and every queued result is its path's own. */
  ghost predicate InTransit(p: Pool, agents: Agents) {
    && (forall r :: r in p.requestQ && r.Path? ==> r.index in p.submitted && p.submitted[r.index] == r.unit)
    && (forall w :: 0 <= w < |p.workers| && (p.workers[w].Grabbed? || p.workers[w].Running?) ==>
          p.workers[w].index in p.submitted && p.submitted[p.workers[w].index] == p.workers[w].unit)
    && (forall m :: m in p.resultQ && m.Result? ==>
          m.result.index in p.submitted && m.result == RunPath(agents, m.result.index, p.submitted[m.result.index]))
  }

  /** A resolved future holds what running its path inline gives or, some worker being dead, a crash. */
  ghost predicate InlineOrDeath(p: Pool, agents: Agents, i: nat)
    requires i in p.resolved && i in p.submitted
  {
    p.resolved[i] == RunPath(agents, i, p.submitted[i]) || (p.resolved[i] == Crashed(i) && !NoneDead(p))
  }

  ghost predicate Books(p: Pool, agents: Agents) {
    && FuturesExact(p)
    && InTransit(p, agents)
    && forall i :: i in p.resolved ==> InlineOrDeath(p, agents, i)
  }

  /** Nothing submitted is forgotten, nothing resolved is touched, and the dead stay dead. */
  ghost predicate Onward(p: Pool, q: Pool) {
    && |q.workers| == |p.workers|
    && (forall w :: 0 <= w < |p.workers| && !p.workers[w].Alive() ==> !q.workers[w].Alive())
    && (forall i :: i in p.submitted ==> i in q.submitted && q.submitted[i] == p.submitted[i])
    && (forall i :: i in p.resolved ==> i in q.resolved && q.resolved[i] == p.resolved[i])
  }

  lemma DeadStayDead(p: Pool, q: Pool)
    requires Onward(p, q)
    ensures NoneDead(q) ==> NoneDead(p)
    ensures AllDead(p) ==> AllDead(q)
  {
    if NoneDead(q) {
      forall w | 0 <= w < |p.workers| ensures p.workers[w].Alive() {
        assert q.workers[w].Alive();
      }
    }
  }

  lemma InitBooks(p: Pool, agents: Agents)
    requires Init(p)
    ensures Books(p, agents)
  {
  }

  /** A step that resolves nothing. */
  lemma QuietBooks(p: Pool, q: Pool, agents: Agents)
    requires Books(p, agents) && Onward(p, q) && InTransit(q, agents)
    requires q.resolved == p.resolved && FuturesExact(q)
    ensures Books(q, agents)
  {
    DeadStayDead(p, q);
    forall i | i in q.resolved ensures InlineOrDeath(q, agents, i) {
      assert InlineOrDeath(p, agents, i);
    }
  }

  lemma SubmitBooks(p: Pool, i: nat, u: AuditUnit, agents: Agents)
    requires Books(p, agents) && i !in p.submitted
    ensures Books(Submit(p, i, u), agents) && Onward(p, Submit(p, i, u))
  {
    QuietBooks(p, Submit(p, i, u), agents);
  }

  lemma StopsBooks(p: Pool, agents: Agents)
    requires Books(p, agents)
    ensures Books(SendStops(p), agents) && Onward(p, SendStops(p))
  {
    QuietBooks(p, SendStops(p), agents);
  }

  lemma DequeueBooks(p: Pool, w: nat, agents: Agents)
    requires Books(p, agents) && CanDequeue(p, w)
    ensures Books(Dequeue(p, w), agents) && Onward(p, Dequeue(p, w))
  {
    assert p.requestQ[0] in p.requestQ;
    QuietBooks(p, Dequeue(p, w), agents);
  }

  lemma ClaimBooks(p: Pool, w: nat, agents: Agents)
    requires Books(p, agents) && CanClaim(p, w)
    ensures Books(PutClaim(p, w), agents) && Onward(p, PutClaim(p, w))
  {
    QuietBooks(p, PutClaim(p, w), agents);
  }

  lemma ReportBooks(p: Pool, w: nat, agents: Agents)
    requires Books(p, agents) && CanReport(p, w)
    ensures Books(PutResult(p, w, agents), agents) && Onward(p, PutResult(p, w, agents))
  {
    QuietBooks(p, PutResult(p, w, agents), agents);
  }

  lemma DieBooks(p: Pool, w: nat, agents: Agents)
    requires Books(p, agents) && CanDie(p, w)
    ensures Books(Die(p, w), agents) && Onward(p, Die(p, w))
  {
    QuietBooks(p, Die(p, w), agents);
  }

  lemma ReceiveBooks(p: Pool, agents: Agents)
    requires Books(p, agents) && CanReceive(p)
    ensures Books(Receive(p), agents) && Onward(p, Receive(p))
  {
    var q := Receive(p);
    assert p.resultQ[0] in p.resultQ;
    if q.resolved == p.resolved {
      QuietBooks(p, q, agents);
    } else {
      forall i | i in q.resolved ensures InlineOrDeath(q, agents, i) {
        if i in p.resolved {
          assert InlineOrDeath(p, agents, i);
        }
      }
    }
  }

  lemma CheckBooks(p: Pool, w: nat, agents: Agents)
    requires Books(p, agents) && w < |p.workers|
    ensures Books(ScanOne(p, w), agents) && Onward(p, ScanOne(p, w))
  {
    var q := ScanOne(p, w);
    if q.resolved == p.resolved {
      QuietBooks(p, q, agents);
    } else {
      assert !q.workers[w].Alive();
      forall i | i in q.resolved ensures InlineOrDeath(q, agents, i) {
        if i in p.resolved {
          assert InlineOrDeath(p, agents, i);
        }
      }
    }
  }

  lemma FallbackBooks(p: Pool, agents: Agents)
    requires Books(p, agents) && AllDead(p)
    ensures Books(FailOutstanding(p), agents) && Onward(p, FailOutstanding(p))
  {
    var q := FailOutstanding(p);
    assert !NoneDead(q) by {
      if |q.workers| > 0 {
        assert !q.workers[0].Alive();
      }
    }
    forall i | i in q.resolved ensures InlineOrDeath(q, agents, i) {
      if i in p.resolved {
        assert InlineOrDeath(p, agents, i);
      }
    }
  }

  lemma LiveBooks(p: Pool, q: Pool, agents: Agents)
    requires Books(p, agents) && LiveStep(p, q, agents)
    ensures Books(q, agents) && Onward(p, q) && q.submitted == p.submitted
  {
    if w: nat :| CanDequeue(p, w) && q == Dequeue(p, w) {
      DequeueBooks(p, w, agents);
    } else if w: nat :| CanClaim(p, w) && q == PutClaim(p, w) {
      ClaimBooks(p, w, agents);
    } else if w: nat :| CanReport(p, w) && q == PutResult(p, w, agents) {
      ReportBooks(p, w, agents);
    } else {
      ReceiveBooks(p, agents);
    }
  }

  lemma EnvBooks(p: Pool, q: Pool, agents: Agents)
    requires Books(p, agents) && LateEnv(p, q, agents)
    ensures Books(q, agents) && Onward(p, q) && q.submitted == p.submitted
  {
    if LiveStep(p, q, agents) {
      LiveBooks(p, q, agents);
    } else if q == SendStops(p) {
      StopsBooks(p, agents);
    } else if FallbackStep(p, q) {
      FallbackBooks(p, agents);
    } else if w: nat :| CanDie(p, w) && q == Die(p, w) {
      DieBooks(p, w, agents);
    } else {
      var w: nat :| w < |p.workers| && q == ScanOne(p, w);
      CheckBooks(p, w, agents);
    }
  }

  /** No future is resolved twice, at any interleaving of checks, fallback, messages and deaths, timely
      or not; `_futures` stays exact, and what a future holds is the path's own result or a crash. */
  lemma ResolvedForGood(p: Pool, q: Pool, agents: Agents)
    requires Books(p, agents) && LateNext(p, q, agents)
    ensures Books(q, agents) && Onward(p, q)
  {
    if LateEnv(p, q, agents) {
      EnvBooks(p, q, agents);
    } else {
      var i, u :| i !in p.submitted && q == Submit(p, i, u);
      SubmitBooks(p, i, u, agents);
    }
  }

  ghost predicate LateSteps(tr: seq<Pool>, agents: Agents) {
    |tr| > 0 && forall k :: 0 < k < |tr| ==> LateNext(tr[k - 1], tr[k], agents)
  }

  /** So along every run: the books are right, and every future holds at the end what it was first
      resolved with. */
  lemma {:induction false} BooksForGood(tr: seq<Pool>, agents: Agents)
    requires LateSteps(tr, agents) && Init(tr[0])
    ensures Books(tr[|tr| - 1], agents)
    ensures forall k :: 0 <= k < |tr| ==> Onward(tr[k], tr[|tr| - 1])
  {
    if |tr| == 1 {
      InitBooks(tr[0], agents);
    } else {
      var n := |tr| - 1;
      var front := tr[..n];
      BooksForGood(front, agents);
      ResolvedForGood(tr[n - 1], tr[n], agents);
      forall k | 0 <= k < n ensures Onward(tr[k], tr[n]) {
        assert Onward(front[k], front[n - 1]);
        OnwardTwice(tr[k], tr[n - 1], tr[n]);
      }
    }
  }

  lemma OnwardTwice(p: Pool, q: Pool, r: Pool)
    requires Onward(p, q) && Onward(q, r)
    ensures Onward(p, r)
  {
  }
}
