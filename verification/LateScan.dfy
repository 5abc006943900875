/** The monitor's empty-queue branch at the grain of the code: messages, deaths and other workers'
    steps may come between the timeout, each worker's liveness check and the fallback. When is what
    the monitor does still right? */
module LateScan {
  import opened PathModel
  import opened WorkerPool
  import opened PoolSafety

  // ------------------------------------------------------------------ the discipline of the queue

  /** Read from the front, a worker claims only when it has no open claim and reports only the path
      it has claimed. */
  ghost predicate Disciplined(claims: map<nat, nat>, q: seq<Message>)
    decreases |q|
  {
    q != [] ==>
      match q[0]
      case Claim(i, w) => w !in claims && Disciplined(claims[w := i], q[1..])
      case Result(r, w) => w in claims && claims[w] == r.index && Disciplined(claims - {w}, q[1..])
  }

  ghost predicate LateInv(p: Pool, agents: Agents) {
    Inv(p, agents) && (p.monitoring ==> Disciplined(p.claims, p.resultQ))
  }

  lemma {:induction false} DisciplinedAppend(claims: map<nat, nat>, q: seq<Message>, m: Message)
    requires Disciplined(claims, q)
    requires var t := Replay(claims, q);
      match m case Claim(i, w) => w !in t case Result(r, w) => w in t && t[w] == r.index
    ensures Disciplined(claims, q + [m])
    decreases |q|
  {
    if q == [] {
      assert q + [m] == [m];
    } else {
      assert (q + [m])[1..] == q[1..] + [m];
      match q[0]
      case Claim(i, w) => DisciplinedAppend(claims[w := i], q[1..], m);
      case Result(_, w) => DisciplinedAppend(claims - {w}, q[1..], m);
    }
  }

  /** What `_claims` gets from the queue for one worker depends on that worker's messages only. */
  lemma {:induction false} Unmentioned(claims: map<nat, nat>, q: seq<Message>, w: nat)
    requires forall m :: m in q ==> m.worker != w
    ensures w in Replay(claims, q) <==> w in claims
    ensures w in claims ==> Replay(claims, q)[w] == claims[w]
    ensures Replay(claims - {w}, q) == Replay(claims, q) - {w}
    ensures Disciplined(claims, q) ==> Disciplined(claims - {w}, q)
    decreases |q|
  {
    if q != [] {
      assert q[0] in q;
      match q[0]
      case Claim(i, v) =>
        Unmentioned(claims[v := i], q[1..], w);
        assert claims[v := i] - {w} == (claims - {w})[v := i];
      case Result(_, v) =>
        Unmentioned(claims - {v}, q[1..], w);
        assert claims - {v} - {w} == claims - {w} - {v};
    }
  }

  /** The next message of a worker with an open claim is that path's result. */
  lemma {:induction false} NextIsItsResult(claims: map<nat, nat>, q: seq<Message>, w: nat, m: Message)
    requires Disciplined(claims, q) && w in claims && m in q && m.worker == w
    ensures Reported(q, claims[w]) >= 1
    decreases |q|
  {
    if q[0].worker != w {
      match q[0]
      case Claim(i, v) => NextIsItsResult(claims[v := i], q[1..], w, m);
      case Result(_, v) => NextIsItsResult(claims - {v}, q[1..], w, m);
    }
  }

  /** 1 if the table has worker `w` on path `i`. */
  ghost function On(t: map<nat, nat>, w: nat, i: nat): nat {
    if w in t && t[w] == i then 1 else 0
  }

  lemma {:induction false} OneClaim(claims: map<nat, nat>, q: seq<Message>, w: nat)
    requires Disciplined(claims, q) && w in claims
    ensures Reported(q, claims[w]) + On(Replay(claims, q), w, claims[w]) >= 1
    decreases |q|
  {
    if m :| m in q && m.worker == w {
      NextIsItsResult(claims, q, w, m);
    } else {
      Unmentioned(claims, q, w);
    }
  }

  lemma {:induction false} TwoClaims(claims: map<nat, nat>, q: seq<Message>, v: nat, w: nat, i: nat)
    requires Disciplined(claims, q) && v != w && v in claims && w in claims && claims[v] == claims[w] == i
    ensures Reported(q, i) + On(Replay(claims, q), v, i) + On(Replay(claims, q), w, i) >= 2
    decreases |q|
  {
    if q != [] {
      match q[0]
      case Claim(j, x) => TwoClaims(claims[x := j], q[1..], v, w, i);
      case Result(r, x) =>
        if x == v {
          OneClaim(claims - {x}, q[1..], w);
        } else if x == w {
          OneClaim(claims - {x}, q[1..], v);
        } else {
          TwoClaims(claims - {x}, q[1..], v, w, i);
        }
    }
  }

  // ------------------------------------------------------------------ every step keeps it

  lemma NextDisciplined(p: Pool, q: Pool, agents: Agents)
    requires LateInv(p, agents) && Next(p, q, agents)
    ensures q.monitoring ==> Disciplined(q.claims, q.resultQ)
  {
    if w: nat :| CanClaim(p, w) && q == PutClaim(p, w) {
      if p.monitoring {
        DisciplinedAppend(p.claims, p.resultQ, Claim(p.workers[w].index, w));
      }
    } else if w: nat :| CanReport(p, w) && q == PutResult(p, w, agents) {
      if p.monitoring {
        DisciplinedAppend(p.claims, p.resultQ, Result(RunPath(agents, p.workers[w].index, p.workers[w].unit), w));
      }
    } else if CanTick(p) && q == Tick(p) {
      TickQueue(p);
    } else if CanReceive(p) && q == Receive(p) {
    } else {
      QuietQueue(p, q, agents);
    }
  }

  lemma QuietQueue(p: Pool, q: Pool, agents: Agents)
    requires Next(p, q, agents) && !(CanTick(p) && q == Tick(p)) && !(CanReceive(p) && q == Receive(p))
    requires forall w: nat :: CanClaim(p, w) ==> q != PutClaim(p, w)
    requires forall w: nat :: CanReport(p, w) ==> q != PutResult(p, w, agents)
    ensures q.claims == p.claims && q.resultQ == p.resultQ && q.monitoring == p.monitoring
  {
    if q == SendStops(p) {
    } else if w: nat :| CanDequeue(p, w) && q == Dequeue(p, w) {
    } else if w: nat :| CanDie(p, w) && q == Die(p, w) {
    } else {
      var i, u :| i !in p.submitted && q == Submit(p, i, u);
    }
  }

  lemma TickQueue(p: Pool)
    requires CanTick(p)
    ensures Tick(p).resultQ == []
  {
    ScanFrame(p, 0);
  }

  /** What a scan never touches. */
  lemma {:induction false} ScanFrame(p: Pool, w: nat)
    requires w <= |p.workers|
    ensures var q := ScanFrom(p, w);
      && q.resultQ == p.resultQ && q.requestQ == p.requestQ
      && q.submitted == p.submitted && q.monitoring == p.monitoring
    decreases |p.workers| - w
  {
    if w < |p.workers| {
      ScanFrame(ScanOne(p, w), w + 1);
    }
  }

  // ------------------------------------------------------------------ one worker's check

  /** The parts of the invariant that say where every path and every claim is. */
  ghost predicate Lagging(p: Pool) {
    p.monitoring && Conserved(p) && FuturesExact(p) && ClaimsLag(p) && Disciplined(p.claims, p.resultQ)
  }

  /** Every recorded claim is of an unresolved path, and no path is recorded twice. */
  lemma ClaimsAreOpen(p: Pool)
    requires Lagging(p)
    ensures forall w :: w in p.claims ==> p.claims[w] in p.futures
    ensures forall v, w :: v in p.claims && w in p.claims && v != w ==> p.claims[v] != p.claims[w]
  {
    forall w | w in p.claims ensures p.claims[w] in p.futures {
      OneClaim(p.claims, p.resultQ, w);
      OnIsHeld(p, w, p.claims[w]);
      assert Places(p, p.claims[w]) >= 1;
    }
    forall v, w | v in p.claims && w in p.claims && v != w ensures p.claims[v] != p.claims[w] {
      if p.claims[v] == p.claims[w] {
        ClaimedOnce(p, v, w);
      }
    }
  }

  lemma OnIsHeld(p: Pool, w: nat, i: nat)
    requires Lagging(p)
    ensures On(Replay(p.claims, p.resultQ), w, i) <= Held(p.workers, i)
  {
    if On(Replay(p.claims, p.resultQ), w, i) == 1 {
      HeldHas(p.workers, w, i);
    }
  }

  lemma ClaimedOnce(p: Pool, v: nat, w: nat)
    requires Lagging(p) && v in p.claims && w in p.claims && v != w
    ensures p.claims[v] != p.claims[w]
  {
    var i, t := p.claims[v], Replay(p.claims, p.resultQ);
    if p.claims[w] == i {
      assert Places(p, i) <= 1;
      OnIsHeld(p, v, i);
      OnIsHeld(p, w, i);
      if On(t, v, i) == 1 && On(t, w, i) == 1 {
        HeldTwice(p.workers, if v < w then v else w, if v < w then w else v, i);
      }
      TwoClaims(p.claims, p.resultQ, v, w, i);
    }
  }

  /** Draining the queue first would not change what `_claims` says of worker `w`. */
  ghost predicate Agrees(p: Pool, w: nat) {
    var t := Replay(p.claims, p.resultQ);
    (w in p.claims <==> w in t) && (w in p.claims && w in t ==> t[w] == p.claims[w])
  }

  /** For a worker with a recorded claim that means: no message of it is queued. */
  lemma AgreesIff(p: Pool, w: nat)
    requires Lagging(p) && w in p.claims
    ensures Agrees(p, w) <==> forall m :: m in p.resultQ ==> m.worker != w
  {
    if m :| m in p.resultQ && m.worker == w {
      NextIsItsResult(p.claims, p.resultQ, w, m);
      OnIsHeld(p, w, p.claims[w]);
      assert Places(p, p.claims[w]) <= 1;
    } else {
      Unmentioned(p.claims, p.resultQ, w);
    }
  }

  /** Main result: checking a newly dead worker, at whatever moment, leaves every path in one place
      and no claimed path behind if and only if draining the queue first would not have changed the
      worker's claim; and then it keeps the whole invariant. */
  lemma ScanOneRightIff(p: Pool, w: nat, agents: Agents)
    requires LateInv(p, agents) && p.monitoring
    requires w < |p.workers| && !p.workers[w].Alive() && w !in p.deadSeen
    ensures Agrees(p, w) <==> Conserved(ScanOne(p, w)) && SeenAreSettled(ScanOne(p, w))
    ensures Agrees(p, w) ==> LateInv(ScanOne(p, w), agents)
  {
    ClaimsAreOpen(p);
    if w !in p.claims {
      ScanUncharged(p, w, agents);
    } else if p.workers[w] == Orphan(p.claims[w]) {
      ScanCharged(p, w, agents);
    } else {
      ScanMischarged(p, w);
    }
  }

  lemma ScanUncharged(p: Pool, w: nat, agents: Agents)
    requires LateInv(p, agents) && p.monitoring && w !in p.claims
    requires w < |p.workers| && !p.workers[w].Alive() && w !in p.deadSeen
    ensures Conserved(ScanOne(p, w)) && (SeenAreSettled(ScanOne(p, w)) <==> Agrees(p, w))
    ensures Agrees(p, w) ==> LateInv(ScanOne(p, w), agents)
  {
    var q := ScanOne(p, w);
    assert p.claims - {w} == p.claims;
    assert q == p.(deadSeen := p.deadSeen + {w});
    forall k ensures Places(q, k) == Places(p, k) {
    }
    ScanKeepsGenuine(p, q, agents);
  }

  lemma ScanMischarged(p: Pool, w: nat)
    requires Lagging(p) && w < |p.workers| && !p.workers[w].Alive() && w !in p.deadSeen
    requires w in p.claims && p.claims[w] in p.futures && p.workers[w] != Orphan(p.claims[w])
    ensures !Conserved(ScanOne(p, w)) && !Agrees(p, w)
  {
    var i, q := p.claims[w], ScanOne(p, w);
    assert Places(p, i) == 1;
    assert Places(q, i) == 2;
  }

  lemma ScanCharged(p: Pool, w: nat, agents: Agents)
    requires LateInv(p, agents) && p.monitoring && w < |p.workers| && w !in p.deadSeen
    requires w in p.claims && p.claims[w] in p.futures && p.workers[w] == Orphan(p.claims[w])
    ensures Agrees(p, w) && LateInv(ScanOne(p, w), agents)
  {
    var q := ScanOne(p, w);
    ChargedLag(p, w);
    ChargedBooks(p, w);
    ScanConserves(p, w, q);
    ScanGenuine(p, w, q, agents);
  }

  lemma ChargedBooks(p: Pool, w: nat)
    requires KnownWorkers(p) && FuturesExact(p) && SeenAreSettled(p) && w < |p.workers| && w !in p.deadSeen
    requires w in p.claims && p.claims[w] in p.futures && p.workers[w] == Orphan(p.claims[w])
    ensures var q := ScanOne(p, w); KnownWorkers(q) && FuturesExact(q) && SeenAreSettled(q)
  {
  }

  lemma ChargedLag(p: Pool, w: nat)
    requires Lagging(p) && w < |p.workers| && w !in p.deadSeen
    requires w in p.claims && p.claims[w] in p.futures && p.workers[w] == Orphan(p.claims[w])
    ensures var q := ScanOne(p, w); Agrees(p, w) && ClaimsLag(q) && Disciplined(q.claims, q.resultQ)
  {
    var q, i := ScanOne(p, w), p.claims[w];
    assert Replay(p.claims, p.resultQ)[w] == i;
    AgreesIff(p, w);
    Unmentioned(p.claims, p.resultQ, w);
    assert Table(q.workers) == Table(p.workers) - {w};
  }

  // ------------------------------------------------------------------ every run at the code's grain

  /** If the step checks a newly dead worker, the queue agrees with its recorded claim. */
  ghost predicate Timely(p: Pool, q: Pool) {
    forall w: nat :: w < |p.workers| && !p.workers[w].Alive() && w !in p.deadSeen && q == ScanOne(p, w) ==> Agrees(p, w)
  }

  lemma LateNextKeeps(p: Pool, q: Pool, agents: Agents)
    requires LateInv(p, agents) && LateNext(p, q, agents) && Timely(p, q)
    ensures LateInv(q, agents)
  {
    if CheckStep(p, q) {
      CheckKeeps(p, q, agents);
    } else if FallbackStep(p, q) {
      FailKeeps(p, agents);
    } else {
      NextKeeps(p, q, agents);
      NextDisciplined(p, q, agents);
    }
  }

  lemma CheckKeeps(p: Pool, q: Pool, agents: Agents)
    requires LateInv(p, agents) && CheckStep(p, q) && Timely(p, q)
    ensures LateInv(q, agents)
  {
    var w: nat :| w < |p.workers| && q == ScanOne(p, w);
    if !p.workers[w].Alive() && w !in p.deadSeen {
      ScanOneRightIff(p, w, agents);
    }
  }

  ghost predicate LateRun(tr: seq<Pool>, agents: Agents) {
    && |tr| > 0 && Init(tr[0])
    && forall k :: 0 < k < |tr| ==> LateNext(tr[k - 1], tr[k], agents) && Timely(tr[k - 1], tr[k])
  }

  /** With every check timely, conservation, exact futures, claim lag and provenance hold in every
      state of every run at the code's grain. */
  lemma {:induction false} LateRunKeeps(tr: seq<Pool>, agents: Agents)
    requires LateRun(tr, agents)
    ensures LateInv(tr[|tr| - 1], agents)
  {
    if |tr| == 1 {
      InitInv(tr[0], agents);
    } else {
      var front := tr[..|tr| - 1];
      LateRunKeeps(front, agents);
      LateNextKeeps(front[|front| - 1], tr[|tr| - 1], agents);
    }
  }

  // ------------------------------------------------------------------ the whole late tick

  /** Some worker at or after `w`, newly dead, is charged with path `i` by the scan. */
  ghost predicate ChargedFrom(p: Pool, w: nat, i: nat) {
    exists x: nat :: w <= x < |p.workers| && Charged(p, x, i)
  }

  ghost predicate Charged(p: Pool, x: nat, i: nat)
    requires x < |p.workers|
  {
    !p.workers[x].Alive() && x !in p.deadSeen && x in p.claims && p.claims[x] == i
  }

  /** Claims are open, each path is recorded once, and no future is both open and resolved. */
  ghost predicate Chargeable(p: Pool) {
    && (forall w :: w in p.claims ==> p.claims[w] in p.futures)
    && (forall v, w :: v in p.claims && w in p.claims && v != w ==> p.claims[v] != p.claims[w])
    && p.futures !! p.resolved.Keys
  }

  lemma ChargeOne(p: Pool, w: nat, i: nat)
    requires Chargeable(p) && w < |p.workers|
    ensures var q := ScanOne(p, w);
      && Chargeable(q)
      && (i in q.resolved <==> i in p.resolved || Charged(p, w, i))
      && (i in q.futures <==> i in p.futures && !Charged(p, w, i))
      && (Charged(p, w, i) ==> i in p.futures && q.resolved[i] == Crashed(i))
      && (i in p.resolved ==> q.resolved[i] == p.resolved[i])
      && (forall x: nat :: w < x < |p.workers| ==> (Charged(q, x, i) <==> Charged(p, x, i)))
  {
  }

  /** A scan, whatever is queued, crashes exactly the recorded claims of newly dead workers. */
  lemma {:induction false} ScanCharges(p: Pool, w: nat, i: nat)
    requires Chargeable(p) && w <= |p.workers|
    ensures var q := ScanFrom(p, w);
      && (i in q.resolved <==> i in p.resolved || ChargedFrom(p, w, i))
      && (i in q.futures <==> i in p.futures && !ChargedFrom(p, w, i))
      && (ChargedFrom(p, w, i) ==> i in p.futures && q.resolved[i] == Crashed(i))
      && (i in p.resolved ==> q.resolved[i] == p.resolved[i])
    decreases |p.workers| - w
  {
    if w < |p.workers| {
      var p1 := ScanOne(p, w);
      ChargeOne(p, w, i);
      ScanCharges(p1, w + 1, i);
      assert ChargedFrom(p, w, i) <==> Charged(p, w, i) || ChargedFrom(p1, w + 1, i) by {
        if x: nat :| w <= x < |p.workers| && Charged(p, x, i) && x != w {
          assert Charged(p1, x, i);
        }
        if x: nat :| w + 1 <= x < |p1.workers| && Charged(p1, x, i) {
          assert Charged(p, x, i);
        }
      }
    }
  }

  /** What a tick is for: it resolves as crashed only paths nobody can finish any more, a dead
      worker's claimed path or, with every worker dead, a path whose result is not queued; and it
      resolves every dead worker's claimed path. */
  ghost predicate RightTick(p: Pool, q: Pool) {
    && (forall i :: i in q.resolved && i !in p.resolved ==>
          q.resolved[i] == Crashed(i) && (OrphanedFrom(p, 0, i) || (AllDead(p) && Reported(p.resultQ, i) == 0)))
    && (forall i :: OrphanedFrom(p, 0, i) ==> i in q.resolved)
  }

  ghost predicate NoResults(q: seq<Message>) {
    forall m :: m in q ==> m.Claim?
  }

  /** The queue agrees with the recorded claim of every newly dead worker. */
  ghost predicate AllAgree(p: Pool) {
    forall w: nat :: w < |p.workers| && !p.workers[w].Alive() && w !in p.deadSeen ==> Agrees(p, w)
  }

  lemma {:induction false} ReportedIff(q: seq<Message>, i: nat)
    ensures Reported(q, i) > 0 <==> exists m :: m in q && m.Result? && m.result.index == i
  {
    if q != [] {
      ReportedIff(q[1..], i);
      if m :| m in q && m.Result? && m.result.index == i {
        assert m == q[0] || m in q[1..];
      }
      assert q[0] in q;
    }
  }

  /** Main result: a whole late tick, scan and fallback, is right if and only if, with some worker
      alive, the queue agrees with every newly dead worker's claim and, with none, holds no result. */
  lemma LateTickRightIff(p: Pool, agents: Agents)
    requires LateInv(p, agents) && p.monitoring
    ensures RightTick(p, LateTick(p)) <==> if AllDead(p) then NoResults(p.resultQ) else AllAgree(p)
  {
    ClaimsAreOpen(p);
    ScanLiveness(p, 0);
    if AllDead(p) {
      LateTickAllDead(p, agents);
    } else {
      LateTickSomeAlive(p, agents);
    }
  }

  lemma LateTickAllDead(p: Pool, agents: Agents)
    requires LateInv(p, agents) && p.monitoring && AllDead(p) && Chargeable(p)
    ensures RightTick(p, LateTick(p)) <==> NoResults(p.resultQ)
  {
    var q := LateTick(p);
    AllDeadResolvesAll(p);
    if NoResults(p.resultQ) {
      forall i ensures Reported(p.resultQ, i) == 0 {
        ReportedIff(p.resultQ, i);
      }
      forall i | OrphanedFrom(p, 0, i) ensures i in q.resolved {
        OrphanIsOpen(p, i);
      }
    } else {
      var m :| m in p.resultQ && !m.Claim?;
      ReportedIff(p.resultQ, m.result.index);
      ReportedIsNotOrphaned(p, m.result.index);
    }
  }

  /** With every worker dead, scan and fallback together resolve every open future as crashed. */
  lemma AllDeadResolvesAll(p: Pool)
    requires AllDead(p) && Chargeable(p)
    ensures forall i :: i in LateTick(p).resolved <==> i in p.resolved || i in p.futures
    ensures forall i :: i in p.futures ==> LateTick(p).resolved[i] == Crashed(i)
  {
    ScanLiveness(p, 0);
    forall i
      ensures i in LateTick(p).resolved <==> i in p.resolved || i in p.futures
      ensures i in p.futures ==> LateTick(p).resolved[i] == Crashed(i)
    {
      ScanCharges(p, 0, i);
    }
  }

  /** The fallback on its own, whatever came between it and the scan: it crashes no finished path if
      and only if no result is queued. */
  lemma FallbackRightIff(p: Pool)
    requires Lagging(p)
    ensures (forall i :: i in FailOutstanding(p).resolved && i !in p.resolved ==> Reported(p.resultQ, i) == 0)
       <==> NoResults(p.resultQ)
  {
    var q := FailOutstanding(p);
    if NoResults(p.resultQ) {
      forall i ensures Reported(p.resultQ, i) == 0 {
        ReportedIff(p.resultQ, i);
      }
    } else {
      var m :| m in p.resultQ && !m.Claim?;
      ReportedIff(p.resultQ, m.result.index);
      ReportedIsNotOrphaned(p, m.result.index);
      assert m.result.index in q.resolved && m.result.index !in p.resolved;
    }
  }

  lemma OrphanIsOpen(p: Pool, i: nat)
    requires Lagging(p) && OrphanedFrom(p, 0, i)
    ensures i in p.futures
  {
    var x :| 0 <= x < |p.workers| && p.workers[x] == Orphan(i);
    OrphanIsUnresolved(p, x);
  }

  lemma ReportedIsNotOrphaned(p: Pool, i: nat)
    requires Lagging(p) && Reported(p.resultQ, i) > 0
    ensures !OrphanedFrom(p, 0, i) && i in p.futures
  {
    assert Places(p, i) == 1;
    if x :| 0 <= x < |p.workers| && p.workers[x] == Orphan(i) {
      HeldHas(p.workers, x, i);
    }
  }

  lemma LateTickSomeAlive(p: Pool, agents: Agents)
    requires LateInv(p, agents) && p.monitoring && !AllDead(p) && Chargeable(p)
    ensures RightTick(p, LateTick(p)) <==> AllAgree(p)
  {
    var q := LateTick(p);
    SomeAliveIsScan(p);
    if AllAgree(p) {
      forall i ensures ChargedFrom(p, 0, i) <==> OrphanedFrom(p, 0, i) {
        AgreedCharges(p, agents, i);
      }
      forall i ensures (i in q.resolved <==> i in p.resolved || OrphanedFrom(p, 0, i))
               ensures i in q.resolved && i !in p.resolved ==> q.resolved[i] == Crashed(i) {
        ScanCharges(p, 0, i);
      }
    } else {
      var w: nat :| w < |p.workers| && !p.workers[w].Alive() && w !in p.deadSeen && !Agrees(p, w);
      DisagreementShows(p, w);
    }
  }

  lemma SomeAliveIsScan(p: Pool)
    requires !AllDead(p)
    ensures LateTick(p) == ScanFrom(p, 0)
  {
    ScanLiveness(p, 0);
    var w :| 0 <= w < |p.workers| && p.workers[w].Alive();
    assert ScanFrom(p, 0).workers[w].Alive();
  }

  lemma AgreedCharges(p: Pool, agents: Agents, i: nat)
    requires LateInv(p, agents) && p.monitoring && AllAgree(p)
    ensures ChargedFrom(p, 0, i) <==> OrphanedFrom(p, 0, i)
  {
    if x: nat :| x < |p.workers| && Charged(p, x, i) {
      assert Agrees(p, x);
      assert p.workers[x] == Orphan(i);
    }
    if x :| 0 <= x < |p.workers| && p.workers[x] == Orphan(i) {
      assert Agrees(p, x);
      assert Charged(p, x, i);
    }
  }

  /** Where queue and record disagree the scan crashes a finished path or misses a claimed one. */
  lemma DisagreementShows(p: Pool, w: nat)
    requires Lagging(p) && Chargeable(p)
    requires w < |p.workers| && !p.workers[w].Alive() && w !in p.deadSeen && !Agrees(p, w)
    requires LateTick(p) == ScanFrom(p, 0) && !AllDead(p)
    ensures !RightTick(p, LateTick(p))
  {
    if w in p.claims {
      var i := p.claims[w];
      assert Charged(p, w, i);
      ScanCharges(p, 0, i);
      AgreesIff(p, w);
      var m :| m in p.resultQ && m.worker == w;
      NextIsItsResult(p.claims, p.resultQ, w, m);
      ReportedIsNotOrphaned(p, i);
      assert i in LateTick(p).resolved && i !in p.resolved;
    } else {
      MissedIsUncharged(p, w);
    }
  }

  lemma MissedIsUncharged(p: Pool, w: nat)
    requires Lagging(p) && Chargeable(p) && w !in p.claims
    requires w < |p.workers| && !p.workers[w].Alive() && !Agrees(p, w)
    ensures p.workers[w].Orphan?
    ensures var i := p.workers[w].index; OrphanedFrom(p, 0, i) && i !in ScanFrom(p, 0).resolved
  {
    var i := p.workers[w].index;
    assert p.workers[w] == Orphan(i);
    OrphanIsUnresolved(p, w);
    if x: nat :| x < |p.workers| && Charged(p, x, i) {
      OrphanClaimedElsewhere(p, w, x);
    }
    ScanCharges(p, 0, i);
  }

  /** An orphan's path is recorded for no other worker. */
  lemma OrphanClaimedElsewhere(p: Pool, w: nat, x: nat)
    requires Lagging(p) && w < |p.workers| && p.workers[w].Orphan? && x in p.claims && x != w
    ensures p.claims[x] != p.workers[w].index
  {
    var i, t := p.workers[w].index, Replay(p.claims, p.resultQ);
    if p.claims[x] == i {
      assert Places(p, i) <= 1;
      HeldHas(p.workers, w, i);
      if On(t, x, i) == 1 {
        HeldTwice(p.workers, if w < x then w else x, if w < x then x else w, i);
      } else {
        OneClaim(p.claims, p.resultQ, x);
      }
    }
  }

  // ------------------------------------------------------------------ what an untimely check costs

  /** Worker `w` died holding path `i`, counts as dealt with, and nothing anywhere but its own claim
      mentions the path any more. */
  ghost predicate Missed(p: Pool, w: nat, i: nat) {
    && w < |p.workers| && w in p.deadSeen && p.workers[w] == Orphan(i) && i in p.futures && i in p.submitted
    && (forall r :: r in p.requestQ && r.Path? ==> r.index != i)
    && (forall x :: 0 <= x < |p.workers| && (p.workers[x].Grabbed? || p.workers[x].Running?) ==>
          p.workers[x].index != i)
    && (forall m :: m in p.resultQ && m.Result? ==> m.result.index != i)
    && (forall m :: m in p.resultQ && m.Claim? && m.index == i ==> m.worker == w)
    && (forall x :: x in p.claims && p.claims[x] == i ==> x == w)
  }

  /** A check that finds no claim recorded for a dead worker whose claim is still queued misses it. */
  lemma UntimelyMisses(p: Pool, w: nat, agents: Agents)
    requires LateInv(p, agents) && p.monitoring && w < |p.workers| && !p.workers[w].Alive() && w !in p.deadSeen
    requires w !in p.claims && !Agrees(p, w)
    ensures p.workers[w].Orphan? && Missed(ScanOne(p, w), w, p.workers[w].index)
  {
    var i, q := p.workers[w].index, ScanOne(p, w);
    assert p.workers[w] == Orphan(i);
    OrphanIsUnresolved(p, w);
    assert p.claims - {w} == p.claims;
    forall x | x in p.claims ensures p.claims[x] != i {
      OrphanClaimedElsewhere(p, w, x);
    }
    OnlyOrphanHolds(p, w);
    forall m | m in p.resultQ && m.Claim? && m.index == i ensures m.worker == w {
      if m.worker != w {
        QueuedClaim(p.claims, p.resultQ, m.worker, i);
      }
    }
  }

  /** A path somebody's queued claim is of ends up reported or recorded for that worker. */
  lemma {:induction false} QueuedClaim(claims: map<nat, nat>, q: seq<Message>, x: nat, i: nat)
    requires Disciplined(claims, q) && Claim(i, x) in q
    ensures Reported(q, i) + On(Replay(claims, q), x, i) >= 1
    decreases |q|
  {
    if q[0] == Claim(i, x) {
      OneClaim(claims[x := i], q[1..], x);
    } else {
      match q[0]
      case Claim(j, v) => QueuedClaim(claims[v := j], q[1..], x, i);
      case Result(_, v) => QueuedClaim(claims - {v}, q[1..], x, i);
    }
  }

  /** An orphaned path waits in no queue, is held by no other worker and is not reported. */
  lemma OnlyOrphanHolds(p: Pool, w: nat)
    requires Lagging(p) && w < |p.workers| && p.workers[w].Orphan?
    ensures var i := p.workers[w].index;
      && (forall r :: r in p.requestQ && r.Path? ==> r.index != i)
      && (forall x :: 0 <= x < |p.workers| && x != w ==> p.workers[x].Holds(i) == 0)
      && Reported(p.resultQ, i) == 0
      && (forall m :: m in p.resultQ && m.Result? ==> m.result.index != i)
  {
    var i := p.workers[w].index;
    assert Places(p, i) <= 1;
    HeldHas(p.workers, w, i);
    WaitingIff(p.requestQ, i);
    ReportedIff(p.resultQ, i);
    forall x | 0 <= x < |p.workers| && x != w ensures p.workers[x].Holds(i) == 0 {
      HeldTwice(p.workers, if w < x then w else x, if w < x then x else w, i);
    }
  }

  lemma {:induction false} WaitingIff(q: seq<Request>, i: nat)
    ensures Waiting(q, i) > 0 <==> exists r :: r in q && r.Path? && r.index == i
  {
    if q != [] {
      WaitingIff(q[1..], i);
      if r :| r in q && r.Path? && r.index == i {
        assert r == q[0] || r in q[1..];
      }
      assert q[0] in q;
    }
  }

  lemma MissedAfterCheck(p: Pool, x: nat, w: nat, i: nat)
    requires Missed(p, w, i) && x < |p.workers|
    ensures Missed(ScanOne(p, x), w, i)
  {
  }

  lemma MissedAfterLive(p: Pool, q: Pool, agents: Agents, w: nat, i: nat)
    requires Missed(p, w, i) && LiveStep(p, q, agents)
    ensures Missed(q, w, i)
  {
    if x: nat :| CanDequeue(p, x) && q == Dequeue(p, x) {
      assert p.requestQ[0] in p.requestQ;
    } else if x: nat :| CanClaim(p, x) && q == PutClaim(p, x) {
    } else if x: nat :| CanReport(p, x) && q == PutResult(p, x, agents) {
    } else {
      MissedAfterReceive(p, w, i);
    }
  }

  lemma MissedAfterReceive(p: Pool, w: nat, i: nat)
    requires Missed(p, w, i) && CanReceive(p)
    ensures Missed(Receive(p), w, i)
  {
    assert p.resultQ[0] in p.resultQ;
  }

  lemma MissedAfterDeath(p: Pool, x: nat, w: nat, i: nat)
    requires Missed(p, w, i) && CanDie(p, x)
    ensures Missed(Die(p, x), w, i)
  {
  }

  lemma MissedStep(p: Pool, q: Pool, agents: Agents, w: nat, i: nat)
    requires Missed(p, w, i) && LateNext(p, q, agents) && !FallbackStep(p, q)
    ensures Missed(q, w, i)
  {
    if CheckStep(p, q) {
      var x: nat :| x < |p.workers| && q == ScanOne(p, x);
      MissedAfterCheck(p, x, w, i);
    } else if LiveStep(p, q, agents) {
      MissedAfterLive(p, q, agents, w, i);
    } else if x: nat :| CanDie(p, x) && q == Die(p, x) {
      MissedAfterDeath(p, x, w, i);
    } else if q == SendStops(p) {
    } else {
      var k, u :| k !in p.submitted && q == Submit(p, k, u);
    }
  }

  /** Main result: from the untimely check on, whatever happens and however late later checks are,
      the path stays open in every run at whose end some worker still lives. */
  lemma {:induction false} MissedStaysOpen(tr: seq<Pool>, agents: Agents, w: nat, i: nat)
    requires LateSteps(tr, agents) && Missed(tr[0], w, i) && !AllDead(tr[|tr| - 1])
    ensures Missed(tr[|tr| - 1], w, i)
  {
    if |tr| > 1 {
      var front, p, q := tr[..|tr| - 1], tr[|tr| - 2], tr[|tr| - 1];
      assert LateNext(p, q, agents) && front[|front| - 1] == p && front[0] == tr[0];
      LateNextOnward(p, q, agents);
      LateStepsFront(tr, agents);
      MissedStaysOpen(front, agents, w, i);
      MissedStep(p, q, agents, w, i);
    }
  }

  lemma LateStepsFront(tr: seq<Pool>, agents: Agents)
    requires LateSteps(tr, agents) && |tr| > 1
    ensures LateSteps(tr[..|tr| - 1], agents)
  {
  }

  /** The dead stay dead whatever the state of the books. */
  lemma LateNextOnward(p: Pool, q: Pool, agents: Agents)
    requires LateNext(p, q, agents)
    ensures AllDead(p) ==> AllDead(q)
    ensures FallbackStep(p, q) ==> AllDead(q)
  {
    if AllDead(p) {
      if CheckStep(p, q) {
        var x: nat :| x < |p.workers| && q == ScanOne(p, x);
      } else {
        assert q.workers == p.workers;
      }
    }
  }

  /** Submission, dequeue and claim: the run both examples below begin with. */
  lemma ClaimedRun(p0: Pool, u: AuditUnit, agents: Agents) returns (tr: seq<Pool>)
    requires Init(p0) && |p0.workers| == 2
    ensures Run(tr, agents)
    ensures tr[|tr| - 1] == p0.(workers := [Running(1, u), Idle], resultQ := [Claim(1, 0)], futures := {1},
                                submitted := map[1 := u])
  {
    var p1 := Submit(p0, 1, u);
    assert CanDequeue(p1, 0);
    var p2 := Dequeue(p1, 0);
    assert CanClaim(p2, 0);
    var p3 := PutClaim(p2, 0);
    tr := [p0, p1, p2, p3];
    assert p3.workers == [Running(1, u), Idle] && p3.requestQ == [] && p3.resultQ == [Claim(1, 0)];
    assert p3.futures == {1};
    assert forall k :: 0 < k < |tr| ==> EnvStep(tr[k - 1], tr[k], agents) || k == 1;
  }

  lemma RunExtends(tr: seq<Pool>, q: Pool, agents: Agents)
    requires Run(tr, agents) && Next(tr[|tr| - 1], q, agents)
    ensures Run(tr + [q], agents)
  {
  }

  /** A run in which a check charges too much: the worker reports its path and exits on its sentinel
      between the timeout and the check, and the finished path is resolved as crashed. */
  lemma LateScanMisroutes(p0: Pool, u: AuditUnit, agents: Agents) returns (tr: seq<Pool>)
    requires Init(p0) && |p0.workers| == 2
    ensures Run(tr, agents)
    ensures var p := tr[|tr| - 1];
      && p.monitoring && p.workers == [Clean, Idle] && p.claims == map[0 := 1]
      && p.resultQ == [Result(RunPath(agents, 1, u), 0)]
      && 1 in LateTick(p).resolved && LateTick(p).resolved[1] == Crashed(1)
  {
    tr := ClaimedRun(p0, u, agents);
    var p3 := tr[|tr| - 1];
    assert CanReceive(p3);
    var p4 := Receive(p3);
    assert EnvStep(p3, p4, agents);
    RunExtends(tr, p4, agents);
    tr := ReportAndLeave(tr + [p4], u, agents);
    MischargedTick(tr[|tr| - 1]);
  }

  /** The first worker reports, the sentinels are sent, and it takes one. */
  lemma ReportAndLeave(tr: seq<Pool>, u: AuditUnit, agents: Agents) returns (xr: seq<Pool>)
    requires Run(tr, agents)
    requires var p := tr[|tr| - 1]; p.workers == [Running(1, u), Idle] && p.requestQ == [] && p.resultQ == []
    ensures Run(xr, agents)
    ensures xr[|xr| - 1] == tr[|tr| - 1].(workers := [Clean, Idle], requestQ := [Stop],
                                          resultQ := [Result(RunPath(agents, 1, u), 0)])
  {
    var p4 := tr[|tr| - 1];
    assert CanReport(p4, 0);
    var p5 := PutResult(p4, 0, agents);
    assert EnvStep(p4, p5, agents);
    RunExtends(tr, p5, agents);
    var p6 := SendStops(p5);
    assert EnvStep(p5, p6, agents);
    RunExtends(tr + [p5], p6, agents);
    assert p6.requestQ == [Stop, Stop] && p6.workers == [Idle, Idle];
    assert CanDequeue(p6, 0);
    var p7 := Dequeue(p6, 0);
    assert EnvStep(p6, p7, agents);
    RunExtends(tr + [p5] + [p6], p7, agents);
    assert p7.workers == [Clean, Idle];
    xr := tr + [p5] + [p6] + [p7];
  }

  lemma MischargedTick(p: Pool)
    requires p.workers == [Clean, Idle] && p.claims == map[0 := 1] && p.futures == {1} && p.deadSeen == {}
    requires p.resolved == map[]
    ensures 1 in LateTick(p).resolved && LateTick(p).resolved[1] == Crashed(1)
  {
    assert Charged(p, 0, 1);
    assert ChargedFrom(p, 0, 1);
    ScanCharges(p, 0, 1);
    assert p.workers[1].Alive();
    SomeAliveIsScan(p);
  }

  /** A run in which a check charges too little: the worker claims and dies between the timeout and
      the check. The claim then arrives, but the worker counts as dealt with and its path stays open
      in every later scan. */
  lemma LateScanMissesClaim(p0: Pool, u: AuditUnit, agents: Agents) returns (tr: seq<Pool>)
    requires Init(p0) && |p0.workers| == 2
    ensures Run(tr, agents)
    ensures var p := tr[|tr| - 1];
      && p.monitoring && |p.workers| == 2 && p.workers[0] == Orphan(1) && p.workers[1].Alive()
      && p.resultQ == [Claim(1, 0)]
      && LateTick(p) == p.(deadSeen := {0})
      && CanReceive(LateTick(p))
      && var q := Receive(LateTick(p)); q.resultQ == [] && 1 in q.futures && LateTick(q) == q
  {
    tr := ClaimedRun(p0, u, agents);
    var p3 := tr[|tr| - 1];
    assert CanDie(p3, 0);
    var p := Die(p3, 0);
    assert EnvStep(p3, p, agents);
    RunExtends(tr, p, agents);
    tr := tr + [p];
    assert p.workers == [Orphan(1), Idle];
    var s := p.(deadSeen := {0});
    assert p.claims - {0} == p.claims && p.deadSeen + {0} == {0};
    assert ScanOne(p, 0) == s;
    NothingToScan(s);
    assert ScanFrom(p, 0) == ScanFrom(s, 1) == ScanFrom(s, 0);
    assert LateTick(p) == s;
    NothingToScan(Receive(s));
  }

  lemma NothingToScan(p: Pool)
    requires |p.workers| == 2 && 0 in p.deadSeen && p.workers[1].Alive()
    ensures ScanFrom(p, 0) == ScanFrom(p, 1) == p && LateTick(p) == p
  {
    assert ScanOne(p, 0) == p && ScanOne(p, 1) == p;
    assert ScanFrom(p, 2) == p;
    assert !AllDead(p);
  }

  /** A run in which the fallback is wrong: both workers are dead, one after reporting its path, and
      the messages are still queued. The scan charges nobody and the fallback crashes the finished
      path. */
  lemma LateFallbackMisroutes(p0: Pool, u: AuditUnit, agents: Agents) returns (tr: seq<Pool>)
    requires Init(p0) && |p0.workers| == 2
    ensures Run(tr, agents)
    ensures var p := tr[|tr| - 1];
      && p.monitoring && AllDead(p) && p.claims == map[]
      && p.resultQ == [Claim(1, 0), Result(RunPath(agents, 1, u), 0)]
      && ScanFrom(p, 0).futures == {1}
      && 1 in LateTick(p).resolved && LateTick(p).resolved[1] == Crashed(1)
  {
    tr := ClaimedRun(p0, u, agents);
    var p3 := tr[|tr| - 1];
    assert CanReport(p3, 0);
    var p4 := PutResult(p3, 0, agents);
    assert EnvStep(p3, p4, agents);
    RunExtends(tr, p4, agents);
    assert p4.workers == [Idle, Idle];
    assert CanDie(p4, 0);
    var p5 := Die(p4, 0);
    assert EnvStep(p4, p5, agents);
    RunExtends(tr + [p4], p5, agents);
    assert CanDie(p5, 1);
    var p := Die(p5, 1);
    assert EnvStep(p5, p, agents);
    RunExtends(tr + [p4] + [p5], p, agents);
    tr := tr + [p4] + [p5] + [p];
    assert p.workers == [Clean, Clean];
    UnclaimedScan(p, 0);
  }

  lemma {:induction false} UnclaimedScan(p: Pool, w: nat)
    requires AllDead(p) && p.claims == map[] && w <= |p.workers|
    ensures var q := ScanFrom(p, w); q.futures == p.futures && q.workers == p.workers
    decreases |p.workers| - w
  {
    if w < |p.workers| {
      UnclaimedScan(ScanOne(p, w), w + 1);
    }
  }
}
