/** The audit loop running against the subprocess pool: every interleaving of the master's top-up
    and reap steps with worker steps, deaths and monitor steps. */
module AuditEngine {
  import opened PathModel
  import opened WorkerPool
  import opened PoolSafety
  import opened AuditLoop

  datatype Engine = Engine(pool: Pool, loop: Loop)

  ghost predicate Start(cfg: Config, e: Engine) {
    Init(e.pool) && e.loop == Loop(0, [], NO_AGG)
  }

  /** The master yields a path; unless it is carried over, it is submitted under its plan index. */
  function TopUpStep(cfg: Config, e: Engine): Engine
    requires CanYield(cfg, e.loop)
  {
    var u, i := cfg.plan[e.loop.planIndex], e.loop.planIndex + 1;
    Engine(if cfg.Carried(u) then e.pool else Submit(e.pool, i, u), YieldStep(cfg, e.loop))
  }

  /** The master pops the head of the window once its future is resolved. */
  function ReapHead(e: Engine): Engine
    requires CanReap(e.loop, e.pool.resolved)
  {
    e.(loop := ReapStep(e.loop, e.pool.resolved))
  }

  ghost predicate MasterStep(cfg: Config, e: Engine, f: Engine) {
    || (CanYield(cfg, e.loop) && f == TopUpStep(cfg, e))
    || (CanReap(e.loop, e.pool.resolved) && f == ReapHead(e))
  }

  ghost predicate EngineStep(cfg: Config, e: Engine, f: Engine) {
    || MasterStep(cfg, e, f)
    || (f.loop == e.loop && LateEnv(e.pool, f.pool, cfg.agents))
  }

  /** A step in which nobody dies and nothing is shut down; the monitor's idle ticks aside. */
  ghost predicate HealthyStep(cfg: Config, e: Engine, f: Engine) {
    || MasterStep(cfg, e, f)
    || (f.loop == e.loop && LiveStep(e.pool, f.pool, cfg.agents))
  }

  ghost predicate Done(cfg: Config, e: Engine) {
    e.loop.inFlight == [] && e.loop.planIndex >= |cfg.plan|
  }

  // ------------------------------------------------------------------ the invariant

  /** The pool has been given exactly the yielded paths that are not carried over, each under its
      plan index. */
  ghost predicate SubmittedPlan(cfg: Config, e: Engine) {
    && e.loop.planIndex <= |cfg.plan|
    && (forall i :: i in e.pool.submitted <==>
          1 <= i <= e.loop.planIndex && !cfg.Carried(cfg.plan[i - 1]))
    && (forall i :: i in e.pool.submitted ==> 1 <= i <= |cfg.plan| && e.pool.submitted[i] == cfg.plan[i - 1])
  }

  ghost predicate EngineInv(cfg: Config, e: Engine) {
    && Books(e.pool, cfg.agents)
    && SubmittedPlan(cfg, e)
    && LoopInv(cfg, e.pool.resolved, e.loop)
  }

  ghost predicate InlineOrCrash(cfg: Config, i: nat, r: PathResult)
    requires 1 <= i <= |cfg.plan|
  {
    var u := cfg.plan[i - 1];
    r == PathResult(i, u.fingerprint, cfg.agents(i, u)) || r == Crashed(i)
  }

  /** Every resolved future is its path's inline result or a crash. */
  lemma ResolvedAre(cfg: Config, e: Engine)
    requires EngineInv(cfg, e)
    ensures forall i :: i in e.pool.resolved ==>
              1 <= i <= |cfg.plan| && InlineOrCrash(cfg, i, e.pool.resolved[i])
    ensures OwnResults(cfg, e.pool.resolved)
  {
    forall i | i in e.pool.resolved
      ensures 1 <= i <= |cfg.plan| && InlineOrCrash(cfg, i, e.pool.resolved[i])
    {
      assert InlineOrDeath(e.pool, cfg.agents, i);
    }
  }

  lemma StartInv(cfg: Config, e: Engine)
    requires Start(cfg, e)
    ensures EngineInv(cfg, e)
  {
    InitBooks(e.pool, cfg.agents);
  }

  lemma TopUpKeeps(cfg: Config, e: Engine)
    requires EngineInv(cfg, e) && CanYield(cfg, e.loop)
    ensures EngineInv(cfg, TopUpStep(cfg, e))
  {
    TopUpPool(cfg, e);
    YieldKeeps(cfg, e.pool.resolved, e.loop);
    TopUpSubmits(cfg, e);
  }

  lemma TopUpPool(cfg: Config, e: Engine)
    requires Books(e.pool, cfg.agents) && SubmittedPlan(cfg, e) && CanYield(cfg, e.loop)
    ensures var f := TopUpStep(cfg, e);
      && Books(f.pool, cfg.agents) && f.pool.resolved == e.pool.resolved && f.loop == YieldStep(cfg, e.loop)
  {
    var u, i := cfg.plan[e.loop.planIndex], e.loop.planIndex + 1;
    if !cfg.Carried(u) {
      assert i !in e.pool.submitted;
      SubmitBooks(e.pool, i, u, cfg.agents);
      assert TopUpStep(cfg, e).pool == Submit(e.pool, i, u);
    }
  }

  lemma TopUpSubmits(cfg: Config, e: Engine)
    requires SubmittedPlan(cfg, e) && CanYield(cfg, e.loop)
    ensures SubmittedPlan(cfg, TopUpStep(cfg, e))
  {
  }

  lemma ReapHeadKeeps(cfg: Config, e: Engine)
    requires EngineInv(cfg, e) && CanReap(e.loop, e.pool.resolved) && cfg.Distinct()
    ensures EngineInv(cfg, ReapHead(e))
  {
    ResolvedAre(cfg, e);
    ReapKeeps(cfg, e.pool.resolved, e.loop);
  }

  lemma EnvKeeps(cfg: Config, e: Engine, f: Engine)
    requires EngineInv(cfg, e) && f.loop == e.loop && LateEnv(e.pool, f.pool, cfg.agents)
    ensures EngineInv(cfg, f)
  {
    EnvBooks(e.pool, f.pool, cfg.agents);
    MoreResults(cfg, e.pool.resolved, f.pool.resolved, e.loop);
  }

  lemma EngineKeeps(cfg: Config, e: Engine, f: Engine)
    requires EngineInv(cfg, e) && EngineStep(cfg, e, f) && cfg.Distinct()
    ensures EngineInv(cfg, f)
  {
    if CanYield(cfg, e.loop) && f == TopUpStep(cfg, e) {
      TopUpKeeps(cfg, e);
    } else if CanReap(e.loop, e.pool.resolved) && f == ReapHead(e) {
      ReapHeadKeeps(cfg, e);
    } else {
      EnvKeeps(cfg, e, f);
    }
  }

  ghost predicate EngineRun(cfg: Config, tr: seq<Engine>) {
    && |tr| > 0 && Start(cfg, tr[0])
    && forall k :: 0 < k < |tr| ==> EngineStep(cfg, tr[k - 1], tr[k])
  }

  lemma {:induction false} EngineRunKeeps(cfg: Config, tr: seq<Engine>)
    requires EngineRun(cfg, tr) && cfg.Distinct()
    ensures EngineInv(cfg, tr[|tr| - 1])
  {
    if |tr| == 1 {
      StartInv(cfg, tr[0]);
    } else {
      var front := tr[..|tr| - 1];
      EngineRunKeeps(cfg, front);
      EngineKeeps(cfg, front[|front| - 1], tr[|tr| - 1]);
    }
  }

  // ------------------------------------------------------------------ what every run guarantees

  /** At every moment of every run the window holds at most its size of consecutive plan indices,
      the k-th finding has id k, and checkpoints and shared state have the same keys. */
  lemma WindowAlways(cfg: Config, tr: seq<Engine>)
    requires EngineRun(cfg, tr) && cfg.Distinct()
    ensures var l := tr[|tr| - 1].loop;
      && |l.inFlight| <= (if cfg.batchSize < 1 then 1 else cfg.batchSize)
      && (forall k :: 0 <= k < |l.inFlight| ==> l.inFlight[k].index == l.planIndex - |l.inFlight| + k + 1)
      && Shaped(l.agg)
  {
    EngineRunKeeps(cfg, tr);
    LoopShape(cfg, tr[|tr| - 1].pool.resolved, tr[|tr| - 1].loop);
  }

  /** Main result: whatever order paths completed in, a finished run in which no worker died ends
      in exactly the state of running the paths one at a time in plan order. */
  lemma WindowDeterminism(cfg: Config, tr: seq<Engine>)
    requires EngineRun(cfg, tr) && cfg.Distinct()
    requires var e := tr[|tr| - 1]; Done(cfg, e) && NoneDead(e.pool)
    ensures tr[|tr| - 1].loop.agg == Sequential(cfg) && StateSays(cfg, tr[|tr| - 1].loop.agg)
  {
    SequentialSays(cfg);
    var e := tr[|tr| - 1];
    EngineRunKeeps(cfg, tr);
    forall i | i in e.pool.resolved
      ensures i in InlineResults(cfg) && e.pool.resolved[i] == InlineResults(cfg)[i]
    {
      assert InlineOrDeath(e.pool, cfg.agents, i);
      assert InlineResults(cfg)[i] == InlineResult(cfg, i);
    }
    FinalAgg(cfg, e, InlineResults(cfg));
  }

  lemma FinalAgg(cfg: Config, e: Engine, results: map<nat, PathResult>)
    requires EngineInv(cfg, e) && Done(cfg, e)
    requires forall i :: i in e.pool.resolved ==> i in results && e.pool.resolved[i] == results[i]
    ensures e.loop.agg == Fold(cfg, results, |cfg.plan|)
  {
    var n := |cfg.plan|;
    assert e.loop.Reaped() == n == e.loop.planIndex;
    assert Agree(cfg, e.pool.resolved, results, n);
    FoldAgrees(cfg, e.pool.resolved, results, n);
  }

  /** With deaths, a finished run is the sequential run with the crashed paths' results missing. */
  lemma WindowWithCrashes(cfg: Config, tr: seq<Engine>)
    requires EngineRun(cfg, tr) && cfg.Distinct() && Done(cfg, tr[|tr| - 1])
    ensures var e := tr[|tr| - 1];
      && e.loop.agg == Fold(cfg, e.pool.resolved, |cfg.plan|)
      && (forall i :: 1 <= i <= |cfg.plan| && !cfg.Carried(cfg.plan[i - 1]) ==>
            i in e.pool.resolved && InlineOrCrash(cfg, i, e.pool.resolved[i]))
  {
    var e := tr[|tr| - 1];
    EngineRunKeeps(cfg, tr);
    FinalAgg(cfg, e, e.pool.resolved);
    ResolvedAre(cfg, e);
    assert e.loop.Reaped() == |cfg.plan|;
  }

  /** What a finished run records of each path, deaths included: exactly what its outcome calls for,
      and of a path resolved as crashed no checkpoint, no shared state and no failure mark. */
  lemma FinishedRunRecords(cfg: Config, tr: seq<Engine>, i: nat)
    requires EngineRun(cfg, tr) && cfg.Distinct() && Done(cfg, tr[|tr| - 1]) && 1 <= i <= |cfg.plan|
    ensures var e := tr[|tr| - 1];
      && Recorded(cfg, e.pool.resolved, i, e.loop.agg)
      && (!cfg.Carried(cfg.plan[i - 1]) ==> i in e.pool.resolved)
      && (!cfg.Carried(cfg.plan[i - 1]) && e.pool.resolved[i] == Crashed(i) ==>
            Untouched(e.loop.agg, cfg.plan[i - 1].fingerprint))
  {
    var e := tr[|tr| - 1];
    EngineRunKeeps(cfg, tr);
    ResolvedAre(cfg, e);
    WindowWithCrashes(cfg, tr);
    FoldRecords(cfg, e.pool.resolved, |cfg.plan|, i);
  }

  // ------------------------------------------------------------------ progress

  /** A pool nobody has left, will leave, or was checked late in: it also keeps the full invariant. */
  ghost predicate Healthy(cfg: Config, e: Engine) {
    Inv(e.pool, cfg.agents) && NoneDead(e.pool) && NoStops(e.pool)
  }

  /** No sentinel is in the request queue, so no worker will leave. */
  ghost predicate NoStops(p: Pool) {
    forall r :: r in p.requestQ ==> r.Path?
  }

  /** Until the run is done someone can always take a healthy step. */
  lemma NoDeadlock(cfg: Config, e: Engine)
    requires EngineInv(cfg, e) && Healthy(cfg, e) && !Done(cfg, e)
    ensures exists f :: HealthyStep(cfg, e, f)
  {
    if CanYield(cfg, e.loop) {
      assert HealthyStep(cfg, e, TopUpStep(cfg, e));
    } else if CanReap(e.loop, e.pool.resolved) {
      assert HealthyStep(cfg, e, ReapHead(e));
    } else {
      var q := HeadIsWorkedOn(cfg, e);
      assert HealthyStep(cfg, e, Engine(q, e.loop));
    }
  }

  /** While the head of the window is not resolved, some worker or the monitor can step. */
  lemma HeadIsWorkedOn(cfg: Config, e: Engine) returns (q: Pool)
    requires EngineInv(cfg, e) && Healthy(cfg, e) && e.loop.inFlight != [] && !CanReap(e.loop, e.pool.resolved)
    ensures LiveStep(e.pool, q, cfg.agents)
  {
    HeadIsSubmitted(cfg, e);
    q := SomeoneWorks(e.pool, e.loop.inFlight[0].index, cfg.agents);
  }

  lemma HeadIsSubmitted(cfg: Config, e: Engine)
    requires EngineInv(cfg, e) && e.loop.inFlight != [] && !CanReap(e.loop, e.pool.resolved)
    ensures var i := e.loop.inFlight[0].index; i in e.pool.submitted && i !in e.pool.resolved
  {
    SlotsShrink(cfg, e.loop.inFlight, e.loop.Reaped());
  }

  lemma SomeoneWorks(p: Pool, i: nat, agents: Agents) returns (q: Pool)
    requires Inv(p, agents) && NoneDead(p) && i in p.submitted && i !in p.resolved
    ensures LiveStep(p, q, agents)
  {
    assert p.monitoring by {
      assert p.workers[0].Alive();
    }
    assert Places(p, i) == 1;
    if w :| 0 <= w < |p.workers| && p.workers[w].Grabbed? {
      assert CanClaim(p, w);
      q := PutClaim(p, w);
    } else if w :| 0 <= w < |p.workers| && p.workers[w].Running? {
      assert CanReport(p, w);
      q := PutResult(p, w, agents);
    } else {
      IdleHands(p.workers, i);
      if p.requestQ != [] {
        assert CanDequeue(p, 0);
        q := Dequeue(p, 0);
      } else {
        q := Receive(p);
      }
    }
  }

  /** What a path still costs at each stage of its way through the engine. */
  function WorkerWeight(w: Worker): nat {
    match w case Grabbed(_, _) => 5 case Running(_, _) => 3 case _ => 0
  }

  function WorkersWeight(ws: seq<Worker>): nat {
    if ws == [] then 0 else WorkerWeight(ws[0]) + WorkersWeight(ws[1..])
  }

  function PoolWeight(p: Pool): nat {
    6 * |p.requestQ| + WorkersWeight(p.workers) + |p.resultQ|
  }

  function Weight(cfg: Config, e: Engine): int {
    8 * (|cfg.plan| - e.loop.planIndex) + |e.loop.inFlight| + PoolWeight(e.pool)
  }

  lemma {:induction false} WorkersWeightUpdate(ws: seq<Worker>, w: nat, x: Worker)
    requires w < |ws|
    ensures WorkersWeight(ws[w := x]) == WorkersWeight(ws) - WorkerWeight(ws[w]) + WorkerWeight(x)
  {
    var vs := ws[w := x];
    if w == 0 {
      assert vs[1..] == ws[1..];
    } else {
      assert vs[1..] == ws[1..][w - 1 := x];
      WorkersWeightUpdate(ws[1..], w - 1, x);
    }
  }

  lemma WorkerStepLightens(p: Pool, q: Pool, w: nat)
    requires w < |p.workers| && |q.workers| == |p.workers| && q.workers == p.workers[w := q.workers[w]]
    requires 6 * |q.requestQ| + |q.resultQ| + WorkerWeight(q.workers[w])
           < 6 * |p.requestQ| + |p.resultQ| + WorkerWeight(p.workers[w])
    ensures PoolWeight(q) < PoolWeight(p)
  {
    WorkersWeightUpdate(p.workers, w, q.workers[w]);
  }

  lemma DequeueLightens(p: Pool, w: nat)
    requires CanDequeue(p, w)
    ensures PoolWeight(Dequeue(p, w)) < PoolWeight(p)
  {
    WorkerStepLightens(p, Dequeue(p, w), w);
  }

  lemma ClaimLightens(p: Pool, w: nat)
    requires CanClaim(p, w)
    ensures PoolWeight(PutClaim(p, w)) < PoolWeight(p)
  {
    WorkerStepLightens(p, PutClaim(p, w), w);
  }

  lemma ReportLightens(p: Pool, w: nat, agents: Agents)
    requires CanReport(p, w)
    ensures PoolWeight(PutResult(p, w, agents)) < PoolWeight(p)
  {
    WorkerStepLightens(p, PutResult(p, w, agents), w);
  }

  lemma LiveStepLightens(p: Pool, q: Pool, agents: Agents)
    requires LiveStep(p, q, agents)
    ensures PoolWeight(q) < PoolWeight(p)
  {
    if w: nat :| CanDequeue(p, w) && q == Dequeue(p, w) {
      DequeueLightens(p, w);
    } else if w: nat :| CanClaim(p, w) && q == PutClaim(p, w) {
      ClaimLightens(p, w);
    } else if w: nat :| CanReport(p, w) && q == PutResult(p, w, agents) {
      ReportLightens(p, w, agents);
    } else {
      assert q == Receive(p);
    }
  }

  /** Every healthy step lightens the engine, so a run has at most `8 * |plan|` of them and, by
      `NoDeadlock`, ends only when it is done. */
  lemma HealthyStepsAreBounded(cfg: Config, e: Engine, f: Engine)
    requires EngineInv(cfg, e) && HealthyStep(cfg, e, f)
    ensures 0 <= Weight(cfg, f) < Weight(cfg, e)
  {
    if CanYield(cfg, e.loop) && f == TopUpStep(cfg, e) {
    } else if CanReap(e.loop, e.pool.resolved) && f == ReapHead(e) {
    } else {
      LiveStepLightens(e.pool, f.pool, cfg.agents);
    }
  }

  lemma StartWeight(cfg: Config, e: Engine)
    requires Start(cfg, e)
    ensures Weight(cfg, e) == 8 * |cfg.plan|
  {
    IdleWeight(e.pool.workers);
  }

  lemma {:induction false} IdleWeight(ws: seq<Worker>)
    requires forall w :: 0 <= w < |ws| ==> ws[w] == Idle
    ensures WorkersWeight(ws) == 0
  {
    if ws != [] {
      IdleWeight(ws[1..]);
    }
  }

  ghost predicate HealthyRun(cfg: Config, tr: seq<Engine>) {
    && |tr| > 0 && Start(cfg, tr[0]) && |tr[0].pool.workers| > 0
    && forall k :: 0 < k < |tr| ==> HealthyStep(cfg, tr[k - 1], tr[k])
  }

  lemma OneWorkerMoves(p: Pool, q: Pool, w: nat)
    requires NoneDead(p) && NoStops(p) && w < |p.workers| == |q.workers|
    requires q.workers == p.workers[w := q.workers[w]] && q.workers[w].Alive()
    requires forall r :: r in q.requestQ ==> r in p.requestQ
    ensures NoneDead(q) && NoStops(q)
  {
  }

  lemma LiveStepKillsNobody(p: Pool, q: Pool, agents: Agents)
    requires LiveStep(p, q, agents) && NoneDead(p) && NoStops(p)
    ensures NoneDead(q) && NoStops(q)
  {
    if w: nat :| CanDequeue(p, w) && q == Dequeue(p, w) {
      assert p.requestQ[0] in p.requestQ;
      OneWorkerMoves(p, q, w);
    } else if w: nat :| CanClaim(p, w) && q == PutClaim(p, w) {
      OneWorkerMoves(p, q, w);
    } else if w: nat :| CanReport(p, w) && q == PutResult(p, w, agents) {
      OneWorkerMoves(p, q, w);
    } else {
      ReceiveKillsNobody(p);
    }
  }

  lemma ReceiveKillsNobody(p: Pool)
    requires CanReceive(p)
    ensures Receive(p).workers == p.workers && Receive(p).requestQ == p.requestQ
  {
  }

  lemma HealthyStepKeeps(cfg: Config, e: Engine, f: Engine)
    requires HealthyStep(cfg, e, f) && Healthy(cfg, e) && SubmittedPlan(cfg, e)
    ensures Healthy(cfg, f)
  {
    if CanYield(cfg, e.loop) && f == TopUpStep(cfg, e) {
      HealthyTopUp(cfg, e);
    } else if CanReap(e.loop, e.pool.resolved) && f == ReapHead(e) {
    } else {
      EnvStepKeeps(e.pool, f.pool, cfg.agents);
      LiveStepKillsNobody(e.pool, f.pool, cfg.agents);
    }
  }

  lemma HealthyTopUp(cfg: Config, e: Engine)
    requires Healthy(cfg, e) && SubmittedPlan(cfg, e) && CanYield(cfg, e.loop)
    ensures Healthy(cfg, TopUpStep(cfg, e))
  {
    var u, i := cfg.plan[e.loop.planIndex], e.loop.planIndex + 1;
    if !cfg.Carried(u) {
      assert i !in e.pool.submitted;
      SubmitKeeps(e.pool, i, u, cfg.agents);
      SubmitKillsNobody(e.pool, i, u);
      assert TopUpStep(cfg, e).pool == Submit(e.pool, i, u);
    } else {
      assert TopUpStep(cfg, e).pool == e.pool;
    }
  }

  lemma SubmitKillsNobody(p: Pool, i: nat, u: AuditUnit)
    requires NoneDead(p) && NoStops(p)
    ensures NoneDead(Submit(p, i, u)) && NoStops(Submit(p, i, u))
  {
  }

  lemma {:induction false} HealthyRunLightens(cfg: Config, tr: seq<Engine>)
    requires HealthyRun(cfg, tr) && cfg.Distinct()
    ensures EngineRun(cfg, tr)
    ensures var e := tr[|tr| - 1];
      EngineInv(cfg, e) && Healthy(cfg, e) && |tr| - 1 + Weight(cfg, e) <= 8 * |cfg.plan|
  {
    if |tr| == 1 {
      StartInv(cfg, tr[0]);
      InitInv(tr[0].pool, cfg.agents);
      StartWeight(cfg, tr[0]);
    } else {
      var front := tr[..|tr| - 1];
      HealthyRunLightens(cfg, front);
      var e, f := front[|front| - 1], tr[|tr| - 1];
      assert HealthyStep(cfg, e, f);
      HealthyStepKeeps(cfg, e, f);
      HealthyStepsAreBounded(cfg, e, f);
      EngineKeeps(cfg, e, f);
    }
  }

  /** Total correctness: every run without deaths has at most `8 * |plan|` steps, and one that cannot
      go on is done and in exactly the sequential state. */
  lemma HealthyRunsFinish(cfg: Config, tr: seq<Engine>)
    requires HealthyRun(cfg, tr) && cfg.Distinct()
    ensures |tr| - 1 <= 8 * |cfg.plan|
    ensures var e := tr[|tr| - 1];
      (forall f :: !HealthyStep(cfg, e, f)) ==>
        Done(cfg, e) && e.loop.agg == Sequential(cfg) && StateSays(cfg, e.loop.agg)
  {
    var e := tr[|tr| - 1];
    HealthyRunLightens(cfg, tr);
    assert Weight(cfg, e) >= 0;
    if Done(cfg, e) {
      WindowDeterminism(cfg, tr);
    } else {
      NoDeadlock(cfg, e);
    }
  }

  // ------------------------------------------------------------------ resume

  /** The shared state of an uninterrupted run from scratch. */
  function Target(cfg: Config): map<string, Entry> {
    Sequential(Fresh(cfg)).shared
  }

  function Fresh(cfg: Config): Config {
    cfg.(skip := {}, prior := map[])
  }

  /** `resume_audit`: skip what the snapshot recorded, from the snapshot's own entries. */
  function ResumedFrom(cfg: Config, snapshot: map<string, Entry>): Config {
    cfg.(skip := snapshot.Keys, prior := snapshot)
  }

  ghost predicate PartOf(m: map<string, Entry>, n: map<string, Entry>) {
    forall k :: k in m ==> k in n && n[k] == m[k]
  }

  lemma IntegrateShared(a: Agg, r: PathResult)
    ensures Integrate(a, r).shared == a.shared + Integrate(NO_AGG, r).shared
    ensures Integrate(NO_AGG, r).shared.Keys <= {r.fingerprint}
  {
  }

  /** What path `i` leaves in the shared state: one entry under its fingerprint, or none. */
  function Own(cfg: Config, i: nat): map<string, Entry>
    requires 1 <= i <= |cfg.plan|
  {
    Integrate(NO_AGG, InlineResult(cfg, i)).shared
  }

  function FreshShared(cfg: Config, n: nat): map<string, Entry>
    requires n <= |cfg.plan|
  {
    Fold(Fresh(cfg), InlineResults(Fresh(cfg)), n).shared
  }

  lemma FreshStep(cfg: Config, n: nat)
    requires 1 <= n <= |cfg.plan|
    ensures FreshShared(cfg, n) == FreshShared(cfg, n - 1) + Own(cfg, n)
    ensures Own(cfg, n).Keys <= {cfg.plan[n - 1].fingerprint}
  {
    var c := Fresh(cfg);
    var r := InlineResult(c, n);
    assert InlineResults(c)[n] == r == InlineResult(cfg, n);
    IntegrateShared(Fold(c, InlineResults(c), n - 1), r);
  }

  lemma {:induction false} FreshEntry(cfg: Config, n: nat, i: nat)
    requires cfg.Distinct() && 1 <= i <= n <= |cfg.plan|
    ensures var fp := cfg.plan[i - 1].fingerprint;
      && (fp in FreshShared(cfg, n) <==> fp in Own(cfg, i))
      && (fp in Own(cfg, i) ==> FreshShared(cfg, n)[fp] == Own(cfg, i)[fp])
  {
    FreshStep(cfg, n);
    if i < n {
      FreshEntry(cfg, n - 1, i);
      assert cfg.plan[i - 1].fingerprint != cfg.plan[n - 1].fingerprint;
    } else {
      FreshKeys(cfg, n - 1, cfg.plan[n - 1].fingerprint);
    }
  }

  lemma {:induction false} FreshKeys(cfg: Config, n: nat, fp: string)
    requires n <= |cfg.plan| && forall i :: 0 <= i < n ==> cfg.plan[i].fingerprint != fp
    ensures fp !in FreshShared(cfg, n)
  {
    if n > 0 {
      FreshStep(cfg, n);
      FreshKeys(cfg, n - 1, fp);
    }
  }

  /** Results of the run, crashed paths aside, are the inline ones. */
  ghost predicate InlineOrCrashed(cfg: Config, results: map<nat, PathResult>) {
    forall i :: i in results && 1 <= i <= |cfg.plan| ==> InlineOrCrash(cfg, i, results[i])
  }

  /** A resumed run records nothing an uninterrupted one would not, at any point. */
  lemma {:induction false} FoldPartOfTarget(cfg: Config, results: map<nat, PathResult>, n: nat)
    requires cfg.Distinct() && n <= |cfg.plan| && PartOf(cfg.prior, Target(cfg)) && InlineOrCrashed(cfg, results)
    ensures PartOf(Fold(cfg, results, n).shared, Target(cfg))
  {
    if n > 0 {
      FoldPartOfTarget(cfg, results, n - 1);
      FreshEntry(cfg, |cfg.plan|, n);
      if !cfg.Carried(cfg.plan[n - 1]) && n in results {
        IntegrateShared(Fold(cfg, results, n - 1), results[n]);
      }
    }
  }

  lemma {:induction false} CarryPartOfTarget(cfg: Config, a: Agg, lo: nat, hi: nat)
    requires lo <= hi <= |cfg.plan| && PartOf(cfg.prior, Target(cfg)) && PartOf(a.shared, Target(cfg))
    ensures PartOf(CarryAhead(cfg, a, lo, hi).shared, Target(cfg))
    decreases hi
  {
    if lo < hi {
      CarryPartOfTarget(cfg, a, lo, hi - 1);
    }
  }

  lemma SnapshotPartOfTarget(cfg: Config, e: Engine)
    requires EngineInv(cfg, e) && cfg.Distinct() && PartOf(cfg.prior, Target(cfg))
    ensures PartOf(e.loop.agg.shared, Target(cfg))
  {
    var l := e.loop;
    ResolvedAre(cfg, e);
    FoldPartOfTarget(cfg, e.pool.resolved, l.Reaped());
    CarryPartOfTarget(cfg, Fold(cfg, e.pool.resolved, l.Reaped()), l.Reaped(), l.planIndex);
  }

  /** A run that executes every path it does not carry over records everything. */
  lemma FoldCoversNow(cfg: Config, n: nat)
    requires cfg.Distinct() && 1 <= n <= |cfg.plan| && PartOf(cfg.prior, Target(cfg))
    requires cfg.plan[n - 1].fingerprint in Target(cfg)
    ensures cfg.plan[n - 1].fingerprint in Fold(cfg, InlineResults(cfg), n).shared
  {
    CompleteStep(cfg, n);
    FreshEntry(cfg, |cfg.plan|, n);
  }

  lemma KeysGrow(cfg: Config, n: nat)
    requires 1 <= n <= |cfg.plan|
    ensures Fold(cfg, InlineResults(cfg), n - 1).shared.Keys <= Fold(cfg, InlineResults(cfg), n).shared.Keys
  {
    CompleteStep(cfg, n);
  }

  lemma {:induction false} FoldGrows(cfg: Config, m: nat, n: nat)
    requires m <= n <= |cfg.plan|
    ensures Fold(cfg, InlineResults(cfg), m).shared.Keys <= Fold(cfg, InlineResults(cfg), n).shared.Keys
    decreases n
  {
    if m < n {
      FoldGrows(cfg, m, n - 1);
      KeysGrow(cfg, n);
    }
  }

  lemma FoldCoversTarget(cfg: Config, n: nat, i: nat)
    requires cfg.Distinct() && 1 <= i <= n <= |cfg.plan| && PartOf(cfg.prior, Target(cfg))
    requires cfg.plan[i - 1].fingerprint in Target(cfg)
    ensures cfg.plan[i - 1].fingerprint in Fold(cfg, InlineResults(cfg), n).shared
  {
    FoldCoversNow(cfg, i);
    FoldGrows(cfg, i, n);
  }

  lemma CompleteStep(cfg: Config, n: nat)
    requires 1 <= n <= |cfg.plan|
    ensures var s, t := Fold(cfg, InlineResults(cfg), n - 1).shared, Fold(cfg, InlineResults(cfg), n).shared;
      var u := cfg.plan[n - 1];
      if cfg.Carried(u) then t == s[u.fingerprint := cfg.prior[u.fingerprint]] else t == s + Own(cfg, n)
  {
    assert InlineResults(cfg)[n] == InlineResult(cfg, n);
    IntegrateShared(Fold(cfg, InlineResults(cfg), n - 1), InlineResult(cfg, n));
  }

  ghost predicate Planned(cfg: Config, i: nat, fp: string) {
    1 <= i <= |cfg.plan| && cfg.plan[i - 1].fingerprint == fp
  }

  lemma {:induction false} TargetKeys(cfg: Config, n: nat, fp: string)
    requires n <= |cfg.plan| && fp in FreshShared(cfg, n)
    ensures exists i :: Planned(cfg, i, fp)
  {
    if n > 0 {
      FreshStep(cfg, n);
      if cfg.plan[n - 1].fingerprint == fp {
        assert Planned(cfg, n, fp);
      } else {
        TargetKeys(cfg, n - 1, fp);
      }
    }
  }

  lemma CompleteIsTarget(cfg: Config)
    requires cfg.Distinct() && PartOf(cfg.prior, Target(cfg))
    ensures Sequential(cfg).shared == Target(cfg)
  {
    var s := Sequential(cfg).shared;
    forall i | i in InlineResults(cfg) ensures InlineResults(cfg)[i] == InlineResult(cfg, i) {
    }
    FoldPartOfTarget(cfg, InlineResults(cfg), |cfg.plan|);
    forall fp | fp in Target(cfg)
      ensures fp in s
    {
      TargetKeys(cfg, |cfg.plan|, fp);
      var i :| Planned(cfg, i, fp);
      FoldCoversTarget(cfg, |cfg.plan|, i);
    }
  }

  /** `snapshots` is a history of interruptions: each one is the shared state some run reached,
      that run having been resumed from the one before; the first run starts from nothing. */
  ghost predicate Interrupted(cfg: Config, snapshots: seq<map<string, Entry>>) {
    && |snapshots| > 0 && snapshots[0] == map[]
    && forall k :: 0 < k < |snapshots| ==> Reaches(ResumedFrom(cfg, snapshots[k - 1]), snapshots[k])
  }

  ghost predicate Reaches(cfg: Config, snapshot: map<string, Entry>) {
    exists tr: seq<Engine> :: EngineRun(cfg, tr) && tr[|tr| - 1].loop.agg.shared == snapshot
  }

  lemma {:induction false} SnapshotsPartOfTarget(cfg: Config, snapshots: seq<map<string, Entry>>)
    requires cfg.Distinct() && Interrupted(cfg, snapshots)
    ensures PartOf(snapshots[|snapshots| - 1], Target(cfg))
  {
    if |snapshots| > 1 {
      var front := snapshots[..|snapshots| - 1];
      SnapshotsPartOfTarget(cfg, front);
      var resumed := ResumedFrom(cfg, front[|front| - 1]);
      assert Reaches(resumed, snapshots[|snapshots| - 1]);
      var tr: seq<Engine> :| EngineRun(resumed, tr) && tr[|tr| - 1].loop.agg.shared == snapshots[|snapshots| - 1];
      EngineRunKeeps(resumed, tr);
      SnapshotPartOfTarget(resumed, tr[|tr| - 1]);
    }
  }

  /** Resume equivalence: interrupt a run at any point any number of times, crashes included, and
      resume each time from the last snapshot's shared state; a final run that completes with no
      worker dead ends with the shared state of an uninterrupted run. */
  lemma ResumeEquivalence(cfg: Config, snapshots: seq<map<string, Entry>>, tr: seq<Engine>)
    requires cfg.Distinct() && Interrupted(cfg, snapshots)
    requires EngineRun(ResumedFrom(cfg, snapshots[|snapshots| - 1]), tr)
    requires Done(ResumedFrom(cfg, snapshots[|snapshots| - 1]), tr[|tr| - 1]) && NoneDead(tr[|tr| - 1].pool)
    ensures tr[|tr| - 1].loop.agg.shared == Target(cfg)
  {
    var resumed := ResumedFrom(cfg, snapshots[|snapshots| - 1]);
    SnapshotsPartOfTarget(cfg, snapshots);
    WindowDeterminism(resumed, tr);
    CompleteIsTarget(resumed);
    assert Fresh(resumed) == Fresh(cfg);
  }

  /** A resumed run executes exactly the yielded paths its snapshot has no non-empty entry for. */
  lemma ResumeExecutesOnlyTheRest(cfg: Config, snapshot: map<string, Entry>, tr: seq<Engine>, i: nat)
    requires cfg.Distinct() && EngineRun(ResumedFrom(cfg, snapshot), tr) && 1 <= i <= |cfg.plan|
    ensures var e, fp := tr[|tr| - 1], cfg.plan[i - 1].fingerprint;
      i in e.pool.submitted <==> i <= e.loop.planIndex && (fp !in snapshot || snapshot[fp] == map[])
  {
    EngineRunKeeps(ResumedFrom(cfg, snapshot), tr);
  }

  /** An entry carried ahead is in; every other path's is as it was. */
  lemma {:induction false} CarryAheadEntry(cfg: Config, a: Agg, lo: nat, hi: nat, i: nat)
    requires cfg.Distinct() && lo <= hi <= |cfg.plan| && 1 <= i <= |cfg.plan|
    ensures var b, u := CarryAhead(cfg, a, lo, hi), cfg.plan[i - 1];
      if lo < i <= hi && cfg.Carried(u) then
        u.fingerprint in b.shared && b.shared[u.fingerprint] == cfg.prior[u.fingerprint]
      else
        && (u.fingerprint in b.shared <==> u.fingerprint in a.shared)
        && (u.fingerprint in b.shared ==> b.shared[u.fingerprint] == a.shared[u.fingerprint])
    decreases hi
  {
    if lo < hi {
      CarryAheadEntry(cfg, a, lo, hi - 1, i);
      if i < hi {
        assert cfg.plan[i - 1].fingerprint != cfg.plan[hi - 1].fingerprint;
      } else if hi < i {
        assert cfg.plan[hi - 1].fingerprint != cfg.plan[i - 1].fingerprint;
      }
    }
  }

  /** At every moment of a run a carried path's entry is in the shared state, as the snapshot has it,
      if and only if the path has been yielded. */
  lemma CarriedIffYielded(cfg: Config, tr: seq<Engine>, i: nat)
    requires EngineRun(cfg, tr) && cfg.Distinct() && 1 <= i <= |cfg.plan| && cfg.Carried(cfg.plan[i - 1])
    ensures var l, fp := tr[|tr| - 1].loop, cfg.plan[i - 1].fingerprint;
      && (fp in l.agg.shared <==> i <= l.planIndex)
      && (fp in l.agg.shared ==> l.agg.shared[fp] == cfg.prior[fp])
  {
    var e := tr[|tr| - 1];
    var reaped := e.loop.Reaped();
    EngineRunKeeps(cfg, tr);
    ResolvedAre(cfg, e);
    if i <= reaped {
      FoldRecords(cfg, e.pool.resolved, reaped, i);
    } else {
      NotYetTouched(cfg, e.pool.resolved, reaped, i);
    }
    CarryAheadEntry(cfg, Fold(cfg, e.pool.resolved, reaped), reaped, e.loop.planIndex, i);
  }

  /** The shared state still has every path carried over, as it was recorded. */
  ghost predicate KeepsCarried(cfg: Config, shared: map<string, Entry>) {
    forall k :: 0 <= k < |cfg.plan| && cfg.Carried(cfg.plan[k]) ==>
      var fp := cfg.plan[k].fingerprint; fp in shared && shared[fp] == cfg.prior[fp]
  }

  /** Main result: what a resumed run would persist has kept its snapshot's entries if and only if
      the stream has already yielded every path carried over. */
  lemma SnapshotKeptIff(cfg: Config, snapshot: map<string, Entry>, tr: seq<Engine>)
    requires cfg.Distinct() && EngineRun(ResumedFrom(cfg, snapshot), tr)
    ensures var resumed, l := ResumedFrom(cfg, snapshot), tr[|tr| - 1].loop;
      KeepsCarried(resumed, l.agg.shared) <==>
        forall k :: 0 <= k < |cfg.plan| && resumed.Carried(cfg.plan[k]) ==> k < l.planIndex
  {
    var resumed := ResumedFrom(cfg, snapshot);
    forall k | 0 <= k < |cfg.plan| && resumed.Carried(cfg.plan[k])
      ensures var l, fp := tr[|tr| - 1].loop, cfg.plan[k].fingerprint;
        && (fp in l.agg.shared <==> k < l.planIndex)
        && (fp in l.agg.shared ==> l.agg.shared[fp] == resumed.prior[fp])
    {
      CarriedIffYielded(resumed, tr, k + 1);
    }
  }

  // ------------------------------------------------------------------ two runs

  lemma EngineExtends(cfg: Config, tr: seq<Engine>, f: Engine)
    requires EngineRun(cfg, tr) && EngineStep(cfg, tr[|tr| - 1], f)
    ensures EngineRun(cfg, tr + [f])
  {
  }

  lemma PoolExtends(cfg: Config, tr: seq<Engine>, q: Pool)
    requires EngineRun(cfg, tr) && LateEnv(tr[|tr| - 1].pool, q, cfg.agents)
    ensures EngineRun(cfg, tr + [tr[|tr| - 1].(pool := q)])
  {
    EngineExtends(cfg, tr, tr[|tr| - 1].(pool := q));
  }

  /** The first path is yielded, taken and claimed by the first worker, and the claim received. */
  lemma FirstPathClaimed(cfg: Config, e0: Engine) returns (tr: seq<Engine>)
    requires Start(cfg, e0) && cfg.plan != [] && !cfg.Carried(cfg.plan[0]) && e0.pool.workers != []
    ensures EngineRun(cfg, tr)
    ensures var u, p := cfg.plan[0], e0.pool;
      tr[|tr| - 1] == Engine(p.(workers := p.workers[0 := Running(1, u)], futures := {1}, claims := map[0 := 1],
                                submitted := map[1 := u]),
                             Loop(1, [Slot(1, u, true)], NO_AGG))
  {
    var e1 := TopUpStep(cfg, e0);
    EngineExtends(cfg, [e0], e1);
    assert CanDequeue(e1.pool, 0);
    var p2 := Dequeue(e1.pool, 0);
    PoolExtends(cfg, [e0] + [e1], p2);
    assert CanClaim(p2, 0);
    var p3 := PutClaim(p2, 0);
    PoolExtends(cfg, [e0] + [e1] + [e1.(pool := p2)], p3);
    assert CanReceive(p3);
    var p4 := Receive(p3);
    PoolExtends(cfg, [e0] + [e1] + [e1.(pool := p2)] + [e1.(pool := p3)], p4);
    tr := [e0] + [e1] + [e1.(pool := p2)] + [e1.(pool := p3)] + [e1.(pool := p4)];
    assert p4.requestQ == [] && p4.resultQ == [];
  }

  /** A finished run that lost a path without a trace: its worker died on it, and the report has no
      checkpoint, no shared state and no failure mark. */
  lemma CrashedPathIsLost(cfg: Config, e0: Engine) returns (tr: seq<Engine>)
    requires Start(cfg, e0) && |cfg.plan| == 1 && !cfg.Carried(cfg.plan[0]) && e0.pool.workers != []
    ensures EngineRun(cfg, tr) && Done(cfg, tr[|tr| - 1])
    ensures var e := tr[|tr| - 1];
      && 1 in e.pool.resolved && e.pool.resolved[1] == Crashed(1)
      && e.loop.agg == NO_AGG && Untouched(e.loop.agg, cfg.plan[0].fingerprint)
  {
    tr := FirstPathClaimed(cfg, e0);
    var p := tr[|tr| - 1].pool;
    assert CanDie(p, 0);
    var p1 := Die(p, 0);
    PoolExtends(cfg, tr, p1);
    tr := tr + [tr[|tr| - 1].(pool := p1)];
    var p2 := ScanOne(p1, 0);
    assert p1.workers[0] == Orphan(1) && CheckStep(p1, p2);
    PoolExtends(cfg, tr, p2);
    tr := tr + [tr[|tr| - 1].(pool := p2)];
    var e := ReapHead(tr[|tr| - 1]);
    EngineExtends(cfg, tr, e);
    tr := tr + [e];
  }

  /** And then reported, received and reaped: the first path's turn, from claim to record. */
  lemma FirstPathReaped(cfg: Config, e0: Engine) returns (tr: seq<Engine>)
    requires Start(cfg, e0) && cfg.plan != [] && !cfg.Carried(cfg.plan[0]) && e0.pool.workers != []
    ensures EngineRun(cfg, tr)
    ensures var e, r := tr[|tr| - 1], RunPath(cfg.agents, 1, cfg.plan[0]);
      && e.loop == Loop(1, [], Integrate(NO_AGG, r))
      && e.pool.resolved == map[1 := r] && e.pool.workers == e0.pool.workers
  {
    tr := FirstPathClaimed(cfg, e0);
    var p := tr[|tr| - 1].pool;
    assert CanReport(p, 0);
    var p1 := PutResult(p, 0, cfg.agents);
    PoolExtends(cfg, tr, p1);
    tr := tr + [tr[|tr| - 1].(pool := p1)];
    assert CanReceive(p1);
    var p2 := Receive(p1);
    PoolExtends(cfg, tr, p2);
    tr := tr + [tr[|tr| - 1].(pool := p2)];
    var e := ReapHead(tr[|tr| - 1]);
    EngineExtends(cfg, tr, e);
    tr := tr + [e];
  }

  /** A resumed run interrupted after real work has forgotten: with a window of one it has executed
      the first path, and what it would persist has that path's state but not the entry the snapshot
      recorded for the second. */
  lemma EarlyInterruptForgets(cfg: Config, snapshot: map<string, Entry>, e0: Engine)
    requires Start(ResumedFrom(cfg, snapshot), e0) && e0.pool.workers != [] && cfg.batchSize <= 1
    requires |cfg.plan| == 2 && cfg.plan[0].fingerprint !in snapshot
    requires cfg.plan[1].fingerprint in snapshot && snapshot[cfg.plan[1].fingerprint] != map[]
    requires cfg.agents(1, cfg.plan[0]).outcome == Completed
    ensures Reaches(ResumedFrom(cfg, snapshot), map[cfg.plan[0].fingerprint := cfg.agents(1, cfg.plan[0]).state])
  {
    var resumed := ResumedFrom(cfg, snapshot);
    var tr := FirstPathReaped(resumed, e0);
    assert tr[|tr| - 1].loop.agg.shared == map[cfg.plan[0].fingerprint := cfg.agents(1, cfg.plan[0]).state];
  }
}
