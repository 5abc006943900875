/** The audit loop fed by the path stream while both run: the fetcher thread, the master that blocks
    in `next_or_none` during top-up, the workers and the monitor, in every interleaving. */
module StreamedAudit {
  import opened PathModel
  import opened WorkerPool
  import opened PoolSafety
  import opened AuditLoop
  import opened AuditEngine
  import S = PathStream

  datatype Joint = Joint(stream: S.Streamer, engine: Engine)

  /** The run the joint system is compared with: over `plan_audit_paths`'s plan of the same source,
      with the stream's batch size. */
  function Planned(c: S.Setup, cfg: Config): Config {
    cfg.(plan := S.FirstOccurrences(c.source.records), batchSize := c.batchSize)
  }

  ghost predicate Opened(c: S.Setup, cfg: Config, j: Joint) {
    S.Opened(j.stream) && Start(Planned(c, cfg), j.engine)
  }

  // ------------------------------------------------------------------ steps

  /** What top-up does with a unit in hand; it knows nothing of the plan. */
  function Take(cfg: Config, e: Engine, u: AuditUnit): Engine {
    var l, i := e.loop, e.loop.planIndex + 1;
    if cfg.Carried(u) then Engine(e.pool, Loop(i, l.inFlight + [Slot(i, u, false)], CarryIn(cfg, l.agg, u)))
    else Engine(Submit(e.pool, i, u), Loop(i, l.inFlight + [Slot(i, u, true)], l.agg))
  }

  function Window(c: S.Setup): nat {
    if c.batchSize == 0 then 1 else c.batchSize
  }

  /** The master waits in `next_or_none` for a place in its window, and something is queued. */
  predicate CanTake(c: S.Setup, j: Joint) {
    |j.engine.loop.inFlight| < Window(c) && S.CanGet(j.stream)
  }

  /** It takes a unit, the end sentinel, or the fetcher's error, which ends the run. */
  function TakeStep(c: S.Setup, cfg: Config, j: Joint): Joint
    requires CanTake(c, j)
  {
    var item := j.stream.queue[0];
    Joint(S.Get(j.stream), if item.Unit? then Take(cfg, j.engine, item.record) else j.engine)
  }

  /** Only once top-up has returned, with a full window or a drained stream, does it reap. */
  predicate CanReapHead(c: S.Setup, j: Joint) {
    && !j.stream.raised && (|j.engine.loop.inFlight| >= Window(c) || j.stream.exhausted)
    && CanReap(j.engine.loop, j.engine.pool.resolved)
  }

  ghost predicate MasterMoves(c: S.Setup, cfg: Config, j: Joint, k: Joint) {
    || (CanTake(c, j) && k == TakeStep(c, cfg, j))
    || (CanReapHead(c, j) && k == j.(engine := ReapHead(j.engine)))
  }

  ghost predicate FetcherMoves(c: S.Setup, j: Joint, k: Joint) {
    && j.stream.read <= |c.source.records| && !j.stream.fetcher.Stopped?
    && k == j.(stream := S.FetchStep(c, j.stream))
  }

  ghost predicate PoolMoves(cfg: Config, j: Joint, k: Joint) {
    LateEnv(j.engine.pool, k.engine.pool, cfg.agents) && k == j.(engine := j.engine.(pool := k.engine.pool))
  }

  ghost predicate JointStep(c: S.Setup, cfg: Config, j: Joint, k: Joint) {
    MasterMoves(c, cfg, j, k) || FetcherMoves(c, j, k) || PoolMoves(cfg, j, k)
  }

  ghost predicate JointRun(c: S.Setup, cfg: Config, tr: seq<Joint>) {
    && |tr| > 0 && Opened(c, cfg, tr[0])
    && forall n :: 0 < n < |tr| ==> JointStep(c, cfg, tr[n - 1], tr[n])
  }

  ghost predicate JointDone(j: Joint) {
    j.stream.exhausted && !j.stream.raised && j.engine.loop.inFlight == []
  }

  // ------------------------------------------------------------------ projection

  /** A run of the stream and a run of the engine over the whole plan that end where the joint run
      does, the master having been given exactly what the stream yielded. */
  ghost predicate Projected(c: S.Setup, cfg: Config, j: Joint, sr: seq<S.Streamer>, er: seq<Engine>) {
    && S.Run(c, sr) && sr[|sr| - 1] == j.stream && !j.stream.stop
    && EngineRun(Planned(c, cfg), er) && er[|er| - 1] == j.engine
    && |j.stream.yielded| == j.engine.loop.planIndex
  }

  lemma StreamExtends(c: S.Setup, sr: seq<S.Streamer>, t: S.Streamer)
    requires S.Run(c, sr) && S.Next(c, sr[|sr| - 1], t)
    ensures S.Run(c, sr + [t])
  {
  }

  /** Top-up from the stream is top-up from the plan. */
  lemma TakeIsTopUp(c: S.Setup, cfg: Config, j: Joint, sr: seq<S.Streamer>, u: AuditUnit)
    requires c.dedup && CanTake(c, j) && j.stream.queue[0] == S.Unit(u)
    requires S.Run(c, sr) && sr[|sr| - 1] == j.stream && !j.stream.stop
    requires |j.stream.yielded| == j.engine.loop.planIndex
    ensures var full := Planned(c, cfg);
      CanYield(full, j.engine.loop) && Take(cfg, j.engine, u) == TopUpStep(full, j.engine)
  {
    var t := S.Get(j.stream);
    StreamExtends(c, sr, t);
    S.StreamRefinesPlan(c, sr + [t]);
    assert t.yielded == j.stream.yielded + [u];
    assert t.yielded[|j.stream.yielded|] == u;
    assert Planned(c, cfg).plan[j.engine.loop.planIndex] == u;
  }

  lemma ProjectTake(c: S.Setup, cfg: Config, j: Joint, sr: seq<S.Streamer>, er: seq<Engine>)
    returns (sr': seq<S.Streamer>, er': seq<Engine>)
    requires c.dedup && Projected(c, cfg, j, sr, er) && CanTake(c, j)
    ensures Projected(c, cfg, TakeStep(c, cfg, j), sr', er')
  {
    var k := TakeStep(c, cfg, j);
    StreamExtends(c, sr, k.stream);
    sr', er' := sr + [k.stream], er;
    if j.stream.queue[0].Unit? {
      TakeIsTopUp(c, cfg, j, sr, j.stream.queue[0].record);
      EngineExtends(Planned(c, cfg), er, k.engine);
      er' := er + [k.engine];
    }
  }

  lemma ProjectStep(c: S.Setup, cfg: Config, j: Joint, k: Joint, sr: seq<S.Streamer>, er: seq<Engine>)
    returns (sr': seq<S.Streamer>, er': seq<Engine>)
    requires c.dedup && Projected(c, cfg, j, sr, er) && JointStep(c, cfg, j, k)
    ensures Projected(c, cfg, k, sr', er')
  {
    if CanTake(c, j) && k == TakeStep(c, cfg, j) {
      sr', er' := ProjectTake(c, cfg, j, sr, er);
    } else if FetcherMoves(c, j, k) {
      StreamExtends(c, sr, k.stream);
      sr', er' := sr + [k.stream], er;
    } else {
      EngineExtends(Planned(c, cfg), er, k.engine);
      sr', er' := sr, er + [k.engine];
    }
  }

  /** Main result: every joint run, at every moment, is a run of the engine over the eager plan on
      one side and a run of the stream on the other, so everything proved of those holds of it. */
  lemma {:induction false} JointRunProjects(c: S.Setup, cfg: Config, tr: seq<Joint>)
    returns (sr: seq<S.Streamer>, er: seq<Engine>)
    requires JointRun(c, cfg, tr) && c.dedup
    ensures Projected(c, cfg, tr[|tr| - 1], sr, er)
  {
    if |tr| == 1 {
      sr, er := [tr[0].stream], [tr[0].engine];
    } else {
      var front := tr[..|tr| - 1];
      sr, er := JointRunProjects(c, cfg, front);
      sr, er := ProjectStep(c, cfg, front[|front| - 1], tr[|tr| - 1], sr, er);
    }
  }

  lemma PlannedDistinct(c: S.Setup, cfg: Config)
    ensures Planned(c, cfg).Distinct()
  {
    S.FirstOccurrencesDistinct(c.source.records);
  }

  /** Main result: a run fed by the concurrent stream, finished without deaths, ends in the state of
      running the eager plan one path at a time. */
  lemma StreamedRunIsPlanned(c: S.Setup, cfg: Config, tr: seq<Joint>)
    requires JointRun(c, cfg, tr) && c.dedup
    requires var j := tr[|tr| - 1]; JointDone(j) && NoneDead(j.engine.pool)
    ensures var a := tr[|tr| - 1].engine.loop.agg;
      a == Sequential(Planned(c, cfg)) && StateSays(Planned(c, cfg), a) && !c.source.fails
  {
    var sr, er := JointRunProjects(c, cfg, tr);
    PlannedDistinct(c, cfg);
    S.ExhaustedSawPlan(c, sr);
    WindowDeterminism(Planned(c, cfg), er);
  }

  /** The master waits for a result only with a full window, as many paths in flight as the batch
      size and at least one, or once the stream has ended. */
  lemma ReapsWhenFull(c: S.Setup, cfg: Config, tr: seq<Joint>)
    requires JointRun(c, cfg, tr) && c.dedup && CanReapHead(c, tr[|tr| - 1])
    ensures var j := tr[|tr| - 1];
      |j.engine.loop.inFlight| == (if c.batchSize < 1 then 1 else c.batchSize) || j.stream.exhausted
  {
    var sr, er := JointRunProjects(c, cfg, tr);
    PlannedDistinct(c, cfg);
    WindowAlways(Planned(c, cfg), er);
  }

  // ------------------------------------------------------------------ progress

  /** A step that is neither a death, a shutdown, an idle tick nor a timed-out put. */
  ghost predicate HealthyMove(c: S.Setup, cfg: Config, j: Joint, k: Joint) {
    || MasterMoves(c, cfg, j, k)
    || (FetcherMoves(c, j, k) && S.Productive(c, j.stream, k.stream))
    || (LiveStep(j.engine.pool, k.engine.pool, cfg.agents) && k == j.(engine := j.engine.(pool := k.engine.pool)))
  }

  ghost predicate HealthyJointRun(c: S.Setup, cfg: Config, tr: seq<Joint>) {
    && |tr| > 0 && Opened(c, cfg, tr[0]) && |tr[0].engine.pool.workers| > 0
    && forall n :: 0 < n < |tr| ==> HealthyMove(c, cfg, tr[n - 1], tr[n])
  }

  /** What a joint state still costs. */
  function Cost(c: S.Setup, cfg: Config, j: Joint): int
    requires j.stream.read <= |c.source.records|
  {
    S.Weight(c, j.stream) + Weight(Planned(c, cfg), j.engine)
  }

  ghost predicate Sound(c: S.Setup, cfg: Config, j: Joint) {
    && S.Inv(c, j.stream) && !j.stream.stop && EngineInv(Planned(c, cfg), j.engine)
    && Healthy(cfg, j.engine)
  }

  lemma TakeLightens(c: S.Setup, cfg: Config, j: Joint, sr: seq<S.Streamer>, er: seq<Engine>)
    requires c.dedup && Projected(c, cfg, j, sr, er) && Sound(c, cfg, j) && CanTake(c, j)
    ensures var k := TakeStep(c, cfg, j);
      k.stream.read <= |c.source.records| && Cost(c, cfg, k) < Cost(c, cfg, j)
      && Healthy(cfg, k.engine)
  {
    var k, full := TakeStep(c, cfg, j), Planned(c, cfg);
    assert S.Productive(c, j.stream, k.stream);
    S.StreamLightens(c, j.stream, k.stream);
    if j.stream.queue[0].Unit? {
      TakeIsTopUp(c, cfg, j, sr, j.stream.queue[0].record);
      HealthyStepsAreBounded(full, j.engine, k.engine);
      HealthyStepKeeps(full, j.engine, k.engine);
    }
  }

  lemma MoveLightens(c: S.Setup, cfg: Config, j: Joint, k: Joint, sr: seq<S.Streamer>, er: seq<Engine>)
    requires c.dedup && Projected(c, cfg, j, sr, er) && Sound(c, cfg, j) && HealthyMove(c, cfg, j, k)
    ensures k.stream.read <= |c.source.records| && Cost(c, cfg, k) < Cost(c, cfg, j)
    ensures Healthy(cfg, k.engine) && JointStep(c, cfg, j, k)
  {
    if CanTake(c, j) && k == TakeStep(c, cfg, j) {
      TakeLightens(c, cfg, j, sr, er);
    } else if FetcherMoves(c, j, k) && S.Productive(c, j.stream, k.stream) {
      S.StreamLightens(c, j.stream, k.stream);
    } else {
      var full := Planned(c, cfg);
      HealthyStepsAreBounded(full, j.engine, k.engine);
      HealthyStepKeeps(full, j.engine, k.engine);
    }
  }

  lemma ProjectedSound(c: S.Setup, cfg: Config, j: Joint, sr: seq<S.Streamer>, er: seq<Engine>)
    requires Projected(c, cfg, j, sr, er) && Healthy(cfg, j.engine)
    ensures Sound(c, cfg, j)
  {
    PlannedDistinct(c, cfg);
    S.RunKeeps(c, sr);
    EngineRunKeeps(Planned(c, cfg), er);
  }

  lemma {:induction false} HealthyJointRunLightens(c: S.Setup, cfg: Config, tr: seq<Joint>)
    returns (sr: seq<S.Streamer>, er: seq<Engine>)
    requires HealthyJointRun(c, cfg, tr) && c.dedup
    ensures JointRun(c, cfg, tr)
    ensures var j := tr[|tr| - 1];
      && Projected(c, cfg, j, sr, er) && Sound(c, cfg, j)
      && |tr| - 1 + Cost(c, cfg, j) <= 5 * |c.source.records| + 3 + 8 * |Planned(c, cfg).plan|
  {
    var k := tr[|tr| - 1];
    if |tr| == 1 {
      sr, er := [k.stream], [k.engine];
      StartWeight(Planned(c, cfg), k.engine);
      InitInv(k.engine.pool, cfg.agents);
    } else {
      var front := tr[..|tr| - 1];
      var j := front[|front| - 1];
      sr, er := HealthyJointRunLightens(c, cfg, front);
      MoveLightens(c, cfg, j, k, sr, er);
      sr, er := ProjectStep(c, cfg, j, k, sr, er);
    }
    ProjectedSound(c, cfg, k, sr, er);
  }

  /** Until the stream has ended and the window is empty somebody can move. */
  lemma JointNeverStuck(c: S.Setup, cfg: Config, j: Joint)
    requires Sound(c, cfg, j) && c.batchSize >= 1 && !j.stream.raised && !JointDone(j)
    ensures exists k :: HealthyMove(c, cfg, j, k)
  {
    var l := j.engine.loop;
    if CanTake(c, j) {
      assert HealthyMove(c, cfg, j, TakeStep(c, cfg, j));
    } else if |l.inFlight| >= Window(c) || j.stream.exhausted {
      if CanReap(l, j.engine.pool.resolved) {
        assert HealthyMove(c, cfg, j, j.(engine := ReapHead(j.engine)));
      } else {
        var q := HeadIsWorkedOn(Planned(c, cfg), j.engine);
        assert HealthyMove(c, cfg, j, j.(engine := j.engine.(pool := q)));
      }
    } else {
      S.StreamNeverStuck(c, j.stream);
      var t :| S.Productive(c, j.stream, t);
      assert HealthyMove(c, cfg, j, j.(stream := t));
    }
  }

  /** Main result, total correctness from source to report: every joint run without deaths is
      finite, and one that cannot go on has either met the source's error after every unit before it
      or ended in the sequential state of the eager plan. */
  lemma StreamedRunsFinish(c: S.Setup, cfg: Config, tr: seq<Joint>)
    requires HealthyJointRun(c, cfg, tr) && c.dedup && c.batchSize >= 1
    ensures |tr| - 1 <= 5 * |c.source.records| + 3 + 8 * |S.FirstOccurrences(c.source.records)|
    ensures var j := tr[|tr| - 1];
      (forall k :: !HealthyMove(c, cfg, j, k)) ==>
        && j.stream.yielded == S.FirstOccurrences(c.source.records)
        && (j.stream.raised <==> c.source.fails)
        && (!c.source.fails ==>
              JointDone(j) && j.engine.loop.agg == Sequential(Planned(c, cfg))
              && StateSays(Planned(c, cfg), j.engine.loop.agg))
  {
    var j := tr[|tr| - 1];
    var sr, er := HealthyJointRunLightens(c, cfg, tr);
    assert Cost(c, cfg, j) >= 0;
    if !j.stream.raised && !JointDone(j) {
      JointNeverStuck(c, cfg, j);
    } else {
      if j.stream.raised {
        RaisedIsExhausted(c, j.stream);
      }
      S.ExhaustedSawPlan(c, sr);
      if JointDone(j) {
        StreamedRunIsPlanned(c, cfg, tr);
      }
    }
  }

  lemma RaisedIsExhausted(c: S.Setup, s: S.Streamer)
    requires S.Inv(c, s) && !s.stop && s.raised
    ensures s.exhausted
  {
  }
}
