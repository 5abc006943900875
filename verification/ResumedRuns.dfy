/** What a resumed run executes and records of each path, against the run it resumes and against the
    uninterrupted run. */
module ResumedRuns {
  import opened PathModel
  import opened WorkerPool
  import opened PoolSafety
  import opened AuditLoop
  import opened AuditEngine

  // ------------------------------------------------------------------ which paths are executed again

  /** The path left an entry a resume carries over: it completed with a non-empty state or, and this
      is what the documentation excludes, it failed or was skipped. */
  predicate LeavesEntry(v: Verdict) {
    v.outcome == ContextSkipped || v.outcome == LlmFailed || (v.outcome == Completed && v.state != map[])
  }

  lemma RecordedEntry(c: Config, results: map<nat, PathResult>, i: nat, a: Agg)
    requires 1 <= i <= |c.plan| && !c.Carried(c.plan[i - 1]) && Recorded(c, results, i, a)
    ensures var fp := c.plan[i - 1].fingerprint;
      fp in a.shared && a.shared[fp] != map[] <==> i in results && LeavesEntry(results[i].verdict)
  {
    if i in results {
      var v := results[i].verdict;
      assert "skipped" in map["skipped" := v.errorInfo] && "failed" in map["failed" := v.errorInfo];
    }
  }

  /** What an interrupted first run has recorded of path `i`. */
  lemma SnapshotEntry(cfg: Config, tr: seq<Engine>, i: nat)
    requires cfg.Distinct() && EngineRun(Fresh(cfg), tr) && 1 <= i <= |cfg.plan|
    ensures var e, fp := tr[|tr| - 1], cfg.plan[i - 1].fingerprint;
      fp in e.loop.agg.shared && e.loop.agg.shared[fp] != map[] <==>
        i <= e.loop.Reaped() && i in e.pool.resolved && LeavesEntry(e.pool.resolved[i].verdict)
  {
    var c, e := Fresh(cfg), tr[|tr| - 1];
    var n := e.loop.Reaped();
    EngineRunKeeps(c, tr);
    ResolvedAre(c, e);
    CarryAheadEntry(c, Fold(c, e.pool.resolved, n), n, e.loop.planIndex, i);
    if i <= n {
      FoldRecords(c, e.pool.resolved, n, i);
      RecordedEntry(c, e.pool.resolved, i, Fold(c, e.pool.resolved, n));
    } else {
      NotYetTouched(c, e.pool.resolved, n, i);
    }
  }

  /** Main result: interrupt a first run anywhere and resume it to the end; a path is executed by the
      resumed run if and only if the first had not reaped it, or it was cancelled or crashed, or it
      completed with an empty state. So a failed or skipped path is never executed again. */
  lemma ReRunIff(cfg: Config, tr0: seq<Engine>, tr: seq<Engine>, i: nat)
    requires cfg.Distinct() && EngineRun(Fresh(cfg), tr0) && 1 <= i <= |cfg.plan|
    requires var resumed := ResumedFrom(cfg, tr0[|tr0| - 1].loop.agg.shared);
      EngineRun(resumed, tr) && Done(resumed, tr[|tr| - 1])
    ensures var e0 := tr0[|tr0| - 1];
      i in tr[|tr| - 1].pool.submitted <==>
        !(i <= e0.loop.Reaped() && i in e0.pool.resolved && LeavesEntry(e0.pool.resolved[i].verdict))
  {
    SnapshotEntry(cfg, tr0, i);
    ResumeExecutesOnlyTheRest(cfg, tr0[|tr0| - 1].loop.agg.shared, tr, i);
  }

  // ------------------------------------------------------------------ what is recorded of each path

  /** The two states record path `fp` alike, findings aside. */
  ghost predicate SameRecord(a: Agg, b: Agg, fp: string) {
    && (fp in a.shared <==> fp in b.shared) && (fp in a.shared ==> a.shared[fp] == b.shared[fp])
    && (fp in a.checkpoints <==> fp in b.checkpoints)
    && (fp in a.checkpoints ==> a.checkpoints[fp] == b.checkpoints[fp])
    && (fp in a.failed <==> fp in b.failed) && (fp in a.contextSkipped <==> fp in b.contextSkipped)
  }

  /** A finished resumed run in which nobody died records a path carried over under its snapshot entry
      with the resumed label, as neither failed nor skipped, and every other path as the uninterrupted
      run does. */
  lemma ResumedPath(cfg: Config, snapshot: map<string, Entry>, tr: seq<Engine>, i: nat)
    requires cfg.Distinct() && 1 <= i <= |cfg.plan|
    requires var resumed := ResumedFrom(cfg, snapshot);
      EngineRun(resumed, tr) && Done(resumed, tr[|tr| - 1]) && NoneDead(tr[|tr| - 1].pool)
    ensures var a, fp := tr[|tr| - 1].loop.agg, cfg.plan[i - 1].fingerprint;
      if ResumedFrom(cfg, snapshot).Carried(cfg.plan[i - 1]) then
        fp in snapshot && EntrySays(a, fp, snapshot[fp])
      else SameRecord(a, Sequential(Fresh(cfg)), fp)
  {
    var resumed := ResumedFrom(cfg, snapshot);
    WindowDeterminism(resumed, tr);
    InlineOwn(resumed);
    FoldRecords(resumed, InlineResults(resumed), |cfg.plan|, i);
    FreshPath(cfg, i);
    assert InlineResults(resumed)[i] == InlineResult(cfg, i);
  }

  /** The uninterrupted run records every path as its own outcome says. */
  lemma FreshPath(cfg: Config, i: nat)
    requires cfg.Distinct() && 1 <= i <= |cfg.plan|
    ensures VerdictSays(Sequential(Fresh(cfg)), cfg.plan[i - 1].fingerprint, cfg.agents(i, cfg.plan[i - 1]))
    ensures var c := Fresh(cfg);
      && Recorded(c, InlineResults(c), i, Sequential(c))
      && i in InlineResults(c) && InlineResults(c)[i] == InlineResult(cfg, i)
  {
    var c := Fresh(cfg);
    InlineOwn(c);
    FoldRecords(c, InlineResults(c), |cfg.plan|, i);
    assert InlineResults(c)[i] == InlineResult(c, i);
  }

  // ------------------------------------------------------------------ when the whole state is the same

  /** Path `i` completed under the very label a resume gives it back. */
  predicate KeepsItsLabel(v: Verdict) {
    v.outcome == Completed && v.checkpoint == ResumedCheckpoint(v.state)
  }

  lemma CarriedSameIff(cfg: Config, snapshots: seq<map<string, Entry>>, tr: seq<Engine>, i: nat)
    requires cfg.Distinct() && Interrupted(cfg, snapshots) && 1 <= i <= |cfg.plan|
    requires var resumed := ResumedFrom(cfg, snapshots[|snapshots| - 1]);
      && EngineRun(resumed, tr) && Done(resumed, tr[|tr| - 1]) && NoneDead(tr[|tr| - 1].pool)
      && resumed.Carried(cfg.plan[i - 1])
    ensures SameRecord(tr[|tr| - 1].loop.agg, Sequential(Fresh(cfg)), cfg.plan[i - 1].fingerprint)
       <==> KeepsItsLabel(cfg.agents(i, cfg.plan[i - 1]))
  {
    var fp := cfg.plan[i - 1].fingerprint;
    ResumedPath(cfg, snapshots[|snapshots| - 1], tr, i);
    FreshPath(cfg, i);
    SnapshotsPartOfTarget(cfg, snapshots);
    assert fp in Target(cfg) && Target(cfg)[fp] == snapshots[|snapshots| - 1][fp];
  }

  lemma SameElsewhere(cfg: Config, c: Config, fp: string)
    requires c.plan == cfg.plan && forall u :: u in cfg.plan ==> u.fingerprint != fp
    ensures Untouched(Sequential(c), fp)
  {
    InlineOwn(c);
    NothingElse(c, InlineResults(c), |cfg.plan|, fp);
  }

  lemma SameStateIff(a: Agg, b: Agg)
    ensures a.(findings := []) == b.(findings := []) <==> forall fp :: SameRecord(a, b, fp)
  {
    if forall fp :: SameRecord(a, b, fp) {
      assert a.shared == b.shared by {
        forall fp ensures fp in a.shared <==> fp in b.shared { assert SameRecord(a, b, fp); }
        forall fp | fp in a.shared ensures a.shared[fp] == b.shared[fp] { assert SameRecord(a, b, fp); }
      }
      assert a.checkpoints == b.checkpoints by {
        forall fp ensures fp in a.checkpoints <==> fp in b.checkpoints { assert SameRecord(a, b, fp); }
        forall fp | fp in a.checkpoints ensures a.checkpoints[fp] == b.checkpoints[fp] {
          assert SameRecord(a, b, fp);
        }
      }
      assert a.failed == b.failed by {
        forall fp ensures fp in a.failed <==> fp in b.failed { assert SameRecord(a, b, fp); }
      }
      assert a.contextSkipped == b.contextSkipped by {
        forall fp ensures fp in a.contextSkipped <==> fp in b.contextSkipped { assert SameRecord(a, b, fp); }
      }
    }
  }

  /** Main result: interrupted any number of times and resumed to the end with nobody dead, a run has
      the uninterrupted run's shared state, checkpoints, failed and skipped paths if and only if every
      path carried over completed under the label its entry gives back. */
  lemma ResumedStateIff(cfg: Config, snapshots: seq<map<string, Entry>>, tr: seq<Engine>)
    requires cfg.Distinct() && Interrupted(cfg, snapshots)
    requires var resumed := ResumedFrom(cfg, snapshots[|snapshots| - 1]);
      EngineRun(resumed, tr) && Done(resumed, tr[|tr| - 1]) && NoneDead(tr[|tr| - 1].pool)
    ensures var resumed := ResumedFrom(cfg, snapshots[|snapshots| - 1]);
      tr[|tr| - 1].loop.agg.(findings := []) == Sequential(Fresh(cfg)).(findings := []) <==>
        forall k :: 0 <= k < |cfg.plan| && resumed.Carried(cfg.plan[k]) ==>
          KeepsItsLabel(cfg.agents(k + 1, cfg.plan[k]))
  {
    var resumed := ResumedFrom(cfg, snapshots[|snapshots| - 1]);
    var a, b := tr[|tr| - 1].loop.agg, Sequential(Fresh(cfg));
    SameStateIff(a, b);
    forall k | 0 <= k < |cfg.plan|
      ensures SameRecord(a, b, cfg.plan[k].fingerprint) <==>
        (resumed.Carried(cfg.plan[k]) ==> KeepsItsLabel(cfg.agents(k + 1, cfg.plan[k])))
    {
      if resumed.Carried(cfg.plan[k]) {
        CarriedSameIff(cfg, snapshots, tr, k + 1);
      } else {
        ResumedPath(cfg, snapshots[|snapshots| - 1], tr, k + 1);
      }
    }
    WindowDeterminism(resumed, tr);
    forall fp | forall u :: u in cfg.plan ==> u.fingerprint != fp
      ensures SameRecord(a, b, fp)
    {
      SameElsewhere(cfg, resumed, fp);
      SameElsewhere(cfg, Fresh(cfg), fp);
    }
  }

  // ------------------------------------------------------------------ a failed path

  /** A run of one path that fails, and its resume: the path is not executed again, and the finished
      resumed run reports it as `resumed`, with no failure. */
  lemma FailedPathIsNotRerun(cfg: Config, e0: Engine, f0: Engine) returns (tr0: seq<Engine>, tr: seq<Engine>)
    requires |cfg.plan| == 1 && cfg.agents(1, cfg.plan[0]).outcome == LlmFailed
    requires Start(Fresh(cfg), e0) && e0.pool.workers != [] && Init(f0.pool) && f0.loop == Loop(0, [], NO_AGG)
    ensures EngineRun(Fresh(cfg), tr0) && Done(Fresh(cfg), tr0[|tr0| - 1])
    ensures cfg.plan[0].fingerprint in tr0[|tr0| - 1].loop.agg.failed
    ensures var resumed := ResumedFrom(cfg, tr0[|tr0| - 1].loop.agg.shared);
      EngineRun(resumed, tr) && Done(resumed, tr[|tr| - 1])
    ensures var e, fp := tr[|tr| - 1], cfg.plan[0].fingerprint;
      e.pool.submitted == map[] && e.loop.agg.failed == {} && e.loop.agg.checkpoints == map[fp := "resumed"]
  {
    tr0 := FirstPathReaped(Fresh(cfg), e0);
    var resumed := ResumedFrom(cfg, tr0[|tr0| - 1].loop.agg.shared);
    assert "failed" in resumed.prior[cfg.plan[0].fingerprint];
    assert resumed.Carried(cfg.plan[0]);
    var f1 := TopUpStep(resumed, f0);
    EngineExtends(resumed, [f0], f1);
    var f2 := ReapHead(f1);
    EngineExtends(resumed, [f0] + [f1], f2);
    tr := [f0] + [f1] + [f2];
  }
}
