/** The aggregation side of `AuditWorkflow.run`: what one path result does to the run, what a
    resumed path carries over, and the sequential run everything else is compared with. */
module AuditLoop {
  import opened PathModel

  datatype Finding = Finding(id: nat, fingerprint: string, verdict: ValidationStatus, body: string)

  /** The master's shared state, coder verdicts aside. */
  datatype Agg = Agg(
    findings: seq<Finding>,
    checkpoints: map<string, string>,
    shared: map<string, Entry>,
    failed: set<string>,
    contextSkipped: set<string>)

  const NO_AGG := Agg([], map[], map[], {}, {})

  /** One run: the plan, the streamer's batch size, the agents, and what is resumed. */
  datatype Config = Config(
    plan: seq<AuditUnit>,
    batchSize: nat,
    agents: Agents,
    skip: set<string>,
    prior: map<string, Entry>)
  {
    function Window(): nat {
      if batchSize == 0 then 1 else batchSize
    }

    ghost predicate Distinct() {
      DistinctUnits(plan)
    }

    /** Skipped on resume: marked, and with a non-empty prior entry. */
    predicate Carried(u: AuditUnit) {
      u.fingerprint in skip && u.fingerprint in prior && prior[u.fingerprint] != map[]
    }
  }

  // ------------------------------------------------------------------ one path

  function AddFindings(fs: seq<Finding>, fp: string, cs: seq<Candidate>): seq<Finding>
    decreases |cs|
  {
    if cs == [] then fs
    else if cs[0].isCandidate && cs[0].candidate then
      AddFindings(fs + [Finding(|fs| + 1, fp, cs[0].verdict, cs[0].body)], fp, cs[1..])
    else AddFindings(fs, fp, cs[1..])
  }

  /** The aggregator's dispatch on the outcome. A crashed path matches no branch: it leaves no
      checkpoint, no shared state and no failure mark. */
  function Integrate(a: Agg, r: PathResult): Agg {
    var fp, v := r.fingerprint, r.verdict;
    match v.outcome
    case Completed =>
      a.(shared := a.shared[fp := v.state], checkpoints := a.checkpoints[fp := v.checkpoint],
         findings := AddFindings(a.findings, fp, v.perFinding))
    case ContextSkipped =>
      a.(contextSkipped := a.contextSkipped + {fp},
         checkpoints := a.checkpoints[fp := "skipped_context_window"],
         shared := a.shared[fp := map["skipped" := v.errorInfo]])
    case LlmFailed =>
      a.(failed := a.failed + {fp},
         checkpoints := a.checkpoints[fp := "failed_llm_error"],
         shared := a.shared[fp := map["failed" := v.errorInfo]])
    case Cancelled => a
    case WorkerCrashed => a
  }

  function NonEmptyField(e: Entry, key: string): string {
    if key in e then e[key] else ""
  }

  function ResumedCheckpoint(e: Entry): string {
    if NonEmptyField(e, "resumed_checkpoint") != "" then NonEmptyField(e, "resumed_checkpoint")
    else if NonEmptyField(e, "checkpoint_status") != "" then NonEmptyField(e, "checkpoint_status")
    else "resumed"
  }

  function CarryIn(cfg: Config, a: Agg, u: AuditUnit): Agg
    requires cfg.Carried(u)
  {
    var e := cfg.prior[u.fingerprint];
    a.(shared := a.shared[u.fingerprint := e], checkpoints := a.checkpoints[u.fingerprint := ResumedCheckpoint(e)])
  }

  // ------------------------------------------------------------------ one path at a time

  /** One path's turn in the sequential run. */
  function Turn(cfg: Config, results: map<nat, PathResult>, n: nat, a: Agg): Agg
    requires 1 <= n <= |cfg.plan|
  {
    if cfg.Carried(cfg.plan[n - 1]) then CarryIn(cfg, a, cfg.plan[n - 1])
    else if n in results then Integrate(a, results[n])
    else a
  }

  /** The state after the first `n` paths one at a time in plan order, with `results` for the
      executed ones. */
  function Fold(cfg: Config, results: map<nat, PathResult>, n: nat): Agg
    requires n <= |cfg.plan|
  {
    if n == 0 then NO_AGG else Turn(cfg, results, n, Fold(cfg, results, n - 1))
  }

  /** What `InlineExecutor` returns for index `i`. */
  function InlineResult(cfg: Config, i: nat): PathResult
    requires 1 <= i <= |cfg.plan|
  {
    RunPath(cfg.agents, i, cfg.plan[i - 1])
  }

  function InlineResults(cfg: Config): map<nat, PathResult> {
    map i: nat | 1 <= i <= |cfg.plan| :: InlineResult(cfg, i)
  }

  function Sequential(cfg: Config): Agg {
    Fold(cfg, InlineResults(cfg), |cfg.plan|)
  }

  /** The resumed entries of paths already yielded but not yet reaped are in the state early. */
  function CarryAhead(cfg: Config, a: Agg, lo: nat, hi: nat): Agg
    requires lo <= hi <= |cfg.plan|
    decreases hi - lo
  {
    if lo == hi then a
    else
      var b := CarryAhead(cfg, a, lo, hi - 1);
      if cfg.Carried(cfg.plan[hi - 1]) then CarryIn(cfg, b, cfg.plan[hi - 1]) else b
  }

  ghost predicate Agree(cfg: Config, r: map<nat, PathResult>, s: map<nat, PathResult>, n: nat)
    requires n <= |cfg.plan|
  {
    forall i :: 1 <= i <= n && !cfg.Carried(cfg.plan[i - 1]) ==> i in r && i in s && r[i] == s[i]
  }

  lemma {:induction false} FoldAgrees(cfg: Config, r: map<nat, PathResult>, s: map<nat, PathResult>, n: nat)
    requires n <= |cfg.plan| && Agree(cfg, r, s, n)
    ensures Fold(cfg, r, n) == Fold(cfg, s, n)
  {
    if n > 0 {
      FoldAgrees(cfg, r, s, n - 1);
    }
  }

  // ------------------------------------------------------------------ results and carries commute

  lemma IntegrateCarry(cfg: Config, a: Agg, r: PathResult, u: AuditUnit)
    requires cfg.Carried(u)
    requires r.fingerprint != u.fingerprint || r.verdict.outcome == WorkerCrashed
    ensures Integrate(CarryIn(cfg, a, u), r) == CarryIn(cfg, Integrate(a, r), u)
  {
    var fp, gp, e, v := r.fingerprint, u.fingerprint, cfg.prior[u.fingerprint], r.verdict;
    match v.outcome
    case Completed =>
      UpdatesCommute(a.shared, fp, v.state, gp, e);
      UpdatesCommute(a.checkpoints, fp, v.checkpoint, gp, ResumedCheckpoint(e));
    case ContextSkipped =>
      UpdatesCommute(a.shared, fp, map["skipped" := v.errorInfo], gp, e);
      UpdatesCommute(a.checkpoints, fp, "skipped_context_window", gp, ResumedCheckpoint(e));
    case LlmFailed =>
      UpdatesCommute(a.shared, fp, map["failed" := v.errorInfo], gp, e);
      UpdatesCommute(a.checkpoints, fp, "failed_llm_error", gp, ResumedCheckpoint(e));
    case _ =>
  }

  lemma UpdatesCommute<V>(m: map<string, V>, k: string, v: V, l: string, w: V)
    requires k != l
    ensures m[k := v][l := w] == m[l := w][k := v]
  {
  }

  /** Reaping path `lo + 1` with carried entries of later paths already in is the same as reaping
      it first. */
  lemma {:induction false} IntegratePastCarries(cfg: Config, a: Agg, r: PathResult, lo: nat, hi: nat)
    requires cfg.Distinct() && lo < hi <= |cfg.plan|
    requires r.fingerprint == cfg.plan[lo].fingerprint || r.verdict.outcome == WorkerCrashed
    requires !cfg.Carried(cfg.plan[lo])
    ensures Integrate(CarryAhead(cfg, a, lo, hi), r) == CarryAhead(cfg, Integrate(a, r), lo + 1, hi)
    decreases hi
  {
    if lo + 1 == hi {
      assert CarryAhead(cfg, a, lo, lo) == a;
    } else {
      IntegratePastCarries(cfg, a, r, lo, hi - 1);
      if cfg.Carried(cfg.plan[hi - 1]) {
        IntegrateCarry(cfg, CarryAhead(cfg, a, lo, hi - 1), r, cfg.plan[hi - 1]);
      }
    }
  }

  lemma {:induction false} CarryPastCarries(cfg: Config, a: Agg, lo: nat, hi: nat)
    requires lo < hi <= |cfg.plan| && cfg.Carried(cfg.plan[lo])
    ensures CarryAhead(cfg, a, lo, hi) == CarryAhead(cfg, CarryIn(cfg, a, cfg.plan[lo]), lo + 1, hi)
    decreases hi
  {
    if lo + 1 < hi {
      CarryPastCarries(cfg, a, lo, hi - 1);
    }
  }

  // ------------------------------------------------------------------ shape of the state

  /** The k-th finding has id k, and checkpoints and shared state have the same keys. */
  ghost predicate Shaped(a: Agg) {
    && (forall k :: 0 <= k < |a.findings| ==> a.findings[k].id == k + 1)
    && a.checkpoints.Keys == a.shared.Keys
  }

  lemma {:induction false} AddFindingsShape(fs: seq<Finding>, fp: string, cs: seq<Candidate>)
    requires forall k :: 0 <= k < |fs| ==> fs[k].id == k + 1
    ensures var gs := AddFindings(fs, fp, cs);
      && fs <= gs && (forall k :: 0 <= k < |gs| ==> gs[k].id == k + 1)
    decreases |cs|
  {
    if cs != [] {
      if cs[0].isCandidate && cs[0].candidate {
        AddFindingsShape(fs + [Finding(|fs| + 1, fp, cs[0].verdict, cs[0].body)], fp, cs[1..]);
      } else {
        AddFindingsShape(fs, fp, cs[1..]);
      }
    }
  }

  lemma IntegrateShape(a: Agg, r: PathResult)
    requires Shaped(a)
    ensures Shaped(Integrate(a, r))
  {
    AddFindingsShape(a.findings, r.fingerprint, r.verdict.perFinding);
  }

  lemma {:induction false} FoldShape(cfg: Config, results: map<nat, PathResult>, n: nat)
    requires n <= |cfg.plan|
    ensures Shaped(Fold(cfg, results, n))
  {
    if n > 0 {
      FoldShape(cfg, results, n - 1);
      if n in results {
        IntegrateShape(Fold(cfg, results, n - 1), results[n]);
      }
    }
  }

  lemma {:induction false} CarryAheadShape(cfg: Config, a: Agg, lo: nat, hi: nat)
    requires lo <= hi <= |cfg.plan| && Shaped(a)
    ensures Shaped(CarryAhead(cfg, a, lo, hi))
    decreases hi
  {
    if lo < hi {
      CarryAheadShape(cfg, a, lo, hi - 1);
    }
  }

  // ------------------------------------------------------------------ what a run records

  ghost predicate Untouched(a: Agg, fp: string) {
    fp !in a.shared && fp !in a.checkpoints && fp !in a.failed && fp !in a.contextSkipped
  }

  /** The state records path `fp` as the verdict `v` calls for. A crashed or cancelled path leaves
      nothing at all. */
  ghost predicate VerdictSays(a: Agg, fp: string, v: Verdict) {
    match v.outcome
    case Completed =>
      && fp in a.shared && a.shared[fp] == v.state
      && fp in a.checkpoints && a.checkpoints[fp] == v.checkpoint && fp !in a.failed && fp !in a.contextSkipped
    case ContextSkipped =>
      && fp in a.shared && a.shared[fp] == map["skipped" := v.errorInfo]
      && fp in a.checkpoints && a.checkpoints[fp] == "skipped_context_window"
      && fp !in a.failed && fp in a.contextSkipped
    case LlmFailed =>
      && fp in a.shared && a.shared[fp] == map["failed" := v.errorInfo]
      && fp in a.checkpoints && a.checkpoints[fp] == "failed_llm_error"
      && fp in a.failed && fp !in a.contextSkipped
    case _ => Untouched(a, fp)
  }

  /** The state has path `fp` carried over under the entry `e`: its label is the entry's resumed
      checkpoint, failing that its checkpoint status, failing that `resumed`. */
  ghost predicate EntrySays(a: Agg, fp: string, e: Entry) {
    && fp in a.shared && a.shared[fp] == e && fp !in a.failed && fp !in a.contextSkipped
    && fp in a.checkpoints
    && a.checkpoints[fp] ==
         if "resumed_checkpoint" in e && e["resumed_checkpoint"] != "" then e["resumed_checkpoint"]
         else if "checkpoint_status" in e && e["checkpoint_status"] != "" then e["checkpoint_status"]
         else "resumed"
  }

  /** What path `i` must have left in the state `a`. */
  ghost predicate Recorded(cfg: Config, results: map<nat, PathResult>, i: nat, a: Agg)
    requires 1 <= i <= |cfg.plan|
  {
    var fp := cfg.plan[i - 1].fingerprint;
    if cfg.Carried(cfg.plan[i - 1]) then EntrySays(a, fp, cfg.prior[fp])
    else if i !in results then Untouched(a, fp)
    else VerdictSays(a, fp, results[i].verdict)
  }

  /** A turn changes no other path's records. */
  lemma TurnTouchesOwn(cfg: Config, results: map<nat, PathResult>, n: nat, a: Agg, fp: string)
    requires 1 <= n <= |cfg.plan| && OwnResults(cfg, results) && fp != cfg.plan[n - 1].fingerprint
    ensures var b := Turn(cfg, results, n, a);
      && (fp in b.shared <==> fp in a.shared) && (fp in b.shared ==> b.shared[fp] == a.shared[fp])
      && (fp in b.checkpoints <==> fp in a.checkpoints)
      && (fp in b.checkpoints ==> b.checkpoints[fp] == a.checkpoints[fp])
      && (fp in b.failed <==> fp in a.failed) && (fp in b.contextSkipped <==> fp in a.contextSkipped)
  {
  }

  lemma TurnRecords(cfg: Config, results: map<nat, PathResult>, n: nat, a: Agg)
    requires 1 <= n <= |cfg.plan| && OwnResults(cfg, results) && Untouched(a, cfg.plan[n - 1].fingerprint)
    ensures Recorded(cfg, results, n, Turn(cfg, results, n, a))
  {
  }

  lemma {:induction false} NotYetTouched(cfg: Config, results: map<nat, PathResult>, n: nat, i: nat)
    requires cfg.Distinct() && OwnResults(cfg, results) && n < i <= |cfg.plan|
    ensures Untouched(Fold(cfg, results, n), cfg.plan[i - 1].fingerprint)
  {
    if n > 0 {
      NotYetTouched(cfg, results, n - 1, i);
      assert Fold(cfg, results, n) == Turn(cfg, results, n, Fold(cfg, results, n - 1));
      TurnTouchesOwn(cfg, results, n, Fold(cfg, results, n - 1), cfg.plan[i - 1].fingerprint);
    }
  }

  /** The state after `n` paths records each of them as its outcome says, whatever came later. */
  lemma {:induction false} FoldRecords(cfg: Config, results: map<nat, PathResult>, n: nat, i: nat)
    requires cfg.Distinct() && OwnResults(cfg, results) && 1 <= i <= n <= |cfg.plan|
    ensures Recorded(cfg, results, i, Fold(cfg, results, n))
  {
    var a := Fold(cfg, results, n - 1);
    assert Fold(cfg, results, n) == Turn(cfg, results, n, a);
    if i == n {
      NotYetTouched(cfg, results, n - 1, n);
      TurnRecords(cfg, results, n, a);
    } else {
      FoldRecords(cfg, results, n - 1, i);
      RecordedStays(cfg, results, i, n, a);
    }
  }

  lemma RecordedStays(cfg: Config, results: map<nat, PathResult>, i: nat, n: nat, a: Agg)
    requires cfg.Distinct() && OwnResults(cfg, results) && 1 <= i < n <= |cfg.plan| && Recorded(cfg, results, i, a)
    ensures Recorded(cfg, results, i, Turn(cfg, results, n, a))
  {
    assert cfg.plan[i - 1].fingerprint != cfg.plan[n - 1].fingerprint;
    TurnTouchesOwn(cfg, results, n, a, cfg.plan[i - 1].fingerprint);
  }

  /** The candidates path `n` contributes to the report, in the agents' order. */
  function Reported(cfg: Config, results: map<nat, PathResult>, n: nat): seq<Candidate>
    requires 1 <= n <= |cfg.plan|
  {
    if cfg.Carried(cfg.plan[n - 1]) || n !in results || !results[n].verdict.outcome.Completed? then []
    else OnlyCandidates(results[n].verdict.perFinding)
  }

  function OnlyCandidates(cs: seq<Candidate>): (out: seq<Candidate>)
    ensures |out| <= |cs| && forall c :: c in out <==> c in cs && c.isCandidate && c.candidate
  {
    if cs == [] then []
    else (if cs[0].isCandidate && cs[0].candidate then [cs[0]] else []) + OnlyCandidates(cs[1..])
  }

  /** Findings numbered from `k + 1`, one per candidate. */
  function Numbered(k: nat, fp: string, cs: seq<Candidate>): seq<Finding> {
    seq(|cs|, j requires 0 <= j < |cs| => Finding(k + j + 1, fp, cs[j].verdict, cs[j].body))
  }

  lemma NumberedStep(fs: seq<Finding>, fp: string, c: Candidate, out: seq<Candidate>)
    ensures var f := Finding(|fs| + 1, fp, c.verdict, c.body);
      (fs + [f]) + Numbered(|fs| + 1, fp, out) == fs + Numbered(|fs|, fp, [c] + out)
  {
  }

  lemma {:induction false} AddFindingsNumbers(fs: seq<Finding>, fp: string, cs: seq<Candidate>)
    ensures AddFindings(fs, fp, cs) == fs + Numbered(|fs|, fp, OnlyCandidates(cs))
    decreases |cs|
  {
    if cs != [] {
      var out := OnlyCandidates(cs[1..]);
      if cs[0].isCandidate && cs[0].candidate {
        var f := Finding(|fs| + 1, fp, cs[0].verdict, cs[0].body);
        AddFindingsNumbers(fs + [f], fp, cs[1..]);
        NumberedStep(fs, fp, cs[0], out);
      } else {
        AddFindingsNumbers(fs, fp, cs[1..]);
        assert [] + out == out;
      }
    }
  }

  /** The report lists, path by path in plan order, exactly the candidates of the completed paths,
      numbered on from those before. */
  lemma FindingsByPath(cfg: Config, results: map<nat, PathResult>, n: nat)
    requires OwnResults(cfg, results) && 1 <= n <= |cfg.plan|
    ensures var before := Fold(cfg, results, n - 1).findings;
      Fold(cfg, results, n).findings
      == before + Numbered(|before|, cfg.plan[n - 1].fingerprint, Reported(cfg, results, n))
  {
    if !cfg.Carried(cfg.plan[n - 1]) && n in results && results[n].verdict.outcome.Completed? {
      AddFindingsNumbers(Fold(cfg, results, n - 1).findings, results[n].fingerprint, results[n].verdict.perFinding);
    }
  }

  // ------------------------------------------------------------------ what the agents' verdicts say

  /** How many of the first `j` entries are reported. */
  function Emitted(cs: seq<Candidate>, j: nat): nat
    requires j <= |cs|
  {
    if j == 0 then 0 else Emitted(cs, j - 1) + (if cs[j - 1].isCandidate && cs[j - 1].candidate then 1 else 0)
  }

  /** The entries path `i`'s verdict has for the report: none unless it was executed and completed. */
  function Findable(cfg: Config, i: nat): seq<Candidate>
    requires 1 <= i <= |cfg.plan|
  {
    var u := cfg.plan[i - 1];
    if (u.fingerprint in cfg.skip && u.fingerprint in cfg.prior && cfg.prior[u.fingerprint] != map[])
       || cfg.agents(i, u).outcome != Completed then []
    else cfg.agents(i, u).perFinding
  }

  /** How many findings the first `n` paths report. */
  function EmittedBy(cfg: Config, n: nat): nat
    requires n <= |cfg.plan|
  {
    if n == 0 then 0 else EmittedBy(cfg, n - 1) + Emitted(Findable(cfg, n), |Findable(cfg, n)|)
  }

  /** The findings are exactly the candidates in the verdicts of the first `n` paths: each stands at
      the place, and has the number, of those before it. */
  ghost predicate FindingsSay(cfg: Config, fs: seq<Finding>, n: nat)
    requires n <= |cfg.plan|
  {
    && |fs| == EmittedBy(cfg, n)
    && forall i: nat, j: nat :: 1 <= i <= n && FoundAt(cfg, i, j) ==> Placed(cfg, fs, i, j)
  }

  /** Entry `j` of path `i` is the finding its place calls for. */
  ghost predicate Placed(cfg: Config, fs: seq<Finding>, i: nat, j: nat)
    requires 1 <= i <= |cfg.plan| && j < |Findable(cfg, i)|
  {
    var c, k := Findable(cfg, i)[j], EmittedBy(cfg, i - 1) + Emitted(Findable(cfg, i), j);
    k < |fs| && fs[k] == Finding(k + 1, cfg.plan[i - 1].fingerprint, c.verdict, c.body)
  }

  predicate FoundAt(cfg: Config, i: nat, j: nat)
    requires 1 <= i <= |cfg.plan|
  {
    j < |Findable(cfg, i)| && Findable(cfg, i)[j].isCandidate && Findable(cfg, i)[j].candidate
  }

  /** The state is what the agents' verdicts on the plan say, path by path, and nothing else. */
  ghost predicate StateSays(cfg: Config, a: Agg) {
    && (forall i: nat :: 1 <= i <= |cfg.plan| ==> PathSays(cfg, a, i))
    && (forall fp :: (forall u :: u in cfg.plan ==> u.fingerprint != fp) ==> Untouched(a, fp))
    && FindingsSay(cfg, a.findings, |cfg.plan|)
  }

  ghost predicate PathSays(cfg: Config, a: Agg, i: nat)
    requires 1 <= i <= |cfg.plan|
  {
    var u := cfg.plan[i - 1];
    var fp := u.fingerprint;
    if fp in cfg.skip && fp in cfg.prior && cfg.prior[fp] != map[] then EntrySays(a, fp, cfg.prior[fp])
    else VerdictSays(a, fp, cfg.agents(i, u))
  }

  lemma {:induction false} EmittedShift(cs: seq<Candidate>, j: nat)
    requires 0 < j <= |cs|
    ensures Emitted(cs, j) == (if cs[0].isCandidate && cs[0].candidate then 1 else 0) + Emitted(cs[1..], j - 1)
  {
    if j > 1 {
      EmittedShift(cs, j - 1);
    }
  }

  lemma {:induction false} CandidatesCounted(cs: seq<Candidate>)
    ensures |OnlyCandidates(cs)| == Emitted(cs, |cs|)
  {
    if cs != [] {
      CandidatesCounted(cs[1..]);
      EmittedShift(cs, |cs|);
    }
  }

  lemma {:induction false} CandidateAt(cs: seq<Candidate>, j: nat)
    requires j < |cs| && cs[j].isCandidate && cs[j].candidate
    ensures Emitted(cs, j) < |OnlyCandidates(cs)| && OnlyCandidates(cs)[Emitted(cs, j)] == cs[j]
  {
    var rest := OnlyCandidates(cs[1..]);
    if j == 0 {
      assert OnlyCandidates(cs) == [cs[0]] + rest;
    } else {
      CandidateAt(cs[1..], j - 1);
      EmittedShift(cs, j);
      if !(cs[0].isCandidate && cs[0].candidate) {
        assert OnlyCandidates(cs) == [] + rest == rest;
      } else {
        assert OnlyCandidates(cs) == [cs[0]] + rest;
      }
    }
  }

  lemma {:induction false} FoldFindingsSay(cfg: Config, n: nat)
    requires n <= |cfg.plan|
    ensures FindingsSay(cfg, Fold(cfg, InlineResults(cfg), n).findings, n)
  {
    if n > 0 {
      var fs := Fold(cfg, InlineResults(cfg), n - 1).findings;
      FoldFindingsSay(cfg, n - 1);
      InlineFindings(cfg, n);
      FindingsGrow(cfg, fs, n);
    }
  }

  lemma InlineFindings(cfg: Config, n: nat)
    requires 1 <= n <= |cfg.plan|
    ensures var fs := Fold(cfg, InlineResults(cfg), n - 1).findings;
      Fold(cfg, InlineResults(cfg), n).findings
      == fs + Numbered(|fs|, cfg.plan[n - 1].fingerprint, OnlyCandidates(Findable(cfg, n)))
  {
    InlineOwn(cfg);
    FindingsByPath(cfg, InlineResults(cfg), n);
    InlineFindable(cfg, n);
  }

  lemma InlineFindable(cfg: Config, n: nat)
    requires 1 <= n <= |cfg.plan|
    ensures Reported(cfg, InlineResults(cfg), n) == OnlyCandidates(Findable(cfg, n))
  {
    assert InlineResults(cfg)[n] == InlineResult(cfg, n);
  }

  lemma FindingsGrow(cfg: Config, fs: seq<Finding>, n: nat)
    requires 1 <= n <= |cfg.plan| && FindingsSay(cfg, fs, n - 1)
    ensures FindingsSay(cfg, fs + Numbered(|fs|, cfg.plan[n - 1].fingerprint, OnlyCandidates(Findable(cfg, n))), n)
  {
    var cs := Findable(cfg, n);
    var more := Numbered(|fs|, cfg.plan[n - 1].fingerprint, OnlyCandidates(cs));
    CandidatesCounted(cs);
    forall i: nat, j: nat | 1 <= i <= n && FoundAt(cfg, i, j) ensures Placed(cfg, fs + more, i, j) {
      if i == n {
        PlacedLast(cfg, fs, n, j);
      } else {
        PlacedStays(cfg, fs, more, i, j);
      }
    }
  }

  lemma PlacedStays(cfg: Config, fs: seq<Finding>, more: seq<Finding>, i: nat, j: nat)
    requires 1 <= i <= |cfg.plan| && j < |Findable(cfg, i)| && Placed(cfg, fs, i, j)
    ensures Placed(cfg, fs + more, i, j)
  {
  }

  lemma PlacedLast(cfg: Config, fs: seq<Finding>, n: nat, j: nat)
    requires 1 <= n <= |cfg.plan| && |fs| == EmittedBy(cfg, n - 1) && FoundAt(cfg, n, j)
    ensures Placed(cfg, fs + Numbered(|fs|, cfg.plan[n - 1].fingerprint, OnlyCandidates(Findable(cfg, n))), n, j)
  {
    CandidateAt(Findable(cfg, n), j);
  }

  /** A fingerprint no path of the plan has is recorded nowhere. */
  lemma {:induction false} NothingElse(cfg: Config, results: map<nat, PathResult>, n: nat, fp: string)
    requires OwnResults(cfg, results) && n <= |cfg.plan|
    requires forall u :: u in cfg.plan ==> u.fingerprint != fp
    ensures Untouched(Fold(cfg, results, n), fp)
  {
    if n > 0 {
      NothingElse(cfg, results, n - 1, fp);
      TurnTouchesOwn(cfg, results, n, Fold(cfg, results, n - 1), fp);
    }
  }

  /** Running the paths one at a time records and reports what their verdicts say. */
  lemma SequentialSays(cfg: Config)
    requires cfg.Distinct()
    ensures StateSays(cfg, Sequential(cfg))
  {
    var n := |cfg.plan|;
    InlineOwn(cfg);
    FoldFindingsSay(cfg, n);
    forall i: nat | 1 <= i <= n ensures PathSays(cfg, Sequential(cfg), i) {
      FoldRecords(cfg, InlineResults(cfg), n, i);
      assert InlineResults(cfg)[i] == InlineResult(cfg, i);
    }
    forall fp | forall u :: u in cfg.plan ==> u.fingerprint != fp ensures Untouched(Sequential(cfg), fp) {
      NothingElse(cfg, InlineResults(cfg), n, fp);
    }
  }

  // ------------------------------------------------------------------ the sliding window

  /** One entry of the `in_flight` deque; `awaited` when it carries a future. */
  datatype Slot = Slot(index: nat, unit: AuditUnit, awaited: bool)

  datatype Loop = Loop(planIndex: nat, inFlight: seq<Slot>, agg: Agg)
  {
    /** How many paths have left the window. */
    function Reaped(): int {
      planIndex - |inFlight|
    }
  }

  predicate CanYield(cfg: Config, l: Loop) {
    |l.inFlight| < cfg.Window() && l.planIndex < |cfg.plan|
  }

  /** One iteration of `_topup`: the next path is carried over or submitted. */
  function YieldStep(cfg: Config, l: Loop): Loop
    requires CanYield(cfg, l)
  {
    var u, i := cfg.plan[l.planIndex], l.planIndex + 1;
    if cfg.Carried(u) then Loop(i, l.inFlight + [Slot(i, u, false)], CarryIn(cfg, l.agg, u))
    else Loop(i, l.inFlight + [Slot(i, u, true)], l.agg)
  }

  predicate CanReap(l: Loop, results: map<nat, PathResult>) {
    l.inFlight != [] && (l.inFlight[0].awaited ==> l.inFlight[0].index in results)
  }

  /** Pops the oldest slot and, if it was submitted, integrates its result. */
  function ReapStep(l: Loop, results: map<nat, PathResult>): Loop
    requires CanReap(l, results)
  {
    var s := l.inFlight[0];
    Loop(l.planIndex, l.inFlight[1..], if s.awaited then Integrate(l.agg, results[s.index]) else l.agg)
  }

  /** The window holds consecutive plan indices starting right after `reaped`. */
  ghost predicate SlotsInOrder(cfg: Config, slots: seq<Slot>, reaped: int) {
    && 0 <= reaped && reaped + |slots| <= |cfg.plan|
    && forall k :: 0 <= k < |slots| ==>
         slots[k] == Slot(reaped + k + 1, cfg.plan[reaped + k], !cfg.Carried(cfg.plan[reaped + k]))
  }

  /** A future holds its own path's result, or a crash. */
  ghost predicate OwnResults(cfg: Config, results: map<nat, PathResult>) {
    forall i :: i in results && 1 <= i <= |cfg.plan| ==>
      results[i].fingerprint == cfg.plan[i - 1].fingerprint || results[i].verdict.outcome == WorkerCrashed
  }

  ghost predicate Known(cfg: Config, results: map<nat, PathResult>, n: int) {
    forall i :: 1 <= i <= n && i <= |cfg.plan| && !cfg.Carried(cfg.plan[i - 1]) ==> i in results
  }

  ghost predicate LoopInv(cfg: Config, results: map<nat, PathResult>, l: Loop) {
    && |l.inFlight| <= cfg.Window()
    && SlotsInOrder(cfg, l.inFlight, l.Reaped())
    && Known(cfg, results, l.Reaped())
    && l.agg == CarryAhead(cfg, Fold(cfg, results, l.Reaped()), l.Reaped(), l.planIndex)
  }

  lemma SlotsGrow(cfg: Config, slots: seq<Slot>, reaped: int)
    requires SlotsInOrder(cfg, slots, reaped) && reaped + |slots| < |cfg.plan|
    ensures var n := reaped + |slots|;
      SlotsInOrder(cfg, slots + [Slot(n + 1, cfg.plan[n], !cfg.Carried(cfg.plan[n]))], reaped)
  {
  }

  lemma SlotsShrink(cfg: Config, slots: seq<Slot>, reaped: int)
    requires SlotsInOrder(cfg, slots, reaped) && slots != []
    ensures SlotsInOrder(cfg, slots[1..], reaped + 1)
    ensures slots[0] == Slot(reaped + 1, cfg.plan[reaped], !cfg.Carried(cfg.plan[reaped]))
  {
  }

  lemma YieldKeeps(cfg: Config, results: map<nat, PathResult>, l: Loop)
    requires LoopInv(cfg, results, l) && CanYield(cfg, l)
    ensures LoopInv(cfg, results, YieldStep(cfg, l)) && YieldStep(cfg, l).Reaped() == l.Reaped()
  {
    SlotsGrow(cfg, l.inFlight, l.Reaped());
    YieldAgg(cfg, Fold(cfg, results, l.Reaped()), l);
  }

  lemma YieldAgg(cfg: Config, a: Agg, l: Loop)
    requires CanYield(cfg, l) && 0 <= l.Reaped() && l.agg == CarryAhead(cfg, a, l.Reaped(), l.planIndex)
    ensures YieldStep(cfg, l).agg == CarryAhead(cfg, a, l.Reaped(), l.planIndex + 1)
  {
  }

  lemma ReapKeeps(cfg: Config, results: map<nat, PathResult>, l: Loop)
    requires LoopInv(cfg, results, l) && CanReap(l, results) && cfg.Distinct() && OwnResults(cfg, results)
    ensures LoopInv(cfg, results, ReapStep(l, results))
  {
    var lo := l.Reaped();
    var l' := ReapStep(l, results);
    SlotsShrink(cfg, l.inFlight, lo);
    ReapAgg(cfg, results, l);
    assert l'.Reaped() == lo + 1;
  }

  lemma ReapAgg(cfg: Config, results: map<nat, PathResult>, l: Loop)
    requires LoopInv(cfg, results, l) && CanReap(l, results) && cfg.Distinct() && OwnResults(cfg, results)
    requires l.inFlight[0] == Slot(l.Reaped() + 1, cfg.plan[l.Reaped()], !cfg.Carried(cfg.plan[l.Reaped()]))
    ensures ReapStep(l, results).agg
         == CarryAhead(cfg, Fold(cfg, results, l.Reaped() + 1), l.Reaped() + 1, l.planIndex)
  {
    var lo := l.Reaped();
    if l.inFlight[0].awaited {
      IntegratePastCarries(cfg, Fold(cfg, results, lo), results[lo + 1], lo, l.planIndex);
    } else {
      CarryPastCarries(cfg, Fold(cfg, results, lo), lo, l.planIndex);
    }
  }

  /** More results change nothing the loop has done. */
  lemma MoreResults(cfg: Config, r: map<nat, PathResult>, s: map<nat, PathResult>, l: Loop)
    requires LoopInv(cfg, r, l) && forall i :: i in r ==> i in s && s[i] == r[i]
    ensures LoopInv(cfg, s, l)
  {
    assert Agree(cfg, r, s, l.Reaped());
    FoldAgrees(cfg, r, s, l.Reaped());
  }

  lemma LoopShape(cfg: Config, results: map<nat, PathResult>, l: Loop)
    requires LoopInv(cfg, results, l)
    ensures Shaped(l.agg)
  {
    FoldShape(cfg, results, l.Reaped());
    CarryAheadShape(cfg, Fold(cfg, results, l.Reaped()), l.Reaped(), l.planIndex);
  }

  // ------------------------------------------------------------------ the loop over InlineExecutor

  /** Every awaited slot's future is set, to the inline result of its path. */
  ghost predicate FuturesSet(cfg: Config, futures: map<nat, PathResult>, slots: seq<Slot>) {
    && (forall s :: s in slots && s.awaited ==> s.index in futures)
    && (forall i :: i in futures ==> i in InlineResults(cfg) && futures[i] == InlineResults(cfg)[i])
  }

  lemma FuturesGrow(cfg: Config, futures: map<nat, PathResult>, slots: seq<Slot>, i: nat, u: AuditUnit)
    requires FuturesSet(cfg, futures, slots) && 1 <= i <= |cfg.plan| && u == cfg.plan[i - 1]
    ensures FuturesSet(cfg, futures[i := RunPath(cfg.agents, i, u)], slots + [Slot(i, u, true)])
    ensures FuturesSet(cfg, futures, slots + [Slot(i, u, false)])
  {
    assert InlineResults(cfg)[i] == InlineResult(cfg, i);
  }

  ghost predicate InlineInv(cfg: Config, l: Loop, futures: map<nat, PathResult>) {
    LoopInv(cfg, InlineResults(cfg), l) && FuturesSet(cfg, futures, l.inFlight)
  }

  /** What one turn of the top-up loop keeps, the new future set at once. */
  lemma InlineYield(cfg: Config, l: Loop, futures: map<nat, PathResult>) returns (next: Loop)
    requires InlineInv(cfg, l, futures) && CanYield(cfg, l)
    ensures var u, i := cfg.plan[l.planIndex], l.planIndex + 1;
      && next == YieldStep(cfg, l) && next.Reaped() == l.Reaped()
      && InlineInv(cfg, next, if cfg.Carried(u) then futures else futures[i := RunPath(cfg.agents, i, u)])
  {
    next := YieldStep(cfg, l);
    YieldKeeps(cfg, InlineResults(cfg), l);
    FuturesGrow(cfg, futures, l.inFlight, l.planIndex + 1, cfg.plan[l.planIndex]);
  }

  /** `_topup`: until the window is full or the stream is drained. */
  method TopUp(cfg: Config, l0: Loop, futures0: map<nat, PathResult>) returns (l: Loop, futures: map<nat, PathResult>)
    requires InlineInv(cfg, l0, futures0)
    ensures InlineInv(cfg, l, futures) && l.Reaped() == l0.Reaped()
    ensures |l.inFlight| >= (if cfg.batchSize < 1 then 1 else cfg.batchSize) || l.planIndex >= |cfg.plan|
  {
    var planIndex: nat, inFlight, agg := l0.planIndex, l0.inFlight, l0.agg;
    futures := futures0;
    while |inFlight| < cfg.Window() && planIndex < |cfg.plan|
      invariant InlineInv(cfg, Loop(planIndex, inFlight, agg), futures)
      invariant planIndex - |inFlight| == l0.Reaped()
      decreases |cfg.plan| - planIndex
    {
      var unit := cfg.plan[planIndex];
      ghost var next := InlineYield(cfg, Loop(planIndex, inFlight, agg), futures);
      planIndex := planIndex + 1;
      if cfg.Carried(unit) {
        agg := CarryIn(cfg, agg, unit);
        inFlight := inFlight + [Slot(planIndex, unit, false)];
      } else {
        futures := futures[planIndex := RunPath(cfg.agents, planIndex, unit)];
        inFlight := inFlight + [Slot(planIndex, unit, true)];
      }
      assert Loop(planIndex, inFlight, agg) == next;
    }
    l := Loop(planIndex, inFlight, agg);
  }

  /** `AuditWorkflow.run` on one worker: `InlineExecutor` resolves every future on submission, and
      in whatever window the loop ends with the sequential state. */
  method RunInline(cfg: Config) returns (agg: Agg)
    requires cfg.Distinct()
    ensures agg == Sequential(cfg) && StateSays(cfg, agg)
  {
    InlineOwn(cfg);
    var l: Loop, futures: map<nat, PathResult> := TopUp(cfg, Loop(0, [], NO_AGG), map[]);
    while l.inFlight != []
      invariant InlineInv(cfg, l, futures)
      invariant l.inFlight == [] ==> l.planIndex >= |cfg.plan|
      decreases |cfg.plan| - l.Reaped()
    {
      ReapKeeps(cfg, InlineResults(cfg), l);
      ghost var next := ReapStep(l, InlineResults(cfg));
      var s := l.inFlight[0];
      assert s in l.inFlight;
      var after := if s.awaited then Integrate(l.agg, futures[s.index]) else l.agg;
      l := Loop(l.planIndex, l.inFlight[1..], after);
      assert l == next;
      l, futures := TopUp(cfg, l, futures);
    }
    agg := l.agg;
    SequentialSays(cfg);
  }

  lemma InlineOwn(cfg: Config)
    ensures OwnResults(cfg, InlineResults(cfg))
  {
    forall i | i in InlineResults(cfg) && 1 <= i <= |cfg.plan|
      ensures InlineResults(cfg)[i].fingerprint == cfg.plan[i - 1].fingerprint
    {
      assert InlineResults(cfg)[i] == InlineResult(cfg, i);
    }
  }
}
