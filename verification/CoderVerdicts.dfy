/** The audit loop's side of the coder stage: dispatching findings, applying verdicts from
    callbacks and polls, and the three steps of the cancel handler, in every interleaving. */
module CoderVerdicts {
  import opened CoderDispatch

  /** `coder_status`: the default `Skipped` of a finding never dispatched, `Pending`, a verdict, or
      the `Skipped` with reason "cancelled by user". */
  datatype Status = NotDispatched | Pending | Judged(verdict: Verdict) | SkippedByCancel

  datatype Finding = Finding(id: Id, falsePositive: bool, status: Status)

  /** How far the cancel handler has come. */
  datatype Phase = Auditing | Cancelling | TasksCancelled | Marked

  datatype Audit = Audit(
    dispatcher: Dispatcher,
    findings: seq<Finding>,
    pendingCoder: set<Id>,
    phase: Phase,
    torn: set<Id>)                         // untracked by a drain that never wrote the verdict
  {
    /** `_cancelling.is_set()`. */
    predicate CancelFlag() {
      phase != Auditing
    }
  }

  const BEGIN := Audit(FRESH, [], {}, Auditing, {})

  function IdsOf(fs: seq<Finding>): set<Id> {
    set f | f in fs :: f.id
  }

  /** Writes one finding's status in place. */
  function SetStatus(fs: seq<Finding>, id: Id, st: Status): seq<Finding> {
    seq(|fs|, k requires 0 <= k < |fs| => if fs[k].id == id then fs[k].(status := st) else fs[k])
  }

  // ------------------------------------------------------------------ steps

  /** A new finding: dispatched and pending unless the validator marked it a False Positive. */
  function Emit(a: Audit, id: Id, falsePositive: bool): Audit {
    if falsePositive then a.(findings := a.findings + [Finding(id, true, NotDispatched)])
    else a.(dispatcher := Submit(a.dispatcher, id, true),
            findings := a.findings + [Finding(id, false, Pending)],
            pendingCoder := a.pendingCoder + {id})
  }

  /** `on_settled`: once the cancel flag is set every verdict becomes a clean skip. */
  function Apply(a: Audit, id: Id, v: Verdict): Audit {
    a.(findings := SetStatus(a.findings, id, if a.CancelFlag() then SkippedByCancel else Judged(v)),
       pendingCoder := a.pendingCoder - {id})
  }

  /** A done-callback as one step: pop, and apply if it won the pop. */
  function Callback(a: Audit, id: Id): Audit
    requires CanFire(a.dispatcher, id)
  {
    var b := a.(dispatcher := Fire(a.dispatcher, id));
    if id in a.dispatcher.pending then Apply(b, id, a.dispatcher.futures[id].Result()) else b
  }

  /** `_drain_coder_results` applies what it polled with no look at the cancel flag. */
  function ApplyAll(a: Audit, results: seq<(Id, Verdict)>): Audit
    decreases |results|
  {
    if results == [] then a
    else ApplyAll(a.(findings := SetStatus(a.findings, results[0].0, Judged(results[0].1)),
                     pendingCoder := a.pendingCoder - {results[0].0}), results[1..])
  }

  /** A drain by the audit loop. An interrupt may strike after `k` of the polled results or, if
      `tear`, after the next one was untracked and before its verdict was written. */
  function Drain(a: Audit, k: nat, tear: bool): Audit
    requires k <= |Polled(a.dispatcher)| && (tear ==> k < |Polled(a.dispatcher)|)
  {
    var results := Polled(a.dispatcher);
    var b := ApplyAll(a.(dispatcher := Poll(a.dispatcher)), results[..k]);
    if k == |results| then b
    else if !tear then b.(phase := Cancelling)
    else b.(phase := Cancelling, pendingCoder := b.pendingCoder - {results[k].0}, torn := b.torn + {results[k].0})
  }

  ghost predicate DrainStep(a: Audit, b: Audit, tear: bool) {
    a.phase == Auditing &&
    exists k: nat :: k <= |Polled(a.dispatcher)| && (tear ==> k < |Polled(a.dispatcher)|) && b == Drain(a, k, tear)
  }

  function SkipAll(fs: seq<Finding>, ids: set<Id>): seq<Finding> {
    seq(|fs|, k requires 0 <= k < |fs| => if fs[k].id in ids then fs[k].(status := SkippedByCancel) else fs[k])
  }

  /** `_mark_pending_coder_skipped`. */
  function MarkSkipped(a: Audit): Audit {
    a.(findings := SkipAll(a.findings, a.pendingCoder), pendingCoder := {}, phase := Marked)
  }

  ghost predicate Next(a: Audit, b: Audit) {
    || (exists id, fp ::
          a.phase == Auditing && !a.dispatcher.closed && id !in IdsOf(a.findings) && b == Emit(a, id, fp))
    || (exists d :: ExecutorStep(a.dispatcher, d) && b == a.(dispatcher := d))
    || (exists id :: CanFire(a.dispatcher, id) && b == Callback(a, id))
    || DrainStep(a, b, false) || DrainStep(a, b, true)
    || (a.phase == Auditing && b == a.(phase := Cancelling))
    || (a.phase == Cancelling && b == a.(dispatcher := CancelAll(a.dispatcher), phase := TasksCancelled))
    || (a.phase == TasksCancelled && b == MarkSkipped(a))
    || (a.phase == Marked && b == a.(dispatcher := Shutdown(a.dispatcher)))
  }

  // ------------------------------------------------------------------ the invariant

  ghost predicate DistinctIds(fs: seq<Finding>) {
    forall i, j :: 0 <= i < j < |fs| ==> fs[i].id != fs[j].id
  }

  /** A finding's status says where it is: `Pending` exactly while the audit loop tracks it or after a
      torn drain, and a task the dispatcher still holds is tracked, or skipped once marked. */
  ghost predicate Right(a: Audit, f: Finding) {
    && (f.falsePositive <==> f.status == NotDispatched)
    && (f.status.Pending? <==> f.id in a.pendingCoder || f.id in a.torn)
    && (f.id in a.torn ==> f.id !in a.dispatcher.pending)
    && (f.falsePositive ==> f.id !in a.dispatcher.submitted)
    && (f.id in a.dispatcher.pending ==>
          if a.phase == Marked then f.status == SkippedByCancel else f.status.Pending?)
  }

  ghost predicate AllRight(a: Audit) {
    forall k :: 0 <= k < |a.findings| ==> Right(a, a.findings[k])
  }

  ghost predicate Inv(a: Audit) {
    && CoderDispatch.Inv(a.dispatcher)
    && DistinctIds(a.findings)
    && AllRight(a)
    && (forall id :: id in a.dispatcher.submitted ==> id in IdsOf(a.findings))
    && a.pendingCoder <= IdsOf(a.findings) && a.torn <= IdsOf(a.findings) && a.pendingCoder !! a.torn
    && (a.phase == Auditing ==> a.torn == {})
    && (a.phase == Marked ==> a.pendingCoder == {})
  }

  /** Same findings in the same places, statuses aside. */
  ghost predicate SameFindings(fs: seq<Finding>, gs: seq<Finding>) {
    |fs| == |gs| && forall k :: 0 <= k < |fs| ==> gs[k].id == fs[k].id && gs[k].falsePositive == fs[k].falsePositive
  }

  lemma SameIds(fs: seq<Finding>, gs: seq<Finding>)
    requires SameFindings(fs, gs)
    ensures IdsOf(gs) == IdsOf(fs)
    ensures DistinctIds(fs) ==> DistinctIds(gs)
  {
    forall f | f in fs ensures f.id in IdsOf(gs) {
      var k :| 0 <= k < |fs| && fs[k] == f;
      assert gs[k] in gs;
    }
    forall g | g in gs ensures g.id in IdsOf(fs) {
      var k :| 0 <= k < |gs| && gs[k] == g;
      assert fs[k] in fs;
    }
  }

  // ------------------------------------------------------------------ every step keeps it

  lemma EmitKeeps(a: Audit, id: Id, falsePositive: bool)
    requires Inv(a) && a.phase == Auditing && !a.dispatcher.closed && id !in IdsOf(a.findings)
    ensures Inv(Emit(a, id, falsePositive))
  {
    NotTracked(a, id);
    EmitIds(a, id, falsePositive);
    EmitRight(a, id, falsePositive);
    if !falsePositive {
      SubmitKeeps(a.dispatcher, id, true);
    }
  }

  /** The audit loop tracks no id without a finding. */
  lemma NotTracked(a: Audit, id: Id)
    requires Inv(a) && id !in IdsOf(a.findings)
    ensures id !in a.dispatcher.submitted && id !in a.dispatcher.pending && id !in a.pendingCoder
  {
    if id in a.dispatcher.pending {
      PendingSubmitted(a.dispatcher, id);
    }
  }

  lemma EmitIds(a: Audit, id: Id, falsePositive: bool)
    requires DistinctIds(a.findings) && id !in IdsOf(a.findings)
    ensures DistinctIds(Emit(a, id, falsePositive).findings)
    ensures IdsOf(Emit(a, id, falsePositive).findings) == IdsOf(a.findings) + {id}
    ensures forall k :: 0 <= k < |a.findings| ==> a.findings[k].id != id
  {
    var fs, gs := a.findings, Emit(a, id, falsePositive).findings;
    assert forall k :: 0 <= k < |fs| ==> fs[k] in fs;
    assert gs[|fs|] in gs;
    assert forall f :: f in fs ==> f in gs;
  }

  lemma EmitRight(a: Audit, id: Id, falsePositive: bool)
    requires AllRight(a) && a.phase == Auditing && !a.dispatcher.closed && a.torn == {}
    requires id !in a.dispatcher.submitted && id !in a.dispatcher.pending && id !in a.pendingCoder
    requires forall k :: 0 <= k < |a.findings| ==> a.findings[k].id != id
    ensures AllRight(Emit(a, id, falsePositive))
  {
    var b := Emit(a, id, falsePositive);
    forall k | 0 <= k < |b.findings| ensures Right(b, b.findings[k]) {
      if k < |a.findings| {
        assert Right(a, a.findings[k]);
      }
    }
  }

  /** A step that leaves findings, tracking and the dispatcher's books alone. */
  lemma QuietKeeps(a: Audit, b: Audit)
    requires Inv(a) && b == a.(dispatcher := b.dispatcher, phase := b.phase)
    requires CoderDispatch.Inv(b.dispatcher) && b.dispatcher.submitted == a.dispatcher.submitted
    requires forall id :: id in b.dispatcher.pending ==> id in a.dispatcher.pending
    requires (a.phase == Marked) == (b.phase == Marked) && (b.phase == Auditing ==> a.phase == Auditing)
    ensures Inv(b)
  {
    forall k | 0 <= k < |b.findings| ensures Right(b, b.findings[k]) {
      assert Right(a, a.findings[k]);
    }
  }

  lemma CallbackKeeps(a: Audit, id: Id)
    requires Inv(a) && CanFire(a.dispatcher, id)
    ensures Inv(Callback(a, id))
  {
    FireKeeps(a.dispatcher, id);
    WithoutIn(a.dispatcher.pending, {id});
    if id in a.dispatcher.pending {
      PendingSubmitted(a.dispatcher, id);
      SameIds(a.findings, Callback(a, id).findings);
      CallbackRight(a, id);
    } else {
      QuietKeeps(a, Callback(a, id));
    }
  }

  lemma CallbackRight(a: Audit, id: Id)
    requires AllRight(a) && CanFire(a.dispatcher, id) && id in a.dispatcher.pending
    requires id in a.dispatcher.submitted
    ensures AllRight(Callback(a, id))
  {
    var b := Callback(a, id);
    WithoutIn(a.dispatcher.pending, {id});
    forall k | 0 <= k < |b.findings| ensures Right(b, b.findings[k]) {
      assert Right(a, a.findings[k]);
    }
  }

  function FirstIn(rs: seq<(Id, Verdict)>): set<Id> {
    set r | r in rs :: r.0
  }

  /** Applying polled results touches exactly the findings they name, each with a verdict polled
      for it. */
  lemma {:induction false} ApplyAllEffect(a: Audit, rs: seq<(Id, Verdict)>)
    ensures var b := ApplyAll(a, rs);
      && b.dispatcher == a.dispatcher && b.phase == a.phase
      && b.pendingCoder == a.pendingCoder - FirstIn(rs) && b.torn == a.torn
      && SameFindings(a.findings, b.findings)
      && (forall k :: 0 <= k < |a.findings| ==>
            if a.findings[k].id in FirstIn(rs)
            then b.findings[k].status.Judged? && (a.findings[k].id, b.findings[k].status.verdict) in rs
            else b.findings[k] == a.findings[k])
    decreases |rs|
  {
    if rs != [] {
      var a1 := a.(findings := SetStatus(a.findings, rs[0].0, Judged(rs[0].1)),
                   pendingCoder := a.pendingCoder - {rs[0].0});
      ApplyAllEffect(a1, rs[1..]);
      assert rs == [rs[0]] + rs[1..];
      assert FirstIn(rs) == {rs[0].0} + FirstIn(rs[1..]) by {
        assert rs[0] in rs;
        forall r | r in rs[1..] ensures r in rs {
        }
      }
    }
  }

  /** Polled ids are settled tasks that were pending, and none stays pending. */
  lemma PolledIds(a: Audit, k: nat)
    requires k <= |Polled(a.dispatcher)|
    ensures forall id :: id in FirstIn(Polled(a.dispatcher)[..k]) ==>
              id in a.dispatcher.pending && id !in Poll(a.dispatcher).pending
    ensures forall id :: id in Poll(a.dispatcher).pending ==> id in a.dispatcher.pending
  {
    var d := a.dispatcher;
    var ids := SettledIds(d);
    OnlyIn(d.pending, ids);
    WithoutIn(d.pending, ids);
    ResultsOwn(d, Only(d.pending, ids));
    forall r | r in Polled(d)[..k] ensures r in Polled(d) {
    }
  }

  /** No id is polled twice. */
  lemma PolledDistinct(d: Dispatcher, i: nat, j: nat)
    requires Split(d) && i < j < |Polled(d)|
    ensures Polled(d)[i].0 != Polled(d)[j].0
  {
    var ids, id := SettledIds(d), Polled(d)[i].0;
    OnlyIn(d.pending, ids);
    CountResults(d, Only(d.pending, ids), id);
    CountSplit(d.pending, ids, id);
    assert Places(d, id) <= 1;
    if Polled(d)[j].0 == id {
      CountedTwice(Polled(d), i, j);
    }
  }

  lemma {:induction false} CountedTwice(s: seq<(Id, Verdict)>, i: nat, j: nat)
    requires i < j < |s| && s[i].0 == s[j].0
    ensures CountFirst(s, s[i].0) >= 2
  {
    if i > 0 {
      CountedTwice(s[1..], i - 1, j - 1);
    } else {
      Counted(s[1..], j - 1);
    }
  }

  lemma {:induction false} Counted(s: seq<(Id, Verdict)>, j: nat)
    requires j < |s|
    ensures CountFirst(s, s[j].0) >= 1
  {
    if j > 0 {
      Counted(s[1..], j - 1);
    }
  }

  lemma DrainKeeps(a: Audit, k: nat)
    requires Inv(a) && a.phase == Auditing && k <= |Polled(a.dispatcher)|
    ensures Inv(Drain(a, k, false))
  {
    var rs := Polled(a.dispatcher)[..k];
    var a1 := a.(dispatcher := Poll(a.dispatcher));
    var b := Drain(a, k, false);
    PollKeeps(a.dispatcher);
    PolledIds(a, k);
    ApplyAllEffect(a1, rs);
    SameIds(a.findings, b.findings);
    DrainRight(a, k);
  }

  lemma DrainRight(a: Audit, k: nat)
    requires AllRight(a) && a.phase == Auditing && k <= |Polled(a.dispatcher)|
    requires forall j :: 0 <= j < |a.findings| && a.findings[j].falsePositive ==>
               a.findings[j].id !in a.dispatcher.pending
    ensures AllRight(Drain(a, k, false))
  {
    var rs := Polled(a.dispatcher)[..k];
    var b := Drain(a, k, false);
    PolledIds(a, k);
    ApplyAllEffect(a.(dispatcher := Poll(a.dispatcher)), rs);
    forall j | 0 <= j < |b.findings| ensures Right(b, b.findings[j]) {
      assert Right(a, a.findings[j]);
    }
  }

  /** The torn result is the next one: its finding is still tracked, and only its id is moved. */
  lemma TornIs(a: Audit, k: nat)
    requires Inv(a) && a.phase == Auditing && k < |Polled(a.dispatcher)|
    ensures var b, id := Drain(a, k, false), Polled(a.dispatcher)[k].0;
      && Drain(a, k, true) == b.(pendingCoder := b.pendingCoder - {id}, torn := {id})
      && id in a.dispatcher.submitted && id in b.pendingCoder && id !in b.dispatcher.pending
      && b.phase == Cancelling && b.torn == {}
  {
    var d, rs, id := a.dispatcher, Polled(a.dispatcher)[..k], Polled(a.dispatcher)[k].0;
    PolledIds(a, k + 1);
    assert Polled(d)[..k + 1][k] in Polled(d)[..k + 1];
    PendingSubmitted(d, id);
    TrackedWhilePending(a, id);
    ApplyAllEffect(a.(dispatcher := Poll(d)), rs);
    if id in FirstIn(rs) {
      var r :| r in rs && r.0 == id;
      var i :| 0 <= i < k && rs[i] == r;
      PolledDistinct(d, i, k);
    }
  }

  lemma TrackedWhilePending(a: Audit, id: Id)
    requires Inv(a) && a.phase == Auditing && id in a.dispatcher.pending && id in a.dispatcher.submitted
    ensures id in a.pendingCoder
  {
    var f :| f in a.findings && f.id == id;
    var j :| 0 <= j < |a.findings| && a.findings[j] == f;
    assert Right(a, a.findings[j]);
  }

  lemma TearKeeps(a: Audit, k: nat)
    requires Inv(a) && a.phase == Auditing && k < |Polled(a.dispatcher)|
    ensures Inv(Drain(a, k, true))
  {
    DrainKeeps(a, k);
    TornIs(a, k);
    var b, t := Drain(a, k, false), Drain(a, k, true);
    forall j | 0 <= j < |t.findings| ensures Right(t, t.findings[j]) {
      assert Right(b, b.findings[j]);
    }
  }

  lemma MarkKeeps(a: Audit)
    requires Inv(a) && a.phase == TasksCancelled
    ensures Inv(MarkSkipped(a))
  {
    var b := MarkSkipped(a);
    SameIds(a.findings, b.findings);
    forall k | 0 <= k < |b.findings| ensures Right(b, b.findings[k]) {
      assert Right(a, a.findings[k]);
    }
  }

  lemma CancelTasksKeeps(a: Audit)
    requires Inv(a) && a.phase == Cancelling
    ensures Inv(a.(dispatcher := CancelAll(a.dispatcher), phase := TasksCancelled))
  {
    CancelKeeps(a.dispatcher);
    WithoutIn(a.dispatcher.pending, CancellableIds(a.dispatcher));
    QuietKeeps(a, a.(dispatcher := CancelAll(a.dispatcher), phase := TasksCancelled));
  }

  lemma TaskKeeps(a: Audit, d: Dispatcher)
    requires Inv(a) && ExecutorStep(a.dispatcher, d)
    ensures Inv(a.(dispatcher := d))
  {
    ExecutorKeeps(a.dispatcher, d);
    QuietKeeps(a, a.(dispatcher := d));
  }

  lemma FlagKeeps(a: Audit)
    requires Inv(a) && a.phase == Auditing
    ensures Inv(a.(phase := Cancelling))
  {
    QuietKeeps(a, a.(phase := Cancelling));
  }

  lemma ShutdownKeeps(a: Audit)
    requires Inv(a) && a.phase == Marked
    ensures Inv(a.(dispatcher := Shutdown(a.dispatcher)))
  {
    FutureStepKeeps(a.dispatcher, Shutdown(a.dispatcher));
    QuietKeeps(a, a.(dispatcher := Shutdown(a.dispatcher)));
  }

  lemma NextKeeps(a: Audit, b: Audit)
    requires Inv(a) && Next(a, b)
    ensures Inv(b)
  {
    if id: Id, fp :|
        a.phase == Auditing && !a.dispatcher.closed && id !in IdsOf(a.findings) && b == Emit(a, id, fp) {
      EmitKeeps(a, id, fp);
    } else if d :| ExecutorStep(a.dispatcher, d) && b == a.(dispatcher := d) {
      TaskKeeps(a, d);
    } else if id: Id :| CanFire(a.dispatcher, id) && b == Callback(a, id) {
      CallbackKeeps(a, id);
    } else if DrainStep(a, b, false) {
      var k: nat :| k <= |Polled(a.dispatcher)| && b == Drain(a, k, false);
      DrainKeeps(a, k);
    } else if DrainStep(a, b, true) {
      var k: nat :| k < |Polled(a.dispatcher)| && b == Drain(a, k, true);
      TearKeeps(a, k);
    } else if a.phase == Auditing {
      FlagKeeps(a);
    } else if a.phase == Cancelling {
      CancelTasksKeeps(a);
    } else if a.phase == TasksCancelled {
      MarkKeeps(a);
    } else {
      ShutdownKeeps(a);
    }
  }

  ghost predicate Run(tr: seq<Audit>) {
    && |tr| > 0 && tr[0] == BEGIN
    && forall k :: 0 < k < |tr| ==> Next(tr[k - 1], tr[k])
  }

  lemma {:induction false} RunKeeps(tr: seq<Audit>)
    requires Run(tr)
    ensures Inv(tr[|tr| - 1])
  {
    if |tr| > 1 {
      var front := tr[..|tr| - 1];
      RunKeeps(front);
      NextKeeps(front[|front| - 1], tr[|tr| - 1]);
    }
  }

  // ------------------------------------------------------------------ what every run guarantees

  /** A verdict, once written, is never overwritten; and from the moment the cancel flag is set
      every status written is a clean skip and no finding appears. */
  lemma VerdictsStay(a: Audit, b: Audit, k: nat)
    requires Inv(a) && Next(a, b) && k < |a.findings|
    ensures k < |b.findings| && b.findings[k].id == a.findings[k].id
    ensures a.findings[k].status.Judged? ==> b.findings[k] == a.findings[k]
    ensures a.CancelFlag() ==> |b.findings| == |a.findings|
    ensures a.CancelFlag() ==> b.findings[k] == a.findings[k] || b.findings[k].status == SkippedByCancel
    ensures a.CancelFlag() ==> b.CancelFlag()
  {
    assert Right(a, a.findings[k]);
    if DrainStep(a, b, false) {
      var n: nat :| n <= |Polled(a.dispatcher)| && b == Drain(a, n, false);
      DrainWrites(a, n, k);
    } else if DrainStep(a, b, true) {
      var n: nat :| n < |Polled(a.dispatcher)| && b == Drain(a, n, true);
      DrainWrites(a, n, k);
      TornIs(a, n);
    }
  }

  lemma DrainWrites(a: Audit, n: nat, k: nat)
    requires a.phase == Auditing && n <= |Polled(a.dispatcher)| && k < |a.findings|
    requires Right(a, a.findings[k]) && a.torn == {}
    ensures var b := Drain(a, n, false);
      && |b.findings| == |a.findings| && b.findings[k].id == a.findings[k].id
      && (b.findings[k] == a.findings[k] || a.findings[k].status.Pending?)
  {
    PolledIds(a, n);
    ApplyAllEffect(a.(dispatcher := Poll(a.dispatcher)), Polled(a.dispatcher)[..n]);
  }

  /** A verdict for `id` was handed over, by a callback or by a poll. */
  predicate Reported(d: Dispatcher, id: Id, v: Verdict) {
    (id, v) in d.byCallback || (id, v) in d.byPoll
  }

  /** A judged finding got a verdict reported for it; and before the cancel flag is set nothing is
      skipped, and what is pending is still with the dispatcher. */
  ghost predicate Told(a: Audit, f: Finding) {
    && (f.status.Judged? ==> Reported(a.dispatcher, f.id, f.status.verdict))
    && (a.phase == Auditing ==> f.status != SkippedByCancel && (f.status.Pending? ==> f.id in a.dispatcher.pending))
  }

  ghost predicate AllTold(a: Audit) {
    forall k :: 0 <= k < |a.findings| ==> Told(a, a.findings[k])
  }

  lemma ToldNext(a: Audit, b: Audit)
    requires Inv(a) && AllTold(a) && Next(a, b)
    ensures AllTold(b)
  {
    if id: Id :| CanFire(a.dispatcher, id) && b == Callback(a, id) {
      ToldCallback(a, id);
    } else if DrainStep(a, b, false) {
      var n: nat :| n <= |Polled(a.dispatcher)| && b == Drain(a, n, false);
      ToldDrain(a, n);
    } else if DrainStep(a, b, true) {
      var n: nat :| n < |Polled(a.dispatcher)| && b == Drain(a, n, true);
      TornIs(a, n);
      ToldDrain(a, n);
      ToldQuiet(Drain(a, n, false), b);
    } else if id: Id, fp :|
        a.phase == Auditing && !a.dispatcher.closed && id !in IdsOf(a.findings) && b == Emit(a, id, fp) {
      ToldEmit(a, id, fp);
    } else if b.findings == a.findings {
      ToldQuiet(a, b);
    } else {
      ToldMark(a);
    }
  }

  lemma ToldEmit(a: Audit, id: Id, falsePositive: bool)
    requires Inv(a) && AllTold(a) && a.phase == Auditing && !a.dispatcher.closed && id !in IdsOf(a.findings)
    ensures AllTold(Emit(a, id, falsePositive))
  {
    var b := Emit(a, id, falsePositive);
    NotTracked(a, id);
    forall k | 0 <= k < |b.findings| ensures Told(b, b.findings[k]) {
      if k < |a.findings| {
        assert Told(a, a.findings[k]);
      }
    }
  }

  /** Findings untouched, and nothing leaves the dispatcher while the audit goes on. */
  lemma ToldQuiet(a: Audit, b: Audit)
    requires AllTold(a) && b.findings == a.findings && LogsGrow(a.dispatcher, b.dispatcher)
    requires b.phase == Auditing ==> a.phase == Auditing && b.dispatcher.pending == a.dispatcher.pending
    ensures AllTold(b)
  {
    forall k | 0 <= k < |b.findings| ensures Told(b, b.findings[k]) {
      assert Told(a, a.findings[k]);
    }
  }

  lemma ToldCallback(a: Audit, id: Id)
    requires AllTold(a) && CanFire(a.dispatcher, id)
    ensures AllTold(Callback(a, id))
  {
    var b := Callback(a, id);
    WithoutIn(a.dispatcher.pending, {id});
    forall k | 0 <= k < |b.findings| ensures Told(b, b.findings[k]) {
      assert Told(a, a.findings[k]);
    }
  }

  lemma ToldDrain(a: Audit, n: nat)
    requires Inv(a) && AllTold(a) && a.phase == Auditing && n <= |Polled(a.dispatcher)|
    ensures AllTold(Drain(a, n, false))
  {
    var d := a.dispatcher;
    var rs, b := Polled(d)[..n], Drain(a, n, false);
    ApplyAllEffect(a.(dispatcher := Poll(d)), rs);
    PollKeepsOthers(d);
    forall k | 0 <= k < |b.findings| ensures Told(b, b.findings[k]) {
      var f := a.findings[k];
      assert Told(a, f);
      assert forall r :: r in rs ==> r in Polled(d) && r in Poll(d).byPoll;
    }
  }

  /** A pending task that one poll did not return is still pending. */
  lemma PollKeepsOthers(d: Dispatcher)
    requires CoderDispatch.Inv(d)
    ensures forall id :: id in d.pending && id !in FirstIn(Polled(d)) ==> id in Poll(d).pending
    ensures Polled(d)[..|Polled(d)|] == Polled(d)
  {
    PollInSubmissionOrder(d);
    FirstOfIn(Polled(d));
  }

  lemma {:induction false} FirstOfIn(rs: seq<(Id, Verdict)>)
    ensures forall id :: id in FirstOf(rs) <==> id in FirstIn(rs)
  {
    if rs != [] {
      FirstOfIn(rs[1..]);
      assert rs == [rs[0]] + rs[1..];
      assert FirstIn(rs) == {rs[0].0} + FirstIn(rs[1..]) by {
        assert rs[0] in rs;
        assert forall r :: r in rs[1..] ==> r in rs;
      }
    }
  }

  lemma ToldMark(a: Audit)
    requires AllTold(a)
    ensures AllTold(MarkSkipped(a))
  {
    var b := MarkSkipped(a);
    forall k | 0 <= k < |b.findings| ensures Told(b, b.findings[k]) {
      assert Told(a, a.findings[k]);
    }
  }

  lemma {:induction false} RunTells(tr: seq<Audit>)
    requires Run(tr)
    ensures AllTold(tr[|tr| - 1])
  {
    if |tr| > 1 {
      var front := tr[..|tr| - 1];
      RunTells(front);
      RunKeeps(front);
      ToldNext(front[|front| - 1], tr[|tr| - 1]);
    }
  }

  /** In every reachable state a judged finding has the verdict of its own task: reported for its
      id, and answered by its future, a cancelled one by the transport error. And until the cancel
      flag is set no reported verdict is missing: a finding is judged `v` if and only if `v` was
      reported for it, and pending if and only if the dispatcher still holds its task. */
  lemma VerdictIsOwn(tr: seq<Audit>, f: Finding, v: Verdict)
    requires Run(tr) && f in tr[|tr| - 1].findings
    ensures var d := tr[|tr| - 1].dispatcher;
      f.status == Judged(v) ==>
        && ((f.id, v) in d.byCallback || (f.id, v) in d.byPoll)
        && f.id in d.futures
        && (d.futures[f.id] == Done(v) || (d.futures[f.id] == Cancelled && v == TransportError))
    ensures var a := tr[|tr| - 1];
      a.phase == Auditing ==>
        && (f.status == Judged(v) <==> (f.id, v) in a.dispatcher.byCallback || (f.id, v) in a.dispatcher.byPoll)
        && (f.status == Pending <==> f.id in a.dispatcher.pending)
  {
    var a := tr[|tr| - 1];
    RunKeeps(tr);
    RunTells(tr);
    var k :| 0 <= k < |a.findings| && a.findings[k] == f;
    assert Right(a, f) && Told(a, f);
    if Reported(a.dispatcher, f.id, v) {
      ReportedOnce(a.dispatcher, f.id, v);
    }
  }

  /** What was reported was submitted and is no longer pending. */
  lemma ReportedOnce(d: Dispatcher, id: Id, v: Verdict)
    requires CoderDispatch.Inv(d) && Reported(d, id, v)
    ensures id in d.submitted && id !in d.pending && Answers(d, id, v)
  {
    CountIn(d.pending, id);
    if (id, v) in d.byCallback {
      var i :| 0 <= i < |d.byCallback| && d.byCallback[i] == (id, v);
      Counted(d.byCallback, i);
    } else {
      var i :| 0 <= i < |d.byPoll| && d.byPoll[i] == (id, v);
      Counted(d.byPoll, i);
    }
    assert Places(d, id) >= 1;
  }

  /** Every task the dispatcher still holds was submitted with a callback that has not run yet. */
  ghost predicate Due(d: Dispatcher) {
    && (forall id :: id in d.pending ==> id in d.observed && id !in d.fired)
    && (forall id :: id in d.fired ==> id in d.submitted)
  }

  lemma DueLess(d: Dispatcher, e: Dispatcher)
    requires Due(d) && forall id :: id in e.pending ==> id in d.pending
    requires e.observed == d.observed && e.fired == d.fired && e.submitted == d.submitted
    ensures Due(e)
  {
  }

  lemma DueFire(d: Dispatcher, id: Id)
    requires CoderDispatch.Inv(d) && Due(d) && CanFire(d, id)
    ensures Due(Fire(d, id))
  {
    WithoutIn(d.pending, {id});
  }

  lemma DueSubmit(a: Audit, id: Id, falsePositive: bool)
    requires Inv(a) && Due(a.dispatcher) && !a.dispatcher.closed && id !in IdsOf(a.findings)
    ensures Due(Emit(a, id, falsePositive).dispatcher)
  {
    NotTracked(a, id);
  }

  lemma DueDrain(a: Audit, n: nat)
    requires Due(a.dispatcher) && n <= |Polled(a.dispatcher)|
    ensures Due(Drain(a, n, false).dispatcher)
  {
    ApplyAllEffect(a.(dispatcher := Poll(a.dispatcher)), Polled(a.dispatcher)[..n]);
    WithoutIn(a.dispatcher.pending, SettledIds(a.dispatcher));
    DueLess(a.dispatcher, Poll(a.dispatcher));
  }

  lemma DueCancel(d: Dispatcher)
    requires Due(d)
    ensures Due(CancelAll(d))
  {
    WithoutIn(d.pending, CancellableIds(d));
  }

  lemma DueNext(a: Audit, b: Audit)
    requires Inv(a) && Next(a, b) && Due(a.dispatcher)
    ensures Due(b.dispatcher)
  {
    if id: Id :| CanFire(a.dispatcher, id) && b == Callback(a, id) {
      DueFire(a.dispatcher, id);
    } else if DrainStep(a, b, false) {
      var n: nat :| n <= |Polled(a.dispatcher)| && b == Drain(a, n, false);
      DueDrain(a, n);
    } else if DrainStep(a, b, true) {
      var n: nat :| n < |Polled(a.dispatcher)| && b == Drain(a, n, true);
      TornIs(a, n);
      DueDrain(a, n);
    } else if id: Id, fp :|
        a.phase == Auditing && !a.dispatcher.closed && id !in IdsOf(a.findings) && b == Emit(a, id, fp) {
      DueSubmit(a, id, fp);
    } else if b.dispatcher == CancelAll(a.dispatcher) {
      DueCancel(a.dispatcher);
    } else {
      DueLess(a.dispatcher, b.dispatcher);
    }
  }

  lemma {:induction false} RunDue(tr: seq<Audit>)
    requires Run(tr)
    ensures Due(tr[|tr| - 1].dispatcher)
  {
    if |tr| > 1 {
      var front := tr[..|tr| - 1];
      RunDue(front);
      RunKeeps(front);
      DueNext(front[|front| - 1], tr[|tr| - 1]);
    }
  }

  /** No verdict is lost between the two ways of delivery: in every reachable state a task the
      dispatcher still holds, once it is done or cancelled, has a callback that can still run, and
      running it settles the finding, as the verdict before the cancel flag and as a skip after. */
  lemma CallbackStillDue(tr: seq<Audit>, f: Finding)
    requires Run(tr) && f in tr[|tr| - 1].findings && f.id in tr[|tr| - 1].dispatcher.pending
    requires var d := tr[|tr| - 1].dispatcher;
      f.id in d.futures && (d.futures[f.id].Done? || d.futures[f.id].Cancelled?)
    ensures var a := tr[|tr| - 1]; CanFire(a.dispatcher, f.id) && Run(tr + [Callback(a, f.id)])
    ensures var a := tr[|tr| - 1];
      var v := if a.dispatcher.futures[f.id].Done? then a.dispatcher.futures[f.id].verdict else TransportError;
      f.(status := if a.phase == Auditing then Judged(v) else SkippedByCancel) in Callback(a, f.id).findings
  {
    var a := tr[|tr| - 1];
    RunDue(tr);
    RunExtends(tr, Callback(a, f.id));
    var k :| 0 <= k < |a.findings| && a.findings[k] == f;
    assert Callback(a, f.id).findings[k].id == f.id;
  }

  /** Clean cancellation: once the handler has marked the findings, in every interleaving and
      whatever callbacks still fire, every dispatched finding has its verdict or a clean skip, save
      the one a torn drain left pending; and no False Positive was ever dispatched. */
  lemma CleanCancellation(tr: seq<Audit>)
    requires Run(tr) && tr[|tr| - 1].phase == Marked
    ensures var a := tr[|tr| - 1];
      && (forall f :: f in a.findings ==> (f.status.Pending? <==> f.id in a.torn))
      && (forall f :: f in a.findings && f.id in a.dispatcher.submitted && f.id !in a.torn ==>
            f.status.Judged? || f.status == SkippedByCancel)
      && (forall f :: f in a.findings && f.falsePositive ==>
            f.id !in a.dispatcher.submitted && f.status == NotDispatched)
  {
    var a := tr[|tr| - 1];
    RunKeeps(tr);
    forall f | f in a.findings ensures Right(a, f) {
      var k :| 0 <= k < |a.findings| && a.findings[k] == f;
    }
  }

  /** Step `k` of the run is a drain interrupted between its two writes. */
  ghost predicate TearsAt(tr: seq<Audit>, k: int) {
    0 < k < |tr| && DrainStep(tr[k - 1], tr[k], true)
  }

  lemma TornStep(a: Audit, b: Audit)
    requires Inv(a) && Next(a, b)
    ensures b.torn != {} <==> a.torn != {} || DrainStep(a, b, true)
  {
    if DrainStep(a, b, true) {
      var k: nat :| k < |Polled(a.dispatcher)| && b == Drain(a, k, true);
      TornIs(a, k);
      assert Polled(a.dispatcher)[k].0 in b.torn;
    } else if DrainStep(a, b, false) {
      var k: nat :| k <= |Polled(a.dispatcher)| && b == Drain(a, k, false);
      ApplyAllEffect(a.(dispatcher := Poll(a.dispatcher)), Polled(a.dispatcher)[..k]);
    }
  }

  lemma {:induction false} TornIff(tr: seq<Audit>)
    requires Run(tr)
    ensures tr[|tr| - 1].torn != {} <==> exists k :: TearsAt(tr, k)
  {
    if |tr| > 1 {
      var n := |tr| - 1;
      var front := tr[..n];
      TornIff(front);
      RunKeeps(front);
      TornStep(front[n - 1], tr[n]);
      assert DrainStep(tr[n - 1], tr[n], true) <==> TearsAt(tr, n);
      forall k | k < n ensures TearsAt(front, k) <==> TearsAt(tr, k) {
      }
    }
  }

  /** Nothing is left pending after cancellation if and only if no drain was interrupted between
      untracking a finding and writing its verdict. */
  lemma NonePendingIff(tr: seq<Audit>)
    requires Run(tr) && tr[|tr| - 1].phase == Marked
    ensures (forall f :: f in tr[|tr| - 1].findings ==> !f.status.Pending?) <==> !exists k :: TearsAt(tr, k)
  {
    var a := tr[|tr| - 1];
    CleanCancellation(tr);
    RunKeeps(tr);
    TornIff(tr);
    if a.torn != {} {
      var id :| id in a.torn;
      assert id in IdsOf(a.findings);
      var f :| f in a.findings && f.id == id;
    }
  }

  lemma RunExtends(tr: seq<Audit>, b: Audit)
    requires Run(tr) && Next(tr[|tr| - 1], b)
    ensures Run(tr + [b])
  {
  }

  /** A run that leaves a finding pending for good: its task is done, the drain untracks it, the
      interrupt strikes, and the handler finds nothing to mark. */
  lemma TornDrainLeavesPending(id: Id, v: Verdict) returns (tr: seq<Audit>)
    ensures Run(tr)
    ensures var a := tr[|tr| - 1]; a.phase == Marked && a.findings == [Finding(id, false, Pending)]
  {
    var a1 := Emit(BEGIN, id, false);
    RunExtends([BEGIN], a1);
    assert CanStart(a1.dispatcher, id);
    var a2 := a1.(dispatcher := Start(a1.dispatcher, id));
    RunExtends([BEGIN] + [a1], a2);
    assert CanFinish(a2.dispatcher, id);
    var a3 := a2.(dispatcher := Finish(a2.dispatcher, id, v));
    RunExtends([BEGIN] + [a1] + [a2], a3);
    tr := [BEGIN] + [a1] + [a2] + [a3];
    OnePolled(a3.dispatcher, id);
    var a4 := Drain(a3, 0, true);
    assert DrainStep(a3, a4, true);
    RunExtends(tr, a4);
    tr := tr + [a4];
    var a5 := a4.(dispatcher := CancelAll(a4.dispatcher), phase := TasksCancelled);
    RunExtends(tr, a5);
    tr := tr + [a5];
    var a6 := MarkSkipped(a5);
    RunExtends(tr, a6);
    tr := tr + [a6];
    assert a4.findings == a3.findings == [Finding(id, false, Pending)];
    assert a5.pendingCoder == {};
    assert a6.findings == a5.findings;
  }

  lemma OnePolled(d: Dispatcher, id: Id)
    requires d.pending == [id] && id in d.futures && d.futures[id].Settled()
    ensures Polled(d) == [(id, d.futures[id].Result())]
  {
    var ids := SettledIds(d);
    assert d.pending[0] == id && id in ids;
    assert Only(d.pending[1..], ids) == [];
    assert Only(d.pending, ids) == [id] + [] == [id];
    OnlyIn(d.pending, ids);
    assert Results(d, [id][1..]) == [];
  }

  // ------------------------------------------------------------------ the loop's lists as written

  /** The in-place updates of `findings` and `pending_coder`. */
  class CoderStage {
    var findings: seq<Finding>
    var pendingCoder: set<Id>
    var cancelling: bool

    ghost predicate Valid()
      reads this
    {
      DistinctIds(findings) && pendingCoder <= IdsOf(findings)
    }

    constructor ()
      ensures Valid() && findings == [] && pendingCoder == {} && !cancelling
    {
      findings, pendingCoder, cancelling := [], {}, false;
    }

    /** `index_by_id.get(id)`, or the length if there is none. */
    method IndexOf(id: Id) returns (k: nat)
      requires Valid()
      ensures k <= |findings| && (k < |findings| ==> findings[k].id == id)
      ensures k == |findings| <==> id !in IdsOf(findings)
    {
      k := 0;
      while k < |findings| && findings[k].id != id
        invariant k <= |findings| && forall j :: 0 <= j < k ==> findings[j].id != id
      {
        k := k + 1;
      }
      if k < |findings| {
        assert findings[k] in findings;
      }
    }

    /** The callback `_make_stream_callback` builds. */
    method OnSettled(id: Id, v: Verdict)
      requires Valid()
      modifies this
      ensures Valid() && cancelling == old(cancelling) && pendingCoder == old(pendingCoder) - {id}
      ensures findings == SetStatus(old(findings), id, if cancelling then SkippedByCancel else Judged(v))
    {
      var k := IndexOf(id);
      if k == |findings| {
        assert forall j :: 0 <= j < |findings| ==> findings[j] in findings && findings[j].id != id;
        return;
      }
      var st := if cancelling then SkippedByCancel else Judged(v);
      ghost var was := findings;
      findings := findings[k := findings[k].(status := st)];
      pendingCoder := pendingCoder - {id};
      SameIds(was, findings);
    }

    /** `_mark_pending_coder_skipped`. */
    method MarkPendingSkipped()
      requires Valid()
      modifies this
      ensures Valid() && pendingCoder == {} && cancelling == old(cancelling)
      ensures findings == SkipAll(old(findings), old(pendingCoder))
    {
      ghost var was := findings;
      while pendingCoder != {}
        invariant Valid() && pendingCoder <= old(pendingCoder) && cancelling == old(cancelling)
        invariant findings == SkipAll(was, old(pendingCoder) - pendingCoder)
        decreases pendingCoder
      {
        var id :| id in pendingCoder;
        var k := IndexOf(id);
        ghost var before := findings;
        findings := findings[k := findings[k].(status := SkippedByCancel)];
        pendingCoder := pendingCoder - {id};
        SameIds(before, findings);
      }
      assert old(pendingCoder) - {} == old(pendingCoder);
    }
  }
}
