/** `CoderDispatcher`: verification tasks on a thread pool, settled by a callback from the worker
    thread or by polling from the audit loop. Popping the pending map is the only coordination. */
module CoderDispatch {
  type Id = nat

  /** A `CoderResult`, up to what the dispatcher does with it. */
  datatype Verdict = Verdict(status: string) | TransportError

  datatype Future = Queued | Running | Done(verdict: Verdict) | Cancelled
  {
    predicate Settled() {
      Done? || Cancelled?
    }

    /** `future.result()`, with the exception of a cancelled future made a transport error. */
    function Result(): Verdict
      requires Settled()
    {
      if Done? then verdict else TransportError
    }
  }

  datatype Dispatcher = Dispatcher(
    pending: seq<Id>,                      // keys of `_pending` in insertion order
    futures: map<Id, Future>,
    observed: set<Id>,                     // submitted with an `on_settled` callback
    fired: set<Id>,                        // done-callback already run
    closed: bool,
    submitted: seq<Id>,
    byCallback: seq<(Id, Verdict)>,
    byPoll: seq<(Id, Verdict)>,
    cancelled: seq<Id>)

  const FRESH := Dispatcher([], map[], {}, {}, false, [], [], [], [])

  // ------------------------------------------------------------------ steps

  function Without(s: seq<Id>, gone: set<Id>): seq<Id> {
    if s == [] then [] else (if s[0] in gone then [] else [s[0]]) + Without(s[1..], gone)
  }

  function Only(s: seq<Id>, kept: set<Id>): seq<Id> {
    if s == [] then [] else (if s[0] in kept then [s[0]] else []) + Only(s[1..], kept)
  }

  /** A closed dispatcher raises; a pending id is a no-op. */
  function Submit(d: Dispatcher, id: Id, observe: bool): Dispatcher {
    if d.closed || id in d.pending then d
    else d.(pending := d.pending + [id], futures := d.futures[id := Queued],
            observed := if observe then d.observed + {id} else d.observed, submitted := d.submitted + [id])
  }

  predicate CanStart(d: Dispatcher, id: Id) {
    id in d.futures && d.futures[id].Queued?
  }

  function Start(d: Dispatcher, id: Id): Dispatcher
    requires CanStart(d, id)
  {
    d.(futures := d.futures[id := Running])
  }

  predicate CanFinish(d: Dispatcher, id: Id) {
    id in d.futures && d.futures[id].Running?
  }

  function Finish(d: Dispatcher, id: Id, v: Verdict): Dispatcher
    requires CanFinish(d, id)
  {
    d.(futures := d.futures[id := Done(v)])
  }

  predicate CanFire(d: Dispatcher, id: Id) {
    id in d.observed && id !in d.fired && id in d.futures && d.futures[id].Settled()
  }

  /** `_fire_settled`: pops the entry, and hands its verdict on only if nobody popped it before. */
  function Fire(d: Dispatcher, id: Id): Dispatcher
    requires CanFire(d, id)
  {
    var e := d.(fired := d.fired + {id});
    if id !in d.pending then e
    else e.(pending := Without(d.pending, {id}), byCallback := d.byCallback + [(id, d.futures[id].Result())])
  }

  function SettledIds(d: Dispatcher): set<Id> {
    set id | id in d.pending && id in d.futures && d.futures[id].Settled()
  }

  function Results(d: Dispatcher, ids: seq<Id>): seq<(Id, Verdict)>
    requires forall id :: id in ids ==> id in d.futures && d.futures[id].Settled()
  {
    if ids == [] then [] else [(ids[0], d.futures[ids[0]].Result())] + Results(d, ids[1..])
  }

  /** What `poll_completed` returns: every settled pending task, in submission order. */
  function Polled(d: Dispatcher): seq<(Id, Verdict)> {
    OnlyIn(d.pending, SettledIds(d));
    Results(d, Only(d.pending, SettledIds(d)))
  }

  function Poll(d: Dispatcher): Dispatcher {
    d.(pending := Without(d.pending, SettledIds(d)), byPoll := d.byPoll + Polled(d))
  }

  function CancellableIds(d: Dispatcher): set<Id> {
    set id | id in d.pending && id in d.futures && d.futures[id].Queued?
  }

  /** `cancel_all` as one step: queued tasks are cancelled and popped, running ones stay. */
  function CancelAll(d: Dispatcher): Dispatcher {
    var ids := CancellableIds(d);
    d.(pending := Without(d.pending, ids), cancelled := d.cancelled + Only(d.pending, ids),
       futures := map id | id in d.futures :: if id in ids then Cancelled else d.futures[id])
  }

  /** `shutdown`: no more submissions, and the executor cancels what it has not started. */
  function Shutdown(d: Dispatcher): Dispatcher {
    d.(closed := true,
       futures := map id | id in d.futures :: if d.futures[id].Queued? then Cancelled else d.futures[id])
  }

  /** The thread pool starts a task or finishes one with some verdict. */
  ghost predicate ExecutorStep(d: Dispatcher, e: Dispatcher) {
    || (exists id :: CanStart(d, id) && e == Start(d, id))
    || (exists id, v :: CanFinish(d, id) && e == Finish(d, id, v))
  }

  /** A step of the executor, of a done-callback, or of the audit loop; each id is submitted once. */
  ghost predicate Next(d: Dispatcher, e: Dispatcher) {
    || (exists id, observe :: id !in d.submitted && e == Submit(d, id, observe))
    || (exists id :: id in d.pending && e == Submit(d, id, true))
    || ExecutorStep(d, e)
    || (exists id :: CanFire(d, id) && e == Fire(d, id))
    || e == Poll(d) || e == CancelAll(d) || e == Shutdown(d)
  }

  // ------------------------------------------------------------------ filters

  lemma {:induction false} OnlyIn(s: seq<Id>, kept: set<Id>)
    ensures forall id :: id in Only(s, kept) <==> id in s && id in kept
  {
    if s != [] {
      OnlyIn(s[1..], kept);
    }
  }

  lemma {:induction false} WithoutIn(s: seq<Id>, gone: set<Id>)
    ensures forall id :: id in Without(s, gone) <==> id in s && id !in gone
  {
    if s != [] {
      WithoutIn(s[1..], gone);
    }
  }

  function Count(s: seq<Id>, id: Id): nat {
    if s == [] then 0 else (if s[0] == id then 1 else 0) + Count(s[1..], id)
  }

  function CountFirst(s: seq<(Id, Verdict)>, id: Id): nat {
    if s == [] then 0 else (if s[0].0 == id then 1 else 0) + CountFirst(s[1..], id)
  }

  lemma {:induction false} CountAppend(s: seq<Id>, t: seq<Id>, id: Id)
    ensures Count(s + t, id) == Count(s, id) + Count(t, id)
  {
    if s == [] {
      assert s + t == t;
    } else {
      assert (s + t)[1..] == s[1..] + t;
      CountAppend(s[1..], t, id);
    }
  }

  lemma {:induction false} CountFirstAppend(s: seq<(Id, Verdict)>, t: seq<(Id, Verdict)>, id: Id)
    ensures CountFirst(s + t, id) == CountFirst(s, id) + CountFirst(t, id)
  {
    if s == [] {
      assert s + t == t;
    } else {
      assert (s + t)[1..] == s[1..] + t;
      CountFirstAppend(s[1..], t, id);
    }
  }

  lemma {:induction false} CountIn(s: seq<Id>, id: Id)
    ensures Count(s, id) > 0 <==> id in s
  {
    if s != [] {
      CountIn(s[1..], id);
    }
  }

  lemma {:induction false} CountSplit(s: seq<Id>, x: set<Id>, id: Id)
    ensures Count(Only(s, x), id) + Count(Without(s, x), id) == Count(s, id)
  {
    if s != [] {
      CountSplit(s[1..], x, id);
      CountAppend(if s[0] in x then [s[0]] else [], Only(s[1..], x), id);
      CountAppend(if s[0] in x then [] else [s[0]], Without(s[1..], x), id);
    }
  }

  lemma {:induction false} CountResults(d: Dispatcher, ids: seq<Id>, id: Id)
    requires forall k :: k in ids ==> k in d.futures && d.futures[k].Settled()
    ensures CountFirst(Results(d, ids), id) == Count(ids, id)
  {
    if ids != [] {
      CountResults(d, ids[1..], id);
    }
  }

  lemma {:induction false} CountOnlyOne(s: seq<Id>, id: Id, k: Id)
    ensures Count(Only(s, {id}), k) == if k == id then Count(s, id) else 0
  {
    if s != [] {
      CountOnlyOne(s[1..], id, k);
      CountAppend(if s[0] in {id} then [s[0]] else [], Only(s[1..], {id}), k);
    }
  }

  lemma {:induction false} OnlyAppend(s: seq<Id>, t: seq<Id>, x: set<Id>)
    ensures Only(s + t, x) == Only(s, x) + Only(t, x)
  {
    if s == [] {
      assert s + t == t;
    } else {
      var h := if s[0] in x then [s[0]] else [];
      assert (s + t)[1..] == s[1..] + t;
      OnlyAppend(s[1..], t, x);
      assert h + (Only(s[1..], x) + Only(t, x)) == (h + Only(s[1..], x)) + Only(t, x);
    }
  }

  lemma {:induction false} OnlySame(s: seq<Id>, x: set<Id>, y: set<Id>)
    requires forall id :: id in s ==> (id in x <==> id in y)
    ensures Only(s, x) == Only(s, y)
  {
    if s != [] {
      OnlySame(s[1..], x, y);
    }
  }

  lemma {:induction false} WithoutOnly(s: seq<Id>, x: set<Id>, gone: set<Id>)
    ensures Without(Only(s, x), gone) == Only(s, x - gone)
    ensures Only(Only(s, x), gone) == Only(s, x * gone)
  {
    if s != [] {
      var h := if s[0] in x then [s[0]] else [];
      WithoutOnly(s[1..], x, gone);
      WithoutAppend(h, Only(s[1..], x), gone);
      OnlyAppend(h, Only(s[1..], x), gone);
    }
  }

  lemma {:induction false} WithoutAppend(s: seq<Id>, t: seq<Id>, x: set<Id>)
    ensures Without(s + t, x) == Without(s, x) + Without(t, x)
  {
    if s == [] {
      assert s + t == t;
    } else {
      var h := if s[0] in x then [] else [s[0]];
      assert (s + t)[1..] == s[1..] + t;
      WithoutAppend(s[1..], t, x);
      assert h + (Without(s[1..], x) + Without(t, x)) == (h + Without(s[1..], x)) + Without(t, x);
    }
  }

  // ------------------------------------------------------------------ the invariant

  /** In how many of the four places id is. */
  function Places(d: Dispatcher, id: Id): nat {
    Count(d.pending, id) + CountFirst(d.byCallback, id) + CountFirst(d.byPoll, id) + Count(d.cancelled, id)
  }

  /** Every submitted id is delivered by callback, delivered by poll, cancelled or pending: exactly
      one of these, exactly once. */
  ghost predicate Split(d: Dispatcher) {
    forall id :: Places(d, id) == if id in d.submitted then 1 else 0
  }

  ghost function PendingSet(d: Dispatcher): set<Id> {
    set id | id in d.pending
  }

  /** The pending map keeps submission order. */
  ghost predicate InOrder(d: Dispatcher) {
    && d.pending == Only(d.submitted, PendingSet(d))
    && (forall id :: id in d.submitted ==> id in d.futures)
  }

  /** The task of `id` is done with verdict `v`, or was cancelled and `v` is the transport error. */
  predicate Answers(d: Dispatcher, id: Id, v: Verdict) {
    id in d.futures && (d.futures[id] == Done(v) || (d.futures[id] == Cancelled && v == TransportError))
  }

  /** Every delivered verdict is what its own task answered. */
  ghost predicate OwnVerdicts(d: Dispatcher, log: seq<(Id, Verdict)>) {
    forall x :: x in log ==> Answers(d, x.0, x.1)
  }

  ghost predicate Inv(d: Dispatcher) {
    && Split(d) && InOrder(d) && OwnVerdicts(d, d.byCallback) && OwnVerdicts(d, d.byPoll)
    && (forall id :: id in d.futures <==> id in d.submitted)
  }

  // ------------------------------------------------------------------ every step keeps it

  lemma PendingSubmitted(d: Dispatcher, id: Id)
    requires Split(d) && id in d.pending
    ensures id in d.submitted && Count(d.pending, id) == 1
  {
    CountIn(d.pending, id);
    assert Places(d, id) >= 1;
  }

  lemma SubmitKeeps(d: Dispatcher, id: Id, observe: bool)
    requires Inv(d) && id !in d.submitted
    ensures Inv(Submit(d, id, observe))
  {
    var e := Submit(d, id, observe);
    if e != d {
      forall k ensures Places(e, k) == if k in e.submitted then 1 else 0 {
        CountAppend(d.pending, [id], k);
        assert Places(d, k) == if k in d.submitted then 1 else 0;
      }
      SubmitInOrder(d, id, observe);
      forall x | x in d.byCallback || x in d.byPoll ensures x.0 != id {
        assert x.0 in d.futures;
      }
    }
  }

  lemma SubmitInOrder(d: Dispatcher, id: Id, observe: bool)
    requires InOrder(d) && id !in d.submitted && id !in d.pending && !d.closed
    ensures InOrder(Submit(d, id, observe))
  {
    var e := Submit(d, id, observe);
    var x, y := PendingSet(d), PendingSet(e);
    OnlyAppend(d.submitted, [id], y);
    OnlySame(d.submitted, x, y);
  }

  /** Steps that only move futures forward. */
  lemma FutureStepKeeps(d: Dispatcher, e: Dispatcher)
    requires Inv(d) && e == d.(futures := e.futures, closed := e.closed) && e.futures.Keys == d.futures.Keys
    requires forall id :: id in d.futures && d.futures[id].Settled() ==> e.futures[id] == d.futures[id]
    ensures Inv(e)
  {
    forall id ensures Places(e, id) == Places(d, id) {
    }
  }

  lemma ExecutorKeeps(d: Dispatcher, e: Dispatcher)
    requires Inv(d) && ExecutorStep(d, e)
    ensures Inv(e)
  {
    FutureStepKeeps(d, e);
  }

  lemma FireKeeps(d: Dispatcher, id: Id)
    requires Inv(d) && CanFire(d, id)
    ensures Inv(Fire(d, id))
  {
    var e := Fire(d, id);
    forall k ensures Places(e, k) == Places(d, k) {
      if id in d.pending {
        PendingSubmitted(d, id);
        CountSplit(d.pending, {id}, k);
        CountOnlyOne(d.pending, id, k);
        CountFirstAppend(d.byCallback, [(id, d.futures[id].Result())], k);
      }
    }
    if id in d.pending {
      PopInOrder(d, e, {id});
    }
  }

  lemma PopInOrder(d: Dispatcher, e: Dispatcher, gone: set<Id>)
    requires InOrder(d) && e.pending == Without(d.pending, gone)
    requires e.submitted == d.submitted && e.futures.Keys == d.futures.Keys
    ensures InOrder(e)
  {
    WithoutOnly(d.submitted, PendingSet(d), gone);
    WithoutIn(d.pending, gone);
    assert PendingSet(e) == PendingSet(d) - gone;
  }

  lemma PollKeeps(d: Dispatcher)
    requires Inv(d)
    ensures Inv(Poll(d))
  {
    var e, ids := Poll(d), SettledIds(d);
    OnlyIn(d.pending, ids);
    forall k ensures Places(e, k) == Places(d, k) {
      CountSplit(d.pending, ids, k);
      CountResults(d, Only(d.pending, ids), k);
      CountFirstAppend(d.byPoll, Polled(d), k);
    }
    PopInOrder(d, e, ids);
    ResultsOwn(d, Only(d.pending, ids));
  }

  lemma {:induction false} ResultsOwn(d: Dispatcher, ids: seq<Id>)
    requires forall id :: id in ids ==> id in d.futures && d.futures[id].Settled()
    ensures OwnVerdicts(d, Results(d, ids))
    ensures forall x :: x in Results(d, ids) ==> x.0 in ids
  {
    if ids != [] {
      ResultsOwn(d, ids[1..]);
    }
  }

  lemma CancelKeeps(d: Dispatcher)
    requires Inv(d)
    ensures Inv(CancelAll(d))
  {
    var e, ids := CancelAll(d), CancellableIds(d);
    forall k ensures Places(e, k) == Places(d, k) {
      CountSplit(d.pending, ids, k);
      CountAppend(d.cancelled, Only(d.pending, ids), k);
    }
    PopInOrder(d, e, ids);
  }

  lemma NextKeeps(d: Dispatcher, e: Dispatcher)
    requires Inv(d) && Next(d, e)
    ensures Inv(e)
  {
    if id: Id, observe :| id !in d.submitted && e == Submit(d, id, observe) {
      SubmitKeeps(d, id, observe);
    } else if ExecutorStep(d, e) {
      ExecutorKeeps(d, e);
    } else if id: Id :| CanFire(d, id) && e == Fire(d, id) {
      FireKeeps(d, id);
    } else if e == Poll(d) {
      PollKeeps(d);
    } else if e == CancelAll(d) {
      CancelKeeps(d);
    } else if e == Shutdown(d) {
      FutureStepKeeps(d, e);
    }
  }

  ghost predicate Run(tr: seq<Dispatcher>) {
    && |tr| > 0 && tr[0] == FRESH
    && forall k :: 0 < k < |tr| ==> Next(tr[k - 1], tr[k])
  }

  /** Exactly-once delivery in every interleaving: in every reachable state the submitted ids split
      into delivered by callback, delivered by poll, cancelled and pending, with no overlap and no
      repetition, and every delivered verdict is its task's own; and what was delivered or cancelled
      at any earlier moment of the run still is. */
  lemma {:induction false} ExactlyOnce(tr: seq<Dispatcher>)
    requires Run(tr)
    ensures Inv(tr[|tr| - 1])
    ensures forall k :: 0 <= k < |tr| ==> LogsGrow(tr[k], tr[|tr| - 1])
  {
    if |tr| > 1 {
      var front := tr[..|tr| - 1];
      ExactlyOnce(front);
      NextKeeps(front[|front| - 1], tr[|tr| - 1]);
      DeliveredStays(front[|front| - 1], tr[|tr| - 1]);
      forall k | 0 <= k < |front| ensures LogsGrow(tr[k], tr[|tr| - 1]) {
        assert LogsGrow(front[k], front[|front| - 1]);
      }
    }
  }

  /** Nothing delivered or cancelled is ever taken back. */
  ghost predicate LogsGrow(d: Dispatcher, e: Dispatcher) {
    d.byCallback <= e.byCallback && d.byPoll <= e.byPoll && d.cancelled <= e.cancelled
  }

  lemma DeliveredStays(d: Dispatcher, e: Dispatcher)
    requires Next(d, e)
    ensures LogsGrow(d, e)
  {
  }

  function FirstOf(log: seq<(Id, Verdict)>): seq<Id> {
    if log == [] then [] else [log[0].0] + FirstOf(log[1..])
  }

  lemma {:induction false} FirstOfResults(d: Dispatcher, ids: seq<Id>)
    requires forall id :: id in ids ==> id in d.futures && d.futures[id].Settled()
    ensures FirstOf(Results(d, ids)) == ids
  {
    if ids != [] {
      FirstOfResults(d, ids[1..]);
    }
  }

  function Members(s: seq<Id>): set<Id> {
    set id | id in s
  }

  lemma PollTakes(d: Dispatcher)
    ensures FirstOf(Polled(d)) == Only(d.pending, SettledIds(d))
    ensures Members(FirstOf(Polled(d))) == SettledIds(d)
    ensures forall id :: id in Poll(d).pending <==> id in d.pending && id !in SettledIds(d)
  {
    var ids := SettledIds(d);
    OnlyIn(d.pending, ids);
    FirstOfResults(d, Only(d.pending, ids));
    WithoutIn(d.pending, ids);
  }

  /** Picking from the pending ids keeps submission order. */
  lemma PickedInOrder(d: Dispatcher, ids: set<Id>)
    requires InOrder(d) && ids <= PendingSet(d)
    ensures Only(d.pending, ids) == Only(d.submitted, ids)
  {
    WithoutOnly(d.submitted, PendingSet(d), ids);
    assert PendingSet(d) * ids == ids;
  }

  /** One poll returns exactly the pending tasks that are done or cancelled, in the order they were
      submitted, and keeps the others. */
  lemma PollInSubmissionOrder(d: Dispatcher)
    requires Inv(d)
    ensures var ids := FirstOf(Polled(d));
      && ids == Only(d.submitted, Members(ids))
      && (forall id :: id in ids <==>
            id in d.pending && id in d.futures && (d.futures[id].Done? || d.futures[id].Cancelled?))
      && (forall id :: id in Poll(d).pending <==> id in d.pending && id !in ids)
  {
    var ids := FirstOf(Polled(d));
    PollTakes(d);
    PickedInOrder(d, SettledIds(d));
    forall id ensures id in ids <==> id in SettledIds(d) {
      assert id in ids <==> id in Members(ids);
    }
  }

  lemma CancelTakes(d: Dispatcher)
    ensures Members(Only(d.pending, CancellableIds(d))) == CancellableIds(d)
    ensures forall id :: id in CancelAll(d).pending <==> id in d.pending && id !in CancellableIds(d)
  {
    OnlyIn(d.pending, CancellableIds(d));
    WithoutIn(d.pending, CancellableIds(d));
  }

  /** Cancelling takes exactly the pending tasks no thread has started, in submission order, and
      leaves the running and the settled ones to their callbacks and to polling. */
  lemma CancelOnlyQueued(d: Dispatcher) returns (gone: seq<Id>)
    requires Inv(d)
    ensures CancelAll(d).cancelled == d.cancelled + gone && gone == Only(d.submitted, Members(gone))
    ensures forall id :: id in gone <==> id in d.pending && id in d.futures && d.futures[id] == Queued
    ensures forall id :: id in CancelAll(d).pending <==> id in d.pending && id !in gone
    ensures forall id :: id in d.futures ==>
              && id in CancelAll(d).futures
              && CancelAll(d).futures[id] == if id in gone then Cancelled else d.futures[id]
  {
    gone := Only(d.pending, CancellableIds(d));
    CancelTakes(d);
    PickedInOrder(d, CancellableIds(d));
    forall id ensures id in gone <==> id in CancellableIds(d) {
      assert id in gone <==> id in Members(gone);
    }
  }

  ghost predicate NoneQueued(d: Dispatcher) {
    forall id :: id in d.futures ==> d.futures[id] != Queued
  }

  lemma ClosedStays(d: Dispatcher, e: Dispatcher)
    requires Next(d, e) && d.closed && NoneQueued(d)
    ensures e.closed && NoneQueued(e) && e.submitted == d.submitted
  {
  }

  lemma {:induction false} ClosedRun(tr: seq<Dispatcher>)
    requires Run(tr) && tr[|tr| - 1].closed
    ensures NoneQueued(tr[|tr| - 1])
  {
    var n := |tr| - 1;
    if n > 0 {
      if tr[n - 1].closed {
        ClosedRun(tr[..n]);
        ClosedStays(tr[n - 1], tr[n]);
      } else {
        assert Next(tr[n - 1], tr[n]);
        assert tr[n] == Shutdown(tr[n - 1]);
      }
    }
  }

  /** After a shutdown nothing is ever submitted or started again: what was queued is cancelled. */
  lemma {:induction false} ShutdownIsFinal(tr: seq<Dispatcher>, k: nat)
    requires Run(tr) && k < |tr| && tr[k].closed
    ensures var e := tr[|tr| - 1];
      e.closed && e.submitted == tr[k].submitted && forall id :: id in e.futures ==> e.futures[id] != Queued
  {
    var n := |tr| - 1;
    if k < n {
      ShutdownIsFinal(tr[..n], k);
      ClosedStays(tr[n - 1], tr[n]);
    } else {
      ClosedRun(tr);
    }
  }

  lemma CallbackTakes(d: Dispatcher, id: Id)
    requires Inv(d) && CanFire(d, id) && id in d.pending
    ensures CountFirst(Fire(d, id).byCallback, id) == 1 && CountFirst(Poll(Fire(d, id)).byPoll, id) == 0
  {
    PendingSubmitted(d, id);
    FireKeeps(d, id);
    PollKeeps(Fire(d, id));
    CountFirstAppend(d.byCallback, [(id, d.futures[id].Result())], id);
    assert Places(d, id) == 1;
    assert Places(Poll(Fire(d, id)), id) == 1;
  }

  lemma PollTakesOne(d: Dispatcher, id: Id)
    requires Inv(d) && CanFire(d, id) && id in d.pending
    ensures CountFirst(Poll(d).byPoll, id) == 1 && CanFire(Poll(d), id)
    ensures CountFirst(Fire(Poll(d), id).byCallback, id) == 0
  {
    var ids := SettledIds(d);
    PendingSubmitted(d, id);
    PollKeeps(d);
    FireKeeps(Poll(d), id);
    OnlyIn(d.pending, ids);
    CountSplit(d.pending, ids, id);
    WithoutIn(d.pending, ids);
    CountIn(Without(d.pending, ids), id);
    CountResults(d, Only(d.pending, ids), id);
    CountFirstAppend(d.byPoll, Polled(d), id);
    assert Places(d, id) == 1;
  }

  /** A settled task nobody has handled yet is handled by whoever comes first: its callback or the
      next poll, and then by neither again; and a callback runs once. */
  lemma CallbackOrPoll(d: Dispatcher, id: Id)
    requires Inv(d) && id in d.pending && id in d.observed && id !in d.fired
    requires id in d.futures && (d.futures[id].Done? || d.futures[id].Cancelled?)
    ensures CanFire(d, id)
    ensures !CanFire(Fire(d, id), id)
    ensures CountFirst(Fire(d, id).byCallback, id) == 1 && CountFirst(Poll(Fire(d, id)).byPoll, id) == 0
    ensures CountFirst(Poll(d).byPoll, id) == 1 && CanFire(Poll(d), id)
    ensures CountFirst(Fire(Poll(d), id).byCallback, id) == 0
  {
    CallbackTakes(d, id);
    PollTakesOne(d, id);
  }

  // ------------------------------------------------------------------ the dispatcher as written

  class CoderDispatcher {
    var pending: seq<Id>
    var closed: bool
    ghost var futures: map<Id, Future>
    ghost var observed: set<Id>
    ghost var fired: set<Id>
    ghost var submitted: seq<Id>
    ghost var byCallback: seq<(Id, Verdict)>
    ghost var byPoll: seq<(Id, Verdict)>
    ghost var cancelled: seq<Id>

    ghost function View(): Dispatcher
      reads this
    {
      Dispatcher(pending, futures, observed, fired, closed, submitted, byCallback, byPoll, cancelled)
    }

    constructor ()
      ensures View() == FRESH
    {
      pending, closed := [], false;
      futures, observed, fired, submitted := map[], {}, {}, [];
      byCallback, byPoll, cancelled := [], [], [];
    }

    /** Answers whether the call raised. */
    method SubmitTask(id: Id, observe: bool) returns (raised: bool)
      modifies this
      ensures View() == Submit(old(View()), id, observe)
      ensures raised == old(closed)
    {
      if closed {
        return true;
      }
      if id in pending {
        return false;
      }
      pending := pending + [id];
      futures, submitted := futures[id := Queued], submitted + [id];
      observed := if observe then observed + {id} else observed;
      return false;
    }

    /** The done-callback of task `id`, whose future holds `result`. Answers what it hands to
        `on_settled`, if anything. */
    method FireSettled(id: Id, result: Verdict) returns (handed: seq<(Id, Verdict)>)
      requires CanFire(View(), id) && result == futures[id].Result()
      modifies this
      ensures View() == Fire(old(View()), id)
      ensures byCallback == old(byCallback) + handed
    {
      fired := fired + {id};
      if id !in pending {
        return [];
      }
      pending := Without(pending, {id});
      byCallback := byCallback + [(id, result)];
      return [(id, result)];
    }

    /** `done(id)` and `result(id)` are what the future of `id` answers. */
    method PollCompleted(done: Id -> bool, result: Id -> Verdict) returns (results: seq<(Id, Verdict)>)
      requires forall id :: id in pending ==> id in futures && done(id) == futures[id].Settled()
      requires forall id :: id in pending && done(id) ==> result(id) == futures[id].Result()
      modifies this
      ensures View() == Poll(old(View()))
      ensures results == Polled(old(View()))
    {
      ghost var d := View();
      var ids, rest := Pick(pending, done, SettledIds(d));
      OnlyIn(pending, SettledIds(d));
      results := Collect(d, ids, result);
      pending := rest;
      byPoll := byPoll + results;
    }

    /** `queued(id)` is whether the future of `id` can still be cancelled. */
    method CancelPending(queued: Id -> bool) returns (ids: seq<Id>)
      requires forall id :: id in pending ==> id in futures && queued(id) == futures[id].Queued?
      modifies this
      ensures View() == CancelAll(old(View()))
      ensures ids == Only(old(pending), CancellableIds(old(View())))
    {
      ghost var gone := CancellableIds(View());
      var rest;
      ids, rest := Pick(pending, queued, gone);
      pending := rest;
      cancelled := cancelled + ids;
      futures := map id | id in futures :: if id in gone then Cancelled else futures[id];
    }
  }

  /** The loop over `_pending.items()` shared by polling and cancelling. */
  method Pick(pending: seq<Id>, test: Id -> bool, ghost ids: set<Id>) returns (picked: seq<Id>, rest: seq<Id>)
    requires forall id :: id in pending ==> (test(id) <==> id in ids)
    ensures picked == Only(pending, ids) && rest == Without(pending, ids)
  {
    picked, rest := [], [];
    for k := 0 to |pending|
      invariant picked == Only(pending[..k], ids) && rest == Without(pending[..k], ids)
    {
      var id := pending[k];
      assert pending[..k + 1] == pending[..k] + [id];
      OnlyAppend(pending[..k], [id], ids);
      WithoutAppend(pending[..k], [id], ids);
      if test(id) {
        picked := picked + [id];
      } else {
        rest := rest + [id];
      }
    }
    assert pending[..|pending|] == pending;
  }

  method Collect(ghost d: Dispatcher, ids: seq<Id>, result: Id -> Verdict) returns (results: seq<(Id, Verdict)>)
    requires forall id :: id in ids ==>
               id in d.futures && d.futures[id].Settled() && result(id) == d.futures[id].Result()
    ensures results == Results(d, ids)
  {
    results := [];
    for k := 0 to |ids|
      invariant results == Results(d, ids[..k])
    {
      assert ids[..k + 1] == ids[..k] + [ids[k]];
      ResultsAppend(d, ids[..k], ids[k]);
      results := results + [(ids[k], result(ids[k]))];
    }
    assert ids[..|ids|] == ids;
  }

  lemma {:induction false} ResultsAppend(d: Dispatcher, ids: seq<Id>, id: Id)
    requires forall k :: k in ids || k == id ==> k in d.futures && d.futures[k].Settled()
    ensures Results(d, ids + [id]) == Results(d, ids) + [(id, d.futures[id].Result())]
  {
    if ids == [] {
      assert ids + [id] == [id];
    } else {
      assert (ids + [id])[1..] == ids[1..] + [id];
      ResultsAppend(d, ids[1..], id);
    }
  }
}
