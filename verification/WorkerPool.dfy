/** `LocalSubprocessPool`: workers that claim a path, run it and report it over one result queue,
    and a monitor thread that turns messages and deaths into resolved futures. Every interleaving
    of submissions, worker steps, deaths and monitor steps is a run of `Next`. */
module WorkerPool {
  import opened PathModel

  datatype Request = Path(index: nat, unit: AuditUnit) | Stop

  datatype Message = Claim(index: nat, worker: nat) | Result(result: PathResult, worker: nat)

  /** A worker process. The fate of a dead one is history the processes themselves do not keep:
      it lost a path it had not claimed, left a claimed one orphaned, or its orphan was routed. */
  datatype Worker =
    | Idle
    | Grabbed(index: nat, unit: AuditUnit)
    | Running(index: nat, unit: AuditUnit)
    | Clean
    | Lost(index: nat)
    | Orphan(index: nat)
    | Routed(index: nat)
  {
    predicate Alive() {
      Idle? || Grabbed? || Running?
    }

    /** The path this worker has claimed and not reported. */
    predicate Claims() {
      Running? || Orphan?
    }

    /** 1 if this worker holds path `i`, claimed or not. */
    ghost function Holds(i: nat): nat {
      if (Grabbed? || Running? || Lost? || Orphan?) && index == i then 1 else 0
    }
  }

  datatype Pool = Pool(
    requestQ: seq<Request>,
    resultQ: seq<Message>,
    workers: seq<Worker>,
    futures: set<nat>,
    claims: map<nat, nat>,
    deadSeen: set<nat>,
    monitoring: bool,
    submitted: map<nat, AuditUnit>,
    resolved: map<nat, PathResult>)

  ghost predicate Init(p: Pool) {
    && p.requestQ == [] && p.resultQ == [] && (forall w :: 0 <= w < |p.workers| ==> p.workers[w] == Idle)
    && p.futures == {} && p.claims == map[] && p.deadSeen == {} && p.monitoring
    && p.submitted == map[] && p.resolved == map[]
  }

  // ------------------------------------------------------------------ steps

  function Submit(p: Pool, i: nat, u: AuditUnit): Pool {
    p.(futures := p.futures + {i}, requestQ := p.requestQ + [Path(i, u)], submitted := p.submitted[i := u])
  }

  /** `shutdown` puts one sentinel per worker. */
  function SendStops(p: Pool): Pool {
    p.(requestQ := p.requestQ + seq(|p.workers|, _ => Stop))
  }

  predicate CanDequeue(p: Pool, w: nat) {
    w < |p.workers| && p.workers[w].Idle? && p.requestQ != []
  }

  function Dequeue(p: Pool, w: nat): Pool
    requires CanDequeue(p, w)
  {
    var next := match p.requestQ[0] case Path(i, u) => Grabbed(i, u) case Stop => Clean;
    p.(requestQ := p.requestQ[1..], workers := p.workers[w := next])
  }

  predicate CanClaim(p: Pool, w: nat) {
    w < |p.workers| && p.workers[w].Grabbed?
  }

  function PutClaim(p: Pool, w: nat): Pool
    requires CanClaim(p, w)
  {
    var Grabbed(i, u) := p.workers[w];
    p.(workers := p.workers[w := Running(i, u)], resultQ := p.resultQ + [Claim(i, w)])
  }

  predicate CanReport(p: Pool, w: nat) {
    w < |p.workers| && p.workers[w].Running?
  }

  function PutResult(p: Pool, w: nat, agents: Agents): Pool
    requires CanReport(p, w)
  {
    var Running(i, u) := p.workers[w];
    p.(workers := p.workers[w := Idle], resultQ := p.resultQ + [Result(RunPath(agents, i, u), w)])
  }

  predicate CanDie(p: Pool, w: nat) {
    w < |p.workers| && p.workers[w].Alive()
  }

  /** A worker dies at any point of its loop. */
  function Die(p: Pool, w: nat): Pool
    requires CanDie(p, w)
  {
    var fate := match p.workers[w]
      case Grabbed(i, _) => Lost(i)
      case Running(i, _) => Orphan(i)
      case _ => Clean;
    p.(workers := p.workers[w := fate])
  }

  predicate CanReceive(p: Pool) {
    p.monitoring && p.resultQ != []
  }

  /** The monitor takes one message: a claim is recorded; a result pops the future and the claim. */
  function Receive(p: Pool): Pool
    requires CanReceive(p)
  {
    var q := p.(resultQ := p.resultQ[1..]);
    match p.resultQ[0]
    case Claim(i, w) => q.(claims := p.claims[w := i])
    case Result(r, w) =>
      var q' := q.(claims := p.claims - {w});
      if r.index in p.futures then q'.(futures := p.futures - {r.index}, resolved := p.resolved[r.index := r])
      else q'
  }

  /** One iteration of `_check_dead_workers`. */
  function ScanOne(p: Pool, w: nat): Pool
    requires w < |p.workers|
  {
    if p.workers[w].Alive() || w in p.deadSeen then p
    else
      var q := p.(deadSeen := p.deadSeen + {w}, claims := p.claims - {w});
      if w in p.claims && p.claims[w] in p.futures then
        var i := p.claims[w];
        q.(futures := p.futures - {i}, resolved := p.resolved[i := Crashed(i)],
           workers := if p.workers[w] == Orphan(i) then p.workers[w := Routed(i)] else p.workers)
      else q
  }

  function ScanFrom(p: Pool, w: nat): (q: Pool)
    requires w <= |p.workers|
    ensures |q.workers| == |p.workers|
    decreases |p.workers| - w
  {
    if w == |p.workers| then p else ScanFrom(ScanOne(p, w), w + 1)
  }

  predicate AllDead(p: Pool) {
    forall w :: 0 <= w < |p.workers| ==> !p.workers[w].Alive()
  }

  function CrashAll(s: set<nat>): map<nat, PathResult> {
    map i | i in s :: Crashed(i)
  }

  /** `_fail_outstanding`, after which the monitor thread leaves its loop. */
  function FailOutstanding(p: Pool): Pool {
    p.(resolved := p.resolved + CrashAll(p.futures), futures := {}, claims := map[], monitoring := false)
  }

  /** What the monitor does after an empty-queue timeout, whatever has been queued since then: the
      liveness scan, then the fallback. */
  function LateTick(p: Pool): Pool {
    var q := ScanFrom(p, 0);
    if AllDead(q) && q.futures != {} then FailOutstanding(q) else q
  }

  predicate CanTick(p: Pool) {
    p.monitoring && p.resultQ == []
  }

  /** A monitor tick as one step: the queue is still empty when the scan comes. */
  function Tick(p: Pool): Pool
    requires CanTick(p)
  {
    LateTick(p)
  }

  /** One step of healthy workers or of the monitor taking a message. */
  ghost predicate LiveStep(p: Pool, q: Pool, agents: Agents) {
    || (exists w :: CanDequeue(p, w) && q == Dequeue(p, w))
    || (exists w :: CanClaim(p, w) && q == PutClaim(p, w))
    || (exists w :: CanReport(p, w) && q == PutResult(p, w, agents))
    || (CanReceive(p) && q == Receive(p))
  }

  /** One step of the workers or the monitor, deaths and shutdown included. */
  ghost predicate EnvStep(p: Pool, q: Pool, agents: Agents) {
    || LiveStep(p, q, agents)
    || (CanTick(p) && q == Tick(p))
    || (exists w :: CanDie(p, w) && q == Die(p, w))
    || q == SendStops(p)
  }

  /** One step of anyone; each index is submitted once. */
  ghost predicate Next(p: Pool, q: Pool, agents: Agents) {
    EnvStep(p, q, agents) || (exists i, u :: i !in p.submitted && q == Submit(p, i, u))
  }

  // ------------------------------------------------------------------ the invariant

  /** How often path `i` waits in the request queue. */
  ghost function Waiting(q: seq<Request>, i: nat): nat {
    if q == [] then 0 else (if q[0].Path? && q[0].index == i then 1 else 0) + Waiting(q[1..], i)
  }

  /** How many workers hold path `i`. */
  ghost function Held(ws: seq<Worker>, i: nat): nat {
    if ws == [] then 0 else ws[0].Holds(i) + Held(ws[1..], i)
  }

  /** How many queued results are path `i`'s. */
  ghost function Reported(q: seq<Message>, i: nat): nat {
    if q == [] then 0 else (if q[0].Result? && q[0].result.index == i then 1 else 0) + Reported(q[1..], i)
  }

  /** In how many places path `i` is. */
  ghost function Places(p: Pool, i: nat): nat {
    Waiting(p.requestQ, i) + Held(p.workers, i) + Reported(p.resultQ, i) + (if i in p.resolved then 1 else 0)
  }

  /** The monitor's claim table once it has caught up with the queue. */
  ghost function Replay(claims: map<nat, nat>, q: seq<Message>): map<nat, nat>
    decreases |q|
  {
    if q == [] then claims
    else match q[0]
      case Claim(i, w) => Replay(claims[w := i], q[1..])
      case Result(_, w) => Replay(claims - {w}, q[1..])
  }

  /** Who really holds which claimed, unreported path. */
  ghost function Table(ws: seq<Worker>): map<nat, nat> {
    map w | 0 <= w < |ws| && ws[w].Claims() :: ws[w].index
  }

  /** While the monitor runs, each submitted index is in exactly one place. */
  ghost predicate Conserved(p: Pool) {
    p.monitoring ==> forall i :: Places(p, i) == if i in p.submitted then 1 else 0
  }

  /** The unresolved indices are exactly the keys of `_futures`. */
  ghost predicate FuturesExact(p: Pool) {
    p.resolved.Keys <= p.submitted.Keys && p.futures == p.submitted.Keys - p.resolved.Keys
  }

  /** `_claims` lags behind the truth by exactly the queued messages. */
  ghost predicate ClaimsLag(p: Pool) {
    p.monitoring ==> Replay(p.claims, p.resultQ) == Table(p.workers)
  }

  ghost predicate SeenAreSettled(p: Pool) {
    forall w :: w in p.deadSeen ==> w < |p.workers| && !p.workers[w].Alive() && !p.workers[w].Orphan?
  }

  /** Every path in transit carries its own unit, and every result is its path's own. */
  ghost predicate Genuine(p: Pool, agents: Agents) {
    && (forall r :: r in p.requestQ && r.Path? ==> r.index in p.submitted && p.submitted[r.index] == r.unit)
    && (forall w :: 0 <= w < |p.workers| && (p.workers[w].Grabbed? || p.workers[w].Running?) ==>
          p.workers[w].index in p.submitted && p.submitted[p.workers[w].index] == p.workers[w].unit)
    && (forall m :: m in p.resultQ && m.Result? ==>
          m.result.index in p.submitted && m.result == RunPath(agents, m.result.index, p.submitted[m.result.index]))
    && (forall i :: i in p.resolved ==> i in p.submitted)
    && (forall i :: i in p.resolved ==>
          p.resolved[i] == RunPath(agents, i, p.submitted[i]) || CrashJustified(p, i))
  }

  /** A future resolved as crashed: its worker died holding it, or every worker died. */
  ghost predicate CrashJustified(p: Pool, i: nat) {
    && i in p.resolved && p.resolved[i] == Crashed(i)
    && ((exists w :: 0 <= w < |p.workers| && p.workers[w] == Routed(i)) || (!p.monitoring && AllDead(p)))
  }

  ghost predicate KnownWorkers(p: Pool) {
    && (forall w :: w in p.claims ==> w < |p.workers|)
    && (forall m :: m in p.resultQ ==> m.worker < |p.workers|)
  }

  ghost predicate Inv(p: Pool, agents: Agents) {
    && KnownWorkers(p)
    && Conserved(p) && FuturesExact(p) && ClaimsLag(p) && SeenAreSettled(p) && Genuine(p, agents)
    && (!p.monitoring ==> AllDead(p))
  }

  // ------------------------------------------------------------------ small facts

  lemma {:induction false} WaitingAppend(q: seq<Request>, r: seq<Request>, i: nat)
    ensures Waiting(q + r, i) == Waiting(q, i) + Waiting(r, i)
  {
    if q == [] {
      assert q + r == r;
    } else {
      assert (q + r)[1..] == q[1..] + r;
      WaitingAppend(q[1..], r, i);
    }
  }

  lemma {:induction false} StopsWaitForNone(q: seq<Request>, i: nat)
    requires forall k :: 0 <= k < |q| ==> q[k] == Stop
    ensures Waiting(q, i) == 0
  {
    if q != [] {
      StopsWaitForNone(q[1..], i);
    }
  }

  lemma {:induction false} ReportedAppend(q: seq<Message>, m: Message, i: nat)
    ensures Reported(q + [m], i) == Reported(q, i) + (if m.Result? && m.result.index == i then 1 else 0)
  {
    if q == [] {
      assert q + [m] == [m];
    } else {
      assert (q + [m])[1..] == q[1..] + [m];
      ReportedAppend(q[1..], m, i);
    }
  }

  lemma {:induction false} HeldUpdate(ws: seq<Worker>, w: nat, x: Worker, i: nat)
    requires w < |ws|
    ensures Held(ws[w := x], i) == Held(ws, i) - ws[w].Holds(i) + x.Holds(i)
  {
    var vs := ws[w := x];
    if w == 0 {
      assert vs[1..] == ws[1..];
    } else {
      assert vs[1..] == ws[1..][w - 1 := x];
      HeldUpdate(ws[1..], w - 1, x, i);
    }
  }

  lemma {:induction false} HeldHas(ws: seq<Worker>, w: nat, i: nat)
    requires w < |ws|
    ensures ws[w].Holds(i) <= Held(ws, i)
  {
    if w > 0 {
      HeldHas(ws[1..], w - 1, i);
    }
  }

  lemma {:induction false} ReplayAppend(claims: map<nat, nat>, q: seq<Message>, m: Message)
    ensures Replay(claims, q + [m]) ==
      match m case Claim(i, w) => Replay(claims, q)[w := i] case Result(_, w) => Replay(claims, q) - {w}
    decreases |q|
  {
    if q == [] {
      assert q + [m] == [m];
    } else {
      assert (q + [m])[1..] == q[1..] + [m];
      match q[0]
      case Claim(i, w) => ReplayAppend(claims[w := i], q[1..], m);
      case Result(_, w) => ReplayAppend(claims - {w}, q[1..], m);
    }
  }

  // ------------------------------------------------------------------ every step keeps it

  lemma InitInv(p: Pool, agents: Agents)
    requires Init(p)
    ensures Inv(p, agents)
  {
    forall i ensures Held(p.workers, i) == 0 {
      IdleHands(p.workers, i);
    }
  }

  lemma {:induction false} IdleHands(ws: seq<Worker>, i: nat)
    requires forall w :: 0 <= w < |ws| ==> ws[w] == Idle
    ensures Held(ws, i) == 0
  {
    if ws != [] {
      IdleHands(ws[1..], i);
    }
  }

  lemma SubmitKeeps(p: Pool, i: nat, u: AuditUnit, agents: Agents)
    requires Inv(p, agents) && i !in p.submitted
    ensures Inv(Submit(p, i, u), agents)
  {
    SubmitConserves(p, i, u);
    SubmitGenuine(p, i, u, agents);
  }

  lemma SubmitConserves(p: Pool, i: nat, u: AuditUnit)
    requires Conserved(p) && i !in p.submitted
    ensures Conserved(Submit(p, i, u))
  {
    var q := Submit(p, i, u);
    if p.monitoring {
      forall k ensures Places(q, k) == if k in q.submitted then 1 else 0 {
        WaitingAppend(p.requestQ, [Path(i, u)], k);
        assert Places(p, k) == if k in p.submitted then 1 else 0;
      }
    }
  }

  lemma SubmitGenuine(p: Pool, i: nat, u: AuditUnit, agents: Agents)
    requires Genuine(p, agents) && i !in p.submitted
    ensures Genuine(Submit(p, i, u), agents)
  {
    SameCrashes(p, Submit(p, i, u));
  }

  /** Justifications of crashes survive any change that keeps the routed workers. */
  lemma SameCrashes(p: Pool, q: Pool)
    requires |p.workers| == |q.workers|
    requires forall w :: 0 <= w < |p.workers| && p.workers[w].Routed? ==> q.workers[w] == p.workers[w]
    requires p.monitoring && !q.monitoring ==> AllDead(q)
    requires !p.monitoring ==> !q.monitoring && q.workers == p.workers
    ensures forall i :: CrashJustified(p, i) && i in q.resolved && q.resolved[i] == p.resolved[i]
              ==> CrashJustified(q, i)
  {
    forall i | CrashJustified(p, i) && i in q.resolved && q.resolved[i] == p.resolved[i]
      ensures CrashJustified(q, i)
    {
      if w :| 0 <= w < |p.workers| && p.workers[w] == Routed(i) {
        assert q.workers[w] == Routed(i);
      }
    }
  }

  lemma StopsKeep(p: Pool, agents: Agents)
    requires Inv(p, agents)
    ensures Inv(SendStops(p), agents)
  {
    StopsConserve(p);
    StopsGenuine(p, agents);
  }

  lemma StopsConserve(p: Pool)
    requires Conserved(p)
    ensures Conserved(SendStops(p))
  {
    var stops := seq(|p.workers|, _ => Stop);
    forall k ensures Places(SendStops(p), k) == Places(p, k) {
      WaitingAppend(p.requestQ, stops, k);
      StopsWaitForNone(stops, k);
    }
  }

  lemma StopsGenuine(p: Pool, agents: Agents)
    requires Genuine(p, agents)
    ensures Genuine(SendStops(p), agents)
  {
    SameCrashes(p, SendStops(p));
  }

  lemma DequeueKeeps(p: Pool, w: nat, agents: Agents)
    requires Inv(p, agents) && CanDequeue(p, w)
    ensures Inv(Dequeue(p, w), agents)
  {
    DequeueConserves(p, w);
    assert Table(Dequeue(p, w).workers) == Table(p.workers);
    DequeueGenuine(p, w, agents);
  }

  lemma DequeueConserves(p: Pool, w: nat)
    requires Conserved(p) && CanDequeue(p, w)
    ensures Conserved(Dequeue(p, w))
  {
    var q := Dequeue(p, w);
    forall k ensures Places(q, k) == Places(p, k) {
      HeldUpdate(p.workers, w, q.workers[w], k);
    }
  }

  lemma DequeueGenuine(p: Pool, w: nat, agents: Agents)
    requires Genuine(p, agents) && CanDequeue(p, w) && (!p.monitoring ==> AllDead(p))
    ensures Genuine(Dequeue(p, w), agents)
  {
    assert p.requestQ[0] in p.requestQ;
    SameCrashes(p, Dequeue(p, w));
  }

  lemma ClaimKeeps(p: Pool, w: nat, agents: Agents)
    requires Inv(p, agents) && CanClaim(p, w)
    ensures Inv(PutClaim(p, w), agents)
  {
    ClaimConserves(p, w);
    ClaimTable(p, w);
    ClaimGenuine(p, w, agents);
  }

  lemma ClaimConserves(p: Pool, w: nat)
    requires Conserved(p) && CanClaim(p, w)
    ensures Conserved(PutClaim(p, w))
  {
    var q := PutClaim(p, w);
    forall k ensures Places(q, k) == Places(p, k) {
      HeldUpdate(p.workers, w, q.workers[w], k);
      ReportedAppend(p.resultQ, Claim(p.workers[w].index, w), k);
    }
  }

  lemma ClaimTable(p: Pool, w: nat)
    requires ClaimsLag(p) && CanClaim(p, w)
    ensures ClaimsLag(PutClaim(p, w))
  {
    var i := p.workers[w].index;
    ReplayAppend(p.claims, p.resultQ, Claim(i, w));
    assert Table(PutClaim(p, w).workers) == Table(p.workers)[w := i];
  }

  lemma ClaimGenuine(p: Pool, w: nat, agents: Agents)
    requires Genuine(p, agents) && CanClaim(p, w) && (!p.monitoring ==> AllDead(p))
    ensures Genuine(PutClaim(p, w), agents)
  {
    SameCrashes(p, PutClaim(p, w));
  }

  lemma ReportKeeps(p: Pool, w: nat, agents: Agents)
    requires Inv(p, agents) && CanReport(p, w)
    ensures Inv(PutResult(p, w, agents), agents)
  {
    ReportConserves(p, w, agents);
    ReportTable(p, w, agents);
    ReportGenuine(p, w, agents);
  }

  lemma ReportConserves(p: Pool, w: nat, agents: Agents)
    requires Conserved(p) && CanReport(p, w)
    ensures Conserved(PutResult(p, w, agents))
  {
    var q := PutResult(p, w, agents);
    forall k ensures Places(q, k) == Places(p, k) {
      HeldUpdate(p.workers, w, Idle, k);
      ReportedAppend(p.resultQ, Result(RunPath(agents, p.workers[w].index, p.workers[w].unit), w), k);
    }
  }

  lemma ReportTable(p: Pool, w: nat, agents: Agents)
    requires ClaimsLag(p) && CanReport(p, w)
    ensures ClaimsLag(PutResult(p, w, agents))
  {
    ReplayAppend(p.claims, p.resultQ, Result(RunPath(agents, p.workers[w].index, p.workers[w].unit), w));
    assert Table(PutResult(p, w, agents).workers) == Table(p.workers) - {w};
  }

  lemma ReportGenuine(p: Pool, w: nat, agents: Agents)
    requires Genuine(p, agents) && CanReport(p, w) && (!p.monitoring ==> AllDead(p))
    ensures Genuine(PutResult(p, w, agents), agents)
  {
    SameCrashes(p, PutResult(p, w, agents));
  }

  lemma DieKeeps(p: Pool, w: nat, agents: Agents)
    requires Inv(p, agents) && CanDie(p, w)
    ensures Inv(Die(p, w), agents)
  {
    DieConserves(p, w);
    assert Table(Die(p, w).workers) == Table(p.workers);
    DieGenuine(p, w, agents);
  }

  lemma DieConserves(p: Pool, w: nat)
    requires Conserved(p) && CanDie(p, w)
    ensures Conserved(Die(p, w))
  {
    var q := Die(p, w);
    forall k ensures Places(q, k) == Places(p, k) {
      HeldUpdate(p.workers, w, q.workers[w], k);
    }
  }

  lemma DieGenuine(p: Pool, w: nat, agents: Agents)
    requires Genuine(p, agents) && CanDie(p, w) && (!p.monitoring ==> AllDead(p))
    ensures Genuine(Die(p, w), agents)
  {
    SameCrashes(p, Die(p, w));
  }

  lemma ReceiveKeeps(p: Pool, agents: Agents)
    requires Inv(p, agents) && CanReceive(p)
    ensures Inv(Receive(p), agents)
  {
    if p.resultQ[0].Result? {
      ReportedIsUnresolved(p);
    }
    ReceiveConserves(p);
    ReceiveGenuine(p, agents);
  }

  lemma ReceiveConserves(p: Pool)
    requires Conserved(p) && CanReceive(p) && FuturesExact(p)
    requires p.resultQ[0].Result? ==> p.resultQ[0].result.index in p.futures
    ensures Conserved(Receive(p))
  {
    forall k ensures Places(Receive(p), k) == Places(p, k) {
    }
  }

  lemma ReceiveGenuine(p: Pool, agents: Agents)
    requires Genuine(p, agents) && CanReceive(p)
    ensures Genuine(Receive(p), agents)
  {
    assert p.resultQ[0] in p.resultQ;
    SameCrashes(p, Receive(p));
  }

  lemma ReportedIsUnresolved(p: Pool)
    requires Conserved(p) && FuturesExact(p) && CanReceive(p) && p.resultQ[0].Result?
    ensures p.resultQ[0].result.index in p.futures
  {
    var i := p.resultQ[0].result.index;
    assert Places(p, i) <= 1 && Reported(p.resultQ, i) >= 1;
  }

  /** What the liveness scan relies on. */
  ghost predicate Scannable(p: Pool) {
    Conserved(p) && FuturesExact(p) && ClaimsLag(p) && SeenAreSettled(p) && CanTick(p)
  }

  /** The scan meets an empty queue, so the claim table is the truth: worker `w` loses its future
      to a crash exactly when it died holding a claimed path. */
  lemma ScanOneIs(p: Pool, w: nat)
    requires Scannable(p) && w < |p.workers|
    ensures ScanOne(p, w) == match p.workers[w]
      case Orphan(i) =>
        p.(deadSeen := p.deadSeen + {w}, claims := p.claims - {w}, futures := p.futures - {i},
           resolved := p.resolved[i := Crashed(i)], workers := p.workers[w := Routed(i)])
      case other => if other.Alive() then p else p.(deadSeen := p.deadSeen + {w})
    ensures p.workers[w].Orphan? ==> p.workers[w].index in p.futures && w in p.claims && w !in p.deadSeen
  {
    assert p.claims == Table(p.workers);
    if p.workers[w].Orphan? {
      OrphanIsUnresolved(p, w);
    } else if !p.workers[w].Alive() {
      assert w !in p.claims && p.claims - {w} == p.claims;
      assert w in p.deadSeen ==> p.deadSeen + {w} == p.deadSeen;
    }
  }

  lemma OrphanIsUnresolved(p: Pool, w: nat)
    requires Conserved(p) && FuturesExact(p) && p.monitoring && w < |p.workers| && p.workers[w].Orphan?
    ensures p.workers[w].index in p.futures
  {
    var i := p.workers[w].index;
    HeldHas(p.workers, w, i);
    assert 1 <= Places(p, i) <= 1;
  }

  lemma ScanOneScannable(p: Pool, w: nat)
    requires Scannable(p) && w < |p.workers|
    ensures Scannable(ScanOne(p, w))
  {
    ScanOneIs(p, w);
    if p.workers[w].Orphan? {
      ScanConserves(p, w, ScanOne(p, w));
      ScanTable(p, w, ScanOne(p, w));
    }
  }

  lemma ScanOneKeeps(p: Pool, w: nat, agents: Agents)
    requires Inv(p, agents) && CanTick(p) && w < |p.workers|
    ensures Inv(ScanOne(p, w), agents) && CanTick(ScanOne(p, w))
  {
    ScanOneIs(p, w);
    ScanOneScannable(p, w);
    if p.workers[w].Orphan? {
      ScanGenuine(p, w, ScanOne(p, w), agents);
    } else {
      ScanKeepsGenuine(p, ScanOne(p, w), agents);
    }
  }

  lemma ScanTable(p: Pool, w: nat, q: Pool)
    requires w < |p.workers| && p.workers[w].Orphan? && p.claims == Table(p.workers)
    requires q.workers == p.workers[w := Routed(p.workers[w].index)] && q.claims == p.claims - {w} && q.resultQ == []
    ensures ClaimsLag(q)
  {
    assert Table(q.workers) == Table(p.workers) - {w};
  }

  lemma ScanConserves(p: Pool, w: nat, q: Pool)
    requires Conserved(p) && w < |p.workers| && p.workers[w].Orphan? && p.workers[w].index !in p.resolved
    requires q.resolved == p.resolved[p.workers[w].index := Crashed(p.workers[w].index)]
    requires q.workers == p.workers[w := Routed(p.workers[w].index)] && q.monitoring == p.monitoring
    requires q.requestQ == p.requestQ && q.resultQ == p.resultQ && q.submitted == p.submitted
    ensures Conserved(q)
  {
    forall k ensures Places(q, k) == Places(p, k) {
      HeldUpdate(p.workers, w, Routed(p.workers[w].index), k);
    }
  }

  lemma ScanGenuine(p: Pool, w: nat, q: Pool, agents: Agents)
    requires Genuine(p, agents) && p.monitoring && w < |p.workers| && p.workers[w].Orphan?
    requires p.workers[w].index in p.submitted
    requires q.resolved == p.resolved[p.workers[w].index := Crashed(p.workers[w].index)]
    requires q.workers == p.workers[w := Routed(p.workers[w].index)] && q.monitoring
    requires q.requestQ == p.requestQ && q.resultQ == p.resultQ && q.submitted == p.submitted
    ensures Genuine(q, agents)
  {
    assert q.workers[w] == Routed(p.workers[w].index);
    assert CrashJustified(q, p.workers[w].index);
    SameCrashes(p, q);
  }

  lemma ScanKeepsGenuine(p: Pool, q: Pool, agents: Agents)
    requires Genuine(p, agents) && q == p.(deadSeen := q.deadSeen)
    ensures Genuine(q, agents)
  {
    SameCrashes(p, q);
  }

  lemma {:induction false} ScanKeeps(p: Pool, w: nat, agents: Agents)
    requires Inv(p, agents) && CanTick(p) && w <= |p.workers|
    ensures Inv(ScanFrom(p, w), agents) && CanTick(ScanFrom(p, w))
    decreases |p.workers| - w
  {
    if w < |p.workers| {
      ScanOneKeeps(p, w, agents);
      ScanKeeps(ScanOne(p, w), w + 1, agents);
    }
  }

  /** A scan changes nobody's liveness. */
  lemma {:induction false} ScanLiveness(p: Pool, w: nat)
    requires w <= |p.workers|
    ensures forall x :: 0 <= x < |p.workers| ==> ScanFrom(p, w).workers[x].Alive() == p.workers[x].Alive()
    decreases |p.workers| - w
  {
    if w < |p.workers| {
      ScanLiveness(ScanOne(p, w), w + 1);
    }
  }

  function AfterScan(x: Worker, scanned: bool): Worker {
    if scanned && x.Orphan? then Routed(x.index) else x
  }

  /** A scan remembers every dead worker and changes no live one. */
  lemma {:induction false} ScanWorkers(p: Pool, w: nat)
    requires Scannable(p) && w <= |p.workers|
    ensures var q := ScanFrom(p, w);
      && (forall x :: 0 <= x < |p.workers| ==> q.workers[x] == AfterScan(p.workers[x], w <= x))
      && (forall x :: w <= x < |p.workers| && !p.workers[x].Alive() ==> x in q.deadSeen)
      && p.deadSeen <= q.deadSeen && q.submitted == p.submitted
    decreases |p.workers| - w
  {
    if w < |p.workers| {
      var p1 := ScanOne(p, w);
      ScanOneScannable(p, w);
      ScanWorkers(p1, w + 1);
      ScanOneWorkers(p, w);
    }
  }

  lemma ScanOneWorkers(p: Pool, w: nat)
    requires Scannable(p) && w < |p.workers|
    ensures var q := ScanOne(p, w);
      && q.workers == p.workers[w := AfterScan(p.workers[w], true)] && q.submitted == p.submitted
      && p.deadSeen <= q.deadSeen && (!p.workers[w].Alive() ==> w in q.deadSeen)
  {
    ScanOneIs(p, w);
  }

  /** Path `i` is orphaned on worker `w` or a later one. */
  ghost predicate OrphanedFrom(p: Pool, w: nat, i: nat) {
    exists x :: w <= x < |p.workers| && p.workers[x] == Orphan(i)
  }

  lemma OrphanedStep(p: Pool, w: nat, i: nat)
    requires Scannable(p) && w < |p.workers|
    ensures OrphanedFrom(p, w, i) <==> p.workers[w] == Orphan(i) || OrphanedFrom(ScanOne(p, w), w + 1, i)
  {
    ScanOneIs(p, w);
    var p1 := ScanOne(p, w);
    assert forall x :: w < x < |p.workers| ==> p1.workers[x] == p.workers[x];
    if x :| w <= x < |p.workers| && p.workers[x] == Orphan(i) && x != w {
      assert p1.workers[x] == Orphan(i);
    }
    if x :| w + 1 <= x < |p1.workers| && p1.workers[x] == Orphan(i) {
      assert p.workers[x] == Orphan(i);
    }
  }

  /** A scan resolves as crashed exactly the unresolved futures whose worker died after claiming
      them, and leaves every other future as it was. */
  lemma {:induction false} ScanExact(p: Pool, w: nat, i: nat)
    requires Scannable(p) && w <= |p.workers|
    ensures var q := ScanFrom(p, w);
      && (OrphanedFrom(p, w, i) ==> i in p.futures && i in q.resolved && q.resolved[i] == Crashed(i))
      && (!OrphanedFrom(p, w, i) ==> (i in q.resolved <==> i in p.resolved))
      && (i in p.resolved ==> i in q.resolved && q.resolved[i] == p.resolved[i])
    decreases |p.workers| - w
  {
    if w < |p.workers| {
      ScanOneScannable(p, w);
      ScanExact(ScanOne(p, w), w + 1, i);
      OrphanedStep(p, w, i);
      ScanOneResolves(p, w, i);
    }
  }

  lemma ScanOneResolves(p: Pool, w: nat, i: nat)
    requires Scannable(p) && w < |p.workers|
    ensures var q := ScanOne(p, w);
      && (p.workers[w] == Orphan(i) ==>
            i in p.futures && i !in p.resolved && i in q.resolved && q.resolved[i] == Crashed(i))
      && (p.workers[w] != Orphan(i) ==> (i in q.resolved <==> i in p.resolved) && (i in q.futures <==> i in p.futures))
      && (i in p.resolved ==> i in q.resolved && q.resolved[i] == p.resolved[i])
  {
    ScanOneIs(p, w);
  }

  lemma TickKeeps(p: Pool, agents: Agents)
    requires Inv(p, agents) && CanTick(p)
    ensures Inv(Tick(p), agents)
  {
    ScanKeeps(p, 0, agents);
    var q := ScanFrom(p, 0);
    if AllDead(q) && q.futures != {} {
      FailKeeps(q, agents);
    }
  }

  lemma FailKeeps(p: Pool, agents: Agents)
    requires Inv(p, agents) && AllDead(p)
    ensures Inv(FailOutstanding(p), agents)
    ensures FailOutstanding(p).futures == {}
    ensures FailOutstanding(p).resolved.Keys == p.submitted.Keys
  {
    var q := FailOutstanding(p);
    forall i | i in q.resolved
      ensures i in q.submitted && (q.resolved[i] == RunPath(agents, i, q.submitted[i]) || CrashJustified(q, i))
    {
      if i !in p.futures && CrashJustified(p, i) {
        assert q.resolved[i] == Crashed(i);
      }
    }
  }

  lemma EnvStepKeeps(p: Pool, q: Pool, agents: Agents)
    requires Inv(p, agents) && EnvStep(p, q, agents)
    ensures Inv(q, agents)
  {
    if w :| CanDequeue(p, w) && q == Dequeue(p, w) {
      DequeueKeeps(p, w, agents);
    } else if w :| CanClaim(p, w) && q == PutClaim(p, w) {
      ClaimKeeps(p, w, agents);
    } else if w :| CanReport(p, w) && q == PutResult(p, w, agents) {
      ReportKeeps(p, w, agents);
    } else if w :| CanDie(p, w) && q == Die(p, w) {
      DieKeeps(p, w, agents);
    } else if CanReceive(p) && q == Receive(p) {
      ReceiveKeeps(p, agents);
    } else if CanTick(p) && q == Tick(p) {
      TickKeeps(p, agents);
    } else {
      StopsKeep(p, agents);
    }
  }

  lemma NextKeeps(p: Pool, q: Pool, agents: Agents)
    requires Inv(p, agents) && Next(p, q, agents)
    ensures Inv(q, agents)
  {
    if EnvStep(p, q, agents) {
      EnvStepKeeps(p, q, agents);
    } else {
      var i, u :| i !in p.submitted && q == Submit(p, i, u);
      SubmitKeeps(p, i, u, agents);
    }
  }

  // ------------------------------------------------------------------ what every run guarantees

  ghost predicate Run(tr: seq<Pool>, agents: Agents) {
    && |tr| > 0 && Init(tr[0])
    && forall k :: 0 < k < |tr| ==> Next(tr[k - 1], tr[k], agents)
  }

  /** In every reachable state of every interleaving each submitted path is in exactly one place
      while the monitor runs, the keys of `_futures` are the unresolved paths, and the claim table
      is the truth minus the queued messages. */
  lemma {:induction false} RunKeeps(tr: seq<Pool>, agents: Agents)
    requires Run(tr, agents)
    ensures Inv(tr[|tr| - 1], agents)
  {
    if |tr| == 1 {
      InitInv(tr[0], agents);
    } else {
      var front := tr[..|tr| - 1];
      RunKeeps(front, agents);
      NextKeeps(front[|front| - 1], tr[|tr| - 1], agents);
    }
  }

  /** No two workers hold the same claimed path, and neither table outgrows the worker count. */
  lemma ClaimTableBounds(p: Pool, agents: Agents)
    requires Inv(p, agents) && p.monitoring
    ensures var t := Replay(p.claims, p.resultQ);
      && (forall v, w :: v in t && w in t && v != w ==> t[v] != t[w])
      && |t| <= |p.workers| && |p.claims| <= |p.workers|
  {
    var t := Table(p.workers);
    forall v, w | v in t && w in t && v < w
      ensures t[v] != t[w]
    {
      HeldTwice(p.workers, v, w, t[v]);
      assert Places(p, t[v]) <= 1;
    }
    BoundedKeys(t.Keys, |p.workers|);
    BoundedKeys(p.claims.Keys, |p.workers|);
  }

  lemma {:induction false} HeldTwice(ws: seq<Worker>, v: nat, w: nat, i: nat)
    requires v < w < |ws|
    ensures ws[v].Holds(i) + ws[w].Holds(i) <= Held(ws, i)
  {
    if v == 0 {
      HeldHas(ws[1..], w - 1, i);
    } else {
      HeldTwice(ws[1..], v - 1, w - 1, i);
    }
  }

  lemma {:induction false} BoundedKeys(s: set<nat>, n: nat)
    requires forall k :: k in s ==> k < n
    ensures |s| <= n
  {
    if n == 0 {
      assert s == {};
    } else {
      BoundedKeys(s - {n - 1}, n - 1);
      assert n - 1 !in s ==> s - {n - 1} == s;
    }
  }

  /** No future is resolved twice: what a step finds resolved it leaves as it is. */
  lemma ResolvedOnce(p: Pool, q: Pool, agents: Agents, i: nat)
    requires Inv(p, agents) && Next(p, q, agents) && i in p.resolved
    ensures i in q.resolved && q.resolved[i] == p.resolved[i]
  {
    if CanTick(p) && q == Tick(p) {
      TickResolves(p, agents, i);
    } else {
      OtherStepsResolve(p, q, agents, i);
    }
  }

  lemma OtherStepsResolve(p: Pool, q: Pool, agents: Agents, i: nat)
    requires FuturesExact(p) && Next(p, q, agents) && !(CanTick(p) && q == Tick(p)) && i in p.resolved
    ensures i in q.resolved && q.resolved[i] == p.resolved[i]
  {
  }

  lemma TickResolves(p: Pool, agents: Agents, i: nat)
    requires Inv(p, agents) && CanTick(p) && i in p.resolved
    ensures i in Tick(p).resolved && Tick(p).resolved[i] == p.resolved[i]
  {
    ScanExact(p, 0, i);
    ScanKeeps(p, 0, agents);
  }

  /** A tick resolves as crashed every future whose worker died after claiming it, exactly once,
      and remembers every dead worker. */
  lemma TickRoutesOrphans(p: Pool, agents: Agents, w: nat)
    requires Inv(p, agents) && CanTick(p) && w < |p.workers| && !p.workers[w].Alive()
    ensures w in Tick(p).deadSeen
    ensures p.workers[w].Orphan? ==> var i := p.workers[w].index;
      i !in p.resolved && i in Tick(p).resolved && Tick(p).resolved[i] == Crashed(i)
  {
    ScanWorkers(p, 0);
    if p.workers[w].Orphan? {
      OrphanIsUnresolved(p, w);
      TickCrashes(p, agents, w);
    }
  }

  lemma TickCrashes(p: Pool, agents: Agents, w: nat)
    requires Inv(p, agents) && CanTick(p) && w < |p.workers| && p.workers[w].Orphan?
    ensures var i := p.workers[w].index; i in Tick(p).resolved && Tick(p).resolved[i] == Crashed(i)
  {
    var i := p.workers[w].index;
    assert OrphanedFrom(p, 0, i);
    OrphanIsUnresolved(p, w);
    ScanExact(p, 0, i);
    ScanKeeps(p, 0, agents);
  }

  /** Unless every worker is dead a tick resolves nothing else; in particular no path a live
      worker holds. */
  lemma TickSparesOthers(p: Pool, agents: Agents, i: nat)
    requires Inv(p, agents) && CanTick(p) && !AllDead(p) && i !in p.resolved
    ensures i in Tick(p).resolved <==> OrphanedFrom(p, 0, i)
    ensures (exists w :: 0 <= w < |p.workers| && p.workers[w].Alive() && p.workers[w].Holds(i) == 1) ==>
      i !in Tick(p).resolved
  {
    ScanExact(p, 0, i);
    ScanWorkers(p, 0);
    TickIsScan(p);
    if w :| 0 <= w < |p.workers| && p.workers[w].Alive() && p.workers[w].Holds(i) == 1 {
      if x :| 0 <= x < |p.workers| && p.workers[x] == Orphan(i) {
        OneHolder(p, if w < x then w else x, if w < x then x else w, i);
      }
    }
  }

  lemma OneHolder(p: Pool, v: nat, w: nat, i: nat)
    requires Conserved(p) && p.monitoring && v < w < |p.workers|
    ensures p.workers[v].Holds(i) + p.workers[w].Holds(i) <= 1
  {
    HeldTwice(p.workers, v, w, i);
    assert Places(p, i) <= 1;
  }

  lemma TickIsScan(p: Pool)
    requires Scannable(p) && !AllDead(p)
    ensures Tick(p) == ScanFrom(p, 0)
  {
    var w :| 0 <= w < |p.workers| && p.workers[w].Alive();
    ScanWorkers(p, 0);
    assert ScanFrom(p, 0).workers[w].Alive();
  }

  /** A remembered worker stays dead and remembered, and later scans pass it by. */
  lemma SeenForever(p: Pool, q: Pool, w: nat, agents: Agents)
    requires Inv(p, agents) && Next(p, q, agents) && w in p.deadSeen
    ensures w in q.deadSeen && w < |q.workers| && q.workers[w] == p.workers[w] && ScanOne(q, w) == q
  {
    if CanTick(p) && q == Tick(p) {
      TickRemembers(p, w);
    } else {
      OtherStepsSpareTheDead(p, q, agents, w);
    }
  }

  lemma OtherStepsSpareTheDead(p: Pool, q: Pool, agents: Agents, w: nat)
    requires Next(p, q, agents) && !(CanTick(p) && q == Tick(p))
    requires w in p.deadSeen && w < |p.workers| && !p.workers[w].Alive()
    ensures q.deadSeen == p.deadSeen && |q.workers| == |p.workers| && q.workers[w] == p.workers[w]
    ensures !(CanReceive(p) && q == Receive(p)) ==> p.futures <= q.futures
  {
    if CanReceive(p) && q == Receive(p) {
    } else if q == SendStops(p) {
    } else if x :| CanDie(p, x) && q == Die(p, x) {
    } else if LiveStep(p, q, agents) {
      LiveStepsSpareTheDead(p, q, agents, w);
    } else {
      var i, u :| i !in p.submitted && q == Submit(p, i, u);
    }
  }

  lemma LiveStepsSpareTheDead(p: Pool, q: Pool, agents: Agents, w: nat)
    requires LiveStep(p, q, agents) && !(CanReceive(p) && q == Receive(p)) && w < |p.workers| && !p.workers[w].Alive()
    ensures q.deadSeen == p.deadSeen && |q.workers| == |p.workers| && q.workers[w] == p.workers[w]
    ensures q.futures == p.futures
  {
    if x :| CanDequeue(p, x) && q == Dequeue(p, x) {
    } else if x :| CanClaim(p, x) && q == PutClaim(p, x) {
    } else {
      var x :| CanReport(p, x) && q == PutResult(p, x, agents);
    }
  }

  lemma TickRemembers(p: Pool, w: nat)
    requires Scannable(p) && w in p.deadSeen
    ensures w in Tick(p).deadSeen && |Tick(p).workers| == |p.workers| && Tick(p).workers[w] == p.workers[w]
  {
    ScanWorkers(p, 0);
    assert AfterScan(p.workers[w], true) == p.workers[w];
  }

  /** A tick with every worker dead leaves no future unresolved. */
  lemma TickWithAllDead(p: Pool, agents: Agents)
    requires Inv(p, agents) && CanTick(p) && AllDead(p)
    ensures Tick(p).futures == {} && Tick(p).resolved.Keys == p.submitted.Keys
  {
    var q := ScanFrom(p, 0);
    ScanKeeps(p, 0, agents);
    ScanWorkers(p, 0);
    ScanLiveness(p, 0);
    FailKeeps(q, agents);
  }

  /** With no worker dead, every resolved future holds what running the path inline would give. */
  lemma CrashFreeIsInline(p: Pool, agents: Agents, i: nat)
    requires Inv(p, agents) && |p.workers| > 0 && (forall w :: 0 <= w < |p.workers| ==> p.workers[w].Alive())
    requires i in p.resolved
    ensures i in p.submitted
    ensures p.resolved[i] == PathResult(i, p.submitted[i].fingerprint, agents(i, p.submitted[i]))
  {
    assert Genuine(p, agents);
    assert !CrashJustified(p, i) by {
      assert p.workers[0].Alive();
    }
  }

  // ------------------------------------------------------------------ the pool as written

  /** The master's side of the pool. `resolved` is what the handed-out futures hold; the worker
      processes and the record of submissions are its environment. */
  class LocalSubprocessPool {
    var requestQ: seq<Request>
    var resultQ: seq<Message>
    var futures: set<nat>
    var claims: map<nat, nat>
    var deadSeen: set<nat>
    var monitoring: bool
    var resolved: map<nat, PathResult>
    ghost var workers: seq<Worker>
    ghost var submitted: map<nat, AuditUnit>

    ghost function View(): Pool
      reads this
    {
      Pool(requestQ, resultQ, workers, futures, claims, deadSeen, monitoring, submitted, resolved)
    }

    constructor (workerCount: nat)
      ensures Init(View()) && |View().workers| == workerCount
    {
      requestQ, resultQ, futures, claims := [], [], {}, map[];
      deadSeen, monitoring, resolved := {}, true, map[];
      workers, submitted := seq(workerCount, _ => Idle), map[];
    }

    method SubmitPath(i: nat, u: AuditUnit)
      modifies this
      ensures View() == Submit(old(View()), i, u)
    {
      futures := futures + {i};
      requestQ := requestQ + [Path(i, u)];
      submitted := submitted[i := u];
    }

    /** One message taken off the result queue by `_monitor_loop`. */
    method HandleMessage()
      requires CanReceive(View())
      modifies this
      ensures View() == Receive(old(View()))
    {
      var msg := resultQ[0];
      resultQ := resultQ[1..];
      match msg
      case Claim(i, w) =>
        claims := claims[w := i];
      case Result(r, w) =>
        claims := claims - {w};
        if r.index in futures {
          futures := futures - {r.index};
          resolved := resolved[r.index := r];
        }
    }

    /** The body of the loop over `self._workers`. */
    method CheckWorker(w: nat, alive: bool)
      requires w < |workers| && alive == workers[w].Alive()
      modifies this
      ensures View() == ScanOne(old(View()), w)
    {
      if alive || w in deadSeen {
        return;
      }
      deadSeen := deadSeen + {w};
      if w in claims {
        var orphan := claims[w];
        claims := claims - {w};
        if orphan in futures {
          futures := futures - {orphan};
          resolved := resolved[orphan := Crashed(orphan)];
          if workers[w] == Orphan(orphan) {
            workers := workers[w := Routed(orphan)];
          }
        }
      } else {
        assert claims - {w} == claims;
      }
    }

    /** `alive` is what `is_alive()` answers for each worker. */
    method CheckDeadWorkers(alive: seq<bool>)
      requires |alive| == |workers| && forall w :: 0 <= w < |alive| ==> alive[w] == workers[w].Alive()
      modifies this
      ensures View() == ScanFrom(old(View()), 0)
    {
      for w := 0 to |alive|
        invariant |workers| == |alive| && forall x :: 0 <= x < |alive| ==> alive[x] == workers[x].Alive()
        invariant ScanFrom(View(), w) == ScanFrom(old(View()), 0)
      {
        CheckWorker(w, alive[w]);
      }
    }

    method FailAllOutstanding()
      modifies this
      ensures View() == FailOutstanding(old(View()))
      ensures futures == {} && claims == map[] && !monitoring
      ensures forall i :: i in old(futures) ==> i in resolved && resolved[i] == Crashed(i)
      ensures forall i :: i !in old(futures) ==> (i in resolved <==> i in old(resolved))
    {
      var outstanding := futures;
      futures, claims := {}, map[];
      monitoring := false;
      SettleAll(outstanding);
    }

    method SettleAll(all: set<nat>)
      modifies this`resolved
      ensures resolved == old(resolved) + CrashAll(all)
    {
      var outstanding := all;
      while outstanding != {}
        invariant outstanding <= all
        invariant resolved == old(resolved) + CrashAll(all - outstanding)
        decreases outstanding
      {
        var i :| i in outstanding;
        resolved := resolved[i := Crashed(i)];
        outstanding := outstanding - {i};
      }
      assert all - {} == all;
    }

    /** What the monitor does when the queue stayed empty for one timeout, whether or not messages
        have come in since. */
    method OnEmptyQueue(alive: seq<bool>)
      requires |alive| == |workers| && forall w :: 0 <= w < |alive| ==> alive[w] == workers[w].Alive()
      modifies this
      ensures View() == LateTick(old(View()))
    {
      CheckDeadWorkers(alive);
      ghost var q := View();
      ScanLiveness(old(View()), 0);
      if (forall w :: 0 <= w < |alive| ==> !alive[w]) && futures != {} {
        FailAllOutstanding();
      }
    }
  }
}
