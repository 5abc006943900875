/** `PathStreamer`: a fetcher thread feeding a bounded queue that the audit loop drains, with
    deduplication, an end sentinel, error propagation and close; and the eager plan it refines. */
module PathStream {
  import opened PathModel

  /** `PathRecord`; an audit unit is built from the record alone, so the two are not told apart. */
  type Record = AuditUnit

  // ------------------------------------------------------------------ the eager plan

  /** The records whose fingerprint has not occurred before. */
  function FirstOccurrences(records: seq<Record>): seq<Record>
  {
    if records == [] then []
    else
      var n := |records| - 1;
      var front := FirstOccurrences(records[..n]);
      if Seen(records[..n], records[n].fingerprint) then front else front + [records[n]]
  }

  predicate Seen(records: seq<Record>, fp: string) {
    exists r :: r in records && r.fingerprint == fp
  }

  /** `plan_audit_paths`: one loop over the source with a set of seen fingerprints. */
  method PlanAuditPaths(records: seq<Record>) returns (units: seq<Record>)
    ensures units == FirstOccurrences(records)
  {
    units := [];
    var seen: set<string> := {};
    for k := 0 to |records|
      invariant units == FirstOccurrences(records[..k])
      invariant forall fp :: fp in seen <==> Seen(records[..k], fp)
    {
      assert records[..k + 1][..k] == records[..k];
      SeenGrows(records, k);
      if records[k].fingerprint in seen {
        continue;
      }
      seen := seen + {records[k].fingerprint};
      units := units + [records[k]];
    }
    assert records[..|records|] == records;
  }

  lemma SeenGrows(records: seq<Record>, k: nat)
    requires k < |records|
    ensures forall fp :: Seen(records[..k + 1], fp) <==> Seen(records[..k], fp) || records[k].fingerprint == fp
  {
    assert records[..k + 1] == records[..k] + [records[k]];
    forall fp
      ensures Seen(records[..k + 1], fp) <==> Seen(records[..k], fp) || records[k].fingerprint == fp
    {
      if Seen(records[..k + 1], fp) && !Seen(records[..k], fp) {
        var r :| r in records[..k + 1] && r.fingerprint == fp;
      }
      if Seen(records[..k], fp) {
        var r :| r in records[..k] && r.fingerprint == fp;
        assert r in records[..k + 1];
      }
      if records[k].fingerprint == fp {
        assert records[k] in records[..k + 1];
      }
    }
  }

  /** What the plan promises the audit loop: no fingerprint twice, none lost, none invented. */
  lemma {:induction false} FirstOccurrencesDistinct(records: seq<Record>)
    ensures var units := FirstOccurrences(records);
      && DistinctUnits(units)
      && (forall u :: u in units ==> u in records)
      && (forall fp :: Seen(units, fp) <==> Seen(records, fp))
  {
    if records != [] {
      var n := |records| - 1;
      var front, r := FirstOccurrences(records[..n]), records[n];
      FirstOccurrencesDistinct(records[..n]);
      assert records == records[..n] + [r];
      SeenGrows(records, n);
      assert records[..n + 1] == records;
      forall i | 0 <= i < |front| && front[i].fingerprint == r.fingerprint
        ensures Seen(records[..n], r.fingerprint)
      {
        assert front[i] in front;
      }
      var units := FirstOccurrences(records);
      if units == front + [r] {
        forall fp ensures Seen(units, fp) <==> Seen(front, fp) || r.fingerprint == fp {
          SeenGrows(units, |front|);
          assert units[..|front|] == front && units[..|front| + 1] == units;
        }
      }
    }
  }

  // ------------------------------------------------------------------ the streamer

  /** What `iter_paths` does: yields the records, then stops or raises. */
  datatype Source = Source(records: seq<Record>, fails: bool)

  datatype Item = Unit(record: Record) | End | Failure

  /** Where the fetcher thread is: pulling the next record, at the top of the put loop with a
      built unit, inside a timed put, putting a sentinel, or finished. */
  datatype Fetcher =
    | Pulling
    | Checking(unit: Record)
    | Putting(unit: Record)
    | Finishing(item: Item)
    | Stopped

  datatype Streamer = Streamer(
    read: nat,
    seen: set<string>,
    fetcher: Fetcher,
    queue: seq<Item>,
    fetched: nat,
    yielded: seq<Record>,
    exhausted: bool,
    raised: bool,
    stop: bool)

  datatype Setup = Setup(source: Source, batchSize: nat, dedup: bool)
  {
    /** The units the fetcher builds from the first `n` records. */
    function Units(n: nat): seq<Record>
      requires n <= |source.records|
    {
      if dedup then FirstOccurrences(source.records[..n]) else source.records[..n]
    }
  }

  ghost predicate Opened(s: Streamer) {
    s == Streamer(0, {}, Pulling, [], 0, [], false, false, false)
  }

  // -- fetcher steps

  /** One turn of the `for` loop up to the put loop. */
  function Pull(c: Setup, s: Streamer): Streamer
    requires s.fetcher.Pulling? && s.read <= |c.source.records|
  {
    if s.read == |c.source.records| then s.(fetcher := Finishing(if c.source.fails then Failure else End))
    else
      var r, t := c.source.records[s.read], s.(read := s.read + 1);
      if s.stop then t.(fetcher := Stopped)
      else if c.dedup && r.fingerprint in s.seen then t
      else t.(seen := if c.dedup then s.seen + {r.fingerprint} else s.seen,
              fetched := s.fetched + 1, fetcher := Checking(r))
  }

  function CheckStop(s: Streamer): Streamer
    requires s.fetcher.Checking?
  {
    s.(fetcher := if s.stop then Stopped else Putting(s.fetcher.unit))
  }

  predicate Room(c: Setup, s: Streamer) {
    |s.queue| < c.batchSize
  }

  /** The timed put: into a free place, or a timeout on a full queue. */
  function PutUnit(c: Setup, s: Streamer): Streamer
    requires s.fetcher.Putting?
  {
    if Room(c, s) then s.(queue := s.queue + [Unit(s.fetcher.unit)], fetcher := Pulling)
    else s.(fetcher := Checking(s.fetcher.unit))
  }

  /** `_safe_put` of the sentinel; a timeout gives up only when stopping. */
  function PutSentinel(c: Setup, s: Streamer): Streamer
    requires s.fetcher.Finishing?
  {
    if Room(c, s) then s.(queue := s.queue + [s.fetcher.item], fetcher := Stopped)
    else if s.stop then s.(fetcher := Stopped)
    else s
  }

  function FetchStep(c: Setup, s: Streamer): Streamer
    requires s.read <= |c.source.records| && !s.fetcher.Stopped?
  {
    match s.fetcher
    case Pulling => Pull(c, s)
    case Checking(_) => CheckStop(s)
    case Putting(_) => PutUnit(c, s)
    case Finishing(_) => PutSentinel(c, s)
  }

  // -- consumer steps

  predicate CanGet(s: Streamer) {
    !s.exhausted && s.queue != []
  }

  /** `next_or_none` past the blocking get. */
  function Get(s: Streamer): Streamer
    requires CanGet(s)
  {
    var t := s.(queue := s.queue[1..]);
    match s.queue[0]
    case Unit(r) => t.(yielded := s.yielded + [r])
    case End => t.(exhausted := true)
    case Failure => t.(exhausted := true, raised := true)
  }

  /** `close` up to the join: raise the stop flag and throw away what is queued. */
  function Close(s: Streamer): Streamer {
    s.(stop := true, queue := [], exhausted := true)
  }

  ghost predicate Next(c: Setup, s: Streamer, t: Streamer) {
    || (s.read <= |c.source.records| && !s.fetcher.Stopped? && t == FetchStep(c, s))
    || (CanGet(s) && t == Get(s))
    || t == Close(s)
  }

  ghost predicate Run(c: Setup, tr: seq<Streamer>) {
    && |tr| > 0 && Opened(tr[0])
    && forall k :: 0 < k < |tr| ==> Next(c, tr[k - 1], tr[k])
  }

  // ------------------------------------------------------------------ the invariant

  function InFlight(s: Streamer): seq<Record> {
    if s.fetcher.Checking? || s.fetcher.Putting? then [s.fetcher.unit] else []
  }

  function QueuedUnits(q: seq<Item>): seq<Record> {
    if q == [] then [] else (if q[0].Unit? then [q[0].record] else []) + QueuedUnits(q[1..])
  }

  /** The sentinel, if any, is the last thing ever queued. */
  ghost predicate SentinelLast(q: seq<Item>) {
    forall k :: 0 <= k < |q| - 1 ==> q[k].Unit?
  }

  ghost predicate Bounds(c: Setup, s: Streamer) {
    && s.read <= |c.source.records|
    && |s.queue| <= c.batchSize
  }

  ghost predicate SeenExact(c: Setup, s: Streamer)
    requires s.read <= |c.source.records|
  {
    c.dedup ==> forall fp :: fp in s.seen <==> Seen(c.source.records[..s.read], fp)
  }

  /** Before close: nothing is lost, duplicated or reordered between the source and the consumer. */
  ghost predicate Refines(c: Setup, s: Streamer)
    requires s.read <= |c.source.records|
  {
    && s.yielded + QueuedUnits(s.queue) + InFlight(s) == c.Units(s.read)
    && s.fetched == |c.Units(s.read)|
  }

  /** Before close: the sentinel comes after all records were read, names how the source ended,
      and is what exhausted the consumer. */
  ghost predicate SentinelRight(c: Setup, s: Streamer) {
    var last := if c.source.fails then Failure else End;
    && SentinelLast(s.queue)
    && (s.fetcher.Finishing? ==> s.fetcher.item == last && s.read == |c.source.records|)
    && (s.fetcher.Stopped? ==>
          s.read == |c.source.records| && (s.exhausted || (s.queue != [] && s.queue[|s.queue| - 1] == last)))
    && (s.exhausted ==> s.fetcher.Stopped? && s.queue == [] && s.raised == c.source.fails)
    && (!s.fetcher.Stopped? ==> forall k :: 0 <= k < |s.queue| ==> s.queue[k].Unit?)
    && (!s.exhausted ==> !s.raised)
  }

  ghost predicate Inv(c: Setup, s: Streamer) {
    Bounds(c, s) && (!s.stop ==> SeenExact(c, s) && Refines(c, s) && SentinelRight(c, s))
  }

  lemma {:induction false} QueuedUnitsAppend(q: seq<Item>, x: Item)
    ensures QueuedUnits(q + [x]) == QueuedUnits(q) + (if x.Unit? then [x.record] else [])
  {
    var t := if x.Unit? then [x.record] else [];
    if q == [] {
      assert q + [x] == [x];
    } else {
      var h := if q[0].Unit? then [q[0].record] else [];
      assert (q + [x])[1..] == q[1..] + [x];
      QueuedUnitsAppend(q[1..], x);
      assert h + (QueuedUnits(q[1..]) + t) == (h + QueuedUnits(q[1..])) + t;
    }
  }

  lemma PullKeeps(c: Setup, s: Streamer)
    requires Inv(c, s) && s.fetcher.Pulling?
    ensures Inv(c, Pull(c, s))
  {
    if s.read < |c.source.records| && !s.stop {
      PullSees(c, s);
      PullRefines(c, s);
    }
  }

  lemma PullSees(c: Setup, s: Streamer)
    requires Bounds(c, s) && SeenExact(c, s) && s.fetcher.Pulling? && s.read < |c.source.records| && !s.stop
    ensures SeenExact(c, Pull(c, s))
  {
    SeenGrows(c.source.records, s.read);
  }

  lemma PullRefines(c: Setup, s: Streamer)
    requires Bounds(c, s) && SeenExact(c, s) && Refines(c, s)
    requires s.fetcher.Pulling? && s.read < |c.source.records| && !s.stop
    ensures Refines(c, Pull(c, s))
  {
    var rs, n := c.source.records, s.read;
    assert rs[..n + 1][..n] == rs[..n];
    assert c.Units(n + 1) == if c.dedup && Seen(rs[..n], rs[n].fingerprint) then c.Units(n) else c.Units(n) + [rs[n]];
    assert s.yielded + QueuedUnits(s.queue) + [] == s.yielded + QueuedUnits(s.queue);
  }

  lemma PutKeeps(c: Setup, s: Streamer)
    requires Inv(c, s) && s.fetcher.Putting?
    ensures Inv(c, PutUnit(c, s))
  {
    var u := s.fetcher.unit;
    QueuedUnitsAppend(s.queue, Unit(u));
    assert s.yielded + (QueuedUnits(s.queue) + [u]) + [] == s.yielded + QueuedUnits(s.queue) + [u];
  }

  lemma SentinelKeeps(c: Setup, s: Streamer)
    requires Inv(c, s) && s.fetcher.Finishing?
    ensures Inv(c, PutSentinel(c, s))
  {
    QueuedUnitsAppend(s.queue, s.fetcher.item);
  }

  lemma GetKeeps(c: Setup, s: Streamer)
    requires Inv(c, s) && CanGet(s)
    ensures Inv(c, Get(s))
  {
    if s.queue[0].Unit? {
      var r, rest := s.queue[0].record, QueuedUnits(s.queue[1..]);
      assert s.yielded + ([r] + rest) + InFlight(s) == s.yielded + [r] + rest + InFlight(s);
    }
  }

  lemma NextKeeps(c: Setup, s: Streamer, t: Streamer)
    requires Inv(c, s) && Next(c, s, t)
    ensures Inv(c, t)
  {
    if !s.fetcher.Stopped? && t == FetchStep(c, s) {
      match s.fetcher
      case Pulling => PullKeeps(c, s);
      case Checking(_) =>
      case Putting(_) => PutKeeps(c, s);
      case Finishing(_) => SentinelKeeps(c, s);
    } else if CanGet(s) && t == Get(s) {
      GetKeeps(c, s);
    }
  }

  lemma {:induction false} RunKeeps(c: Setup, tr: seq<Streamer>)
    requires Run(c, tr)
    ensures Inv(c, tr[|tr| - 1])
  {
    if |tr| > 1 {
      var front := tr[..|tr| - 1];
      RunKeeps(c, front);
      NextKeeps(c, front[|front| - 1], tr[|tr| - 1]);
    } else {
      assert c.source.records[..0] == [];
    }
  }

  // ------------------------------------------------------------------ what every run guarantees

  lemma {:induction false} FirstOccurrencesPrefix(records: seq<Record>, n: nat)
    requires n <= |records|
    ensures FirstOccurrences(records[..n]) <= FirstOccurrences(records)
  {
    if n == |records| {
      assert records[..n] == records;
    } else {
      var m := |records| - 1;
      FirstOccurrencesPrefix(records[..m], n);
      assert records[..m][..n] == records[..n];
    }
  }

  /** The stream refines the plan: in every interleaving before close, what the consumer has seen
      is a prefix of the eager plan, and the queue never exceeds the batch size. */
  lemma StreamRefinesPlan(c: Setup, tr: seq<Streamer>)
    requires Run(c, tr) && c.dedup && !tr[|tr| - 1].stop
    ensures var s := tr[|tr| - 1];
      && s.read <= |c.source.records|
      && s.yielded + QueuedUnits(s.queue) + InFlight(s) == FirstOccurrences(c.source.records[..s.read])
      && s.yielded <= FirstOccurrences(c.source.records)
      && |s.queue| <= c.batchSize
  {
    var s := tr[|tr| - 1];
    RunKeeps(c, tr);
    FirstOccurrencesPrefix(c.source.records, s.read);
    var all, whole := c.Units(s.read), FirstOccurrences(c.source.records);
    assert s.yielded == all[..|s.yielded|] == whole[..|s.yielded|];
  }

  /** The consumer is told the stream is over only after it saw the whole plan; it is told by an
      error exactly when the source raised, and never before every earlier unit. */
  lemma ExhaustedSawPlan(c: Setup, tr: seq<Streamer>)
    requires Run(c, tr) && c.dedup && !tr[|tr| - 1].stop && tr[|tr| - 1].exhausted
    ensures var s := tr[|tr| - 1];
      s.yielded == FirstOccurrences(c.source.records) && (s.raised <==> c.source.fails)
  {
    var s := tr[|tr| - 1];
    RunKeeps(c, tr);
    assert c.source.records[..s.read] == c.source.records;
    assert s.yielded + [] + [] == s.yielded;
  }

  // ------------------------------------------------------------------ progress

  /** A step of the fetcher or the consumer other than a timed-out put. */
  ghost predicate Productive(c: Setup, s: Streamer, t: Streamer) {
    || (CanGet(s) && t == Get(s))
    || (s.read <= |c.source.records| && !s.fetcher.Stopped?
        && ((s.fetcher.Putting? || s.fetcher.Finishing?) ==> Room(c, s)) && t == FetchStep(c, s))
  }

  /** Until the consumer has seen the sentinel some productive step is possible. */
  lemma StreamNeverStuck(c: Setup, s: Streamer)
    requires Inv(c, s) && c.batchSize >= 1 && !s.stop && !s.exhausted
    ensures exists t :: Productive(c, s, t)
  {
    if CanGet(s) {
      assert Productive(c, s, Get(s));
    } else {
      assert Productive(c, s, FetchStep(c, s));
    }
  }

  function FetcherWeight(c: Setup, s: Streamer): nat
    requires s.read <= |c.source.records|
  {
    var left := 5 * (|c.source.records| - s.read);
    match s.fetcher
    case Pulling => left + 3
    case Checking(_) => left + 6
    case Putting(_) => left + 5
    case Finishing(_) => 2
    case Stopped => 0
  }

  function Weight(c: Setup, s: Streamer): nat
    requires s.read <= |c.source.records|
  {
    FetcherWeight(c, s) + |s.queue|
  }

  lemma StreamLightens(c: Setup, s: Streamer, t: Streamer)
    requires Inv(c, s) && !s.stop && Productive(c, s, t)
    ensures t.read <= |c.source.records| && Weight(c, t) < Weight(c, s) && t.stop == s.stop
  {
  }

  ghost predicate ProductiveRun(c: Setup, tr: seq<Streamer>) {
    && |tr| > 0 && Opened(tr[0])
    && forall k :: 0 < k < |tr| ==> Productive(c, tr[k - 1], tr[k])
  }

  lemma {:induction false} ProductiveRunLightens(c: Setup, tr: seq<Streamer>)
    requires ProductiveRun(c, tr)
    ensures var s := tr[|tr| - 1];
      Inv(c, s) && !s.stop && |tr| - 1 + Weight(c, s) <= 5 * |c.source.records| + 3
  {
    if |tr| == 1 {
      RunKeeps(c, tr);
    } else {
      var front := tr[..|tr| - 1];
      ProductiveRunLightens(c, front);
      var s, t := front[|front| - 1], tr[|tr| - 1];
      assert Productive(c, s, t);
      StreamLightens(c, s, t);
      NextKeeps(c, s, t);
    }
  }

  /** Stream progress: with a finite source and no close, every run of productive steps is finite,
      and one that cannot go on has given the consumer everything and the right ending. */
  lemma StreamDelivers(c: Setup, tr: seq<Streamer>)
    requires ProductiveRun(c, tr) && c.batchSize >= 1
    ensures |tr| - 1 <= 5 * |c.source.records| + 3
    ensures var s := tr[|tr| - 1];
      (forall t :: !Productive(c, s, t)) ==>
        s.exhausted && s.yielded == c.Units(|c.source.records|) && (s.raised <==> c.source.fails)
  {
    var s := tr[|tr| - 1];
    ProductiveRunLightens(c, tr);
    if !s.exhausted {
      StreamNeverStuck(c, s);
    } else {
      assert s.yielded + [] + [] == s.yielded;
    }
  }

  function StepsToStop(f: Fetcher): nat {
    match f
    case Putting(_) => 3
    case Pulling => 2
    case Checking(_) => 1
    case Finishing(_) => 1
    case Stopped => 0
  }

  lemma StoppingStep(c: Setup, s: Streamer, t: Streamer)
    requires Next(c, s, t) && s.stop && s.read <= |c.source.records|
    ensures t.stop && t.read <= |c.source.records|
    ensures t.fetcher == s.fetcher || StepsToStop(t.fetcher) < StepsToStop(s.fetcher)
    ensures !s.fetcher.Stopped? && t == FetchStep(c, s) ==> t.fetcher != s.fetcher
  {
    if !s.fetcher.Stopped? && t == FetchStep(c, s) {
      StoppingFetch(c, s);
    } else if CanGet(s) && t == Get(s) {
      GetKeepsFetcher(s);
    } else {
      assert t == Close(s);
    }
  }

  lemma StoppingFetch(c: Setup, s: Streamer)
    requires s.stop && s.read <= |c.source.records| && !s.fetcher.Stopped?
    ensures var t := FetchStep(c, s);
      t.stop && t.read <= |c.source.records| && StepsToStop(t.fetcher) < StepsToStop(s.fetcher)
  {
  }

  lemma GetKeepsFetcher(s: Streamer)
    requires CanGet(s)
    ensures var t := Get(s); t.fetcher == s.fetcher && t.stop == s.stop && t.read == s.read
  {
  }

  /** How often the fetcher thread moved along a run. */
  function FetcherMoves(tr: seq<Streamer>): nat
    requires |tr| > 0
  {
    if |tr| == 1 then 0
    else FetcherMoves(tr[..|tr| - 1]) + (if tr[|tr| - 1].fetcher != tr[|tr| - 2].fetcher then 1 else 0)
  }

  /** Once closed the fetcher stops within three of its own steps, whatever the consumer and the
      queue do: along any run after close it moves at most three times. */
  lemma {:induction false} CloseStopsFetcher(c: Setup, tr: seq<Streamer>)
    requires |tr| > 0 && tr[0].stop && tr[0].read <= |c.source.records|
    requires forall k :: 0 < k < |tr| ==> Next(c, tr[k - 1], tr[k])
    ensures var s := tr[|tr| - 1];
      && s.stop && s.read <= |c.source.records|
      && FetcherMoves(tr) + StepsToStop(s.fetcher) <= StepsToStop(tr[0].fetcher) <= 3
  {
    if |tr| > 1 {
      var n := |tr| - 1;
      var front := tr[..n];
      CloseStopsFetcher(c, front);
      StoppingStep(c, tr[n - 1], tr[n]);
      assert FetcherMoves(tr) == FetcherMoves(front) + (if tr[n].fetcher != tr[n - 1].fetcher then 1 else 0);
    }
  }

  lemma ClosedStep(c: Setup, s: Streamer, t: Streamer)
    requires Next(c, s, t) && s.stop && s.exhausted && s.read <= |c.source.records|
    ensures t.exhausted && t.yielded == s.yielded
    ensures t == Close(s) || |t.queue| + StepsToStop(t.fetcher) <= |s.queue| + StepsToStop(s.fetcher)
  {
    if t != Close(s) {
      StoppingFetch(c, s);
    }
  }

  /** Close throws away what is queued and ends the stream for the consumer: along any run after it
      nothing is yielded, and what the fetcher still queues is bounded by its last few moves. */
  lemma {:induction false} NothingAfterClose(c: Setup, before: Streamer, tr: seq<Streamer>)
    requires |tr| > 0 && tr[0] == Close(before) && before.read <= |c.source.records|
    requires forall k :: 0 < k < |tr| ==> Next(c, tr[k - 1], tr[k])
    ensures tr[0].queue == []
    ensures var s := tr[|tr| - 1];
      s.exhausted && s.yielded == before.yielded && |s.queue| + StepsToStop(s.fetcher) <= 3
  {
    if |tr| > 1 {
      var n := |tr| - 1;
      NothingAfterClose(c, before, tr[..n]);
      CloseStopsFetcher(c, tr[..n]);
      ClosedStep(c, tr[n - 1], tr[n]);
    }
  }

  // ------------------------------------------------------------------ the streamer as written

  /** The consumer's side; the fetcher thread is the environment between its steps. */
  class PathStreamer {
    const setup: Setup
    var queue: seq<Item>
    var exhausted: bool
    var raised: bool
    var stop: bool
    var yielded: seq<Record>
    var seen: set<string>
    var read: nat
    var fetched: nat
    var fetcher: Fetcher

    ghost function View(): Streamer
      reads this
    {
      Streamer(read, seen, fetcher, queue, fetched, yielded, exhausted, raised, stop)
    }

    constructor (setup: Setup)
      ensures this.setup == setup && Opened(View())
    {
      this.setup := setup;
      queue, exhausted, raised, stop := [], false, false, false;
      yielded, seen, read, fetched, fetcher := [], {}, 0, 0, Pulling;
    }

    /** Runs the fetcher to its next blocking point or sleep. */
    method Fetch()
      requires read <= |setup.source.records| && fetcher != Stopped
      modifies this
      ensures View() == FetchStep(setup, old(View()))
    {
      match fetcher
      case Pulling =>
        if read == |setup.source.records| {
          fetcher := Finishing(if setup.source.fails then Failure else End);
        } else {
          var r := setup.source.records[read];
          read := read + 1;
          if stop {
            fetcher := Stopped;
          } else if !(setup.dedup && r.fingerprint in seen) {
            if setup.dedup {
              seen := seen + {r.fingerprint};
            }
            fetched := fetched + 1;
            fetcher := Checking(r);
          }
        }
      case Checking(u) =>
        fetcher := if stop then Stopped else Putting(u);
      case Putting(u) =>
        if |queue| < setup.batchSize {
          queue := queue + [Unit(u)];
          fetcher := Pulling;
        } else {
          fetcher := Checking(u);
        }
      case Finishing(x) =>
        if |queue| < setup.batchSize {
          queue := queue + [x];
          fetcher := Stopped;
        } else if stop {
          fetcher := Stopped;
        }
    }

    /** `next_or_none` once an item is available. Returns a unit exactly when one was queued, and
        nothing forever after the sentinel. */
    method NextOrNone() returns (unit: seq<Record>)
      requires exhausted || queue != []
      modifies this
      ensures View() == if old(exhausted) then old(View()) else Get(old(View()))
      ensures unit == if !old(exhausted) && old(queue)[0].Unit? then [old(queue)[0].record] else []
      ensures yielded == old(yielded) + unit
    {
      if exhausted {
        return [];
      }
      var item := queue[0];
      queue := queue[1..];
      match item
      case End =>
        exhausted := true;
        return [];
      case Failure =>
        exhausted, raised := true, true;
        return [];
      case Unit(r) =>
        yielded := yielded + [r];
        return [r];
    }

    method CloseStream()
      modifies this
      ensures View() == Close(old(View()))
    {
      stop := true;
      while queue != []
        invariant View() == old(View()).(stop := true, queue := queue)
        decreases |queue|
      {
        queue := queue[1..];
      }
      exhausted := true;
    }
  }

  /** `EagerPathStreamer`: a cursor over a materialised plan. */
  class EagerPathStreamer {
    const units: seq<Record>
    var cursor: nat

    ghost predicate Valid()
      reads this
    {
      cursor <= |units|
    }

    /** What the consumer has been given so far. */
    ghost function Yielded(): seq<Record>
      requires Valid()
      reads this
    {
      units[..cursor]
    }

    constructor (units: seq<Record>)
      ensures Valid() && this.units == units && Yielded() == []
    {
      this.units := units;
      cursor := 0;
    }

    method NextOrNone() returns (unit: seq<Record>)
      requires Valid()
      modifies this
      ensures Valid() && Yielded() == old(Yielded()) + unit
      ensures unit == [] <==> old(Yielded()) == units
      ensures |unit| <= 1
    {
      if cursor >= |units| {
        return [];
      }
      unit := [units[cursor]];
      cursor := cursor + 1;
    }
  }
}
