/** `_process_unit_single`: the iterative analyzer loop of one audit unit, against every possible
    sequence of analyzer, validator and exploiter answers. */
module AnalyzerLoop {
  import opened PathModel

  datatype Exploitation = Skipped | NotExploitable | Other(status: string)

  /** What the analyzer returns in one round. */
  datatype Answer = Answer(isCandidate: bool, name: string, functionId: string, line: int)

  /** One entry of `accepted_chain`, with the round it was accepted in. */
  datatype Accepted = Accepted(round: nat, analyzer: Answer, exploitation: Exploitation, verdict: ValidationStatus)

  /** The agents of one unit: what each would answer in each round, and the operator's settings.
      `fold` is `strip().casefold()` and `trim` is `strip()`. */
  datatype Stages = Stages(
    analyzer: nat -> Answer,
    validator: nat -> ValidationStatus,
    exploiter: nat -> Exploitation,
    fold: string -> string,
    trim: string -> string,
    maxFindings: int,
    exploiterReplication: nat)
  {
    function Cap(): nat {
      if maxFindings < 1 then 1 else maxFindings
    }

    function Key(a: Answer): (string, string, int) {
      (fold(a.name), trim(a.functionId), a.line)
    }
  }

  /** Stage calls in order; the analyzer is told which findings to leave out. */
  datatype Call = AskAnalyzer(round: nat, excluded: seq<Answer>) | AskValidator(round: nat) | AskExploiter(round: nat)

  datatype Progress = Progress(accepted: seq<Accepted>, misses: nat, calls: seq<Call>)

  // ------------------------------------------------------------------ one round

  predicate MatchesAnyExcluded(o: Stages, a: Answer, chain: seq<Accepted>) {
    exists e :: e in chain && o.Key(e.analyzer) == o.Key(a)
  }

  function Excluded(chain: seq<Accepted>): (told: seq<Answer>)
    ensures |told| == |chain| && forall k :: 0 <= k < |chain| ==> told[k] == chain[k].analyzer
  {
    if chain == [] then [] else [chain[0].analyzer] + Excluded(chain[1..])
  }

  /** Whether the exploiter is consulted on a finding with this verdict. */
  predicate Consults(o: Stages, v: ValidationStatus) {
    v != FalsePositive && o.exploiterReplication != 0
  }

  /** A Valid verdict the exploiter contradicts is downgraded. */
  function Settle(v: ValidationStatus, e: Exploitation): ValidationStatus {
    if e == NotExploitable && v == Valid then PartialValid else v
  }

  function Round(o: Stages, s: Progress, r: nat): Progress {
    var a := o.analyzer(r);
    var asked := s.calls + [AskAnalyzer(r, Excluded(s.accepted))];
    if !a.isCandidate || MatchesAnyExcluded(o, a, s.accepted) then Progress(s.accepted, s.misses + 1, asked)
    else
      var v := o.validator(r);
      var e := if Consults(o, v) then o.exploiter(r) else Skipped;
      Progress(s.accepted + [Accepted(r, a, e, Settle(v, e))], 0,
               asked + [AskValidator(r)] + (if Consults(o, v) then [AskExploiter(r)] else []))
  }

  /** The state after `r` rounds. */
  function After(o: Stages, r: nat): Progress {
    if r == 0 then Progress([], 0, []) else Round(o, After(o, r - 1), r)
  }

  predicate Stops(o: Stages, s: Progress) {
    |s.accepted| >= o.Cap() || s.misses >= 2
  }

  /** The loop is still running at the start of each of the first `r` rounds. */
  ghost predicate Runs(o: Stages, r: nat) {
    forall k :: 0 <= k < r ==> !Stops(o, After(o, k))
  }

  // ------------------------------------------------------------------ the checkpoint label

  function Priority(v: ValidationStatus): nat {
    match v case Valid => 0 case PartialValid => 1 case Inconclusive => 2 case FalsePositive => 3
  }

  datatype Checkpoint = NoFinding | Label(verdict: ValidationStatus)

  predicate Has(chain: seq<Accepted>, v: ValidationStatus) {
    exists k :: 0 <= k < |chain| && chain[k].verdict == v
  }

  /** One Valid finding makes the unit Valid; failing that one Partial Valid; failing that one
      Inconclusive; and only a chain of False Positives is labelled so. */
  predicate MostSignificant(chain: seq<Accepted>, c: Checkpoint) {
    && (c == NoFinding <==> chain == [])
    && (c == Label(Valid) <==> Has(chain, Valid))
    && (c == Label(PartialValid) <==> !Has(chain, Valid) && Has(chain, PartialValid))
    && (c == Label(Inconclusive) <==>
          !Has(chain, Valid) && !Has(chain, PartialValid) && Has(chain, Inconclusive))
    && (c == Label(FalsePositive) <==>
          chain != [] && forall k :: 0 <= k < |chain| ==> chain[k].verdict == FalsePositive)
  }

  /** `_aggregate_checkpoint_status`. */
  method AggregateCheckpoint(chain: seq<Accepted>) returns (c: Checkpoint)
    ensures MostSignificant(chain, c)
  {
    c := NoFinding;
    for k := 0 to |chain|
      invariant c == NoFinding <==> k == 0
      invariant c.Label? ==>
        && (exists j :: 0 <= j < k && chain[j].verdict == c.verdict)
        && (forall j :: 0 <= j < k ==> Priority(c.verdict) <= Priority(chain[j].verdict))
    {
      if c == NoFinding || Priority(chain[k].verdict) < Priority(c.verdict) {
        c := Label(chain[k].verdict);
      }
    }
  }

  // ------------------------------------------------------------------ the loop as written

  datatype Termination = ByCap | ByConvergence

  /** Equal name, function id and line, as the loop compares them. */
  predicate SameFinding(o: Stages, a: Answer, b: Answer) {
    o.fold(a.name) == o.fold(b.name) && o.trim(a.functionId) == o.trim(b.functionId) && a.line == b.line
  }

  /** Round `q` yielded what an earlier round already had as a candidate. */
  ghost predicate Repeats(o: Stages, q: nat) {
    exists p: nat :: 1 <= p < q && o.analyzer(p).isCandidate && SameFinding(o, o.analyzer(p), o.analyzer(q))
  }

  /** Round `q` yielded no candidate, or a repetition. */
  ghost predicate Missed(o: Stages, q: nat) {
    !o.analyzer(q).isCandidate || Repeats(o, q)
  }

  /** The loop ran until the accepted findings reached the cap, or two rounds in a row missed. */
  ghost predicate StoppedRight(o: Stages, found: nat, rounds: nat, why: Termination) {
    var cap := if o.maxFindings < 1 then 1 else o.maxFindings;
    && found <= cap && 1 <= rounds <= 2 * cap
    && (why == ByCap <==> found == cap)
    && (why == ByCap ==> !Missed(o, rounds))
    && (why == ByConvergence ==> rounds >= 2 && Missed(o, rounds) && Missed(o, rounds - 1))
    && (forall q: nat :: 2 <= q < rounds && Missed(o, q) ==> !Missed(o, q - 1))
  }

  /** The chain is made of exactly the rounds that did not miss, in order, each with its own answers. */
  ghost predicate ChainSays(o: Stages, chain: seq<Accepted>, rounds: nat) {
    && (forall k :: 0 <= k < |chain| ==> 1 <= chain[k].round <= rounds && Faithful(o, chain[k]))
    && InRoundOrder(chain)
    && (forall q: nat :: 1 <= q <= rounds ==> (!Missed(o, q) <==> InChain(chain, q)))
  }

  ghost predicate InChain(chain: seq<Accepted>, q: nat) {
    exists k :: 0 <= k < |chain| && chain[k].round == q
  }

  /** `told` lists the findings accepted before round `q`. */
  ghost predicate AcceptedBefore(chain: seq<Accepted>, q: nat, told: seq<Answer>) {
    && |told| <= |chain|
    && (forall k :: 0 <= k < |told| ==> chain[k].round < q && told[k] == chain[k].analyzer)
    && (forall k :: |told| <= k < |chain| ==> chain[k].round >= q)
  }

  /** When a call is made within the unit: by round, the analyzer first and the exploiter last. */
  function Moment(c: Call): nat {
    match c
    case AskAnalyzer(q, _) => 3 * q
    case AskValidator(q) => 3 * q + 1
    case AskExploiter(q) => 3 * q + 2
  }

  /** Why a call is made: the analyzer is asked to leave out what was accepted before, the validator
      about a round that did not miss, the exploiter unless it is disabled or the verdict is False
      Positive. */
  ghost predicate CallRight(o: Stages, chain: seq<Accepted>, c: Call) {
    match c
    case AskAnalyzer(q, told) => AcceptedBefore(chain, q, told)
    case AskValidator(q) => !Missed(o, q)
    case AskExploiter(q) => !Missed(o, q) && o.validator(q) != FalsePositive && o.exploiterReplication != 0
  }

  /** Every call of round `q` that should be made is made. */
  ghost predicate AllAsked(o: Stages, calls: seq<Call>, q: nat) {
    && (exists k :: 0 <= k < |calls| && calls[k].AskAnalyzer? && calls[k].round == q)
    && (!Missed(o, q) ==> AskValidator(q) in calls)
    && (!Missed(o, q) && o.validator(q) != FalsePositive && o.exploiterReplication != 0 ==> AskExploiter(q) in calls)
  }

  /** Call `k` comes after the one before it. */
  ghost predicate ComesLater(calls: seq<Call>, k: nat) {
    0 < k < |calls| ==> Moment(calls[k - 1]) < Moment(calls[k])
  }

  /** The stage calls: the right ones, each once, in order. */
  ghost predicate CallsSay(o: Stages, chain: seq<Accepted>, calls: seq<Call>, rounds: nat) {
    && (forall k: nat :: ComesLater(calls, k))
    && (forall c :: c in calls ==> 1 <= c.round <= rounds && CallRight(o, chain, c))
    && (forall q: nat :: 1 <= q <= rounds ==> AllAsked(o, calls, q))
  }

  /** The body of the loop. */
  method OneRound(o: Stages, r: nat, chain0: seq<Accepted>, misses0: nat, calls0: seq<Call>)
    returns (chain: seq<Accepted>, misses: nat, calls: seq<Call>)
    ensures Progress(chain, misses, calls) == Round(o, Progress(chain0, misses0, calls0), r)
  {
    var a := o.analyzer(r);
    chain, calls := chain0, calls0 + [AskAnalyzer(r, Excluded(chain0))];
    if !a.isCandidate || MatchesAnyExcluded(o, a, chain) {
      misses := misses0 + 1;
      return;
    }
    var v := o.validator(r);
    calls := calls + [AskValidator(r)];
    misses := 0;
    if v == FalsePositive {
      chain := chain + [Accepted(r, a, Skipped, v)];
      return;
    }
    var e := Skipped;
    if o.exploiterReplication != 0 {
      e := o.exploiter(r);
      calls := calls + [AskExploiter(r)];
    }
    if e == NotExploitable && v == Valid {
      v := PartialValid;
    }
    chain := chain + [Accepted(r, a, e, v)];
  }

  /** The rounds, until the cap is reached or two in a row missed. */
  method RunRounds(o: Stages) returns (chain: seq<Accepted>, calls: seq<Call>, rounds: nat)
    ensures Runs(o, rounds) && Stops(o, After(o, rounds))
    ensures chain == After(o, rounds).accepted && calls == After(o, rounds).calls
  {
    chain, calls, rounds := [], [], 0;
    var misses := 0;
    while |chain| < o.Cap() && misses < 2
      invariant Progress(chain, misses, calls) == After(o, rounds) && Runs(o, rounds)
      decreases 2 * o.Cap() - rounds
    {
      LoopTerminates(o, rounds);
      rounds := rounds + 1;
      chain, misses, calls := OneRound(o, rounds, chain, misses, calls);
    }
  }

  /** The whole unit: when and why the loop stops, what it accepts, what it asks and the label, each
      from the answers and the settings alone. */
  method ProcessUnitSingle(o: Stages)
    returns (chain: seq<Accepted>, calls: seq<Call>, rounds: nat, why: Termination, checkpoint: Checkpoint)
    ensures Runs(o, rounds) && Stops(o, After(o, rounds))
    ensures chain == After(o, rounds).accepted && calls == After(o, rounds).calls
    ensures StoppedRight(o, |chain|, rounds, why)
    ensures ChainSays(o, chain, rounds) && CallsSay(o, chain, calls, rounds)
    ensures MostSignificant(chain, checkpoint)
  {
    chain, calls, rounds := RunRounds(o);
    why := if |chain| >= o.Cap() then ByCap else ByConvergence;
    checkpoint := AggregateCheckpoint(chain);
    StopsRight(o, rounds);
    ChainIs(o, rounds);
    CallsAre(o, rounds);
  }

  // ------------------------------------------------------------------ what every run guarantees

  /** The loop's budget: rounds are at most twice the findings plus the current misses, and calls
      at most the rounds plus two per finding. */
  lemma {:induction false} Budget(o: Stages, r: nat)
    requires Runs(o, r)
    ensures var s, cap := After(o, r), if o.maxFindings < 1 then 1 else o.maxFindings;
      && r <= 2 * |s.accepted| + s.misses && s.misses <= 2 && |s.accepted| <= cap
      && (s.misses > 0 ==> |s.accepted| < cap)
      && |s.calls| <= r + 2 * |s.accepted|
  {
    if r > 0 {
      Budget(o, r - 1);
    }
  }

  /** The loop ends: no run gets past `2 * cap` rounds, and a finished one made at most `4 * cap`
      stage calls. */
  lemma LoopTerminates(o: Stages, r: nat)
    requires Runs(o, r)
    ensures var cap := if o.maxFindings < 1 then 1 else o.maxFindings;
      && r <= 2 * cap && |After(o, r).calls| <= 4 * cap
      && (r == 2 * cap ==> |After(o, r).accepted| == cap || After(o, r).misses == 2)
  {
    Budget(o, r);
  }

  ghost predicate DistinctKeys(o: Stages, chain: seq<Accepted>) {
    forall i, j :: 0 <= i < j < |chain| ==> !SameFinding(o, chain[i].analyzer, chain[j].analyzer)
  }

  /** An accepted entry records the answers of its own round, and says neither that a False Positive
      was exploited nor that a non-exploitable finding is Valid. */
  ghost predicate Faithful(o: Stages, e: Accepted) {
    && e.analyzer == o.analyzer(e.round) && e.analyzer.isCandidate
    && e.exploitation == (if o.validator(e.round) == FalsePositive || o.exploiterReplication == 0 then Skipped
                          else o.exploiter(e.round))
    && !(e.verdict == Valid && e.exploitation == NotExploitable)
    && (e.verdict == FalsePositive <==> o.validator(e.round) == FalsePositive)
    && (e.verdict == FalsePositive ==> e.exploitation == Skipped)
    && (e.verdict != o.validator(e.round) ==>
          e.verdict == PartialValid && o.validator(e.round) == Valid && e.exploitation == NotExploitable)
  }

  ghost predicate SoundAt(o: Stages, chain: seq<Accepted>, r: nat, k: nat) {
    k < |chain| ==> Faithful(o, chain[k]) && 1 <= chain[k].round <= r
  }

  /** The accepted findings are faithful, and all of the first `r` rounds. */
  ghost predicate Sound(o: Stages, chain: seq<Accepted>, r: nat) {
    forall k: nat :: SoundAt(o, chain, r, k)
  }

  ghost predicate InRoundOrder(chain: seq<Accepted>) {
    forall i, j :: 0 <= i < j < |chain| ==> chain[i].round < chain[j].round
  }

  lemma {:induction false} RoundsAreSound(o: Stages, r: nat)
    ensures Sound(o, After(o, r).accepted, r)
  {
    if r > 0 {
      RoundsAreSound(o, r - 1);
      StaysSound(o, After(o, r - 1), r);
    }
  }

  /** For every sequence of answers: accepted findings are pairwise distinct, and entries are faithful
      and in round order. */
  lemma {:induction false} ChainIsSound(o: Stages, r: nat)
    ensures DistinctKeys(o, After(o, r).accepted) && InRoundOrder(After(o, r).accepted)
    ensures forall k :: 0 <= k < |After(o, r).accepted| ==>
              Faithful(o, After(o, r).accepted[k]) && 1 <= After(o, r).accepted[k].round <= r
  {
    RoundsAreSound(o, r);
    forall k | 0 <= k < |After(o, r).accepted|
      ensures Faithful(o, After(o, r).accepted[k]) && 1 <= After(o, r).accepted[k].round <= r
    {
      assert SoundAt(o, After(o, r).accepted, r, k);
    }
    if r > 0 {
      ChainIsSound(o, r - 1);
      RoundsAreSound(o, r - 1);
      OrderStays(o, After(o, r - 1), r);
      KeysStayDistinct(o, After(o, r - 1), r);
    }
  }

  lemma StaysSound(o: Stages, s: Progress, r: nat)
    requires r >= 1 && Sound(o, s.accepted, r - 1)
    ensures Sound(o, Round(o, s, r).accepted, r)
  {
    var t := Round(o, s, r).accepted;
    if |t| > |s.accepted| {
      NewEntryFaithful(o, s, r);
    }
    forall k: nat ensures SoundAt(o, t, r, k) {
      assert SoundAt(o, s.accepted, r - 1, k);
    }
  }

  lemma OrderStays(o: Stages, s: Progress, r: nat)
    requires r >= 1 && Sound(o, s.accepted, r - 1) && InRoundOrder(s.accepted)
    ensures InRoundOrder(Round(o, s, r).accepted)
  {
    if |Round(o, s, r).accepted| > |s.accepted| {
      NewEntryFaithful(o, s, r);
      forall k | 0 <= k < |s.accepted| ensures s.accepted[k].round < r {
        assert SoundAt(o, s.accepted, r - 1, k);
      }
    }
  }

  lemma NewEntryFaithful(o: Stages, s: Progress, r: nat)
    requires |Round(o, s, r).accepted| > |s.accepted|
    ensures var t := Round(o, s, r).accepted;
      t[..|s.accepted|] == s.accepted && |t| == |s.accepted| + 1 && t[|s.accepted|].round == r
      && Faithful(o, t[|s.accepted|])
  {
  }

  lemma KeysStayDistinct(o: Stages, s: Progress, r: nat)
    requires DistinctKeys(o, s.accepted)
    ensures DistinctKeys(o, Round(o, s, r).accepted)
  {
    var a := o.analyzer(r);
    if a.isCandidate && !MatchesAnyExcluded(o, a, s.accepted) {
      forall i | 0 <= i < |s.accepted| ensures !SameFinding(o, s.accepted[i].analyzer, a) {
        assert s.accepted[i] in s.accepted;
      }
    }
  }

  /** If round `q` yields a candidate, it is in the chain, accepted in that round or before. */
  ghost predicate Known(o: Stages, chain: seq<Accepted>, q: nat) {
    o.analyzer(q).isCandidate ==>
      exists k :: 0 <= k < |chain| && chain[k].round <= q && SameFinding(o, chain[k].analyzer, o.analyzer(q))
  }

  ghost predicate Complete(o: Stages, chain: seq<Accepted>, r: nat) {
    forall q: nat :: 1 <= q <= r ==> Known(o, chain, q)
  }

  /** What the chain of the first `r` rounds is. */
  ghost predicate Fits(o: Stages, chain: seq<Accepted>, r: nat) {
    Sound(o, chain, r) && Complete(o, chain, r)
  }

  /** And complete: a round that yields a candidate has it accepted by then, so a candidate is left
      out only as a repetition. */
  lemma {:induction false} ChainIsComplete(o: Stages, r: nat)
    ensures Fits(o, After(o, r).accepted, r)
  {
    if r > 0 {
      ChainIsComplete(o, r - 1);
      StaysSound(o, After(o, r - 1), r);
      StaysComplete(o, After(o, r - 1), r);
    }
  }

  lemma StaysComplete(o: Stages, s: Progress, r: nat)
    requires r >= 1 && Sound(o, s.accepted, r - 1) && Complete(o, s.accepted, r - 1)
    ensures Complete(o, Round(o, s, r).accepted, r)
  {
    var t := Round(o, s, r);
    assert forall k :: 0 <= k < |s.accepted| ==> t.accepted[k] == s.accepted[k];
    forall q: nat | 1 <= q <= r ensures Known(o, t.accepted, q) {
      if q < r {
        assert Known(o, s.accepted, q);
      } else if !o.analyzer(r).isCandidate {
      } else if MatchesAnyExcluded(o, o.analyzer(r), s.accepted) {
        var k := Matched(o, o.analyzer(r), s.accepted);
        assert SoundAt(o, s.accepted, r - 1, k);
        assert t.accepted[k].round <= r;
      } else {
        assert t.accepted[|s.accepted|].round == r;
      }
    }
  }

  lemma Matched(o: Stages, a: Answer, chain: seq<Accepted>) returns (k: nat)
    requires MatchesAnyExcluded(o, a, chain)
    ensures k < |chain| && SameFinding(o, chain[k].analyzer, a)
  {
    var e :| e in chain && o.Key(e.analyzer) == o.Key(a);
    k :| 0 <= k < |chain| && chain[k] == e;
  }

  // ------------------------------------------------------------------ the run, from the answers alone

  lemma MatchesOne(o: Stages, a: Answer, chain: seq<Accepted>, k: nat)
    requires k < |chain| && SameFinding(o, chain[k].analyzer, a)
    ensures MatchesAnyExcluded(o, a, chain)
  {
    assert chain[k] in chain && o.Key(chain[k].analyzer) == o.Key(a);
  }

  /** Matching an accepted finding is repeating the candidate of an earlier round. */
  lemma MatchesIff(o: Stages, chain: seq<Accepted>, r: nat)
    requires r >= 1 && Fits(o, chain, r - 1)
    ensures MatchesAnyExcluded(o, o.analyzer(r), chain) <==> Repeats(o, r)
  {
    if MatchesAnyExcluded(o, o.analyzer(r), chain) {
      var k := Matched(o, o.analyzer(r), chain);
      var p := chain[k].round;
      assert SoundAt(o, chain, r - 1, k);
      assert o.analyzer(p).isCandidate && SameFinding(o, o.analyzer(p), o.analyzer(r));
    }
    if Repeats(o, r) {
      var p: nat :| 1 <= p < r && o.analyzer(p).isCandidate && SameFinding(o, o.analyzer(p), o.analyzer(r));
      assert Known(o, chain, p);
      var k :| 0 <= k < |chain| && chain[k].round <= p && SameFinding(o, chain[k].analyzer, o.analyzer(p));
      MatchesOne(o, o.analyzer(r), chain, k);
    }
  }

  lemma MissedFrom(o: Stages, chain: seq<Accepted>, r: nat)
    requires r >= 1 && Fits(o, chain, r - 1)
    ensures Missed(o, r) <==> !o.analyzer(r).isCandidate || MatchesAnyExcluded(o, o.analyzer(r), chain)
  {
    MatchesIff(o, chain, r);
  }

  lemma MissedIs(o: Stages, r: nat)
    requires r >= 1
    ensures Missed(o, r) <==>
      !o.analyzer(r).isCandidate || MatchesAnyExcluded(o, o.analyzer(r), After(o, r - 1).accepted)
  {
    ChainIsComplete(o, r - 1);
    MissedFrom(o, After(o, r - 1).accepted, r);
  }

  /** An entry of round `r` joins the chain, unless the round missed. */
  ghost predicate Extends(s: seq<Accepted>, t: seq<Accepted>, r: nat, missed: bool) {
    if missed then t == s else |t| == |s| + 1 && t[..|s|] == s && t[|s|].round == r
  }

  /** A round adds an entry exactly if it does not miss, and counts its misses since the last one. */
  lemma RoundIs(o: Stages, r: nat)
    requires r >= 1
    ensures Extends(After(o, r - 1).accepted, After(o, r).accepted, r, Missed(o, r))
    ensures After(o, r).misses == if Missed(o, r) then After(o, r - 1).misses + 1 else 0
  {
    MissedIs(o, r);
  }

  /** The misses counted are those of the rounds just before. */
  lemma {:induction false} MissesAre(o: Stages, r: nat)
    requires Runs(o, r)
    ensures var s := After(o, r);
      && s.misses <= 2 && (s.misses == 0 && r >= 1 ==> !Missed(o, r))
      && (s.misses >= 1 ==> r >= 1 && Missed(o, r))
      && (s.misses == 1 && r >= 2 ==> !Missed(o, r - 1))
      && (s.misses == 2 ==> r >= 2 && Missed(o, r - 1))
    ensures forall q: nat :: 2 <= q < r && Missed(o, q) ==> !Missed(o, q - 1)
  {
    if r >= 1 {
      MissesAre(o, r - 1);
      RoundIs(o, r);
      assert !Stops(o, After(o, r - 1));
    }
  }

  lemma StopsRight(o: Stages, r: nat)
    requires Runs(o, r) && Stops(o, After(o, r))
    ensures StoppedRight(o, |After(o, r).accepted|, r,
                         if |After(o, r).accepted| >= o.Cap() then ByCap else ByConvergence)
  {
    Budget(o, r);
    MissesAre(o, r);
  }

  /** All entries so far are of earlier rounds than `r`. */
  ghost predicate Below(chain: seq<Accepted>, r: nat) {
    forall k :: 0 <= k < |chain| ==> chain[k].round < r
  }

  /** What round `r` asks, from whether it misses. */
  ghost function AskedIn(o: Stages, chain: seq<Accepted>, r: nat): seq<Call> {
    [AskAnalyzer(r, Excluded(chain))] +
    if Missed(o, r) then []
    else if o.validator(r) == FalsePositive || o.exploiterReplication == 0 then [AskValidator(r)]
    else [AskValidator(r), AskExploiter(r)]
  }

  lemma RoundAsksIn(o: Stages, r: nat)
    requires r >= 1
    ensures After(o, r).calls == After(o, r - 1).calls + AskedIn(o, After(o, r - 1).accepted, r)
  {
    MissedIs(o, r);
  }

  /** The states round by round. */
  ghost predicate GrewAt(o: Stages, h: seq<Progress>, i: nat) {
    0 < i < |h| ==>
      && Extends(h[i - 1].accepted, h[i].accepted, i, Missed(o, i))
      && h[i].calls == h[i - 1].calls + AskedIn(o, h[i - 1].accepted, i)
  }

  lemma {:induction false} History(o: Stages, r: nat) returns (h: seq<Progress>)
    ensures |h| == r + 1 && h[0] == Progress([], 0, []) && h[r] == After(o, r)
    ensures forall i: nat :: GrewAt(o, h, i)
  {
    if r == 0 {
      h := [Progress([], 0, [])];
    } else {
      var before := History(o, r - 1);
      h := before + [After(o, r)];
      RoundIs(o, r);
      RoundAsksIn(o, r);
      forall i: nat ensures GrewAt(o, h, i) {
        assert GrewAt(o, before, i);
      }
    }
  }

  lemma {:induction false} HistoryAccepts(o: Stages, h: seq<Progress>, r: nat, q: nat)
    requires r < |h| && h[0] == Progress([], 0, []) && forall i: nat :: GrewAt(o, h, i)
    ensures Below(h[r].accepted, r + 1) && (1 <= q <= r ==> (!Missed(o, q) <==> InChain(h[r].accepted, q)))
  {
    if r > 0 {
      HistoryAccepts(o, h, r - 1, q);
      assert GrewAt(o, h, r);
      if q <= r {
        InChainNext(h[r - 1].accepted, h[r].accepted, r, q, Missed(o, r));
      }
    }
  }

  lemma InChainNext(s: seq<Accepted>, t: seq<Accepted>, r: nat, q: nat, missed: bool)
    requires q <= r && Below(s, r) && Extends(s, t, r, missed)
    ensures q < r ==> (InChain(s, q) <==> InChain(t, q))
    ensures q == r ==> (InChain(t, q) <==> !missed)
  {
    assert forall k :: 0 <= k < |s| ==> t[k] == s[k];
    if !missed {
      assert t[|s|].round == r;
    }
    if k :| 0 <= k < |s| && s[k].round == q {
      assert t[k].round == q;
    }
  }

  lemma ChainIs(o: Stages, r: nat)
    ensures ChainSays(o, After(o, r).accepted, r)
  {
    ChainIsSound(o, r);
    var h := History(o, r);
    forall q: nat | 1 <= q <= r ensures !Missed(o, q) <==> InChain(h[r].accepted, q) {
      HistoryAccepts(o, h, r, q);
    }
  }

  /** What was told before stays right when an entry of a later round joins the chain. */
  lemma RightStays(o: Stages, s: seq<Accepted>, t: seq<Accepted>, c: Call, r: nat)
    requires c.round <= r && CallRight(o, s, c)
    requires Extends(s, t, r, Missed(o, r))
    ensures CallRight(o, t, c)
  {
    assert forall k :: 0 <= k < |s| ==> t[k] == s[k];
  }

  lemma CallsAdded(o: Stages, s: seq<Accepted>, t: seq<Accepted>, calls: seq<Call>, r: nat)
    requires r >= 1 && CallsSay(o, s, calls, r - 1)
    requires Below(s, r) && Extends(s, t, r, Missed(o, r))
    ensures CallsSay(o, t, calls + AskedIn(o, s, r), r)
  {
    OrderAdded(o, s, calls, r);
    RightAdded(o, s, t, calls, r);
    forall q: nat | 1 <= q <= r ensures AllAsked(o, calls + AskedIn(o, s, r), q) {
      if q < r {
        AskedStays(o, calls, AskedIn(o, s, r), q);
      } else {
        AskedNow(o, s, calls, r);
      }
    }
  }

  lemma OrderAdded(o: Stages, s: seq<Accepted>, calls: seq<Call>, r: nat)
    requires r >= 1 && CallsSay(o, s, calls, r - 1)
    ensures forall k: nat :: ComesLater(calls + AskedIn(o, s, r), k)
  {
    forall k: nat ensures ComesLater(calls + AskedIn(o, s, r), k) {
      assert ComesLater(calls, k);
      if k == |calls| > 0 {
        assert calls[k - 1] in calls;
      }
    }
  }

  lemma RightAdded(o: Stages, s: seq<Accepted>, t: seq<Accepted>, calls: seq<Call>, r: nat)
    requires r >= 1 && CallsSay(o, s, calls, r - 1)
    requires Below(s, r) && Extends(s, t, r, Missed(o, r))
    ensures forall c :: c in calls + AskedIn(o, s, r) ==> 1 <= c.round <= r && CallRight(o, t, c)
  {
    var added := AskedIn(o, s, r);
    assert CallRight(o, s, added[0]);
    forall c | c in calls + added ensures 1 <= c.round <= r && CallRight(o, t, c) {
      if c in calls || c == added[0] {
        RightStays(o, s, t, c, r);
      }
    }
  }

  lemma AskedNow(o: Stages, s: seq<Accepted>, calls: seq<Call>, r: nat)
    ensures AllAsked(o, calls + AskedIn(o, s, r), r)
  {
    assert (calls + AskedIn(o, s, r))[|calls|] == AskAnalyzer(r, Excluded(s));
  }

  lemma AskedStays(o: Stages, calls: seq<Call>, added: seq<Call>, q: nat)
    requires AllAsked(o, calls, q)
    ensures AllAsked(o, calls + added, q)
  {
    var k :| 0 <= k < |calls| && calls[k].AskAnalyzer? && calls[k].round == q;
    assert (calls + added)[k] == calls[k];
  }

  lemma {:induction false} HistoryCalls(o: Stages, h: seq<Progress>, r: nat)
    requires r < |h| && h[0] == Progress([], 0, []) && forall i: nat :: GrewAt(o, h, i)
    ensures CallsSay(o, h[r].accepted, h[r].calls, r)
  {
    if r > 0 {
      HistoryCalls(o, h, r - 1);
      HistoryAccepts(o, h, r - 1, 0);
      assert GrewAt(o, h, r);
      CallsAdded(o, h[r - 1].accepted, h[r].accepted, h[r - 1].calls, r);
    }
  }

  lemma CallsAre(o: Stages, r: nat)
    ensures CallsSay(o, After(o, r).accepted, After(o, r).calls, r)
  {
    var h := History(o, r);
    HistoryCalls(o, h, r);
  }

  /** The exploiter is asked about exactly the accepted findings whose verdict calls for it, so never
      about a False Positive. */
  lemma ExploiterAskedIff(o: Stages, r: nat, q: nat)
    ensures AskExploiter(q) in After(o, r).calls <==>
      o.validator(q) != FalsePositive && o.exploiterReplication != 0 && InChain(After(o, r).accepted, q)
  {
    var h := History(o, r);
    HistoryCalls(o, h, r);
    HistoryAccepts(o, h, r, q);
    HistoryPositive(o, h, r);
    if 1 <= q <= r {
      assert AllAsked(o, h[r].calls, q);
    }
  }

  lemma {:induction false} HistoryPositive(o: Stages, h: seq<Progress>, r: nat)
    requires r < |h| && h[0] == Progress([], 0, []) && forall i: nat :: GrewAt(o, h, i)
    ensures forall k :: 0 <= k < |h[r].accepted| ==> 1 <= h[r].accepted[k].round <= r
  {
    if r > 0 {
      HistoryPositive(o, h, r - 1);
      assert GrewAt(o, h, r);
      RoundsOf(h[r - 1].accepted, h[r].accepted, r, Missed(o, r));
    }
  }

  lemma RoundsOf(s: seq<Accepted>, t: seq<Accepted>, r: nat, missed: bool)
    requires r >= 1 && Extends(s, t, r, missed) && forall k :: 0 <= k < |s| ==> 1 <= s[k].round < r
    ensures forall k :: 0 <= k < |t| ==> 1 <= t[k].round <= r
  {
    assert forall k :: 0 <= k < |s| ==> t[k] == s[k];
  }

  /** Each analyzer call leaves out exactly the findings accepted in earlier rounds, in order. */
  lemma ExclusionsAreAccepted(o: Stages, r: nat, q: nat, told: seq<Answer>)
    requires AskAnalyzer(q, told) in After(o, r).calls
    ensures 1 <= q <= r && AcceptedBefore(After(o, r).accepted, q, told)
  {
    var h := History(o, r);
    HistoryCalls(o, h, r);
    assert CallRight(o, h[r].accepted, AskAnalyzer(q, told));
  }
}
