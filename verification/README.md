# A verified model of the xauditor audit core

xauditor audits call paths of a program with a chain of LLM agents. This project models the parts of it whose
correctness depends on more than one function, in Dafny, and proves what they promise. `dafny verify dfyconfig.toml`
checks all of it.

| module | models |
|---|---|
| `JsonLexer`, `JsonRepair` | `_repair_json_typos`: the one-pass comma repair, for every text at all |
| `JsonGrammar`, `JsonDamage` | JSON texts (RFC 8259 sections 2 to 7) as concrete syntax trees, a strict parser for `json.loads`, and what an LLM does to commas |
| `JsonLiterals` | the numbers and words of JSON by their parts |
| `JsonValues` | what the value of a JSON text keeps of its spelling |
| `JsonContract` | what stripping, unfencing, the balanced object and the value spelled are, as relations on texts |
| `JsonExtract`, `JsonRecovery` | `_extract_json_object` and the extract / parse / repair / parse cascade of `parse_coder_response` |
| `PathModel`, `WorkerPool` | `LocalSubprocessPool`: request queue, claim and result messages, monitor thread, worker deaths |
| `PoolQueue` | the pool's request queue over whole runs, with shutdown |
| `PoolSafety` | the pool with the monitor's tick taken apart into single checks and the fallback, at any moment |
| `LateScan` | when a check, a fallback or a whole late tick is still right, and what an untimely one costs |
| `AuditLoop`, `AuditEngine` | the sliding window of `AuditWorkflow.run` over `InlineExecutor` and over that pool, with resume |
| `ResumedRuns` | what a resumed run executes and records, against the run it resumes and the uninterrupted one |
| `PathStream` | `PathStreamer`, `EagerPathStreamer` and `plan_audit_paths` |
| `StreamedAudit` | the audit loop fed by the stream while both run |
| `CoderDispatch`, `CoderVerdicts` | `CoderDispatcher`, the stream callback, the drain and the cancel handler |
| `AnalyzerLoop`, `DedupPipeline`, `CircuitBreaking` | `_process_unit_single`, `_dedup_pipeline`, `CircuitBreaker` |

Scanners, loops and stateful objects are methods and classes in the form the program has them, proved equal to
functions on values; concurrent parts are transition systems over those functions (`LateNext`, `EngineStep`, `JointStep`),
and the results about them hold in every reachable state of every interleaving. LLM answers are arbitrary functions of
the round, of the path or of the pair judged. Locks make their critical section one step, timeouts are nondeterministic
steps, and the clock is any sequence of readings that does not go back unless a result says it may.

## Where code and documentation part ways

The model follows the code.

- `worker_pool.py:86-88` promises that a crashed path is recorded with a failure block. The aggregator
  (`workflow.py:644-738`) has no branch for that outcome and the result carries an empty fingerprint, so the path
  leaves no checkpoint, no shared state and no failure mark: `AuditEngine.FinishedRunRecords` for every finished run,
  and `AuditEngine.CrashedPathIsLost` for one in which it happens.
- `coder.py:328` calls the repair idempotent on well-formed JSON. There it is the identity. On other texts it is
  idempotent exactly when no out-of-string comma is followed by a second one that is itself trailing:
  `JsonRepair.RepairIdempotentIff`, with the family `,,}` as the counterexample.
- `coder.py:398-402` promises to get past a Markdown fence before the object. If the preamble opens a fence and its line does
  not end before the object, everything up to the next newline is dropped, and the object with it:
  `JsonRecovery.ExtractsForEveryPostscriptIff` gives the exact condition on the preamble. With no later newline at all
  nothing is lost, which `JsonRecovery.Recovery` covers.
- `worker_pool.py:610-615` describes liveness scan and fallback as parts of an empty-queue tick, but messages and deaths
  may come between the timeout, each worker's check and the fallback. Checking a newly dead worker is then right if and
  only if draining the queue first would not change what `_claims` says of it (`LateScan.ScanOneRightIff`). A
  whole late tick is right if and only if that holds of every newly dead worker while some worker lives, and no result
  is queued once none does (`LateScan.LateTickRightIff`). It goes wrong in three ways: a finished path is charged to a
  worker that reported and left (`LateScan.LateScanMisroutes`); a claim that arrives late finds its worker already dealt
  with, and the path stays open in every continuation in which some worker still lives (`LateScan.LateScanMissesClaim`,
  `LateScan.UntimelyMisses`, `LateScan.MissedStaysOpen`); the fallback crashes a path whose result is queued
  (`LateScan.LateFallbackMisroutes`). The crash-routing results of `WorkerPool` take the tick as one step; `LateScan.LateRunKeeps` takes it apart and asks of each check only that it is timely. Whatever is untimely,
  no future is resolved twice and each holds its path's own result or a crash (`PoolSafety.ResolvedForGood`), and the
  results about what the engine records rest on no more than that.
- A resumed run persists snapshots of its own shared state only. It still has its snapshot's entries if and only if the
  stream has already yielded every path carried over (`AuditEngine.SnapshotKeptIff`); before that, recorded paths are
  forgotten, also after real work (`AuditEngine.EarlyInterruptForgets`). The final state is not affected
  (`AuditEngine.ResumeEquivalence`); the work is done again.
- `docs/audit-parallelism.md:70-73` and `84-86` promise that a resume re-runs failed and skipped paths. It never does:
  their entries in the shared state are non-empty (`workflow.py:716-733`), so `workflow.py:589-614` carries them over.
  `ResumedRuns.ReRunIff` says exactly which paths a resumed run executes: those not reaped, cancelled, crashed, or
  completed with an empty state. A carried path's mark as failed or skipped is lost and its checkpoint reads what its
  entry names, or `resumed` (`ResumedRuns.ResumedPath`). So shared state, checkpoints, failed and skipped paths together
  equal the uninterrupted run's if and only if every carried path completed under that very label
  (`ResumedRuns.ResumedStateIff`). `ResumedRuns.FailedPathIsNotRerun` is a run that ends without its failure.
- `_drain_coder_results` (`workflow.py:2189-2200`) untracks a finding before it writes the verdict. An interrupt between
  the two leaves the finding pending for good (`CoderVerdicts.TornDrainLeavesPending`); nothing is left pending after
  cancellation if and only if that did not happen (`CoderVerdicts.NonePendingIff`).
- The "response is not a JSON object" error of `coder.py:566-576` is unreachable: `JsonRecovery.ParseCoderResponse`.

## Model

| member | source | states |
|---|---|---|
| JsonRepair.PeekFrom | src/xauditor/audit/coder.py:354-358 | the peek loop stops at the next visible character, so it tells whether an opener or a closer follows |
| JsonRepair.RepairJsonTypos | src/xauditor/audit/coder.py:335-383 | the cursor-and-flags scanner computes, on every text, the pass the laws below are about |
| JsonRepair.RepairMovesOnlyCommas | src/xauditor/audit/coder.py:325-328 | for every text: erasing out-of-string commas from input and output gives equal texts, with the same in-string state at every kept character and at the end |
| JsonRepair.RepairFixpoints | src/xauditor/audit/coder.py:328-332 | repair leaves a text alone if and only if it has no trailing comma before a closer and no string or closer directly followed by an opener |
| JsonRepair.PeekAfterRepair | src/xauditor/audit/coder.py:340-382 | what is visible next after repair, in terms of what was visible next before it |
| JsonRepair.RepairIdempotentIff | src/xauditor/audit/coder.py:340-383 | a second pass changes nothing if and only if no comma is followed by a second, itself trailing, comma |
| JsonRepair.RepairNotIdempotent | src/xauditor/audit/coder.py:367-374 | on `,,]` and `,,}` a second pass does change the text |
| JsonRepair.RepairIdempotentWithoutCommaRuns | src/xauditor/audit/coder.py:340-383 | on a text with no out-of-string comma followed by a comma a second pass changes nothing |
| JsonGrammar.ParseValueOf | src/xauditor/audit/coder.py:538-539 | parsing the spelling of any well-formed tree returns that tree and leaves what follows |
| JsonGrammar.LoadsIff | src/xauditor/audit/coder.py:538-539 | strict parsing yields `v` if and only if the text is a spelling, in any whitespace, of a well-formed tree with value `v` |
| JsonLiterals.NumberIff | src/xauditor/audit/coder.py:538-539 | the parser's number test accepts exactly an optional minus, a whole part without needless zeros, an optional fraction and an optional exponent |
| JsonLiterals.LiteralIff | src/xauditor/audit/coder.py:538-539 | a bare literal is a number or one of `true`, `false`, `null`, `NaN`, `Infinity` and `-Infinity` |
| JsonValues.SameValueIff | src/xauditor/audit/coder.py:538-539 | two JSON texts have the same value if and only if they are the same but for whitespace outside strings, so no member, element, name or literal is lost in a value |
| JsonValues.ItemValue | src/xauditor/audit/coder.py:538-539 | the k-th member of an object value has the k-th item's name and value, the k-th element of an array value its value |
| JsonDamage.MendRestores | src/xauditor/audit/coder.py:312-323 | putting missing commas in and taking trailing ones out of a damaged tree restores its value and well-formedness |
| JsonDamage.RepairDamaged | src/xauditor/audit/coder.py:335-383 | the character-level pass over a damaged spelling writes exactly the spelling of the mended tree |
| JsonDamage.RepairIdentityOnWellFormed | src/xauditor/audit/coder.py:328-332 | repair is the identity on every well-formed JSON text with arbitrary whitespace and escapes |
| JsonDamage.RepairIdentityOnAccepted | src/xauditor/audit/coder.py:330-332 | repair is the identity on everything strict parsing accepts |
| JsonExtract.BraceWalk | src/xauditor/audit/coder.py:430-453 | the loop returns the text from the first brace up to where the walk ends, or nothing |
| JsonExtract.ExtractJsonObject | src/xauditor/audit/coder.py:410-453 | the whole extraction computes the function characterised by `ExtractExact` |
| JsonExtract.WalkFinds | src/xauditor/audit/coder.py:433-453 | the walk ends at the first prefix that brings the structural depth to zero, or there is none |
| JsonExtract.ExtractExact | src/xauditor/audit/coder.py:398-407 | sound, minimal and complete: `x` is returned if and only if it is the balanced run starting at the first brace of the unfenced text; nothing if and only if there is no such run |
| JsonExtract.ExtractIdempotent | src/xauditor/audit/coder.py:410-453 | extracting from an extracted object returns it unchanged |
| JsonExtract.WalkAfterRepair | src/xauditor/audit/coder.py:335-383 | a complete object is still complete, to its last character, after repair |
| JsonExtract.RepairedExtractsToItself | src/xauditor/audit/coder.py:526-544 | for every input, the repaired form of what was extracted extracts to itself |
| JsonRecovery.ParseCoderResponse | src/xauditor/audit/coder.py:501-576 | main result: the cascade of early returns answers `v` if and only if the exit code is 0, the output holds a balanced object, and that object or, when it is no JSON, its repair spells `v`; and each error exactly in its own case: exit code not 0, nothing but whitespace, no balanced object, no JSON before and after repair. The error that the parsed value is no object never occurs |
| JsonContract.StripOnly | src/xauditor/audit/coder.py:410-412 | a text without outer whitespace that differs from the input by whitespace around it is what stripping gives |
| JsonContract.UnfenceOnly | src/xauditor/audit/coder.py:412-422 | being the text between the fences, said by positions alone, decides what is scanned for the object |
| JsonContract.HoldsOnly | src/xauditor/audit/coder.py:398-454 | holding an object, said by positions and structural depth alone, decides what is extracted |
| JsonContract.SpellsOnly | src/xauditor/audit/coder.py:538-539 | spelling a value, said by trees and whitespace, is strict parsing yielding it |
| JsonRecovery.FallbackEqualsAlways | src/xauditor/audit/coder.py:538-547 | repairing only after a failed strict parse gives what always repairing would give |
| JsonRecovery.WalkTree | src/xauditor/audit/coder.py:433-453 | the brace walk crosses the spelling of any tree, damaged or not, and is at its old depth behind it |
| JsonRecovery.ExtractAround | src/xauditor/audit/coder.py:398-454 | any object spelling, commas damaged or not, is extracted whole from between a preamble without opening braces and any postscript, unless the preamble opens a fence line that ends only behind the object's start |
| JsonRecovery.Recovery | src/xauditor/audit/coder.py:312-323 | main result: any JSON object, in any spelling, with any commas lost between quotes or closers and quotes or openers and up to one trailing comma per closer, inside any such preamble and postscript, is recovered exactly by the cascade |
| JsonRecovery.RecoveryOfText | src/xauditor/audit/coder.py:526-547 | any text strict parsing accepts as an object survives wrapping unchanged in value |
| JsonRecovery.OpenFenceLineLoses | src/xauditor/audit/coder.py:412-416 | with a fence line still open at the object, a postscript exists with which the object is lost |
| JsonRecovery.ExtractsForEveryPostscriptIff | src/xauditor/audit/coder.py:410-422 | extraction survives every postscript if and only if the preamble leaves no fence line open |
| WorkerPool.NextKeeps | src/xauditor/audit/worker_pool.py:340-388 | every submission, worker step, death, message and monitor tick keeps conservation, the exact future table, the claim lag and the provenance of results |
| WorkerPool.RunKeeps | src/xauditor/audit/worker_pool.py:593-662 | in every reachable state each submitted index is in exactly one place, `_futures` holds exactly the unresolved ones, and replaying the queued messages over `_claims` gives the true worker-to-path table |
| WorkerPool.ClaimTableBounds | src/xauditor/audit/worker_pool.py:311-315 | no two workers hold the same claimed path, and neither claim table exceeds the worker count |
| WorkerPool.ResolvedOnce | src/xauditor/audit/worker_pool.py:650-662 | no step changes a future that is already resolved |
| WorkerPool.ScanExact | src/xauditor/audit/worker_pool.py:679-709 | a liveness scan resolves as crashed exactly the paths claimed by a dead worker, and nothing else |
| WorkerPool.TickRoutesOrphans | src/xauditor/audit/worker_pool.py:671-709 | a tick resolves the unresolved path of every worker that died holding a claim as crashed, and remembers the worker |
| WorkerPool.TickSparesOthers | src/xauditor/audit/worker_pool.py:671-709 | while some worker lives a tick resolves nothing else, in particular no path a live worker holds |
| WorkerPool.SeenForever | src/xauditor/audit/worker_pool.py:677-684 | a remembered dead worker stays remembered in every later step and later scans do nothing for it |
| WorkerPool.TickWithAllDead | src/xauditor/audit/worker_pool.py:619-626 | a tick with every worker dead resolves every outstanding future |
| WorkerPool.CrashFreeIsInline | src/xauditor/audit/worker_pool.py:627-662 | with no worker dead every resolved future holds the path result made of its own index, its fingerprint and its own agents' verdict |
| PoolQueue.FirstComeFirstServed | src/xauditor/audit/worker_pool.py:338-350 | along any run requests leave the queue in the order they were put, and those not taken yet are still its front |
| PoolQueue.ShutdownReachesAll | src/xauditor/audit/worker_pool.py:541-551 | in any run after a shutdown a sentinel is queued for every worker still alive, deaths and late submissions included, so none is alive once the queue is empty |
| PoolSafety.TickIsSteps | src/xauditor/audit/worker_pool.py:616-626 | the tick as one step, late or not, is one of the runs of its parts |
| PoolSafety.ResolvedForGood | src/xauditor/audit/worker_pool.py:616-725 | with checks and fallback at any moment, no step changes a resolved future, `_futures` stays the unresolved ones, the dead stay dead, and a future holds its path's inline result or, some worker being dead, a crash |
| PoolSafety.BooksForGood | src/xauditor/audit/worker_pool.py:616-725 | along every such run, timely or not, a future holds at the end what it was first resolved with |
| LateScan.ClaimsAreOpen | src/xauditor/audit/worker_pool.py:633-662 | in every state a recorded claim is of an unresolved path and no path is recorded for two workers |
| LateScan.AgreesIff | src/xauditor/audit/worker_pool.py:633-656 | for a worker with a recorded claim, draining the queue would not change it if and only if no message of that worker is queued |
| LateScan.ScanOneRightIff | src/xauditor/audit/worker_pool.py:679-709 | main result: checking a newly dead worker at any moment keeps conservation and leaves no claimed path behind if and only if draining the queue first would not change its claim, and then keeps the whole invariant |
| LateScan.LateRunKeeps | src/xauditor/audit/worker_pool.py:616-626 | with the tick taken apart into single checks and the fallback at any moment, every run whose checks are timely keeps conservation, exact futures, claim lag and provenance |
| LateScan.ScanCharges | src/xauditor/audit/worker_pool.py:679-709 | a scan, whatever is queued, crashes exactly the recorded claims of newly dead workers |
| LateScan.LateTickRightIff | src/xauditor/audit/worker_pool.py:616-626 | main result: a late tick crashes only paths nobody can finish and resolves every dead worker's claimed path if and only if, with some worker alive, the queue agrees with every newly dead worker's claim and, with none, holds no result |
| LateScan.FallbackRightIff | src/xauditor/audit/worker_pool.py:711-725 | the fallback on its own crashes no finished path if and only if no result is queued |
| LateScan.UntimelyMisses | src/xauditor/audit/worker_pool.py:679-693 | checking a dead worker while its claim is still queued leaves its path open, marked as dealt with, and mentioned nowhere but in that claim |
| LateScan.MissedStaysOpen | src/xauditor/audit/worker_pool.py:682-684 | main result: from then on, at every interleaving and however late later checks are, the path is still open in every run at whose end some worker lives |
| LateScan.LateScanMisroutes | src/xauditor/audit/worker_pool.py:616-626 | a run in which a late check resolves a finished path as crashed |
| LateScan.LateScanMissesClaim | src/xauditor/audit/worker_pool.py:682-684 | a run in which a claim queued behind the check is never routed while a worker lives |
| LateScan.LateFallbackMisroutes | src/xauditor/audit/worker_pool.py:621-625 | a run in which the fallback resolves a path as crashed whose result is queued |
| WorkerPool.LocalSubprocessPool.constructor | src/xauditor/audit/worker_pool.py:440-508 | a new pool is in the initial state |
| WorkerPool.LocalSubprocessPool.SubmitPath | src/xauditor/audit/worker_pool.py:513-530 | the step on the object is the submission step of the transition system |
| WorkerPool.LocalSubprocessPool.HandleMessage | src/xauditor/audit/worker_pool.py:633-662 | handling one claim or result message is the receive step |
| WorkerPool.LocalSubprocessPool.CheckWorker | src/xauditor/audit/worker_pool.py:679-709 | the loop body for one worker is the one-worker scan |
| WorkerPool.LocalSubprocessPool.CheckDeadWorkers | src/xauditor/audit/worker_pool.py:671-709 | the loop over all workers is the whole scan |
| WorkerPool.LocalSubprocessPool.FailAllOutstanding | src/xauditor/audit/worker_pool.py:711-725 | every future left is resolved as crashed and both tables are emptied |
| WorkerPool.LocalSubprocessPool.OnEmptyQueue | src/xauditor/audit/worker_pool.py:619-626 | scan and all-dead fallback together are the tick, whether or not messages have come in since the timeout |
| AuditLoop.TopUp | src/xauditor/audit/workflow.py:579-621 | topping up keeps the window in plan order, carries resumed paths over, and ends with a drained plan or as many in flight as the batch size, at least one |
| AuditLoop.RunInline | src/xauditor/audit/workflow.py:623-753 | main result: on one worker the loop ends, whatever the window, in the state of running the paths one at a time, and that state is what the agents' verdicts on the plan say: path by path the shared state, checkpoint, failed and skipped marks of the path's own verdict, or of its prior entry if carried over; the findings are the candidates of the executed and completed paths in plan order, numbered from 1; nothing else is recorded |
| AuditLoop.SequentialSays | src/xauditor/audit/workflow.py:642-738 | running the paths one at a time records and reports exactly what the verdicts say, each finding at the place counted from the candidates before it |
| AuditLoop.YieldKeeps | src/xauditor/audit/workflow.py:579-621 | yielding keeps the window consecutive and the state equal to the sequential prefix plus the entries carried ahead |
| AuditLoop.ReapKeeps | src/xauditor/audit/workflow.py:638-745 | reaping the head keeps it too: results commute with later paths' carried entries |
| AuditLoop.FoldRecords | src/xauditor/audit/workflow.py:644-738 | every path is recorded in shared state, checkpoints, failed and skipped sets exactly as its outcome says, whatever came later; a carried path has its prior entry under the resumed label and neither mark; cancelled and crashed paths leave nothing |
| AuditLoop.FindingsByPath | src/xauditor/audit/workflow.py:661-705 | path by path in plan order the report grows by exactly the candidates of a completed path, numbered on |
| AuditLoop.LoopShape | src/xauditor/audit/workflow.py:665-738 | at every step the k-th finding has id k and checkpoints and shared state have the same keys |
| AuditEngine.EngineRunKeeps | src/xauditor/audit/workflow.py:568-621 | in every interleaving of loop, workers and single monitor checks, timely or not, the pool was given exactly the yielded paths not carried over, and the loop is the sequential prefix of what was reaped |
| AuditEngine.WindowAlways | src/xauditor/audit/workflow.py:568-577 | in flight is always a consecutive range of plan indices no longer than the batch size, at least one, with finding ids and key sets as above |
| AuditEngine.WindowDeterminism | src/xauditor/audit/workflow.py:568-574 | main result: a finished run with no worker dead ends, for every completion order, in exactly the state of the sequential run, which is what the agents' verdicts say path by path |
| AuditEngine.WindowWithCrashes | src/xauditor/audit/workflow.py:642-753 | with deaths, a finished run is the sequential run over results each of which is the inline one or a crash |
| AuditEngine.FinishedRunRecords | src/xauditor/audit/workflow.py:644-738 | a finished run records each path as its outcome says; a path resolved as crashed has no checkpoint, shared state or failure mark |
| AuditEngine.CrashedPathIsLost | src/xauditor/audit/workflow.py:642-738 | for every one-path run a finished run exists in which the worker died on the path and the report has no trace of it |
| AuditEngine.NoDeadlock | src/xauditor/audit/worker_pool.py:610-615 | with all workers alive and the run not done, somebody can take a step |
| AuditEngine.HealthyStepsAreBounded | src/xauditor/audit/workflow.py:623-753 | every such step decreases a natural number |
| AuditEngine.StartWeight | src/xauditor/audit/workflow.py:623-753 | that number starts at eight times the plan length |
| AuditEngine.HealthyRunsFinish | src/xauditor/audit/workflow.py:623-753 | main result: every run without deaths has at most `8 * plan length` steps, and one that cannot go on is done and in the state the agents' verdicts say |
| AuditEngine.SnapshotsPartOfTarget | src/xauditor/services.py:1160-1167 | after any history of interrupted and resumed runs, crashes included, the snapshot is part of the uninterrupted run's shared state |
| AuditEngine.CompleteIsTarget | src/xauditor/audit/workflow.py:589-621 | a complete sequential run resumed from any such snapshot ends with the full shared state |
| AuditEngine.ResumeEquivalence | src/xauditor/services.py:936-975 | main result: interrupting any number of times and resuming ends with the shared state of an uninterrupted run |
| AuditEngine.ResumeExecutesOnlyTheRest | src/xauditor/audit/workflow.py:589-621 | a resumed run submits a path if and only if it was yielded and the snapshot has no non-empty entry for it |
| AuditEngine.CarriedIffYielded | src/xauditor/audit/workflow.py:589-614 | at every moment of every run a path carried over is in the shared state, with its prior entry, if and only if it was yielded |
| AuditEngine.SnapshotKeptIff | src/xauditor/services.py:1160-1167 | main result: what a resumed run would persist has kept the entries of all carried paths if and only if all of them were yielded |
| AuditEngine.EarlyInterruptForgets | src/xauditor/services.py:1160-1167 | a resumed run with a window of one that has executed the first path would persist that path's state without the entry recorded for the second |
| StreamedAudit.TakeIsTopUp | src/xauditor/audit/workflow.py:579-621 | in a joint run, topping up with the unit the stream hands over is topping up from the eager plan |
| StreamedAudit.JointRunProjects | src/xauditor/audit/workflow.py:579-638 | main result: every interleaving of fetcher, master, workers and monitor is, up to stuttering, a run of the engine over `plan_audit_paths`'s plan and a run of the stream |
| StreamedAudit.ReapsWhenFull | src/xauditor/audit/workflow.py:579-638 | in every joint run the master waits for a result only with exactly as many paths in flight as the batch size, at least one, or once the stream has ended |
| StreamedAudit.StreamedRunIsPlanned | src/xauditor/audit/planner.py:266-307 | main result: a run fed by the concurrent stream and finished without deaths ends in the state the agents' verdicts on the eager plan say |
| StreamedAudit.JointNeverStuck | src/xauditor/audit/workflow.py:579-638 | until the stream has ended and the window is empty, somebody can make a healthy move |
| StreamedAudit.StreamedRunsFinish | src/xauditor/audit/workflow.py:579-638 | main result: every joint run without deaths is bounded, and one that cannot go on has yielded the whole plan and either met the source's error or ended in the sequential state |
| ResumedRuns.ReRunIff | src/xauditor/audit/workflow.py:589-621 | main result: a first run interrupted anywhere and resumed to the end executes a path again if and only if it had not been reaped or had left no non-empty entry, so never a failed or skipped one |
| ResumedRuns.ResumedPath | src/xauditor/audit/workflow.py:589-614 | a finished resumed run without deaths records a carried path under its entry with neither mark and the checkpoint its entry names, the checkpoint field before the status field and `resumed` without either; and every other path as the uninterrupted run does |
| ResumedRuns.FreshPath | src/xauditor/audit/workflow.py:642-738 | the uninterrupted run records every path as its own agents' verdict says |
| ResumedRuns.ResumedStateIff | src/xauditor/services.py:936-975 | main result: after any number of interruptions shared state, checkpoints, failed and skipped paths equal the uninterrupted run's if and only if every carried path completed under the label its entry gives back |
| ResumedRuns.FailedPathIsNotRerun | src/xauditor/audit/workflow.py:725-733 | a run whose path fails, and its finished resume, which executes nothing and reports no failure |
| PathStream.PlanAuditPaths | src/xauditor/audit/planner.py:298-307 | the loop with the seen-set computes the first occurrences |
| PathStream.FirstOccurrencesDistinct | src/xauditor/audit/planner.py:298-307 | no fingerprint twice, none lost, no record invented |
| PathStream.RunKeeps | src/xauditor/audit/streamer.py:148-193 | every interleaving of fetcher, consumer and close keeps the stream invariant |
| PathStream.StreamRefinesPlan | src/xauditor/audit/streamer.py:148-171 | before close: yielded, queued and in-hand units together are the deduplicated prefix read so far; the consumer has a prefix of the plan; the queue never exceeds the batch size |
| PathStream.ExhaustedSawPlan | src/xauditor/audit/streamer.py:79-97 | the consumer is told the end only after the whole plan, and by an error if and only if the source raised |
| PathStream.StreamNeverStuck | src/xauditor/audit/streamer.py:160-193 | before the sentinel is seen, the fetcher or the consumer can take a step other than a timed-out put |
| PathStream.StreamDelivers | src/xauditor/audit/streamer.py:148-193 | every run of such steps has at most five steps a record and three more, and one that cannot go on has given the consumer every unit and the right ending |
| PathStream.CloseStopsFetcher | src/xauditor/audit/streamer.py:110-120 | along any run after close the fetcher thread moves at most three times |
| PathStream.NothingAfterClose | src/xauditor/audit/streamer.py:101-120 | close throws away what is queued; in any run after it the consumer gets nothing more, and at most three items are ever queued again |
| PathStream.PathStreamer.Fetch | src/xauditor/audit/streamer.py:148-193 | one turn of the fetcher on the object is the fetch step |
| PathStream.PathStreamer.NextOrNone | src/xauditor/audit/streamer.py:79-97 | a unit is returned exactly when one was queued, and nothing ever after the sentinel |
| PathStream.PathStreamer.CloseStream | src/xauditor/audit/streamer.py:110-120 | close raises the flag and empties the queue |
| PathStream.EagerPathStreamer.NextOrNone | src/xauditor/audit/streamer.py:210-215 | the cursor yields the plan in order, and nothing exactly when all of it was yielded |
| CoderDispatch.NextKeeps | src/xauditor/audit/coder.py:1304-1407 | every step of submitters, executor, callbacks, polls, cancel and shutdown keeps the split of ids, submission order and own verdicts |
| CoderDispatch.ExactlyOnce | src/xauditor/audit/coder.py:1297-1301 | main result: in every reachable state each submitted id is in exactly one of delivered by callback, delivered by poll, cancelled, pending, exactly once, and a delivered verdict is the one its task is done with, or the transport error of a cancelled one; what was delivered or cancelled at an earlier moment still is |
| CoderDispatch.PollInSubmissionOrder | src/xauditor/audit/coder.py:1355-1382 | one poll returns exactly the pending tasks that are done or cancelled, in the order they were submitted, and keeps the others |
| CoderDispatch.CallbackOrPoll | src/xauditor/audit/coder.py:1297-1301 | whoever comes first handles a settled task, the other finds nothing, and a callback runs once |
| CoderDispatch.CancelOnlyQueued | src/xauditor/audit/coder.py:1392-1407 | cancelling takes exactly the pending tasks no thread has started, in submission order, and leaves the others pending with their futures as they were |
| CoderDispatch.ShutdownIsFinal | src/xauditor/audit/coder.py:1466-1479 | in any run, after a shutdown nothing is submitted any more and nothing is left to start |
| CoderDispatch.CoderDispatcher.SubmitTask | src/xauditor/audit/coder.py:1304-1316 | submission on the object is the submit step; it raises exactly when closed |
| CoderDispatch.CoderDispatcher.FireSettled | src/xauditor/audit/coder.py:1329-1346 | the done-callback is the fire step and hands on exactly what it logged |
| CoderDispatch.CoderDispatcher.PollCompleted | src/xauditor/audit/coder.py:1362-1382 | polling is the poll step and returns its results |
| CoderDispatch.CoderDispatcher.CancelPending | src/xauditor/audit/coder.py:1401-1407 | cancelling is the cancel step and returns the cancelled ids in order |
| CoderDispatch.Pick | src/xauditor/audit/coder.py:1363-1366 | the loop over the pending items splits them in order |
| CoderVerdicts.NextKeeps | src/xauditor/audit/workflow.py:683-705 | emitting, callbacks, interrupted drains and the steps of the cancel handler keep: `Pending` exactly while tracked or torn, and a task still in the dispatcher pending or, once marked, skipped |
| CoderVerdicts.VerdictsStay | src/xauditor/audit/workflow.py:2090-2119 | no step overwrites a verdict; once the cancel flag is set every status written is a clean skip and no finding appears |
| CoderVerdicts.VerdictIsOwn | src/xauditor/audit/workflow.py:2090-2231 | main result: in every reachable state a finding judged `v` had `v` delivered under its own id and its own future is done with `v`, or cancelled with `v` the transport error; until the cancel flag is set the converse holds too, and a finding is pending if and only if the dispatcher still holds its task |
| CoderVerdicts.CallbackStillDue | src/xauditor/audit/workflow.py:2090-2119 | in every reachable state a settled task the dispatcher still holds has a callback that can still run, and running it writes its own verdict or, once cancelling, a skip |
| CoderVerdicts.CleanCancellation | src/xauditor/audit/workflow.py:754-783 | main result: once the handler has marked the findings, in every interleaving, every dispatched one has a verdict or a clean skip save one a torn drain left pending, and no False Positive was ever dispatched |
| CoderVerdicts.NonePendingIff | src/xauditor/audit/workflow.py:2189-2200 | then nothing is pending if and only if no drain was interrupted between untracking a finding and writing its verdict |
| CoderVerdicts.TornDrainLeavesPending | src/xauditor/audit/workflow.py:2189-2200 | a run in which that leaves a finding pending after the handler |
| CoderVerdicts.ApplyAllEffect | src/xauditor/audit/workflow.py:2189-2231 | applying polled results changes exactly the findings they name, each to a verdict polled under its own id |
| CoderVerdicts.CoderStage.OnSettled | src/xauditor/audit/workflow.py:2090-2119 | the callback writes the verdict, or a skip when cancelling, to the finding of that id only and untracks it |
| CoderVerdicts.CoderStage.MarkPendingSkipped | src/xauditor/audit/workflow.py:2252-2267 | the loop skips exactly the tracked findings and leaves none tracked |
| CoderVerdicts.CoderStage.IndexOf | src/xauditor/audit/workflow.py:2110-2117 | finds the finding of an id, or reports that there is none |
| AnalyzerLoop.ProcessUnitSingle | src/xauditor/audit/workflow.py:1213-1471 | main result: the loop stops by cap exactly when `max(1, max_findings_per_unit)` findings are accepted, by convergence only after two rounds in a row without a new candidate, and never later than the first such pair; the chain is exactly the rounds with a new candidate, in order, each with its own answers; the stage calls are exactly those the answers call for, each once, in order; the checkpoint is the most significant verdict |
| AnalyzerLoop.AggregateCheckpoint | src/xauditor/audit/workflow.py:1511-1528 | Valid if some finding is, else Partial Valid if some is, else Inconclusive if some is, False Positive for a chain of nothing else, `no_finding` exactly for the empty chain |
| AnalyzerLoop.Budget | src/xauditor/audit/workflow.py:1227-1389 | rounds are at most twice the accepted findings plus the current misses; calls at most rounds plus two per finding |
| AnalyzerLoop.LoopTerminates | src/xauditor/audit/workflow.py:1227-1403 | for every sequence of answers, with `cap` the configured number of findings, at least one: at most `2 * cap` rounds and `4 * cap` stage calls |
| AnalyzerLoop.ChainIsSound | src/xauditor/audit/workflow.py:149-176 | no two accepted findings agree in name, function id and line as compared, entries record their own round's answers in round order, and none is both Valid and not exploitable |
| AnalyzerLoop.ExploiterAskedIff | src/xauditor/audit/workflow.py:1286-1340 | the exploiter is asked about a round if and only if its finding was accepted, is no False Positive and the exploiter is enabled |
| AnalyzerLoop.ChainIsComplete | src/xauditor/audit/workflow.py:1256-1272 | the candidate of every round agrees in name, function id and line with a finding accepted in that round or before |
| AnalyzerLoop.ExclusionsAreAccepted | src/xauditor/audit/workflow.py:1229-1242 | each analyzer call is told exactly the findings accepted in earlier rounds, in order |
| DedupPipeline.GroupRecords | src/xauditor/audit/agents.py:664-667 | the `setdefault` loop builds the exact groups |
| DedupPipeline.GroupedRight | src/xauditor/audit/agents.py:664-667 | groups are non-empty, one per key, of that key only, and together hold exactly the records |
| DedupPipeline.GroupedInOrder | src/xauditor/audit/agents.py:664-668 | group by group in the order their keys first occur, a group is the records with that key in input order |
| DedupPipeline.Representative | src/xauditor/audit/agents.py:670-670 | the representative is the first record of the highest rank |
| DedupPipeline.Absorb | src/xauditor/audit/agents.py:682-700 | the inner loop gives a leader exactly the later groups at home with it, in order, with at most one call per later group |
| DedupPipeline.MergeGroups | src/xauditor/audit/agents.py:677-702 | the nested loops build the leaders' clusters within the call budget |
| DedupPipeline.Dedup | src/xauditor/audit/agents.py:662-702 | main result: there is a partition of the exact groups into ascending lists, headed by their leaders in order, of which the clusters are the concatenations; an absorbed group's first best-ranked record was judged the same as its leader's, in that argument order, and as no earlier leader's; no leader's was judged the same as an earlier one's; the clusters flatten to a permutation of the records, with at most n(n-1)/2 judge calls over n exact groups |
| DedupPipeline.HomesAreGreedy | src/xauditor/audit/agents.py:679-700 | every group ends up with the earliest leader judged the same as it, or is a leader |
| DedupPipeline.LeadersDiffer | src/xauditor/audit/agents.py:679-700 | no two leaders are judged the same |
| DedupPipeline.DedupPermutes | src/xauditor/audit/agents.py:657-660 | the clusters flatten to a permutation of the records |
| DedupPipeline.EqualKeysShare | src/xauditor/audit/agents.py:664-667 | records in different clusters have different keys |
| DedupPipeline.DedupIsLeaderClustering | src/xauditor/audit/agents.py:677-702 | that description of the output, from records, keys, ranks and judge alone, holds for all of them |
| CircuitBreaking.CircuitBreaker.Call | src/xauditor/resilience.py:74-96 | a call on the object is the step on values, and reaches the function exactly when not rejected |
| CircuitBreaking.CountsFailures | src/xauditor/resilience.py:84-96 | after any history the count is that of counted failures since the last success, and the circuit is closed exactly below the configured threshold, at least one |
| CircuitBreaking.OpenedIs | src/xauditor/resilience.py:86-91 | an attempt leaves the circuit open from its own time on if and only if it reached the function, failed, and brought the failures since the last success to the threshold |
| CircuitBreaking.OpenOrCooled | src/xauditor/resilience.py:75-95 | since an opening, the circuit is unchanged or the configured cooldown, a negative one counting as none, has passed |
| CircuitBreaking.NoCallDuringCooldown | src/xauditor/resilience.py:75-83 | no call reaches the function between an opening and the end of its cooldown |
| CircuitBreaking.OpenIff | src/xauditor/resilience.py:74-96 | over any history the circuit is open if and only if some attempt opened it and nothing has reached the function since, and it remembers that attempt's time |
| CircuitBreaking.RejectedIff | src/xauditor/resilience.py:74-91 | a call is turned away if and only if such an opening exists and its cooldown is not over, so the call after an exception that is not counted always goes through |

## Left out

- JsonGrammar.LoadsIff: string escapes keep their spelling, numbers are literal tokens whose grammar is checked but
  whose value is not computed, and repeated members stay in order instead of collapsing as in a Python dict.
- JsonRecovery.ParseCoderResponse: status normalisation, redaction, truncation and evidence parsing of the fields of
  the recovered object; they would only add members with one branch each.
- JsonRecovery.ExtractsForEveryPostscriptIff: is about all postscripts of a preamble; for a single postscript with a
  newline the outcome can be right by accident, as when the postscript repeats the object.
- JsonRecovery.Recovery: `json.loads` raises a plain `ValueError` on integers beyond the interpreter's digit limit and a
  `RecursionError` on deep nesting, neither of which `coder.py:540-547` catches; the model's parser has no such limits.
- WorkerPool.NextKeeps: a put on a multiprocessing queue is one step and the result queue is FIFO; messages lost with a
  dying worker's feeder thread and `SIGTERM` timing are not modelled.
- WorkerPool.TickRoutesOrphans: takes the empty-queue timeout and the liveness scan as one step; the `LateScan` rows say
  exactly what happens otherwise.
- WorkerPool.ResolvedOnce: takes the tick as one step; `PoolSafety.ResolvedForGood` does not.
- WorkerPool.LocalSubprocessPool.constructor: the `ValueError`s for fewer than two workers or no source descriptor.
- WorkerPool.LocalSubprocessPool.HandleMessage: the two-element result message of older workers.
- WorkerPool.LocalSubprocessPool.CheckDeadWorkers: asks all workers at one instant; `LateScan.LateRunKeeps` lets each
  check happen at its own.
- WorkerPool.LocalSubprocessPool.OnEmptyQueue: scan and all-dead test share one answer about who lives;
  `LateScan.LateRunKeeps` has them as separate steps.
- AuditEngine.NoDeadlock: a worker that dies between taking a path and claiming it, and a path submitted after the
  monitor has left its loop, leave a future unresolved; nothing is claimed about progress then.
- AuditEngine.ResumeEquivalence: is about the shared state; `ResumedRuns.ResumedStateIff` says when the rest agrees too.
- ResumedRuns.ResumedStateIff: leaves the findings aside; those of earlier runs live in the report store.
- AuditLoop.FindingsByPath: a finding is its id, fingerprint, verdict and an opaque body; call-chain references,
  confidence and transcripts are not modelled.
- AuditLoop.RunInline: a runner's exception, which `InlineExecutor` stores in the future, ends the run and is not modelled.
- PathStream.PathStreamer.NextOrNone: starts where the blocking get has an item.
- PathStream.PathStreamer.CloseStream: ends before the join of the fetcher thread.
- StreamedAudit.JointRunProjects: the close in the run's `finally` block comes after the loop and is not part of it.
- CoderDispatch.CoderDispatcher.CancelPending: `cancel_all` is one step although `Future.cancel` runs done-callbacks
  while the non-reentrant lock is held.
- CoderDispatch.ExactlyOnce: assumes each finding id is submitted once; an id submitted again after its delivery is a
  new submission to the code.
- CoderVerdicts.NextKeeps: a callback is one step, and dispatching a finding and appending it to the list is one step, so
  a verdict that lands between the two, which the code drops with a warning, is not modelled; nor are the drain's
  timeout and sleep; shutdown comes after the cancel handler.
- AnalyzerLoop.ChainIsSound: `strip` and `casefold` are arbitrary functions; payloads and downgrade texts are not modelled.
- DedupPipeline.Dedup: the judge is a pure function of the two representatives, with the payload summary folded into it
  and a failed call counting as different; the key and rank functions are arbitrary.
- `retry`: a counting loop with side effects.
- Teaming mode, coverage, reconciliation, prompts, reports, configuration, the CLI, subprocess spawning, HTTP and
  database access: I/O, or finite tables with easy claims.
