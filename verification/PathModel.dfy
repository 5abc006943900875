/** What travels between the audit loop and its worker pool. */
module PathModel {

  /** `AuditUnit`: one path to audit, named by its fingerprint. */
  datatype AuditUnit = AuditUnit(fingerprint: string, payload: string)

  /** No fingerprint occurs twice. */
  ghost predicate DistinctUnits(units: seq<AuditUnit>) {
    forall i, j :: 0 <= i < j < |units| ==> units[i].fingerprint != units[j].fingerprint
  }

  datatype PathOutcome = Completed | ContextSkipped | LlmFailed | Cancelled | WorkerCrashed

  datatype ValidationStatus = Valid | PartialValid | Inconclusive | FalsePositive

  /** One entry of `per_finding`; `candidate` is `analyzer.status == "candidate"`. */
  datatype Candidate = Candidate(isCandidate: bool, candidate: bool, verdict: ValidationStatus, body: string)

  /** One value of `shared_state`. */
  type Entry = map<string, string>

  /** What the agent chain makes of one path, apart from its index and fingerprint. */
  datatype Verdict = Verdict(
    outcome: PathOutcome,
    state: Entry,
    checkpoint: string,
    perFinding: seq<Candidate>,
    errorInfo: string)

  datatype PathResult = PathResult(index: nat, fingerprint: string, verdict: Verdict)

  /** The per-path agent chain as a deterministic function. */
  type Agents = (nat, AuditUnit) -> Verdict

  /** `_process_one_path`: the chain's verdict under the path's own index and fingerprint. */
  function RunPath(agents: Agents, index: nat, unit: AuditUnit): PathResult {
    PathResult(index, unit.fingerprint, agents(index, unit))
  }

  /** What the monitor resolves a future with when its worker is gone. */
  function Crashed(index: nat): PathResult {
    PathResult(index, "", Verdict(WorkerCrashed, map[], "", [], ""))
  }
}
