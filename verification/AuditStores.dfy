/** The three durable stores of a module audit and their atomic operations: the
    task aggregate with its command log, the coordination rows, and the
    write-once evidence. */
module AuditStores {
  import opened Wrappers
  import opened ModuleTasks

  type RunId = string

  // ------------------------------------------------------------------ evidence

  datatype Verdict = NotRun | Pass | Fail | Inconclusive | Other

  /** An evidence bundle of one submission. `openBlocking` and `criteriaMet` are its
      findings and criteria as the audit gate reads them; `rest` is everything else. */
  datatype Bundle = Bundle(
    key: Key, facts: string, checks: seq<bool>, verdict: Verdict,
    openBlocking: bool, criteriaMet: bool, rest: nat)

  /** A digest is taken to be injective: it is what was digested. */
  datatype Digest =
    | OfInput(input: Key, inputFacts: string)
    | OfGate(gate: Key, gateFacts: string, results: seq<bool>, detail: nat)
    | OfBundle(bundle: Bundle)

  type Command = AuditCommand<Digest>

  predicate AllPass(checks: seq<bool>) { forall i | 0 <= i < |checks| :: checks[i] }

  predicate PassesAuditGate(b: Bundle) {
    b.checks != [] && b.verdict == Pass && AllPass(b.checks) && !b.openBlocking && b.criteriaMet
  }

  datatype Outcome = DetFailure | LlmSuccess | LlmFailure

  /** The single outcome that a bundle stands for. */
  function EvidenceOutcome(b: Bundle): Option<Outcome> {
    match b.verdict
    case NotRun => if AllPass(b.checks) then None else Some(DetFailure)
    case Other => None
    case _ => if PassesAuditGate(b) then Some(LlmSuccess) else Some(LlmFailure)
  }

  function FinalCommand(o: Outcome, b: Bundle): Command {
    match o
    case DetFailure => DeterministicFailure(OfBundle(b))
    case LlmSuccess => LLMSuccess(OfBundle(b))
    case LlmFailure => LLMFailure(OfBundle(b))
  }

  predicate Failure(o: Outcome) { o != LlmSuccess }

  predicate ReworkStarted(t: Task) { t.state == ReadyExecution || t.state == Executing }

  /** The task states that count as having taken note of an outcome. */
  predicate OutcomeReached(t: Task, o: Outcome) {
    match o
    case LlmSuccess => t.state == Passed || t.state == Integrated
    case _ => t.state == ReworkRequired || ReworkStarted(t) || t.state == BlockedUserDecision
  }

  // -------------------------------------------------------------- coordination

  datatype Phase = InChecks | InLlm | Completed

  datatype Row = Row(
    run: RunId, submission: string, input: Digest, facts: string,
    phase: Phase, gate: Option<Digest>, evidence: Option<Digest>, outcome: Option<Outcome>)

  predicate SameClaim(a: Row, b: Row) {
    a.run == b.run && a.submission == b.submission && a.input == b.input && a.facts == b.facts
  }

  predicate ValidRow(r: Row) {
    match r.phase
    case InChecks => r.gate.None? && r.evidence.None? && r.outcome.None?
    case InLlm => r.gate.Some? && r.evidence.None? && r.outcome.None?
    case Completed => r.evidence.Some? && r.outcome.Some? && (r.outcome.value == DetFailure <==> r.gate.None?)
  }

  type Rows = map<Key, Row>

  function RunTaken(rows: Rows, run: RunId): bool {
    exists k <- rows :: rows[k].run == run
  }

  /** Insert the claim unless the submission or the run is claimed, then accept
      exactly the same claim. */
  function Claimed(rows: Rows, k: Key, r: Row): (Rows, Option<Row>) {
    var rows' := if k in rows || RunTaken(rows, r.run) then rows else rows[k := r];
    if k in rows' && SameClaim(rows'[k], r) then (rows', Some(rows'[k])) else (rows, None)
  }

  function Marked(rows: Rows, k: Key, expected: Row, d: Digest): (Rows, Option<Row>) {
    if k !in rows || !SameClaim(rows[k], expected) then (rows, None) else
    var r := rows[k];
    if r.phase != InChecks then (rows, if r.gate == Some(d) then Some(r) else None)
    else
      var r' := r.(phase := InLlm, gate := Some(d));
      (rows[k := r'], Some(r'))
  }

  function Finished(rows: Rows, k: Key, expected: Row, d: Digest, o: Outcome): (Rows, Option<Row>) {
    if k !in rows || !SameClaim(rows[k], expected) then (rows, None) else
    var r := rows[k];
    if r.phase == Completed then (rows, if r.evidence == Some(d) && r.outcome == Some(o) then Some(r) else None)
    else if (o == DetFailure && r.phase != InChecks) || (o != DetFailure && r.phase != InLlm) then (rows, None)
    else
      var r' := r.(phase := Completed, evidence := Some(d), outcome := Some(o));
      (rows[k := r'], Some(r'))
  }

  // ------------------------------------------------------------------ evidence store

  type Evidence = map<Key, Bundle>

  /** The first write wins; writing the same bundle again is accepted. */
  function PutEvidence(e: Evidence, b: Bundle): (Evidence, bool) {
    if b.key in e then (e, OfBundle(e[b.key]) == OfBundle(b)) else (e[b.key := b], true)
  }

  // -------------------------------------------------------------- command log

  /** The command kinds that name an idempotency key together with the run. */
  datatype Kind = StartAuditKind | SuccessKind | DetFailureKind | LlmSuccessKind | LlmFailureKind | QueueKind

  function KindOf(c: Command): Kind {
    match c
    case StartAudit(_) => StartAuditKind
    case DeterministicSuccess(_) => SuccessKind
    case DeterministicFailure(_) => DetFailureKind
    case LLMSuccess(_) => LlmSuccessKind
    case LLMFailure(_) => LlmFailureKind
    case QueueRework(_) => QueueKind
  }

  /** A request is identified by its version and command; the log keeps its result. */
  datatype Entry = Entry(version: nat, command: Command, result: Task)

  type Log = map<(RunId, Kind), Entry>

  /** A commit: a logged request is answered from the log and any other request
      under its key is refused; else the version must match and the task must
      allow the command. `allowed` is the answer of the policy boundary. */
  function Committed(t: Task, log: Log, run: RunId, c: Command, version: nat, allowed: bool): (Task, Log, Option<Task>) {
    var id := (run, KindOf(c));
    if id in log then
      (t, log, if log[id].version == version && log[id].command == c then Some(log[id].result) else None)
    else if t.version != version || !allowed || DecideAudit(t, c).None? then (t, log, None)
    else
      var u := DecideAudit(t, c).value;
      (u, log[id := Entry(version, c, u)], Some(u))
  }

  datatype Stores = Stores(task: Task, log: Log, rows: Rows, evidence: Evidence)

  // ------------------------------------------------------- the stores as objects

  class TaskAuthority {
    var task: Task
    var log: Log

    constructor (t: Task)
      ensures task == t && log == map[]
    {
      task := t;
      log := map[];
    }

    method Commit(run: RunId, c: Command, version: nat, allowed: bool) returns (r: Option<Task>)
      modifies this
      ensures (task, log, r) == Committed(old(task), old(log), run, c, version, allowed)
      ensures task != old(task) ==>
                (run, KindOf(c)) !in old(log) && old(task.version) == version && allowed && r == Some(task) &&
                task.version == version + 1 && task.series == old(task.series) && task.attempt == old(task.attempt)
      ensures r.Some? ==> (run, KindOf(c)) in log && log[(run, KindOf(c))] == Entry(version, c, r.value)
      ensures forall id <- old(log) :: id in log && log[id] == old(log[id])
    {
      var id := (run, KindOf(c));
      if id in log {
        if log[id].version == version && log[id].command == c { return Some(log[id].result); }
        return None;
      }
      if task.version != version || !allowed { return None; }
      var next := DecideAudit(task, c);
      if next.None? { return None; }
      task := next.value;
      log := log[id := Entry(version, c, task)];
      return Some(task);
    }
  }

  class CoordinationStore {
    var rows: Rows

    constructor ()
      ensures rows == map[]
    {
      rows := map[];
    }

    method Get(k: Key) returns (r: Option<Row>)
      ensures r == if k in rows then Some(rows[k]) else None
    {
      if k in rows { return Some(rows[k]); }
      return None;
    }

    method Claim(k: Key, requested: Row) returns (r: Option<Row>)
      modifies this
      ensures (rows, r) == Claimed(old(rows), k, requested)
      ensures r.Some? ==> k in rows && rows[k] == r.value && r.value.run == requested.run &&
                          r.value.submission == requested.submission && r.value.input == requested.input &&
                          r.value.facts == requested.facts
      ensures rows != old(rows) ==>
                k !in old(rows) && (forall j <- old(rows) :: old(rows[j].run) != requested.run) &&
                rows == old(rows)[k := requested]
    {
      if k !in rows && !RunTaken(rows, requested.run) { rows := rows[k := requested]; }
      if k !in rows || !SameClaim(rows[k], requested) { return None; }
      return Some(rows[k]);
    }

    method MarkDeterministic(k: Key, expected: Row, d: Digest) returns (r: Option<Row>)
      modifies this
      ensures (rows, r) == Marked(old(rows), k, expected, d)
      ensures r.Some? ==> k in rows && rows[k] == r.value && r.value.gate == Some(d) && r.value.phase != InChecks
      ensures rows != old(rows) ==>
                k in old(rows) && old(rows[k].phase) == InChecks &&
                rows == old(rows)[k := old(rows[k]).(phase := InLlm, gate := Some(d))]
    {
      if k !in rows || !SameClaim(rows[k], expected) { return None; }
      var current := rows[k];
      if current.phase == InLlm || current.phase == Completed {
        if current.gate != Some(d) { return None; }
        return Some(current);
      }
      current := current.(phase := InLlm);
      current := current.(gate := Some(d));
      rows := rows[k := current];
      return Some(current);
    }

    method Complete(k: Key, expected: Row, d: Digest, o: Outcome) returns (r: Option<Row>)
      modifies this
      ensures (rows, r) == Finished(old(rows), k, expected, d, o)
      ensures r.Some? ==> k in rows && rows[k] == r.value && r.value.phase == Completed &&
                          r.value.evidence == Some(d) && r.value.outcome == Some(o)
      ensures rows != old(rows) ==>
                k in old(rows) && old(rows[k].phase) == (if o == DetFailure then InChecks else InLlm) &&
                rows == old(rows)[k := old(rows[k]).(phase := Completed, evidence := Some(d), outcome := Some(o))]
    {
      if k !in rows || !SameClaim(rows[k], expected) { return None; }
      var current := rows[k];
      if current.phase == Completed {
        if current.evidence != Some(d) || current.outcome != Some(o) { return None; }
        return Some(current);
      }
      if (o == DetFailure && current.phase != InChecks) || (o != DetFailure && current.phase != InLlm) { return None; }
      current := current.(phase := Completed);
      current := current.(evidence := Some(d));
      current := current.(outcome := Some(o));
      rows := rows[k := current];
      return Some(current);
    }
  }

  class EvidenceStore {
    var items: Evidence

    constructor ()
      ensures items == map[]
    {
      items := map[];
    }

    method Put(b: Bundle) returns (ok: bool)
      modifies this
      ensures (items, ok) == PutEvidence(old(items), b)
      ensures ok <==> b.key in items && items[b.key] == b
      ensures items == if b.key in old(items) then old(items) else old(items)[b.key := b]
    {
      if b.key in items { return OfBundle(items[b.key]) == OfBundle(b); }
      items := items[b.key := b];
      return true;
    }

    method Get(k: Key) returns (r: Option<Bundle>)
      ensures r == if k in items then Some(items[k]) else None
    {
      if k in items { return Some(items[k]); }
      return None;
    }
  }
}
