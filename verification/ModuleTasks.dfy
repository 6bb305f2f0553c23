/** The module task aggregate and its commands. */
module ModuleTasks {
  import opened Wrappers

  datatype State =
    | Defined | QueuedPlanning | Planning | ReadyExecution | Executing | Submitted
    | DeterministicAudit | LLMAudit | ReworkRequired | BlockedUserDecision
    | Passed | Integrated | BlockedDependency | Canceled | Superseded

  datatype Task = Task(
    state: State, version: nat, series: string, seriesIds: set<string>, attempt: nat,
    fencing: int, blocking: set<string>, blockedFrom: State)

  /** One submission to audit: an attempt of an attempt series. */
  datatype Key = Key(series: string, attempt: nat)

  function KeyOf(t: Task): Key { Key(t.series, t.attempt) }

  /** The six commands of the audit service. The claims each must carry are fixed
      by its kind, so only the evidence digest D remains. */
  datatype AuditCommand<D> =
    | StartAudit(digest: D)
    | DeterministicSuccess(digest: D)
    | DeterministicFailure(digest: D)
    | LLMSuccess(digest: D)
    | LLMFailure(digest: D)
    | QueueRework(digest: D)

  /** Commands of the other services that reach an existing task. */
  datatype OtherCommand =
    | MakeReady
    | LeaseExecution(token: int, recover: bool)
    | Submit(token: int, series: string)
    | Integrate
    | BlockDependency(id: string)
    | UnblockDependency(id: string)
    | AuthorizeNewSeries(series: string)
    | Supersede

  function Bump(t: Task): Task { t.(version := t.version + 1) }

  function FailedAudit(t: Task): State {
    if t.attempt == 3 then BlockedUserDecision else ReworkRequired
  }

  function DecideAudit<D>(t: Task, c: AuditCommand<D>): Option<Task> {
    match c
    case StartAudit(_) =>
      if t.state == Submitted then Some(Bump(t.(state := DeterministicAudit))) else None
    case DeterministicSuccess(_) =>
      if t.state == DeterministicAudit then Some(Bump(t.(state := LLMAudit))) else None
    case DeterministicFailure(_) =>
      if t.state == DeterministicAudit then Some(Bump(t.(state := FailedAudit(t)))) else None
    case LLMSuccess(_) =>
      if t.state == LLMAudit then Some(Bump(t.(state := Passed))) else None
    case LLMFailure(_) =>
      if t.state == LLMAudit then Some(Bump(t.(state := FailedAudit(t)))) else None
    case QueueRework(_) =>
      if t.attempt >= 3 || t.state != ReworkRequired then None
      else Some(Bump(t.(state := ReadyExecution)))
  }

  function DecideOther(t: Task, c: OtherCommand): Option<Task> {
    match c
    case MakeReady =>
      if (t.state != Defined && t.state != ReworkRequired) || t.attempt >= 3 then None
      else Some(Bump(t.(state := ReadyExecution)))
    case LeaseExecution(token, recover) =>
      if token <= t.fencing then None
      else if (t.state == ReadyExecution && !recover) || (t.state == Executing && recover)
      then Some(Bump(t.(state := Executing, fencing := token))) else None
    case Submit(token, series) =>
      if t.state != Executing || token != t.fencing || series != t.series || t.attempt >= 3 then None
      else Some(Bump(t.(state := Submitted, attempt := t.attempt + 1)))
    case Integrate =>
      if t.state == Passed then Some(Bump(t.(state := Integrated))) else None
    case BlockDependency(id) =>
      if id == "" || id in t.blocking || t.state in {Integrated, Canceled, Superseded, BlockedUserDecision} then None
      else Some(Bump(t.(state := BlockedDependency, blocking := t.blocking + {id},
                        blockedFrom := if t.state == BlockedDependency then t.blockedFrom else t.state)))
    case UnblockDependency(id) =>
      if t.state != BlockedDependency || id !in t.blocking then None
      else Some(Bump(t.(blocking := t.blocking - {id},
                        state := if t.blocking == {id} then t.blockedFrom else t.state)))
    case AuthorizeNewSeries(series) =>
      if t.state != BlockedUserDecision || series == "" || series in t.seriesIds then None
      else Some(Bump(t.(state := ReadyExecution, attempt := 0, series := series,
                        seriesIds := t.seriesIds + {series})))
    case Supersede =>
      if t.state in {Canceled, Superseded} then None else Some(Bump(t.(state := Superseded)))
  }

  // ------------------------------------------------------------- what stays true

  /** The state to which dependency blocking will return. */
  function Effective(t: Task): State {
    if t.state == BlockedDependency then t.blockedFrom else t.state
  }

  /** A task after planning, with its attempt count in step with its state. */
  ghost predicate TaskOk(t: Task) {
    var e := Effective(t);
    t.series in t.seriesIds && t.series != "" && t.attempt <= 3 &&
    e != BlockedDependency && e != QueuedPlanning && e != Planning && e != Canceled &&
    (e == Defined ==> t.attempt == 0) &&
    (e in {Submitted, DeterministicAudit, LLMAudit, ReworkRequired, Passed, Integrated} ==> t.attempt >= 1) &&
    (e in {ReworkRequired, ReadyExecution, Executing} ==> t.attempt < 3) &&
    (e == BlockedUserDecision ==> t.attempt == 3)
  }

  /** A submission that has existed by now. */
  ghost predicate Known(t: Task, k: Key) {
    1 <= k.attempt <= 3 && k.series in t.seriesIds && (k.series == t.series ==> k.attempt <= t.attempt)
  }

  ghost predicate Older(t: Task, k: Key) {
    k.series != t.series || k.attempt < t.attempt
  }

  /** How far the audit of one known submission has come; never decreases. */
  ghost function Stage(t: Task, k: Key): (n: nat)
    ensures n <= 9
  {
    if Older(t, k) then 9 else
    match Effective(t)
    case Submitted => 0
    case DeterministicAudit => 1
    case LLMAudit => 2
    case ReworkRequired => 3
    case ReadyExecution => 4
    case Executing => 4
    case Superseded => 6
    case _ => 5
  }

  /** The audit of k ended in a failure that the task has taken note of. */
  ghost predicate Failed(t: Task, k: Key) {
    Older(t, k) || Effective(t) in {ReworkRequired, ReadyExecution, Executing, BlockedUserDecision}
  }

  ghost predicate Progress(t: Task, u: Task) {
    t.version <= u.version &&
    forall k: Key {:trigger Known(u, k)} {:trigger Known(t, k)} :: Known(t, k) ==> Known(u, k) && Stage(t, k) <= Stage(u, k)
  }

  lemma AuditProgress<D>(t: Task, c: AuditCommand<D>)
    requires TaskOk(t) && DecideAudit(t, c).Some?
    ensures var u := DecideAudit(t, c).value;
            TaskOk(u) && Progress(t, u) && u.version == t.version + 1 && KeyOf(u) == KeyOf(t) && t.attempt >= 1
  {
  }

  /** Other services never move a submission backwards, and never into or out of
      the audit states. */
  lemma OtherProgress(t: Task, c: OtherCommand)
    requires TaskOk(t) && DecideOther(t, c).Some?
    ensures var u := DecideOther(t, c).value;
            TaskOk(u) && Progress(t, u) && u.version == t.version + 1
  {
  }

  /** From where a task comes to its next state; a dependency only suspends it. */
  ghost predicate Edge(t: Task, u: Task) {
    var from := Effective(t);
    match Effective(u)
    case ReadyExecution => from == Defined || from == ReworkRequired || from == BlockedUserDecision
    case Executing => from == ReadyExecution
    case Submitted => from == Executing && u.attempt == t.attempt + 1
    case DeterministicAudit => from == Submitted
    case LLMAudit => from == DeterministicAudit
    case ReworkRequired => (from == DeterministicAudit || from == LLMAudit) && t.attempt < 3
    case BlockedUserDecision => (from == DeterministicAudit || from == LLMAudit) && t.attempt == 3
    case Passed => from == LLMAudit
    case Integrated => from == Passed
    case Superseded => true
    case _ => false
  }

  /** Every command of any service moves a task along an edge or leaves its state; only a
      submission counts an attempt, and only a new series starts over. */
  lemma CommandsFollowEdges<D>(t: Task, audit: AuditCommand<D>, other: OtherCommand)
    requires TaskOk(t)
    ensures DecideAudit(t, audit).Some? ==>
              var u := DecideAudit(t, audit).value;
              Edge(t, u) && t.state != BlockedDependency && u == t.(state := u.state, version := t.version + 1)
    ensures DecideOther(t, other).Some? ==>
              var u := DecideOther(t, other).value;
              (Effective(u) == Effective(t) || Edge(t, u)) && u.fencing >= t.fencing &&
              (u.series == t.series ==> t.attempt <= u.attempt <= t.attempt + 1) &&
              (u.series != t.series ==> t.state == BlockedUserDecision && u.attempt == 0 && u.series !in t.seriesIds) &&
              (u.attempt == t.attempt + 1 ==> other.Submit? && other.token == t.fencing && t.state == Executing)
  {
  }

  lemma ProgressTransitive(t: Task, u: Task, v: Task)
    requires Progress(t, u) && Progress(u, v)
    ensures Progress(t, v)
  {
    forall k: Key | Known(t, k) ensures Known(v, k) && Stage(t, k) <= Stage(v, k) {
      assert Known(u, k);
    }
  }

  /** A known submission whose failure is recorded after a foreign command had its
      failure recorded before it. */
  lemma OtherKeepsFailed(t: Task, c: OtherCommand, k: Key)
    requires TaskOk(t) && DecideOther(t, c).Some?
    requires var u := DecideOther(t, c).value; Known(u, k) && Failed(u, k)
    ensures Known(t, k) && Failed(t, k)
  {
  }

  /** Other services never send a task into the LLM audit. */
  lemma OtherKeepsLlmAudit(t: Task, c: OtherCommand)
    requires TaskOk(t) && DecideOther(t, c).Some?
    ensures var u := DecideOther(t, c).value;
            Effective(u) == LLMAudit ==> Effective(t) == LLMAudit && KeyOf(u) == KeyOf(t)
  {
  }

  /** Other services never make a task pass, and a passed task keeps its attempt. */
  lemma OtherKeepsPassed(t: Task, c: OtherCommand)
    requires TaskOk(t) && DecideOther(t, c).Some?
    ensures var u := DecideOther(t, c).value;
            Effective(u) in {Passed, Integrated} ==> Effective(t) in {Passed, Integrated} && KeyOf(u) == KeyOf(t)
  {
  }

  /** A failed attempt that is not the latest cannot become the latest again. */
  lemma KnownIsOlderOrCurrent(t: Task, k: Key)
    requires Known(t, k)
    ensures Older(t, k) || k == KeyOf(t)
  {
  }
}
