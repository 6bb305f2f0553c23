/** Module audit runs as concurrent, crash-prone processes over the durable
    stores. Every store call is one step; a crash loses the process and keeps
    the stores. An error that ends a run is a crash too. */
module AuditProtocol {
  import opened Wrappers
  import opened ModuleTasks
  import opened AuditStores

  datatype CheckRun = CheckRun(statuses: seq<bool>, detail: nat)

  /** The submission of each attempt and what the deterministic checks say of it;
      the last argument of `check` is whatever else they may depend on. */
  datatype World = World(submission: Key -> string, check: (Key, string, nat) -> CheckRun)

  /** Everything a process does not decide: sandbox facts, check noise, the
      auditor's answer, the policy boundary, and whether the answer to a commit arrives,
      which an undisturbed run asks once for each kind of command. */
  datatype Choice = Choice(
    facts: string, noise: nat, verdict: Verdict, openBlocking: bool, criteriaMet: bool, rest: nat,
    allowed: bool, reported: Kind -> bool)

  /** The next store call of a run, with the local variables it still needs. */
  datatype Pc =
    | Begin
    | Loaded(task: Task)
    | Claiming(task: Task, facts: string)
    | Looking(task: Task, row: Row)
    | Starting(row: Row, version: nat)
    | StartObserving(row: Row)
    | Checking(row: Row)
    | Gating(row: Row, checks: CheckRun)
    | GateCommitting(row: Row, checks: CheckRun, version: nat)
    | GateObserving(row: Row, checks: CheckRun)
    | Marking(row: Row, checks: CheckRun)
    | Auditing(row: Row, checks: CheckRun)
    | Persisting(row: Row, bundle: Bundle)
    | Completing(row: Row, bundle: Bundle)
    | Finishing(row: Row, bundle: Bundle)
    | FinalCommitting(row: Row, bundle: Bundle, version: nat)
    | FinalObserving(row: Row, bundle: Bundle)
    | Queueing(row: Row, bundle: Bundle, version: nat)
    | QueueObserving

  datatype Process = Process(run: RunId, key: Key, pc: Pc)

  /** How a step of a run ends: with more to do, done, or with an error. */
  datatype Next = More(process: Process) | Done | Error

  function Go(p: Process, pc: Pc): Next { More(p.(pc := pc)) }

  function NewRow(w: World, k: Key, run: RunId, facts: string): Row {
    Row(run, w.submission(k), OfInput(k, facts), facts, InChecks, None, None, None)
  }

  /** A checkpoint found in the store must be the one the prepared input implies. */
  predicate Prepared(w: World, k: Key, r: Row) {
    r.submission == w.submission(k) && r.input == OfInput(k, r.facts)
  }

  function GateDigest(p: Process, r: Row, c: CheckRun): Digest {
    OfGate(p.key, r.facts, c.statuses, c.detail)
  }

  function TerminalAfterAudit(x: State): bool {
    x in {ReworkRequired, BlockedUserDecision, Passed, Integrated}
  }

  predicate UnderAudit(x: State) { x == DeterministicAudit || x == LLMAudit }

  /** Task read, state `t`; the checkpoint comes next. */
  function StepBegin(s: Stores, p: Process): Next {
    if !(1 <= s.task.attempt <= 3) || s.task.series == "" then Error
    else More(Process(p.run, KeyOf(s.task), Loaded(s.task)))
  }

  function StepLoaded(w: World, s: Stores, p: Process, t: Task, c: Choice): Next {
    if p.key in s.rows then
      var r := s.rows[p.key];
      if r.run != p.run || !Prepared(w, p.key, r) then Error else Go(p, Looking(t, r))
    else if t.state != Submitted then Error
    else Go(p, Claiming(t, c.facts))
  }

  function StepClaiming(w: World, s: Stores, p: Process, t: Task, facts: string): (Stores, Next) {
    var (rows, r) := Claimed(s.rows, p.key, NewRow(w, p.key, p.run, facts));
    (s.(rows := rows), if r.None? then Error else Go(p, Looking(t, r.value)))
  }

  function StepLooking(s: Stores, p: Process, t: Task, r: Row): Next {
    if p.key in s.evidence then
      var b := s.evidence[p.key];
      if b.key != p.key || b.facts != r.facts then Error else Go(p, Completing(r, b))
    else if r.phase == Completed || TerminalAfterAudit(t.state) then Error
    else if t.state == Submitted then Go(p, Starting(r, t.version))
    else if UnderAudit(t.state) then Go(p, Checking(r))
    else Error
  }

  /** A commit step: the new stores and what the caller learns. */
  function CommitStep(s: Stores, run: RunId, cmd: Command, version: nat, c: Choice): (Stores, Option<Task>) {
    var (t, log, r) := Committed(s.task, s.log, run, cmd, version, c.allowed);
    (s.(task := t, log := log), if c.reported(KindOf(cmd)) then r else None)
  }

  function StepStarting(s: Stores, p: Process, r: Row, version: nat, c: Choice): (Stores, Next) {
    var (s', u) := CommitStep(s, p.run, StartAudit(r.input), version, c);
    (s', if u.None? then Go(p, StartObserving(r)) else if UnderAudit(u.value.state) then Go(p, Checking(r)) else Error)
  }

  function StepChecking(w: World, p: Process, r: Row, c: Choice): Next {
    var checks := w.check(p.key, r.facts, c.noise);
    if AllPass(checks.statuses) then Go(p, Gating(r, checks))
    else Go(p, Persisting(r, Bundle(p.key, r.facts, checks.statuses, NotRun, true, true, c.rest)))
  }

  function StepGating(s: Stores, p: Process, r: Row, checks: CheckRun): Next {
    if s.task.state == DeterministicAudit then Go(p, GateCommitting(r, checks, s.task.version))
    else if s.task.state == LLMAudit then Go(p, Marking(r, checks))
    else Error
  }

  function StepGateCommitting(s: Stores, p: Process, r: Row, checks: CheckRun, version: nat, c: Choice): (Stores, Next) {
    var (s', u) := CommitStep(s, p.run, DeterministicSuccess(GateDigest(p, r, checks)), version, c);
    (s', if u.None? then Go(p, GateObserving(r, checks))
         else if u.value.state == LLMAudit then Go(p, Marking(r, checks)) else Error)
  }

  function StepMarking(s: Stores, p: Process, r: Row, checks: CheckRun): (Stores, Next) {
    var (rows, r') := Marked(s.rows, p.key, r, GateDigest(p, r, checks));
    (s.(rows := rows), if r'.None? then Error else Go(p, Auditing(r'.value, checks)))
  }

  function StepAuditing(p: Process, r: Row, checks: CheckRun, c: Choice): Next {
    if c.verdict == NotRun || c.verdict == Other then Error
    else Go(p, Persisting(r, Bundle(p.key, r.facts, checks.statuses, c.verdict, c.openBlocking, c.criteriaMet, c.rest)))
  }

  function StepPersisting(s: Stores, p: Process, r: Row, b: Bundle): (Stores, Next) {
    var (e, ok) := PutEvidence(s.evidence, b);
    (s.(evidence := e), if ok then Go(p, Completing(r, b)) else Error)
  }

  function StepCompleting(s: Stores, p: Process, r: Row, b: Bundle): (Stores, Next) {
    var o := EvidenceOutcome(b);
    if o.None? || (o.value != DetFailure && r.phase == InChecks) then (s, Error) else
    var (rows, r') := Finished(s.rows, p.key, r, OfBundle(b), o.value);
    (s.(rows := rows), if r'.None? then Error else Go(p, Finishing(r, b)))
  }

  function StepFinishing(s: Stores, p: Process, r: Row, b: Bundle, o: Outcome): Next {
    if Failure(o) && s.task.state == ReworkRequired then Go(p, Queueing(r, b, s.task.version))
    else if OutcomeReached(s.task, o) then Done
    else if s.task.state == (if o == DetFailure then DeterministicAudit else LLMAudit)
    then Go(p, FinalCommitting(r, b, s.task.version))
    else Error
  }

  /** After the final command, a failed task still has its rework queued. */
  function AfterFinal(p: Process, r: Row, b: Bundle, o: Outcome, t: Task): Next {
    if !OutcomeReached(t, o) then Error
    else if Failure(o) && t.state == ReworkRequired then Go(p, Queueing(r, b, t.version))
    else Done
  }

  function StepFinalCommitting(s: Stores, p: Process, r: Row, b: Bundle, o: Outcome, version: nat, c: Choice): (Stores, Next) {
    var (s', u) := CommitStep(s, p.run, FinalCommand(o, b), version, c);
    (s', if u.None? then Go(p, FinalObserving(r, b)) else AfterFinal(p, r, b, o, u.value))
  }

  function StepQueueing(s: Stores, p: Process, b: Bundle, version: nat, c: Choice): (Stores, Next) {
    var (s', u) := CommitStep(s, p.run, QueueRework(OfBundle(b)), version, c);
    (s', if u.None? then Go(p, QueueObserving) else if ReworkStarted(u.value) then Done else Error)
  }

  /** One store call of one run. */
  function Advance(w: World, s: Stores, p: Process, c: Choice): (Stores, Next) {
    match p.pc
    case Begin => (s, StepBegin(s, p))
    case Loaded(t) => (s, StepLoaded(w, s, p, t, c))
    case Claiming(t, facts) => StepClaiming(w, s, p, t, facts)
    case Looking(t, r) => (s, StepLooking(s, p, t, r))
    case Starting(r, v) => StepStarting(s, p, r, v, c)
    case StartObserving(r) => (s, if UnderAudit(s.task.state) then Go(p, Checking(r)) else Error)
    case Checking(r) => (s, StepChecking(w, p, r, c))
    case Gating(r, checks) => (s, StepGating(s, p, r, checks))
    case GateCommitting(r, checks, v) => StepGateCommitting(s, p, r, checks, v, c)
    case GateObserving(r, checks) => (s, if s.task.state == LLMAudit then Go(p, Marking(r, checks)) else Error)
    case Marking(r, checks) => StepMarking(s, p, r, checks)
    case Auditing(r, checks) => (s, StepAuditing(p, r, checks, c))
    case Persisting(r, b) => StepPersisting(s, p, r, b)
    case Completing(r, b) => StepCompleting(s, p, r, b)
    case Finishing(r, b) =>
      (s, if EvidenceOutcome(b).None? then Error else StepFinishing(s, p, r, b, EvidenceOutcome(b).value))
    case FinalCommitting(r, b, v) =>
      if EvidenceOutcome(b).None? then (s, Error) else StepFinalCommitting(s, p, r, b, EvidenceOutcome(b).value, v, c)
    case FinalObserving(r, b) =>
      (s, if EvidenceOutcome(b).None? then Error else AfterFinal(p, r, b, EvidenceOutcome(b).value, s.task))
    case Queueing(r, b, v) => StepQueueing(s, p, b, v, c)
    case QueueObserving => (s, if ReworkStarted(s.task) then Done else Error)
  }

  /** Distance to the end of a run; every call comes closer. */
  function Remaining(pc: Pc): nat {
    match pc
    case Begin => 18
    case Loaded(_) => 17
    case Claiming(_, _) => 16
    case Looking(_, _) => 15
    case Starting(_, _) => 14
    case StartObserving(_) => 13
    case Checking(_) => 12
    case Gating(_, _) => 11
    case GateCommitting(_, _, _) => 10
    case GateObserving(_, _) => 9
    case Marking(_, _) => 8
    case Auditing(_, _) => 7
    case Persisting(_, _) => 6
    case Completing(_, _) => 5
    case Finishing(_, _) => 4
    case FinalCommitting(_, _, _) => 3
    case FinalObserving(_, _) => 2
    case Queueing(_, _, _) => 1
    case QueueObserving => 0
  }

  lemma AdvanceComesCloser(w: World, s: Stores, p: Process, c: Choice)
    ensures var next := Advance(w, s, p, c).1; next.More? ==> Remaining(next.process.pc) < Remaining(p.pc)
  {
  }

  /** An undisturbed run from its next call to its end; the answer says whether it succeeds. */
  function Drive(w: World, s: Stores, p: Process, c: Choice): (Stores, bool)
    decreases Remaining(p.pc)
  {
    AdvanceComesCloser(w, s, p, c);
    var (t, next) := Advance(w, s, p, c);
    match next
    case More(q) => Drive(w, t, q, c)
    case Done => (t, true)
    case Error => (t, false)
  }

  /** One call of an undisturbed run. */
  lemma DriveOn(w: World, s: Stores, p: Process, c: Choice, t: Stores, q: Process)
    requires Advance(w, s, p, c) == (t, More(q))
    ensures Drive(w, s, p, c) == Drive(w, t, q, c)
  {
  }

  datatype System = System(stores: Stores, processes: map<nat, Process>)

  /** Runs may start at any time under any run id; other services may issue their
      own commands; any process may crash between two store calls. */
  datatype Step =
    | Spawn(slot: nat, run: RunId)
    | Call(slot: nat, choice: Choice)
    | Crash(slot: nat)
    | Elsewhere(command: OtherCommand)

  function Apply(w: World, y: System, step: Step): System {
    match step
    case Spawn(slot, run) =>
      if slot in y.processes then y
      else y.(processes := y.processes[slot := Process(run, Key("", 0), Begin)])
    case Call(slot, c) =>
      if slot !in y.processes then y else
      var (s, next) := Advance(w, y.stores, y.processes[slot], c);
      System(s, if next.More? then y.processes[slot := next.process] else y.processes - {slot})
    case Crash(slot) => y.(processes := y.processes - {slot})
    case Elsewhere(cmd) =>
      var u := DecideOther(y.stores.task, cmd);
      if u.None? then y else y.(stores := y.stores.(task := u.value))
  }

  /** A planned task that no audit has touched. */
  ghost predicate Fresh(t: Task) {
    t.state == Defined && t.attempt == 0 && t.series != "" && t.seriesIds == {t.series}
  }

  function Initial(t: Task): System { System(Stores(t, map[], map[], map[]), map[]) }

  function After(w: World, t: Task, steps: seq<Step>): System {
    if steps == [] then Initial(t)
    else Apply(w, After(w, t, steps[..|steps| - 1]), steps[|steps| - 1])
  }
}
