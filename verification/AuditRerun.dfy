/** What an undisturbed run achieves: from stored evidence exactly unless the task is
    blocked by a dependency or superseded, and from any submission it may audit. */
module AuditRerun {
  import opened Wrappers
  import opened ModuleTasks
  import opened AuditStores
  import opened AuditProtocol
  import opened AuditSafety
  import opened AuditRecovery

  ghost predicate Healthy(w: World, s: Stores) {
    Deterministic(w) && StoresOk(s) && InStep(w, s)
  }

  /** Evidence for the task's current submission is stored, and the run owns its row. */
  predicate Recoverable(s: Stores, run: RunId) { KeyOf(s.task) in s.evidence && RunOwns(s, run, KeyOf(s.task)) }

  /** The task is neither blocked by a dependency nor superseded. */
  predicate Open(t: Task) { t.state != BlockedDependency && t.state != Superseded }

  /** What the evidence comes to: the task passed, or its rework is queued, or a third
      failure waits for the user. A failure is never left standing as rework required. */
  predicate Settled(t: Task, b: Bundle) {
    if Passing(b) then t.state == Passed || t.state == Integrated
    else if t.attempt < 3 then t.state == ReadyExecution || t.state == Executing
    else t.state == BlockedUserDecision
  }

  /** The row of k is completed with the stored bundle and the outcome it stands for. */
  ghost predicate RowConcluded(s: Stores, k: Key, b: Bundle) {
    k in s.rows && s.rows[k].phase == Completed && s.rows[k].evidence == Some(OfBundle(b)) &&
    s.rows[k].outcome == Some(if b.verdict == NotRun then DetFailure else if Passing(b) then LlmSuccess else LlmFailure) &&
    k in s.evidence && s.evidence[k] == b
  }

  /** The stores as a successful run leaves them. */
  ghost predicate Concluded(s: Stores, k: Key, b: Bundle) {
    KeyOf(s.task) == k && Settled(s.task, b) && RowConcluded(s, k, b)
  }

  lemma SettledWhenReached(t: Task, b: Bundle)
    requires TaskOk(t) && EvidenceOutcome(b).Some? && OutcomeReached(t, EvidenceOutcome(b).value)
    requires t.state != ReworkRequired
    ensures Settled(t, b)
  {
  }

  lemma RowConcludedWhenCompleted(s: Stores, k: Key, b: Bundle)
    requires CompletedOk(s) && k in s.rows && s.rows[k].phase == Completed && k in s.evidence && s.evidence[k] == b
    requires EvidenceOutcome(b).Some?
    ensures RowConcluded(s, k, b)
  {
  }

  lemma EntryHolds(s: Stores, id: (RunId, Kind))
    requires LogInStep(s) && id in s.log
    ensures KindOf(s.log[id].command) == id.1 && EntryInStep(s, id.0, s.log[id])
  {
  }

  lemma OneRowPerRun(s: Stores, a: Key, b: Key)
    requires RowsOk(s) && a in s.rows && b in s.rows && s.rows[a].run == s.rows[b].run
    ensures a == b
  {
  }

  /** The stage to which a command takes its submission. */
  function StageOf(kind: Kind): nat {
    match kind
    case StartAuditKind => 1
    case SuccessKind => 2
    case QueueKind => 4
    case _ => 3
  }

  /** A logged command of the run that owns k has taken k to the command's stage. */
  lemma LoggedIsReached(s: Stores, run: RunId, k: Key, kind: Kind)
    requires RowsOk(s) && LogInStep(s) && RunOwns(s, run, k) && (run, kind) in s.log
    ensures Stage(s.task, k) >= StageOf(kind)
  {
    EntryHolds(s, (run, kind));
    OneRowPerRun(s, k, Subject(s.log[(run, kind)].command.digest));
  }

  /** A command of the run that would take its submission past the present stage is not logged yet. */
  lemma CommandIsNew(s: Stores, run: RunId, k: Key, kind: Kind)
    requires RowsOk(s) && LogInStep(s) && RunOwns(s, run, k) && Stage(s.task, k) < StageOf(kind)
    ensures (run, kind) !in s.log
  {
    if (run, kind) in s.log { LoggedIsReached(s, run, k, kind); }
  }

  // --------------------------------------------------------------- driving a run

  /** How an undisturbed run goes on after a call. */
  function Onward(w: World, t: Stores, next: Next, c: Choice): (Stores, bool) {
    match next
    case More(q) => Drive(w, t, q, c)
    case Done => (t, true)
    case Error => (t, false)
  }

  lemma DriveNext(w: World, s: Stores, p: Process, c: Choice)
    ensures Drive(w, s, p, c) == Onward(w, Advance(w, s, p, c).0, Advance(w, s, p, c).1, c)
  {
  }

  /** An allowed, new command that the task permits takes effect; its answer may be lost. */
  lemma CommitTakesEffect(s: Stores, run: RunId, cmd: Command, c: Choice)
    requires (run, KindOf(cmd)) !in s.log && c.allowed && DecideAudit(s.task, cmd).Some?
    ensures var (t, u) := CommitStep(s, run, cmd, s.task.version, c);
            Some(t.task) == DecideAudit(s.task, cmd) && t.rows == s.rows && t.evidence == s.evidence &&
            (run, KindOf(cmd)) in t.log && u == if c.reported(KindOf(cmd)) then Some(t.task) else None
  {
  }

  // ------------------------------------------------------- from the final command on

  lemma QueueTakesEffect(s: Stores, p: Process, r: Row, b: Bundle, c: Choice)
    requires StoresOk(s) && LogInStep(s) && HoldsOutcome(s, p, r, b) && p.key == KeyOf(s.task)
    requires s.task.state == ReworkRequired && Failure(EvidenceOutcome(b).value) && c.allowed
    ensures var (t, u) := CommitStep(s, p.run, QueueRework(OfBundle(b)), s.task.version, c);
            Concluded(t, p.key, b) && ReworkStarted(t.task) && u == if c.reported(QueueKind) then Some(t.task) else None
  {
    CommandIsNew(s, p.run, p.key, QueueKind);
    CommitTakesEffect(s, p.run, QueueRework(OfBundle(b)), c);
    RowConcludedWhenCompleted(s, p.key, b);
  }

  /** An answer that arrives and an answer that is lost lead to the same place. */
  lemma QueueDrives(w: World, s: Stores, p: Process, r: Row, b: Bundle, c: Choice)
    requires p.pc == Queueing(r, b, s.task.version)
    requires var (t, u) := CommitStep(s, p.run, QueueRework(OfBundle(b)), s.task.version, c);
             ReworkStarted(t.task) && u == if c.reported(QueueKind) then Some(t.task) else None
    ensures Drive(w, s, p, c) == (CommitStep(s, p.run, QueueRework(OfBundle(b)), s.task.version, c).0, true)
  {
    DriveNext(w, s, p, c);
    DriveNext(w, CommitStep(s, p.run, QueueRework(OfBundle(b)), s.task.version, c).0, p.(pc := QueueObserving), c);
  }

  /** Queueing the rework of a failed submission, whether or not the answer arrives. */
  lemma QueueingSucceeds(w: World, s: Stores, p: Process, r: Row, b: Bundle, c: Choice)
    requires StoresOk(s) && LogInStep(s) && HoldsOutcome(s, p, r, b) && p.key == KeyOf(s.task)
    requires s.task.state == ReworkRequired && Failure(EvidenceOutcome(b).value)
    requires p.pc == Queueing(r, b, s.task.version) && c.allowed
    ensures Drive(w, s, p, c).1 && Concluded(Drive(w, s, p, c).0, p.key, b)
  {
    QueueTakesEffect(s, p, r, b, c);
    QueueDrives(w, s, p, r, b, c);
  }

  lemma RowNamesOutcome(s: Stores, k: Key)
    requires CompletedOk(s) && k in s.rows && s.rows[k].phase == Completed
    ensures k in s.evidence && s.rows[k].evidence == Some(OfBundle(s.evidence[k])) &&
            s.rows[k].outcome == EvidenceOutcome(s.evidence[k])
  {
  }

  /** How far the task has come fits the kind of outcome its evidence stands for. */
  lemma StageFitsOutcome(w: World, s: Stores, k: Key)
    requires InStep(w, s) && k in s.evidence && EvidenceOutcome(s.evidence[k]).Some?
    ensures k in s.rows && Stage(s.task, k) >= 1
    ensures var failed := EvidenceOutcome(s.evidence[k]) == Some(DetFailure);
            (failed <==> !AllPass(Checks(w, k, s.rows[k]).statuses)) && (!failed ==> Stage(s.task, k) >= 2)
  {
    assert BundleInStep(w, s, k, s.evidence[k]) && RowInStep(w, s, k, s.rows[k]);
  }

  /** What the task took note of is the outcome on the row. */
  lemma NotedOutcome(s: Stores, k: Key)
    requires StoresOk(s) && k == KeyOf(s.task) && k in s.rows && s.rows[k].phase == Completed && Known(s.task, k)
    ensures Failed(s.task, k) ==> s.rows[k].outcome == Some(DetFailure) || s.rows[k].outcome == Some(LlmFailure)
    ensures s.task.state in {Passed, Integrated} ==> s.rows[k].outcome == Some(LlmSuccess)
  {
    if Failed(s.task, k) { assert Recorded(s, k, DetFailure) || Recorded(s, k, LlmFailure); }
  }

  /** Of the states a task can be in once its evidence is stored, only those the
      outcome allows remain. */
  lemma StateFitsOutcome(w: World, s: Stores, p: Process, r: Row, b: Bundle)
    requires Healthy(w, s) && HoldsOutcome(s, p, r, b) && p.key == KeyOf(s.task) && Open(s.task)
    ensures var o := EvidenceOutcome(b).value;
            OutcomeReached(s.task, o) || s.task.state == if o == DetFailure then DeterministicAudit else LLMAudit
  {
    StageFitsOutcome(w, s, p.key);
    NotedOutcome(s, p.key);
    RowNamesOutcome(s, p.key);
  }

  lemma FinalTakesEffect(s: Stores, p: Process, r: Row, b: Bundle, o: Outcome, c: Choice)
    requires TaskOk(s.task) && RowsOk(s) && LogInStep(s) && CompletedOk(s)
    requires HoldsOutcome(s, p, r, b) && p.key == KeyOf(s.task) && EvidenceOutcome(b) == Some(o)
    requires s.task.state == (if o == DetFailure then DeterministicAudit else LLMAudit) && c.allowed
    ensures var cmd := FinalCommand(o, b); var (t, u) := CommitStep(s, p.run, cmd, s.task.version, c);
            OutcomeReached(t.task, o) && KeyOf(t.task) == p.key && RowConcluded(t, p.key, b) &&
            u == if c.reported(KindOf(cmd)) then Some(t.task) else None
  {
    var cmd := FinalCommand(o, b);
    CommandIsNew(s, p.run, p.key, KindOf(cmd));
    CommitTakesEffect(s, p.run, cmd, c);
    RowConcludedWhenCompleted(s, p.key, b);
  }

  /** An answer that arrives and an answer that is lost lead to the same place. */
  lemma FinalDrives(w: World, s: Stores, p: Process, r: Row, b: Bundle, o: Outcome, c: Choice)
    requires EvidenceOutcome(b) == Some(o) && p.pc == FinalCommitting(r, b, s.task.version)
    requires var cmd := FinalCommand(o, b); var (t, u) := CommitStep(s, p.run, cmd, s.task.version, c);
             u == if c.reported(KindOf(cmd)) then Some(t.task) else None
    ensures var t := CommitStep(s, p.run, FinalCommand(o, b), s.task.version, c).0;
            Drive(w, s, p, c) == Onward(w, t, AfterFinal(p, r, b, o, t.task), c)
  {
    DriveNext(w, s, p, c);
    DriveNext(w, CommitStep(s, p.run, FinalCommand(o, b), s.task.version, c).0, p.(pc := FinalObserving(r, b)), c);
  }

  lemma FinalSucceeds(w: World, s: Stores, p: Process, r: Row, b: Bundle, o: Outcome, c: Choice)
    requires Healthy(w, s) && HoldsOutcome(s, p, r, b) && p.key == KeyOf(s.task) && EvidenceOutcome(b) == Some(o)
    requires s.task.state == if o == DetFailure then DeterministicAudit else LLMAudit
    requires p.pc == FinalCommitting(r, b, s.task.version) && c.allowed
    ensures Drive(w, s, p, c).1 && Concluded(Drive(w, s, p, c).0, p.key, b)
  {
    var t := CommitStep(s, p.run, FinalCommand(o, b), s.task.version, c).0;
    FinalTakesEffect(s, p, r, b, o, c);
    FinalDrives(w, s, p, r, b, o, c);
    AfterFinalHealthy(w, s, p, r, b, o, c);
    if t.task.state == ReworkRequired {
      QueueingSucceeds(w, t, p.(pc := Queueing(r, b, t.task.version)), r, b, c);
    } else {
      SettledWhenReached(t.task, b);
    }
  }

  lemma AfterFinalHealthy(w: World, s: Stores, p: Process, r: Row, b: Bundle, o: Outcome, c: Choice)
    requires Healthy(w, s) && HoldsOutcome(s, p, r, b) && EvidenceOutcome(b) == Some(o)
    ensures var t := CommitStep(s, p.run, FinalCommand(o, b), s.task.version, c).0;
            Healthy(w, t) && HoldsOutcome(t, p, r, b)
  {
    var t := CommitStep(s, p.run, FinalCommand(o, b), s.task.version, c).0;
    FinalCommit(s, p.run, p.key, s.task.version, c);
    FinalCommittingInStep(w, s, p, r, b, o, s.task.version, c);
    ProcessSurvives(s, t, p.(pc := Finishing(r, b)));
  }

  lemma FinishingSucceeds(w: World, s: Stores, p: Process, r: Row, b: Bundle, c: Choice)
    requires Healthy(w, s) && HoldsOutcome(s, p, r, b) && p.key == KeyOf(s.task) && Open(s.task)
    requires p.pc == Finishing(r, b) && c.allowed
    ensures Drive(w, s, p, c).1 && Concluded(Drive(w, s, p, c).0, p.key, b)
  {
    var o := EvidenceOutcome(b).value;
    StateFitsOutcome(w, s, p, r, b);
    var next := StepFinishing(s, p, r, b, o);
    DriveNext(w, s, p, c);
    if Failure(o) && s.task.state == ReworkRequired {
      QueueingSucceeds(w, s, next.process, r, b, c);
    } else if OutcomeReached(s.task, o) {
      SettledWhenReached(s.task, b);
      RowConcludedWhenCompleted(s, p.key, b);
    } else {
      FinalSucceeds(w, s, next.process, r, b, o, c);
    }
  }

  /** A task that is blocked or superseded stops a run at its last look. */
  lemma FinishingFails(w: World, s: Stores, p: Process, r: Row, b: Bundle, c: Choice)
    requires EvidenceOutcome(b).Some? && !Open(s.task) && p.pc == Finishing(r, b)
    ensures Drive(w, s, p, c) == (s, false)
  {
    DriveNext(w, s, p, c);
  }

  /** The row accepts the outcome the stored bundle stands for. */
  lemma RowFitsOutcome(w: World, s: Stores, k: Key)
    requires Healthy(w, s) && k in s.rows && k in s.evidence
    ensures var b := s.evidence[k]; var o := EvidenceOutcome(b); var r := s.rows[k];
            o.Some? && (o.value != DetFailure ==> r.phase != InChecks) && (o.value == DetFailure ==> r.phase != InLlm) &&
            (r.phase == Completed ==> r.outcome == o && r.evidence == Some(OfBundle(b)))
  {
    assert BundleInStep(w, s, k, s.evidence[k]) && RowInStep(w, s, k, s.rows[k]) && ValidRow(s.rows[k]);
    assert s.rows[k].phase == Completed ==> s.rows[k].outcome == EvidenceOutcome(s.evidence[k]);
  }

  lemma CompletingSucceeds(w: World, s: Stores, p: Process, b: Bundle)
    requires Healthy(w, s) && p.key in s.rows && HoldsBundle(s, p, s.rows[p.key], b)
    ensures var (t, next) := StepCompleting(s, p, s.rows[p.key], b);
            next == Go(p, Finishing(s.rows[p.key], b)) && t.task == s.task
  {
    RowFitsOutcome(w, s, p.key);
  }

  lemma CompletingStoresOk(s: Stores, p: Process, b: Bundle)
    requires StoresOk(s) && p.key in s.rows && HoldsBundle(s, p, s.rows[p.key], b)
    ensures var (t, next) := StepCompleting(s, p, s.rows[p.key], b);
            StoresOk(t) && Forward(s, t) && (next.More? ==> HoldsOutcome(t, next.process, s.rows[p.key], b))
  {
    CompleteStep(s, p, s.rows[p.key], b);
  }

  lemma CompletingHealthy(w: World, s: Stores, p: Process, b: Bundle)
    requires Healthy(w, s) && p.key in s.rows && HoldsBundle(s, p, s.rows[p.key], b)
    ensures Healthy(w, StepCompleting(s, p, s.rows[p.key], b).0)
  {
    CompletingStoresOk(s, p, b);
    CompleteInStep(w, s, p, s.rows[p.key], b);
  }

  /** A rerun reads the task, its own row and the evidence, and goes on to complete the row. */
  lemma RerunFindsEvidence(w: World, s: Stores, run: RunId, c: Choice)
    requires 1 <= s.task.attempt <= 3 && s.task.series != ""
    requires var k := KeyOf(s.task);
             k in s.rows && s.rows[k].run == run && Prepared(w, k, s.rows[k]) &&
             k in s.evidence && s.evidence[k].key == k && s.evidence[k].facts == s.rows[k].facts
    ensures var k := KeyOf(s.task);
            Drive(w, s, Process(run, Key("", 0), Begin), c) ==
            Drive(w, s, Process(run, k, Completing(s.rows[k], s.evidence[k])), c)
  {
    var k := KeyOf(s.task);
    var p1 := Process(run, k, Loaded(s.task));
    var p2 := Process(run, k, Looking(s.task, s.rows[k]));
    assert Advance(w, s, Process(run, Key("", 0), Begin), c) == (s, More(p1));
    assert Advance(w, s, p1, c) == (s, More(p2));
    assert Drive(w, s, p1, c) == Drive(w, s, p2, c);
  }

  lemma FoundEvidence(w: World, s: Stores, run: RunId)
    requires Healthy(w, s) && Recoverable(s, run)
    ensures 1 <= s.task.attempt <= 3 && s.task.series != ""
    ensures var k := KeyOf(s.task);
            Prepared(w, k, s.rows[k]) && s.evidence[k].key == k && s.evidence[k].facts == s.rows[k].facts &&
            HoldsBundle(s, Process(run, k, Begin), s.rows[k], s.evidence[k])
  {
    var k := KeyOf(s.task);
    assert Known(s.task, k) && RowInStep(w, s, k, s.rows[k]);
  }

  /** From the stored evidence on, a run succeeds unless the task is blocked or superseded. */
  lemma CompletingConcludes(w: World, s: Stores, p: Process, b: Bundle, c: Choice)
    requires Healthy(w, s) && p.key in s.rows && HoldsBundle(s, p, s.rows[p.key], b) && p.key == KeyOf(s.task)
    requires p.pc == Completing(s.rows[p.key], b) && c.allowed
    ensures Drive(w, s, p, c).1 <==> Open(s.task)
    ensures Open(s.task) ==> Concluded(Drive(w, s, p, c).0, p.key, b)
  {
    var r := s.rows[p.key];
    var t := StepCompleting(s, p, r, b).0;
    var q := p.(pc := Finishing(r, b));
    CompletingSucceeds(w, s, p, b);
    CompletingStoresOk(s, p, b);
    CompletingHealthy(w, s, p, b);
    DriveOn(w, s, p, c, t, q);
    if Open(s.task) { FinishingSucceeds(w, t, q, r, b, c); } else { FinishingFails(w, t, q, r, b, c); }
  }

  /** The rerun of a run whose evidence is stored succeeds if and only if the task is
      neither blocked by a dependency nor superseded, and then concludes with that
      evidence's outcome. Any answer to a commit may be lost. */
  lemma RerunConcludes(w: World, s: Stores, run: RunId, c: Choice)
    requires Healthy(w, s) && Recoverable(s, run) && c.allowed
    ensures var (u, ok) := Drive(w, s, Process(run, Key("", 0), Begin), c);
            (ok <==> Open(s.task)) && (ok ==> Concluded(u, KeyOf(s.task), s.evidence[KeyOf(s.task)]))
  {
    var k := KeyOf(s.task);
    FoundEvidence(w, s, run);
    RerunFindsEvidence(w, s, run, c);
    CompletingConcludes(w, s, Process(run, k, Completing(s.rows[k], s.evidence[k])), s.evidence[k], c);
  }

  /** The same from every reachable state, however many runs have crashed or are still
      alive, if checks are a function of the input. */
  lemma EveryRerunConcludes(w: World, t: Task, steps: seq<Step>, run: RunId, c: Choice)
    requires Deterministic(w) && Fresh(t) && Recoverable(After(w, t, steps).stores, run) && c.allowed
    ensures var s := After(w, t, steps).stores;
            var (u, ok) := Drive(w, s, Process(run, Key("", 0), Begin), c);
            (ok <==> Open(s.task)) && (ok ==> Concluded(u, KeyOf(s.task), s.evidence[KeyOf(s.task)]))
  {
    ReachableInv(w, t, steps);
    ReachableInStep(w, t, steps);
    RerunConcludes(w, After(w, t, steps).stores, run, c);
  }
}
