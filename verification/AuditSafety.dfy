/** What every run of the audit protocol keeps, whatever the checks and the
    auditor answer: no task passes unearned, and the stores only move forward. */
module AuditSafety {
  import opened Wrappers
  import opened ModuleTasks
  import opened AuditStores
  import opened AuditProtocol

  // ------------------------------------------------------ two moments compared

  /** A row keeps its claim, its phase never goes back, and each digest and the
      outcome are written once. */
  ghost predicate RowLater(a: Row, b: Row) {
    SameClaim(a, b) &&
    (a.phase == InLlm ==> b.phase != InChecks) && (a.phase == Completed ==> b == a) &&
    (a.gate.Some? ==> b.gate == a.gate) &&
    (a.evidence.Some? ==> b.evidence == a.evidence) &&
    (a.outcome.Some? ==> b.outcome == a.outcome)
  }

  ghost predicate Forward(s: Stores, t: Stores) {
    Progress(s.task, t.task) &&
    (forall k <- s.rows :: k in t.rows && RowLater(s.rows[k], t.rows[k])) &&
    (forall k <- s.evidence :: k in t.evidence && t.evidence[k] == s.evidence[k]) &&
    (forall e <- s.log :: e in t.log && t.log[e] == s.log[e])
  }

  lemma ForwardReflexive(s: Stores)
    ensures Forward(s, s)
  {
  }

  lemma ForwardTransitive(s: Stores, t: Stores, u: Stores)
    requires Forward(s, t) && Forward(t, u)
    ensures Forward(s, u)
  {
    ProgressTransitive(s.task, t.task, u.task);
    forall k <- s.rows ensures k in u.rows && RowLater(s.rows[k], u.rows[k]) {
      assert RowLater(s.rows[k], t.rows[k]) && RowLater(t.rows[k], u.rows[k]);
    }
  }

  // ------------------------------------------------------------ the invariant

  ghost predicate RowsOk(s: Stores) {
    (forall k <- s.rows :: Known(s.task, k) && ValidRow(s.rows[k])) &&
    forall a <- s.rows, b <- s.rows :: s.rows[a].run == s.rows[b].run ==> a == b
  }

  ghost predicate EvidenceOk(s: Stores) {
    forall k <- s.evidence :: s.evidence[k].key == k && k in s.rows && s.evidence[k].facts == s.rows[k].facts
  }

  /** A completed row names the stored bundle and the outcome it stands for. */
  ghost predicate CompletedOk(s: Stores) {
    forall k <- s.rows :: s.rows[k].phase == Completed ==>
      k in s.evidence && s.rows[k].evidence == Some(OfBundle(s.evidence[k])) &&
      s.rows[k].outcome == EvidenceOutcome(s.evidence[k])
  }

  /** The row of k is completed with outcome o and its final command is logged. */
  ghost predicate Recorded(s: Stores, k: Key, o: Outcome) {
    k in s.rows && s.rows[k].phase == Completed && s.rows[k].outcome == Some(o) && k in s.evidence &&
    (s.rows[k].run, KindOf(FinalCommand(o, s.evidence[k]))) in s.log
  }

  /** A failure the task took note of was recorded under the run's own command. */
  ghost predicate FailuresOk(s: Stores) {
    forall k: Key {:trigger Known(s.task, k)} :: Known(s.task, k) && Failed(s.task, k) ==>
      Recorded(s, k, DetFailure) || Recorded(s, k, LlmFailure)
  }

  ghost predicate PassedOk(s: Stores) {
    Effective(s.task) in {Passed, Integrated} ==> Recorded(s, KeyOf(s.task), LlmSuccess)
  }

  ghost predicate StoresOk(s: Stores) {
    TaskOk(s.task) && RowsOk(s) && EvidenceOk(s) && CompletedOk(s) && FailuresOk(s) && PassedOk(s)
  }

  ghost predicate Holds(s: Stores, p: Process, r: Row) {
    Known(s.task, p.key) && p.key in s.rows && RowLater(r, s.rows[p.key]) && r.run == p.run
  }

  ghost predicate HoldsBundle(s: Stores, p: Process, r: Row, b: Bundle) {
    Holds(s, p, r) && p.key in s.evidence && s.evidence[p.key] == b
  }

  ghost predicate HoldsOutcome(s: Stores, p: Process, r: Row, b: Bundle) {
    HoldsBundle(s, p, r, b) && s.rows[p.key].phase == Completed && EvidenceOutcome(b).Some?
  }

  ghost predicate ProcessOk(s: Stores, p: Process) {
    match p.pc
    case Begin => true
    case Loaded(_) => Known(s.task, p.key)
    case Claiming(_, _) => Known(s.task, p.key)
    case Looking(_, r) => Holds(s, p, r)
    case Starting(r, _) => Holds(s, p, r)
    case StartObserving(r) => Holds(s, p, r)
    case Checking(r) => Holds(s, p, r)
    case Gating(r, _) => Holds(s, p, r)
    case GateCommitting(r, _, _) => Holds(s, p, r)
    case GateObserving(r, _) => Holds(s, p, r)
    case Marking(r, _) => Holds(s, p, r)
    case Auditing(r, _) => Holds(s, p, r)
    case Persisting(r, b) => Holds(s, p, r) && b.key == p.key && b.facts == r.facts
    case Completing(r, b) => HoldsBundle(s, p, r, b)
    case Finishing(r, b) => HoldsOutcome(s, p, r, b)
    case FinalCommitting(r, b, _) => HoldsOutcome(s, p, r, b)
    case FinalObserving(r, b) => HoldsOutcome(s, p, r, b)
    case Queueing(r, b, _) => HoldsOutcome(s, p, r, b)
    case QueueObserving => true
  }

  ghost predicate Inv(y: System) {
    StoresOk(y.stores) && forall n <- y.processes :: ProcessOk(y.stores, y.processes[n])
  }

  /** What a process relies on survives everything the others do. */
  lemma ProcessSurvives(s: Stores, t: Stores, p: Process)
    requires ProcessOk(s, p) && Forward(s, t)
    ensures ProcessOk(t, p)
  {
    if Known(s.task, p.key) { assert Known(t.task, p.key); }
    if p.key in s.rows { assert RowLater(s.rows[p.key], t.rows[p.key]); }
  }

  // ------------------------------------------------------------- store steps

  lemma RecordedSurvives(s: Stores, t: Stores, k: Key, o: Outcome)
    requires Recorded(s, k, o) && Forward(s, t)
    ensures Recorded(t, k, o)
  {
    assert RowLater(s.rows[k], t.rows[k]);
  }

  /** Failures recorded before stay recorded; only those of `news` may have been added. */
  lemma FailuresSurvive(s: Stores, t: Stores, news: set<Key>)
    requires FailuresOk(s) && Forward(s, t)
    requires forall k <- news :: Failed(t.task, k) ==> Recorded(t, k, DetFailure) || Recorded(t, k, LlmFailure)
    requires forall k: Key {:trigger Known(t.task, k)} ::
               Known(t.task, k) && Failed(t.task, k) && k !in news ==> Known(s.task, k) && Failed(s.task, k)
    ensures FailuresOk(t)
  {
    forall k: Key | Known(t.task, k) && Failed(t.task, k) && k !in news
      ensures Recorded(t, k, DetFailure) || Recorded(t, k, LlmFailure)
    {
      if Recorded(s, k, DetFailure) { RecordedSurvives(s, t, k, DetFailure); }
      if Recorded(s, k, LlmFailure) { RecordedSurvives(s, t, k, LlmFailure); }
    }
  }

  /** A change of the task alone leaves rows and evidence in order. */
  lemma TaskMove(s: Stores, t: Stores)
    requires RowsOk(s) && EvidenceOk(s) && CompletedOk(s)
    requires t.rows == s.rows && t.evidence == s.evidence && Progress(s.task, t.task)
    ensures RowsOk(t) && EvidenceOk(t) && CompletedOk(t)
  {
    forall k <- t.rows ensures Known(t.task, k) {
      assert Known(s.task, k);
    }
  }

  /** Writing rows or evidence leaves the task-related parts of the invariant alone. */
  lemma TaskPartsSurvive(s: Stores, t: Stores)
    requires FailuresOk(s) && PassedOk(s) && Forward(s, t) && t.task == s.task
    ensures FailuresOk(t) && PassedOk(t)
  {
    forall k: Key | Known(t.task, k) && Failed(t.task, k)
      ensures Recorded(t, k, DetFailure) || Recorded(t, k, LlmFailure)
    {
      assert Known(s.task, k);
      if Recorded(s, k, DetFailure) { RecordedSurvives(s, t, k, DetFailure); }
      if Recorded(s, k, LlmFailure) { RecordedSurvives(s, t, k, LlmFailure); }
    }
    if Recorded(s, KeyOf(s.task), LlmSuccess) { RecordedSurvives(s, t, KeyOf(s.task), LlmSuccess); }
  }

  lemma RowWriteKeepsRows(s: Stores, k: Key, r: Row)
    requires RowsOk(s) && k in s.rows && RowLater(s.rows[k], r) && ValidRow(r)
    ensures RowsOk(s.(rows := s.rows[k := r]))
  {
    var t := s.(rows := s.rows[k := r]);
    forall a <- t.rows, b <- t.rows | t.rows[a].run == t.rows[b].run ensures a == b {
      assert s.rows[a].run == s.rows[b].run;
    }
  }

  lemma RowWriteKeepsEvidence(s: Stores, k: Key, r: Row)
    requires EvidenceOk(s) && CompletedOk(s) && k in s.rows && RowLater(s.rows[k], r)
    requires r.phase == Completed ==>
               k in s.evidence && r.evidence == Some(OfBundle(s.evidence[k])) && r.outcome == EvidenceOutcome(s.evidence[k])
    ensures EvidenceOk(s.(rows := s.rows[k := r])) && CompletedOk(s.(rows := s.rows[k := r]))
  {
  }

  lemma RowWriteForward(s: Stores, k: Key, r: Row)
    requires k in s.rows && RowLater(s.rows[k], r)
    ensures Forward(s, s.(rows := s.rows[k := r]))
  {
  }

  /** Moving one row forward. */
  lemma RowWrite(s: Stores, k: Key, r: Row)
    requires StoresOk(s) && k in s.rows && RowLater(s.rows[k], r) && ValidRow(r)
    requires r.phase == Completed ==>
               k in s.evidence && r.evidence == Some(OfBundle(s.evidence[k])) && r.outcome == EvidenceOutcome(s.evidence[k])
    ensures StoresOk(s.(rows := s.rows[k := r])) && Forward(s, s.(rows := s.rows[k := r]))
  {
    var t := s.(rows := s.rows[k := r]);
    RowWriteKeepsRows(s, k, r);
    RowWriteKeepsEvidence(s, k, r);
    RowWriteForward(s, k, r);
    TaskPartsSurvive(s, t);
  }

  lemma RowInsert(s: Stores, k: Key, r: Row)
    requires StoresOk(s) && Known(s.task, k) && k !in s.rows && !RunTaken(s.rows, r.run)
    requires r.phase == InChecks && ValidRow(r)
    ensures StoresOk(s.(rows := s.rows[k := r])) && Forward(s, s.(rows := s.rows[k := r]))
  {
    RowInsertForward(s, k, r);
    TaskPartsSurvive(s, s.(rows := s.rows[k := r]));
    RowInsertKeepsRows(s, k, r);
    RowInsertKeepsEvidence(s, k, r);
  }

  lemma RowInsertForward(s: Stores, k: Key, r: Row)
    requires k !in s.rows
    ensures Forward(s, s.(rows := s.rows[k := r]))
  {
  }

  lemma RowInsertKeepsEvidence(s: Stores, k: Key, r: Row)
    requires EvidenceOk(s) && CompletedOk(s) && k !in s.rows && r.phase == InChecks
    ensures EvidenceOk(s.(rows := s.rows[k := r])) && CompletedOk(s.(rows := s.rows[k := r]))
  {
  }

  lemma RowInsertKeepsRows(s: Stores, k: Key, r: Row)
    requires RowsOk(s) && Known(s.task, k) && k !in s.rows && !RunTaken(s.rows, r.run) && ValidRow(r)
    ensures RowsOk(s.(rows := s.rows[k := r]))
  {
  }

  ghost predicate Kept(s: Stores, t: Stores, next: Next) {
    StoresOk(t) && Forward(s, t) && (next.More? ==> ProcessOk(t, next.process))
  }

  /** The task a commit produces, when it changes anything. */
  lemma CommitMoves(s: Stores, run: RunId, cmd: Command, version: nat, c: Choice)
    requires StoresOk(s)
    ensures var t := CommitStep(s, run, cmd, version, c).0;
            t == s ||
            ((run, KindOf(cmd)) !in s.log && DecideAudit(s.task, cmd) == Some(t.task) && s.task.version == version &&
             t.log == s.log[(run, KindOf(cmd)) := Entry(version, cmd, t.task)] &&
             t.rows == s.rows && t.evidence == s.evidence &&
             Forward(s, t) && TaskOk(t.task) && KeyOf(t.task) == KeyOf(s.task) &&
             RowsOk(t) && EvidenceOk(t) && CompletedOk(t))
  {
    var t := CommitStep(s, run, cmd, version, c).0;
    if t != s {
      AuditProgress(s.task, cmd);
      TaskMove(s, t);
    }
  }

  lemma PlainDecision(t: Task, cmd: Command, k: Key)
    requires TaskOk(t) && (cmd.StartAudit? || cmd.DeterministicSuccess? || cmd.QueueRework?)
    requires DecideAudit(t, cmd).Some?
    ensures var u := DecideAudit(t, cmd).value;
            (Known(u, k) <==> Known(t, k)) && (Failed(u, k) <==> Failed(t, k)) && Effective(u) !in {Passed, Integrated}
  {
  }

  /** A commit that is not a final command. */
  lemma PlainCommit(s: Stores, run: RunId, cmd: Command, version: nat, c: Choice)
    requires cmd.StartAudit? || cmd.DeterministicSuccess? || cmd.QueueRework?
    requires StoresOk(s)
    ensures var t := CommitStep(s, run, cmd, version, c).0; StoresOk(t) && Forward(s, t)
  {
    var t := CommitStep(s, run, cmd, version, c).0;
    ForwardReflexive(s);
    CommitMoves(s, run, cmd, version, c);
    if t != s {
      forall k: Key | Known(t.task, k) && Failed(t.task, k) ensures Known(s.task, k) && Failed(s.task, k) {
        PlainDecision(s.task, cmd, k);
      }
      PlainDecision(s.task, cmd, KeyOf(s.task));
      FailuresSurvive(s, t, {});
    }
  }

  /** What a final command does to the failures and to success. */
  lemma FinalDecision(t: Task, o: Outcome, b: Bundle, k: Key)
    requires TaskOk(t) && DecideAudit(t, FinalCommand(o, b)).Some?
    ensures var u := DecideAudit(t, FinalCommand(o, b)).value;
            Known(t, KeyOf(t)) && !Failed(t, KeyOf(t)) &&
            (Known(u, k) && Failed(u, k) && k != KeyOf(t) ==> Known(t, k) && Failed(t, k)) &&
            (Failed(u, KeyOf(t)) ==> Failure(o)) &&
            (Effective(u) in {Passed, Integrated} ==> o == LlmSuccess)
  {
  }

  /** The final command of a run whose row is completed. If the submission is no
      longer the task's current one, its failure is already recorded under the
      same run and kind, so the log answers and nothing changes. */
  lemma FinalCommit(s: Stores, run: RunId, k: Key, version: nat, c: Choice)
    requires StoresOk(s) && Known(s.task, k) && k in s.rows && s.rows[k].run == run
    requires s.rows[k].phase == Completed && k in s.evidence && EvidenceOutcome(s.evidence[k]).Some?
    ensures var o := EvidenceOutcome(s.evidence[k]).value;
            var t := CommitStep(s, run, FinalCommand(o, s.evidence[k]), version, c).0;
            StoresOk(t) && Forward(s, t) && (k != KeyOf(s.task) ==> t == s)
  {
    var b := s.evidence[k];
    var o := EvidenceOutcome(b).value;
    var cmd := FinalCommand(o, b);
    var t := CommitStep(s, run, cmd, version, c).0;
    ForwardReflexive(s);
    CommitMoves(s, run, cmd, version, c);
    StaleIsLogged(s, run, k);
    KnownIsOlderOrCurrent(s.task, k);
    if t != s {
      assert Recorded(t, k, o);
      forall q: Key | Known(t.task, q) && Failed(t.task, q) && q != k ensures Known(s.task, q) && Failed(s.task, q) {
        FinalDecision(s.task, o, b, q);
      }
      FinalDecision(s.task, o, b, k);
      FailuresSurvive(s, t, {k});
    }
  }

  lemma StaleIsLogged(s: Stores, run: RunId, k: Key)
    requires StoresOk(s) && Known(s.task, k) && k in s.rows && s.rows[k].run == run
    requires s.rows[k].phase == Completed && k in s.evidence && EvidenceOutcome(s.evidence[k]).Some?
    ensures Failed(s.task, k) ==>
              (run, KindOf(FinalCommand(EvidenceOutcome(s.evidence[k]).value, s.evidence[k]))) in s.log
  {
    assert s.rows[k].outcome == EvidenceOutcome(s.evidence[k]);
    if Failed(s.task, k) { assert Recorded(s, k, DetFailure) || Recorded(s, k, LlmFailure); }
  }

  lemma ElsewhereForward(s: Stores, cmd: OtherCommand)
    requires TaskOk(s.task) && RowsOk(s) && EvidenceOk(s) && CompletedOk(s) && DecideOther(s.task, cmd).Some?
    ensures var t := s.(task := DecideOther(s.task, cmd).value);
            Forward(s, t) && TaskOk(t.task) && RowsOk(t) && EvidenceOk(t) && CompletedOk(t)
  {
    OtherProgress(s.task, cmd);
    TaskMove(s, s.(task := DecideOther(s.task, cmd).value));
  }

  lemma ElsewhereStep(s: Stores, cmd: OtherCommand)
    requires StoresOk(s) && DecideOther(s.task, cmd).Some?
    ensures var t := s.(task := DecideOther(s.task, cmd).value); StoresOk(t) && Forward(s, t)
  {
    var t := s.(task := DecideOther(s.task, cmd).value);
    ElsewhereForward(s, cmd);
    ElsewhereFailures(s, cmd);
    OtherKeepsPassed(s.task, cmd);
    if Recorded(s, KeyOf(s.task), LlmSuccess) { RecordedSurvives(s, t, KeyOf(s.task), LlmSuccess); }
  }

  lemma ElsewhereFailures(s: Stores, cmd: OtherCommand)
    requires TaskOk(s.task) && FailuresOk(s) && DecideOther(s.task, cmd).Some?
    requires Forward(s, s.(task := DecideOther(s.task, cmd).value))
    ensures FailuresOk(s.(task := DecideOther(s.task, cmd).value))
  {
    var t := s.(task := DecideOther(s.task, cmd).value);
    forall k: Key | Known(t.task, k) && Failed(t.task, k) ensures Known(s.task, k) && Failed(s.task, k) {
      OtherKeepsFailed(s.task, cmd, k);
    }
    FailuresSurvive(s, t, {});
  }

  // ------------------------------------------------------- one step of a process

  lemma ClaimStep(w: World, s: Stores, p: Process, t: Task, facts: string)
    requires StoresOk(s) && Known(s.task, p.key)
    ensures Kept(s, StepClaiming(w, s, p, t, facts).0, StepClaiming(w, s, p, t, facts).1)
  {
    var r := NewRow(w, p.key, p.run, facts);
    ForwardReflexive(s);
    if p.key !in s.rows && !RunTaken(s.rows, p.run) { RowInsert(s, p.key, r); }
    ClaimedIsHeld(w, s, p, t, facts);
  }

  lemma ClaimedIsHeld(w: World, s: Stores, p: Process, t: Task, facts: string)
    requires Known(s.task, p.key)
    ensures var (s', next) := StepClaiming(w, s, p, t, facts); next.More? ==> ProcessOk(s', next.process)
  {
  }

  lemma MarkStep(s: Stores, p: Process, r: Row, checks: CheckRun)
    requires StoresOk(s) && Holds(s, p, r)
    ensures Kept(s, StepMarking(s, p, r, checks).0, StepMarking(s, p, r, checks).1)
  {
    var (rows, r') := Marked(s.rows, p.key, r, GateDigest(p, r, checks));
    ForwardReflexive(s);
    if rows != s.rows { RowWrite(s, p.key, r'.value); }
  }

  lemma EvidenceInsert(s: Stores, k: Key, b: Bundle)
    requires EvidenceOk(s) && CompletedOk(s)
    requires k in s.rows && k !in s.evidence && b.key == k && b.facts == s.rows[k].facts
    ensures var t := s.(evidence := s.evidence[k := b]); EvidenceOk(t) && CompletedOk(t)
  {
  }

  lemma EvidenceInsertForward(s: Stores, k: Key, b: Bundle)
    requires k !in s.evidence
    ensures Forward(s, s.(evidence := s.evidence[k := b]))
    ensures RowsOk(s) ==> RowsOk(s.(evidence := s.evidence[k := b]))
  {
  }

  lemma PersistStep(s: Stores, p: Process, r: Row, b: Bundle)
    requires StoresOk(s) && Holds(s, p, r) && b.key == p.key && b.facts == r.facts
    ensures Kept(s, StepPersisting(s, p, r, b).0, StepPersisting(s, p, r, b).1)
  {
    var s' := StepPersisting(s, p, r, b).0;
    ForwardReflexive(s);
    if p.key !in s.evidence {
      EvidenceInsert(s, p.key, b);
      EvidenceInsertForward(s, p.key, b);
      TaskPartsSurvive(s, s');
    }
    PersistedIsHeld(s, p, r, b);
  }

  lemma PersistedIsHeld(s: Stores, p: Process, r: Row, b: Bundle)
    requires Holds(s, p, r) && b.key == p.key
    ensures var (s', next) := StepPersisting(s, p, r, b); next.More? ==> ProcessOk(s', next.process)
  {
  }

  lemma CompleteStep(s: Stores, p: Process, r: Row, b: Bundle)
    requires StoresOk(s) && HoldsBundle(s, p, r, b)
    ensures Kept(s, StepCompleting(s, p, r, b).0, StepCompleting(s, p, r, b).1)
  {
    ForwardReflexive(s);
    var o := EvidenceOutcome(b);
    if o.Some? && (o.value == DetFailure || r.phase != InChecks) {
      var (rows, r') := Finished(s.rows, p.key, r, OfBundle(b), o.value);
      assert ValidRow(s.rows[p.key]);
      if rows != s.rows { RowWrite(s, p.key, r'.value); }
    }
  }

  lemma ReadingSteps(w: World, s: Stores, p: Process, c: Choice)
    requires TaskOk(s.task) && ProcessOk(s, p)
    requires p.pc.Begin? || p.pc.Loaded? || p.pc.Looking?
    ensures var (s', next) := Advance(w, s, p, c); s' == s && (next.More? ==> ProcessOk(s, next.process))
  {
  }

  lemma CheckingSteps(w: World, s: Stores, p: Process, c: Choice)
    requires ProcessOk(s, p)
    requires p.pc.StartObserving? || p.pc.Checking? || p.pc.Gating? || p.pc.GateObserving? || p.pc.Auditing?
    ensures var (s', next) := Advance(w, s, p, c); s' == s && (next.More? ==> ProcessOk(s, next.process))
  {
  }

  lemma FinishingSteps(w: World, s: Stores, p: Process, c: Choice)
    requires ProcessOk(s, p)
    requires p.pc.Finishing? || p.pc.FinalObserving? || p.pc.QueueObserving?
    ensures var (s', next) := Advance(w, s, p, c); s' == s && (next.More? ==> ProcessOk(s, next.process))
  {
  }

  lemma StartingKeeps(s: Stores, p: Process, r: Row, v: nat, c: Choice)
    requires StoresOk(s) && Holds(s, p, r)
    ensures Kept(s, StepStarting(s, p, r, v, c).0, StepStarting(s, p, r, v, c).1)
  {
    var s' := StepStarting(s, p, r, v, c).0;
    PlainCommit(s, p.run, StartAudit(r.input), v, c);
    ProcessSurvives(s, s', p.(pc := Checking(r)));
    ProcessSurvives(s, s', p.(pc := StartObserving(r)));
  }

  lemma GateCommittingKeeps(s: Stores, p: Process, r: Row, checks: CheckRun, v: nat, c: Choice)
    requires StoresOk(s) && Holds(s, p, r)
    ensures Kept(s, StepGateCommitting(s, p, r, checks, v, c).0, StepGateCommitting(s, p, r, checks, v, c).1)
  {
    var s' := StepGateCommitting(s, p, r, checks, v, c).0;
    PlainCommit(s, p.run, DeterministicSuccess(GateDigest(p, r, checks)), v, c);
    ProcessSurvives(s, s', p.(pc := GateObserving(r, checks)));
    ProcessSurvives(s, s', p.(pc := Marking(r, checks)));
  }

  lemma FinalCommittingKeeps(s: Stores, p: Process, r: Row, b: Bundle, o: Outcome, v: nat, c: Choice)
    requires StoresOk(s) && HoldsOutcome(s, p, r, b) && EvidenceOutcome(b) == Some(o)
    ensures Kept(s, StepFinalCommitting(s, p, r, b, o, v, c).0, StepFinalCommitting(s, p, r, b, o, v, c).1)
  {
    var (s', u) := CommitStep(s, p.run, FinalCommand(o, b), v, c);
    FinalCommit(s, p.run, p.key, v, c);
    ProcessSurvives(s, s', p.(pc := FinalObserving(r, b)));
    if u.Some? { ProcessSurvives(s, s', p.(pc := Queueing(r, b, u.value.version))); }
  }

  lemma QueueingKeeps(s: Stores, p: Process, b: Bundle, v: nat, c: Choice)
    requires StoresOk(s)
    ensures Kept(s, StepQueueing(s, p, b, v, c).0, StepQueueing(s, p, b, v, c).1)
  {
    PlainCommit(s, p.run, QueueRework(OfBundle(b)), v, c);
  }

  lemma OpeningKeeps(w: World, s: Stores, p: Process, c: Choice)
    requires StoresOk(s) && ProcessOk(s, p)
    requires p.pc.Begin? || p.pc.Loaded? || p.pc.Claiming? || p.pc.Looking?
    ensures Kept(s, Advance(w, s, p, c).0, Advance(w, s, p, c).1)
  {
    if p.pc.Claiming? {
      ClaimStep(w, s, p, p.pc.task, p.pc.facts);
    } else {
      ForwardReflexive(s);
      ReadingSteps(w, s, p, c);
    }
  }

  lemma StartAndCheckKeep(w: World, s: Stores, p: Process, c: Choice)
    requires StoresOk(s) && ProcessOk(s, p)
    requires p.pc.Starting? || p.pc.StartObserving? || p.pc.Checking? || p.pc.Gating?
    ensures Kept(s, Advance(w, s, p, c).0, Advance(w, s, p, c).1)
  {
    if p.pc.Starting? {
      StartingKeeps(s, p, p.pc.row, p.pc.version, c);
    } else {
      ForwardReflexive(s);
      CheckingSteps(w, s, p, c);
    }
  }

  lemma LateAdvanceKeeps(w: World, s: Stores, p: Process, c: Choice)
    requires StoresOk(s) && ProcessOk(s, p)
    requires p.pc.Completing? || p.pc.FinalCommitting? || p.pc.Queueing?
    ensures Kept(s, Advance(w, s, p, c).0, Advance(w, s, p, c).1)
  {
    match p.pc {
      case Completing(r, b) => CompleteStep(s, p, r, b);
      case FinalCommitting(r, b, v) => FinalCommittingKeeps(s, p, r, b, EvidenceOutcome(b).value, v, c);
      case Queueing(r, b, v) => QueueingKeeps(s, p, b, v, c);
    }
  }

  /** Every store call of every process keeps the invariant and only moves the stores forward. */
  lemma AdvanceKeeps(w: World, s: Stores, p: Process, c: Choice)
    requires StoresOk(s) && ProcessOk(s, p)
    ensures Kept(s, Advance(w, s, p, c).0, Advance(w, s, p, c).1)
  {
    if p.pc.Begin? || p.pc.Loaded? || p.pc.Claiming? || p.pc.Looking? {
      OpeningKeeps(w, s, p, c);
    } else if p.pc.Starting? || p.pc.StartObserving? || p.pc.Checking? || p.pc.Gating? {
      StartAndCheckKeep(w, s, p, c);
    } else {
      match p.pc {
        case GateCommitting(r, checks, v) => GateCommittingKeeps(s, p, r, checks, v, c);
        case Marking(r, checks) => MarkStep(s, p, r, checks);
        case Persisting(r, b) => PersistStep(s, p, r, b);
        case GateObserving(_, _) => ForwardReflexive(s); CheckingSteps(w, s, p, c);
        case Auditing(_, _) => ForwardReflexive(s); CheckingSteps(w, s, p, c);
        case Finishing(_, _) => ForwardReflexive(s); FinishingSteps(w, s, p, c);
        case FinalObserving(_, _) => ForwardReflexive(s); FinishingSteps(w, s, p, c);
        case QueueObserving => ForwardReflexive(s); FinishingSteps(w, s, p, c);
        case _ => LateAdvanceKeeps(w, s, p, c);
      }
    }
  }

  lemma StepKeeps(w: World, y: System, step: Step)
    requires Inv(y)
    ensures Inv(Apply(w, y, step)) && Forward(y.stores, Apply(w, y, step).stores)
  {
    var z := Apply(w, y, step);
    ForwardReflexive(y.stores);
    match step {
      case Spawn(slot, run) =>
      case Call(slot, c) =>
        if slot in y.processes { AdvanceKeeps(w, y.stores, y.processes[slot], c); }
      case Crash(slot) =>
      case Elsewhere(cmd) =>
        if DecideOther(y.stores.task, cmd).Some? { ElsewhereStep(y.stores, cmd); }
    }
    forall n <- z.processes | n in y.processes && z.processes[n] == y.processes[n]
      ensures ProcessOk(z.stores, z.processes[n])
    {
      ProcessSurvives(y.stores, z.stores, y.processes[n]);
    }
  }

  lemma {:induction false} ReachableInv(w: World, t: Task, steps: seq<Step>)
    requires Fresh(t)
    ensures Inv(After(w, t, steps))
  {
    if steps != [] {
      ReachableInv(w, t, steps[..|steps| - 1]);
      StepKeeps(w, After(w, t, steps[..|steps| - 1]), steps[|steps| - 1]);
    }
  }

  // ---------------------------------------------------------------- theorems

  /** Evidence that lets its submission pass. */
  predicate Passing(b: Bundle) {
    b.verdict == Pass && b.checks != [] && (forall i | 0 <= i < |b.checks| :: b.checks[i]) &&
    !b.openBlocking && b.criteriaMet
  }

  /** Over all runs, crashes, retries and competing run ids: a task that passed
      (or is blocked from there, or was integrated) has for its current attempt a
      completed row with success, naming by digest the stored bundle, whose
      verdict is PASS, with checks that all passed and nothing left open. */
  lemma PassedIsEarned(w: World, t: Task, steps: seq<Step>)
    requires Fresh(t)
    requires Effective(After(w, t, steps).stores.task) in {Passed, Integrated}
    ensures var s := After(w, t, steps).stores; var k := KeyOf(s.task);
            k in s.rows && s.rows[k].phase == Completed && s.rows[k].outcome == Some(LlmSuccess) &&
            k in s.evidence && s.rows[k].evidence == Some(OfBundle(s.evidence[k])) &&
            s.evidence[k].key == k && Passing(s.evidence[k])
  {
    ReachableInv(w, t, steps);
  }

  /** Between any two moments of any run the task, its rows, the evidence and the
      log only move forward. */
  lemma {:induction false} StoresMoveForward(w: World, t: Task, steps: seq<Step>, i: nat)
    requires Fresh(t) && i <= |steps|
    ensures Forward(After(w, t, steps[..i]).stores, After(w, t, steps).stores)
    decreases |steps|
  {
    if i == |steps| {
      assert steps[..i] == steps;
      ForwardReflexive(After(w, t, steps).stores);
    } else {
      var front := steps[..|steps| - 1];
      assert front[..i] == steps[..i];
      StoresMoveForward(w, t, front, i);
      ReachableInv(w, t, front);
      StepKeeps(w, After(w, t, front), steps[|steps| - 1]);
      ForwardTransitive(After(w, t, steps[..i]).stores, After(w, t, front).stores, After(w, t, steps).stores);
    }
  }

  /** A crash between any two store calls leaves the stores agreeing: rows are
      well-formed and belong to submissions that exist, evidence belongs to a
      claimed submission, a completed row names it, and any outcome the task has
      taken note of is on a completed row. */
  lemma CrashLeavesAgreement(w: World, t: Task, steps: seq<Step>, k: Key)
    requires Fresh(t)
    ensures var s := After(w, t, steps).stores;
            (k in s.rows ==> ValidRow(s.rows[k]) && Known(s.task, k)) &&
            (k in s.evidence ==> k in s.rows && s.evidence[k].key == k && s.evidence[k].facts == s.rows[k].facts) &&
            (k in s.rows && s.rows[k].phase == Completed ==>
               k in s.evidence && s.rows[k].evidence == Some(OfBundle(s.evidence[k])) &&
               s.rows[k].outcome == EvidenceOutcome(s.evidence[k])) &&
            (Known(s.task, k) && Failed(s.task, k) ==>
               k in s.rows && s.rows[k].phase == Completed && s.rows[k].outcome.value != LlmSuccess)
  {
    ReachableInv(w, t, steps);
    var s := After(w, t, steps).stores;
    if Known(s.task, k) && Failed(s.task, k) {
      assert Recorded(s, k, DetFailure) || Recorded(s, k, LlmFailure);
    }
  }
}
