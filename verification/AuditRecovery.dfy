/** Recovery: when the deterministic checks are a function of the input, the three
    stores stay in step whatever crashes. */
module AuditRecovery {
  import opened Wrappers
  import opened ModuleTasks
  import opened AuditStores
  import opened AuditProtocol
  import opened AuditSafety

  ghost predicate Deterministic(w: World) {
    forall k: Key, facts: string, n: nat :: w.check(k, facts, n) == w.check(k, facts, 0)
  }

  function Checks(w: World, k: Key, r: Row): CheckRun { w.check(k, r.facts, 0) }

  function RowGate(w: World, k: Key, r: Row): Digest {
    OfGate(k, r.facts, Checks(w, k, r).statuses, Checks(w, k, r).detail)
  }

  // ------------------------------------------------------------ the invariant

  ghost predicate Reached(s: Stores, k: Key, n: nat) { Known(s.task, k) && Stage(s.task, k) >= n }

  ghost function Subject(d: Digest): Key {
    match d case OfInput(k, _) => k case OfGate(k, _, _, _) => k case OfBundle(b) => b.key
  }

  predicate RunOwns(s: Stores, run: RunId, k: Key) { k in s.rows && s.rows[k].run == run }

  ghost predicate EntryInStep(s: Stores, run: RunId, e: Entry) {
    match e.command
    case StartAudit(d) => d.OfInput? && Reached(s, d.input, 1) && RunOwns(s, run, d.input)
    case DeterministicSuccess(d) => d.OfGate? && Reached(s, d.gate, 2) && RunOwns(s, run, d.gate)
    case QueueRework(d) => d.OfBundle? && Reached(s, d.bundle.key, 4) && RunOwns(s, run, d.bundle.key)
    case _ =>
      var d := e.command.digest;
      d.OfBundle? && Reached(s, d.bundle.key, 3) && RunOwns(s, run, d.bundle.key)
  }

  /** Every logged command had its effect on the submission it names. */
  ghost predicate LogInStep(s: Stores) {
    forall id <- s.log :: KindOf(s.log[id].command) == id.1 && EntryInStep(s, id.0, s.log[id])
  }

  ghost predicate RowInStep(w: World, s: Stores, k: Key, r: Row) {
    Prepared(w, k, r) &&
    (r.gate.Some? ==>
       AllPass(Checks(w, k, r).statuses) && r.gate == Some(RowGate(w, k, r)) &&
       (r.run, SuccessKind) in s.log && Reached(s, k, 2))
  }

  ghost predicate RowsInStep(w: World, s: Stores) {
    forall k <- s.rows :: RowInStep(w, s, k, s.rows[k])
  }

  ghost predicate BundleInStep(w: World, s: Stores, k: Key, b: Bundle) {
    k in s.rows && b.checks == Checks(w, k, s.rows[k]).statuses && b.verdict != Other && Reached(s, k, 1) &&
    (b.verdict == NotRun ==> !AllPass(b.checks)) &&
    (b.verdict != NotRun ==> AllPass(b.checks) && s.rows[k].gate.Some?)
  }

  ghost predicate EvidenceInStep(w: World, s: Stores) {
    forall k <- s.evidence :: BundleInStep(w, s, k, s.evidence[k])
  }

  ghost predicate TaskInStep(w: World, s: Stores) {
    Effective(s.task) == LLMAudit ==>
      var k := KeyOf(s.task);
      k in s.rows && AllPass(Checks(w, k, s.rows[k]).statuses) && (s.rows[k].run, SuccessKind) in s.log
  }

  ghost predicate InStep(w: World, s: Stores) {
    LogInStep(s) && RowsInStep(w, s) && EvidenceInStep(w, s) && TaskInStep(w, s)
  }

  ghost predicate PassedChecks(w: World, p: Process, r: Row, checks: CheckRun) {
    checks == Checks(w, p.key, r) && AllPass(checks.statuses)
  }

  ghost predicate ProcessInStep(w: World, s: Stores, p: Process) {
    match p.pc
    case Loaded(t) => UnderAudit(t.state) ==> Reached(s, p.key, 1)
    case Claiming(t, _) => UnderAudit(t.state) ==> Reached(s, p.key, 1)
    case Looking(t, _) => UnderAudit(t.state) ==> Reached(s, p.key, 1)
    case Checking(_) => Reached(s, p.key, 1)
    case Gating(r, checks) => Reached(s, p.key, 1) && PassedChecks(w, p, r, checks)
    case GateCommitting(r, checks, _) => Reached(s, p.key, 1) && PassedChecks(w, p, r, checks)
    case GateObserving(r, checks) => Reached(s, p.key, 1) && PassedChecks(w, p, r, checks)
    case Marking(r, checks) =>
      Reached(s, p.key, 2) && PassedChecks(w, p, r, checks) && (p.run, SuccessKind) in s.log
    case Auditing(r, checks) =>
      Reached(s, p.key, 2) && PassedChecks(w, p, r, checks) && p.key in s.rows && s.rows[p.key].gate.Some?
    case Persisting(r, b) => BundleInStep(w, s, p.key, b)
    case _ => true
  }

  // ---------------------------------------------------------------- stability

  lemma ReachedSurvives(s: Stores, t: Stores, k: Key, n: nat)
    requires Reached(s, k, n) && Forward(s, t)
    ensures Reached(t, k, n)
  {
    assert Known(t.task, k);
  }

  lemma EntrySurvives(s: Stores, t: Stores, run: RunId, e: Entry)
    requires EntryInStep(s, run, e) && Forward(s, t)
    ensures EntryInStep(t, run, e)
  {
    var k := Subject(e.command.digest);
    assert RowLater(s.rows[k], t.rows[k]);
    match e.command {
      case StartAudit(_) => ReachedSurvives(s, t, k, 1);
      case DeterministicSuccess(_) => ReachedSurvives(s, t, k, 2);
      case QueueRework(_) => ReachedSurvives(s, t, k, 4);
      case _ => ReachedSurvives(s, t, k, 3);
    }
  }

  lemma BundleSurvives(w: World, s: Stores, t: Stores, k: Key, b: Bundle)
    requires BundleInStep(w, s, k, b) && Forward(s, t)
    ensures BundleInStep(w, t, k, b)
  {
    ReachedSurvives(s, t, k, 1);
    assert RowLater(s.rows[k], t.rows[k]);
  }

  lemma RowSurvives(w: World, s: Stores, t: Stores, k: Key, r: Row)
    requires RowInStep(w, s, k, r) && Forward(s, t)
    ensures RowInStep(w, t, k, r)
  {
    if r.gate.Some? { ReachedSurvives(s, t, k, 2); }
  }

  lemma ProcessInStepSurvives(w: World, s: Stores, t: Stores, p: Process)
    requires ProcessInStep(w, s, p) && Forward(s, t)
    ensures ProcessInStep(w, t, p)
  {
    if Reached(s, p.key, 1) { ReachedSurvives(s, t, p.key, 1); }
    if Reached(s, p.key, 2) { ReachedSurvives(s, t, p.key, 2); }
    if p.key in s.rows { assert RowLater(s.rows[p.key], t.rows[p.key]); }
    if p.pc.Persisting? { BundleSurvives(w, s, t, p.key, p.pc.bundle); }
  }

  /** If nothing new was written and the task did not enter the LLM audit, the
      stores stay in step. */
  lemma OldPartsSurvive(w: World, s: Stores, t: Stores)
    requires InStep(w, s) && Forward(s, t)
    requires forall id <- t.log :: id in s.log || (KindOf(t.log[id].command) == id.1 && EntryInStep(t, id.0, t.log[id]))
    requires forall k <- t.rows :: (k in s.rows && t.rows[k] == s.rows[k]) || RowInStep(w, t, k, t.rows[k])
    requires forall k <- t.evidence :: k in s.evidence || BundleInStep(w, t, k, t.evidence[k])
    requires (Effective(t.task) == Effective(s.task) && KeyOf(t.task) == KeyOf(s.task)) || TaskInStep(w, t)
    ensures InStep(w, t)
  {
    forall id <- t.log ensures KindOf(t.log[id].command) == id.1 && EntryInStep(t, id.0, t.log[id]) {
      if id in s.log { EntrySurvives(s, t, id.0, s.log[id]); }
    }
    forall k <- t.rows ensures RowInStep(w, t, k, t.rows[k]) {
      if k in s.rows && t.rows[k] == s.rows[k] { RowSurvives(w, s, t, k, s.rows[k]); }
    }
    forall k <- t.evidence ensures BundleInStep(w, t, k, t.evidence[k]) {
      if k in s.evidence { BundleSurvives(w, s, t, k, s.evidence[k]); }
    }
    if KeyOf(s.task) in s.rows { assert RowLater(s.rows[KeyOf(s.task)], t.rows[KeyOf(s.task)]); }
  }

  // -------------------------------------------------------------- commit steps

  /** After an audit command took effect, every known submission has come at least that far. */
  lemma StageAfter(t: Task, cmd: Command, k: Key)
    requires TaskOk(t) && DecideAudit(t, cmd).Some? && Known(t, k)
    ensures Known(DecideAudit(t, cmd).value, k)
    ensures Stage(DecideAudit(t, cmd).value, k) >=
            match cmd case StartAudit(_) => 1 case DeterministicSuccess(_) => 2 case QueueRework(_) => 4 case _ => 3
    ensures var u := DecideAudit(t, cmd).value;
            KeyOf(u) == KeyOf(t) && (Effective(u) == LLMAudit <==> cmd.DeterministicSuccess?)
  {
  }

  /** A command names its own submission by the kind of digest that belongs to it. */
  ghost predicate Names(s: Stores, run: RunId, cmd: Command, k: Key) {
    Known(s.task, k) && k in s.rows && s.rows[k].run == run && Subject(cmd.digest) == k &&
    match cmd
    case StartAudit(d) => d.OfInput?
    case DeterministicSuccess(d) => d.OfGate?
    case _ => cmd.digest.OfBundle?
  }

  lemma NewEntryInStep(s: Stores, t: Stores, run: RunId, cmd: Command, k: Key, version: nat)
    requires TaskOk(s.task) && Names(s, run, cmd, k) && DecideAudit(s.task, cmd) == Some(t.task) && t.rows == s.rows
    ensures EntryInStep(t, run, Entry(version, cmd, t.task))
  {
    StageAfter(s.task, cmd, k);
  }

  lemma CommitInStep(w: World, s: Stores, run: RunId, cmd: Command, k: Key, version: nat, c: Choice)
    requires StoresOk(s) && InStep(w, s) && Names(s, run, cmd, k)
    requires cmd.DeterministicSuccess? && (run, SuccessKind) !in s.log ==>
               k == KeyOf(s.task) && AllPass(Checks(w, k, s.rows[k]).statuses)
    ensures InStep(w, CommitStep(s, run, cmd, version, c).0)
  {
    var t := CommitStep(s, run, cmd, version, c).0;
    CommitMoves(s, run, cmd, version, c);
    if t != s {
      NewEntryInStep(s, t, run, cmd, k, version);
      TaskInStepAfter(w, s, t, run, cmd, k);
      OldPartsSurvive(w, s, t);
    }
  }

  lemma TaskInStepAfter(w: World, s: Stores, t: Stores, run: RunId, cmd: Command, k: Key)
    requires TaskOk(s.task) && DecideAudit(s.task, cmd) == Some(t.task) && t.rows == s.rows && Names(s, run, cmd, k)
    requires cmd.DeterministicSuccess? ==>
               k == KeyOf(s.task) && AllPass(Checks(w, k, s.rows[k]).statuses) && (run, SuccessKind) in t.log
    ensures TaskInStep(w, t)
  {
    StageAfter(s.task, cmd, k);
  }

  /** A successful or repeated commit means the submission has come that far. */
  lemma CommitReached(w: World, s: Stores, run: RunId, cmd: Command, k: Key, version: nat, c: Choice)
    requires StoresOk(s) && InStep(w, s) && Names(s, run, cmd, k)
    requires CommitStep(s, run, cmd, version, c).1.Some?
    requires cmd.StartAudit? || cmd.DeterministicSuccess?
    ensures Reached(CommitStep(s, run, cmd, version, c).0, k, if cmd.StartAudit? then 1 else 2)
    ensures (run, KindOf(cmd)) in CommitStep(s, run, cmd, version, c).0.log
  {
    var t := CommitStep(s, run, cmd, version, c).0;
    if (run, KindOf(cmd)) in s.log {
      assert EntryInStep(s, run, s.log[(run, KindOf(cmd))]);
    } else {
      StageAfter(s.task, cmd, k);
    }
  }

  /** A process past its checks whose submission is no longer current finds its
      own gate command in the log. */
  lemma PassedAndOld(w: World, s: Stores, p: Process, r: Row, checks: CheckRun)
    requires StoresOk(s) && InStep(w, s) && Holds(s, p, r) && PassedChecks(w, p, r, checks)
    ensures p.key == KeyOf(s.task) || (p.run, SuccessKind) in s.log
  {
    if p.key != KeyOf(s.task) {
      KnownIsOlderOrCurrent(s.task, p.key);
      assert Recorded(s, p.key, DetFailure) || Recorded(s, p.key, LlmFailure);
      assert BundleInStep(w, s, p.key, s.evidence[p.key]);
      assert ValidRow(s.rows[p.key]) && s.rows[p.key].outcome == EvidenceOutcome(s.evidence[p.key]);
      assert RowInStep(w, s, p.key, s.rows[p.key]);
    }
  }

  /** Seeing the task in the LLM audit is enough to go on to the coordination row. */
  lemma SawLlmAudit(w: World, s: Stores, p: Process, r: Row, checks: CheckRun)
    requires StoresOk(s) && InStep(w, s) && Holds(s, p, r) && PassedChecks(w, p, r, checks)
    requires s.task.state == LLMAudit
    ensures Reached(s, p.key, 2) && (p.run, SuccessKind) in s.log
  {
    PassedAndOld(w, s, p, r, checks);
    KnownIsOlderOrCurrent(s.task, p.key);
  }

  // ------------------------------------------------------- one step of a process

  ghost predicate KeptInStep(w: World, t: Stores, next: Next) {
    InStep(w, t) && (next.More? ==> ProcessInStep(w, t, next.process))
  }

  lemma BeginInStep(w: World, s: Stores, p: Process)
    requires StoresOk(s)
    ensures var next := StepBegin(s, p); next.More? ==> ProcessInStep(w, s, next.process)
  {
  }

  lemma ClaimInStep(w: World, s: Stores, p: Process, t: Task, facts: string)
    requires StoresOk(s) && InStep(w, s) && ProcessInStep(w, s, p) && p.pc == Claiming(t, facts)
    requires Forward(s, StepClaiming(w, s, p, t, facts).0)
    ensures KeptInStep(w, StepClaiming(w, s, p, t, facts).0, StepClaiming(w, s, p, t, facts).1)
  {
    var (s', next) := StepClaiming(w, s, p, t, facts);
    OldPartsSurvive(w, s, s');
    if Reached(s, p.key, 1) { ReachedSurvives(s, s', p.key, 1); }
  }

  lemma StartingInStep(w: World, s: Stores, p: Process, r: Row, v: nat, c: Choice)
    requires StoresOk(s) && InStep(w, s) && Holds(s, p, r)
    requires Forward(s, StepStarting(s, p, r, v, c).0)
    ensures KeptInStep(w, StepStarting(s, p, r, v, c).0, StepStarting(s, p, r, v, c).1)
  {
    assert RowInStep(w, s, p.key, s.rows[p.key]);
    CommitInStep(w, s, p.run, StartAudit(r.input), p.key, v, c);
    if CommitStep(s, p.run, StartAudit(r.input), v, c).1.Some? {
      CommitReached(w, s, p.run, StartAudit(r.input), p.key, v, c);
    }
  }

  lemma GateCommittingInStep(w: World, s: Stores, p: Process, r: Row, checks: CheckRun, v: nat, c: Choice)
    requires StoresOk(s) && InStep(w, s) && Holds(s, p, r)
    requires Reached(s, p.key, 1) && PassedChecks(w, p, r, checks)
    requires Forward(s, StepGateCommitting(s, p, r, checks, v, c).0)
    ensures KeptInStep(w, StepGateCommitting(s, p, r, checks, v, c).0, StepGateCommitting(s, p, r, checks, v, c).1)
  {
    var cmd := DeterministicSuccess(GateDigest(p, r, checks));
    var s' := StepGateCommitting(s, p, r, checks, v, c).0;
    PassedAndOld(w, s, p, r, checks);
    CommitInStep(w, s, p.run, cmd, p.key, v, c);
    ReachedSurvives(s, s', p.key, 1);
    if CommitStep(s, p.run, cmd, v, c).1.Some? { CommitReached(w, s, p.run, cmd, p.key, v, c); }
  }

  /** Writing one row in step keeps everything in step. */
  lemma RowChangeInStep(w: World, s: Stores, k: Key, r: Row)
    requires InStep(w, s) && Forward(s, s.(rows := s.rows[k := r])) && RowInStep(w, s.(rows := s.rows[k := r]), k, r)
    ensures InStep(w, s.(rows := s.rows[k := r]))
  {
    OldPartsSurvive(w, s, s.(rows := s.rows[k := r]));
  }

  lemma MarkedRowInStep(w: World, s: Stores, k: Key, d: Digest)
    requires k in s.rows && RowInStep(w, s, k, s.rows[k]) && Reached(s, k, 2)
    requires AllPass(Checks(w, k, s.rows[k]).statuses) && (s.rows[k].run, SuccessKind) in s.log && d == RowGate(w, k, s.rows[k])
    requires Forward(s, s.(rows := s.rows[k := s.rows[k].(phase := InLlm, gate := Some(d))]))
    ensures var r := s.rows[k].(phase := InLlm, gate := Some(d));
            RowInStep(w, s.(rows := s.rows[k := r]), k, r) && Reached(s.(rows := s.rows[k := r]), k, 2)
  {
    ReachedSurvives(s, s.(rows := s.rows[k := s.rows[k].(phase := InLlm, gate := Some(d))]), k, 2);
  }

  lemma MarkInStep(w: World, s: Stores, p: Process, r: Row, checks: CheckRun)
    requires StoresOk(s) && InStep(w, s) && Holds(s, p, r)
    requires Reached(s, p.key, 2) && PassedChecks(w, p, r, checks) && (p.run, SuccessKind) in s.log
    requires Forward(s, StepMarking(s, p, r, checks).0)
    ensures KeptInStep(w, StepMarking(s, p, r, checks).0, StepMarking(s, p, r, checks).1)
  {
    var stored := s.rows[p.key];
    var d := GateDigest(p, r, checks);
    assert RowInStep(w, s, p.key, stored);
    if stored.phase == InChecks {
      MarkedRowInStep(w, s, p.key, d);
      RowChangeInStep(w, s, p.key, stored.(phase := InLlm, gate := Some(d)));
    }
  }

  lemma PersistInStep(w: World, s: Stores, p: Process, r: Row, b: Bundle)
    requires InStep(w, s) && BundleInStep(w, s, p.key, b) && b.key == p.key
    requires Forward(s, StepPersisting(s, p, r, b).0)
    ensures KeptInStep(w, StepPersisting(s, p, r, b).0, StepPersisting(s, p, r, b).1)
  {
    var s' := StepPersisting(s, p, r, b).0;
    BundleSurvives(w, s, s', p.key, b);
    OldPartsSurvive(w, s, s');
  }

  /** Completing a row keeps what its gate digest stands for. */
  lemma CompletedRowInStep(w: World, s: Stores, t: Stores, k: Key, d: Digest, o: Outcome)
    requires k in s.rows && RowInStep(w, s, k, s.rows[k]) && Forward(s, t)
    ensures RowInStep(w, t, k, s.rows[k].(phase := Completed, evidence := Some(d), outcome := Some(o)))
  {
    if s.rows[k].gate.Some? { ReachedSurvives(s, t, k, 2); }
  }

  lemma FinishedChanges(s: Stores, k: Key, expected: Row, d: Digest, o: Outcome)
    requires k in s.rows
    ensures var rows := Finished(s.rows, k, expected, d, o).0;
            rows == s.rows || rows == s.rows[k := s.rows[k].(phase := Completed, evidence := Some(d), outcome := Some(o))]
  {
  }

  lemma CompleteInStep(w: World, s: Stores, p: Process, r: Row, b: Bundle)
    requires InStep(w, s) && p.key in s.rows
    requires Forward(s, StepCompleting(s, p, r, b).0)
    ensures KeptInStep(w, StepCompleting(s, p, r, b).0, StepCompleting(s, p, r, b).1)
  {
    var s' := StepCompleting(s, p, r, b).0;
    if s' != s {
      var o := EvidenceOutcome(b).value;
      FinishedChanges(s, p.key, r, OfBundle(b), o);
      assert RowInStep(w, s, p.key, s.rows[p.key]);
      CompletedRowInStep(w, s, s', p.key, OfBundle(b), o);
      RowChangeInStep(w, s, p.key, s.rows[p.key].(phase := Completed, evidence := Some(OfBundle(b)), outcome := Some(o)));
    }
  }

  lemma FinalCommittingInStep(w: World, s: Stores, p: Process, r: Row, b: Bundle, o: Outcome, v: nat, c: Choice)
    requires StoresOk(s) && InStep(w, s) && HoldsOutcome(s, p, r, b) && EvidenceOutcome(b) == Some(o)
    ensures KeptInStep(w, StepFinalCommitting(s, p, r, b, o, v, c).0, StepFinalCommitting(s, p, r, b, o, v, c).1)
  {
    CommitInStep(w, s, p.run, FinalCommand(o, b), p.key, v, c);
  }

  lemma QueueingInStep(w: World, s: Stores, p: Process, r: Row, b: Bundle, v: nat, c: Choice)
    requires StoresOk(s) && InStep(w, s) && HoldsOutcome(s, p, r, b)
    ensures KeptInStep(w, StepQueueing(s, p, b, v, c).0, StepQueueing(s, p, b, v, c).1)
  {
    CommitInStep(w, s, p.run, QueueRework(OfBundle(b)), p.key, v, c);
  }

  lemma LoadingInStep(w: World, s: Stores, p: Process, c: Choice)
    requires ProcessInStep(w, s, p) && (p.pc.Loaded? || p.pc.Looking?)
    ensures var next := Advance(w, s, p, c).1; next.More? ==> ProcessInStep(w, s, next.process)
  {
  }

  lemma StartObservingInStep(w: World, s: Stores, p: Process, r: Row)
    requires Known(s.task, p.key) && UnderAudit(s.task.state)
    ensures ProcessInStep(w, s, p.(pc := Checking(r)))
  {
    KnownIsOlderOrCurrent(s.task, p.key);
  }

  lemma CheckingInStep(w: World, s: Stores, p: Process, r: Row, c: Choice)
    requires Deterministic(w) && Holds(s, p, r) && Reached(s, p.key, 1)
    ensures var next := StepChecking(w, p, r, c); next.More? ==> ProcessInStep(w, s, next.process)
  {
    assert w.check(p.key, r.facts, c.noise) == w.check(p.key, r.facts, 0);
  }

  lemma AuditingInStep(w: World, s: Stores, p: Process, r: Row, checks: CheckRun, c: Choice)
    requires Holds(s, p, r) && Reached(s, p.key, 2) && PassedChecks(w, p, r, checks) && s.rows[p.key].gate.Some?
    ensures var next := StepAuditing(p, r, checks, c); next.More? ==> ProcessInStep(w, s, next.process)
  {
  }

  lemma GatingInStep(w: World, s: Stores, p: Process, c: Choice, r: Row, checks: CheckRun)
    requires StoresOk(s) && InStep(w, s) && Holds(s, p, r) && Reached(s, p.key, 1) && PassedChecks(w, p, r, checks)
    ensures var next := StepGating(s, p, r, checks); next.More? ==> ProcessInStep(w, s, next.process)
  {
    if s.task.state == LLMAudit { SawLlmAudit(w, s, p, r, checks); }
  }

  lemma GateObservingInStep(w: World, s: Stores, p: Process, c: Choice, r: Row, checks: CheckRun)
    requires StoresOk(s) && InStep(w, s) && Holds(s, p, r) && Reached(s, p.key, 1) && PassedChecks(w, p, r, checks)
    requires p.pc == GateObserving(r, checks)
    ensures var (_, next) := Advance(w, s, p, c); next.More? ==> ProcessInStep(w, s, next.process)
  {
    if s.task.state == LLMAudit { SawLlmAudit(w, s, p, r, checks); }
  }

  lemma EarlyAdvanceInStep(w: World, s: Stores, p: Process, c: Choice)
    requires Deterministic(w) && StoresOk(s) && ProcessOk(s, p) && InStep(w, s) && ProcessInStep(w, s, p)
    requires p.pc.Begin? || p.pc.Loaded? || p.pc.Claiming? || p.pc.Looking? || p.pc.Starting? || p.pc.StartObserving? ||
             p.pc.Checking?
    requires Forward(s, Advance(w, s, p, c).0)
    ensures KeptInStep(w, Advance(w, s, p, c).0, Advance(w, s, p, c).1)
  {
    match p.pc {
      case Begin => BeginInStep(w, s, p);
      case Loaded(_) => LoadingInStep(w, s, p, c);
      case Claiming(t, facts) => ClaimInStep(w, s, p, t, facts);
      case Looking(_, _) => LoadingInStep(w, s, p, c);
      case Starting(r, v) => StartingInStep(w, s, p, r, v, c);
      case StartObserving(r) => if UnderAudit(s.task.state) { StartObservingInStep(w, s, p, r); }
      case Checking(r) => CheckingInStep(w, s, p, r, c);
    }
  }

  lemma GateAdvanceInStep(w: World, s: Stores, p: Process, c: Choice)
    requires StoresOk(s) && ProcessOk(s, p) && InStep(w, s) && ProcessInStep(w, s, p)
    requires p.pc.Gating? || p.pc.GateCommitting? || p.pc.GateObserving?
    requires Forward(s, Advance(w, s, p, c).0)
    ensures KeptInStep(w, Advance(w, s, p, c).0, Advance(w, s, p, c).1)
  {
    match p.pc {
      case Gating(r, checks) => GatingInStep(w, s, p, c, r, checks);
      case GateCommitting(r, checks, v) => GateCommittingInStep(w, s, p, r, checks, v, c);
      case GateObserving(r, checks) => GateObservingInStep(w, s, p, c, r, checks);
    }
  }

  lemma MarkAdvanceInStep(w: World, s: Stores, p: Process, c: Choice)
    requires StoresOk(s) && ProcessOk(s, p) && InStep(w, s) && ProcessInStep(w, s, p)
    requires p.pc.Marking? || p.pc.Auditing?
    requires Forward(s, Advance(w, s, p, c).0)
    ensures KeptInStep(w, Advance(w, s, p, c).0, Advance(w, s, p, c).1)
  {
    match p.pc {
      case Marking(r, checks) => MarkInStep(w, s, p, r, checks);
      case Auditing(r, checks) => AuditingInStep(w, s, p, r, checks, c);
    }
  }

  lemma FinishingInStep(w: World, s: Stores, p: Process, c: Choice)
    requires p.pc.Finishing? || p.pc.FinalObserving? || p.pc.QueueObserving?
    ensures var (s', next) := Advance(w, s, p, c); s' == s && (next.More? ==> ProcessInStep(w, s, next.process))
  {
  }

  lemma StoringInStep(w: World, s: Stores, p: Process, c: Choice)
    requires StoresOk(s) && ProcessOk(s, p) && InStep(w, s) && ProcessInStep(w, s, p)
    requires p.pc.Persisting? || p.pc.Completing?
    requires Forward(s, Advance(w, s, p, c).0)
    ensures KeptInStep(w, Advance(w, s, p, c).0, Advance(w, s, p, c).1)
  {
    match p.pc {
      case Persisting(r, b) => PersistInStep(w, s, p, r, b);
      case Completing(r, b) => CompleteInStep(w, s, p, r, b);
    }
  }

  lemma FinalAdvanceInStep(w: World, s: Stores, p: Process, c: Choice)
    requires StoresOk(s) && ProcessOk(s, p) && InStep(w, s) && p.pc.FinalCommitting?
    ensures KeptInStep(w, Advance(w, s, p, c).0, Advance(w, s, p, c).1)
  {
    FinalCommittingInStep(w, s, p, p.pc.row, p.pc.bundle, EvidenceOutcome(p.pc.bundle).value, p.pc.version, c);
  }

  lemma QueueAdvanceInStep(w: World, s: Stores, p: Process, c: Choice)
    requires StoresOk(s) && ProcessOk(s, p) && InStep(w, s) && p.pc.Queueing?
    ensures KeptInStep(w, Advance(w, s, p, c).0, Advance(w, s, p, c).1)
  {
    QueueingInStep(w, s, p, p.pc.row, p.pc.bundle, p.pc.version, c);
  }

  /** Every store call of every process keeps the stores in step. */
  lemma AdvanceInStep(w: World, s: Stores, p: Process, c: Choice)
    requires Deterministic(w) && StoresOk(s) && ProcessOk(s, p) && InStep(w, s) && ProcessInStep(w, s, p)
    requires Forward(s, Advance(w, s, p, c).0)
    ensures KeptInStep(w, Advance(w, s, p, c).0, Advance(w, s, p, c).1)
  {
    if p.pc.Gating? || p.pc.GateCommitting? || p.pc.GateObserving? {
      GateAdvanceInStep(w, s, p, c);
    } else if p.pc.Marking? || p.pc.Auditing? {
      MarkAdvanceInStep(w, s, p, c);
    } else if p.pc.Persisting? || p.pc.Completing? {
      StoringInStep(w, s, p, c);
    } else if p.pc.FinalCommitting? {
      FinalAdvanceInStep(w, s, p, c);
    } else if p.pc.Queueing? {
      QueueAdvanceInStep(w, s, p, c);
    } else if p.pc.Finishing? || p.pc.FinalObserving? || p.pc.QueueObserving? {
      FinishingInStep(w, s, p, c);
    } else {
      EarlyAdvanceInStep(w, s, p, c);
    }
  }

  ghost predicate SystemInStep(w: World, y: System) {
    InStep(w, y.stores) && forall n <- y.processes :: ProcessInStep(w, y.stores, y.processes[n])
  }

  lemma ElsewhereInStep(w: World, s: Stores, cmd: OtherCommand)
    requires StoresOk(s) && InStep(w, s) && DecideOther(s.task, cmd).Some?
    requires Forward(s, s.(task := DecideOther(s.task, cmd).value))
    ensures InStep(w, s.(task := DecideOther(s.task, cmd).value))
  {
    var t := s.(task := DecideOther(s.task, cmd).value);
    OtherKeepsLlmAudit(s.task, cmd);
    assert TaskInStep(w, t);
    OldPartsSurvive(w, s, t);
  }

  lemma StepInStep(w: World, y: System, step: Step)
    requires Deterministic(w) && Inv(y) && SystemInStep(w, y)
    ensures SystemInStep(w, Apply(w, y, step))
  {
    var z := Apply(w, y, step);
    StepKeeps(w, y, step);
    match step {
      case Call(slot, c) => if slot in y.processes { AdvanceInStep(w, y.stores, y.processes[slot], c); }
      case Elsewhere(cmd) => if DecideOther(y.stores.task, cmd).Some? { ElsewhereInStep(w, y.stores, cmd); }
      case _ =>
    }
    forall n <- z.processes | n in y.processes && z.processes[n] == y.processes[n]
      ensures ProcessInStep(w, z.stores, z.processes[n])
    {
      ProcessInStepSurvives(w, y.stores, z.stores, y.processes[n]);
    }
  }

  lemma {:induction false} ReachableInStep(w: World, t: Task, steps: seq<Step>)
    requires Deterministic(w) && Fresh(t)
    ensures SystemInStep(w, After(w, t, steps))
  {
    if steps != [] {
      ReachableInv(w, t, steps[..|steps| - 1]);
      ReachableInStep(w, t, steps[..|steps| - 1]);
      StepInStep(w, After(w, t, steps[..|steps| - 1]), steps[|steps| - 1]);
    }
  }

  /** A crash between any two store calls leaves task, row and evidence in step. */
  lemma CrashLeavesStoresInStep(w: World, t: Task, steps: seq<Step>, k: Key)
    requires Deterministic(w) && Fresh(t)
    ensures var s := After(w, t, steps).stores;
            (k in s.rows && s.rows[k].phase == InLlm ==> Stage(s.task, k) >= 2) &&
            (k in s.evidence ==> k in s.rows && s.evidence[k].checks == Checks(w, k, s.rows[k]).statuses && Stage(s.task, k) >= 1) &&
            (k in s.evidence && s.evidence[k].verdict != NotRun ==> s.rows[k].phase != InChecks) &&
            (k in s.evidence && s.evidence[k].verdict == NotRun ==> s.rows[k].phase != InLlm) &&
            (k in s.rows && s.rows[k].outcome == Some(DetFailure) ==> !AllPass(Checks(w, k, s.rows[k]).statuses))
  {
    ReachableInv(w, t, steps);
    ReachableInStep(w, t, steps);
    var s := After(w, t, steps).stores;
    if k in s.evidence { assert BundleInStep(w, s, k, s.evidence[k]); }
    if k in s.rows {
      assert RowInStep(w, s, k, s.rows[k]) && ValidRow(s.rows[k]);
      if s.rows[k].phase == Completed { assert BundleInStep(w, s, k, s.evidence[k]); }
    }
  }
}
