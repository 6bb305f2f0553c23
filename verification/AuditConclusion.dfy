/** What an undisturbed run makes of a submission it finds ready for audit or under
    audit: it concludes exactly when the coordination row is, or can become, its own. */
module AuditConclusion {
  import opened Wrappers
  import opened ModuleTasks
  import opened AuditStores
  import opened AuditProtocol
  import opened AuditSafety
  import opened AuditRecovery
  import opened AuditRerun

  /** A process all of whose assumptions hold, on the task's current submission. */
  ghost predicate Live(w: World, s: Stores, p: Process) {
    Healthy(w, s) && ProcessOk(s, p) && ProcessInStep(w, s, p) && p.key == KeyOf(s.task)
  }

  /** It works with the stored row, and nobody has stored evidence. */
  predicate Working(s: Stores, p: Process, r: Row) {
    p.key in s.rows && s.rows[p.key] == r && r.run == p.run && p.key !in s.evidence
  }

  /** The bundle says what the checks said of the submission and, if they all passed,
      what the auditor answered. */
  predicate Answers(w: World, k: Key, b: Bundle, c: Choice) {
    b.key == k && b.checks == w.check(k, b.facts, c.noise).statuses && b.rest == c.rest &&
    if forall i | 0 <= i < |b.checks| :: b.checks[i]
    then b.verdict == c.verdict && b.openBlocking == c.openBlocking && b.criteriaMet == c.criteriaMet
    else b.verdict == NotRun
  }

  /** Driven to its end, the process succeeds and leaves the outcome of its evidence everywhere. */
  ghost predicate Concludes(w: World, s: Stores, p: Process, c: Choice) {
    var (u, ok) := Drive(w, s, p, c);
    ok && p.key in u.evidence && Concluded(u, p.key, u.evidence[p.key]) &&
    (p.key !in s.evidence ==> Answers(w, p.key, u.evidence[p.key], c))
  }

  /** The auditor gives an answer that counts, and the policy allows the commits. */
  predicate Answering(c: Choice) { c.allowed && c.verdict != NotRun && c.verdict != Other }

  lemma LiveStep(w: World, s: Stores, p: Process, c: Choice)
    requires Healthy(w, s) && ProcessOk(s, p) && ProcessInStep(w, s, p)
    ensures var (t, next) := Advance(w, s, p, c);
            Healthy(w, t) && (next.More? ==> ProcessOk(t, next.process) && ProcessInStep(w, t, next.process))
  {
    AdvanceKeeps(w, s, p, c);
    AdvanceInStep(w, s, p, c);
  }

  /** One call of a live process that stays on its submission. */
  lemma LiveOn(w: World, s: Stores, p: Process, c: Choice, t: Stores, q: Process)
    requires Live(w, s, p) && Advance(w, s, p, c) == (t, More(q)) && q.key == p.key && KeyOf(t.task) == KeyOf(s.task)
    requires p.key in t.evidence ==> p.key in s.evidence
    ensures Live(w, t, q) && (Concludes(w, t, q, c) ==> Concludes(w, s, p, c))
  {
    LiveStep(w, s, p, c);
    DriveOn(w, s, p, c, t, q);
  }

  lemma PersistingConcludes(w: World, s: Stores, p: Process, r: Row, b: Bundle, c: Choice)
    requires Live(w, s, p) && Working(s, p, r) && p.pc == Persisting(r, b) && Open(s.task) && c.allowed
    requires Answers(w, p.key, b, c)
    ensures Concludes(w, s, p, c)
  {
    var t := s.(evidence := s.evidence[p.key := b]);
    var q := p.(pc := Completing(r, b));
    LiveStep(w, s, p, c);
    DriveOn(w, s, p, c, t, q);
    CompletingConcludes(w, t, q, b, c);
  }

  lemma AuditingConcludes(w: World, s: Stores, p: Process, r: Row, checks: CheckRun, c: Choice)
    requires Live(w, s, p) && Working(s, p, r) && p.pc == Auditing(r, checks) && Open(s.task) && Answering(c)
    ensures Concludes(w, s, p, c)
  {
    assert checks == w.check(p.key, r.facts, c.noise);
    var next := StepAuditing(p, r, checks, c);
    LiveOn(w, s, p, c, s, next.process);
    PersistingConcludes(w, s, next.process, r, next.process.pc.bundle, c);
  }

  /** The stored row takes, or already has, the digest of the checks that passed. */
  lemma MarkingGoesOn(w: World, s: Stores, p: Process, r: Row, checks: CheckRun)
    requires Healthy(w, s) && Working(s, p, r) && PassedChecks(w, p, r, checks)
    ensures var (t, next) := StepMarking(s, p, r, checks);
            p.key in t.rows && next == Go(p, Auditing(t.rows[p.key], checks)) && t.task == s.task &&
            Working(t, p, t.rows[p.key])
  {
    assert RowInStep(w, s, p.key, r) && ValidRow(r);
    assert r.phase != Completed;
  }

  lemma MarkingConcludes(w: World, s: Stores, p: Process, r: Row, checks: CheckRun, c: Choice)
    requires Live(w, s, p) && Working(s, p, r) && p.pc == Marking(r, checks) && Open(s.task) && Answering(c)
    ensures Concludes(w, s, p, c)
  {
    var (t, next) := StepMarking(s, p, r, checks);
    MarkingGoesOn(w, s, p, r, checks);
    LiveOn(w, s, p, c, t, next.process);
    AuditingConcludes(w, t, next.process, t.rows[p.key], checks, c);
  }

  lemma ObservingGateConcludes(w: World, s: Stores, p: Process, r: Row, checks: CheckRun, c: Choice)
    requires Live(w, s, p) && Working(s, p, r) && p.pc == GateObserving(r, checks) && s.task.state == LLMAudit && Answering(c)
    ensures Concludes(w, s, p, c)
  {
    var q := p.(pc := Marking(r, checks));
    LiveOn(w, s, p, c, s, q);
    MarkingConcludes(w, s, q, r, checks, c);
  }

  lemma GateTakesEffect(w: World, s: Stores, p: Process, r: Row, checks: CheckRun, c: Choice)
    requires Healthy(w, s) && p.key == KeyOf(s.task) && Working(s, p, r) && s.task.state == DeterministicAudit && c.allowed
    ensures var (t, u) := CommitStep(s, p.run, DeterministicSuccess(GateDigest(p, r, checks)), s.task.version, c);
            t.task.state == LLMAudit && KeyOf(t.task) == KeyOf(s.task) && Working(t, p, r) &&
            u == if c.reported(SuccessKind) then Some(t.task) else None
  {
    CommandIsNew(s, p.run, p.key, SuccessKind);
    CommitTakesEffect(s, p.run, DeterministicSuccess(GateDigest(p, r, checks)), c);
  }

  lemma GateCommittingConcludes(w: World, s: Stores, p: Process, r: Row, checks: CheckRun, c: Choice)
    requires Live(w, s, p) && Working(s, p, r) && p.pc == GateCommitting(r, checks, s.task.version)
    requires s.task.state == DeterministicAudit && Answering(c)
    ensures Concludes(w, s, p, c)
  {
    GateTakesEffect(w, s, p, r, checks, c);
    var (t, next) := StepGateCommitting(s, p, r, checks, s.task.version, c);
    LiveOn(w, s, p, c, t, next.process);
    if c.reported(SuccessKind) {
      MarkingConcludes(w, t, next.process, r, checks, c);
    } else {
      ObservingGateConcludes(w, t, next.process, r, checks, c);
    }
  }

  lemma GatingConcludes(w: World, s: Stores, p: Process, r: Row, checks: CheckRun, c: Choice)
    requires Live(w, s, p) && Working(s, p, r) && p.pc == Gating(r, checks) && UnderAudit(s.task.state) && Answering(c)
    ensures Concludes(w, s, p, c)
  {
    var next := StepGating(s, p, r, checks);
    LiveOn(w, s, p, c, s, next.process);
    if s.task.state == LLMAudit {
      MarkingConcludes(w, s, next.process, r, checks, c);
    } else {
      GateCommittingConcludes(w, s, next.process, r, checks, c);
    }
  }

  lemma CheckingConcludes(w: World, s: Stores, p: Process, r: Row, c: Choice)
    requires Live(w, s, p) && Working(s, p, r) && p.pc == Checking(r) && UnderAudit(s.task.state) && Answering(c)
    ensures Concludes(w, s, p, c)
  {
    var next := StepChecking(w, p, r, c);
    LiveOn(w, s, p, c, s, next.process);
    if next.process.pc.Gating? {
      GatingConcludes(w, s, next.process, r, next.process.pc.checks, c);
    } else {
      PersistingConcludes(w, s, next.process, r, next.process.pc.bundle, c);
    }
  }

  lemma ObservingStartConcludes(w: World, s: Stores, p: Process, r: Row, c: Choice)
    requires Live(w, s, p) && Working(s, p, r) && p.pc == StartObserving(r) && UnderAudit(s.task.state) && Answering(c)
    ensures Concludes(w, s, p, c)
  {
    var q := p.(pc := Checking(r));
    LiveOn(w, s, p, c, s, q);
    CheckingConcludes(w, s, q, r, c);
  }

  lemma StartTakesEffect(w: World, s: Stores, p: Process, r: Row, c: Choice)
    requires Healthy(w, s) && p.key == KeyOf(s.task) && Working(s, p, r) && s.task.state == Submitted && c.allowed
    ensures var (t, u) := CommitStep(s, p.run, StartAudit(r.input), s.task.version, c);
            t.task.state == DeterministicAudit && KeyOf(t.task) == KeyOf(s.task) && Working(t, p, r) &&
            u == if c.reported(StartAuditKind) then Some(t.task) else None
  {
    CommandIsNew(s, p.run, p.key, StartAuditKind);
    CommitTakesEffect(s, p.run, StartAudit(r.input), c);
  }

  lemma StartingConcludes(w: World, s: Stores, p: Process, r: Row, c: Choice)
    requires Live(w, s, p) && Working(s, p, r) && p.pc == Starting(r, s.task.version)
    requires s.task.state == Submitted && Answering(c)
    ensures Concludes(w, s, p, c)
  {
    StartTakesEffect(w, s, p, r, c);
    var (t, next) := StepStarting(s, p, r, s.task.version, c);
    LiveOn(w, s, p, c, t, next.process);
    if c.reported(StartAuditKind) {
      CheckingConcludes(w, t, next.process, r, c);
    } else {
      ObservingStartConcludes(w, t, next.process, r, c);
    }
  }

  predicate Auditable(t: Task) { t.state == Submitted || UnderAudit(t.state) }

  lemma LookingConcludes(w: World, s: Stores, p: Process, r: Row, c: Choice)
    requires Live(w, s, p) && Working(s, p, r) && p.pc == Looking(s.task, r) && Auditable(s.task) && Answering(c)
    ensures Concludes(w, s, p, c)
  {
    assert r.phase != Completed;
    var next := StepLooking(s, p, s.task, r);
    LiveOn(w, s, p, c, s, next.process);
    if s.task.state == Submitted {
      StartingConcludes(w, s, next.process, r, c);
    } else {
      CheckingConcludes(w, s, next.process, r, c);
    }
  }

  /** The row is the run's own, or the run can claim it. */
  predicate Claimable(s: Stores, run: RunId) {
    var k := KeyOf(s.task);
    RunOwns(s, run, k) || (k !in s.rows && !RunTaken(s.rows, run) && s.task.state == Submitted)
  }

  lemma LoadedConcludes(w: World, s: Stores, p: Process, c: Choice)
    requires Live(w, s, p) && p.pc == Loaded(s.task) && Auditable(s.task) && p.key !in s.evidence
    requires Claimable(s, p.run) && Answering(c)
    ensures Concludes(w, s, p, c)
  {
    if p.key in s.rows {
      var r := s.rows[p.key];
      assert RowInStep(w, s, p.key, r);
      var q := p.(pc := Looking(s.task, r));
      LiveOn(w, s, p, c, s, q);
      LookingConcludes(w, s, q, r, c);
    } else {
      var claiming := p.(pc := Claiming(s.task, c.facts));
      LiveOn(w, s, p, c, s, claiming);
      var r := NewRow(w, p.key, p.run, c.facts);
      var t := s.(rows := s.rows[p.key := r]);
      var q := p.(pc := Looking(s.task, r));
      LiveOn(w, s, claiming, c, t, q);
      LookingConcludes(w, t, q, r, c);
    }
  }

  /** A run that cannot have the row stops before it changes anything. */
  lemma LoadedRefused(w: World, s: Stores, p: Process, c: Choice)
    requires p.pc == Loaded(s.task) && p.key == KeyOf(s.task) && !Claimable(s, p.run)
    ensures Drive(w, s, p, c) == (s, false)
  {
    DriveNext(w, s, p, c);
    if p.key !in s.rows && s.task.state == Submitted {
      DriveNext(w, s, p.(pc := Claiming(s.task, c.facts)), c);
    }
  }

  lemma BeginLoads(w: World, s: Stores, run: RunId, c: Choice)
    requires Healthy(w, s) && Auditable(s.task)
    ensures var p := Process(run, KeyOf(s.task), Loaded(s.task));
            Live(w, s, p) && Drive(w, s, Process(run, Key("", 0), Begin), c) == Drive(w, s, p, c)
  {
    var begin := Process(run, Key("", 0), Begin);
    LiveStep(w, s, begin, c);
    DriveOn(w, s, begin, c, s, Process(run, KeyOf(s.task), Loaded(s.task)));
  }

  /** What a successful run leaves: its submission concluded by the evidence that was
      stored before, or else by what the checks and the auditor say now. */
  ghost predicate Audited(w: World, s: Stores, u: Stores, c: Choice) {
    var k := KeyOf(s.task);
    k in u.evidence && Concluded(u, k, u.evidence[k]) &&
    if k in s.evidence then u.evidence[k] == s.evidence[k] else Answers(w, k, u.evidence[k], c)
  }

  lemma ClaimableConcludes(w: World, s: Stores, run: RunId, c: Choice)
    requires Healthy(w, s) && Auditable(s.task) && Claimable(s, run) && Answering(c)
    ensures var (u, ok) := Drive(w, s, Process(run, Key("", 0), Begin), c); ok && Audited(w, s, u, c)
  {
    BeginLoads(w, s, run, c);
    if KeyOf(s.task) in s.evidence {
      RerunConcludes(w, s, run, c);
    } else {
      LoadedConcludes(w, s, Process(run, KeyOf(s.task), Loaded(s.task)), c);
    }
  }

  /** On healthy stores, with a submission that waits for its audit or is under it, the
      undisturbed run of an answering auditor succeeds if and only if the row is its own
      or free for it to claim; it then concludes the submission by the evidence stored
      before or by what the checks and the auditor say now, though any answer to a
      commit be lost, and otherwise changes nothing. */
  lemma RunConcludesIff(w: World, s: Stores, run: RunId, c: Choice)
    requires Healthy(w, s) && Auditable(s.task) && Answering(c)
    ensures var (u, ok) := Drive(w, s, Process(run, Key("", 0), Begin), c);
            (ok <==> Claimable(s, run)) && (!ok ==> u == s) &&
            (ok ==> Audited(w, s, u, c))
  {
    if Claimable(s, run) {
      ClaimableConcludes(w, s, run, c);
    } else {
      BeginLoads(w, s, run, c);
      LoadedRefused(w, s, Process(run, KeyOf(s.task), Loaded(s.task)), c);
    }
  }

  /** A run that finds neither its own stored evidence nor a submission to audit stops
      before it changes anything. */
  lemma RunRefused(w: World, s: Stores, run: RunId, c: Choice)
    requires !Recoverable(s, run) && !Auditable(s.task)
    ensures Drive(w, s, Process(run, Key("", 0), Begin), c) == (s, false)
  {
    var k := KeyOf(s.task);
    var loaded := Process(run, k, Loaded(s.task));
    DriveNext(w, s, Process(run, Key("", 0), Begin), c);
    DriveNext(w, s, loaded, c);
    if k in s.rows { DriveNext(w, s, loaded.(pc := Looking(s.task, s.rows[k])), c); }
  }

  /** Over all healthy stores, the undisturbed run of an answering auditor succeeds if and
      only if it owns the stored evidence of a task that is neither blocked by a
      dependency nor superseded, or can have the row of a submission to audit. */
  lemma RunSucceedsIff(w: World, s: Stores, run: RunId, c: Choice)
    requires Healthy(w, s) && Answering(c)
    ensures var (u, ok) := Drive(w, s, Process(run, Key("", 0), Begin), c);
            (ok <==> if Recoverable(s, run) then Open(s.task) else Auditable(s.task) && Claimable(s, run)) &&
            (ok ==> Audited(w, s, u, c)) && (!ok && !Recoverable(s, run) ==> u == s)
  {
    if Recoverable(s, run) {
      RerunConcludes(w, s, run, c);
    } else if Auditable(s.task) {
      RunConcludesIff(w, s, run, c);
    } else {
      RunRefused(w, s, run, c);
    }
  }

  /** The same from every reachable state, however many runs have crashed or are still
      alive, if checks are a function of the input. */
  lemma EveryRunSucceedsIff(w: World, t: Task, steps: seq<Step>, run: RunId, c: Choice)
    requires Deterministic(w) && Fresh(t) && Answering(c)
    ensures var s := After(w, t, steps).stores;
            var (u, ok) := Drive(w, s, Process(run, Key("", 0), Begin), c);
            (ok <==> if Recoverable(s, run) then Open(s.task) else Auditable(s.task) && Claimable(s, run)) &&
            (ok ==> Audited(w, s, u, c)) && (!ok && !Recoverable(s, run) ==> u == s)
  {
    ReachableInv(w, t, steps);
    ReachableInStep(w, t, steps);
    RunSucceedsIff(w, After(w, t, steps).stores, run, c);
  }

  // --------------------------------------------- a task that moves away under its audit

  lemma Extend(w: World, t: Task, steps: seq<Step>, y: System, e: Step)
    requires After(w, t, steps) == y
    ensures After(w, t, steps + [e]) == Apply(w, y, e)
  {
    assert (steps + [e])[..|steps|] == steps;
  }

  /** A planned task, made ready, leased and submitted. */
  lemma Submitting(w: World, t: Task) returns (steps: seq<Step>, u: Task)
    requires Fresh(t)
    ensures After(w, t, steps) == Initial(u)
    ensures u == t.(state := Submitted, attempt := 1, fencing := t.fencing + 1, version := t.version + 3)
  {
    var y := Initial(t);
    var token := t.fencing + 1;
    steps := [];
    Extend(w, t, steps, y, Elsewhere(MakeReady));
    steps, y := steps + [Elsewhere(MakeReady)], Apply(w, y, Elsewhere(MakeReady));
    Extend(w, t, steps, y, Elsewhere(LeaseExecution(token, false)));
    steps, y := steps + [Elsewhere(LeaseExecution(token, false))], Apply(w, y, Elsewhere(LeaseExecution(token, false)));
    Extend(w, t, steps, y, Elsewhere(Submit(token, t.series)));
    steps, y := steps + [Elsewhere(Submit(token, t.series))], Apply(w, y, Elsewhere(Submit(token, t.series)));
    u := y.stores.task;
  }

  const CHOICE := Choice("facts", 0, Pass, false, true, 0, true, (_: Kind) => true)

  /** One call of the only process. */
  lemma CallOnce(w: World, t: Task, steps: seq<Step>, s: Stores, p: Process, u: Stores, q: Process) returns (more: seq<Step>)
    requires After(w, t, steps) == System(s, map[0 := p]) && Advance(w, s, p, CHOICE) == (u, More(q))
    ensures After(w, t, more) == System(u, map[0 := q])
  {
    var e := Call(0, CHOICE);
    Extend(w, t, steps, System(s, map[0 := p]), e);
    more := steps + [e];
    assert map[0 := p][0 := q] == map[0 := q];
  }

  /** A run up to its claim, from a submitted task. */
  lemma ClaimingRun(w: World, t: Task, start: seq<Step>, u: Task, run: RunId) returns (steps: seq<Step>, s: Stores, p: Process)
    requires After(w, t, start) == Initial(u) && u.state == Submitted && u.attempt == 1 && u.series != ""
    ensures After(w, t, steps) == System(s, map[0 := p])
    ensures var k := KeyOf(u); var r := NewRow(w, k, run, CHOICE.facts);
            s == Stores(u, map[], map[k := r], map[]) && p == Process(run, k, Looking(u, r))
  {
    var k := KeyOf(u);
    s := Initial(u).stores;
    p := Process(run, Key("", 0), Begin);
    Extend(w, t, start, Initial(u), Spawn(0, run));
    steps := start + [Spawn(0, run)];
    var r := NewRow(w, k, run, CHOICE.facts);
    var loaded := Process(run, k, Loaded(u));
    var claiming := Process(run, k, Claiming(u, CHOICE.facts));
    steps := CallOnce(w, t, steps, s, p, s, loaded);
    steps := CallOnce(w, t, steps, s, loaded, s, claiming);
    var s' := Stores(u, map[], map[k := r], map[]);
    p := Process(run, k, Looking(u, r));
    steps := CallOnce(w, t, steps, s, claiming, s', p);
    s := s';
  }

  /** And on, to its checks. */
  lemma CheckingRun(w: World, t: Task, run: RunId) returns (steps: seq<Step>, s: Stores, p: Process)
    requires Fresh(t)
    ensures After(w, t, steps) == System(s, map[0 := p])
    ensures var k := Key(t.series, 1); var r := NewRow(w, k, run, CHOICE.facts);
            p == Process(run, k, Checking(r)) && s.rows == map[k := r] && s.evidence == map[] &&
            s.task.state == DeterministicAudit && KeyOf(s.task) == k && s.task.blocking == t.blocking
  {
    var u;
    steps, u := Submitting(w, t);
    steps, s, p := ClaimingRun(w, t, steps, u, run);
    var starting := p.(pc := Starting(p.pc.row, u.version));
    steps := CallOnce(w, t, steps, s, p, s, starting);
    var (s', next) := Advance(w, s, starting, CHOICE);
    steps := CallOnce(w, t, steps, s, starting, s', next.process);
    s, p := s', next.process;
  }

  /** And on, with checks that fail, until their evidence is stored. */
  lemma FailingRun(w: World, t: Task, run: RunId) returns (steps: seq<Step>, s: Stores, p: Process)
    requires Fresh(t) && !AllPass(w.check(Key(t.series, 1), CHOICE.facts, 0).statuses)
    ensures After(w, t, steps) == System(s, map[0 := p])
    ensures Recoverable(s, run) && s.task.state == DeterministicAudit && s.task.blocking == t.blocking
  {
    steps, s, p := CheckingRun(w, t, run);
    var persisting := Advance(w, s, p, CHOICE).1.process;
    steps := CallOnce(w, t, steps, s, p, s, persisting);
    var (s', last) := Advance(w, s, persisting, CHOICE);
    steps := CallOnce(w, t, steps, s, persisting, s', last.process);
    s, p := s', last.process;
  }

  /** Blocking or superseding a task whose evidence is stored makes the rerun fail, and
      that state is reached: the condition of a successful rerun is not always met. */
  lemma RerunMayFail(w: World, t: Task, run: RunId, cmd: OtherCommand, c: Choice) returns (steps: seq<Step>)
    requires Deterministic(w) && Fresh(t) && !AllPass(w.check(Key(t.series, 1), CHOICE.facts, 0).statuses) && c.allowed
    requires t.blocking == {} && (cmd == BlockDependency("other") || cmd == Supersede)
    ensures var s := After(w, t, steps).stores;
            Recoverable(s, run) && !Open(s.task) && !Drive(w, s, Process(run, Key("", 0), Begin), c).1
  {
    var s, p;
    steps, s, p := FailingRun(w, t, run);
    Extend(w, t, steps, System(s, map[0 := p]), Elsewhere(cmd));
    steps := steps + [Elsewhere(cmd)];
    EveryRerunConcludes(w, t, steps, run, c);
  }
}
