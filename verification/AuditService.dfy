/** The audit service as a program over the store objects. An undisturbed call
    is exactly one process of the protocol driven to its end. */
module AuditService {
  import opened Wrappers
  import opened ModuleTasks
  import opened AuditStores
  import opened AuditProtocol
  import opened AuditRerun
  import opened AuditConclusion

  class ModuleAuditService {
    const world: World
    const tasks: TaskAuthority
    const checkpoints: CoordinationStore
    const evidence: EvidenceStore

    constructor (world: World, tasks: TaskAuthority, checkpoints: CoordinationStore, evidence: EvidenceStore)
      ensures this.world == world && this.tasks == tasks && this.checkpoints == checkpoints && this.evidence == evidence
    {
      this.world := world;
      this.tasks := tasks;
      this.checkpoints := checkpoints;
      this.evidence := evidence;
    }

    ghost function Now(): Stores
      reads tasks, checkpoints, evidence
    {
      Stores(tasks.task, tasks.log, checkpoints.rows, evidence.items)
    }

    /** Commit a command; if no answer arrives, look whether its effect is there. */
    method CommitOrObserve(run: RunId, cmd: Command, version: nat, c: Choice, reached: Task -> bool)
      returns (r: Option<Task>)
      modifies tasks
      ensures var (s, u) := CommitStep(old(Now()), run, cmd, version, c);
              Now() == s &&
              r == if u.Some? then (if reached(u.value) then u else None)
                   else if reached(s.task) then Some(s.task) else None
    {
      var answer := tasks.Commit(run, cmd, version, c.allowed);
      if answer.Some? && c.reported(KindOf(cmd)) {
        if !reached(answer.value) { return None; }
        return answer;
      }
      if reached(tasks.task) { return Some(tasks.task); }
      return None;
    }

    method QueueRework(run: RunId, key: Key, row: Row, b: Bundle, version: nat, c: Choice) returns (ok: bool)
      modifies tasks
      ensures (Now(), ok) == Drive(world, old(Now()), Process(run, key, Queueing(row, b, version)), c)
    {
      var p := Process(run, key, Queueing(row, b, version));
      ghost var (s, next) := Advance(world, Now(), p, c);
      var r := CommitOrObserve(run, AuditCommand.QueueRework(OfBundle(b)), version, c, (t: Task) => ReworkStarted(t));
      ok := r.Some?;
      if next.More? { DriveOn(world, old(Now()), p, c, s, next.process); }
    }

    /** From the final commit on. */
    method CommitFinal(run: RunId, key: Key, row: Row, b: Bundle, o: Outcome, version: nat, c: Choice) returns (ok: bool)
      requires EvidenceOutcome(b) == Some(o)
      modifies tasks
      ensures (Now(), ok) == Drive(world, old(Now()), Process(run, key, FinalCommitting(row, b, version)), c)
    {
      var p := Process(run, key, FinalCommitting(row, b, version));
      ghost var (s, next) := Advance(world, Now(), p, c);
      var r := CommitOrObserve(run, FinalCommand(o, b), version, c, (t: Task) => OutcomeReached(t, o));
      if next.More? {
        DriveOn(world, old(Now()), p, c, s, next.process);
        if next.process.pc.FinalObserving? && r.Some? && Failure(o) && r.value.state == ReworkRequired {
          DriveOn(world, s, next.process, c, s, p.(pc := Queueing(row, b, r.value.version)));
        }
      }
      if r.None? { return false; }
      if Failure(o) && r.value.state == ReworkRequired {
        ok := QueueRework(run, key, row, b, r.value.version, c);
        return;
      }
      return true;
    }

    method FinishEvidence(run: RunId, key: Key, row: Row, b: Bundle, c: Choice) returns (ok: bool)
      modifies tasks, checkpoints
      ensures (Now(), ok) == Drive(world, old(Now()), Process(run, key, Completing(row, b)), c)
    {
      var p := Process(run, key, Completing(row, b));
      var outcome := EvidenceOutcome(b);
      if outcome.None? { return false; }
      var o := outcome.value;
      if o != DetFailure && row.phase == InChecks { return false; }
      var completed := checkpoints.Complete(key, row, OfBundle(b), o);
      if completed.None? { return false; }
      ghost var s := Now();
      DriveOn(world, old(Now()), p, c, s, p.(pc := Finishing(row, b)));
      var current := tasks.task;
      if Failure(o) && current.state == ReworkRequired {
        DriveOn(world, s, p.(pc := Finishing(row, b)), c, s, p.(pc := Queueing(row, b, current.version)));
        ok := QueueRework(run, key, row, b, current.version, c);
        return;
      }
      if OutcomeReached(current, o) { return true; }
      var expected := if o == DetFailure then DeterministicAudit else LLMAudit;
      if current.state != expected { return false; }
      DriveOn(world, s, p.(pc := Finishing(row, b)), c, s, p.(pc := FinalCommitting(row, b, current.version)));
      ok := CommitFinal(run, key, row, b, o, current.version, c);
    }

    /** The gate between the checks and the auditor: the task first, then the row. */
    method Gate(run: RunId, key: Key, row: Row, checks: CheckRun, c: Choice) returns (r: Option<Row>)
      modifies tasks, checkpoints
      ensures var before := Drive(world, old(Now()), Process(run, key, Gating(row, checks)), c);
              if r.Some? then before == Drive(world, Now(), Process(run, key, Auditing(r.value, checks)), c)
              else before == (Now(), false)
    {
      var p := Process(run, key, Gating(row, checks));
      var marking := p.(pc := Marking(row, checks));
      var current := tasks.task;
      var digest := OfGate(key, row.facts, checks.statuses, checks.detail);
      if current.state == DeterministicAudit {
        var committing := p.(pc := GateCommitting(row, checks, current.version));
        DriveOn(world, Now(), p, c, Now(), committing);
        var u := CommitOrObserve(run, DeterministicSuccess(digest), current.version, c, (t: Task) => t.state == LLMAudit);
        ghost var (s, next) := Advance(world, old(Now()), committing, c);
        if next.More? {
          DriveOn(world, old(Now()), committing, c, s, next.process);
          if next.process.pc.GateObserving? && u.Some? { DriveOn(world, s, next.process, c, s, marking); }
        }
        if u.None? { return None; }
        current := u.value;
      } else if current.state == LLMAudit {
        DriveOn(world, Now(), p, c, Now(), marking);
      }
      if current.state != LLMAudit { return None; }
      ghost var s := Now();
      r := checkpoints.MarkDeterministic(key, row, digest);
      if r.Some? { DriveOn(world, s, marking, c, Now(), p.(pc := Auditing(r.value, checks))); }
    }

    /** Checks, gate, auditor, and the bundle into the evidence store. */
    method RunPipeline(run: RunId, key: Key, row: Row, c: Choice) returns (r: Option<(Row, Bundle)>)
      modifies tasks, checkpoints, evidence
      ensures var before := Drive(world, old(Now()), Process(run, key, Checking(row)), c);
              if r.Some? then before == Drive(world, Now(), Process(run, key, Completing(r.value.0, r.value.1)), c)
              else before == (Now(), false)
    {
      var p := Process(run, key, Checking(row));
      var checks := world.check(key, row.facts, c.noise);
      var passed := true;
      for i := 0 to |checks.statuses|
        invariant passed <==> AllPass(checks.statuses[..i])
      {
        if !checks.statuses[i] { passed := false; }
      }
      var b := Bundle(key, row.facts, checks.statuses, NotRun, true, true, c.rest);
      var held := row;
      if passed {
        DriveOn(world, Now(), p, c, Now(), p.(pc := Gating(row, checks)));
        var gated := Gate(run, key, row, checks, c);
        if gated.None? { return None; }
        held := gated.value;
        if c.verdict == NotRun || c.verdict == Other { return None; }
        b := Bundle(key, held.facts, checks.statuses, c.verdict, c.openBlocking, c.criteriaMet, c.rest);
        DriveOn(world, Now(), p.(pc := Auditing(held, checks)), c, Now(), p.(pc := Persisting(held, b)));
      } else {
        DriveOn(world, Now(), p, c, Now(), p.(pc := Persisting(held, b)));
      }
      ghost var s := Now();
      var stored := evidence.Put(b);
      if !stored { return None; }
      DriveOn(world, s, p.(pc := Persisting(held, b)), c, Now(), p.(pc := Completing(held, b)));
      return Some((held, b));
    }

    /** Start the audit if need be, run the pipeline, finish with its evidence. */
    method StartAndRun(run: RunId, key: Key, task: Task, row: Row, c: Choice) returns (ok: bool)
      requires key !in evidence.items
      modifies tasks, checkpoints, evidence
      ensures (Now(), ok) == Drive(world, old(Now()), Process(run, key, Looking(task, row)), c)
    {
      var p := Process(run, key, Looking(task, row));
      var checking := p.(pc := Checking(row));
      if row.phase == Completed || TerminalAfterAudit(task.state) { return false; }
      if task.state == Submitted {
        var starting := p.(pc := Starting(row, task.version));
        DriveOn(world, Now(), p, c, Now(), starting);
        var u := CommitOrObserve(run, StartAudit(row.input), task.version, c, (t: Task) => UnderAudit(t.state));
        ghost var (s, next) := Advance(world, old(Now()), starting, c);
        if next.More? {
          DriveOn(world, old(Now()), starting, c, s, next.process);
          if next.process.pc.StartObserving? && u.Some? { DriveOn(world, s, next.process, c, s, checking); }
        }
        if u.None? { return false; }
      } else {
        if !UnderAudit(task.state) { return false; }
        DriveOn(world, Now(), p, c, Now(), checking);
      }
      var r := RunPipeline(run, key, row, c);
      if r.None? { return false; }
      ok := FinishEvidence(run, key, r.value.0, r.value.1, c);
    }

    /** The coordination row of a run: found and matching, or claimed now. */
    method FindOrClaim(run: RunId, key: Key, task: Task, c: Choice) returns (r: Option<Row>)
      modifies checkpoints
      ensures var before := Drive(world, old(Now()), Process(run, key, Loaded(task)), c);
              if r.Some? then before == Drive(world, Now(), Process(run, key, Looking(task, r.value)), c)
              else before == (Now(), false)
    {
      var loaded := Process(run, key, Loaded(task));
      var found := checkpoints.Get(key);
      if found.Some? {
        var row := found.value;
        if row.run != run || !Prepared(world, key, row) { return None; }
        DriveOn(world, Now(), loaded, c, Now(), loaded.(pc := Looking(task, row)));
        return Some(row);
      }
      if task.state != Submitted { return None; }
      var claiming := loaded.(pc := Claiming(task, c.facts));
      DriveOn(world, Now(), loaded, c, Now(), claiming);
      ghost var s := Now();
      r := checkpoints.Claim(key, NewRow(world, key, run, c.facts));
      if r.Some? { DriveOn(world, s, claiming, c, Now(), loaded.(pc := Looking(task, r.value))); }
    }

    /** One undisturbed audit run. */
    method Run(run: RunId, c: Choice) returns (ok: bool)
      modifies tasks, checkpoints, evidence
      ensures (Now(), ok) == Drive(world, old(Now()), Process(run, Key("", 0), Begin), c)
    {
      var p := Process(run, Key("", 0), Begin);
      var task := tasks.task;
      if !(1 <= task.attempt <= 3) || task.series == "" { return false; }
      var key := KeyOf(task);
      DriveOn(world, Now(), p, c, Now(), Process(run, key, Loaded(task)));
      var row := FindOrClaim(run, key, task, c);
      if row.None? { return false; }
      var b := evidence.Get(key);
      if b.None? {
        ok := StartAndRun(run, key, task, row.value, c);
        return;
      }
      if b.value.key != key || b.value.facts != row.value.facts { return false; }
      DriveOn(world, Now(), Process(run, key, Looking(task, row.value)), c,
              Now(), Process(run, key, Completing(row.value, b.value)));
      ok := FinishEvidence(run, key, row.value, b.value, c);
    }

    /** Running again after a crash, whatever answers are lost: with evidence stored the
        run concludes unless the task is blocked or superseded, and otherwise exactly the
        runs that own or can claim the row of a submission to audit conclude it. */
    method Rerun(run: RunId, c: Choice) returns (ok: bool)
      modifies tasks, checkpoints, evidence
      ensures old(Healthy(world, Now()) && Recoverable(Now(), run)) && c.allowed ==>
                (ok <==> old(Open(tasks.task))) &&
                (ok ==> Concluded(Now(), old(KeyOf(tasks.task)), old(evidence.items[KeyOf(tasks.task)])))
      ensures old(Healthy(world, Now()) && !Recoverable(Now(), run)) && Answering(c) ==>
                (ok <==> old(Auditable(tasks.task) && Claimable(Now(), run))) && (!ok ==> Now() == old(Now())) &&
                (ok ==> Audited(world, old(Now()), Now(), c))
    {
      if Healthy(world, Now()) && Recoverable(Now(), run) && c.allowed { RerunConcludes(world, Now(), run, c); }
      if Healthy(world, Now()) && Answering(c) { RunSucceedsIff(world, Now(), run, c); }
      ok := Run(run, c);
    }
  }
}
