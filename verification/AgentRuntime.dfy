/** The runtime's table of runs: each method is one section under its mutex. */
module AgentRuntime {
  import opened Wrappers
  import opened AgentRuns

  datatype RuntimeError = RunNotFound | RunExists | InvalidDeclaration | InvalidTransition | RunBusy | LeaseExpiredError | LeaseInvalid
    | OutputInvalid

  class AgentRun {
    const gen: nat
    const declaration: Declaration
    var state: State
    var lease: Option<Lease>
    var busy: bool
    var result: Option<Accepted>

    constructor (declaration: Declaration, gen: nat)
      ensures View() == Fresh(declaration, gen)
    {
      this.gen, this.declaration := gen, declaration;
      state, lease, busy, result := Declared, None, false, None;
    }

    function View(): Record
      reads this
    {
      Record(gen, declaration, state, lease, busy, result)
    }
  }

  class Runtime {
    var runs: map<string, AgentRun>
    var gens: nat

    ghost predicate Valid()
      reads this
    {
      forall i, j | i in runs && j in runs && i != j :: runs[i] != runs[j]
    }

    /** What the table holds for an identifier. */
    function Get(id: string): Option<Record>
      reads this, runs.Values
    {
      if id in runs then Some(runs[id].View()) else None
    }

    ghost function Others(id: string): map<string, Record>
      reads this, runs.Values
    {
      map k | k in runs && k != id :: runs[k].View()
    }

    constructor ()
      ensures Valid() && runs == map[] && gens == 0
    {
      runs := map[];
      gens := 0;
    }

    method Declare(id: string, d: Declaration, admitted: bool) returns (r: Result<(), RuntimeError>)
      requires Valid()
      modifies this
      ensures Valid() && Others(id) == old(Others(id))
      ensures r.Ok? <==> admitted && MayDeclare(old(Get(id)), d)
      ensures r.Ok? && old(Get(id)).Some? ==>
                var was := old(Get(id)).value;
                (was.state == Failed || was.state == Expired) && !was.busy && was.result.None? &&
                was.declaration.scope == d.scope && was.declaration.terms == d.terms
      ensures Get(id) == if r.Ok? then Some(Fresh(d, old(gens))) else old(Get(id))
      ensures gens == old(gens) + if r.Ok? then 1 else 0
    {
      if !admitted {
        return Err(InvalidDeclaration);
      }
      if id in runs {
        var existing := runs[id];
        var retryable := existing.state == Failed || existing.state == Expired;
        if !retryable || existing.busy || existing.result.Some? || !SameDeclaration(existing.declaration, d) {
          return Err(RunExists);
        }
      }
      var run := new AgentRun(d, gens);
      gens := gens + 1;
      runs := runs[id := run];
      r := Ok(());
    }

    /** Queue, Resume and Fail. */
    method Transition(id: string, to: State) returns (r: Result<(), RuntimeError>)
      requires Valid()
      modifies runs.Values
      ensures Valid() && Others(id) == old(Others(id))
      ensures r.Ok? <==> old(Get(id)).Some? && MayMove(old(Get(id)).value, to)
      ensures Get(id) == if r.Ok? then Some(old(Get(id)).value.(state := to)) else old(Get(id))
    {
      if id !in runs {
        return Err(RunNotFound);
      }
      var run := runs[id];
      if run.busy || !ValidTransition(run.state, to) {
        return Err(InvalidTransition);
      }
      run.state := to;
      r := Ok(());
    }

    method Wait(id: string, waiting: State) returns (r: Result<(), RuntimeError>)
      requires Valid()
      modifies runs.Values
      ensures Valid() && Others(id) == old(Others(id))
      ensures r.Ok? <==> waiting in {WaitingInput, WaitingTool, WaitingDependency} && old(Get(id)).Some? &&
                         MayMove(old(Get(id)).value, waiting)
      ensures Get(id) == if r.Ok? then Some(old(Get(id)).value.(state := waiting)) else old(Get(id))
    {
      if waiting != WaitingInput && waiting != WaitingTool && waiting != WaitingDependency {
        return Err(InvalidTransition);
      }
      r := Transition(id, waiting);
    }

    /** Cancel and Terminate, whether or not the run is busy. */
    method Stop(id: string, to: State) returns (r: Result<(), RuntimeError>)
      requires Valid()
      modifies runs.Values
      ensures Valid() && Others(id) == old(Others(id))
      ensures r.Ok? <==> old(Get(id)).Some? && ValidTransition(old(Get(id)).value.state, to)
      ensures Get(id) == if r.Ok? then Some(old(Get(id)).value.(state := to)) else old(Get(id))
    {
      if id !in runs {
        return Err(RunNotFound);
      }
      var run := runs[id];
      if !ValidTransition(run.state, to) {
        return Err(InvalidTransition);
      }
      run.state := to;
      r := Ok(());
    }

    method Expire(id: string)
      requires Valid()
      modifies runs.Values
      ensures Valid() && Others(id) == old(Others(id))
      ensures Get(id) == if old(Get(id)).None? then None else Some(ExpireRecord(old(Get(id)).value))
    {
      if id !in runs {
        return;
      }
      var run := runs[id];
      if Terminal(run.state) || !ValidTransition(run.state, Expired) {
        return;
      }
      run.state := Expired;
    }

    /** Every run whose lease has expired, and no other, ends here. */
    method ExpireStale(now: int) returns (expired: set<string>)
      requires Valid()
      modifies runs.Values
      ensures Valid() && runs == old(runs)
      ensures forall id <- runs :: runs[id].View() == ExpireIfStale(old(runs[id].View()), now)
      ensures forall id :: id in expired <==> id in runs && runs[id].state != old(runs[id].state)
      ensures forall id <- runs ::
                var l := old(runs[id].lease);
                id in expired <==>
                  CanExpire(old(runs[id].state)) && l.Some? &&
                  (l.value.expires <= now || l.value.heartbeat + 3 * l.value.interval * SECOND <= now)
    {
      expired := {};
      var rest := runs.Keys;
      while rest != {}
        invariant rest <= runs.Keys && runs == old(runs)
        invariant forall id <- runs ::
          runs[id].View() == if id in rest then old(runs[id].View()) else ExpireIfStale(old(runs[id].View()), now)
        invariant forall id :: id in expired <==> id in runs && runs[id].state != old(runs[id].state)
      {
        var id :| id in rest;
        var run := runs[id];
        if !Terminal(run.state) && run.lease.Some? && LeaseExpired(run.lease.value, now) && ValidTransition(run.state, Expired) {
          run.state := Expired;
          expired := expired + {id};
        }
        rest := rest - {id};
      }
    }

    /** The lease that a heartbeat, a renewal or an operation starts from. */
    method ReadLease(id: string) returns (r: Result<Lease, RuntimeError>)
      requires Valid()
      ensures r.Ok? <==> Get(id).Some? && CurrentLease(Get(id).value).Some?
      ensures r.Ok? ==> CurrentLease(Get(id).value) == Some(r.value)
      ensures r.Ok? <==> id in runs && runs[id].lease.Some? && !Terminal(runs[id].state)
      ensures r.Ok? ==> Some(r.value) == runs[id].lease
    {
      if id !in runs {
        return Err(RunNotFound);
      }
      var run := runs[id];
      if run.state == Expired {
        return Err(LeaseExpiredError);
      }
      if Terminal(run.state) || run.lease.None? {
        return Err(InvalidTransition);
      }
      r := Ok(run.lease.value);
    }

    /** The second section of an assignment, with a lease already checked. */
    method CommitLease(id: string, lease: Lease) returns (r: Result<(), RuntimeError>)
      requires Valid()
      modifies runs.Values
      ensures Valid() && Others(id) == old(Others(id))
      ensures r.Ok? <==> old(Get(id)).Some? && MayAssign(old(Get(id)).value)
      ensures Get(id) == if r.Ok? then Some(old(Get(id)).value.(lease := Some(lease), state := Leased)) else old(Get(id))
    {
      if id !in runs {
        return Err(RunNotFound);
      }
      var run := runs[id];
      if run.state != Queued || run.busy {
        return Err(InvalidTransition);
      }
      run.lease := Some(lease);
      run.state := Leased;
      r := Ok(());
    }

    method BeginStart(id: string) returns (r: Result<Option<Lease>, RuntimeError>)
      requires Valid()
      modifies runs.Values
      ensures Valid() && Others(id) == old(Others(id))
      ensures r.Ok? <==> old(Get(id)).Some? && MayStart(old(Get(id)).value)
      ensures r.Ok? ==> r.value == old(Get(id)).value.lease
      ensures Get(id) == if r.Ok? then Some(old(Get(id)).value.(state := Starting)) else old(Get(id))
    {
      if id !in runs {
        return Err(RunNotFound);
      }
      var run := runs[id];
      if run.state != Leased || run.busy {
        return Err(InvalidTransition);
      }
      run.state := Starting;
      r := Ok(run.lease);
    }

    /** The last section of a start: on to running, or back when the lease failed its check. */
    method EndStart(id: string, checkedOk: bool) returns (r: Result<(), RuntimeError>)
      requires Valid()
      modifies runs.Values
      ensures Valid() && Others(id) == old(Others(id))
      ensures r.Ok? <==> checkedOk && old(Get(id)).Some? && old(Get(id)).value.state == Starting
      ensures Get(id) == if old(Get(id)).None? || old(Get(id)).value.state != Starting then old(Get(id))
                         else Some(old(Get(id)).value.(state := if checkedOk then Running else Leased))
    {
      if id !in runs {
        return Err(RunNotFound);
      }
      var run := runs[id];
      if run.state != Starting {
        return Err(InvalidTransition);
      }
      if !checkedOk {
        run.state := Leased;
        return Err(LeaseInvalid);
      }
      run.state := Running;
      r := Ok(());
    }

    /** Replaces a lease only if it is still the one the update was made from. */
    method ReplaceLease(id: string, expected: Lease, updated: Lease) returns (r: Result<(), RuntimeError>)
      requires Valid()
      modifies runs.Values
      ensures Valid() && Others(id) == old(Others(id))
      ensures r.Ok? <==> old(Get(id)).Some? && MayReplace(old(Get(id)).value, expected)
      ensures Get(id) == if r.Ok? then Some(old(Get(id)).value.(lease := Some(updated))) else old(Get(id))
    {
      if id !in runs {
        return Err(RunNotFound);
      }
      var run := runs[id];
      if Terminal(run.state) || run.lease.None? || !SameRevision(run.lease.value, expected) {
        return Err(InvalidTransition);
      }
      run.lease := Some(updated);
      r := Ok(());
    }

    method BeginOperation(id: string, tool: bool) returns (r: Result<Option<Lease>, RuntimeError>)
      requires Valid()
      modifies runs.Values
      ensures Valid() && Others(id) == old(Others(id))
      ensures r.Ok? <==> old(Get(id)).Some? && MayBegin(old(Get(id)).value)
      ensures r.Ok? ==> r.value == old(Get(id)).value.lease
      ensures Get(id) == if r.Ok? then Some(BeginRecord(old(Get(id)).value, tool)) else old(Get(id))
    {
      if id !in runs {
        return Err(RunNotFound);
      }
      var run := runs[id];
      if run.state != Running || run.busy {
        return Err(RunBusy);
      }
      run.busy := true;
      if tool {
        run.state := WaitingTool;
      }
      r := Ok(run.lease);
    }

    method FinishOperation(id: string, tool: bool)
      requires Valid()
      modifies runs.Values
      ensures Valid() && Others(id) == old(Others(id))
      ensures Get(id) == if old(Get(id)).None? then None else Some(FinishRecord(old(Get(id)).value, tool))
    {
      if id !in runs {
        return;
      }
      var run := runs[id];
      run.busy := false;
      if tool && run.state == WaitingTool {
        run.state := Running;
      }
    }

    /** The last section of an acceptance, with an output and a lease already checked. */
    method CommitResult(id: string, lease: Lease, payload: string, at: int, now: int) returns (r: Result<Accepted, RuntimeError>)
      requires Valid()
      modifies runs.Values
      ensures Valid() && Others(id) == old(Others(id))
      ensures Get(id) == if old(Get(id)).None? || !MayComplete(old(Get(id)).value, lease) then old(Get(id))
                         else Some(CompleteRecord(old(Get(id)).value, lease, payload, at, now))
      ensures r.Ok? <==> old(Get(id)).Some? && MayComplete(old(Get(id)).value, lease) && Get(id).value.state == Completed
      ensures r.Ok? ==> Get(id).value.result == Some(r.value) && r.value == Accepted(payload, lease.id, lease.token, at)
    {
      if id !in runs {
        return Err(RunNotFound);
      }
      var run := runs[id];
      if run.state != Running || run.busy || run.lease.None? || !SameRevision(run.lease.value, lease) {
        return Err(InvalidTransition);
      }
      if !ValidShape(run.lease.value, now) {
        run.state := Expired;
        return Err(LeaseInvalid);
      }
      run.state := Completed;
      run.result := Some(Accepted(payload, lease.id, lease.token, at));
      r := Ok(run.result.value);
    }

    // --------------------------------------------------------- across the sections

    /** Whatever other callers do while this one is outside the lock. */
    method Elsewhere()
      requires Valid()
      modifies this, runs.Values
      ensures Valid() && fresh(runs.Values - old(runs.Values))
    {
    }

    method Settle(id: string, read: Lease, v: Verdict) returns (ok: bool)
      requires Valid()
      modifies runs.Values
      ensures Valid() && Others(id) == old(Others(id))
      ensures Get(id) == if old(Get(id)).None? then None else Some(Settled(old(Get(id)).value, read, v))
      ensures ok <==> v.Keep? && old(Get(id)).Some? && MayReplace(old(Get(id)).value, read)
    {
      match v
      case Keep(u) =>
        var replaced := ReplaceLease(id, read, u);
        ok := replaced.Ok?;
      case Drop =>
        Expire(id);
        ok := false;
      case Ignore =>
        ok := false;
    }

    /** A heartbeat: what it read decides, and what it finds then is what changes. */
    method Heartbeat(id: string, answer: Answer, first: int, second: int, third: int)
      returns (ok: bool, ghost read: Option<Lease>, ghost before: Option<Record>)
      requires Valid()
      modifies this, runs.Values
      ensures Valid() && fresh(runs.Values - old(runs.Values))
      ensures read == if old(Get(id)).None? || Terminal(old(Get(id)).value.state) then None else old(Get(id)).value.lease
      ensures read.None? ==> !ok && Get(id) == old(Get(id))
      ensures read.Some? ==>
                (var kept := KeptByHeartbeat(read.value, answer, first, second, third);
                 var over := !(Covers(read.value, first) && answer == Refused(false));
                 Get(id) == (if before.None? then None else Some(Outcome(before.value, read.value, kept, over))) &&
                 (ok <==> kept.Some? && before.Some? && MayReplace(before.value, read.value)))
      ensures ok ==> read.Some? && Get(id).Some? && Get(id).value.lease.Some? &&
                     Refreshed(read.value, Get(id).value.lease.value, second, third)
    {
      before := Get(id);
      var current := ReadLease(id);
      if current.Err? {
        return false, None, before;
      }
      var lease := current.value;
      Elsewhere();
      before := Get(id);
      if before.Some? { HeartbeatMeans(before.value, lease, answer, first, second, third); }
      ok := Settle(id, lease, HeartbeatVerdict(lease, answer, first, second, third));
      read := Some(lease);
    }

    method RenewLease(id: string, answer: Answer, confirmed: Option<bool>, first: int, second: int)
      returns (ok: bool, ghost read: Option<Lease>, ghost before: Option<Record>)
      requires Valid()
      modifies this, runs.Values
      ensures Valid() && fresh(runs.Values - old(runs.Values))
      ensures read == if old(Get(id)).None? || Terminal(old(Get(id)).value.state) then None else old(Get(id)).value.lease
      ensures read.None? ==> !ok && Get(id) == old(Get(id))
      ensures read.Some? ==>
                (var kept := KeptByRenewal(read.value, answer, confirmed, first, second);
                 var over := !(Covers(read.value, first) &&
                               if answer.Refused? then !answer.expired
                               else Extended(read.value, answer.lease, second) && confirmed == Some(false));
                 Get(id) == (if before.None? then None else Some(Outcome(before.value, read.value, kept, over))) &&
                 (ok <==> kept.Some? && before.Some? && MayReplace(before.value, read.value)))
      ensures ok ==> read.Some? && confirmed.None? && Get(id).Some? && Get(id).value.lease.Some? &&
                     Extended(read.value, Get(id).value.lease.value, second)
    {
      before := Get(id);
      var current := ReadLease(id);
      if current.Err? {
        return false, None, before;
      }
      var lease := current.value;
      Elsewhere();
      before := Get(id);
      if before.Some? { RenewalMeans(before.value, lease, answer, confirmed, first, second); }
      ok := Settle(id, lease, RenewalVerdict(lease, answer, confirmed, first, second));
      read := Some(lease);
    }

    /** Checks the lease a run holds against the one an operation began with. What it read
        decides; what it finds after asking the authority is what it ends. */
    method ValidateLease(id: string, leaseId: string, capability: string, refusal: Option<bool>, now: int)
      returns (ok: bool, ghost found: Option<Record>)
      requires Valid()
      modifies this, runs.Values
      ensures Valid() && fresh(runs.Values - old(runs.Values))
      ensures var c := Judged(old(Get(id)), leaseId, capability, refusal, now);
              (ok <==> c == Passed) && Get(id) == Left(found, c)
      ensures ok <==> Holds(old(Get(id)), leaseId) && refusal.None? &&
                      Covers(old(Get(id)).value.lease.value, now) && Allows(old(Get(id)).value.lease.value, capability)
    {
      CheckMeans(Get(id), leaseId, capability, refusal, now, None);
      var current := ReadLease(id);
      Elsewhere();
      found := Get(id);
      ok := false;
      if current.Err? || current.value.id != leaseId {
        return;
      }
      if !ValidShape(current.value, now) {
        Expire(id);
        return;
      }
      if capability != "" && capability !in current.value.capabilities {
        return;
      }
      if refusal.Some? {
        if refusal.value { Expire(id); }
        return;
      }
      ok := true;
    }

    /** An assignment checks the lease against the declaration it read, asks the authority
        outside the lock, and leases whatever record it then finds queued. */
    method AssignLease(id: string, lease: Lease, accepted: bool, now: int) returns (ok: bool, ghost before: Option<Record>)
      requires Valid()
      modifies this, runs.Values
      ensures Valid() && fresh(runs.Values - old(runs.Values))
      ensures ok <==> old(Get(id)).Some? && old(Get(id)).value.state == Queued && Covers(lease, now) &&
                      lease.scope == old(Get(id)).value.declaration.scope && accepted &&
                      before.Some? && before.value.state == Queued && !before.value.busy
      ensures Get(id) == if ok then Some(before.value.(lease := Some(lease), state := Leased)) else before
    {
      before := Get(id);
      ok := false;
      if id !in runs {
        return;
      }
      var declared := runs[id].declaration;
      ShapeLaw(lease, now);
      if runs[id].state != Queued || !ValidShape(lease, now) || lease.scope != declared.scope {
        return;
      }
      Elsewhere();
      before := Get(id);
      if !accepted {
        return;
      }
      var committed := CommitLease(id, lease);
      ok := committed.Ok?;
    }

    /** A start takes the run to STARTING, checks its lease outside the lock, and then
        moves whatever record it finds STARTING on or back. */
    method Start(id: string, refusal: Option<bool>, now: int)
      returns (ok: bool, ghost checking: Option<Record>, ghost before: Option<Record>)
      requires Valid()
      modifies this, runs.Values
      ensures Valid() && fresh(runs.Values - old(runs.Values))
      ensures !(old(Get(id)).Some? && MayStart(old(Get(id)).value)) ==> !ok && Get(id) == old(Get(id))
      ensures old(Get(id)).Some? && MayStart(old(Get(id)).value) ==>
                var lease := old(Get(id)).value.lease;
                var passed := lease.Some? && Judged(checking, lease.value.id, "", refusal, now) == Passed;
                (ok <==> passed && before.Some? && before.value.state == Starting) &&
                Get(id) == if before.None? || before.value.state != Starting then before
                           else Some(before.value.(state := if passed then Running else Leased))
    {
      before, checking := Get(id), Get(id);
      var begun := BeginStart(id);
      if begun.Err? {
        return false, checking, before;
      }
      Elsewhere();
      checking := Get(id);
      var valid := begun.value.Some?;
      if valid {
        ghost var found;
        valid, found := ValidateLease(id, begun.value.value.id, "", refusal, now);
      }
      Elsewhere();
      before := Get(id);
      var ended := EndStart(id, valid);
      ok := ended.Ok?;
    }

    /** Accepting an output: read, check outside the lock, and complete only on the lease
        that was read. A call that fails its check leaves what the check leaves, and one
        that finds the run changed leaves it as it is. */
    method Complete(id: string, payload: string, outputOk: bool, refusal: Option<bool>, checkedAt: int, at: int, now: int)
      returns (r: Result<Accepted, RuntimeError>, ghost checking: Option<Record>, ghost found: Option<Record>,
               ghost before: Option<Record>)
      requires Valid()
      modifies this, runs.Values
      ensures Valid() && fresh(runs.Values - old(runs.Values))
      ensures !(MayAccept(old(Get(id))) && outputOk) ==> r.Err? && Get(id) == old(Get(id))
      ensures MayAccept(old(Get(id))) && outputOk ==>
                var lease := old(Get(id)).value.lease.value;
                var c := Judged(checking, lease.id, "", refusal, checkedAt);
                if c != Passed then r == Err(LeaseInvalid) && Get(id) == Left(found, c)
                else
                  (r.Ok? <==> before.Some? && MayComplete(before.value, lease) && ValidShape(before.value.lease.value, now)) &&
                  (r.Ok? ==> Get(id).Some? && Get(id).value.result == Some(r.value) &&
                             r.value == Accepted(payload, lease.id, lease.token, at)) &&
                  Get(id) == if before.None? || !MayComplete(before.value, lease) then before
                             else Some(CompleteRecord(before.value, lease, payload, at, now))
    {
      before, checking, found := Get(id), Get(id), Get(id);
      if id !in runs {
        return Err(RunNotFound), checking, found, before;
      }
      var run := runs[id];
      if run.state != Running || run.busy || run.lease.None? {
        return Err(InvalidTransition), checking, found, before;
      }
      var lease := run.lease.value;
      if !outputOk {
        return Err(OutputInvalid), checking, found, before;
      }
      Elsewhere();
      checking := Get(id);
      var valid;
      valid, found := ValidateLease(id, lease.id, "", refusal, checkedAt);
      if !valid {
        return Err(LeaseInvalid), checking, found, before;
      }
      Elsewhere();
      before := Get(id);
      r := CommitResult(id, lease, payload, at, now);
    }

    /** One operation from begin to finish: it goes ahead exactly when its check passes,
        and its finish always comes, on whatever the run has become. */
    method Operate(id: string, tool: bool, capability: string, refusal: Option<bool>, now: int)
      returns (ok: bool, ghost checking: Option<Record>, ghost found: Option<Record>, ghost before: Option<Record>)
      requires Valid()
      modifies this, runs.Values
      ensures Valid() && fresh(runs.Values - old(runs.Values))
      ensures !(old(Get(id)).Some? && MayBegin(old(Get(id)).value)) ==> !ok && Get(id) == old(Get(id))
      ensures old(Get(id)).Some? && MayBegin(old(Get(id)).value) ==>
                Get(id) == (if before.None? then None else Some(FinishRecord(before.value, tool))) &&
                var lease := old(Get(id)).value.lease;
                if lease.None? then !ok && before == checking
                else
                  var c := Judged(checking, lease.value.id, capability, refusal, now);
                  (ok <==> c == Passed) && (!ok ==> before == Left(found, c))
      ensures old(Get(id)).Some? && MayBegin(old(Get(id)).value) &&
              before == Some(old(Get(id)).value.(busy := true, state := if tool then WaitingTool else Running)) ==>
                Get(id) == old(Get(id))
    {
      before, checking, found := Get(id), Get(id), Get(id);
      var begun := BeginOperation(id, tool);
      if begun.Err? {
        return false, checking, found, before;
      }
      Elsewhere();
      checking := Get(id);
      ok := begun.value.Some?;
      if ok {
        ok, found := ValidateLease(id, begun.value.value.id, capability, refusal, now);
      }
      if ok { Elsewhere(); }
      before := Get(id);
      FinishOperation(id, tool);
    }
  }

  /** A running, idle run that holds a lease. */
  predicate MayAccept(run: Option<Record>) { run.Some? && MayBegin(run.value) && run.value.lease.Some? }
}
