/** Every interleaving of the lock sections for one run identifier. What happens in
    between, outside the lock, is a flight that holds what it read. */
module AgentRunProtocol {
  import opened Wrappers
  import opened AgentRuns

  datatype Flight =
    | Assigning(declaration: Declaration)
    | Launching(gen: nat)
    | Refreshing(lease: Lease, renewal: bool)
    | Checking(lease: Lease)
    | Completing(lease: Lease)
    | Operating(gen: nat, tool: bool)

  datatype System = System(run: Option<Record>, gens: nat, flights: map<nat, Flight>)

  const EMPTY := System(None, 0, map[])

  datatype Step =
    | Declare(d: Declaration)
    | Move(to: State)
    | Wait(to: State)
    | Stop(to: State)
    | ExpireStale(now: int)
    | ReadDeclaration(f: nat)
    | AssignLease(f: nat, lease: Lease, now: int)
    | BeginStart(f: nat)
    | FinishStart(f: nat)
    | RollBack(f: nat)
    | ReadLease(f: nat, renewal: bool)
    | ReplaceLease(f: nat, updated: Lease, clock: int, later: int)
    | ReadForCheck(f: nat)
    | Refuse(f: nat)
    | Begin(f: nat, tool: bool)
    | Finish(f: nat)
    | ReadForResult(f: nat)
    | Complete(f: nat, payload: string, at: int, now: int)
    | Abandon(f: nat)

  /** The signatures of authentic leases tell them apart. */
  ghost predicate Unforgeable(authentic: Lease -> bool) {
    forall a, b | authentic(a) && authentic(b) && a.signature == b.signature :: a == b
  }

  predicate In(s: System, f: nat) { f in s.flights }

  predicate Opens(s: System, f: nat) { f !in s.flights && s.run.Some? }

  /** A heartbeat, renewal or check that asks the authority about the lease it read. */
  predicate Asks(s: System, f: nat) { In(s, f) && (s.flights[f].Refreshing? || s.flights[f].Checking?) }

  /** What the code around a section has established when the section runs. */
  predicate Legal(authentic: Lease -> bool, s: System, e: Step) {
    match e
    case Declare(_) => true
    case Move(to) => to in {Queued, Running, Failed} && s.run.Some?
    case Wait(to) => to in {WaitingInput, WaitingTool, WaitingDependency} && s.run.Some?
    case Stop(to) => to in {Canceled, Terminated} && s.run.Some?
    case ExpireStale(_) => s.run.Some?
    case ReadDeclaration(f) => Opens(s, f) && s.run.value.state == Queued
    case AssignLease(f, lease, now) =>
      In(s, f) && s.flights[f].Assigning? && s.run.Some? &&
      ValidShape(lease, now) && lease.scope == s.flights[f].declaration.scope && authentic(lease)
    case BeginStart(f) => Opens(s, f) && MayStart(s.run.value)
    case FinishStart(f) => In(s, f) && s.flights[f].Launching? && s.run.Some?
    case RollBack(f) => In(s, f) && s.flights[f].Launching? && s.run.Some?
    case ReadLease(f, _) => Opens(s, f) && CurrentLease(s.run.value).Some?
    case ReplaceLease(f, updated, clock, later) =>
      In(s, f) && s.flights[f].Refreshing? && s.run.Some? && authentic(updated) &&
      (if s.flights[f].renewal then ValidRenewal(s.flights[f].lease, updated, clock)
       else ValidRenewed(s.flights[f].lease, updated, clock) && ValidHeartbeat(s.flights[f].lease, updated, later))
    case ReadForCheck(f) => Opens(s, f) && CurrentLease(s.run.value).Some?
    case Refuse(f) => Asks(s, f) && s.run.Some?
    case Begin(f, _) => Opens(s, f) && MayBegin(s.run.value)
    case Finish(f) => In(s, f) && s.flights[f].Operating? && s.run.Some?
    case ReadForResult(f) => Opens(s, f) && MayBegin(s.run.value) && s.run.value.lease.Some?
    case Complete(f, _, _, _) => In(s, f) && s.flights[f].Completing? && s.run.Some?
    case Abandon(f) => In(s, f) && !s.flights[f].Operating? && !s.flights[f].Launching?
  }

  function Opened(s: System, f: nat, flight: Flight): System { s.(flights := s.flights[f := flight]) }

  function Closed(s: System, f: nat, r: Record): System { s.(run := Some(r), flights := s.flights - {f}) }

  function Apply(authentic: Lease -> bool, s: System, e: Step): System
    requires Legal(authentic, s, e)
  {
    match e
    case Declare(d) =>
      if MayDeclare(s.run, d) then s.(run := Some(Fresh(d, s.gens)), gens := s.gens + 1) else s
    case Move(to) => if MayMove(s.run.value, to) then s.(run := Some(s.run.value.(state := to))) else s
    case Wait(to) => if MayMove(s.run.value, to) then s.(run := Some(s.run.value.(state := to))) else s
    case Stop(to) => if ValidTransition(s.run.value.state, to) then s.(run := Some(s.run.value.(state := to))) else s
    case ExpireStale(now) => s.(run := Some(ExpireIfStale(s.run.value, now)))
    case ReadDeclaration(f) => Opened(s, f, Assigning(s.run.value.declaration))
    case AssignLease(f, lease, _) =>
      var r := s.run.value;
      Closed(s, f, if MayAssign(r) then r.(lease := Some(lease), state := Leased) else r)
    case BeginStart(f) => Opened(s.(run := Some(s.run.value.(state := Starting))), f, Launching(s.run.value.gen))
    case FinishStart(f) =>
      var r := s.run.value;
      Closed(s, f, if r.state == Starting then r.(state := Running) else r)
    case RollBack(f) =>
      var r := s.run.value;
      Closed(s, f, if r.state == Starting then r.(state := Leased) else r)
    case ReadLease(f, renewal) => Opened(s, f, Refreshing(CurrentLease(s.run.value).value, renewal))
    case ReplaceLease(f, updated, _, _) =>
      var r := s.run.value;
      Closed(s, f, if MayReplace(r, s.flights[f].lease) then r.(lease := Some(updated)) else r)
    case ReadForCheck(f) => Opened(s, f, Checking(CurrentLease(s.run.value).value))
    case Refuse(f) => Closed(s, f, ExpireRecord(s.run.value))
    case Begin(f, tool) => Opened(s.(run := Some(BeginRecord(s.run.value, tool))), f, Operating(s.run.value.gen, tool))
    case Finish(f) => Closed(s, f, FinishRecord(s.run.value, s.flights[f].tool))
    case ReadForResult(f) => Opened(s, f, Completing(s.run.value.lease.value))
    case Complete(f, payload, at, now) =>
      var r := s.run.value;
      var lease := s.flights[f].lease;
      Closed(s, f, if MayComplete(r, lease) then CompleteRecord(r, lease, payload, at, now) else r)
    case Abandon(f) => s.(flights := s.flights - {f})
  }

  // ------------------------------------------------------------------- the invariant

  predicate HoldsLease(s: State) { s in {Leased, Starting, Running, WaitingInput, WaitingTool, WaitingDependency, Completed} }

  /** What holds of a record on its own. */
  predicate RecordOk(authentic: Lease -> bool, r: Record) {
    (r.result.Some? <==> r.state == Completed) &&
    (HoldsLease(r.state) ==> r.lease.Some?) && (r.state in {Declared, Queued} ==> r.lease.None?) &&
    (r.lease.Some? ==> authentic(r.lease.value) && r.lease.value.scope == r.declaration.scope && r.lease.value.token >= 1) &&
    (r.state == Completed ==> !r.busy)
  }

  /** Where a record may be while an operation runs on it. */
  predicate BusyState(state: State, tool: bool) {
    state == (if tool then WaitingTool else Running) || state in {Canceled, Expired, Terminated}
  }

  predicate FlightOk(authentic: Lease -> bool, r: Record, f: Flight) {
    match f
    case Assigning(d) => SameDeclaration(d, r.declaration)
    case Launching(gen) => gen <= r.gen
    case Refreshing(lease, _) => authentic(lease) && lease.token >= 1
    case Checking(lease) => authentic(lease) && lease.token >= 1
    case Completing(lease) => authentic(lease) && lease.token >= 1
    case Operating(gen, tool) => gen == r.gen && r.busy && BusyState(r.state, tool)
  }

  predicate OneOperation(flights: map<nat, Flight>) {
    forall f, g | f in flights && g in flights && flights[f].Operating? && flights[g].Operating? :: f == g
  }

  predicate SomeOperation(flights: map<nat, Flight>) { exists f | f in flights :: flights[f].Operating? }

  ghost predicate Inv(authentic: Lease -> bool, s: System) {
    if s.run.None? then s.flights == map[] else
      RecordOk(authentic, s.run.value) && s.run.value.gen < s.gens &&
      (forall f <- s.flights :: FlightOk(authentic, s.run.value, s.flights[f])) &&
      OneOperation(s.flights) && (s.run.value.busy ==> SomeOperation(s.flights))
  }

  // ------------------------------------------------------------- one section at a time

  /** How a section may change a record. */
  predicate Onward(a: Record, b: Record) {
    b.gen == a.gen && b.declaration == a.declaration &&
    (b.state == a.state || ValidTransition(a.state, b.state) || (a.state == Starting && b.state == Leased)) &&
    (a.result.Some? ==> b == a)
  }

  lemma SectionKeepsRecord(authentic: Lease -> bool, s: System, e: Step)
    requires Unforgeable(authentic) && Inv(authentic, s) && Legal(authentic, s, e) && s.run.Some?
    ensures Apply(authentic, s, e).run.Some? && RecordOk(authentic, Apply(authentic, s, e).run.value)
  {
  }

  lemma SectionMovesRecord(authentic: Lease -> bool, s: System, e: Step)
    requires Inv(authentic, s) && Legal(authentic, s, e) && s.run.Some?
    ensures var u := Apply(authentic, s, e);
            u.run.Some? &&
            (Onward(s.run.value, u.run.value) || (e.Declare? && MayDeclare(s.run, e.d) && u.run == Some(Fresh(e.d, s.gens))))
  {
  }

  lemma FlightStays(authentic: Lease -> bool, s: System, e: Step, f: nat)
    requires Unforgeable(authentic) && Inv(authentic, s) && Legal(authentic, s, e) && s.run.Some?
    requires f in s.flights && f in Apply(authentic, s, e).flights
    ensures var u := Apply(authentic, s, e); u.flights[f] == s.flights[f] && FlightOk(authentic, u.run.value, u.flights[f])
  {
    assert FlightOk(authentic, s.run.value, s.flights[f]);
  }

  /** The flight that a section opens. */
  function NewFlight(e: Step): Option<nat> {
    match e
    case ReadDeclaration(f) => Some(f)
    case BeginStart(f) => Some(f)
    case ReadLease(f, _) => Some(f)
    case ReadForCheck(f) => Some(f)
    case Begin(f, _) => Some(f)
    case ReadForResult(f) => Some(f)
    case _ => None
  }

  lemma FlightOpens(authentic: Lease -> bool, s: System, e: Step)
    requires Inv(authentic, s) && Legal(authentic, s, e) && s.run.Some? && NewFlight(e).Some?
    ensures var u := Apply(authentic, s, e); var f := NewFlight(e).value;
            f in u.flights && f !in s.flights && FlightOk(authentic, u.run.value, u.flights[f])
  {
  }

  lemma FlightsKept(authentic: Lease -> bool, s: System, e: Step)
    requires Inv(authentic, s) && Legal(authentic, s, e) && s.run.Some?
    ensures forall f <- Apply(authentic, s, e).flights :: f in s.flights || NewFlight(e) == Some(f)
  {
  }

  lemma OperationStays(authentic: Lease -> bool, s: System, e: Step, f: nat)
    requires Legal(authentic, s, e) && s.run.Some? && f in s.flights && s.flights[f].Operating? && !e.Finish?
    ensures f in Apply(authentic, s, e).flights && Apply(authentic, s, e).flights[f].Operating?
  {
  }

  lemma OperationsKept(authentic: Lease -> bool, s: System, e: Step)
    requires Inv(authentic, s) && Legal(authentic, s, e) && s.run.Some?
    ensures var u := Apply(authentic, s, e); OneOperation(u.flights) && (u.run.value.busy ==> SomeOperation(u.flights))
  {
    var u := Apply(authentic, s, e);
    if SomeOperation(s.flights) && !e.Finish? {
      var f :| f in s.flights && s.flights[f].Operating?;
      OperationStays(authentic, s, e, f);
    }
    if e.Begin? { assert u.flights[e.f].Operating?; }
    OneStays(authentic, s, e);
  }

  lemma OneStays(authentic: Lease -> bool, s: System, e: Step)
    requires Inv(authentic, s) && Legal(authentic, s, e) && s.run.Some?
    ensures OneOperation(Apply(authentic, s, e).flights)
  {
    var u := Apply(authentic, s, e);
    forall f, g | f in u.flights && g in u.flights && u.flights[f].Operating? && u.flights[g].Operating? ensures f == g {
      OldOperation(authentic, s, e, f);
      OldOperation(authentic, s, e, g);
    }
  }

  /** An operation is either an old one or the one that a section begins on an idle run. */
  lemma OldOperation(authentic: Lease -> bool, s: System, e: Step, f: nat)
    requires Inv(authentic, s) && Legal(authentic, s, e) && s.run.Some?
    requires f in Apply(authentic, s, e).flights && Apply(authentic, s, e).flights[f].Operating?
    ensures if e.Begin? then f == e.f else f in s.flights && s.flights[f].Operating?
  {
    assert f in s.flights ==> FlightOk(authentic, s.run.value, s.flights[f]);
  }

  lemma StepInv(authentic: Lease -> bool, s: System, e: Step)
    requires Unforgeable(authentic) && Inv(authentic, s) && Legal(authentic, s, e)
    ensures Inv(authentic, Apply(authentic, s, e))
  {
    if s.run.Some? {
      SectionKeepsRecord(authentic, s, e);
      OperationsKept(authentic, s, e);
      var u := Apply(authentic, s, e);
      forall f | f in u.flights ensures FlightOk(authentic, u.run.value, u.flights[f]) {
        FlightsKept(authentic, s, e);
        if f in s.flights { FlightStays(authentic, s, e, f); } else { FlightOpens(authentic, s, e); }
      }
      GensGrow(authentic, s, e);
    }
  }

  lemma GensGrow(authentic: Lease -> bool, s: System, e: Step)
    requires Inv(authentic, s) && Legal(authentic, s, e) && s.run.Some?
    ensures var u := Apply(authentic, s, e);
            u.run.Some? && u.run.value.gen < u.gens && s.run.value.gen <= u.run.value.gen && s.gens <= u.gens
  {
  }

  // ---------------------------------------------------------------------------- runs

  function After(authentic: Lease -> bool, s: System, steps: seq<Step>): Option<System> {
    if steps == [] then Some(s)
    else
      var before := After(authentic, s, steps[..|steps| - 1]);
      if before.None? || !Legal(authentic, before.value, steps[|steps| - 1]) then None
      else Some(Apply(authentic, before.value, steps[|steps| - 1]))
  }

  lemma {:induction false} RunInv(authentic: Lease -> bool, s: System, steps: seq<Step>)
    requires Unforgeable(authentic) && Inv(authentic, s) && After(authentic, s, steps).Some?
    ensures Inv(authentic, After(authentic, s, steps).value)
  {
    if steps != [] {
      var front := steps[..|steps| - 1];
      RunInv(authentic, s, front);
      StepInv(authentic, After(authentic, s, front).value, steps[|steps| - 1]);
    }
  }

  /** The invariant holds after every interleaving. */
  lemma ReachableInv(authentic: Lease -> bool, steps: seq<Step>)
    requires Unforgeable(authentic) && After(authentic, EMPTY, steps).Some?
    ensures Inv(authentic, After(authentic, EMPTY, steps).value)
  {
    RunInv(authentic, EMPTY, steps);
  }

  /** A run has a result exactly when it is completed, and then nothing that happens
      later, in any interleaving, changes or replaces its record. */
  lemma {:induction false} CompletedIsFrozen(authentic: Lease -> bool, s: System, steps: seq<Step>)
    requires Unforgeable(authentic) && Inv(authentic, s) && After(authentic, s, steps).Some?
    requires s.run.Some? && s.run.value.state == Completed
    ensures After(authentic, s, steps).value.run == s.run && s.run.value.result.Some?
  {
    if steps != [] {
      var front := steps[..|steps| - 1];
      var before := After(authentic, s, front).value;
      CompletedIsFrozen(authentic, s, front);
      RunInv(authentic, s, front);
      SectionMovesRecord(authentic, before, steps[|steps| - 1]);
    }
  }

  /** A record changes state only along the allowed edges, save the rollback of a
      start, and is replaced only when failed or expired, idle and without a result. */
  lemma StatesFollowEdges(authentic: Lease -> bool, steps: seq<Step>, e: Step)
    requires Unforgeable(authentic) && After(authentic, EMPTY, steps).Some?
    requires var s := After(authentic, EMPTY, steps).value; s.run.Some? && Legal(authentic, s, e)
    ensures var a := After(authentic, EMPTY, steps).value.run.value;
            var u := Apply(authentic, After(authentic, EMPTY, steps).value, e);
            u.run.Some? &&
            (var b := u.run.value;
             if b.gen == a.gen then
               b.state == a.state || ValidTransition(a.state, b.state) || (a.state == Starting && b.state == Leased && e.RollBack?)
             else
               a.state in {Failed, Expired} && !a.busy && a.result.None? &&
               a.declaration.scope == b.declaration.scope && a.declaration.terms == b.declaration.terms &&
               b == Record(b.gen, b.declaration, Declared, None, false, None))
  {
    var s := After(authentic, EMPTY, steps).value;
    ReachableInv(authentic, steps);
    EdgeOrFresh(authentic, s, e);
  }

  lemma EdgeOrFresh(authentic: Lease -> bool, s: System, e: Step)
    requires Unforgeable(authentic) && Inv(authentic, s) && s.run.Some? && Legal(authentic, s, e)
    ensures var a, u := s.run.value, Apply(authentic, s, e);
            u.run.Some? &&
            (var b := u.run.value;
             if b.gen == a.gen then
               b.state == a.state || ValidTransition(a.state, b.state) || (a.state == Starting && b.state == Leased && e.RollBack?)
             else
               a.state in {Failed, Expired} && !a.busy && a.result.None? &&
               a.declaration.scope == b.declaration.scope && a.declaration.terms == b.declaration.terms &&
               b == Record(b.gen, b.declaration, Declared, None, false, None))
  {
  }

  /** A run is busy exactly while one operation is between its begin and its finish,
      on the record it began on; meanwhile the run is where the operation left it, or ended. */
  lemma BusyIffOneOperation(authentic: Lease -> bool, steps: seq<Step>)
    requires Unforgeable(authentic) && After(authentic, EMPTY, steps).Some?
    requires After(authentic, EMPTY, steps).value.run.Some?
    ensures var s := After(authentic, EMPTY, steps).value; var r := s.run.value;
            (r.busy <==> SomeOperation(s.flights)) && OneOperation(s.flights) &&
            forall f | f in s.flights && s.flights[f].Operating? ::
              s.flights[f].gen == r.gen && BusyState(r.state, s.flights[f].tool)
  {
    ReachableInv(authentic, steps);
    var s := After(authentic, EMPTY, steps).value;
    assert forall f <- s.flights :: FlightOk(authentic, s.run.value, s.flights[f]);
  }

  // ------------------------------------------------------------------ the held lease

  /** Later by deadline, then by heartbeat. */
  predicate Later(a: Lease, b: Lease) { a.expires < b.expires || (a.expires == b.expires && a.heartbeat < b.heartbeat) }

  predicate LeaseOnward(a: Lease, b: Lease) {
    b == a || (b.id == a.id && b.scope == a.scope && Later(a, b) && (b.token == a.token || b.token == a.token + 1))
  }

  /** A held lease is only ever replaced by one computed from exactly the lease it replaces. */
  lemma SectionKeepsLease(authentic: Lease -> bool, s: System, e: Step)
    requires Unforgeable(authentic) && Inv(authentic, s) && Legal(authentic, s, e)
    requires s.run.Some? && s.run.value.lease.Some?
    ensures var u := Apply(authentic, s, e);
            u.run.Some? &&
            (u.run.value.gen == s.run.value.gen ==>
              u.run.value.lease.Some? && LeaseOnward(s.run.value.lease.value, u.run.value.lease.value) &&
              (u.run.value.lease != s.run.value.lease ==>
                e.ReplaceLease? && s.flights[e.f].lease == s.run.value.lease.value))
  {
    if e.ReplaceLease? {
      assert FlightOk(authentic, s.run.value, s.flights[e.f]);
    }
  }

  lemma {:induction false} GensNeverFall(authentic: Lease -> bool, s: System, steps: seq<Step>)
    requires Unforgeable(authentic) && Inv(authentic, s) && s.run.Some? && After(authentic, s, steps).Some?
    ensures var u := After(authentic, s, steps).value; u.run.Some? && s.run.value.gen <= u.run.value.gen
  {
    if steps != [] {
      var front := steps[..|steps| - 1];
      GensNeverFall(authentic, s, front);
      RunInv(authentic, s, front);
      GensGrow(authentic, After(authentic, s, front).value, steps[|steps| - 1]);
    }
  }

  function Replacements(steps: seq<Step>): nat {
    if steps == [] then 0
    else Replacements(steps[..|steps| - 1]) + if steps[|steps| - 1].ReplaceLease? then 1 else 0
  }

  /** While a record holds a lease, any interleaving of heartbeats and renewals keeps
      whom it covers, never lowers its deadline or its token, and raises the token by at
      most one for each replacement. */
  lemma {:induction false} LeaseOverRun(authentic: Lease -> bool, s: System, steps: seq<Step>)
    requires Unforgeable(authentic) && Inv(authentic, s) && After(authentic, s, steps).Some?
    requires s.run.Some? && s.run.value.lease.Some?
    requires var u := After(authentic, s, steps).value; u.run.Some? && u.run.value.gen == s.run.value.gen
    ensures var r := After(authentic, s, steps).value.run.value;
            r.lease.Some? &&
            (var a, b := s.run.value.lease.value, r.lease.value;
             b.id == a.id && b.scope == a.scope == r.declaration.scope && a.expires <= b.expires &&
             a.token <= b.token <= a.token + Replacements(steps) && (b == a || Later(a, b)))
  {
    RunInv(authentic, s, steps);
    if steps != [] {
      var front, e := steps[..|steps| - 1], steps[|steps| - 1];
      var before := After(authentic, s, front).value;
      RunInv(authentic, s, front);
      GensNeverFall(authentic, s, front);
      GensGrow(authentic, before, e);
      LeaseOverRun(authentic, s, front);
      SectionKeepsLease(authentic, before, e);
    }
  }

  /** The section in which a heartbeat or renewal ends. */
  function Ending(f: nat, v: Verdict, clock: int, later: int): Step {
    match v
    case Keep(u) => ReplaceLease(f, u, clock, later)
    case Drop => Refuse(f)
    case Ignore => Abandon(f)
  }

  /** What the runtime does with the answer to a heartbeat is one of the sections, on
      whatever record it finds. */
  lemma HeartbeatIsSection(authentic: Lease -> bool, s: System, f: nat, answer: Answer, first: int, second: int, third: int)
    requires s.run.Some? && In(s, f) && s.flights[f].Refreshing? && !s.flights[f].renewal
    requires answer.Granted? ==> authentic(answer.lease)
    ensures var read := s.flights[f].lease;
            var e := Ending(f, HeartbeatVerdict(read, answer, first, second, third), second, third);
            Legal(authentic, s, e) &&
            Apply(authentic, s, e).run ==
            Some(Outcome(s.run.value, read, KeptByHeartbeat(read, answer, first, second, third),
                         !(Covers(read, first) && answer == Refused(false))))
  {
    HeartbeatMeans(s.run.value, s.flights[f].lease, answer, first, second, third);
  }

  lemma RenewalIsSection(authentic: Lease -> bool, s: System, f: nat, answer: Answer, confirmed: Option<bool>,
                         first: int, second: int)
    requires s.run.Some? && In(s, f) && s.flights[f].Refreshing? && s.flights[f].renewal
    requires answer.Granted? ==> authentic(answer.lease)
    ensures var read := s.flights[f].lease;
            var e := Ending(f, RenewalVerdict(read, answer, confirmed, first, second), second, second);
            Legal(authentic, s, e) &&
            Apply(authentic, s, e).run ==
            Some(Outcome(s.run.value, read, KeptByRenewal(read, answer, confirmed, first, second),
                         !(Covers(read, first) &&
                           if answer.Refused? then !answer.expired
                           else Extended(read, answer.lease, second) && confirmed == Some(false))))
  {
    RenewalMeans(s.run.value, s.flights[f].lease, answer, confirmed, first, second);
  }

  /** So the laws of all sections hold of them: from the lease that a heartbeat read,
      through whatever ran meanwhile on the record, to the lease that it leaves, nothing
      is lost of deadline, token or scope. */
  lemma HeartbeatOverRun(authentic: Lease -> bool, s: System, steps: seq<Step>, f: nat, answer: Answer,
                         first: int, second: int, third: int)
    requires Unforgeable(authentic) && Inv(authentic, s) && After(authentic, s, steps).Some?
    requires s.run.Some? && In(s, f) && s.flights[f].Refreshing? && !s.flights[f].renewal
    requires s.run.value.lease == Some(s.flights[f].lease) && (answer.Granted? ==> authentic(answer.lease))
    requires var u := After(authentic, s, steps).value;
             u.run.Some? && u.run.value.gen == s.run.value.gen && In(u, f) && u.flights[f] == s.flights[f]
    ensures var read := s.flights[f].lease; var found := After(authentic, s, steps).value.run.value;
            var r := Outcome(found, read, KeptByHeartbeat(read, answer, first, second, third),
                             !(Covers(read, first) && answer == Refused(false)));
            r.gen == found.gen && r.lease.Some? && r.lease.value.scope == read.scope &&
            read.expires <= r.lease.value.expires && read.token <= r.lease.value.token
  {
    var u := After(authentic, s, steps).value;
    var e := Ending(f, HeartbeatVerdict(s.flights[f].lease, answer, first, second, third), second, third);
    HeartbeatIsSection(authentic, u, f, answer, first, second, third);
    Extend(authentic, s, steps, e);
    LeaseOverRun(authentic, s, steps + [e]);
  }

  /** The same of a renewal. */
  lemma RenewalOverRun(authentic: Lease -> bool, s: System, steps: seq<Step>, f: nat, answer: Answer,
                       confirmed: Option<bool>, first: int, second: int)
    requires Unforgeable(authentic) && Inv(authentic, s) && After(authentic, s, steps).Some?
    requires s.run.Some? && In(s, f) && s.flights[f].Refreshing? && s.flights[f].renewal
    requires s.run.value.lease == Some(s.flights[f].lease) && (answer.Granted? ==> authentic(answer.lease))
    requires var u := After(authentic, s, steps).value;
             u.run.Some? && u.run.value.gen == s.run.value.gen && In(u, f) && u.flights[f] == s.flights[f]
    ensures var read := s.flights[f].lease; var found := After(authentic, s, steps).value.run.value;
            var r := Outcome(found, read, KeptByRenewal(read, answer, confirmed, first, second),
                             !(Covers(read, first) &&
                               if answer.Refused? then !answer.expired
                               else Extended(read, answer.lease, second) && confirmed == Some(false)));
            r.gen == found.gen && r.lease.Some? && r.lease.value.scope == read.scope &&
            read.expires <= r.lease.value.expires && read.token <= r.lease.value.token
  {
    var u := After(authentic, s, steps).value;
    var e := Ending(f, RenewalVerdict(s.flights[f].lease, answer, confirmed, first, second), second, second);
    RenewalIsSection(authentic, u, f, answer, confirmed, first, second);
    Extend(authentic, s, steps, e);
    LeaseOverRun(authentic, s, steps + [e]);
  }

  /** No update is lost: once a lease has been replaced, it is not held again by that
      record, and no heartbeat or renewal that started from it can still succeed. */
  lemma ReplacedForGood(authentic: Lease -> bool, s: System, first: seq<Step>, m: System, second: seq<Step>, u: System)
    requires Unforgeable(authentic) && Inv(authentic, s) && s.run.Some? && s.run.value.lease.Some?
    requires After(authentic, s, first) == Some(m) && After(authentic, m, second) == Some(u)
    requires m.run.Some? && u.run.Some? && m.run.value.gen == u.run.value.gen == s.run.value.gen
    requires m.run.value.lease != s.run.value.lease
    ensures u.run.value.lease != s.run.value.lease && !MayReplace(u.run.value, s.run.value.lease.value)
  {
    RunInv(authentic, s, first);
    LeaseOverRun(authentic, s, first);
    LeaseOverRun(authentic, m, second);
  }

  /** A result is accepted only under the lease the record holds, and before it expires. */
  lemma ResultIsCovered(authentic: Lease -> bool, s: System, e: Step)
    requires Unforgeable(authentic) && Inv(authentic, s) && Legal(authentic, s, e) && s.run.Some?
    requires s.run.value.result.None? && Apply(authentic, s, e).run.value.result.Some?
    ensures e.Complete? && s.run.value.state == Running && !s.run.value.busy && s.run.value.lease.Some? &&
            (var l, result := s.run.value.lease.value, Apply(authentic, s, e).run.value.result.value;
             result == Accepted(e.payload, l.id, l.token, e.at) && Covers(l, e.now) && l.scope == s.run.value.declaration.scope)
  {
    ShapeLaw(s.run.value.lease.value, e.now);
  }

  // --------------------------------------------------------- whose record a start moves

  /** Some declaration in the run took effect. */
  predicate Redeclared(authentic: Lease -> bool, s: System, steps: seq<Step>) {
    steps != [] &&
    (Redeclared(authentic, s, steps[..|steps| - 1]) ||
     (var before, e := After(authentic, s, steps[..|steps| - 1]), steps[|steps| - 1];
      before.Some? && e.Declare? && MayDeclare(before.value.run, e.d)))
  }

  lemma StepGen(authentic: Lease -> bool, s: System, e: Step)
    requires Inv(authentic, s) && Legal(authentic, s, e) && s.run.Some?
    ensures var u := Apply(authentic, s, e);
            u.run.Some? && (u.run.value.gen == s.run.value.gen <==> !(e.Declare? && MayDeclare(s.run, e.d)))
  {
  }

  /** The record is the same exactly while no declaration took effect. */
  lemma {:induction false} SameRecordIff(authentic: Lease -> bool, s: System, steps: seq<Step>)
    requires Unforgeable(authentic) && Inv(authentic, s) && s.run.Some? && After(authentic, s, steps).Some?
    ensures var u := After(authentic, s, steps).value;
            u.run.Some? && (u.run.value.gen == s.run.value.gen <==> !Redeclared(authentic, s, steps))
  {
    if steps != [] {
      var front, e := steps[..|steps| - 1], steps[|steps| - 1];
      var before := After(authentic, s, front).value;
      SameRecordIff(authentic, s, front);
      RunInv(authentic, s, front);
      GensNeverFall(authentic, s, front);
      StepGen(authentic, before, e);
      GensGrow(authentic, before, e);
    }
  }

  /** What the last section of a start does to the record it finds. */
  function Launched(r: Record, e: Step): Record {
    if r.state != Starting then r else r.(state := if e.FinishStart? then Running else Leased)
  }

  /** Whenever a start ends, after whatever interleaving, it moves the record it finds
      exactly when that one is STARTING; and that is the record it began on if and only
      if no declaration took effect in between. */
  lemma StartKeepsItsRecordIff(authentic: Lease -> bool, s: System, f: nat, steps: seq<Step>, e: Step)
    requires Unforgeable(authentic) && Inv(authentic, s) && After(authentic, s, steps).Some?
    requires s.run.Some? && f in s.flights && s.flights[f] == Launching(s.run.value.gen)
    requires f in After(authentic, s, steps).value.flights && After(authentic, s, steps).value.flights[f].Launching?
    requires e == FinishStart(f) || e == RollBack(f)
    ensures var u := After(authentic, s, steps).value;
            u.run.Some? && Legal(authentic, u, e) &&
            (u.run.value.gen == s.flights[f].gen <==> !Redeclared(authentic, s, steps)) &&
            (var a, b := u.run.value, Apply(authentic, u, e).run.value;
             b == Launched(a, e) && (b != a <==> a.state == Starting))
  {
    SameRecordIff(authentic, s, steps);
  }

  // --------------------------------------------------- a start that outlives its record

  // ------------------------------------------------------------ which lease a refusal ends

  /** The step gives the run another lease: by replacement, assignment or a new declaration. */
  predicate Touches(s: System, e: Step) {
    match e
    case Declare(d) => MayDeclare(s.run, d)
    case AssignLease(f, _, _) => In(s, f) && s.run.Some? && MayAssign(s.run.value)
    case ReplaceLease(f, _, _, _) =>
      In(s, f) && s.flights[f].Refreshing? && s.run.Some? && MayReplace(s.run.value, s.flights[f].lease)
    case _ => false
  }

  predicate Touched(authentic: Lease -> bool, s: System, steps: seq<Step>) {
    steps != [] &&
    (Touched(authentic, s, steps[..|steps| - 1]) ||
     (var before := After(authentic, s, steps[..|steps| - 1]);
      before.Some? && Touches(before.value, steps[|steps| - 1])))
  }

  /** The same record with the same lease. */
  predicate SameHold(s: System, u: System) {
    s.run.Some? && u.run.Some? && u.run.value.gen == s.run.value.gen && u.run.value.lease == s.run.value.lease
  }

  lemma StepHold(authentic: Lease -> bool, s: System, e: Step)
    requires Unforgeable(authentic) && Inv(authentic, s) && Legal(authentic, s, e) && s.run.Some? && s.run.value.lease.Some?
    ensures SameHold(s, Apply(authentic, s, e)) <==> !Touches(s, e)
  {
    if e.ReplaceLease? { assert FlightOk(authentic, s.run.value, s.flights[e.f]); }
  }

  /** Over every run the record keeps its lease exactly while nothing gives it another. */
  lemma {:induction false} SameHoldIff(authentic: Lease -> bool, s: System, steps: seq<Step>)
    requires Unforgeable(authentic) && Inv(authentic, s) && After(authentic, s, steps).Some?
    requires s.run.Some? && s.run.value.lease.Some?
    ensures SameHold(s, After(authentic, s, steps).value) <==> !Touched(authentic, s, steps)
  {
    if steps != [] {
      var front, e := steps[..|steps| - 1], steps[|steps| - 1];
      var before := After(authentic, s, front).value;
      RunInv(authentic, s, front);
      SameHoldIff(authentic, s, front);
      GensNeverFall(authentic, s, front);
      GensGrow(authentic, before, e);
      if SameHold(s, before) { StepHold(authentic, before, e); } else { HoldLost(authentic, s, front, e); }
    }
  }

  /** A lease that a record has lost, or the record itself, does not come back. */
  lemma HoldLost(authentic: Lease -> bool, s: System, front: seq<Step>, e: Step)
    requires Unforgeable(authentic) && Inv(authentic, s) && s.run.Some? && s.run.value.lease.Some?
    requires After(authentic, s, front).Some? && !SameHold(s, After(authentic, s, front).value)
    requires Legal(authentic, After(authentic, s, front).value, e)
    ensures !SameHold(s, Apply(authentic, After(authentic, s, front).value, e))
  {
    var before := After(authentic, s, front).value;
    RunInv(authentic, s, front);
    GensNeverFall(authentic, s, front);
    GensGrow(authentic, before, e);
    if before.run.value.gen == s.run.value.gen {
      LeaseOverRun(authentic, s, front);
      SectionKeepsLease(authentic, before, e);
    }
  }

  /** A refused heartbeat, renewal or check ends whatever run it finds that can end; that
      run holds the very lease it was refused for if and only if no replacement,
      assignment or declaration took effect since it read it. */
  lemma RefusalEndsItsLeaseIff(authentic: Lease -> bool, s: System, f: nat, steps: seq<Step>)
    requires Unforgeable(authentic) && Inv(authentic, s) && After(authentic, s, steps).Some?
    requires s.run.Some? && Asks(s, f) && s.run.value.lease == Some(s.flights[f].lease)
    requires Asks(After(authentic, s, steps).value, f)
    ensures var u := After(authentic, s, steps).value;
            u.run.Some? && Legal(authentic, u, Refuse(f)) &&
            Apply(authentic, u, Refuse(f)).run == Some(ExpireRecord(u.run.value)) &&
            (u.run.value.gen == s.run.value.gen && u.run.value.lease == Some(s.flights[f].lease) <==>
             !Touched(authentic, s, steps))
  {
    SameHoldIff(authentic, s, steps);
    GensNeverFall(authentic, s, steps);
  }

  const ANYONE := Scope("agent", "tenant", "project", "", "GOAL_PROPOSER", "policy")

  function PlainLease(signature: nat, expires: int): Lease {
    Lease("lease", ANYONE, 0, expires, 0, HEARTBEAT_SECONDS, ["model.generate"], "budget", "nonce", 1, signature, true)
  }

  lemma Extend(authentic: Lease -> bool, s: System, steps: seq<Step>, e: Step)
    requires After(authentic, s, steps).Some? && Legal(authentic, After(authentic, s, steps).value, e)
    ensures After(authentic, s, steps + [e]) == Some(Apply(authentic, After(authentic, s, steps).value, e))
  {
    assert (steps + [e])[..|steps|] == steps;
  }

  /** From an idle or absent record to a queued one whose declaration flight f has read. */
  lemma Enqueue(authentic: Lease -> bool, s: System, d: Declaration, f: nat) returns (steps: seq<Step>, u: System)
    requires MayDeclare(s.run, d) && f !in s.flights
    ensures After(authentic, s, steps) == Some(u)
    ensures u == System(Some(Record(s.gens, d, Queued, None, false, None)), s.gens + 1, s.flights[f := Assigning(d)])
  {
    steps, u := [], s;
    Extend(authentic, s, steps, Declare(d));
    steps, u := steps + [Declare(d)], Apply(authentic, u, Declare(d));
    Extend(authentic, s, steps, Move(Queued));
    steps, u := steps + [Move(Queued)], Apply(authentic, u, Move(Queued));
    Extend(authentic, s, steps, ReadDeclaration(f));
    steps, u := steps + [ReadDeclaration(f)], Apply(authentic, u, ReadDeclaration(f));
  }

  /** From an idle or absent record to one being started by flight f + 1. */
  lemma Launch(authentic: Lease -> bool, s: System, d: Declaration, f: nat) returns (steps: seq<Step>, u: System)
    requires authentic(PlainLease(1, 50)) && d.scope == ANYONE && MayDeclare(s.run, d) && f !in s.flights && f + 1 !in s.flights
    ensures After(authentic, s, steps) == Some(u)
    ensures u == System(Some(Record(s.gens, d, Starting, Some(PlainLease(1, 50)), false, None)), s.gens + 1,
                        s.flights[f + 1 := Launching(s.gens)])
  {
    steps, u := Enqueue(authentic, s, d, f);
    var assign := AssignLease(f, PlainLease(1, 50), 1);
    Extend(authentic, s, steps, assign);
    steps, u := steps + [assign], Apply(authentic, u, assign);
    assert u.flights == s.flights;
    Extend(authentic, s, steps, BeginStart(f + 1));
    steps, u := steps + [BeginStart(f + 1)], Apply(authentic, u, BeginStart(f + 1));
  }

  /** A start does not belong to the record it began on: the run can expire, be
      declared and started anew, and the old start's last section then makes the new
      record run, while the new start is still being checked. */
  lemma StartMayOutliveItsRecord(authentic: Lease -> bool, d: Declaration)
    returns (first: seq<Step>, began: System, second: seq<Step>, again: System)
    requires authentic(PlainLease(1, 50)) && d.scope == ANYONE
    ensures After(authentic, EMPTY, first) == Some(began) && After(authentic, began, [ExpireStale(60)]).Some?
    ensures After(authentic, After(authentic, began, [ExpireStale(60)]).value, second) == Some(again)
    ensures began.flights == map[1 := Launching(0)] && began.run.Some? && began.run.value.gen == 0
    ensures again.flights == map[1 := Launching(0), 3 := Launching(1)] && Legal(authentic, again, FinishStart(1))
    ensures var u := Apply(authentic, again, FinishStart(1));
            u.run.value.gen == 1 && u.run.value.state == Running && u.flights == map[3 := Launching(1)]
  {
    first, began := Launch(authentic, EMPTY, d, 0);
    Extend(authentic, began, [], ExpireStale(60));
    assert [] + [ExpireStale(60)] == [ExpireStale(60)];
    second, again := Launch(authentic, Apply(authentic, began, ExpireStale(60)), d, 2);
    LateStart(authentic, again);
  }

  lemma LateStart(authentic: Lease -> bool, s: System)
    requires s.run.Some? && s.run.value.state == Starting && s.flights == map[1 := Launching(0), 3 := Launching(1)]
    ensures Legal(authentic, s, FinishStart(1))
    ensures var u := Apply(authentic, s, FinishStart(1));
            u.run == Some(s.run.value.(state := Running)) && u.flights == map[3 := Launching(1)]
  {
  }

  /** A refusal for a lease that was replaced meanwhile ends a run that holds a newer and
      valid one. */
  lemma RefusalMayEndNewerLease(authentic: Lease -> bool, d: Declaration) returns (steps: seq<Step>, u: System)
    requires d.scope == ANYONE && authentic(PlainLease(1, 50)) && authentic(PlainLease(2, 60).(heartbeat := 1))
    ensures var newer := PlainLease(2, 60).(heartbeat := 1);
            After(authentic, EMPTY, steps) == Some(u) && u.run.Some? && u.run.value.lease == Some(newer) &&
            ValidShape(newer, 2) && Asks(u, 6) && u.flights[6].lease == PlainLease(1, 50) &&
            Apply(authentic, u, Refuse(6)).run.value.state == Expired
  {
    var newer := PlainLease(2, 60).(heartbeat := 1);
    steps, u := Launch(authentic, EMPTY, d, 0);
    steps, u := ReadTwice(authentic, steps, u, PlainLease(1, 50));
    var replace := ReplaceLease(5, newer, 2, 2);
    assert ValidRenewed(PlainLease(1, 50), newer, 2) && ValidHeartbeat(PlainLease(1, 50), newer, 2);
    Extend(authentic, EMPTY, steps, replace);
    steps, u := steps + [replace], Apply(authentic, u, replace);
  }

  /** A heartbeat and a check read the same lease. */
  lemma ReadTwice(authentic: Lease -> bool, steps: seq<Step>, s: System, l: Lease) returns (more: seq<Step>, u: System)
    requires After(authentic, EMPTY, steps) == Some(s) && 5 !in s.flights && 6 !in s.flights
    requires s.run.Some? && CurrentLease(s.run.value) == Some(l)
    ensures After(authentic, EMPTY, more) == Some(u)
    ensures u == s.(flights := s.flights[5 := Refreshing(l, false)][6 := Checking(l)])
  {
    Extend(authentic, EMPTY, steps, ReadLease(5, false));
    more, u := steps + [ReadLease(5, false)], Apply(authentic, s, ReadLease(5, false));
    Extend(authentic, EMPTY, more, ReadForCheck(6));
    more, u := more + [ReadForCheck(6)], Apply(authentic, u, ReadForCheck(6));
  }
}
