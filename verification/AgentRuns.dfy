/** An agent run as the runtime keeps it, and the lock sections that change it. */
module AgentRuns {
  import opened Wrappers

  datatype State =
    | Declared | Queued | Leased | Starting | Running
    | WaitingInput | WaitingTool | WaitingDependency
    | Completed | Failed | Canceled | Expired | Terminated

  predicate Terminal(s: State) { s in {Completed, Failed, Canceled, Expired, Terminated} }

  predicate ValidTransition(from: State, to: State) {
    from != to &&
    match from
    case Declared => to in {Queued, Canceled, Terminated}
    case Queued => to in {Leased, Canceled, Terminated}
    case Leased => to in {Starting, Canceled, Expired, Terminated}
    case Starting => to in {Running, Failed, Canceled, Expired, Terminated}
    case Running =>
      to in {WaitingInput, WaitingTool, WaitingDependency, Completed, Failed, Canceled, Expired, Terminated}
    case WaitingInput | WaitingTool | WaitingDependency => to in {Running, Failed, Canceled, Expired, Terminated}
    case _ => false
  }

  /** The table told by where a transition leads. */
  lemma TransitionsInto(from: State, to: State)
    ensures ValidTransition(from, to) <==>
            match to
            case Declared => false
            case Queued => from == Declared
            case Leased => from == Queued
            case Starting => from == Leased
            case Running => from == Starting || from == WaitingInput || from == WaitingTool || from == WaitingDependency
            case WaitingInput | WaitingTool | WaitingDependency | Completed => from == Running
            case Failed => CanExpire(from) && from != Leased
            case Expired => CanExpire(from)
            case Canceled | Terminated => CanExpire(from) || from == Declared || from == Queued
  {
  }

  /** The states of a run that has ended are those that no transition leaves. */
  lemma EndedIffNoWayOut(s: State)
    ensures Terminal(s) <==> forall to :: !ValidTransition(s, to)
  {
    assert !Terminal(s) ==> ValidTransition(s, Terminated);
  }

  /** A run that has its lease and has not ended. */
  predicate CanExpire(s: State) {
    s == Leased || s == Starting || s == Running || s == WaitingInput || s == WaitingTool || s == WaitingDependency
  }

  /** Whose work a lease covers. */
  datatype Scope = Scope(agent: string, tenant: string, project: string, task: string, role: string, policy: string)

  /** The terms are all that a repeated declaration must repeat; the stamps of its envelope may differ. */
  datatype Declaration = Declaration(scope: Scope, terms: nat, stamps: nat)

  predicate SameDeclaration(a: Declaration, b: Declaration) { a.(stamps := b.stamps) == b }

  const HEARTBEAT_SECONDS := 30
  const MISSED_HEARTBEATS := 3
  const SECOND := 1_000_000_000
  const MAX_INT64 := 0x7FFF_FFFF_FFFF_FFFF
  const EXECUTOR := "EXECUTOR"

  datatype Lease = Lease(id: string, scope: Scope, issued: int, expires: int, heartbeat: int, interval: int,
                         capabilities: seq<string>, budget: string, nonce: string, token: int, signature: nat,
                         fieldsOk: bool)

  predicate LeaseExpired(l: Lease, now: int) {
    now >= l.expires || now >= l.heartbeat + l.interval * MISSED_HEARTBEATS * SECOND
  }

  predicate ValidShape(l: Lease, now: int) {
    l.fieldsOk && l.id != "" && l.token >= 1 && l.interval == HEARTBEAT_SECONDS && l.capabilities != [] &&
    (forall i, j | 0 <= i < j < |l.capabilities| :: l.capabilities[i] != l.capabilities[j]) &&
    l.issued < l.expires && l.issued <= l.heartbeat <= l.expires && l.issued <= now && !LeaseExpired(l, now)
  }

  /** A lease in shape covers the moment: issued, with the regular heartbeat, and before
      both its deadline and its third missed heartbeat. */
  predicate Covers(l: Lease, now: int) {
    l.issued <= now < l.expires && now < l.heartbeat + 90 * SECOND && l.issued <= l.heartbeat <= l.expires &&
    l.interval == 30 && l.token > 0 && l.id != "" && l.fieldsOk && |l.capabilities| > 0 &&
    forall i, j | 0 <= i < j < |l.capabilities| :: l.capabilities[i] != l.capabilities[j]
  }

  lemma ShapeLaw(l: Lease, now: int)
    ensures ValidShape(l, now) <==> Covers(l, now)
  {
  }

  predicate ValidRenewed(was: Lease, now: Lease, clock: int) {
    ValidShape(now, clock) && now.id == was.id && now.scope == was.scope && now.issued == was.issued &&
    now.budget == was.budget && now.expires > clock && now.capabilities == was.capabilities
  }

  predicate ValidHeartbeat(was: Lease, now: Lease, clock: int) {
    now.id == was.id && now.scope == was.scope && now.issued == was.issued && now.budget == was.budget &&
    now.token == was.token && now.nonce == was.nonce && now.expires >= was.expires && now.heartbeat > was.heartbeat &&
    now.heartbeat <= now.expires && clock >= now.heartbeat && now.capabilities == was.capabilities
  }

  /** A 64-bit counter wraps to the negative end. */
  function NextToken(token: int): int { if token == MAX_INT64 then -MAX_INT64 - 1 else token + 1 }

  predicate ValidRenewal(was: Lease, now: Lease, clock: int) {
    ValidRenewed(was, now, clock) && now.expires > was.expires &&
    now.token == if was.scope.task != "" && was.scope.role == EXECUTOR then was.token else NextToken(was.token)
  }

  /** A lease that only gained time: everything else of it stands. */
  predicate Prolonged(was: Lease, now: Lease) {
    now.id == was.id && now.scope == was.scope && now.issued == was.issued && now.budget == was.budget &&
    now.capabilities == was.capabilities && was.expires <= now.expires
  }

  /** What a heartbeat may put in the place of a lease. */
  predicate Refreshed(was: Lease, now: Lease, second: int, third: int) {
    Prolonged(was, now) && Covers(now, second) && now.nonce == was.nonce && now.token == was.token &&
    was.heartbeat < now.heartbeat <= third
  }

  /** What a renewal may put in the place of a lease: an execution keeps its token, any
      other lease takes the next one, which wraps after the largest. */
  predicate Extended(was: Lease, now: Lease, second: int) {
    Prolonged(was, now) && Covers(now, second) && was.expires < now.expires &&
    if was.scope.task != "" && was.scope.role == "EXECUTOR" then now.token == was.token
    else if was.token == MAX_INT64 then now.token == -MAX_INT64 - 1
    else now.token == was.token + 1
  }

  lemma RefreshedLaw(was: Lease, now: Lease, second: int, third: int)
    ensures ValidRenewed(was, now, second) && ValidHeartbeat(was, now, third) <==> Refreshed(was, now, second, third)
  {
    ShapeLaw(now, second);
  }

  lemma ExtendedLaw(was: Lease, now: Lease, second: int)
    ensures ValidRenewal(was, now, second) <==> Extended(was, now, second)
  {
    ShapeLaw(now, second);
  }

  predicate SameRevision(a: Lease, b: Lease) {
    a.id == b.id && a.signature == b.signature && a.token == b.token && a.heartbeat == b.heartbeat && a.expires == b.expires
  }

  datatype Accepted = Accepted(payload: string, leaseId: string, token: int, at: int)

  /** One record of the run table; gen tells apart records that replaced one another. */
  datatype Record = Record(gen: nat, declaration: Declaration, state: State, lease: Option<Lease>, busy: bool,
                           result: Option<Accepted>)

  // --------------------------------------------------------------- the lock sections

  predicate MayDeclare(run: Option<Record>, d: Declaration) {
    run.None? ||
    (run.value.state in {Failed, Expired} && !run.value.busy && run.value.result.None? && SameDeclaration(run.value.declaration, d))
  }

  function Fresh(d: Declaration, gen: nat): Record { Record(gen, d, Declared, None, false, None) }

  predicate MayMove(r: Record, to: State) { !r.busy && ValidTransition(r.state, to) }

  predicate MayExpire(r: Record) { !Terminal(r.state) && ValidTransition(r.state, Expired) }

  function ExpireRecord(r: Record): Record { if MayExpire(r) then r.(state := Expired) else r }

  function ExpireIfStale(r: Record, now: int): Record {
    if Terminal(r.state) || r.lease.None? || !LeaseExpired(r.lease.value, now) then r else ExpireRecord(r)
  }

  predicate MayAssign(r: Record) { r.state == Queued && !r.busy }

  predicate MayStart(r: Record) { r.state == Leased && !r.busy }

  /** The lease an operation works with; none once the run has ended. */
  function CurrentLease(r: Record): Option<Lease> { if Terminal(r.state) then None else r.lease }

  predicate MayReplace(r: Record, expected: Lease) {
    !Terminal(r.state) && r.lease.Some? && SameRevision(r.lease.value, expected)
  }

  predicate MayBegin(r: Record) { r.state == Running && !r.busy }

  function BeginRecord(r: Record, tool: bool): Record { r.(busy := true, state := if tool then WaitingTool else r.state) }

  function FinishRecord(r: Record, tool: bool): Record {
    r.(busy := false, state := if tool && r.state == WaitingTool then Running else r.state)
  }

  predicate MayComplete(r: Record, lease: Lease) {
    r.state == Running && !r.busy && r.lease.Some? && SameRevision(r.lease.value, lease)
  }

  function CompleteRecord(r: Record, lease: Lease, payload: string, at: int, now: int): Record
    requires r.lease.Some?
  {
    if ValidShape(r.lease.value, now)
    then r.(state := Completed, result := Some(Accepted(payload, lease.id, lease.token, at)))
    else r.(state := Expired)
  }

  // ------------------------------------------------- what the authority's answer means

  /** The authority grants a lease, or refuses, perhaps because the lease has expired. */
  datatype Answer = Granted(lease: Lease) | Refused(expired: bool)

  /** What to do with the held lease: replace it, end the run, or leave it. */
  datatype Verdict = Keep(updated: Lease) | Drop | Ignore

  function RefusalVerdict(expired: bool): Verdict { if expired then Drop else Ignore }

  /** A heartbeat from the lease read; the clock is read three times. */
  function HeartbeatVerdict(read: Lease, answer: Answer, first: int, second: int, third: int): Verdict {
    if !ValidShape(read, first) then Drop
    else
      match answer
      case Refused(expired) => RefusalVerdict(expired)
      case Granted(u) => if ValidRenewed(read, u, second) && ValidHeartbeat(read, u, third) then Keep(u) else Drop
  }

  /** A renewal, which the authority confirms once more. */
  function RenewalVerdict(read: Lease, answer: Answer, confirmed: Option<bool>, first: int, second: int): Verdict {
    if !ValidShape(read, first) then Drop
    else
      match answer
      case Refused(expired) => RefusalVerdict(expired)
      case Granted(u) =>
        if !ValidRenewal(read, u, second) then Drop
        else if confirmed.Some? then RefusalVerdict(confirmed.value) else Keep(u)
  }

  function Settled(r: Record, read: Lease, v: Verdict): Record {
    match v
    case Keep(u) => if MayReplace(r, read) then r.(lease := Some(u)) else r
    case Drop => ExpireRecord(r)
    case Ignore => r
  }

  /** A run that can expire does; any other stays as it is. */
  function Over(r: Record): Record { if CanExpire(r.state) then r.(state := Expired) else r }

  /** How a heartbeat or renewal ends on the record it finds: with the new lease if that
      is acceptable and the record still holds the lease read; with the end of the run if
      it is to end; otherwise with no change. */
  function Outcome(found: Record, read: Lease, updated: Option<Lease>, over: bool): Record {
    if updated.Some? then
      if found.lease.Some? && SameRevision(found.lease.value, read) && !Terminal(found.state)
      then found.(lease := updated) else found
    else if over then Over(found) else found
  }

  /** The lease granted, if the one read was in shape and the grant is acceptable. */
  function KeptByHeartbeat(read: Lease, answer: Answer, first: int, second: int, third: int): Option<Lease> {
    if Covers(read, first) && answer.Granted? && Refreshed(read, answer.lease, second, third) then Some(answer.lease) else None
  }

  function KeptByRenewal(read: Lease, answer: Answer, confirmed: Option<bool>, first: int, second: int): Option<Lease> {
    if Covers(read, first) && answer.Granted? && Extended(read, answer.lease, second) && confirmed.None?
    then Some(answer.lease) else None
  }

  /** A refusal that does not say the lease has expired is the only thing a run survives
      without a new lease. */
  lemma HeartbeatMeans(found: Record, read: Lease, answer: Answer, first: int, second: int, third: int)
    ensures var v := HeartbeatVerdict(read, answer, first, second, third);
            var kept := KeptByHeartbeat(read, answer, first, second, third);
            (v.Keep? <==> kept.Some?) && (v.Keep? ==> Some(v.updated) == kept) &&
            Settled(found, read, v) == Outcome(found, read, kept, !(Covers(read, first) && answer == Refused(false)))
  {
    ShapeLaw(read, first);
    if answer.Granted? { RefreshedLaw(read, answer.lease, second, third); }
  }

  lemma RenewalMeans(found: Record, read: Lease, answer: Answer, confirmed: Option<bool>, first: int, second: int)
    ensures var v := RenewalVerdict(read, answer, confirmed, first, second);
            var kept := KeptByRenewal(read, answer, confirmed, first, second);
            (v.Keep? <==> kept.Some?) && (v.Keep? ==> Some(v.updated) == kept) &&
            Settled(found, read, v) ==
            Outcome(found, read, kept,
                    !(Covers(read, first) &&
                      if answer.Refused? then !answer.expired
                      else Extended(read, answer.lease, second) && confirmed == Some(false)))
  {
    ShapeLaw(read, first);
    if answer.Granted? { ExtendedLaw(read, answer.lease, second); }
  }

  /** What becomes of an operation whose lease is checked, and of the run. */
  datatype Check = Passed | Denied | Ended

  /** Checking the lease that is held against the one an operation began with; a lease
      that has run out, by the clock or by the authority's answer, is to end the run. */
  function Judged(run: Option<Record>, leaseId: string, capability: string, refusal: Option<bool>, now: int): Check {
    if run.None? || CurrentLease(run.value).None? || CurrentLease(run.value).value.id != leaseId then Denied
    else
      var held := CurrentLease(run.value).value;
      if !ValidShape(held, now) then Ended
      else if capability != "" && capability !in held.capabilities then Denied
      else if refusal.Some? then (if refusal.value then Ended else Denied)
      else Passed
  }

  /** What a check leaves of the run that it finds when it ends. */
  function Left(found: Option<Record>, c: Check): Option<Record> {
    if c == Ended && found.Some? then Some(ExpireRecord(found.value)) else found
  }

  /** The run has not ended and holds a lease with the identifier. */
  predicate Holds(run: Option<Record>, leaseId: string) {
    run.Some? && !Terminal(run.value.state) && run.value.lease.Some? && run.value.lease.value.id == leaseId
  }

  predicate Allows(l: Lease, capability: string) {
    capability == "" || exists i | 0 <= i < |l.capabilities| :: l.capabilities[i] == capability
  }

  /** A check passes exactly on the lease that is held, in shape, with the capability and
      confirmed; it is to end the run exactly when the held lease is out of shape or is
      said to have expired, and then ends every run that it finds and that can end. */
  lemma CheckMeans(run: Option<Record>, leaseId: string, capability: string, refusal: Option<bool>, now: int, found: Option<Record>)
    ensures var c := Judged(run, leaseId, capability, refusal, now);
            (c == Passed <==>
               Holds(run, leaseId) && Covers(run.value.lease.value, now) && Allows(run.value.lease.value, capability) &&
               refusal.None?) &&
            (c == Ended <==>
               Holds(run, leaseId) &&
               (!Covers(run.value.lease.value, now) || (Allows(run.value.lease.value, capability) && refusal == Some(true)))) &&
            Left(found, c) == if c == Ended && found.Some? then Some(Over(found.value)) else found
  {
    if run.Some? && run.value.lease.Some? { ShapeLaw(run.value.lease.value, now); }
  }

  /** Finishing an operation undoes its beginning. */
  lemma FinishUndoesBegin(r: Record, tool: bool)
    requires r.state == Running && !r.busy
    ensures MayBegin(r) && FinishRecord(BeginRecord(r, tool), tool) == r
  {
  }
}
