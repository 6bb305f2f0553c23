/** Capability leases: the record, the decisions of the lease manager, and the
    in-memory store that the manager swaps leases in. */
module Leases {
  import opened Wrappers

  /** Nanoseconds on the manager's clock; 0 is the unset time. */
  type Instant = int

  const SECOND: int := 1_000_000_000
  const MAX_INT64: int := 0x7FFF_FFFF_FFFF_FFFF
  const MIN_INT64: int := -0x8000_0000_0000_0000

  /** A 64-bit signed machine integer. */
  type Int64 = x: int | MIN_INT64 <= x <= MAX_INT64

  datatype LeaseState = Active | Revoked | Expired

  datatype Code =
    | NotFound | LeaseExpired | Conflict | Forbidden | PolicyDenied
    | InvalidArgument | UnauthorizedPath | IdempotencyConflict

  datatype Resource = Resource(kind: string, id: string, path: string, attributes: map<string, string>)

  /** The fields that bind a lease to one authorization and that no operation changes. */
  datatype Scope = Scope(
    agent: string, principal: string, principalType: string, tenant: string,
    project: string, projectVersion: int, task: string, taskVersion: int, specDigest: string,
    role: string, action: string, resource: Resource, parameterDigest: string,
    capabilities: seq<string>, policyVersion: string, budgetAccount: string)

  datatype Lease = Lease(
    id: string, idempotencyKey: string, scope: Scope,
    issuedAt: Instant, expiresAt: Instant, lastHeartbeatAt: Instant, heartbeatSeconds: int,
    nonce: string, token: Int64, state: LeaseState, revokedAt: Option<Instant>)

  /** Manager configuration. `fieldsOk` stands for the identifier, role and digest
      shape checks on the fields that no operation looks into. */
  datatype Manager = Manager(
    defaultTTL: int, maxTTL: int, heartbeatInterval: int,
    fieldsOk: (Scope, string) -> bool, digestOk: string -> bool)

  ghost predicate Configured(m: Manager) {
    0 < m.defaultTTL <= m.maxTTL && 0 < m.heartbeatInterval
  }

  /** Missing settings take their defaults; a default lifetime above the maximum is refused. */
  function NewLeaseManager(m: Manager): (r: Result<Manager, Code>)
    ensures r.Ok? ==> Configured(r.value) && r.value.fieldsOk == m.fieldsOk && r.value.digestOk == m.digestOk &&
                      (m.defaultTTL > 0 ==> r.value.defaultTTL == m.defaultTTL) &&
                      (m.maxTTL > 0 ==> r.value.maxTTL == m.maxTTL) &&
                      (m.heartbeatInterval > 0 ==> r.value.heartbeatInterval == m.heartbeatInterval)
    ensures m.defaultTTL > 0 && m.maxTTL > 0 ==> (r.Ok? <==> m.defaultTTL <= m.maxTTL)
    ensures m.defaultTTL <= 0 && m.maxTTL <= 0 && m.heartbeatInterval <= 0 ==>
              r.Ok? && (r.value.defaultTTL, r.value.maxTTL, r.value.heartbeatInterval) == (300 * SECOND, 900 * SECOND, 30 * SECOND)
  {
    var d := if m.defaultTTL <= 0 then 300 * SECOND else m.defaultTTL;
    var x := if m.maxTTL <= 0 then 900 * SECOND else m.maxTTL;
    var h := if m.heartbeatInterval <= 0 then 30 * SECOND else m.heartbeatInterval;
    if d > x then Err(InvalidArgument)
    else Ok(m.(defaultTTL := d, maxTTL := x, heartbeatInterval := h))
  }

  // ---------------------------------------------------------------- one lease

  /** Adding one to a 64-bit token wraps. */
  function Increment(t: Int64): Int64 {
    if t == MAX_INT64 then MIN_INT64 else t + 1
  }

  predicate HasPrefix(s: string, p: string) { p <= s }

  predicate IsOperationLease(l: Lease) {
    HasPrefix(l.idempotencyKey, "runtime-operation-") && l.scope.resource.path != "" &&
    (l.scope.action == "model.generate" || l.scope.action == "tool.invoke")
  }

  predicate IsExpired(l: Lease, now: Instant) {
    l.expiresAt == 0 || now >= l.expiresAt ||
    (!IsOperationLease(l) && l.heartbeatSeconds > 0 && l.lastHeartbeatAt != 0 &&
     now >= l.lastHeartbeatAt + 3 * l.heartbeatSeconds * SECOND)
  }

  /** The check every lease read from the store must pass before it is used. */
  predicate ValidShape(m: Manager, l: Lease) {
    m.fieldsOk(l.scope, l.nonce) && l.token >= 1 &&
    l.issuedAt != 0 && l.expiresAt != 0 && l.lastHeartbeatAt != 0 &&
    0 < l.heartbeatSeconds <= 300 &&
    l.expiresAt > l.issuedAt && l.issuedAt <= l.lastHeartbeatAt <= l.expiresAt
  }

  predicate ResourcesEqual(a: Resource, b: Resource) {
    a.kind == b.kind && a.id == b.id && a.path == b.path && |a.attributes| == |b.attributes| &&
    forall k <- a.attributes :: (if k in b.attributes then b.attributes[k] else "") == a.attributes[k]
  }

  predicate ResourceEmpty(r: Resource) {
    r.kind == "" && r.id == "" && r.path == "" && r.attributes == map[]
  }

  // ---------------------------------------------------------------- requests

  /** `admitted` stands for the principal, role, scope and policy-grant checks. */
  datatype Issuance = Issuance(
    id: string, idempotencyKey: string, scope: Scope, nonce: string, admitted: bool,
    ttl: int, heartbeat: int, grantExpiresAt: Instant, notAfter: Instant, token: Int64)

  datatype Renewal = Renewal(
    leaseId: string, tenant: string, token: Int64, principal: string, principalType: string,
    role: string, policyVersion: string, ttl: int, grantAccepted: bool, grantExpiresAt: Instant,
    digest: string, preserveFencing: bool)

  datatype Beat = Beat(
    leaseId: string, tenant: string, project: string, task: string, principal: string, token: Int64)

  datatype Revocation = Revocation(
    leaseId: string, tenant: string, project: string, task: string, actor: string,
    breakGlass: bool, digest: string, admitted: bool)

  datatype Check = Check(leaseId: string, scope: Scope, capability: string, token: Int64)

  datatype Operation =
    | Renew(renewal: Renewal)
    | Heartbeat(beat: Beat)
    | Revoke(revocation: Revocation)
    | Validate(check: Check)

  /** What an operation decides from the one lease it has read: refuse, answer
      without writing, or try to replace `current` by `updated`. */
  datatype Plan =
    | Refuse(code: Code)
    | Answer(lease: Lease)
    | Replace(current: Lease, updated: Lease)

  // ---------------------------------------------------------------- decisions

  function Least(a: int, b: int): int { if a <= b then a else b }

  /** Lifetime after the manager's cap and an optional absolute bound (0 for none). */
  function Bound(ttl: int, limit: Instant, now: Instant): (r: Option<int>)
    requires ttl > 0
    ensures r.Some? ==> 0 < r.value <= ttl && (limit != 0 ==> now + r.value <= limit)
    ensures r.None? <==> limit != 0 && limit <= now
  {
    if limit == 0 then Some(ttl)
    else if limit - now <= 0 then None
    else Some(Least(ttl, limit - now))
  }

  function PlanIssue(m: Manager, q: Issuance, now: Instant): Result<Lease, Code>
    requires Configured(m)
  {
    if !q.admitted || q.token < 0 then Err(InvalidArgument) else
    var ttl := if q.ttl <= 0 then m.defaultTTL else q.ttl;
    if ttl > m.maxTTL then Err(PolicyDenied) else
    var granted := Bound(ttl, q.grantExpiresAt, now);
    if granted.None? then Err(PolicyDenied) else
    var bounded := Bound(granted.value, q.notAfter, now);
    if bounded.None? then Err(LeaseExpired) else
    var beat := if q.heartbeat <= 0 then m.heartbeatInterval else q.heartbeat;
    if beat <= 0 || beat % SECOND != 0 || beat > 300 * SECOND || beat > bounded.value / 3
    then Err(InvalidArgument) else
    var l := Lease(q.id, q.idempotencyKey, q.scope, now, now + bounded.value, now, beat / SECOND,
                   q.nonce, if q.token == 0 then 1 else q.token, Active, None);
    if ValidShape(m, l) then Ok(l) else Err(PolicyDenied)
  }

  function PlanRenew(m: Manager, q: Renewal, now: Instant, found: Option<Lease>): Plan
    requires Configured(m)
  {
    if q.digest != "" && !m.digestOk(q.digest) then Refuse(InvalidArgument)
    else if found.None? then Refuse(NotFound) else
    var c := found.value;
    if !ValidShape(m, c) then Refuse(PolicyDenied)
    else if c.state != Active || IsExpired(c, now) then Refuse(LeaseExpired)
    else if q.token < 1 || q.token != c.token then Refuse(Conflict)
    else if q.principal == "" || q.principal != c.scope.principal
            || (q.principalType != "" && q.principalType != c.scope.principalType)
            || (q.role != "" && q.role != c.scope.role) then Refuse(Forbidden)
    else if q.policyVersion == "" || q.policyVersion != c.scope.policyVersion then Refuse(PolicyDenied)
    else if !q.grantAccepted then Refuse(PolicyDenied) else
    var ttl := if q.ttl <= 0 then m.defaultTTL else q.ttl;
    if ttl > m.maxTTL then Refuse(PolicyDenied) else
    var granted := Bound(ttl, q.grantExpiresAt, now);
    if granted.None? then Refuse(PolicyDenied) else
    var u := c.(expiresAt := now + granted.value, lastHeartbeatAt := now,
                token := if q.preserveFencing then c.token else Increment(c.token),
                nonce := if q.digest != "" then q.digest else c.nonce);
    if u.expiresAt < u.issuedAt then Refuse(InvalidArgument) else Replace(c, u)
  }

  function PlanHeartbeat(m: Manager, q: Beat, now: Instant, found: Option<Lease>): Plan
    requires Configured(m)
  {
    if found.None? then Refuse(NotFound) else
    var c := found.value;
    if !ValidShape(m, c) then Refuse(PolicyDenied)
    else if c.state != Active || IsExpired(c, now) then Refuse(LeaseExpired)
    else if q.project == "" || q.project != c.scope.project || q.task != c.scope.task
            || q.principal == "" || q.principal != c.scope.principal || q.token != c.token
    then Refuse(Forbidden)
    else if now < c.lastHeartbeatAt then Refuse(InvalidArgument)
    else Replace(c, c.(lastHeartbeatAt := now,
                       expiresAt := if now + m.defaultTTL > c.expiresAt then now + m.defaultTTL else c.expiresAt))
  }

  function PlanRevoke(m: Manager, q: Revocation, now: Instant, found: Option<Lease>): Plan {
    if !q.admitted || q.project == "" || !m.digestOk(q.digest) then Refuse(InvalidArgument)
    else if found.None? then Refuse(NotFound) else
    var c := found.value;
    if !ValidShape(m, c) then Refuse(PolicyDenied)
    else if c.scope.project != q.project || c.scope.task != q.task then Refuse(Forbidden)
    else if q.actor != c.scope.principal && !q.breakGlass then Refuse(Forbidden)
    else if c.state != Active then
      if c.state == Revoked && c.nonce == q.digest then Answer(c) else Refuse(IdempotencyConflict)
    else Replace(c, c.(state := Revoked, revokedAt := Some(now), token := Increment(c.token), nonce := q.digest))
  }

  predicate BindingMatches(q: Check, c: Lease) {
    var a, b := q.scope, c.scope;
    a.agent != "" && a.agent == b.agent && a.principal != "" && a.principal == b.principal &&
    a.principalType != "" && a.principalType == b.principalType && a.tenant != "" && a.tenant == b.tenant &&
    a.project != "" && a.project == b.project && a.projectVersion == b.projectVersion &&
    a.task == b.task && a.taskVersion == b.taskVersion && a.specDigest == b.specDigest &&
    a.role != "" && a.role == b.role && a.action != "" && a.action == b.action &&
    a.policyVersion != "" && a.policyVersion == b.policyVersion &&
    a.budgetAccount != "" && a.budgetAccount == b.budgetAccount &&
    q.capability != "" && q.capability in b.capabilities && q.token >= 1 && q.token == c.token
  }

  function PlanValidate(m: Manager, q: Check, now: Instant, found: Option<Lease>): Plan {
    if found.None? then Refuse(LeaseExpired) else
    var c := found.value;
    if !ValidShape(m, c) then Refuse(PolicyDenied)
    else if c.state != Active then Refuse(LeaseExpired)
    else if IsExpired(c, now) then Replace(c, c.(state := Expired, token := Increment(c.token)))
    else if !BindingMatches(q, c) then Refuse(Forbidden)
    else if !m.digestOk(q.scope.parameterDigest) || q.scope.parameterDigest != c.scope.parameterDigest
    then Refuse(PolicyDenied)
    else if ResourceEmpty(q.scope.resource) || !ResourcesEqual(q.scope.resource, c.scope.resource)
    then Refuse(UnauthorizedPath)
    else Answer(c)
  }

  // ---------------------------------------------------------------- the store

  type Store = map<string, Lease>

  /** A read under a tenant scope sees nothing of another tenant. */
  function Lookup(s: Store, tenant: string, id: string): Option<Lease> {
    if id !in s || (tenant != "" && s[id].scope.tenant != tenant) then None else Some(s[id])
  }

  predicate KeyTaken(s: Store, l: Lease) {
    l.idempotencyKey != "" &&
    exists id <- s :: s[id].scope.tenant == l.scope.tenant && s[id].scope.principal == l.scope.principal
                      && s[id].idempotencyKey == l.idempotencyKey
  }

  /** Insert a fresh lease, or leave the store as it is. */
  function Inserted(s: Store, l: Lease): (r: (Store, bool)) {
    if l.id in s || KeyTaken(s, l) then (s, false) else (s[l.id := l], true)
  }

  /** Replace the lease only while it still carries the expected token. */
  function Swapped(s: Store, id: string, expected: Int64, l: Lease): (r: (Store, bool)) {
    if id !in s || s[id].token != expected || s[id].scope.tenant != l.scope.tenant || s[id].id != l.id
    then (s, false) else (s[id := l], true)
  }

  function TenantOf(op: Operation): string {
    match op
    case Renew(q) => q.tenant
    case Heartbeat(q) => q.tenant
    case Revoke(q) => q.tenant
    case Validate(q) => q.scope.tenant
  }

  function TargetOf(op: Operation): string {
    match op
    case Renew(q) => q.leaseId
    case Heartbeat(q) => q.leaseId
    case Revoke(q) => q.leaseId
    case Validate(q) => q.leaseId
  }

  /** The decision of any operation from one read of the store. */
  function Decide(m: Manager, op: Operation, now: Instant, s: Store): Plan
    requires Configured(m)
  {
    var found := Lookup(s, TenantOf(op), TargetOf(op));
    match op
    case Renew(q) => PlanRenew(m, q, now, found)
    case Heartbeat(q) => PlanHeartbeat(m, q, now, found)
    case Revoke(q) => PlanRevoke(m, q, now, found)
    case Validate(q) => PlanValidate(m, q, now, found)
  }

  // -------------------------------------------- what each operation asks and gives

  /** In shape, active, and before each of its deadlines: three missed heartbeats end
      every lease but that of a single runtime operation on a path. */
  ghost predicate Usable(m: Manager, l: Lease, now: Instant) {
    l.state == Active && m.fieldsOk(l.scope, l.nonce) && l.token >= 1 &&
    l.issuedAt != 0 && l.expiresAt != 0 && l.lastHeartbeatAt != 0 && 0 < l.heartbeatSeconds <= 300 &&
    l.issuedAt <= l.lastHeartbeatAt <= l.expiresAt && l.issuedAt < l.expiresAt && now < l.expiresAt &&
    (now < l.lastHeartbeatAt + 3 * l.heartbeatSeconds * SECOND ||
     ("runtime-operation-" <= l.idempotencyKey && l.scope.resource.path != "" &&
      (l.scope.action == "model.generate" || l.scope.action == "tool.invoke")))
  }

  lemma UsableIff(m: Manager, l: Lease, now: Instant)
    ensures Usable(m, l, now) <==> ValidShape(m, l) && l.state == Active && !IsExpired(l, now)
  {
  }

  /** A read under a tenant finds the lease. */
  ghost predicate Sees(s: Store, tenant: string, id: string) {
    id in s && (tenant == "" || s[id].scope.tenant == tenant)
  }

  /** The lease authorizes the action that the check describes. */
  ghost predicate Authorizes(m: Manager, l: Lease, q: Check, now: Instant) {
    var a := q.scope; var b := l.scope;
    Usable(m, l, now) && q.token == l.token && q.capability != "" && q.capability in b.capabilities &&
    a.agent == b.agent && a.principal == b.principal && a.principalType == b.principalType &&
    a.tenant == b.tenant && a.project == b.project && a.projectVersion == b.projectVersion &&
    a.task == b.task && a.taskVersion == b.taskVersion && a.specDigest == b.specDigest &&
    a.role == b.role && a.action == b.action && a.policyVersion == b.policyVersion &&
    a.budgetAccount == b.budgetAccount && a.parameterDigest == b.parameterDigest &&
    a.resource.kind == b.resource.kind && a.resource.id == b.resource.id && a.resource.path == b.resource.path &&
    |a.resource.attributes| == |b.resource.attributes| &&
    (forall k <- a.resource.attributes ::
       a.resource.attributes[k] == if k in b.resource.attributes then b.resource.attributes[k] else "") &&
    "" !in [a.agent, a.principal, a.principalType, a.tenant, a.project, a.role, a.action, a.policyVersion, a.budgetAccount] &&
    a.resource != Resource("", "", "", map[]) && m.digestOk(a.parameterDigest)
  }

  lemma ValidateLaw(m: Manager, q: Check, now: Instant, l: Lease)
    ensures PlanValidate(m, q, now, Some(l)).Answer? <==> Authorizes(m, l, q, now)
    ensures PlanValidate(m, q, now, Some(l)).Answer? ==> PlanValidate(m, q, now, Some(l)).lease == l
    ensures PlanValidate(m, q, now, Some(l)).Replace? <==> ValidShape(m, l) && l.state == Active && !Usable(m, l, now)
    ensures PlanValidate(m, q, now, Some(l)).Replace? ==>
              PlanValidate(m, q, now, Some(l)) == Replace(l, l.(state := Expired, token := Increment(l.token)))
  {
    UsableIff(m, l, now);
  }

  /** Attributes that the lease lacks read as empty, so agreement is equality exactly when
      it has every attribute that the check leaves empty. */
  lemma ResourcesEqualIff(a: Resource, b: Resource)
    requires ResourcesEqual(a, b)
    ensures a == b <==> forall k <- a.attributes :: a.attributes[k] == "" ==> k in b.attributes
  {
    if forall k <- a.attributes :: a.attributes[k] == "" ==> k in b.attributes {
      assert a.attributes.Keys <= b.attributes.Keys;
      SameSize(a.attributes.Keys, b.attributes.Keys);
    }
  }

  lemma SameSize<T>(a: set<T>, b: set<T>)
    requires a <= b && |a| == |b|
    ensures a == b
  {
    assert b == a + (b - a);
    assert |b - a| == 0;
  }

  /** The lifetime asked for, cut by the bounds that are set. */
  function Lifetime(m: Manager, ttl: int, grantExpiresAt: Instant, notAfter: Instant, now: Instant): int {
    var want := if ttl <= 0 then m.defaultTTL else ttl;
    var granted := if grantExpiresAt != 0 && grantExpiresAt - now < want then grantExpiresAt - now else want;
    if notAfter != 0 && notAfter - now < granted then notAfter - now else granted
  }

  ghost predicate MayIssue(m: Manager, q: Issuance, now: Instant) {
    var beat := if q.heartbeat <= 0 then m.heartbeatInterval else q.heartbeat;
    var life := Lifetime(m, q.ttl, q.grantExpiresAt, q.notAfter, now);
    q.admitted && q.token >= 0 && q.ttl <= m.maxTTL && 0 < life && now != 0 && now + life != 0 &&
    beat % SECOND == 0 && beat <= 300 * SECOND && 3 * beat <= life && m.fieldsOk(q.scope, q.nonce)
  }

  ghost predicate Issued(m: Manager, q: Issuance, now: Instant, l: Lease) {
    var beat := if q.heartbeat <= 0 then m.heartbeatInterval else q.heartbeat;
    l.id == q.id && l.idempotencyKey == q.idempotencyKey && l.scope == q.scope && l.nonce == q.nonce &&
    l.issuedAt == now && l.lastHeartbeatAt == now && l.heartbeatSeconds * SECOND == beat &&
    l.expiresAt == now + Lifetime(m, q.ttl, q.grantExpiresAt, q.notAfter, now) &&
    l.token == (if q.token == 0 then 1 else q.token) && l.state == Active && l.revokedAt == None
  }

  lemma IssueLaw(m: Manager, q: Issuance, now: Instant)
    requires Configured(m)
    ensures PlanIssue(m, q, now).Ok? <==> MayIssue(m, q, now)
    ensures PlanIssue(m, q, now).Ok? ==> Issued(m, q, now, PlanIssue(m, q, now).value)
  {
    var beat := if q.heartbeat <= 0 then m.heartbeatInterval else q.heartbeat;
    assert beat % SECOND == 0 ==> beat == (beat / SECOND) * SECOND;
  }

  ghost predicate MayRenew(m: Manager, q: Renewal, now: Instant, l: Lease) {
    Usable(m, l, now) && (q.digest == "" || m.digestOk(q.digest)) && q.token == l.token &&
    q.principal != "" && q.principal == l.scope.principal &&
    q.principalType in {"", l.scope.principalType} && q.role in {"", l.scope.role} &&
    q.policyVersion != "" && q.policyVersion == l.scope.policyVersion && q.grantAccepted &&
    q.ttl <= m.maxTTL && 0 < Lifetime(m, q.ttl, q.grantExpiresAt, 0, now) &&
    l.issuedAt <= now + Lifetime(m, q.ttl, q.grantExpiresAt, 0, now)
  }

  /** A renewal sets the deadline anew, counts as a heartbeat, and takes the next token
      unless asked to keep it; nothing else changes but the nonce. */
  ghost predicate Renewed(m: Manager, q: Renewal, now: Instant, l: Lease, u: Lease) {
    u.id == l.id && u.idempotencyKey == l.idempotencyKey && u.scope == l.scope && u.issuedAt == l.issuedAt &&
    u.heartbeatSeconds == l.heartbeatSeconds && u.state == Active && u.revokedAt == l.revokedAt &&
    u.expiresAt == now + Lifetime(m, q.ttl, q.grantExpiresAt, 0, now) && u.lastHeartbeatAt == now &&
    u.token == (if q.preserveFencing then l.token else Increment(l.token)) &&
    u.nonce == if q.digest == "" then l.nonce else q.digest
  }

  lemma RenewLaw(m: Manager, q: Renewal, now: Instant, l: Lease)
    requires Configured(m)
    ensures !PlanRenew(m, q, now, Some(l)).Answer?
    ensures PlanRenew(m, q, now, Some(l)).Replace? <==> MayRenew(m, q, now, l)
    ensures PlanRenew(m, q, now, Some(l)).Replace? ==>
              PlanRenew(m, q, now, Some(l)).current == l && Renewed(m, q, now, l, PlanRenew(m, q, now, Some(l)).updated)
  {
    UsableIff(m, l, now);
  }

  ghost predicate MayBeat(m: Manager, q: Beat, now: Instant, l: Lease) {
    Usable(m, l, now) && q.project != "" && q.project == l.scope.project && q.task == l.scope.task &&
    q.principal != "" && q.principal == l.scope.principal && q.token == l.token && l.lastHeartbeatAt <= now
  }

  /** A heartbeat gives at least the default lifetime from now, never takes time away,
      and changes nothing else. */
  ghost predicate Beaten(m: Manager, now: Instant, l: Lease, u: Lease) {
    u.id == l.id && u.idempotencyKey == l.idempotencyKey && u.scope == l.scope && u.issuedAt == l.issuedAt &&
    u.heartbeatSeconds == l.heartbeatSeconds && u.nonce == l.nonce && u.token == l.token &&
    u.state == Active && u.revokedAt == l.revokedAt && u.lastHeartbeatAt == now &&
    l.expiresAt <= u.expiresAt && now + m.defaultTTL <= u.expiresAt &&
    (u.expiresAt == l.expiresAt || u.expiresAt == now + m.defaultTTL)
  }

  lemma HeartbeatLaw(m: Manager, q: Beat, now: Instant, l: Lease)
    requires Configured(m)
    ensures !PlanHeartbeat(m, q, now, Some(l)).Answer?
    ensures PlanHeartbeat(m, q, now, Some(l)).Replace? <==> MayBeat(m, q, now, l)
    ensures PlanHeartbeat(m, q, now, Some(l)).Replace? ==>
              PlanHeartbeat(m, q, now, Some(l)).current == l && Beaten(m, now, l, PlanHeartbeat(m, q, now, Some(l)).updated)
  {
    UsableIff(m, l, now);
  }

  /** Its own principal, or an administrator breaking the glass, may end a lease in shape. */
  ghost predicate MayRevoke(m: Manager, q: Revocation, l: Lease) {
    q.admitted && m.digestOk(q.digest) && ValidShape(m, l) && (q.actor == l.scope.principal || q.breakGlass) &&
    q.project != "" && q.project == l.scope.project && q.task == l.scope.task
  }

  lemma RevokeLaw(m: Manager, q: Revocation, now: Instant, l: Lease)
    ensures PlanRevoke(m, q, now, Some(l)).Answer? <==> MayRevoke(m, q, l) && l.state == Revoked && l.nonce == q.digest
    ensures PlanRevoke(m, q, now, Some(l)).Answer? ==> PlanRevoke(m, q, now, Some(l)).lease == l
    ensures PlanRevoke(m, q, now, Some(l)).Replace? <==> MayRevoke(m, q, l) && l.state == Active
    ensures PlanRevoke(m, q, now, Some(l)).Replace? ==>
              PlanRevoke(m, q, now, Some(l)) ==
              Replace(l, l.(state := Revoked, revokedAt := Some(now), token := Increment(l.token), nonce := q.digest))
  {
  }

  /** Every stored lease sits under its own id. */
  ghost predicate Keyed(s: Store) { forall id <- s :: s[id].id == id }

  /** Place of a token in the order in which a lease takes its tokens: the wrapped
      token, read as an unsigned number, comes after every ordinary one. */
  function Age(t: Int64): int {
    if t < 1 then t + 0x1_0000_0000_0000_0000 else t
  }

  /** What may happen to one lease between two moments: its token moves forward,
      an ended lease is frozen, and while the token stands so does the state. */
  ghost predicate Later(a: Lease, b: Lease) {
    a.id == b.id && a.scope == b.scope && a.idempotencyKey == b.idempotencyKey &&
    a.issuedAt == b.issuedAt && a.heartbeatSeconds == b.heartbeatSeconds &&
    Age(a.token) <= Age(b.token) &&
    (a.state != Active ==> b == a) &&
    (a.token == b.token ==> a.state == b.state)
  }

  /** No lease disappears and each one only moves forward. */
  ghost predicate Evolves(s: Store, t: Store) {
    forall id <- s :: id in t && Later(s[id], t[id])
  }

  lemma EvolvesTransitive(s: Store, t: Store, u: Store)
    requires Evolves(s, t) && Evolves(t, u)
    ensures Evolves(s, u)
  {
    forall id <- s ensures id in u && Later(s[id], u[id]) {
      assert Later(s[id], t[id]) && Later(t[id], u[id]);
    }
  }

  /** A replacement planned from an active, well-shaped lease. */
  ghost predicate Successor(m: Manager, c: Lease, u: Lease) {
    ValidShape(m, c) && c.state == Active &&
    u.id == c.id && u.scope == c.scope && u.idempotencyKey == c.idempotencyKey &&
    u.issuedAt == c.issuedAt && u.heartbeatSeconds == c.heartbeatSeconds &&
    ((u.token == c.token && u.state == Active) || u.token == Increment(c.token))
  }

  /** Whatever operation plans a replacement, it plans it from the lease it found. */
  lemma DecideReplaces(m: Manager, op: Operation, now: Instant, s: Store)
    requires Configured(m) && Decide(m, op, now, s).Replace?
    ensures var p := Decide(m, op, now, s);
            TargetOf(op) in s && p.current == s[TargetOf(op)] && Successor(m, p.current, p.updated)
  {
  }

  /** The compare-and-swap keyed on the token alone is enough: if the store only
      moved forward since the read, a successful swap moves it forward again. */
  lemma SwapEvolves(m: Manager, read: Store, now: Store, id: string, u: Lease)
    requires Keyed(read) && Keyed(now) && Evolves(read, now)
    requires id in read && Successor(m, read[id], u)
    ensures var t := Swapped(now, id, read[id].token, u).0; Evolves(now, t) && Evolves(read, t) && Keyed(t)
  {
    assert Later(read[id], now[id]);
    var t := Swapped(now, id, read[id].token, u).0;
    assert Evolves(now, t);
    EvolvesTransitive(read, now, t);
  }

  class MemoryLeaseStore {
    var leases: Store

    constructor ()
      ensures leases == map[]
    {
      leases := map[];
    }

    method Put(l: Lease) returns (ok: bool)
      modifies this
      ensures (leases, ok) == Inserted(old(leases), l)
      ensures ok <==> l.id !in old(leases) &&
                      (l.idempotencyKey == "" ||
                       forall id <- old(leases) :: old(leases[id].scope.tenant) != l.scope.tenant ||
                         old(leases[id].scope.principal) != l.scope.principal ||
                         old(leases[id].idempotencyKey) != l.idempotencyKey)
      ensures leases == if ok then old(leases)[l.id := l] else old(leases)
    {
      if l.id in leases { return false; }
      if l.idempotencyKey != "" {
        var pending := leases.Keys;
        while pending != {}
          invariant pending <= leases.Keys
          invariant leases == old(leases)
          invariant forall id <- leases :: id !in pending ==>
                      !(leases[id].scope.tenant == l.scope.tenant && leases[id].scope.principal == l.scope.principal
                        && leases[id].idempotencyKey == l.idempotencyKey)
          decreases pending
        {
          var id :| id in pending;
          var existing := leases[id];
          if existing.scope.tenant == l.scope.tenant && existing.scope.principal == l.scope.principal
             && existing.idempotencyKey == l.idempotencyKey {
            return false;
          }
          pending := pending - {id};
        }
      }
      leases := leases[l.id := l];
      return true;
    }

    method Get(tenant: string, id: string) returns (r: Option<Lease>)
      ensures r == Lookup(leases, tenant, id)
      ensures r.Some? <==> Sees(leases, tenant, id)
      ensures r.Some? ==> r.value == leases[id]
    {
      if id !in leases { return None; }
      var l := leases[id];
      if tenant != "" && l.scope.tenant != tenant { return None; }
      return Some(l);
    }

    method CompareAndSwap(id: string, expected: Int64, replacement: Lease) returns (ok: bool)
      modifies this
      ensures (leases, ok) == Swapped(old(leases), id, expected, replacement)
      ensures ok <==> id in old(leases) && old(leases[id].token) == expected &&
                      old(leases[id].scope.tenant) == replacement.scope.tenant && old(leases[id].id) == replacement.id
      ensures leases == if ok then old(leases)[id := replacement] else old(leases)
    {
      if id !in leases { return false; }
      var current := leases[id];
      if current.token != expected || current.scope.tenant != replacement.scope.tenant || current.id != replacement.id {
        return false;
      }
      leases := leases[id := replacement];
      return true;
    }

    /** Where other calls may run: callers learn only that the store moved forward. */
    method Interference()
      requires Keyed(leases)
      modifies this
      ensures Keyed(leases) && Evolves(old(leases), leases)
    {
    }
  }

  /** The manager's operations: read, update a copy field by field, swap. Other
      calls may run between the read and the swap; `before` is the store the swap met. */
  class LeaseManager {
    const config: Manager
    const store: MemoryLeaseStore

    constructor (config: Manager, store: MemoryLeaseStore)
      ensures this.config == config && this.store == store
    {
      this.config := config;
      this.store := store;
    }

    /** The swap at the end of every operation, after whatever other calls did meanwhile. */
    method SwapIn(current: Lease, updated: Lease) returns (ok: bool, ghost before: Store)
      requires Keyed(store.leases)
      requires current.id in store.leases && store.leases[current.id] == current && Successor(config, current, updated)
      modifies store
      ensures Evolves(old(store.leases), before) && Evolves(old(store.leases), store.leases)
      ensures (store.leases, ok) == Swapped(before, current.id, current.token, updated)
    {
      store.Interference();
      before := store.leases;
      ok := store.CompareAndSwap(current.id, current.token, updated);
      SwapEvolves(config, old(store.leases), before, current.id, updated);
    }

    /** The lifetime a request gets: the default, the cap, then the grant's own bound. */
    method GrantedLifetime(ttl: int, grantExpiresAt: Instant, now: Instant) returns (r: Result<int, Code>)
      requires Configured(config)
      ensures r == var want := if ttl <= 0 then config.defaultTTL else ttl;
                   if want > config.maxTTL || Bound(want, grantExpiresAt, now).None? then Err(PolicyDenied)
                   else Ok(Bound(want, grantExpiresAt, now).value)
    {
      var want := ttl;
      if want <= 0 { want := config.defaultTTL; }
      if want > config.maxTTL { return Err(PolicyDenied); }
      if grantExpiresAt != 0 {
        if grantExpiresAt - now <= 0 { return Err(PolicyDenied); }
        if want > grantExpiresAt - now { want := grantExpiresAt - now; }
      }
      return Ok(want);
    }

    method Issue(q: Issuance, now: Instant) returns (r: Result<Lease, Code>)
      requires Configured(config)
      modifies store
      ensures var plan := PlanIssue(config, q, now);
              if plan.Err? then r == plan && store.leases == old(store.leases)
              else store.leases == Inserted(old(store.leases), plan.value).0 &&
                   r == if Inserted(old(store.leases), plan.value).1 then plan else Err(Conflict)
      ensures r.Ok? <==> MayIssue(config, q, now) && q.id !in old(store.leases) &&
                         (q.idempotencyKey == "" ||
                          forall id <- old(store.leases) :: old(store.leases[id].scope.tenant) != q.scope.tenant ||
                            old(store.leases[id].scope.principal) != q.scope.principal ||
                            old(store.leases[id].idempotencyKey) != q.idempotencyKey)
      ensures r.Ok? ==> Issued(config, q, now, r.value) && store.leases == old(store.leases)[q.id := r.value]
      ensures r.Err? ==> store.leases == old(store.leases)
    {
      IssueLaw(config, q, now);
      if !q.admitted || q.token < 0 { return Err(InvalidArgument); }
      var lifetime := GrantedLifetime(q.ttl, q.grantExpiresAt, now);
      if lifetime.Err? { return Err(lifetime.error); }
      var ttl := lifetime.value;
      if q.notAfter != 0 {
        if q.notAfter - now <= 0 { return Err(LeaseExpired); }
        if ttl > q.notAfter - now { ttl := q.notAfter - now; }
      }
      var beat := q.heartbeat;
      if beat <= 0 { beat := config.heartbeatInterval; }
      if beat <= 0 || beat % SECOND != 0 || beat > 300 * SECOND || beat > ttl / 3 { return Err(InvalidArgument); }
      var token := q.token;
      if token == 0 { token := 1; }
      var l := Lease(q.id, q.idempotencyKey, q.scope, now, now + ttl, now, beat / SECOND, q.nonce, token, Active, None);
      if !ValidShape(config, l) { return Err(PolicyDenied); }
      var stored := store.Put(l);
      if !stored { return Err(Conflict); }
      return Ok(l);
    }

    /** The plan made from the store `seen` is carried out on the store `before`. */
    ghost predicate CarriedOut(seen: Store, before: Store, after: Store, op: Operation, now: Instant,
                               r: Result<Lease, Code>)
      requires Configured(config)
    {
      match Decide(config, op, now, seen)
      case Refuse(code) => after == seen && r == Err(code)
      case Answer(l) => after == seen && r == Ok(l)
      case Replace(c, u) =>
        var (t, ok) := Swapped(before, TargetOf(op), c.token, u);
        after == t &&
        (match op
         case Validate(_) => r == Err(LeaseExpired)
         case Revoke(q) =>
           var latest := Lookup(after, q.tenant, q.leaseId);
           r == if ok then Ok(u)
                else if latest.Some? && latest.value.state == Revoked && latest.value.nonce == q.digest then Ok(latest.value)
                else Err(Conflict)
         case _ => r == if ok then Ok(u) else Err(Conflict))
    }

    /** The replacement a renewal computes from the lease it has read. */
    method PrepareRenewal(q: Renewal, now: Instant, current: Lease) returns (r: Result<Lease, Code>)
      requires Configured(config) && !(q.digest != "" && !config.digestOk(q.digest))
      ensures r == match PlanRenew(config, q, now, Some(current))
                   case Refuse(code) => Err(code)
                   case Answer(l) => Ok(l)
                   case Replace(_, u) => Ok(u)
      ensures !PlanRenew(config, q, now, Some(current)).Answer?
    {
      if !ValidShape(config, current) { return Err(PolicyDenied); }
      if current.state != Active || IsExpired(current, now) { return Err(LeaseExpired); }
      if q.token < 1 || q.token != current.token { return Err(Conflict); }
      if q.principal == "" || q.principal != current.scope.principal
         || (q.principalType != "" && q.principalType != current.scope.principalType)
         || (q.role != "" && q.role != current.scope.role) { return Err(Forbidden); }
      if q.policyVersion == "" || q.policyVersion != current.scope.policyVersion { return Err(PolicyDenied); }
      if !q.grantAccepted { return Err(PolicyDenied); }
      var lifetime := GrantedLifetime(q.ttl, q.grantExpiresAt, now);
      if lifetime.Err? { return Err(lifetime.error); }
      var updated := current;
      updated := updated.(expiresAt := now + lifetime.value);
      updated := updated.(lastHeartbeatAt := now);
      if !q.preserveFencing { updated := updated.(token := Increment(updated.token)); }
      if q.digest != "" { updated := updated.(nonce := q.digest); }
      if updated.expiresAt < updated.issuedAt { return Err(InvalidArgument); }
      return Ok(updated);
    }

    method Renew(q: Renewal, now: Instant) returns (r: Result<Lease, Code>, ghost before: Store)
      requires Configured(config) && Keyed(store.leases)
      modifies store
      ensures Evolves(old(store.leases), before) && Evolves(old(store.leases), store.leases)
      ensures CarriedOut(old(store.leases), before, store.leases, Operation.Renew(q), now, r)
      ensures r.Ok? <==> Sees(old(store.leases), q.tenant, q.leaseId) &&
                         MayRenew(config, q, now, old(store.leases[q.leaseId])) &&
                         before[q.leaseId].token == old(store.leases[q.leaseId].token)
      ensures r.Ok? ==> Renewed(config, q, now, old(store.leases[q.leaseId]), r.value) &&
                        store.leases == before[q.leaseId := r.value]
      ensures r.Err? ==> store.leases == before
    {
      if q.leaseId in store.leases { RenewLaw(config, q, now, store.leases[q.leaseId]); }
      before := store.leases;
      if q.digest != "" && !config.digestOk(q.digest) { return Err(InvalidArgument), before; }
      var found := store.Get(q.tenant, q.leaseId);
      if found.None? { return Err(NotFound), before; }
      var plan := PrepareRenewal(q, now, found.value);
      if plan.Err? { return plan, before; }
      DecideReplaces(config, Operation.Renew(q), now, old(store.leases));
      var ok;
      ok, before := SwapIn(found.value, plan.value);
      if !ok { return Err(Conflict), before; }
      return plan, before;
    }

    method Heartbeat(q: Beat, now: Instant) returns (r: Result<Lease, Code>, ghost before: Store)
      requires Configured(config) && Keyed(store.leases)
      modifies store
      ensures Evolves(old(store.leases), before) && Evolves(old(store.leases), store.leases)
      ensures CarriedOut(old(store.leases), before, store.leases, Operation.Heartbeat(q), now, r)
      ensures r.Ok? <==> Sees(old(store.leases), q.tenant, q.leaseId) &&
                         MayBeat(config, q, now, old(store.leases[q.leaseId])) &&
                         before[q.leaseId].token == old(store.leases[q.leaseId].token)
      ensures r.Ok? ==> Beaten(config, now, old(store.leases[q.leaseId]), r.value) &&
                        store.leases == before[q.leaseId := r.value]
      ensures r.Err? ==> store.leases == before
    {
      if q.leaseId in store.leases { HeartbeatLaw(config, q, now, store.leases[q.leaseId]); }
      before := store.leases;
      var found := store.Get(q.tenant, q.leaseId);
      if found.None? { return Err(NotFound), before; }
      var current := found.value;
      if !ValidShape(config, current) { return Err(PolicyDenied), before; }
      if current.state != Active || IsExpired(current, now) { return Err(LeaseExpired), before; }
      if q.project == "" || q.project != current.scope.project || q.task != current.scope.task
         || q.principal == "" || q.principal != current.scope.principal || q.token != current.token {
        return Err(Forbidden), before;
      }
      if now < current.lastHeartbeatAt { return Err(InvalidArgument), before; }
      var updated := current.(lastHeartbeatAt := now);
      if now + config.defaultTTL > updated.expiresAt { updated := updated.(expiresAt := now + config.defaultTTL); }
      var ok;
      ok, before := SwapIn(current, updated);
      if !ok { return Err(Conflict), before; }
      return Ok(updated), before;
    }

    method Revoke(q: Revocation, now: Instant) returns (r: Result<Lease, Code>, ghost before: Store)
      requires Configured(config) && Keyed(store.leases)
      modifies store
      ensures Evolves(old(store.leases), before) && Evolves(old(store.leases), store.leases)
      ensures CarriedOut(old(store.leases), before, store.leases, Operation.Revoke(q), now, r)
      ensures r.Ok? ==> Sees(old(store.leases), q.tenant, q.leaseId) &&
                        MayRevoke(config, q, old(store.leases[q.leaseId])) &&
                        q.leaseId in store.leases && store.leases[q.leaseId] == r.value &&
                        r.value.state == Revoked && r.value.nonce == q.digest
      ensures Sees(old(store.leases), q.tenant, q.leaseId) && MayRevoke(config, q, old(store.leases[q.leaseId])) ==>
                var l := old(store.leases[q.leaseId]);
                if l.state != Active then r.Ok? <==> l.state == Revoked && l.nonce == q.digest
                else if before[q.leaseId].token == l.token then
                  r == Ok(l.(state := Revoked, revokedAt := Some(now), token := Increment(l.token), nonce := q.digest))
                else r.Ok? <==> before[q.leaseId].state == Revoked && before[q.leaseId].nonce == q.digest
      ensures store.leases == before || (r.Ok? && store.leases == before[q.leaseId := r.value])
    {
      if q.leaseId in store.leases { RevokeLaw(config, q, now, store.leases[q.leaseId]); }
      before := store.leases;
      if !q.admitted || q.project == "" || !config.digestOk(q.digest) { return Err(InvalidArgument), before; }
      var found := store.Get(q.tenant, q.leaseId);
      if found.None? { return Err(NotFound), before; }
      var current := found.value;
      if !ValidShape(config, current) { return Err(PolicyDenied), before; }
      if current.scope.project != q.project || current.scope.task != q.task { return Err(Forbidden), before; }
      if q.actor != current.scope.principal && !q.breakGlass { return Err(Forbidden), before; }
      if current.state != Active {
        if current.state == Revoked && current.nonce == q.digest { return Ok(current), before; }
        return Err(IdempotencyConflict), before;
      }
      var updated := current.(state := Revoked);
      updated := updated.(revokedAt := Some(now));
      updated := updated.(token := Increment(updated.token));
      updated := updated.(nonce := q.digest);
      var ok;
      ok, before := SwapIn(current, updated);
      if !ok {
        var latest := store.Get(q.tenant, q.leaseId);
        if latest.Some? && latest.value.state == Revoked && latest.value.nonce == q.digest {
          return Ok(latest.value), before;
        }
        return Err(Conflict), before;
      }
      return Ok(updated), before;
    }

    method Validate(q: Check, now: Instant) returns (r: Result<Lease, Code>, ghost before: Store)
      requires Configured(config) && Keyed(store.leases)
      modifies store
      ensures Evolves(old(store.leases), before) && Evolves(old(store.leases), store.leases)
      ensures CarriedOut(old(store.leases), before, store.leases, Operation.Validate(q), now, r)
      ensures r.Ok? <==> q.leaseId in old(store.leases) && Authorizes(config, old(store.leases[q.leaseId]), q, now)
      ensures r.Ok? ==> r.value == old(store.leases[q.leaseId]) && store.leases == old(store.leases)
      ensures store.leases == before ||
              (r == Err(LeaseExpired) && q.leaseId in old(store.leases) && !Usable(config, old(store.leases[q.leaseId]), now) &&
               store.leases == before[q.leaseId := old(store.leases[q.leaseId]).(state := Expired,
                                        token := Increment(old(store.leases[q.leaseId].token)))])
    {
      if q.leaseId in store.leases { ValidateLaw(config, q, now, store.leases[q.leaseId]); }
      before := store.leases;
      var found := store.Get(q.scope.tenant, q.leaseId);
      if found.None? { return Err(LeaseExpired), before; }
      var current := found.value;
      if !ValidShape(config, current) { return Err(PolicyDenied), before; }
      if current.state != Active || IsExpired(current, now) {
        if current.state == Active && IsExpired(current, now) {
          var updated := current.(state := Expired);
          updated := updated.(token := Increment(updated.token));
          var swapped;
          swapped, before := SwapIn(current, updated);
        }
        return Err(LeaseExpired), before;
      }
      if !BindingMatches(q, current) { return Err(Forbidden), before; }
      if !config.digestOk(q.scope.parameterDigest) || q.scope.parameterDigest != current.scope.parameterDigest {
        return Err(PolicyDenied), before;
      }
      if ResourceEmpty(q.scope.resource) || !ResourcesEqual(q.scope.resource, current.scope.resource) {
        return Err(UnauthorizedPath), before;
      }
      return Ok(current), before;
    }
  }
}
