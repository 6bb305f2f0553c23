/** Every interleaving of the read and swap steps of concurrent lease operations. */
module LeaseProtocol {
  import opened Wrappers
  import opened Leases

  /** An operation between its read and its swap. */
  datatype Flight = Flight(current: Lease, updated: Lease)

  datatype System = System(store: Store, flights: map<nat, Flight>)

  /** `Drop` is a caller that fails between its read and its swap. */
  datatype Step =
    | Issue(q: Issuance, at: Instant)
    | Read(slot: nat, op: Operation, now: Instant)
    | Swap(slot: nat)
    | Drop(slot: nat)

  const START := System(map[], map[])

  function Apply(m: Manager, s: System, step: Step): System
    requires Configured(m)
  {
    match step
    case Issue(q, at) =>
      var plan := PlanIssue(m, q, at);
      if plan.Err? then s else s.(store := Inserted(s.store, plan.value).0)
    case Read(slot, op, now) =>
      var plan := Decide(m, op, now, s.store);
      if plan.Replace? && slot !in s.flights
      then s.(flights := s.flights[slot := Flight(plan.current, plan.updated)]) else s
    case Swap(slot) =>
      if slot !in s.flights then s else
      var f := s.flights[slot];
      System(Swapped(s.store, f.current.id, f.current.token, f.updated).0, s.flights - {slot})
    case Drop(slot) => s.(flights := s.flights - {slot})
  }

  /** The system after a run. */
  function After(m: Manager, steps: seq<Step>): System
    requires Configured(m)
  {
    if steps == [] then START else Apply(m, After(m, steps[..|steps| - 1]), steps[|steps| - 1])
  }

  function StoreAt(m: Manager, steps: seq<Step>, k: nat): Store
    requires Configured(m) && k <= |steps|
  {
    After(m, steps[..k]).store
  }

  // ------------------------------------------------------------ the invariant

  /** The two deadlines of a lease stay within the configured lifetime of each other. */
  ghost predicate Bounded(m: Manager, l: Lease) {
    l.lastHeartbeatAt <= l.expiresAt <= l.lastHeartbeatAt + m.maxTTL &&
    (l.token >= 1 || l.token == MIN_INT64)
  }

  ghost predicate SameRequest(a: Lease, b: Lease) {
    a.idempotencyKey != "" && a.idempotencyKey == b.idempotencyKey &&
    a.scope.tenant == b.scope.tenant && a.scope.principal == b.scope.principal
  }

  ghost predicate StoreOk(m: Manager, s: Store) {
    Keyed(s) && (forall id <- s :: Bounded(m, s[id])) &&
    forall a <- s, b <- s :: a != b ==> !SameRequest(s[a], s[b])
  }

  /** The stored lease has moved on from the snapshot, or still carries its
      token and is then still active. */
  ghost predicate FlightOk(m: Manager, s: Store, f: Flight) {
    Successor(m, f.current, f.updated) && Bounded(m, f.updated) &&
    f.current.id in s && Later(f.current, s[f.current.id])
  }

  ghost predicate Inv(m: Manager, s: System) {
    StoreOk(m, s.store) && forall slot <- s.flights :: FlightOk(m, s.store, s.flights[slot])
  }

  /** A planned replacement respects the deadlines if the lease it read did. */
  lemma ReplacementBounded(m: Manager, op: Operation, now: Instant, s: Store)
    requires Configured(m) && StoreOk(m, s) && Decide(m, op, now, s).Replace?
    ensures Bounded(m, Decide(m, op, now, s).updated)
  {
    DecideReplaces(m, op, now, s);
    assert Bounded(m, Decide(m, op, now, s).current);
  }

  lemma IssueBounded(m: Manager, q: Issuance, at: Instant)
    requires Configured(m) && PlanIssue(m, q, at).Ok?
    ensures Bounded(m, PlanIssue(m, q, at).value)
  {
  }

  lemma IssueStep(m: Manager, s: Store, l: Lease)
    requires StoreOk(m, s) && Bounded(m, l)
    ensures StoreOk(m, Inserted(s, l).0) && Evolves(s, Inserted(s, l).0)
  {
    var (t, done) := Inserted(s, l);
    if done {
      forall a <- t, b <- t | a != b ensures !SameRequest(t[a], t[b]) {
        if a in s && b in s { assert !SameRequest(s[a], s[b]); }
      }
    }
  }

  lemma SwapStep(m: Manager, s: Store, f: Flight)
    requires StoreOk(m, s) && FlightOk(m, s, f)
    ensures var t := Swapped(s, f.current.id, f.current.token, f.updated).0;
            StoreOk(m, t) && Evolves(s, t)
  {
    var id := f.current.id;
    var t := Swapped(s, id, f.current.token, f.updated).0;
    assert s[id].idempotencyKey == f.updated.idempotencyKey && s[id].scope == f.updated.scope;
    forall a <- t, b <- t | a != b ensures !SameRequest(t[a], t[b]) {
      assert !SameRequest(s[a], s[b]);
    }
    if t[id] != s[id] { assert s[id].state == Active; }
  }

  lemma FlightSurvives(m: Manager, s: Store, t: Store, f: Flight)
    requires FlightOk(m, s, f) && Evolves(s, t)
    ensures FlightOk(m, t, f)
  {
    assert Later(s[f.current.id], t[f.current.id]);
  }

  lemma StepKeepsInv(m: Manager, s: System, step: Step)
    requires Configured(m) && Inv(m, s)
    ensures Inv(m, Apply(m, s, step)) && Evolves(s.store, Apply(m, s, step).store)
  {
    var t := Apply(m, s, step);
    match step {
      case Issue(q, at) =>
        if PlanIssue(m, q, at).Ok? {
          IssueBounded(m, q, at);
          IssueStep(m, s.store, PlanIssue(m, q, at).value);
        }
      case Read(slot, op, now) =>
        if Decide(m, op, now, s.store).Replace? {
          DecideReplaces(m, op, now, s.store);
          ReplacementBounded(m, op, now, s.store);
        }
      case Swap(slot) =>
        if slot in s.flights { SwapStep(m, s.store, s.flights[slot]); }
      case Drop(slot) =>
    }
    forall k <- t.flights | k in s.flights && t.flights[k] == s.flights[k] ensures FlightOk(m, t.store, t.flights[k]) {
      FlightSurvives(m, s.store, t.store, s.flights[k]);
    }
  }

  lemma {:induction false} ReachableInv(m: Manager, steps: seq<Step>)
    requires Configured(m)
    ensures Inv(m, After(m, steps))
  {
    if steps != [] {
      ReachableInv(m, steps[..|steps| - 1]);
      StepKeepsInv(m, After(m, steps[..|steps| - 1]), steps[|steps| - 1]);
    }
  }

  lemma StoreAtStep(m: Manager, steps: seq<Step>, k: nat)
    requires Configured(m) && k < |steps|
    ensures After(m, steps[..k + 1]) == Apply(m, After(m, steps[..k]), steps[k])
  {
    assert steps[..k + 1][..k] == steps[..k];
  }

  // ---------------------------------------------------------------- theorems

  /** Between any two moments of any run no lease disappears, tokens only move
      forward, and a lease once revoked or expired is never changed again. */
  lemma {:induction false} LeasesMoveForward(m: Manager, steps: seq<Step>, i: nat, j: nat)
    requires Configured(m) && i <= j <= |steps|
    ensures Evolves(StoreAt(m, steps, i), StoreAt(m, steps, j))
    decreases j
  {
    if i < j {
      LeasesMoveForward(m, steps, i, j - 1);
      ReachableInv(m, steps[..j - 1]);
      StoreAtStep(m, steps, j - 1);
      StepKeepsInv(m, After(m, steps[..j - 1]), steps[j - 1]);
      EvolvesTransitive(StoreAt(m, steps, i), StoreAt(m, steps, j - 1), StoreAt(m, steps, j));
    }
  }

  lemma EndedStaysEnded(m: Manager, steps: seq<Step>, i: nat, j: nat, id: string)
    requires Configured(m) && i <= j <= |steps| && id in StoreAt(m, steps, i)
    requires StoreAt(m, steps, i)[id].state != Active
    ensures id in StoreAt(m, steps, j) && StoreAt(m, steps, j)[id] == StoreAt(m, steps, i)[id]
  {
    LeasesMoveForward(m, steps, i, j);
    assert Later(StoreAt(m, steps, i)[id], StoreAt(m, steps, j)[id]);
  }

  /** Step k takes the lease away from token t. */
  ghost predicate Leaves(m: Manager, steps: seq<Step>, k: nat, id: string, t: Int64)
    requires Configured(m)
  {
    k < |steps| && id in StoreAt(m, steps, k) && StoreAt(m, steps, k)[id].token == t &&
    id in StoreAt(m, steps, k + 1) && StoreAt(m, steps, k + 1)[id].token != t
  }

  /** A step that moves a token moves it to the very next one. */
  lemma StepToNextToken(m: Manager, steps: seq<Step>, k: nat, id: string, t: Int64)
    requires Configured(m) && Leaves(m, steps, k, id, t)
    ensures steps[k].Swap? && t >= 1 && StoreAt(m, steps, k + 1)[id].token == Increment(t)
    ensures StoreAt(m, steps, k)[id].state == Active
  {
    ReachableInv(m, steps[..k]);
    StoreAtStep(m, steps, k);
    var s := After(m, steps[..k]);
    if steps[k].Swap? && steps[k].slot in s.flights {
      var f := s.flights[steps[k].slot];
      assert FlightOk(m, s.store, f) && Later(f.current, s.store[f.current.id]);
    }
  }

  /** Every token value of a lease is left by at most one successful swap. */
  lemma TokenLeftOnce(m: Manager, steps: seq<Step>, i: nat, j: nat, id: string, t: Int64)
    requires Configured(m) && Leaves(m, steps, i, id, t) && Leaves(m, steps, j, id, t)
    ensures i == j
  {
    if i < j { LeavesForGood(m, steps, i, j, id, t); }
    if j < i { LeavesForGood(m, steps, j, i, id, t); }
  }

  lemma LeavesForGood(m: Manager, steps: seq<Step>, i: nat, j: nat, id: string, t: Int64)
    requires Configured(m) && Leaves(m, steps, i, id, t) && i < j <= |steps|
    ensures id in StoreAt(m, steps, j) && StoreAt(m, steps, j)[id].token != t
  {
    StepToNextToken(m, steps, i, id, t);
    LeasesMoveForward(m, steps, i + 1, j);
    assert Later(StoreAt(m, steps, i + 1)[id], StoreAt(m, steps, j)[id]);
  }

  /** The step is the swap of an open operation that replaces id's largest 64-bit
      token, which the stored lease still carries, by the next one. */
  predicate Wraps(s: System, step: Step, id: string) {
    step.Swap? && step.slot in s.flights && id in s.store &&
    var f := s.flights[step.slot];
    f.current.id == id && s.store[id].token == f.current.token == MAX_INT64 && f.updated.token == MIN_INT64
  }

  lemma FallIsWrap(m: Manager, s: System, step: Step, id: string)
    requires Configured(m) && Inv(m, s) && id in s.store
    ensures var t := Apply(m, s, step).store;
            id in t && (t[id].token < s.store[id].token <==> Wraps(s, step, id))
  {
    StepKeepsInv(m, s, step);
    if step.Swap? && step.slot in s.flights {
      var f := s.flights[step.slot];
      assert FlightOk(m, s.store, f);
    }
  }

  /** The plain number in the token falls in exactly one case, told before the step:
      a swap that increments the largest 64-bit value. */
  lemma TokenFallsExactlyOnWrap(m: Manager, steps: seq<Step>, k: nat, id: string)
    requires Configured(m) && k < |steps| && id in StoreAt(m, steps, k)
    ensures id in StoreAt(m, steps, k + 1)
    ensures StoreAt(m, steps, k + 1)[id].token < StoreAt(m, steps, k)[id].token <==>
            Wraps(After(m, steps[..k]), steps[k], id)
  {
    ReachableInv(m, steps[..k]);
    StoreAtStep(m, steps, k);
    FallIsWrap(m, After(m, steps[..k]), steps[k], id);
  }

  lemma DeadStep(m: Manager, s: System, step: Step, id: string)
    requires Configured(m) && Inv(m, s) && id in s.store && s.store[id].token < 1
    ensures id in Apply(m, s, step).store && Apply(m, s, step).store[id] == s.store[id]
  {
    if step.Swap? && step.slot in s.flights {
      var f := s.flights[step.slot];
      assert FlightOk(m, s.store, f) && Later(f.current, s.store[f.current.id]);
    }
  }

  lemma DeadRefused(m: Manager, op: Operation, now: Instant, s: Store)
    requires Configured(m) && TargetOf(op) in s && s[TargetOf(op)].token < 1
    ensures Decide(m, op, now, s).Refuse?
  {
  }

  /** A lease whose token wrapped is dead: no operation gets past reading it, and
      it never changes again. */
  lemma {:induction false} WrappedIsDead(m: Manager, steps: seq<Step>, i: nat, j: nat, id: string,
                                         op: Operation, now: Instant)
    requires Configured(m) && i <= j <= |steps| && id in StoreAt(m, steps, i)
    requires StoreAt(m, steps, i)[id].token < 1 && TargetOf(op) == id
    ensures id in StoreAt(m, steps, j) && StoreAt(m, steps, j)[id] == StoreAt(m, steps, i)[id]
    ensures Decide(m, op, now, StoreAt(m, steps, j)).Refuse?
    decreases j
  {
    if i < j {
      WrappedIsDead(m, steps, i, j - 1, id, op, now);
      StoreAtStep(m, steps, j - 1);
      ReachableInv(m, steps[..j - 1]);
      DeadStep(m, After(m, steps[..j - 1]), steps[j - 1], id);
    }
    DeadRefused(m, op, now, StoreAt(m, steps, j));
  }

  /** A run in which a stored token falls: issue at the largest token, then renew. */
  lemma WrapHappens() returns (m: Manager, steps: seq<Step>)
    ensures Configured(m) && |steps| == 3 && "L" in StoreAt(m, steps, 2) && "L" in StoreAt(m, steps, 3)
    ensures StoreAt(m, steps, 3)["L"].token < StoreAt(m, steps, 2)["L"].token
  {
    m := Manager(300 * SECOND, 900 * SECOND, 30 * SECOND, (_, _) => true, _ => true);
    var scope := Scope("a", "a", "AGENT", "t", "p", 1, "k", 1, "d", "r", "x",
                       Resource("res", "", "", map[]), "d", ["x"], "v", "b");
    var q := Issuance("L", "", scope, "n", true, 0, 0, 0, 0, MAX_INT64);
    var r := Renewal("L", "t", MAX_INT64, "a", "", "", "v", 0, true, 0, "", false);
    steps := [Issue(q, SECOND), Read(0, Operation.Renew(r), 2 * SECOND), Swap(0)];
    var l := PlanIssue(m, q, SECOND).value;
    assert PlanIssue(m, q, SECOND).Ok? && Inserted(map[], l) == (map["L" := l], true);
    assert steps[..0] == [] && After(m, []) == START;
    StoreAtStep(m, steps, 0);
    assert After(m, steps[..1]) == System(map["L" := l], map[]);
    StoreAtStep(m, steps, 1);
    StoreAtStep(m, steps, 2);
    assert ValidShape(m, l) && !IsExpired(l, 2 * SECOND) && Lookup(map["L" := l], "t", "L") == Some(l);
    assert PlanRenew(m, r, 2 * SECOND, Some(l)).Replace?;
    assert Decide(m, Operation.Renew(r), 2 * SECOND, map["L" := l]).Replace?;
  }

  ghost predicate Accepts(m: Manager, steps: seq<Step>, k: nat, q: Check, now: Instant)
    requires Configured(m) && k <= |steps|
  {
    Decide(m, Operation.Validate(q), now, StoreAt(m, steps, k)).Answer?
  }

  /** In every interleaving, a check is accepted if and only if the lease stored by then
      authorizes what it describes, field by field. */
  lemma AcceptedIffAuthorized(m: Manager, steps: seq<Step>, k: nat, q: Check, now: Instant)
    requires Configured(m) && k <= |steps|
    ensures Accepts(m, steps, k, q, now) <==>
            q.leaseId in StoreAt(m, steps, k) && Authorizes(m, StoreAt(m, steps, k)[q.leaseId], q, now)
  {
    var s := StoreAt(m, steps, k);
    if q.leaseId in s { ValidateLaw(m, q, now, s[q.leaseId]); }
  }

  /** The tokens that successive validations of one lease accept never decrease. */
  lemma AcceptedTokensNeverDecrease(m: Manager, steps: seq<Step>, i: nat, j: nat,
                                    q: Check, now: Instant, r: Check, later: Instant)
    requires Configured(m) && i <= j <= |steps| && q.leaseId == r.leaseId
    requires Accepts(m, steps, i, q, now) && Accepts(m, steps, j, r, later)
    ensures q.token <= r.token
  {
    LeasesMoveForward(m, steps, i, j);
    assert Later(StoreAt(m, steps, i)[q.leaseId], StoreAt(m, steps, j)[q.leaseId]);
  }

  /** No clock assumption is needed: whatever was stored last bounds what may be accepted. */
  lemma NoAcceptancePastDeadline(m: Manager, steps: seq<Step>, k: nat, q: Check, now: Instant)
    requires Configured(m) && k <= |steps| && Accepts(m, steps, k, q, now)
    ensures q.leaseId in StoreAt(m, steps, k)
    ensures var l := StoreAt(m, steps, k)[q.leaseId];
            l.state == Active && now < l.expiresAt && now < l.lastHeartbeatAt + m.maxTTL &&
            (!IsOperationLease(l) ==> now < l.lastHeartbeatAt + 3 * l.heartbeatSeconds * SECOND)
  {
    ReachableInv(m, steps[..k]);
    assert Bounded(m, StoreAt(m, steps, k)[q.leaseId]);
  }

  lemma DeadlinesStayBounded(m: Manager, steps: seq<Step>, id: string)
    requires Configured(m) && id in After(m, steps).store
    ensures var l := After(m, steps).store[id]; l.lastHeartbeatAt <= l.expiresAt <= l.lastHeartbeatAt + m.maxTTL
  {
    ReachableInv(m, steps);
    assert Bounded(m, After(m, steps).store[id]);
  }

  /** At issue three heartbeat intervals fit in the lifetime, and the lifetime
      respects the cap and both absolute bounds. */
  lemma IssuedLifetime(m: Manager, q: Issuance, at: Instant)
    requires Configured(m) && PlanIssue(m, q, at).Ok?
    ensures var l := PlanIssue(m, q, at).value;
            l.issuedAt == at == l.lastHeartbeatAt &&
            3 * l.heartbeatSeconds * SECOND <= l.expiresAt - at <= m.maxTTL &&
            (q.grantExpiresAt != 0 ==> l.expiresAt <= q.grantExpiresAt) &&
            (q.notAfter != 0 ==> l.expiresAt <= q.notAfter)
  {
    var beat := if q.heartbeat <= 0 then m.heartbeatInterval else q.heartbeat;
    assert beat == (beat / SECOND) * SECOND;
  }

  /** One logical request never yields two leases. */
  lemma OneLeasePerRequest(m: Manager, steps: seq<Step>, a: string, b: string)
    requires Configured(m) && a in After(m, steps).store && b in After(m, steps).store
    requires SameRequest(After(m, steps).store[a], After(m, steps).store[b])
    ensures a == b
  {
    ReachableInv(m, steps);
  }
}
