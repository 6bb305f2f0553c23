/** The slot pool itself: each method is one critical section of the pool's lock.
    A ghost log records the events of a section, and every section is proved to
    extend a legal history. */
module SlotScheduling {
  import opened Wrappers
  import opened Slots

  const MAXIMUM_ACTIVE_AGENTS := 8

  datatype Role =
    | GoalProposer | GoalChallenger | PlanSupervisor | ModulePlanner
    | Executor | ModuleAuditor | GlobalAuditor | KnowledgeCurator | Unknown

  datatype SlotError = ActiveLimit

  function DefaultPriority(role: Role): int {
    match role
    case GoalProposer | GoalChallenger => 600
    case ModuleAuditor | GlobalAuditor => 500
    case Executor => 400
    case PlanSupervisor | ModulePlanner => 300
    case KnowledgeCurator => 100
    case Unknown => 0
  }

  function RoleGroup(role: Role): Group
    requires role != Role.Unknown
  {
    match role
    case GoalProposer | GoalChallenger => Group.Goal
    case PlanSupervisor | ModulePlanner => Group.Plan
    case Executor => Group.Execution
    case ModuleAuditor | GlobalAuditor => Group.Audit
    case KnowledgeCurator => Group.Knowledge
  }

  /** Roles share a group exactly when they share a default priority; each group has one
      place in the order goal, audit, execution, plan, knowledge. */
  lemma GroupsRank(a: Role, b: Role)
    requires a != Role.Unknown && b != Role.Unknown
    ensures RoleGroup(a) == RoleGroup(b) <==> DefaultPriority(a) == DefaultPriority(b)
    ensures DefaultPriority(a) > DefaultPriority(b) ==> DefaultPriority(a) - DefaultPriority(b) >= 100
    ensures RoleGroup(a) == Group.Goal ==> DefaultPriority(a) >= DefaultPriority(b)
    ensures RoleGroup(b) == Group.Knowledge ==> DefaultPriority(a) >= DefaultPriority(b) > 0
    ensures RoleGroup(a) == Group.Audit && RoleGroup(b) == Group.Execution ==> DefaultPriority(a) > DefaultPriority(b)
    ensures RoleGroup(a) == Group.Execution && RoleGroup(b) == Group.Plan ==> DefaultPriority(a) > DefaultPriority(b)
  {
  }

  /** Requests of one group that ask for no priority of their own are granted in the order
      in which they came, whatever their roles. */
  lemma DefaultsServedInOrder(limit: nat, log: seq<Event>, states: seq<State>, k: nat, v: Ticket, now: int, w: Ticket,
                              a: Role, b: Role)
    requires History(limit, log, states) && k < |log| && log[k] == Event.Grant(v, now)
    requires a != Role.Unknown && v.group == RoleGroup(a) && v.priority == DefaultPriority(a)
    requires b != Role.Unknown && w.group == RoleGroup(b) && w.priority == DefaultPriority(b)
    requires v.group == w.group && v.enqueued > w.enqueued
    ensures w !in states[k].waiting
  {
    GroupsRank(a, b);
    NoOvertaking(limit, log, states, k, v, now, w);
  }

  /** No group is shut out of an idle pool, and none can fill the largest pool while it is
      under its soft limit. */
  lemma SoftLimitsLeaveRoom(m: Counts, t: Ticket)
    ensures Count(m, t.group) <= 0 ==> UnderSoft(m, t)
    ensures Count(m, t.group) >= MAXIMUM_ACTIVE_AGENTS ==> !UnderSoft(m, t)
    ensures t.group == Group.Knowledge && Count(m, t.group) >= 1 ==> !UnderSoft(m, t)
  {
  }

  /** A clock that never runs back. */
  class Clock {
    var now: int

    constructor (start: int) ensures now == start { now := start; }

    method Read() returns (t: int)
      modifies this
      ensures t == now >= old(now)
    {
      var passed: int := *;
      now := now + if passed < 0 then 0 else passed;
      t := now;
    }
  }

  /** A request for a slot; grants counts the undelivered signals of its channel,
      which holds at most one. */
  class Waiter {
    const ticket: Ticket
    var active: bool
    var grants: nat

    constructor (ticket: Ticket)
      ensures this.ticket == ticket && !active && grants == 0
    {
      this.ticket := ticket;
      active := false;
      grants := 0;
    }
  }

  // ----------------------------------------------------- growing a legal history

  /** A legal history leads to s. */
  ghost predicate Reached(limit: nat, log: seq<Event>, states: seq<State>, s: State) {
    History(limit, log, states) && states[|log|] == s
  }

  lemma HistoryGrows(limit: nat, log: seq<Event>, states: seq<State>, s: State, e: Event)
    requires Reached(limit, log, states, s) && Legal(limit, s, e)
    ensures Reached(limit, log + [e], states + [Apply(s, e)], Apply(s, e))
  {
    var more, on := log + [e], states + [Apply(s, e)];
    forall k | 0 <= k < |more| ensures Moves(limit, on[k], more[k], on[k + 1]) {
      if k < |log| { assert Moves(limit, states[k], log[k], states[k + 1]); }
    }
  }

  lemma IndexOfDistinct(q: seq<Ticket>, i: nat)
    requires Distinct(q) && i < |q|
    ensures IndexOf(q, q[i]) == i
  {
  }

  lemma ChosenIsLegal(limit: nat, s: State, i: nat, now: int)
    requires s.active < limit
    requires (forall w <- s.waiting :: w.enqueued <= now) && Chosen(s.groups, s.waiting, now, i)
    ensures Legal(limit, s, Grant(s.waiting[i], now))
  {
  }

  lemma QueuedOnce(limit: nat, log: seq<Event>, states: seq<State>, s: State)
    requires Reached(limit, log, states, s)
    ensures Distinct(s.waiting) && s.active <= limit && s.granted <= s.seen && forall t <- s.waiting :: t in s.seen && t !in s.granted
  {
    AlwaysConserved(limit, log, states, |log|);
  }

  function Granting(s: State, i: nat): State
    requires i < |s.waiting|
  {
    var t := s.waiting[i];
    State(s.seen, s.active + 1, s.groups[t.group := Count(s.groups, t.group) + 1], Without(s.waiting, i), s.granted + {t})
  }

  lemma TakingOutAt(s: State, i: nat, now: int)
    requires Distinct(s.waiting) && i < |s.waiting|
    ensures Apply(s, Grant(s.waiting[i], now)) == Granting(s, i)
    ensures Apply(s, Withdraw(s.waiting[i])) == s.(waiting := Without(s.waiting, i))
  {
    IndexOfDistinct(s.waiting, i);
    assert s.waiting[i] in s.waiting;
  }

  lemma GrantGrows(limit: nat, log: seq<Event>, states: seq<State>, s: State, i: nat, now: int)
    requires Reached(limit, log, states, s) && s.active < limit
    requires (forall w <- s.waiting :: w.enqueued <= now) && Chosen(s.groups, s.waiting, now, i)
    ensures Reached(limit, log + [Grant(s.waiting[i], now)], states + [Granting(s, i)], Granting(s, i))
  {
    ChosenIsLegal(limit, s, i, now);
    HistoryGrows(limit, log, states, s, Grant(s.waiting[i], now));
    QueuedOnce(limit, log, states, s);
    TakingOutAt(s, i, now);
  }

  /** A waiter taken out of the queue was there once, and held no slot. */
  lemma ChosenLeaves(limit: nat, log: seq<Event>, states: seq<State>, s: State, i: nat)
    requires Reached(limit, log, states, s) && i < |s.waiting|
    ensures s.waiting[i] !in s.granted && s.waiting[i] !in Without(s.waiting, i)
    ensures forall t <- Without(s.waiting, i) :: t in s.waiting
  {
    QueuedOnce(limit, log, states, s);
    WithoutIsRest(s.waiting, i);
  }

  lemma WithdrawGrows(limit: nat, log: seq<Event>, states: seq<State>, s: State, i: nat)
    requires Reached(limit, log, states, s) && i < |s.waiting|
    ensures Reached(limit, log + [Withdraw(s.waiting[i])], states + [s.(waiting := Without(s.waiting, i))],
                    s.(waiting := Without(s.waiting, i)))
  {
    assert s.waiting[i] in s.waiting;
    HistoryGrows(limit, log, states, s, Withdraw(s.waiting[i]));
    QueuedOnce(limit, log, states, s);
    TakingOutAt(s, i, 0);
  }

  predicate OnlyGrants(log: seq<Event>, start: nat) {
    forall k | start <= k < |log| :: log[k].Grant?
  }

  /** The log goes on from start with grants alone. */
  predicate GrantsFrom(start: seq<Event>, log: seq<Event>) { start <= log && OnlyGrants(log, |start|) }

  lemma OneMoreGrant(start: seq<Event>, log: seq<Event>, more: seq<Event>)
    requires GrantsFrom(start, log) && GrantsFrom(log, more)
    ensures GrantsFrom(start, more)
  {
  }

  // --------------------------------------------------------------- the selection

  /** Among the first n requests, i is the first of the best eligible ones, or -1 when none is eligible. */
  ghost predicate BestOf(m: Counts, q: seq<Ticket>, now: int, n: nat, i: int) {
    n <= |q| && -1 <= i < n &&
    (i == -1 ==> forall j | 0 <= j < n :: !Eligible(m, q, q[j])) &&
    (i >= 0 ==>
      Eligible(m, q, q[i]) &&
      (forall j | 0 <= j < n && Eligible(m, q, q[j]) :: !Beats(q[j], q[i], now)) &&
      (forall j | 0 <= j < i && Eligible(m, q, q[j]) :: Beats(q[i], q[j], now)))
  }

  lemma SomeoneIsEligible(m: Counts, q: seq<Ticket>)
    requires q != []
    ensures exists j :: 0 <= j < |q| && Eligible(m, q, q[j])
  {
    if SomeUnderSoft(m, q) {
      var j :| 0 <= j < |q| && UnderSoft(m, q[j]);
      assert Eligible(m, q, q[j]);
    } else {
      assert Eligible(m, q, q[0]);
    }
  }

  lemma BestIsChosen(m: Counts, q: seq<Ticket>, now: int, i: int)
    requires q != [] && BestOf(m, q, now, |q|, i)
    ensures i >= 0 && Chosen(m, q, now, i)
  {
    SomeoneIsEligible(m, q);
  }

  /** Taking over the next request when it beats the best so far. */
  lemma BestGrows(m: Counts, q: seq<Ticket>, now: int, n: nat, i: int)
    requires n < |q| && BestOf(m, q, now, n, i)
    ensures var takes := Eligible(m, q, q[n]) && (i == -1 || Beats(q[n], q[i], now));
            BestOf(m, q, now, n + 1, if takes then n else i)
  {
  }

  // ------------------------------------------------------------------- the pool

  class SlotPool {
    const limit: nat
    const clock: Clock
    var active: int
    var activeByGroup: Counts
    var waiters: seq<Waiter>

    ghost var log: seq<Event>
    ghost var states: seq<State>
    ghost var state: State
    ghost var holder: map<Ticket, Waiter>

    /** The pool's fields are the state its history leads to. */
    ghost predicate Sound()
      reads this, clock, holder.Values
    {
      Reached(limit, log, states, state) && Matching()
    }

    /** The fields spell out the state. */
    ghost predicate Matching()
      reads this, clock, holder.Values
    {
      state.active == active && state.groups == activeByGroup && Named() && Queued() && Held()
    }

    ghost predicate Named()
      reads this
    {
      holder.Keys == state.seen && forall t <- holder :: holder[t].ticket == t
    }

    ghost predicate Queued()
      reads this, clock
    {
      |waiters| == |state.waiting| &&
      forall i | 0 <= i < |waiters| ::
        waiters[i].ticket == state.waiting[i] && state.waiting[i] in holder && waiters[i] == holder[state.waiting[i]] &&
        state.waiting[i].enqueued <= clock.now
    }

    /** A waiter is active exactly while its ticket holds a slot; a queued one has no signal pending. */
    ghost predicate Held()
      reads this, holder.Values
    {
      forall t <- holder ::
        (holder[t].active <==> t in state.granted) && holder[t].grants <= 1 &&
        (t in state.waiting ==> holder[t].grants == 0)
    }

    ghost predicate Valid()
      reads this, clock, holder.Values
    {
      Sound() && (waiters == [] || active == limit)
    }

    constructor (limit: nat, clock: Clock)
      requires 0 < limit <= MAXIMUM_ACTIVE_AGENTS
      ensures Valid() && this.limit == limit && this.clock == clock && log == [] && holder == map[]
    {
      this.limit := limit;
      this.clock := clock;
      active := 0;
      activeByGroup := map[];
      waiters := [];
      log, states := [], [EMPTY];
      state := EMPTY;
      holder := map[];
    }

    /** The first lock section of an acquisition: join the queue, then dispatch. */
    method Enter(w: Waiter)
      requires Valid() && w.ticket !in holder && w !in holder.Values && !w.active && w.grants == 0
      requires w.ticket.enqueued <= clock.now
      modifies this, clock, w, holder.Values
      ensures Valid() && holder == old(holder)[w.ticket := w]
      ensures GrantsFrom(old(log) + [Event.Enqueue(w.ticket)], log)
    {
      QueuedOnce(limit, log, states, state);
      HistoryGrows(limit, log, states, state, Event.Enqueue(w.ticket));
      waiters := waiters + [w];
      log := log + [Event.Enqueue(w.ticket)];
      state := Apply(state, Event.Enqueue(w.ticket));
      states := states + [state];
      holder := holder[w.ticket := w];
      Dispatch();
    }

    method Dispatch()
      requires Sound()
      modifies this, clock, holder.Values
      ensures Valid() && holder == old(holder)
      ensures GrantsFrom(old(log), log)
      ensures forall t <- holder :: t !in old(state).waiting ==> holder[t].active == old(holder[t].active)
      ensures forall t <- state.waiting :: t in old(state).waiting
      ensures old(waiters == [] || active == limit) ==> log == old(log) && active == old(active)
    {
      ghost var start := log;
      while active < limit && |waiters| > 0
        invariant Sound() && holder == old(holder)
        invariant GrantsFrom(start, log)
        invariant forall t <- state.waiting :: t in old(state).waiting
        invariant old(waiters == [] || active == limit) ==> log == start && waiters == old(waiters) && active == old(active)
        invariant forall t <- holder :: t !in old(state).waiting ==> holder[t].active == old(holder[t].active)
        decreases |waiters|
      {
        ghost var sofar := log;
        GrantNext();
        OneMoreGrant(start, sofar, log);
      }
      QueuedOnce(limit, log, states, state);
    }

    method GrantNext()
      requires Sound() && active < limit && |waiters| > 0
      modifies this, clock, holder.Values
      ensures Sound() && holder == old(holder) && |waiters| < |old(waiters)|
      ensures GrantsFrom(old(log), log)
      ensures forall t <- state.waiting :: t in old(state).waiting
      ensures forall t <- holder :: t !in old(state).waiting ==> holder[t].active == old(holder[t].active)
    {
      assert Tickets(waiters) == state.waiting;
      QueuedOnce(limit, log, states, state);
      var index := NextWaiter();
      WithoutIsRest(state.waiting, index);
      GrantGrows(limit, log, states, state, index, clock.now);
      Admit(index, clock.now);
    }

    /** Takes the waiter at index out of the queue, gives it a slot and signals it. */
    method Admit(index: int, ghost now: int)
      requires Sound() && 0 <= index < |waiters|
      requires Reached(limit, log + [Event.Grant(state.waiting[index], now)], states + [Granting(state, index)], Granting(state, index))
      modifies this, holder.Values
      ensures Sound() && holder == old(holder) && |waiters| < |old(waiters)|
      ensures log == old(log + [Event.Grant(state.waiting[index], now)]) && state == old(Granting(state, index))
      ensures forall t <- holder :: t != old(state.waiting[index]) ==> holder[t].active == old(holder[t].active)
    {
      ghost var t := state.waiting[index];
      ChosenLeaves(limit, log, states, state, index);
      Seat(index);
      log := log + [Event.Grant(t, now)];
      states := states + [state];
    }

    /** The fields alone: out of the queue, into a slot, and signalled. */
    method Seat(index: int)
      requires Matching() && 0 <= index < |waiters|
      requires state.waiting[index] !in Without(state.waiting, index)
      requires forall t <- Without(state.waiting, index) :: t in state.waiting
      modifies this`active, this`activeByGroup, this`waiters, this`state, holder.Values
      ensures Matching() && |waiters| < |old(waiters)| && state == old(Granting(state, index))
      ensures forall t <- holder :: t != old(state.waiting[index]) ==> holder[t].active == old(holder[t].active)
    {
      var waiter := waiters[index];
      var t := waiter.ticket;
      state := Granting(state, index);
      waiters := waiters[..index] + waiters[index + 1..];
      waiter.active := true;
      active := active + 1;
      activeByGroup := activeByGroup[t.group := Count(activeByGroup, t.group) + 1];
      waiter.grants := waiter.grants + 1;
    }

    /** The next request to serve: the first of the best eligible ones. */
    method NextWaiter() returns (index: int)
      requires |waiters| > 0
      modifies clock
      ensures clock.now >= old(clock.now)
      ensures 0 <= index < |waiters| && Chosen(activeByGroup, Tickets(waiters), clock.now, index)
    {
      ghost var q := Tickets(waiters);
      var preferUnderSoft := false;
      var i := 0;
      while i < |waiters| && !preferUnderSoft
        invariant 0 <= i <= |waiters| && clock.now == old(clock.now)
        invariant preferUnderSoft ==> SomeUnderSoft(activeByGroup, q)
        invariant !preferUnderSoft ==> forall j | 0 <= j < i :: !UnderSoft(activeByGroup, q[j])
      {
        preferUnderSoft := UnderSoft(activeByGroup, waiters[i].ticket);
        assert waiters[i].ticket == q[i];
        i := i + 1;
      }
      var now := clock.Read();
      var selected, selectedPriority := -1, 0;
      i := 0;
      while i < |waiters|
        invariant 0 <= i <= |waiters| && BestOf(activeByGroup, q, now, i, selected)
        invariant clock.now == now && (selected >= 0 ==> selectedPriority == Effective(q[selected], now))
      {
        BestGrows(activeByGroup, q, now, i, selected);
        var t := waiters[i].ticket;
        if !preferUnderSoft || UnderSoft(activeByGroup, t) {
          var effective := t.priority;
          var waited := now - t.enqueued;
          if waited > 0 {
            effective := effective + waited / MINUTE;
          }
          if selected == -1 || effective > selectedPriority ||
             (effective == selectedPriority && t.enqueued < waiters[selected].ticket.enqueued) {
            selected, selectedPriority := i, effective;
          }
        }
        i := i + 1;
      }
      BestIsChosen(activeByGroup, q, now, selected);
      index := if selected < 0 then 0 else selected;
    }

    lemma QueuedHas(w: Waiter)
      requires Named() && Queued() && w in holder.Values
      ensures w in waiters <==> w.ticket in state.waiting
    {
      if w.ticket in state.waiting {
        var i :| 0 <= i < |waiters| && state.waiting[i] == w.ticket;
        assert waiters[i] == w;
      }
    }

    /** Takes w's slot back, if it holds one, and hands it on. */
    method ReleaseSlot(w: Waiter)
      requires Valid() && w in holder.Values
      modifies this, clock, holder.Values
      ensures Valid() && holder == old(holder) && !w.active
      ensures !old(w.active) ==> log == old(log) && waiters == old(waiters) && active == old(active)
      ensures w !in old(waiters) ==> w !in waiters
      ensures old(w.active) ==> GrantsFrom(old(log) + [Event.Release(w.ticket)], log)
    {
      if !w.active {
        return;
      }
      QueuedOnce(limit, log, states, state);
      HistoryGrows(limit, log, states, state, Event.Release(w.ticket));
      QueuedHas(w);
      Free(w);
      Dispatch();
      QueuedHas(w);
    }

    method Free(w: Waiter)
      requires Sound() && w in holder.Values && w.active
      requires var s := Apply(state, Event.Release(w.ticket));
               Reached(limit, log + [Event.Release(w.ticket)], states + [s], s)
      modifies this, w
      ensures Sound() && holder == old(holder) && !w.active && waiters == old(waiters) && state.waiting == old(state.waiting)
      ensures log == old(log) + [Event.Release(w.ticket)]
    {
      log := log + [Event.Release(w.ticket)];
      state := Apply(state, Event.Release(w.ticket));
      states := states + [state];
      w.active := false;
      active := active - 1;
      activeByGroup := activeByGroup[w.ticket.group := Count(activeByGroup, w.ticket.group) - 1];
    }

    /** The lock section of a caller whose context ended: whether or not a grant
        came first, the request ends up neither queued nor holding a slot. */
    method Cancel(w: Waiter)
      requires Valid() && w in holder.Values
      modifies this, clock, holder.Values
      ensures Valid() && holder == old(holder) && !w.active && w !in waiters
      ensures old(w.active) ==> GrantsFrom(old(log) + [Event.Release(w.ticket)], log)
      ensures old(w in waiters) ==> GrantsFrom(old(log) + [Event.Withdraw(w.ticket)], log)
      ensures old(!w.active && w !in waiters) ==> log == old(log) && active == old(active)
    {
      QueuedHas(w);
      QueuedOnce(limit, log, states, state);
      if w.active {
        ReleaseSlot(w);
      } else {
        RemoveWaiter(w);
        QueuedHas(w);
        Dispatch();
        QueuedHas(w);
      }
    }

    method RemoveWaiter(expected: Waiter)
      requires Sound()
      modifies this
      ensures Sound() && holder == old(holder) && expected !in waiters && active == old(active)
      ensures expected in old(waiters) ==> log == old(log) + [Event.Withdraw(expected.ticket)]
      ensures expected !in old(waiters) ==> log == old(log) && waiters == old(waiters)
    {
      var index := 0;
      while index < |waiters|
        invariant index <= |waiters| && expected !in waiters[..index]
      {
        if waiters[index] == expected {
          Remove(index);
          return;
        }
        index := index + 1;
      }
    }

    method Remove(index: nat)
      requires Sound() && index < |waiters|
      modifies this
      ensures Sound() && holder == old(holder) && active == old(active)
      ensures log == old(log) + [Event.Withdraw(old(waiters)[index].ticket)]
      ensures old(waiters)[index] !in waiters
    {
      QueuedOnce(limit, log, states, state);
      WithoutIsRest(state.waiting, index);
      WithdrawGrows(limit, log, states, state, index);
      log := log + [Event.Withdraw(waiters[index].ticket)];
      state := state.(waiting := Without(state.waiting, index));
      states := states + [state];
      waiters := waiters[..index] + waiters[index + 1..];
    }

    /** Reads the pending grant of a request; the caller now owns the slot. */
    method TakeGrant(w: Waiter)
      requires Valid() && w in holder.Values && w.grants == 1
      modifies w
      ensures Valid() && w.grants == 0 && w.active == old(w.active)
    {
      w.grants := 0;
    }

    method Snapshot() returns (limit: nat, active: int, groups: Counts, waiting: nat)
      requires Valid()
      ensures limit == this.limit && groups == activeByGroup && waiting == |waiters|
      ensures active == |state.granted| <= limit
      ensures active == Count(groups, Group.Goal) + Count(groups, Group.Plan) + Count(groups, Group.Execution)
                        + Count(groups, Group.Audit) + Count(groups, Group.Knowledge)
      ensures waiting > 0 ==> active == limit
      ensures forall t :: t in state.granted <==> t in holder && holder[t].active
    {
      limit, active, groups, waiting := this.limit, this.active, activeByGroup, |waiters|;
      SumOfGroups(this.limit, log, states, state);
    }
  }

  lemma SumOfGroups(limit: nat, log: seq<Event>, states: seq<State>, s: State)
    requires Reached(limit, log, states, s)
    ensures s.active == |s.granted| <= limit && s.granted <= s.seen
    ensures s.active == Count(s.groups, Group.Goal) + Count(s.groups, Group.Plan) + Count(s.groups, Group.Execution)
                        + Count(s.groups, Group.Audit) + Count(s.groups, Group.Knowledge)
  {
    AlwaysConserved(limit, log, states, |log|);
    ActiveIsSumOfGroups(limit, log, states, |log|);
  }

  method NewSlotPool(limit: int, clock: Clock) returns (r: Result<SlotPool, SlotError>)
    ensures r.Ok? <==> 0 < limit <= MAXIMUM_ACTIVE_AGENTS
    ensures r.Ok? ==> r.value.Valid() && fresh(r.value) && r.value.limit == limit && r.value.clock == clock
  {
    if limit <= 0 || limit > MAXIMUM_ACTIVE_AGENTS {
      return Err(ActiveLimit);
    }
    var pool := new SlotPool(limit, clock);
    r := Ok(pool);
  }

  /** The request an acquisition makes before it takes the lock; id stands for its address. */
  method NewRequest(id: nat, role: Role, priority: int, clock: Clock) returns (r: Result<Waiter, SlotError>)
    modifies clock
    ensures r.Ok? <==> role != Role.Unknown && priority >= 0
    ensures r.Ok? ==> fresh(r.value) && !r.value.active && r.value.grants == 0 && r.value.ticket.enqueued == clock.now
    ensures r.Ok? ==> r.value.ticket.group == RoleGroup(role) && r.value.ticket.priority > 0
    ensures r.Ok? ==> r.value.ticket.priority == if priority == 0 then DefaultPriority(role) else priority
    ensures clock.now >= old(clock.now)
  {
    if role == Role.Unknown || priority < 0 {
      return Err(ActiveLimit);
    }
    var now := clock.Read();
    var w := new Waiter(Ticket(id, RoleGroup(role), if priority == 0 then DefaultPriority(role) else priority, now));
    r := Ok(w);
  }

  function Tickets(waiters: seq<Waiter>): (q: seq<Ticket>) {
    seq(|waiters|, i requires 0 <= i < |waiters| => waiters[i].ticket)
  }
}
