/** The slot scheduler as a sequence of events: who enqueues, who is granted a
    slot, who gives one back, and who withdraws. */
module Slots {

  datatype Group = Goal | Plan | Execution | Audit | Knowledge

  /** One request, with an identity of its own; times are nanoseconds on the pool's
      clock. */
  datatype Ticket = Ticket(id: nat, group: Group, priority: int, enqueued: int)

  const MINUTE: int := 60_000_000_000

  function SoftLimit(g: Group): int {
    match g case Goal => 2 case Plan => 4 case Execution => 6 case Audit => 4 case Knowledge => 1
  }

  type Counts = map<Group, int>

  function Count(m: Counts, g: Group): int { if g in m then m[g] else 0 }

  datatype State = State(seen: set<Ticket>, active: int, groups: Counts, waiting: seq<Ticket>, granted: set<Ticket>)

  const EMPTY := State({}, 0, map[], [], {})

  datatype Event =
    | Enqueue(t: Ticket)
    | Grant(t: Ticket, now: int)
    | Release(t: Ticket)
    | Withdraw(t: Ticket)

  // ------------------------------------------------------------ the selection

  predicate UnderSoft(m: Counts, t: Ticket) { Count(m, t.group) < SoftLimit(t.group) }

  /** Priority plus one for each whole aging interval waited. */
  function Effective(t: Ticket, now: int): int {
    t.priority + if now > t.enqueued then (now - t.enqueued) / MINUTE else 0
  }

  predicate SomeUnderSoft(m: Counts, q: seq<Ticket>) {
    exists j | 0 <= j < |q| :: UnderSoft(m, q[j])
  }

  /** While some waiter's group is under its soft limit, only such waiters compete. */
  predicate Eligible(m: Counts, q: seq<Ticket>, t: Ticket) {
    SomeUnderSoft(m, q) ==> UnderSoft(m, t)
  }

  predicate Beats(a: Ticket, b: Ticket, now: int) {
    Effective(a, now) > Effective(b, now) ||
    (Effective(a, now) == Effective(b, now) && a.enqueued < b.enqueued)
  }

  /** Index i is the first of the best eligible waiters. */
  ghost predicate Chosen(m: Counts, q: seq<Ticket>, now: int, i: nat) {
    i < |q| && Eligible(m, q, q[i]) &&
    (forall j | 0 <= j < |q| && Eligible(m, q, q[j]) :: !Beats(q[j], q[i], now)) &&
    (forall j | 0 <= j < i && Eligible(m, q, q[j]) :: Beats(q[i], q[j], now))
  }

  // ---------------------------------------------------------------- the events

  function Without(q: seq<Ticket>, i: nat): seq<Ticket>
    requires i < |q|
  {
    q[..i] + q[i + 1..]
  }

  ghost predicate Legal(limit: nat, s: State, e: Event) {
    match e
    case Enqueue(t) => t !in s.seen
    case Grant(t, now) =>
      s.active < limit && (forall w <- s.waiting :: w.enqueued <= now) &&
      exists i: nat :: Chosen(s.groups, s.waiting, now, i) && s.waiting[i] == t
    case Release(t) => t in s.granted
    case Withdraw(t) => t in s.waiting
  }

  function IndexOf(q: seq<Ticket>, t: Ticket): (i: nat)
    requires t in q
    ensures i < |q| && q[i] == t && t !in q[..i]
  {
    if q[0] == t then 0 else 1 + IndexOf(q[1..], t)
  }

  function Apply(s: State, e: Event): State {
    match e
    case Enqueue(t) => s.(seen := s.seen + {t}, waiting := s.waiting + [t])
    case Grant(t, _) =>
      if t !in s.waiting then s else
      State(s.seen, s.active + 1, s.groups[t.group := Count(s.groups, t.group) + 1],
            Without(s.waiting, IndexOf(s.waiting, t)), s.granted + {t})
    case Release(t) =>
      s.(active := s.active - 1, groups := s.groups[t.group := Count(s.groups, t.group) - 1], granted := s.granted - {t})
    case Withdraw(t) =>
      if t !in s.waiting then s else s.(waiting := Without(s.waiting, IndexOf(s.waiting, t)))
  }

  /** One legal event. */
  ghost predicate Moves(limit: nat, s: State, e: Event, t: State) { Legal(limit, s, e) && t == Apply(s, e) }

  /** A history: events, each legal where it happened, with the states before and after them. */
  ghost predicate History(limit: nat, log: seq<Event>, states: seq<State>) {
    |states| == |log| + 1 && states[0] == EMPTY &&
    forall k | 0 <= k < |log| :: Moves(limit, states[k], log[k], states[k + 1])
  }

  // ------------------------------------------------------------ conservation

  ghost function OfGroup(g: Group, ts: set<Ticket>): set<Ticket> { set t | t in ts && t.group == g }

  ghost predicate Distinct(q: seq<Ticket>) { forall i, j | 0 <= i < j < |q| :: q[i] != q[j] }

  ghost predicate Conserved(limit: nat, s: State) {
    s.active == |s.granted| && s.active <= limit &&
    (forall g: Group :: Count(s.groups, g) == |OfGroup(g, s.granted)|) &&
    Distinct(s.waiting) && (forall t <- s.waiting :: t !in s.granted && t in s.seen) &&
    (forall t <- s.granted :: t in s.seen)
  }

  lemma OfGroupPlus(g: Group, ts: set<Ticket>, t: Ticket)
    requires t !in ts
    ensures |OfGroup(g, ts + {t})| == |OfGroup(g, ts)| + if t.group == g then 1 else 0
  {
    if t.group == g {
      assert OfGroup(g, ts + {t}) == OfGroup(g, ts) + {t};
    } else {
      assert OfGroup(g, ts + {t}) == OfGroup(g, ts);
    }
  }

  lemma GrantConserves(limit: nat, s: State, t: Ticket, now: int)
    requires Conserved(limit, s) && s.active < limit && t in s.waiting
    ensures Conserved(limit, Apply(s, Grant(t, now)))
  {
    var u := Apply(s, Grant(t, now));
    forall g: Group ensures Count(u.groups, g) == |OfGroup(g, u.granted)| { OfGroupPlus(g, s.granted, t); }
    WithoutIsRest(s.waiting, IndexOf(s.waiting, t));
  }

  lemma ReleaseConserves(limit: nat, s: State, t: Ticket)
    requires Conserved(limit, s) && t in s.granted
    ensures Conserved(limit, Apply(s, Release(t)))
  {
    var u := Apply(s, Release(t));
    assert s.granted == u.granted + {t};
    forall g: Group ensures Count(u.groups, g) == |OfGroup(g, u.granted)| { OfGroupPlus(g, u.granted, t); }
  }

  lemma WithoutIsRest(q: seq<Ticket>, i: nat)
    requires Distinct(q) && i < |q|
    ensures Distinct(Without(q, i)) && (forall t :: t in Without(q, i) <==> t in q && t != q[i])
  {
    var r := Without(q, i);
    forall t ensures t in r <==> t in q && t != q[i] {
      if t in q && t != q[i] {
        var k := IndexOf(q, t);
        assert r[if k < i then k else k - 1] == t;
      }
    }
  }

  lemma EventConserves(limit: nat, s: State, e: Event)
    requires Conserved(limit, s) && Legal(limit, s, e)
    ensures Conserved(limit, Apply(s, e))
  {
    match e {
      case Enqueue(t) =>
      case Grant(t, now) => GrantedWasWaiting(limit, s, t, now); GrantConserves(limit, s, t, now);
      case Release(t) => ReleaseConserves(limit, s, t);
      case Withdraw(t) => WithoutIsRest(s.waiting, IndexOf(s.waiting, t));
    }
  }

  lemma GrantedWasWaiting(limit: nat, s: State, t: Ticket, now: int)
    requires Legal(limit, s, Grant(t, now))
    ensures t in s.waiting
  {
    var i: nat :| Chosen(s.groups, s.waiting, now, i) && s.waiting[i] == t;
  }

  /** Over every history: the active count is the number of granted, unreleased
      requests and of each group alike, never above the limit, and every waiting
      request is queued exactly once. */
  lemma {:induction false} AlwaysConserved(limit: nat, log: seq<Event>, states: seq<State>, k: nat)
    requires History(limit, log, states) && k <= |log|
    ensures Conserved(limit, states[k])
  {
    if k > 0 {
      AlwaysConserved(limit, log, states, k - 1);
      assert Moves(limit, states[k - 1], log[k - 1], states[k]);
      EventConserves(limit, states[k - 1], log[k - 1]);
    }
  }

  lemma GroupsPartition(ts: set<Ticket>)
    ensures |ts| == |OfGroup(Goal, ts)| + |OfGroup(Plan, ts)| + |OfGroup(Execution, ts)| + |OfGroup(Audit, ts)|
                    + |OfGroup(Knowledge, ts)|
  {
    if ts != {} {
      var t :| t in ts;
      GroupsPartition(ts - {t});
      assert ts == ts - {t} + {t};
      forall g: Group ensures |OfGroup(g, ts)| == |OfGroup(g, ts - {t})| + if t.group == g then 1 else 0 {
        OfGroupPlus(g, ts - {t}, t);
      }
    }
  }

  /** The active count is the sum of the group counts. */
  lemma ActiveIsSumOfGroups(limit: nat, log: seq<Event>, states: seq<State>, k: nat)
    requires History(limit, log, states) && k <= |log|
    ensures var s := states[k];
            s.active == Count(s.groups, Goal) + Count(s.groups, Plan) + Count(s.groups, Execution)
                        + Count(s.groups, Audit) + Count(s.groups, Knowledge) <= limit
  {
    AlwaysConserved(limit, log, states, k);
    GroupsPartition(states[k].granted);
  }

  // ---------------------------------------------------------------- fairness

  /** How long v must come after w so that v's priority never makes up for it. */
  function Handicap(v: Ticket, w: Ticket): int {
    (if v.priority > w.priority then v.priority - w.priority else 0) * MINUTE
  }

  lemma AgingKeepsUp(v: Ticket, w: Ticket, now: int)
    requires v.enqueued <= now && v.enqueued > w.enqueued && v.enqueued >= w.enqueued + Handicap(v, w)
    ensures Beats(w, v, now)
  {
    var d := if v.priority > w.priority then v.priority - w.priority else 0;
    var a, b := now - v.enqueued, now - w.enqueued;
    assert b >= a + d * MINUTE;
    assert (a + d * MINUTE) / MINUTE == a / MINUTE + d;
    assert b / MINUTE >= (a + d * MINUTE) / MINUTE;
  }

  /** The handicap is exact: a later request is behind an earlier one at every
      moment if and only if it came at least the handicap after it. */
  lemma HandicapIsExact(v: Ticket, w: Ticket)
    requires v.enqueued > w.enqueued
    ensures (forall now | now >= v.enqueued :: Beats(w, v, now)) <==> v.enqueued >= w.enqueued + Handicap(v, w)
  {
    if v.enqueued >= w.enqueued + Handicap(v, w) {
      forall now | now >= v.enqueued ensures Beats(w, v, now) { AgingKeepsUp(v, w, now); }
    } else {
      var d := v.priority - w.priority;
      assert v.enqueued - w.enqueued < d * MINUTE;
      assert (v.enqueued - w.enqueued) / MINUTE < d;
      assert !Beats(w, v, v.enqueued);
    }
  }

  lemma ChosenNotOvertaking(s: State, now: int, i: nat, w: Ticket)
    requires Chosen(s.groups, s.waiting, now, i) && s.waiting[i].enqueued <= now
    requires var v := s.waiting[i];
             v.group == w.group && v.enqueued > w.enqueued && v.enqueued >= w.enqueued + Handicap(v, w)
    ensures w !in s.waiting
  {
    var v := s.waiting[i];
    AgingKeepsUp(v, w, now);
    assert UnderSoft(s.groups, v) == UnderSoft(s.groups, w);
  }

  lemma ChosenPrefersUnderSoft(s: State, now: int, i: nat, w: Ticket)
    requires Chosen(s.groups, s.waiting, now, i) && w in s.waiting && !UnderSoft(s.groups, s.waiting[i])
    ensures !UnderSoft(s.groups, w)
  {
  }

  /** Bounded overtaking, over every history on a clock that does not run back: a
      request is never granted before a still-waiting one of its group that was
      enqueued early enough. */
  lemma NoOvertaking(limit: nat, log: seq<Event>, states: seq<State>, k: nat, v: Ticket, now: int, w: Ticket)
    requires History(limit, log, states) && k < |log| && log[k] == Grant(v, now)
    requires v.group == w.group && v.enqueued > w.enqueued && v.enqueued >= w.enqueued + Handicap(v, w)
    ensures w !in states[k].waiting
  {
    var s := states[k];
    assert Moves(limit, s, log[k], states[k + 1]);
    var i: nat :| Chosen(s.groups, s.waiting, now, i) && s.waiting[i] == v;
    assert v in s.waiting;
    ChosenNotOvertaking(s, now, i, w);
  }

  /** A group at or over its soft limit gets a slot only when no waiter's group is under its own. */
  lemma SoftLimitsComeFirst(limit: nat, log: seq<Event>, states: seq<State>, k: nat, v: Ticket, now: int, w: Ticket)
    requires History(limit, log, states) && k < |log| && log[k] == Grant(v, now)
    requires w in states[k].waiting && !UnderSoft(states[k].groups, v)
    ensures !UnderSoft(states[k].groups, w)
  {
    var s := states[k];
    assert Moves(limit, s, log[k], states[k + 1]);
    var i: nat :| Chosen(s.groups, s.waiting, now, i) && s.waiting[i] == v;
    ChosenPrefersUnderSoft(s, now, i, w);
  }

  /** A request that was issued and is no longer queued. */
  ghost predicate Gone(s: State, t: Ticket) { t !in s.waiting && t in s.seen }

  lemma StaysGone(limit: nat, s: State, e: Event, t: Ticket)
    requires Gone(s, t) && Legal(limit, s, e)
    ensures Gone(Apply(s, e), t)
  {
  }

  lemma LeavesQueue(s: State, e: Event, t: Ticket)
    requires t in s.waiting && Distinct(s.waiting) && t in s.seen
    requires e == Withdraw(t) || (e.Grant? && e.t == t)
    ensures Gone(Apply(s, e), t)
  {
    WithoutIsRest(s.waiting, IndexOf(s.waiting, t));
  }

  predicate TakesOut(e: Event, t: Ticket) { e == Withdraw(t) || (e.Grant? && e.t == t) }

  lemma TakesOutOfQueue(limit: nat, s: State, e: Event, t: Ticket)
    requires Legal(limit, s, e) && TakesOut(e, t)
    ensures t in s.waiting
  {
    if e.Grant? { GrantedWasWaiting(limit, s, t, e.now); }
  }

  lemma TakenOutIsGone(limit: nat, log: seq<Event>, states: seq<State>, i: nat, t: Ticket)
    requires History(limit, log, states) && i < |log| && TakesOut(log[i], t)
    ensures Gone(states[i + 1], t)
  {
    assert Moves(limit, states[i], log[i], states[i + 1]);
    AlwaysConserved(limit, log, states, i);
    TakesOutOfQueue(limit, states[i], log[i], t);
    LeavesQueue(states[i], log[i], t);
  }

  lemma {:induction false} LeftQueueForGood(limit: nat, log: seq<Event>, states: seq<State>, i: nat, j: nat, t: Ticket)
    requires History(limit, log, states) && i < j <= |log| && TakesOut(log[i], t)
    ensures Gone(states[j], t)
    decreases j
  {
    if j == i + 1 {
      TakenOutIsGone(limit, log, states, i, t);
    } else {
      LeftQueueForGood(limit, log, states, i, j - 1, t);
      assert Moves(limit, states[j - 1], log[j - 1], states[j]);
      StaysGone(limit, states[j - 1], log[j - 1], t);
    }
  }

  /** A request is granted at most once, and never after it withdrew. */
  lemma GrantedOnce(limit: nat, log: seq<Event>, states: seq<State>, i: nat, j: nat, t: Ticket, now: int)
    requires History(limit, log, states) && i < j < |log| && log[j] == Grant(t, now)
    ensures !TakesOut(log[i], t)
  {
    if TakesOut(log[i], t) {
      LeftQueueForGood(limit, log, states, i, j, t);
      assert Moves(limit, states[j], log[j], states[j + 1]);
      TakesOutOfQueue(limit, states[j], log[j], t);
    }
  }
}
