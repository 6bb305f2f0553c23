/** Producing the diff: the recursive walk that appends to one list, its two
    limits, and the printed form of its paths. */
module JsonCompare {
  import opened Wrappers
  import opened Texts
  import opened JsonPatch
  import opened JsonDiff

  datatype Operation = Adding | Removing | Replacing

  /** A change as it is printed: a value that is null is left out, as one that is absent. */
  datatype Entry = Entry(operation: Operation, path: string, before: Option<JSON>, after: Option<JSON>)

  datatype DiffError = TooComplex

  function Present(v: Option<JSON>): Option<JSON> { if v == Some(Null) then None else v }

  function EntryOf(path: string, e: Edit): Entry {
    Entry(if e.Add? then Adding else if e.Remove? then Removing else Replacing,
          path, Present(JsonPatch.Before(e)), Present(JsonPatch.After(e)))
  }

  /** The root's empty pointer prints as a slash. */
  function Shown(path: string, c: Change): Entry {
    var p := path + Pointer(c.path);
    EntryOf(if p == "" then "/" else p, c.edit)
  }

  function ShownAll(path: string, cs: seq<Change>): (r: seq<Entry>)
    ensures |r| == |cs|
  {
    seq(|cs|, i requires 0 <= i < |cs| => Shown(path, cs[i]))
  }

  // ---------------------------------------------------------------------- the depth

  function Max(x: nat, y: nat): nat { if x < y then y else x }

  /** How many levels below a pair of values the walk goes: through the places that both share. */
  ghost function Levels(b: JSON, a: JSON): nat
    decreases b, 2, 0
  {
    if b.Object? && a.Object? then MemberLevels(b, a, AllKeys(b, a))
    else if b.Array? && a.Array? then SharedLevels(b, a, Shared(b, a))
    else 0
  }

  ghost function MemberLevels(b: JSON, a: JSON, keys: seq<string>): nat
    requires b.Object? && a.Object? && forall k <- keys :: k in b.members || k in a.members
    decreases b, 1, |keys|
  {
    if keys == [] then 0
    else
      var key := keys[|keys| - 1];
      Max(MemberLevels(b, a, keys[..|keys| - 1]),
          if key in b.members && key in a.members then 1 + Levels(b.members[key], a.members[key]) else 0)
  }

  ghost function SharedLevels(b: JSON, a: JSON, n: nat): nat
    requires b.Array? && a.Array? && n <= |b.items| && n <= |a.items|
    decreases b, 1, n
  {
    if n == 0 then 0 else Max(SharedLevels(b, a, n - 1), 1 + Levels(b.items[n - 1], a.items[n - 1]))
  }

  lemma {:induction false} MembersGrow(b: JSON, a: JSON, keys: seq<string>, i: nat)
    requires b.Object? && a.Object? && i <= |keys| && forall k <- keys :: k in b.members || k in a.members
    ensures MemberLevels(b, a, keys[..i]) <= MemberLevels(b, a, keys)
    ensures |MemberChanges(b, a, keys[..i])| <= |MemberChanges(b, a, keys)|
    decreases |keys|
  {
    if i == |keys| {
      assert keys[..i] == keys;
    } else {
      MembersGrow(b, a, keys[..|keys| - 1], i);
      assert keys[..|keys| - 1][..i] == keys[..i];
    }
  }

  lemma {:induction false} SharedGrow(b: JSON, a: JSON, i: nat, n: nat)
    requires b.Array? && a.Array? && i <= n <= |b.items| && n <= |a.items|
    ensures SharedLevels(b, a, i) <= SharedLevels(b, a, n)
    ensures |SharedChanges(b, a, i)| <= |SharedChanges(b, a, n)|
    decreases n
  {
    if i < n { SharedGrow(b, a, i, n - 1); }
  }

  // ----------------------------------------------------------------------- the walk

  class ChangeList {
    var items: seq<Entry>

    constructor () ensures items == [] { items := []; }

    method Append(c: Entry) returns (ok: bool)
      modifies this
      ensures ok <==> |old(items)| < MAXIMUM_CHANGES
      ensures items == if ok then old(items) + [c] else old(items)
    {
      if |items| >= MAXIMUM_CHANGES {
        return false;
      }
      items := items + [c];
      ok := true;
    }
  }

  method AppendChanges(list: ChangeList, path: string, b: JSON, a: JSON, depth: nat) returns (ok: bool)
    requires |list.items| <= MAXIMUM_CHANGES
    modifies list
    ensures |list.items| <= MAXIMUM_CHANGES
    ensures ok <==> depth + Levels(b, a) <= MAXIMUM_DEPTH && |old(list.items)| + |Changes(b, a)| <= MAXIMUM_CHANGES
    ensures ok ==> list.items == old(list.items) + ShownAll(path, Changes(b, a))
    decreases b, 3
  {
    if depth > MAXIMUM_DEPTH {
      return false;
    }
    if b.Object? && a.Object? {
      ok := AppendMembers(list, path, b, a, depth);
    } else if b.Array? && a.Array? {
      ArrayParts(path, b, a);
      ok := AppendItems(list, path, b, a, depth);
    } else if b == a {
      ok := true;
    } else {
      assert path + Pointer([]) == path;
      ok := list.Append(EntryOf(if path == "" then "/" else path, Replace(b, a)));
    }
  }

  method AppendMembers(list: ChangeList, path: string, b: JSON, a: JSON, depth: nat) returns (ok: bool)
    requires |list.items| <= MAXIMUM_CHANGES && b.Object? && a.Object? && depth <= MAXIMUM_DEPTH
    modifies list
    ensures |list.items| <= MAXIMUM_CHANGES
    ensures var cs := MemberChanges(b, a, AllKeys(b, a));
            (ok <==> depth + MemberLevels(b, a, AllKeys(b, a)) <= MAXIMUM_DEPTH &&
                     |old(list.items)| + |cs| <= MAXIMUM_CHANGES) &&
            (ok ==> list.items == old(list.items) + ShownAll(path, cs))
    decreases b, 2
  {
    var keys := CollectKeys(b, a);
    ok := AppendKeys(list, path, b, a, keys, depth);
  }

  method AppendKeys(list: ChangeList, path: string, b: JSON, a: JSON, keys: seq<string>, depth: nat) returns (ok: bool)
    requires |list.items| <= MAXIMUM_CHANGES && b.Object? && a.Object? && depth <= MAXIMUM_DEPTH
    requires forall k <- keys :: k in b.members || k in a.members
    modifies list
    ensures |list.items| <= MAXIMUM_CHANGES
    ensures ok <==> depth + MemberLevels(b, a, keys) <= MAXIMUM_DEPTH &&
                    |old(list.items)| + |MemberChanges(b, a, keys)| <= MAXIMUM_CHANGES
    ensures ok ==> list.items == old(list.items) + ShownAll(path, MemberChanges(b, a, keys))
    decreases b, 1
  {
    var i := 0;
    while i < |keys|
      invariant i <= |keys| && |list.items| <= MAXIMUM_CHANGES
      invariant depth + MemberLevels(b, a, keys[..i]) <= MAXIMUM_DEPTH
      invariant list.items == old(list.items) + ShownAll(path, MemberChanges(b, a, keys[..i]))
    {
      MembersStep(path, b, a, keys, i);
      Regroup(old(list.items), ShownAll(path, MemberChanges(b, a, keys[..i])), ShownAll(path, MemberChange(b, a, keys[i])));
      ok := AppendMember(list, path, b, a, keys[i], depth);
      if !ok {
        return;
      }
      i := i + 1;
    }
    assert keys[..i] == keys;
    ok := true;
  }

  ghost function KeyLevels(b: JSON, a: JSON, key: string): nat
    requires b.Object? && a.Object?
  {
    if key in b.members && key in a.members then 1 + Levels(b.members[key], a.members[key]) else 0
  }

  lemma MembersStep(path: string, b: JSON, a: JSON, keys: seq<string>, i: nat)
    requires b.Object? && a.Object? && i < |keys| && forall k <- keys :: k in b.members || k in a.members
    ensures MemberLevels(b, a, keys[..i + 1]) == Max(MemberLevels(b, a, keys[..i]), KeyLevels(b, a, keys[i]))
    ensures MemberLevels(b, a, keys[..i + 1]) <= MemberLevels(b, a, keys)
    ensures |MemberChanges(b, a, keys[..i])| + |MemberChange(b, a, keys[i])| <= |MemberChanges(b, a, keys)|
    ensures ShownAll(path, MemberChanges(b, a, keys[..i + 1]))
         == ShownAll(path, MemberChanges(b, a, keys[..i])) + ShownAll(path, MemberChange(b, a, keys[i]))
  {
    MembersGrow(b, a, keys, i + 1);
    assert keys[..i + 1][..i] == keys[..i];
    ShownJoins(path, MemberChanges(b, a, keys[..i]), MemberChange(b, a, keys[i]));
  }

  method AppendMember(list: ChangeList, path: string, b: JSON, a: JSON, key: string, depth: nat) returns (ok: bool)
    requires |list.items| <= MAXIMUM_CHANGES && b.Object? && a.Object? && depth <= MAXIMUM_DEPTH
    requires key in b.members || key in a.members
    modifies list
    ensures |list.items| <= MAXIMUM_CHANGES
    ensures ok <==> depth + KeyLevels(b, a, key) <= MAXIMUM_DEPTH &&
                    |old(list.items)| + |MemberChange(b, a, key)| <= MAXIMUM_CHANGES
    ensures ok ==> list.items == old(list.items) + ShownAll(path, MemberChange(b, a, key))
    decreases b, 0
  {
    var childPath := path + "/" + Escape(key);
    if key !in b.members {
      ShownOne(path, key, Add(a.members[key]));
      ok := list.Append(EntryOf(childPath, Add(a.members[key])));
    } else if key !in a.members {
      ShownOne(path, key, Remove(b.members[key]));
      ok := list.Append(EntryOf(childPath, Remove(b.members[key])));
    } else {
      ShownUnder(path, key, Changes(b.members[key], a.members[key]));
      ok := AppendChanges(list, childPath, b.members[key], a.members[key], depth + 1);
    }
  }

  lemma ShownJoins(path: string, xs: seq<Change>, ys: seq<Change>)
    ensures ShownAll(path, xs + ys) == ShownAll(path, xs) + ShownAll(path, ys)
  {
  }

  lemma ShownOne(path: string, t: string, e: Edit)
    ensures ShownAll(path, [Change([t], e)]) == [EntryOf(path + "/" + Escape(t), e)]
  {
    assert [t][1..] == [] && Pointer([t]) == "/" + Escape(t) + Pointer([]) == "/" + Escape(t);
    assert path + ("/" + Escape(t)) == path + "/" + Escape(t);
  }

  lemma ShownBelow(path: string, t: string, c: Change)
    ensures Shown(path, Change([t] + c.path, c.edit)) == Shown(path + "/" + Escape(t), c)
  {
    assert ([t] + c.path)[1..] == c.path;
    assert path + ("/" + Escape(t) + Pointer(c.path)) == path + "/" + Escape(t) + Pointer(c.path);
  }

  lemma ShownUnder(path: string, t: string, cs: seq<Change>)
    ensures ShownAll(path, Under(t, cs)) == ShownAll(path + "/" + Escape(t), cs)
  {
    forall i | 0 <= i < |cs| ensures ShownAll(path, Under(t, cs))[i] == ShownAll(path + "/" + Escape(t), cs)[i] {
      ShownBelow(path, t, cs[i]);
    }
  }

  /** The keys of both objects, each once, sorted. */
  method CollectKeys(b: JSON, a: JSON) returns (keys: seq<string>)
    requires b.Object? && a.Object?
    ensures keys == AllKeys(b, a)
  {
    keys := [];
    var seen: set<string> := {};
    var rest := b.members.Keys;
    while rest != {}
      invariant seen == Elements(keys) && seen + rest == b.members.Keys
    {
      var key :| key in rest;
      rest := rest - {key};
      seen := seen + {key};
      ElementsPlus(keys, key);
      keys := keys + [key];
    }
    keys := AddUnseen(keys, seen, a.members.Keys);
    SortedIs(keys);
    keys := SortedDistinct(keys);
  }

  method AddUnseen(start: seq<string>, seen: set<string>, more: set<string>) returns (keys: seq<string>)
    requires Elements(start) == seen
    ensures Elements(keys) == seen + more
  {
    keys := start;
    var rest := more;
    while rest != {}
      invariant rest <= more && Elements(keys) == seen + (more - rest)
    {
      var key :| key in rest;
      rest := rest - {key};
      if key !in seen {
        ElementsPlus(keys, key);
        keys := keys + [key];
      }
    }
  }

  lemma ArrayParts(path: string, b: JSON, a: JSON)
    requires b.Array? && a.Array?
    ensures var n := Shared(b, a);
            var (s, r, d) := (SharedChanges(b, a, n), Removals(b.items, n), Additions(a.items, n, |a.items|));
            |Changes(b, a)| == |s| + |r| + |d| && Levels(b, a) == SharedLevels(b, a, n) &&
            ShownAll(path, Changes(b, a)) == ShownAll(path, s) + ShownAll(path, r) + ShownAll(path, d)
  {
    var n := Shared(b, a);
    ShownJoins(path, SharedChanges(b, a, n), Removals(b.items, n));
    ShownJoins(path, SharedChanges(b, a, n) + Removals(b.items, n), Additions(a.items, n, |a.items|));
  }

  method AppendItems(list: ChangeList, path: string, b: JSON, a: JSON, depth: nat) returns (ok: bool)
    requires |list.items| <= MAXIMUM_CHANGES && b.Array? && a.Array? && depth <= MAXIMUM_DEPTH
    modifies list
    ensures |list.items| <= MAXIMUM_CHANGES
    ensures var n := Shared(b, a);
            var (s, r, d) := (SharedChanges(b, a, n), Removals(b.items, n), Additions(a.items, n, |a.items|));
            (ok <==> depth + SharedLevels(b, a, n) <= MAXIMUM_DEPTH &&
                     |old(list.items)| + |s| + |r| + |d| <= MAXIMUM_CHANGES) &&
            (ok ==> list.items == old(list.items) + (ShownAll(path, s) + ShownAll(path, r) + ShownAll(path, d)))
    decreases b, 2
  {
    var shared := Shared(b, a);
    ghost var both := ShownAll(path, SharedChanges(b, a, shared)) + ShownAll(path, Removals(b.items, shared));
    Regroup(list.items, ShownAll(path, SharedChanges(b, a, shared)), ShownAll(path, Removals(b.items, shared)));
    Regroup(list.items, both, ShownAll(path, Additions(a.items, shared, |a.items|)));
    ok := AppendShared(list, path, b, a, shared, depth);
    if !ok {
      return;
    }
    ok := AppendRemovals(list, path, b.items, shared);
    if !ok {
      return;
    }
    ok := AppendAdditions(list, path, a.items, shared);
  }

  method AppendShared(list: ChangeList, path: string, b: JSON, a: JSON, shared: nat, depth: nat) returns (ok: bool)
    requires |list.items| <= MAXIMUM_CHANGES && b.Array? && a.Array? && depth <= MAXIMUM_DEPTH
    requires shared <= |b.items| && shared <= |a.items|
    modifies list
    ensures |list.items| <= MAXIMUM_CHANGES
    ensures ok <==> depth + SharedLevels(b, a, shared) <= MAXIMUM_DEPTH &&
                    |old(list.items)| + |SharedChanges(b, a, shared)| <= MAXIMUM_CHANGES
    ensures ok ==> list.items == old(list.items) + ShownAll(path, SharedChanges(b, a, shared))
    decreases b, 0
  {
    var index := 0;
    while index < shared
      invariant index <= shared && |list.items| <= MAXIMUM_CHANGES
      invariant depth + SharedLevels(b, a, index) <= MAXIMUM_DEPTH
      invariant list.items == old(list.items) + ShownAll(path, SharedChanges(b, a, index))
    {
      SharedStep(old(list.items), path, b, a, index, shared);
      ok := AppendChanges(list, path + "/" + Decimal(index), b.items[index], a.items[index], depth + 1);
      if !ok {
        return;
      }
      index := index + 1;
    }
    ok := true;
  }

  lemma SharedStep(was: seq<Entry>, path: string, b: JSON, a: JSON, i: nat, n: nat)
    requires b.Array? && a.Array? && i < n <= |b.items| && n <= |a.items|
    ensures SharedLevels(b, a, i + 1) == Max(SharedLevels(b, a, i), 1 + Levels(b.items[i], a.items[i])) <= SharedLevels(b, a, n)
    ensures |SharedChanges(b, a, i)| + |Changes(b.items[i], a.items[i])| <= |SharedChanges(b, a, n)|
    ensures was + ShownAll(path, SharedChanges(b, a, i + 1))
         == was + ShownAll(path, SharedChanges(b, a, i)) + ShownAll(path + "/" + Decimal(i), Changes(b.items[i], a.items[i]))
  {
    var cs := Changes(b.items[i], a.items[i]);
    SharedGrow(b, a, i + 1, n);
    ShownUnder(path, Decimal(i), cs);
    ShownJoins(path, SharedChanges(b, a, i), Under(Decimal(i), cs));
    EscapeDecimal(i);
    Regroup(was, ShownAll(path, SharedChanges(b, a, i)), ShownAll(path, Under(Decimal(i), cs)));
  }

  lemma EscapeDecimal(n: nat)
    ensures Escape(Decimal(n)) == Decimal(n)
  {
    DecimalDigits(n);
    ReplacesNothing(Decimal(n), '~', "~0");
    ReplacesNothing(Decimal(n), '/', "~1");
  }

  lemma {:induction false} ReplacesNothing(s: string, c: char, w: string)
    requires c !in s
    ensures Replaced(s, c, w) == s
  {
    if s != [] { ReplacesNothing(s[1..], c, w); }
  }

  lemma RemovalStep(was: seq<Entry>, path: string, items: seq<JSON>, index: nat, low: nat)
    requires low <= index < |items|
    ensures var e := EntryOf(path + "/" + Decimal(index), Remove(items[index]));
            was + ShownAll(path, Removals(items[..index + 1], low)) == was + [e] + ShownAll(path, Removals(items[..index], low))
  {
    var c := Change([Decimal(index)], Remove(items[index]));
    var rest := Removals(items[..index], low);
    assert items[..index + 1][..index] == items[..index];
    ShownOne(path, Decimal(index), c.edit);
    ShownJoins(path, [c], rest);
    EscapeDecimal(index);
    Regroup(was, ShownAll(path, [c]), ShownAll(path, rest));
  }

  method AppendRemovals(list: ChangeList, path: string, items: seq<JSON>, low: nat) returns (ok: bool)
    requires |list.items| <= MAXIMUM_CHANGES && low <= |items|
    modifies list
    ensures |list.items| <= MAXIMUM_CHANGES
    ensures ok <==> |old(list.items)| + |Removals(items, low)| <= MAXIMUM_CHANGES
    ensures ok ==> list.items == old(list.items) + ShownAll(path, Removals(items, low))
  {
    var index := |items| - 1;
    assert items[..index + 1] == items;
    while index >= low
      invariant low - 1 <= index < |items| && |list.items| <= MAXIMUM_CHANGES
      invariant list.items + ShownAll(path, Removals(items[..index + 1], low)) == old(list.items) + ShownAll(path, Removals(items, low))
    {
      RemovalStep(list.items, path, items, index, low);
      ok := list.Append(EntryOf(path + "/" + Decimal(index), Remove(items[index])));
      if !ok {
        return;
      }
      index := index - 1;
    }
    ok := true;
  }

  /** The list so far, seen from where it started. */
  ghost predicate Added(start: seq<Entry>, now: seq<Entry>, path: string, items: seq<JSON>, low: nat, high: nat)
    requires low <= high <= |items|
  {
    now == start + ShownAll(path, Additions(items, low, high))
  }

  lemma AdditionStep(start: seq<Entry>, now: seq<Entry>, path: string, items: seq<JSON>, index: nat, low: nat)
    requires low <= index < |items| && Added(start, now, path, items, low, index)
    ensures Added(start, now + [EntryOf(path + "/" + Decimal(index), Add(items[index]))], path, items, low, index + 1)
  {
    var c := Change([Decimal(index)], Add(items[index]));
    ShownOne(path, Decimal(index), c.edit);
    ShownJoins(path, Additions(items, low, index), [c]);
    EscapeDecimal(index);
    Regroup(start, ShownAll(path, Additions(items, low, index)), ShownAll(path, [c]));
  }

  method AppendAdditions(list: ChangeList, path: string, items: seq<JSON>, low: nat) returns (ok: bool)
    requires |list.items| <= MAXIMUM_CHANGES && low <= |items|
    modifies list
    ensures |list.items| <= MAXIMUM_CHANGES
    ensures ok <==> |old(list.items)| + |Additions(items, low, |items|)| <= MAXIMUM_CHANGES
    ensures ok ==> list.items == old(list.items) + ShownAll(path, Additions(items, low, |items|))
  {
    AdditionsCount(items, low, |items|);
    var index := low;
    ghost var start := list.items;
    assert Added(start, start, path, items, low, low) by { assert start + [] == start; }
    while index < |items|
      invariant low <= index <= |items| && |list.items| <= MAXIMUM_CHANGES
      invariant |list.items| == |start| + index - low
      invariant Added(start, list.items, path, items, low, index)
    {
      AdditionStep(start, list.items, path, items, index, low);
      ok := list.Append(EntryOf(path + "/" + Decimal(index), Add(items[index])));
      if !ok {
        return;
      }
      index := index + 1;
    }
    ok := true;
  }

  lemma {:induction false} AdditionsCount(items: seq<JSON>, low: nat, high: nat)
    requires low <= high <= |items|
    ensures |Additions(items, low, high)| == high - low
    decreases high
  {
    if low < high { AdditionsCount(items, low, high - 1); }
  }

  /** The diff of two values: it succeeds exactly within the two limits. */
  method Compare(b: JSON, a: JSON) returns (r: Result<seq<Entry>, DiffError>)
    ensures r.Ok? <==> Levels(b, a) <= MAXIMUM_DEPTH && |Changes(b, a)| <= MAXIMUM_CHANGES
    ensures r.Ok? ==> r.value == ShownAll("", Changes(b, a))
  {
    var list := new ChangeList();
    var ok := AppendChanges(list, "", b, a, 0);
    r := if ok then Ok(list.items) else Err(TooComplex);
  }
}
