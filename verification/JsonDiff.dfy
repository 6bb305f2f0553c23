/** The structural diff of two JSON values. */
module JsonDiff {
  import opened Wrappers
  import opened Texts
  import opened JsonPatch

  const MAXIMUM_DEPTH := 128
  const MAXIMUM_CHANGES := 10000

  // -------------------------------------------------------------- the specification

  /** Changes to a child, seen from its parent. */
  function Under(t: string, cs: seq<Change>): (r: seq<Change>)
    ensures |r| == |cs|
  {
    seq(|cs|, i requires 0 <= i < |cs| => Change([t] + cs[i].path, cs[i].edit))
  }

  predicate BothContainers(b: JSON, a: JSON) { (b.Object? && a.Object?) || (b.Array? && a.Array?) }

  ghost function AllKeys(b: JSON, a: JSON): (keys: seq<string>)
    requires b.Object? && a.Object?
    ensures forall k <- keys :: k in b.members || k in a.members
  {
    var keys := Sorted(b.members.Keys + a.members.Keys);
    assert forall k <- keys :: k in Elements(keys);
    keys
  }

  function Shared(b: JSON, a: JSON): nat
    requires b.Array? && a.Array?
  {
    if |a.items| < |b.items| then |a.items| else |b.items|
  }

  ghost function Changes(b: JSON, a: JSON): seq<Change>
    decreases b, 2, 0
  {
    if b.Object? && a.Object? then MemberChanges(b, a, AllKeys(b, a))
    else if b.Array? && a.Array? then
      SharedChanges(b, a, Shared(b, a)) + Removals(b.items, Shared(b, a)) + Additions(a.items, Shared(b, a), |a.items|)
    else if b == a then []
    else [Change([], Replace(b, a))]
  }

  ghost function MemberChange(b: JSON, a: JSON, key: string): seq<Change>
    requires b.Object? && a.Object? && (key in b.members || key in a.members)
    decreases b, 0, 0
  {
    if key !in b.members then [Change([key], Add(a.members[key]))]
    else if key !in a.members then [Change([key], Remove(b.members[key]))]
    else Under(key, Changes(b.members[key], a.members[key]))
  }

  ghost function MemberChanges(b: JSON, a: JSON, keys: seq<string>): seq<Change>
    requires b.Object? && a.Object? && forall k <- keys :: k in b.members || k in a.members
    decreases b, 1, |keys|
  {
    if keys == [] then []
    else MemberChanges(b, a, keys[..|keys| - 1]) + MemberChange(b, a, keys[|keys| - 1])
  }

  /** The changes at the first n indices of two arrays. */
  ghost function SharedChanges(b: JSON, a: JSON, n: nat): seq<Change>
    requires b.Array? && a.Array? && n <= |b.items| && n <= |a.items|
    decreases b, 1, n
  {
    if n == 0 then []
    else SharedChanges(b, a, n - 1) + Under(Decimal(n - 1), Changes(b.items[n - 1], a.items[n - 1]))
  }

  /** Removing the elements from index low on, the last one first. */
  function Removals(items: seq<JSON>, low: nat): seq<Change>
    decreases |items|
  {
    if |items| <= low then []
    else
      var last := |items| - 1;
      [Change([Decimal(last)], Remove(items[last]))] + Removals(items[..last], low)
  }

  function Additions(items: seq<JSON>, low: nat, high: nat): seq<Change>
    requires low <= high <= |items|
    decreases high
  {
    if low == high then []
    else Additions(items, low, high - 1) + [Change([Decimal(high - 1)], Add(items[high - 1]))]
  }

  // ------------------------------------------------------ the diff is a patch

  lemma LiftOne(doc: JSON, t: string, c: Change)
    requires Child(doc, t).Some? && Fits(Child(doc, t).value, c)
    ensures var lifted := Change([t] + c.path, c.edit);
            Fits(doc, lifted) &&
            Patch(doc, lifted.path, c.edit).value == Put(doc, t, Patch(Child(doc, t).value, c.path, c.edit).value)
  {
    var child := Child(doc, t).value;
    var r := Patch(child, c.path, c.edit).value;
    PutBack(doc, t, r, child);
    assert ([t] + c.path)[1..] == c.path;
  }

  /** Changes that turn a child into v turn its parent into the parent with v in its place. */
  lemma {:induction false} Lift(doc: JSON, t: string, cs: seq<Change>)
    requires Child(doc, t).Some? && Replay(Child(doc, t).value, cs).Some?
    ensures Replay(doc, Under(t, cs)) == Some(Put(doc, t, Replay(Child(doc, t).value, cs).value))
    decreases |cs|
  {
    var child := Child(doc, t).value;
    if cs == [] {
      PutBack(doc, t, child, child);
    } else {
      LiftOne(doc, t, cs[0]);
      var r := Patch(child, cs[0].path, cs[0].edit).value;
      PutBack(doc, t, r, Replay(r, cs[1..]).value);
      Lift(Put(doc, t, r), t, cs[1..]);
      assert Under(t, cs)[1..] == Under(t, cs[1..]);
    }
  }

  /** Replaying the diff on the old value gives the new one, and every change in it
      tells the truth about its place. */
  lemma {:induction false} DiffReplays(b: JSON, a: JSON)
    ensures Replay(b, Changes(b, a)) == Some(a)
    decreases b, 1, 0
  {
    if b.Object? && a.Object? {
      var keys := AllKeys(b, a);
      MembersReplay(b, a, keys);
      assert Mixed(b.members, a.members, Elements(keys)) == a.members;
    } else if b.Array? && a.Array? {
      SharedReplays(b, a, Shared(b, a));
      ArrayReplays(b, a, SharedChanges(b, a, Shared(b, a)));
    }
  }

  /** After the shared indices agree, the rest of an array is removed or added. */
  lemma ArrayReplays(b: JSON, a: JSON, cs: seq<Change>)
    requires b.Array? && a.Array?
    requires Replay(b, cs) == Some(Overlaid(b.items, a.items, Shared(b, a)))
    ensures var n := Shared(b, a);
            Replay(b, cs + Removals(b.items, n) + Additions(a.items, n, |a.items|)) == Some(a)
  {
    var n := Shared(b, a);
    var mid := Overlaid(b.items, a.items, n);
    SameRemovals(b.items, mid.items, n);
    RemovalsReplay(mid.items, n);
    ReplayJoins(b, cs, Removals(b.items, n));
    assert mid.items[..n] == a.items[..n];
    AdditionsReplay(a.items, n, |a.items|);
    ReplayJoins(b, cs + Removals(b.items, n), Additions(a.items, n, |a.items|));
    assert a.items[..|a.items|] == a.items;
  }

  /** The array xs with its first n elements taken from ys. */
  function Overlaid(xs: seq<JSON>, ys: seq<JSON>, n: nat): JSON
    requires n <= |xs| && n <= |ys|
  {
    Array(ys[..n] + xs[n..])
  }

  /** The members once the given keys have been brought up to date. */
  ghost function Mixed(bm: map<string, JSON>, am: map<string, JSON>, done: set<string>): map<string, JSON> {
    map k | k in bm.Keys + am.Keys && (if k in done then k in am else k in bm) :: if k in done then am[k] else bm[k]
  }

  lemma {:induction false} MembersReplay(b: JSON, a: JSON, keys: seq<string>)
    requires b.Object? && a.Object? && Increasing(keys) && forall k <- keys :: k in b.members || k in a.members
    ensures Replay(b, MemberChanges(b, a, keys)) == Some(Object(Mixed(b.members, a.members, Elements(keys))))
    decreases b, 0, |keys|
  {
    if keys == [] {
      assert Mixed(b.members, a.members, Elements(keys)) == b.members;
    } else {
      var front, key := keys[..|keys| - 1], keys[|keys| - 1];
      MembersReplay(b, a, front);
      LastIsNew(keys);
      if key in b.members && key in a.members { DiffReplays(b.members[key], a.members[key]); }
      MemberReplays(b, a, key, Object(Mixed(b.members, a.members, Elements(front))), Elements(front));
      ReplayJoins(b, MemberChanges(b, a, front), MemberChange(b, a, key));
    }
  }

  lemma LastIsNew(keys: seq<string>)
    requires Increasing(keys) && keys != []
    ensures var last := keys[|keys| - 1]; var front := keys[..|keys| - 1];
            last !in front && Elements(keys) == Elements(front) + {last}
  {
    assert keys == keys[..|keys| - 1] + [keys[|keys| - 1]];
    forall i | 0 <= i < |keys| - 1 ensures keys[i] != keys[|keys| - 1] {
      LessTrichotomy(keys[i], keys[|keys| - 1]);
    }
  }

  lemma MemberReplays(b: JSON, a: JSON, key: string, doc: JSON, done: set<string>)
    requires b.Object? && a.Object? && (key in b.members || key in a.members) && key !in done
    requires doc == Object(Mixed(b.members, a.members, done))
    requires key in b.members && key in a.members ==>
               Replay(b.members[key], Changes(b.members[key], a.members[key])) == Some(a.members[key])
    ensures Replay(doc, MemberChange(b, a, key)) == Some(Object(Mixed(b.members, a.members, done + {key})))
  {
    var bm, am := b.members, a.members;
    var next := Mixed(bm, am, done + {key});
    if key in bm && key in am {
      Lift(doc, key, Changes(bm[key], am[key]));
      assert doc.members[key := am[key]] == next;
    } else {
      var c := MemberChange(b, a, key)[0];
      if key in am { assert doc.members[key := am[key]] == next; } else { assert doc.members - {key} == next; }
      ReplayOne(doc, c, Object(next));
    }
  }

  lemma ReplayOne(doc: JSON, c: Change, next: JSON)
    requires |c.path| == 1 && PatchHere(doc, c.path[0], c.edit) == Some(next)
    requires Child(doc, c.path[0]) == Before(c.edit) && Child(next, c.path[0]) == JsonPatch.After(c.edit)
    ensures Replay(doc, [c]) == Some(next)
  {
    assert Lookup(doc, c.path) == Child(doc, c.path[0]) && Lookup(next, c.path) == Child(next, c.path[0]);
    assert [c][1..] == [];
  }

  lemma {:induction false} SharedReplays(b: JSON, a: JSON, n: nat)
    requires b.Array? && a.Array? && n <= |b.items| && n <= |a.items|
    ensures Replay(b, SharedChanges(b, a, n)) == Some(Overlaid(b.items, a.items, n))
    decreases b, 0, n
  {
    if n > 0 {
      SharedReplays(b, a, n - 1);
      DiffReplays(b.items[n - 1], a.items[n - 1]);
      IndexReplays(b, a, n - 1, SharedChanges(b, a, n - 1), Changes(b.items[n - 1], a.items[n - 1]));
    } else {
      assert Overlaid(b.items, a.items, 0).items == b.items;
    }
  }

  lemma IndexReplays(b: JSON, a: JSON, i: nat, done: seq<Change>, cs: seq<Change>)
    requires b.Array? && a.Array? && i < |b.items| && i < |a.items|
    requires Replay(b, done) == Some(Overlaid(b.items, a.items, i)) && Replay(b.items[i], cs) == Some(a.items[i])
    ensures Replay(b, done + Under(Decimal(i), cs)) == Some(Overlaid(b.items, a.items, i + 1))
  {
    var doc := Overlaid(b.items, a.items, i);
    ParseDecimal(i);
    Lift(doc, Decimal(i), cs);
    assert doc.items[i := a.items[i]] == Overlaid(b.items, a.items, i + 1).items;
    ReplayJoins(b, done, Under(Decimal(i), cs));
  }

  lemma {:induction false} SameRemovals(xs: seq<JSON>, ys: seq<JSON>, low: nat)
    requires |xs| == |ys| && forall i | low <= i < |xs| :: xs[i] == ys[i]
    ensures Removals(xs, low) == Removals(ys, low)
    decreases |xs|
  {
    if |xs| > low { SameRemovals(xs[..|xs| - 1], ys[..|xs| - 1], low); }
  }

  lemma {:induction false} RemovalsReplay(items: seq<JSON>, low: nat)
    requires low <= |items|
    ensures Replay(Array(items), Removals(items, low)) == Some(Array(items[..low]))
    decreases |items|
  {
    if |items| == low {
      assert items[..low] == items;
    } else {
      var last := |items| - 1;
      var c := Change([Decimal(last)], Remove(items[last]));
      ParseDecimal(last);
      assert items[..last] + items[last + 1..] == items[..last];
      ReplayOne(Array(items), c, Array(items[..last]));
      RemovalsReplay(items[..last], low);
      ReplayJoins(Array(items), [c], Removals(items[..last], low));
      assert items[..last][..low] == items[..low];
    }
  }

  lemma {:induction false} AdditionsReplay(items: seq<JSON>, low: nat, high: nat)
    requires low <= high <= |items|
    ensures Replay(Array(items[..low]), Additions(items, low, high)) == Some(Array(items[..high]))
    decreases high
  {
    if low < high {
      var i := high - 1;
      AdditionsReplay(items, low, i);
      var c := Change([Decimal(i)], Add(items[i]));
      ParseDecimal(i);
      assert items[..i][..i] + [items[i]] + items[..i][i..] == items[..high];
      ReplayOne(Array(items[..i]), c, Array(items[..high]));
      ReplayJoins(Array(items[..low]), Additions(items, low, i), [c]);
    }
  }

  // ------------------------------------------------------------- the main results

  /** Patching the old value with the diff gives the new one; patching the new value
      with the inverted changes in reverse order gives the old one back. */
  lemma DiffIsPatch(b: JSON, a: JSON)
    ensures PatchAll(b, Changes(b, a)) == Some(a)
    ensures PatchAll(a, Inverted(Changes(b, a))) == Some(b)
  {
    DiffReplays(b, a);
    ReplayIsPatch(b, Changes(b, a));
    InvertedUndoes(b, Changes(b, a));
    ReplayIsPatch(a, Inverted(Changes(b, a)));
  }

  /** The diff is empty exactly when the values are equal. */
  lemma EmptyIffEqual(b: JSON, a: JSON)
    ensures Changes(b, a) == [] <==> b == a
  {
    DiffReplays(b, a);
    if b == a { SelfDiff(b); }
  }

  lemma {:induction false} SelfDiff(b: JSON)
    ensures Changes(b, b) == []
    decreases b, 1, 0
  {
    match b
    case Object(m) => SelfMembers(b, AllKeys(b, b));
    case Array(items) => SelfItems(b, |items|);
    case _ =>
  }

  lemma {:induction false} SelfMembers(b: JSON, keys: seq<string>)
    requires b.Object? && forall k <- keys :: k in b.members
    ensures MemberChanges(b, b, keys) == []
    decreases b, 0, |keys|
  {
    if keys != [] {
      SelfMembers(b, keys[..|keys| - 1]);
      SelfDiff(b.members[keys[|keys| - 1]]);
    }
  }

  lemma {:induction false} SelfItems(b: JSON, n: nat)
    requires b.Array? && n <= |b.items|
    ensures SharedChanges(b, b, n) == []
    decreases b, 0, n
  {
    if n > 0 {
      SelfItems(b, n - 1);
      SelfDiff(b.items[n - 1]);
    }
  }

  // --------------------------------------------------------- independent places

  /** No change's place is, or lies above, another's. */
  ghost predicate Independent(cs: seq<Change>) {
    forall i, j | 0 <= i < |cs| && 0 <= j < |cs| && i != j :: !(cs[i].path <= cs[j].path)
  }

  ghost predicate Headed(cs: seq<Change>, heads: set<string>) {
    forall i | 0 <= i < |cs| :: cs[i].path != [] && cs[i].path[0] in heads
  }

  lemma IndependentUnder(t: string, cs: seq<Change>)
    requires Independent(cs)
    ensures Independent(Under(t, cs)) && Headed(Under(t, cs), {t})
  {
    var u := Under(t, cs);
    forall i, j | 0 <= i < |u| && 0 <= j < |u| && i != j ensures !(u[i].path <= u[j].path) {
      assert u[i].path[1..] == cs[i].path && u[j].path[1..] == cs[j].path;
    }
  }

  lemma IndependentJoin(xs: seq<Change>, ys: seq<Change>, hx: set<string>, hy: set<string>)
    requires Independent(xs) && Independent(ys) && Headed(xs, hx) && Headed(ys, hy) && hx !! hy
    ensures Independent(xs + ys) && Headed(xs + ys, hx + hy)
  {
  }

  /** The places of a diff are pairwise independent, and none is the root unless the root is replaced. */
  lemma {:induction false} PlacesIndependent(b: JSON, a: JSON)
    ensures Independent(Changes(b, a))
    ensures BothContainers(b, a) ==> forall i | 0 <= i < |Changes(b, a)| :: Changes(b, a)[i].path != []
    decreases b, 1, 0
  {
    if b.Object? && a.Object? {
      MembersIndependent(b, a, AllKeys(b, a));
    } else if b.Array? && a.Array? {
      var n := Shared(b, a);
      SharedIndependent(b, a, n);
      RemovalsIndependent(b.items, n);
      AdditionsIndependent(a.items, n, |a.items|);
      IndicesDisjoint(0, n, |b.items|);
      IndependentJoin(SharedChanges(b, a, n), Removals(b.items, n), Indices(0, n), Indices(n, |b.items|));
      if |a.items| > n {
        assert Removals(b.items, n) == [];
        IndicesDisjoint(0, n, |a.items|);
        IndependentJoin(SharedChanges(b, a, n), Additions(a.items, n, |a.items|), Indices(0, n), Indices(n, |a.items|));
        assert SharedChanges(b, a, n) + [] == SharedChanges(b, a, n);
      }
    }
  }

  lemma {:induction false} MembersIndependent(b: JSON, a: JSON, keys: seq<string>)
    requires b.Object? && a.Object? && Increasing(keys) && forall k <- keys :: k in b.members || k in a.members
    ensures Independent(MemberChanges(b, a, keys)) && Headed(MemberChanges(b, a, keys), Elements(keys))
    decreases b, 0, |keys|
  {
    if keys != [] {
      var front, key := keys[..|keys| - 1], keys[|keys| - 1];
      MembersIndependent(b, a, front);
      LastIsNew(keys);
      if key in b.members && key in a.members {
        PlacesIndependent(b.members[key], a.members[key]);
        IndependentUnder(key, Changes(b.members[key], a.members[key]));
      }
      IndependentJoin(MemberChanges(b, a, front), MemberChange(b, a, key), Elements(front), {key});
    }
  }

  function Indices(low: nat, high: nat): set<string> { set i | low <= i < high :: Decimal(i) }

  lemma IndicesDisjoint(low: nat, mid: nat, high: nat)
    requires low <= mid
    ensures Indices(low, mid) !! Indices(mid, high)
  {
    forall i, j: nat | low <= i < mid <= j < high ensures Decimal(i) != Decimal(j) {
      ParseDecimal(i);
      ParseDecimal(j);
    }
  }

  lemma {:induction false} SharedIndependent(b: JSON, a: JSON, n: nat)
    requires b.Array? && a.Array? && n <= |b.items| && n <= |a.items|
    ensures Independent(SharedChanges(b, a, n)) && Headed(SharedChanges(b, a, n), Indices(0, n))
    decreases b, 0, n
  {
    if n > 0 {
      var i := n - 1;
      SharedIndependent(b, a, i);
      PlacesIndependent(b.items[i], a.items[i]);
      IndependentUnder(Decimal(i), Changes(b.items[i], a.items[i]));
      IndicesDisjoint(0, i, n);
      IndexJoin(SharedChanges(b, a, i), Under(Decimal(i), Changes(b.items[i], a.items[i])), 0, i);
    }
  }

  lemma IndexJoin(xs: seq<Change>, ys: seq<Change>, low: nat, i: nat)
    requires Independent(xs) && Independent(ys) && Headed(xs, Indices(low, i)) && Headed(ys, {Decimal(i)}) && low <= i
    ensures Independent(xs + ys) && Headed(xs + ys, Indices(low, i + 1))
  {
    IndicesDisjoint(low, i, i + 1);
    assert {Decimal(i)} <= Indices(i, i + 1);
    IndependentJoin(xs, ys, Indices(low, i), {Decimal(i)});
  }

  lemma IndexFirst(c: Change, ys: seq<Change>, low: nat, last: nat)
    requires c.path == [Decimal(last)] && low <= last && Independent(ys) && Headed(ys, Indices(low, last))
    ensures Independent([c] + ys) && Headed([c] + ys, Indices(low, last + 1))
  {
    IndicesDisjoint(low, last, last + 1);
    assert {Decimal(last)} <= Indices(last, last + 1);
    assert Indices(low, last) <= Indices(low, last + 1) && {Decimal(last)} <= Indices(low, last + 1);
    IndependentJoin([c], ys, {Decimal(last)}, Indices(low, last));
  }

  lemma {:induction false} RemovalsIndependent(items: seq<JSON>, low: nat)
    ensures Independent(Removals(items, low)) && Headed(Removals(items, low), Indices(low, |items|))
    decreases |items|
  {
    if |items| > low {
      var last := |items| - 1;
      RemovalsIndependent(items[..last], low);
      IndexFirst(Change([Decimal(last)], Remove(items[last])), Removals(items[..last], low), low, last);
    }
  }

  lemma {:induction false} AdditionsIndependent(items: seq<JSON>, low: nat, high: nat)
    requires low <= high <= |items|
    ensures Independent(Additions(items, low, high)) && Headed(Additions(items, low, high), Indices(low, high))
    decreases high
  {
    if low < high {
      AdditionsIndependent(items, low, high - 1);
      IndexJoin(Additions(items, low, high - 1), [Change([Decimal(high - 1)], Add(items[high - 1]))], low, high - 1);
    }
  }
}
