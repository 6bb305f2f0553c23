/** What the two limits of a diff measure: the depth of the places that both values
    share, and changes of which none replaces a container by another of its kind. */
module JsonDepth {
  import opened Wrappers
  import opened Texts
  import opened JsonPatch
  import opened JsonDiff
  import opened JsonCompare

  /** Both values have the place, through containers of the same kind. */
  predicate BothHave(b: JSON, a: JSON, path: seq<string>)
    decreases |path|
  {
    path == [] ||
    (BothContainers(b, a) && Child(b, path[0]).Some? && Child(a, path[0]).Some? &&
     BothHave(Child(b, path[0]).value, Child(a, path[0]).value, path[1..]))
  }

  lemma {:induction false} MemberWithin(b: JSON, a: JSON, keys: seq<string>, key: string)
    requires b.Object? && a.Object? && forall k <- keys :: k in b.members || k in a.members
    requires key in keys
    ensures KeyLevels(b, a, key) <= MemberLevels(b, a, keys)
    decreases |keys|
  {
    if key != keys[|keys| - 1] {
      var i :| 0 <= i < |keys| && keys[i] == key;
      assert keys[..|keys| - 1][i] == key;
      MemberWithin(b, a, keys[..|keys| - 1], key);
    }
  }

  lemma {:induction false} SharedWithin(b: JSON, a: JSON, n: nat, i: nat)
    requires b.Array? && a.Array? && i < n <= |b.items| && n <= |a.items|
    ensures 1 + Levels(b.items[i], a.items[i]) <= SharedLevels(b, a, n)
    decreases n
  {
    if i < n - 1 { SharedWithin(b, a, n - 1, i); }
  }

  lemma ChildWithin(b: JSON, a: JSON, t: string)
    requires BothContainers(b, a) && Child(b, t).Some? && Child(a, t).Some?
    ensures 1 + Levels(Child(b, t).value, Child(a, t).value) <= Levels(b, a)
  {
    if b.Object? {
      assert t in Elements(AllKeys(b, a));
      MemberWithin(b, a, AllKeys(b, a), t);
    } else {
      SharedWithin(b, a, Shared(b, a), ParseIndex(t).value);
    }
  }

  /** No place that both values share lies deeper than the levels counted. */
  lemma {:induction false} SharedPlacesWithin(b: JSON, a: JSON, path: seq<string>)
    requires BothHave(b, a, path)
    ensures |path| <= Levels(b, a)
    decreases |path|
  {
    if path != [] {
      SharedPlacesWithin(Child(b, path[0]).value, Child(a, path[0]).value, path[1..]);
      ChildWithin(b, a, path[0]);
    }
  }

  lemma BelowChild(b: JSON, a: JSON, t: string, path: seq<string>)
    requires BothContainers(b, a) && Child(b, t).Some? && Child(a, t).Some?
    requires BothHave(Child(b, t).value, Child(a, t).value, path)
    ensures BothHave(b, a, [t] + path)
  {
    assert ([t] + path)[1..] == path;
  }

  /** And one of them lies exactly that deep. */
  lemma {:induction false} DeepestPlace(b: JSON, a: JSON) returns (path: seq<string>)
    ensures BothHave(b, a, path) && |path| == Levels(b, a)
    decreases b, 2, 0
  {
    path := [];
    if b.Object? && a.Object? {
      path := DeepestMember(b, a, AllKeys(b, a));
    } else if b.Array? && a.Array? {
      path := DeepestItem(b, a, Shared(b, a));
    }
  }

  lemma {:induction false} DeepestMember(b: JSON, a: JSON, keys: seq<string>) returns (path: seq<string>)
    requires b.Object? && a.Object? && forall k <- keys :: k in b.members || k in a.members
    ensures BothHave(b, a, path) && |path| == MemberLevels(b, a, keys)
    decreases b, 1, |keys|
  {
    path := [];
    if keys != [] {
      var key := keys[|keys| - 1];
      path := DeepestMember(b, a, keys[..|keys| - 1]);
      if key in b.members && key in a.members {
        var below := DeepestPlace(b.members[key], a.members[key]);
        BelowChild(b, a, key, below);
        if |path| < 1 + |below| { path := [key] + below; }
      }
    }
  }

  lemma {:induction false} DeepestItem(b: JSON, a: JSON, n: nat) returns (path: seq<string>)
    requires b.Array? && a.Array? && n <= |b.items| && n <= |a.items|
    ensures BothHave(b, a, path) && |path| == SharedLevels(b, a, n)
    decreases b, 1, n
  {
    path := [];
    if n > 0 {
      path := DeepestItem(b, a, n - 1);
      var below := DeepestPlace(b.items[n - 1], a.items[n - 1]);
      ParseDecimal(n - 1);
      BelowChild(b, a, Decimal(n - 1), below);
      if |path| < 1 + |below| { path := [Decimal(n - 1)] + below; }
    }
  }

  /** The walk gives up on depth exactly when the two values share a place more than 128
      levels down. */
  lemma TooDeepIff(b: JSON, a: JSON)
    ensures Levels(b, a) > 128 <==> exists path :: BothHave(b, a, path) && |path| > 128
  {
    var deepest := DeepestPlace(b, a);
    if path :| BothHave(b, a, path) && |path| > 128 { SharedPlacesWithin(b, a, path); }
  }

  // -------------------------------------------------------------- what is replaced

  predicate LeavesOnly(cs: seq<Change>) {
    forall i | 0 <= i < |cs| && cs[i].edit.Replace? ::
      cs[i].edit.before != cs[i].edit.after && !BothContainers(cs[i].edit.before, cs[i].edit.after)
  }

  lemma LeavesUnder(t: string, cs: seq<Change>)
    requires LeavesOnly(cs)
    ensures LeavesOnly(Under(t, cs))
  {
    var u := Under(t, cs);
    assert forall i | 0 <= i < |u| :: u[i].edit == cs[i].edit;
  }

  lemma LeavesJoin(xs: seq<Change>, ys: seq<Change>)
    requires LeavesOnly(xs) && LeavesOnly(ys)
    ensures LeavesOnly(xs + ys)
  {
  }

  /** The diff replaces only what differs and cannot be walked into: two objects or two
      arrays are never replaced whole, however deep they lie. */
  lemma {:induction false} ReplacesLeavesOnly(b: JSON, a: JSON)
    ensures LeavesOnly(Changes(b, a))
    decreases b, 2, 0
  {
    if b.Object? && a.Object? {
      MembersLeavesOnly(b, a, AllKeys(b, a));
    } else if b.Array? && a.Array? {
      var n := Shared(b, a);
      SharedLeavesOnly(b, a, n);
      RemovalsReplaceNothing(b.items, n);
      AdditionsReplaceNothing(a.items, n, |a.items|);
      LeavesJoin(SharedChanges(b, a, n), Removals(b.items, n));
      LeavesJoin(SharedChanges(b, a, n) + Removals(b.items, n), Additions(a.items, n, |a.items|));
    }
  }

  lemma {:induction false} MembersLeavesOnly(b: JSON, a: JSON, keys: seq<string>)
    requires b.Object? && a.Object? && forall k <- keys :: k in b.members || k in a.members
    ensures LeavesOnly(MemberChanges(b, a, keys))
    decreases b, 1, |keys|
  {
    if keys != [] {
      var key := keys[|keys| - 1];
      MembersLeavesOnly(b, a, keys[..|keys| - 1]);
      if key in b.members && key in a.members {
        ReplacesLeavesOnly(b.members[key], a.members[key]);
        LeavesUnder(key, Changes(b.members[key], a.members[key]));
      }
      LeavesJoin(MemberChanges(b, a, keys[..|keys| - 1]), MemberChange(b, a, key));
    }
  }

  lemma {:induction false} SharedLeavesOnly(b: JSON, a: JSON, n: nat)
    requires b.Array? && a.Array? && n <= |b.items| && n <= |a.items|
    ensures LeavesOnly(SharedChanges(b, a, n))
    decreases b, 1, n
  {
    if n > 0 {
      SharedLeavesOnly(b, a, n - 1);
      ReplacesLeavesOnly(b.items[n - 1], a.items[n - 1]);
      LeavesUnder(Decimal(n - 1), Changes(b.items[n - 1], a.items[n - 1]));
      LeavesJoin(SharedChanges(b, a, n - 1), Under(Decimal(n - 1), Changes(b.items[n - 1], a.items[n - 1])));
    }
  }

  lemma {:induction false} RemovalsReplaceNothing(items: seq<JSON>, low: nat)
    ensures LeavesOnly(Removals(items, low))
    decreases |items|
  {
    if |items| > low {
      RemovalsReplaceNothing(items[..|items| - 1], low);
    }
  }

  lemma {:induction false} AdditionsReplaceNothing(items: seq<JSON>, low: nat, high: nat)
    requires low <= high <= |items|
    ensures LeavesOnly(Additions(items, low, high))
    decreases high
  {
    if low < high { AdditionsReplaceNothing(items, low, high - 1); }
  }
}
