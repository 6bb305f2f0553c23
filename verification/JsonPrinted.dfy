/** The printed diff read as a patch document, and exactly when it is one. */
module JsonPrinted {
  import opened Wrappers
  import opened Texts
  import opened JsonPatch
  import opened JsonDiff
  import opened JsonCompare

  /** A printed change, read as section 4 of RFC 6902 reads it: an add or a replace
      must have its value. */
  function PatchEntry(doc: JSON, e: Entry): Option<JSON> {
    var path := ParsePointer(e.path);
    if path.None? then None
    else
      match e.operation
      case Adding => if e.after.None? then None else Patch(doc, path.value, Add(e.after.value))
      case Removing => Patch(doc, path.value, Remove(Null))
      case Replacing => if e.after.None? then None else Patch(doc, path.value, Replace(Null, e.after.value))
  }

  function PatchEntries(doc: JSON, es: seq<Entry>): Option<JSON>
    decreases |es|
  {
    if es == [] then Some(doc)
    else
      var r := PatchEntry(doc, es[0]);
      if r.None? then None else PatchEntries(r.value, es[1..])
  }

  /** The printed inverse, last change first. */
  function InvertEntry(e: Entry): Entry {
    var operation := match e.operation case Adding => Removing case Removing => Adding case Replacing => Replacing;
    Entry(operation, e.path, e.after, e.before)
  }

  function InvertedEntries(es: seq<Entry>): seq<Entry> {
    if es == [] then [] else InvertedEntries(es[1..]) + [InvertEntry(es[0])]
  }

  lemma {:induction false} PatchIgnoresBefore(doc: JSON, path: seq<string>, e: Edit, f: Edit)
    requires JsonPatch.After(e) == JsonPatch.After(f) && (e.Add? <==> f.Add?)
    ensures Patch(doc, path, e) == Patch(doc, path, f)
    decreases |path|
  {
    if |path| > 1 && Child(doc, path[0]).Some? { PatchIgnoresBefore(Child(doc, path[0]).value, path[1..], e, f); }
  }

  lemma ShownParses(c: Change)
    requires c.path != []
    ensures ParsePointer(Shown("", c).path) == Some(c.path)
  {
    PointerInverts(c.path);
    assert "" + Pointer(c.path) == Pointer(c.path) != "";
  }

  lemma ShownReadsBack(doc: JSON, c: Change)
    requires c.path != []
    ensures PatchEntry(doc, Shown("", c)) == if JsonPatch.After(c.edit) == Some(Null) then None else Patch(doc, c.path, c.edit)
  {
    ShownParses(c);
    match c.edit {
      case Add(v) =>
      case Remove(v) => PatchIgnoresBefore(doc, c.path, c.edit, Remove(Null));
      case Replace(_, v) => PatchIgnoresBefore(doc, c.path, c.edit, Replace(Null, v));
    }
  }

  /** The old or the new value of some change is null. */
  predicate MentionsNull(cs: seq<Change>, prior: bool) { exists i | 0 <= i < |cs| :: Side(cs[i].edit, prior) == Some(Null) }

  function Side(e: Edit, prior: bool): Option<JSON> { if prior then JsonPatch.Before(e) else JsonPatch.After(e) }

  lemma EntriesStep(doc: JSON, cs: seq<Change>)
    requires cs != [] && cs[0].path != []
    ensures var r := Patch(doc, cs[0].path, cs[0].edit);
            PatchEntries(doc, ShownAll("", cs)) ==
            if JsonPatch.After(cs[0].edit) == Some(Null) || r.None? then None
            else PatchEntries(r.value, ShownAll("", cs[1..]))
  {
    ShownReadsBack(doc, cs[0]);
    assert ShownAll("", cs)[1..] == ShownAll("", cs[1..]);
  }

  /** Changes below the root print as the patch they are, unless a new value is null:
      its change then reads as no patch at all. */
  lemma {:induction false} EntriesPatch(doc: JSON, cs: seq<Change>)
    requires forall i | 0 <= i < |cs| :: cs[i].path != []
    ensures MentionsNull(cs, false) ==> PatchEntries(doc, ShownAll("", cs)).None?
    ensures !MentionsNull(cs, false) ==> PatchEntries(doc, ShownAll("", cs)) == PatchAll(doc, cs)
    decreases |cs|
  {
    if cs != [] {
      EntriesStep(doc, cs);
      FirstMention(cs, false);
      var r := Patch(doc, cs[0].path, cs[0].edit);
      if r.Some? { EntriesPatch(r.value, cs[1..]); }
    }
  }

  lemma FirstMention(cs: seq<Change>, prior: bool)
    requires cs != []
    ensures MentionsNull(cs, prior) <==> Side(cs[0].edit, prior) == Some(Null) || MentionsNull(cs[1..], prior)
  {
    if MentionsNull(cs, prior) {
      var i :| 0 <= i < |cs| && Side(cs[i].edit, prior) == Some(Null);
      if i > 0 { assert cs[1..][i - 1] == cs[i]; }
    }
    if MentionsNull(cs[1..], prior) {
      var i :| 0 <= i < |cs[1..]| && Side(cs[1..][i].edit, prior) == Some(Null);
      assert cs[i + 1] == cs[1..][i];
    }
  }

  // ------------------------------------------------------- where a null comes or goes

  /** Some place that the two values do not share has null in the old one, or in the new one. */
  predicate DiffersAtNull(b: JSON, a: JSON, prior: bool) {
    if b.Object? && a.Object? then
      (exists k | k in b.members && k in a.members :: DiffersAtNull(b.members[k], a.members[k], prior)) ||
      (if prior then exists k | k in b.members :: k !in a.members && b.members[k] == Null
       else exists k | k in a.members :: k !in b.members && a.members[k] == Null)
    else if b.Array? && a.Array? then
      (exists i | 0 <= i < |b.items| && i < |a.items| :: DiffersAtNull(b.items[i], a.items[i], prior)) ||
      (if prior then NullAt(b.items, |a.items|, |b.items|) else NullAt(a.items, |b.items|, |a.items|))
    else b != a && (if prior then b else a) == Null
  }

  lemma MentionsJoin(xs: seq<Change>, ys: seq<Change>, prior: bool)
    ensures MentionsNull(xs + ys, prior) <==> MentionsNull(xs, prior) || MentionsNull(ys, prior)
  {
    var all := xs + ys;
    if MentionsNull(xs, prior) {
      var i :| 0 <= i < |xs| && Side(xs[i].edit, prior) == Some(Null);
      assert all[i] == xs[i];
    }
    if MentionsNull(ys, prior) {
      var i :| 0 <= i < |ys| && Side(ys[i].edit, prior) == Some(Null);
      assert all[|xs| + i] == ys[i];
    }
  }

  lemma MentionsUnder(t: string, cs: seq<Change>, prior: bool)
    ensures MentionsNull(Under(t, cs), prior) <==> MentionsNull(cs, prior)
  {
    var u := Under(t, cs);
    assert forall i | 0 <= i < |cs| :: u[i].edit == cs[i].edit;
  }

  lemma MentionsOne(c: Change, prior: bool)
    ensures MentionsNull([c], prior) <==> Side(c.edit, prior) == Some(Null)
  {
    assert [c][0] == c;
  }

  predicate KeyDiffersAtNull(b: JSON, a: JSON, key: string, prior: bool)
    requires b.Object? && a.Object?
  {
    if key in b.members && key in a.members then DiffersAtNull(b.members[key], a.members[key], prior)
    else if prior then key in b.members && b.members[key] == Null
    else key in a.members && a.members[key] == Null
  }

  predicate SomeKeyDiffers(b: JSON, a: JSON, keys: seq<string>, prior: bool)
    requires b.Object? && a.Object?
  {
    exists k <- keys :: KeyDiffersAtNull(b, a, k, prior)
  }

  lemma LastKeyDiffers(b: JSON, a: JSON, front: seq<string>, key: string, prior: bool)
    requires b.Object? && a.Object?
    ensures SomeKeyDiffers(b, a, front + [key], prior) <==>
            SomeKeyDiffers(b, a, front, prior) || KeyDiffersAtNull(b, a, key, prior)
  {
    assert forall k :: k in front + [key] <==> k in front || k == key;
    assert key in front + [key];
  }

  /** A change of the diff mentions a null exactly where the two values differ at one. */
  lemma {:induction false} MentionsIffDiffers(b: JSON, a: JSON, prior: bool)
    ensures MentionsNull(Changes(b, a), prior) <==> DiffersAtNull(b, a, prior)
    decreases b, 1, 0
  {
    if b.Object? && a.Object? {
      MembersMention(b, a, AllKeys(b, a), prior);
      assert Elements(AllKeys(b, a)) == b.members.Keys + a.members.Keys;
      ObjectDiffers(b, a, AllKeys(b, a), prior);
    } else if b.Array? && a.Array? {
      var n := Shared(b, a);
      SharedMention(b, a, n, prior);
      RemovalsMention(b.items, n, prior);
      AdditionsMention(a.items, n, |a.items|, prior);
      MentionsJoin(SharedChanges(b, a, n), Removals(b.items, n), prior);
      MentionsJoin(SharedChanges(b, a, n) + Removals(b.items, n), Additions(a.items, n, |a.items|), prior);
      ArrayDiffers(b, a, prior);
    } else if b != a {
      MentionsOne(Change([], Replace(b, a)), prior);
    }
  }

  lemma ObjectDiffers(b: JSON, a: JSON, keys: seq<string>, prior: bool)
    requires b.Object? && a.Object? && Elements(keys) == b.members.Keys + a.members.Keys
    ensures DiffersAtNull(b, a, prior) <==> SomeKeyDiffers(b, a, keys, prior)
  {
    assert forall k :: k in keys <==> k in Elements(keys);
    if DiffersAtNull(b, a, prior) {
      if k :| k in b.members && k in a.members && DiffersAtNull(b.members[k], a.members[k], prior) {
        assert k in keys && KeyDiffersAtNull(b, a, k, prior);
      } else if prior {
        var k :| k in b.members && k !in a.members && b.members[k] == Null;
        assert k in keys && KeyDiffersAtNull(b, a, k, prior);
      } else {
        var k :| k in a.members && k !in b.members && a.members[k] == Null;
        assert k in keys && KeyDiffersAtNull(b, a, k, prior);
      }
    }
  }

  lemma {:induction false} MembersMention(b: JSON, a: JSON, keys: seq<string>, prior: bool)
    requires b.Object? && a.Object? && forall k <- keys :: k in b.members || k in a.members
    ensures MentionsNull(MemberChanges(b, a, keys), prior) <==> SomeKeyDiffers(b, a, keys, prior)
    decreases b, 0, |keys|
  {
    if keys != [] {
      var front, key := keys[..|keys| - 1], keys[|keys| - 1];
      MembersMention(b, a, front, prior);
      if key in b.members && key in a.members {
        MentionsIffDiffers(b.members[key], a.members[key], prior);
        MentionsUnder(key, Changes(b.members[key], a.members[key]), prior);
      } else {
        MentionsOne(MemberChange(b, a, key)[0], prior);
      }
      MentionsJoin(MemberChanges(b, a, front), MemberChange(b, a, key), prior);
      assert keys == front + [key];
      LastKeyDiffers(b, a, front, key, prior);
    }
  }

  predicate IndexDiffersAtNull(b: JSON, a: JSON, i: nat, prior: bool)
    requires b.Array? && a.Array? && i < |b.items| && i < |a.items|
  {
    DiffersAtNull(b.items[i], a.items[i], prior)
  }

  lemma ArrayDiffers(b: JSON, a: JSON, prior: bool)
    requires b.Array? && a.Array?
    ensures var n := Shared(b, a);
            DiffersAtNull(b, a, prior) <==>
            (exists i | 0 <= i < n :: IndexDiffersAtNull(b, a, i, prior)) ||
            (prior && NullAt(b.items, n, |b.items|)) || (!prior && NullAt(a.items, n, |a.items|))
  {
    var n := Shared(b, a);
    assert forall i: nat | i < n :: IndexDiffersAtNull(b, a, i, prior) <==> DiffersAtNull(b.items[i], a.items[i], prior);
    if exists i: int :: 0 <= i < |b.items| && i < |a.items| && DiffersAtNull(b.items[i], a.items[i], prior) {
      var i: int :| 0 <= i < |b.items| && i < |a.items| && DiffersAtNull(b.items[i], a.items[i], prior);
      assert IndexDiffersAtNull(b, a, i, prior);
    }
  }

  lemma {:induction false} SharedMention(b: JSON, a: JSON, n: nat, prior: bool)
    requires b.Array? && a.Array? && n <= |b.items| && n <= |a.items|
    ensures MentionsNull(SharedChanges(b, a, n), prior) <==> exists i | 0 <= i < n :: IndexDiffersAtNull(b, a, i, prior)
    decreases b, 0, n
  {
    if n > 0 {
      var cs := Changes(b.items[n - 1], a.items[n - 1]);
      SharedMention(b, a, n - 1, prior);
      MentionsIffDiffers(b.items[n - 1], a.items[n - 1], prior);
      MentionsUnder(Decimal(n - 1), cs, prior);
      MentionsJoin(SharedChanges(b, a, n - 1), Under(Decimal(n - 1), cs), prior);
      assert IndexDiffersAtNull(b, a, n - 1, prior) <==> MentionsNull(cs, prior);
    }
  }

  predicate NullAt(items: seq<JSON>, low: nat, high: nat)
    requires high <= |items|
  {
    exists i | low <= i < high :: items[i] == Null
  }

  lemma NullAtLast(items: seq<JSON>, low: nat, high: nat)
    requires low < high <= |items|
    ensures NullAt(items, low, high) <==> NullAt(items, low, high - 1) || items[high - 1] == Null
    ensures NullAt(items[..high - 1], low, high - 1) <==> NullAt(items, low, high - 1)
  {
    var front := items[..high - 1];
    assert forall i | low <= i < high - 1 :: front[i] == items[i];
  }

  lemma {:induction false} RemovalsMention(items: seq<JSON>, low: nat, prior: bool)
    ensures MentionsNull(Removals(items, low), prior) <==> prior && NullAt(items, low, |items|)
    decreases |items|
  {
    if |items| > low {
      var last := |items| - 1;
      var c := Change([Decimal(last)], Remove(items[last]));
      NullAtLast(items, low, |items|);
      RemovalsMention(items[..last], low, prior);
      MentionsOne(c, prior);
      MentionsJoin([c], Removals(items[..last], low), prior);
    }
  }

  lemma {:induction false} AdditionsMention(items: seq<JSON>, low: nat, high: nat, prior: bool)
    requires low <= high <= |items|
    ensures MentionsNull(Additions(items, low, high), prior) <==> !prior && NullAt(items, low, high)
    decreases high
  {
    if low < high {
      var c := Change([Decimal(high - 1)], Add(items[high - 1]));
      NullAtLast(items, low, high);
      AdditionsMention(items, low, high - 1, prior);
      MentionsOne(c, prior);
      MentionsJoin(Additions(items, low, high - 1), [c], prior);
    }
  }

  // ------------------------------------------------------------------ the exact conditions

  /** Read as a patch document, the printed diff turns the old value into the new one if
      and only if the root is not replaced and no added or replaced place is null in the
      new value. */
  lemma PrintedIsPatchIff(b: JSON, a: JSON)
    ensures PatchEntries(b, ShownAll("", Changes(b, a))) == Some(a) <==>
            (b == a || BothContainers(b, a)) && !DiffersAtNull(b, a, false)
  {
    MentionsIffDiffers(b, a, false);
    if b == a || BothContainers(b, a) {
      EmptyIffEqual(b, a);
      PlacesIndependent(b, a);
      DiffIsPatch(b, a);
      EntriesPatch(b, Changes(b, a));
    } else {
      RootPrintsAsSlash(b, a);
    }
  }

  lemma SlashParses()
    ensures ParsePointer("/") == Some([""])
  {
    PointerInverts([""]);
    assert Pointer([""]) == "/" + Escape("") + Pointer([]) == "/";
  }

  lemma RootPrintsAsSlash(b: JSON, a: JSON)
    requires b != a && !BothContainers(b, a)
    ensures ShownAll("", Changes(b, a)) == [EntryOf("/", Replace(b, a))]
    ensures PatchEntries(b, [EntryOf("/", Replace(b, a))]) != Some(a)
  {
    assert Pointer([]) == "";
    SlashParses();
    var r := PatchHere(b, "", Replace(Null, a));
    assert [EntryOf("/", Replace(b, a))][1..] == [];
    assert Patch(b, [""], Replace(Null, a)) == r;
  }

  /** Two containers whose printed diff is no patch: a member that comes with a null. */
  lemma NullIsNotPrinted()
    ensures var b, a := Object(map[]), Object(map["x" := Null]);
            BothContainers(b, a) && ShownAll("", Changes(b, a)) == [Entry(Adding, "/x", None, None)] &&
            PatchEntries(b, ShownAll("", Changes(b, a))) == None
  {
    var b, a := Object(map[]), Object(map["x" := Null]);
    var keys := AllKeys(b, a);
    assert Elements(["x"]) == {"x"} == b.members.Keys + a.members.Keys;
    IncreasingUnique(keys, ["x"]);
    assert keys[..0] == [];
    var c := Change(["x"], Add(Null));
    assert Changes(b, a) == [] + [c] == [c];
    assert Escape("x") == "x" && Pointer(["x"]) == "/" + Escape("x") + Pointer([]) == "/x";
    assert Shown("", c) == Entry(Adding, "/x", None, None);
    MentionsOne(c, false);
    EntriesPatch(b, [c]);
  }

  // ------------------------------------------------------------------- printed and inverted

  lemma {:induction false} InvertedPrints(cs: seq<Change>)
    ensures InvertedEntries(ShownAll("", cs)) == ShownAll("", Inverted(cs))
    decreases |cs|
  {
    if cs != [] {
      var es := ShownAll("", cs);
      assert es[1..] == ShownAll("", cs[1..]);
      InvertedPrints(cs[1..]);
      assert InvertEntry(es[0]) == Shown("", Invert(cs[0]));
      ShownJoins("", Inverted(cs[1..]), [Invert(cs[0])]);
    }
  }

  lemma {:induction false} InvertedSides(cs: seq<Change>)
    ensures MentionsNull(Inverted(cs), false) <==> MentionsNull(cs, true)
    ensures |Inverted(cs)| == |cs|
    ensures (forall i | 0 <= i < |cs| :: cs[i].path != []) ==> forall i | 0 <= i < |cs| :: Inverted(cs)[i].path != []
    decreases |cs|
  {
    if cs != [] {
      InvertedSides(cs[1..]);
      FirstMention(cs, true);
      MentionsOne(Invert(cs[0]), false);
      MentionsJoin(Inverted(cs[1..]), [Invert(cs[0])], false);
    }
  }

  /** The printed diff, inverted in reverse order, turns the new value into the old one if
      and only if the root is not replaced and no removed or replaced place was null. */
  lemma PrintedRevertsIff(b: JSON, a: JSON)
    ensures PatchEntries(a, InvertedEntries(ShownAll("", Changes(b, a)))) == Some(b) <==>
            (b == a || BothContainers(b, a)) && !DiffersAtNull(b, a, true)
  {
    MentionsIffDiffers(b, a, true);
    InvertedPrints(Changes(b, a));
    InvertedSides(Changes(b, a));
    if b == a || BothContainers(b, a) {
      EmptyIffEqual(b, a);
      PlacesIndependent(b, a);
      DiffIsPatch(b, a);
      EntriesPatch(a, Inverted(Changes(b, a)));
    } else {
      RootPrintsAsSlash(a, b);
      assert Inverted([Change([], Replace(b, a))]) == [] + [Change([], Replace(a, b))];
    }
  }
}
