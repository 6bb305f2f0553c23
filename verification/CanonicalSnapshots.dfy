/** The canonical order of a snapshot, and that its digest does not depend on the
    order of rows. */
module CanonicalSnapshots {
  import opened KeyOrder
  import opened Snapshots

  /** An audit up to the order of its lists. */
  datatype Shape = Shape(tenant: string, project: string, id: string, task: string,
                         artifacts: multiset<string>, evidence: multiset<string>)

  function ShapeOf(a: Audit): Shape {
    Shape(a.tenant, a.project, a.id, a.task, multiset(a.artifacts), multiset(a.evidence))
  }

  function ShapeKey(s: Shape): Key { [s.tenant, s.project, s.id] }

  function Shapes(audits: seq<Audit>): (r: seq<Shape>)
    ensures |r| == |audits|
  {
    seq(|audits|, i requires 0 <= i < |audits| => ShapeOf(audits[i]))
  }

  /** The same graph, whatever the order of rows and of each audit's lists. */
  ghost predicate SameGraph(s: Snapshot, t: Snapshot) {
    s.version == t.version && s.createdAt.instant == t.createdAt.instant &&
    multiset(s.projects) == multiset(t.projects) && multiset(s.goals) == multiset(t.goals) &&
    multiset(s.plans) == multiset(t.plans) && multiset(s.tasks) == multiset(t.tasks) &&
    multiset(Shapes(s.audits)) == multiset(Shapes(t.audits)) && multiset(s.artifacts) == multiset(t.artifacts)
  }

  predicate ListsSorted(a: Audit) { SortedTexts(a.artifacts) && SortedTexts(a.evidence) }

  /** Some order of the rows of a graph in which every table and list is sorted. Which
      one is open: sorting need not keep the order of rows with equal keys. */
  ghost predicate Canonical(c: Snapshot) {
    c.createdAt.zone == 0 && SortedBy(ProjectKey, c.projects) && SortedBy(GoalKey, c.goals) && SortedBy(PlanKey, c.plans) &&
    SortedBy(TaskKey, c.tasks) && SortedBy(AuditKey, c.audits) && SortedBy(ArtifactKey, c.artifacts) &&
    forall i | 0 <= i < |c.audits| :: ListsSorted(c.audits[i])
  }

  // ------------------------------------------------------------------------- sorting

  method CanonicalSnapshot(s: Snapshot) returns (c: Snapshot)
    ensures SameGraph(s, c) && Canonical(c)
  {
    var projects := SortBy(ProjectKey, 2, s.projects);
    var goals := SortBy(GoalKey, 3, s.goals);
    var plans := SortBy(PlanKey, 3, s.plans);
    var tasks := SortBy(TaskKey, 3, s.tasks);
    var artifacts := SortBy(ArtifactKey, 3, s.artifacts);
    var audits := SortLists(s.audits);
    var sorted := SortBy(AuditKey, 3, audits);
    ShapesPermute(sorted, audits);
    forall i | 0 <= i < |sorted| ensures ListsSorted(sorted[i]) {
      assert sorted[i] in multiset(audits);
      var j :| 0 <= j < |audits| && audits[j] == sorted[i];
    }
    c := Snapshot(s.version, Time(s.createdAt.instant, 0), projects, goals, plans, tasks, sorted, artifacts);
  }

  method SortLists(audits: seq<Audit>) returns (r: seq<Audit>)
    ensures Shapes(r) == Shapes(audits) && forall i | 0 <= i < |r| :: ListsSorted(r[i])
  {
    r := [];
    for i := 0 to |audits|
      invariant |r| == i && forall j | 0 <= j < i :: ListsSorted(r[j]) && ShapeOf(r[j]) == ShapeOf(audits[j])
    {
      var artifacts := SortTexts(audits[i].artifacts);
      var evidence := SortTexts(audits[i].evidence);
      r := r + [audits[i].(artifacts := artifacts, evidence := evidence)];
    }
  }

  lemma {:induction false} ShapesPermute(a: seq<Audit>, b: seq<Audit>)
    requires multiset(a) == multiset(b)
    ensures multiset(Shapes(a)) == multiset(Shapes(b))
    decreases |a|
  {
    SameSize(a, b);
    if a != [] {
      var j := TakeOut(a, b);
      ShapesPermute(a[1..], b[..j] + b[j + 1..]);
      FirstShape(a);
      ShapesWithout(b, j);
    } else {
      assert Shapes(a) == Shapes(b);
    }
  }

  lemma Without<T>(s: seq<T>, i: nat)
    requires i < |s|
    ensures multiset(s) == multiset(s[..i] + s[i + 1..]) + multiset{s[i]}
  {
    assert s == s[..i] + [s[i]] + s[i + 1..];
  }

  lemma FirstShape(a: seq<Audit>)
    requires a != []
    ensures multiset(Shapes(a)) == multiset(Shapes(a[1..])) + multiset{ShapeOf(a[0])}
  {
    ShapesWithout(a, 0);
    assert a[..0] + a[1..] == a[1..];
  }

  lemma TakeOut<T>(a: seq<T>, b: seq<T>) returns (j: nat)
    requires multiset(a) == multiset(b) && a != []
    ensures j < |b| && b[j] == a[0] && multiset(a[1..]) == multiset(b[..j] + b[j + 1..])
  {
    assert a[0] in multiset(b);
    j :| 0 <= j < |b| && b[j] == a[0];
    Without(a, 0);
    Without(b, j);
    assert a[..0] + a[1..] == a[1..];
    Cancel(multiset(a[1..]), multiset(b[..j] + b[j + 1..]), a[0]);
  }

  lemma Cancel<T>(x: multiset<T>, y: multiset<T>, t: T)
    requires x + multiset{t} == y + multiset{t}
    ensures x == y
  {
    assert x == (x + multiset{t}) - multiset{t} && y == (y + multiset{t}) - multiset{t};
  }

  lemma ShapesWithout(a: seq<Audit>, i: nat)
    requires i < |a|
    ensures multiset(Shapes(a)) == multiset(Shapes(a[..i] + a[i + 1..])) + multiset{ShapeOf(a[i])}
  {
    Without(Shapes(a), i);
    assert Shapes(a[..i] + a[i + 1..]) == Shapes(a)[..i] + Shapes(a)[i + 1..];
  }

  // ---------------------------------------------------------------- the one canonical form

  /** Unique keys stay unique under permutation. */
  lemma {:induction false} UniquePermutes<T(!new)>(key: T -> Key, a: seq<T>, b: seq<T>)
    requires multiset(a) == multiset(b) && UniqueKeys(key, a)
    ensures UniqueKeys(key, b)
    decreases |b|
  {
    if b != [] {
      var i := TakeOut(b, a);
      var rest := a[..i] + a[i + 1..];
      UniqueWithout(key, a, i);
      UniquePermutes(key, rest, b[1..]);
      forall j | 0 < j < |b| ensures key(b[0]) != key(b[j]) {
        assert b[j] == b[1..][j - 1];
        assert b[j] in multiset(b[1..]) && b[j] in multiset(rest);
      }
    }
  }

  lemma UniqueWithout<T(!new)>(key: T -> Key, a: seq<T>, i: nat)
    requires i < |a| && UniqueKeys(key, a)
    ensures var rest := a[..i] + a[i + 1..]; UniqueKeys(key, rest) && forall t <- rest :: key(t) != key(a[i])
  {
  }

  lemma OneTable<T(!new)>(key: T -> Key, n: nat, rows: seq<T>, c: seq<T>, d: seq<T>)
    requires KeyLength(key, n) && UniqueKeys(key, rows)
    requires multiset(rows) == multiset(c) == multiset(d) && SortedBy(key, c) && SortedBy(key, d)
    ensures c == d
  {
    UniquePermutes(key, rows, c);
    SortedUnique(key, n, c, d);
  }

  lemma OneAuditTable(rows: seq<Audit>, c: seq<Audit>, d: seq<Audit>)
    requires UniqueKeys(AuditKey, rows) && multiset(Shapes(rows)) == multiset(Shapes(c)) == multiset(Shapes(d))
    requires SortedBy(AuditKey, c) && SortedBy(AuditKey, d)
    requires forall i | 0 <= i < |c| :: ListsSorted(c[i])
    requires forall i | 0 <= i < |d| :: ListsSorted(d[i])
    ensures c == d
  {
    OneTable(ShapeKey, 3, Shapes(rows), Shapes(c), Shapes(d));
    forall i | 0 <= i < |c| ensures c[i] == d[i] {
      assert ShapeOf(c[i]) == Shapes(c)[i] == Shapes(d)[i] == ShapeOf(d[i]);
      SortedTextsUnique(c[i].artifacts, d[i].artifacts);
      SortedTextsUnique(c[i].evidence, d[i].evidence);
    }
  }

  /** Two canonical forms of well-formed snapshots are equal if and only if the
      snapshots are the same graph. */
  lemma CanonicalIffSameGraph(s: Snapshot, t: Snapshot, c: Snapshot, d: Snapshot)
    requires WellFormed(s) && SameGraph(s, c) && Canonical(c) && SameGraph(t, d) && Canonical(d)
    ensures c == d <==> SameGraph(s, t)
  {
    if SameGraph(s, t) {
      OneTable(ProjectKey, 2, s.projects, c.projects, d.projects);
      OneTable(GoalKey, 3, s.goals, c.goals, d.goals);
      OneTable(PlanKey, 3, s.plans, c.plans, d.plans);
      OneTable(TaskKey, 3, s.tasks, c.tasks, d.tasks);
      OneTable(ArtifactKey, 3, s.artifacts, c.artifacts, d.artifacts);
      OneAuditTable(s.audits, c.audits, d.audits);
    }
  }

  /** Hence so are their digests, when the digest tells snapshots apart. */
  lemma DigestIffSameGraph<D>(digest: Snapshot -> D, s: Snapshot, t: Snapshot, c: Snapshot, d: Snapshot)
    requires forall x, y | digest(x) == digest(y) :: x == y
    requires WellFormed(s) && SameGraph(s, c) && Canonical(c) && SameGraph(t, d) && Canonical(d)
    ensures digest(c) == digest(d) <==> SameGraph(s, t)
  {
    CanonicalIffSameGraph(s, t, c, d);
  }

  /** Without unique keys there may be two canonical forms of one graph. */
  lemma UniquenessNeeded(s: Snapshot, g: Goal, h: Goal) returns (c: Snapshot, d: Snapshot)
    requires s == Snapshot(1, Time(0, 0), [], [g, h], [], [], [], []) && GoalKey(g) == GoalKey(h) && g != h
    ensures !WellFormed(s) && c != d
    ensures SameGraph(s, c) && Canonical(c) && SameGraph(s, d) && Canonical(d)
  {
    c, d := s, s.(goals := [h, g]);
    KeyTrichotomy(GoalKey(g), GoalKey(h));
    assert GoalKey(s.goals[0]) == GoalKey(s.goals[1]);
  }
}
