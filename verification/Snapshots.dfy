/** Backup snapshots: validation of the restored graph, and a canonical order of its
    rows so that equal graphs have equal digests. */
module Snapshots {
  import opened Wrappers
  import opened KeyOrder
  import opened Texts

  datatype Time = Time(instant: int, zone: int)

  const ZERO_INSTANT := -62_135_596_800

  datatype Project = Project(tenant: string, id: string, activeGoal: string, activePlan: string)
  datatype Goal = Goal(tenant: string, project: string, id: string, version: int)
  datatype Plan = Plan(tenant: string, project: string, id: string, goal: string)
  datatype Task = Task(tenant: string, project: string, id: string, plan: string)
  datatype Audit = Audit(tenant: string, project: string, id: string, task: string,
                         artifacts: seq<string>, evidence: seq<string>)
  datatype Artifact = Artifact(tenant: string, project: string, task: string, id: string, uri: string,
                               digest: string, size: int)

  datatype Snapshot = Snapshot(version: int, createdAt: Time, projects: seq<Project>, goals: seq<Goal>,
                               plans: seq<Plan>, tasks: seq<Task>, audits: seq<Audit>, artifacts: seq<Artifact>)

  datatype SnapshotError = InvalidSnapshot | DanglingReference

  function ProjectKey(p: Project): Key { [p.tenant, p.id] }
  function GoalKey(g: Goal): Key { [g.tenant, g.project, g.id] }
  function PlanKey(p: Plan): Key { [p.tenant, p.project, p.id] }
  function TaskKey(t: Task): Key { [t.tenant, t.project, t.id] }
  function AuditKey(a: Audit): Key { [a.tenant, a.project, a.id] }
  function ArtifactKey(a: Artifact): Key { [a.tenant, a.project, a.id] }
  function UriKey(a: Artifact): Key { [a.tenant, a.project, a.uri] }

  // ------------------------------------------------------------------- the validation

  predicate IsHex(c: char) { '0' <= c <= '9' || 'a' <= c <= 'f' }

  predicate IsDigest(s: string) { |s| == 71 && s[..7] == "sha256:" && forall i | 7 <= i < 71 :: IsHex(s[i]) }

  function Keys<T(==)>(key: T -> Key, rows: seq<T>): set<Key> { set r | r in rows :: key(r) }

  predicate GoalOk(projects: set<Key>, g: Goal) {
    g.tenant != "" && g.project != "" && g.id != "" && g.version >= 1 && [g.tenant, g.project] in projects
  }

  predicate PlanOk(projects: set<Key>, goals: set<Key>, p: Plan) {
    p.tenant != "" && p.project != "" && p.id != "" && p.goal != "" && [p.tenant, p.project] in projects &&
    [p.tenant, p.project, p.goal] in goals
  }

  predicate TaskOk(projects: set<Key>, plans: set<Key>, t: Task) {
    t.tenant != "" && t.project != "" && t.id != "" && t.plan != "" && [t.tenant, t.project] in projects &&
    [t.tenant, t.project, t.plan] in plans
  }

  predicate ActiveOk(goals: set<Key>, plans: set<Key>, p: Project) {
    (p.activeGoal != "" ==> [p.tenant, p.id, p.activeGoal] in goals) &&
    (p.activePlan != "" ==> [p.tenant, p.id, p.activePlan] in plans)
  }

  predicate ArtifactOk(projects: set<Key>, tasks: set<Key>, a: Artifact) {
    a.tenant != "" && a.project != "" && a.id != "" && a.uri != "" && IsDigest(a.digest) && a.size >= 0 &&
    [a.tenant, a.project] in projects && (a.task != "" ==> [a.tenant, a.project, a.task] in tasks)
  }

  predicate AuditOk(projects: set<Key>, tasks: set<Key>, a: Audit) {
    a.tenant != "" && a.project != "" && a.id != "" && [a.tenant, a.project] in projects &&
    (a.task != "" ==> [a.tenant, a.project, a.task] in tasks)
  }

  predicate ArtifactIdsOk(artifacts: set<Key>, a: Audit) {
    NoRepeats(a.artifacts) && forall id <- a.artifacts :: id != "" && [a.tenant, a.project, id] in artifacts
  }

  predicate ReferencePlain(r: string) { r != "" && '\r' !in r && '\n' !in r && '\0' !in r }

  predicate ReferenceOk(uris: set<Key>, a: Audit, r: string) {
    ReferencePlain(r) && ("artifact://" <= r ==> [a.tenant, a.project, r] in uris)
  }

  /** The snapshot is a closed graph with unique keys. */
  ghost predicate WellFormed(s: Snapshot) {
    s.version >= 1 && s.createdAt.instant != ZERO_INSTANT &&
    (forall p <- s.projects :: p.tenant != "" && p.id != "") && UniqueKeys(ProjectKey, s.projects) &&
    (forall g <- s.goals :: GoalOk(Keys(ProjectKey, s.projects), g)) && UniqueKeys(GoalKey, s.goals) &&
    (forall p <- s.plans :: PlanOk(Keys(ProjectKey, s.projects), Keys(GoalKey, s.goals), p)) && UniqueKeys(PlanKey, s.plans) &&
    (forall t <- s.tasks :: TaskOk(Keys(ProjectKey, s.projects), Keys(PlanKey, s.plans), t)) && UniqueKeys(TaskKey, s.tasks) &&
    (forall p <- s.projects :: ActiveOk(Keys(GoalKey, s.goals), Keys(PlanKey, s.plans), p)) &&
    (forall a <- s.artifacts :: ArtifactOk(Keys(ProjectKey, s.projects), Keys(TaskKey, s.tasks), a)) &&
    UniqueKeys(ArtifactKey, s.artifacts) && AuditsWellFormed(s) && UniqueKeys(AuditKey, s.audits)
  }

  ghost predicate AuditsWellFormed(s: Snapshot) {
    forall a <- s.audits ::
      AuditOk(Keys(ProjectKey, s.projects), Keys(TaskKey, s.tasks), a) &&
      ArtifactIdsOk(Keys(ArtifactKey, s.artifacts), a) &&
      forall r <- a.evidence :: ReferenceOk(Keys(UriKey, s.artifacts), a, r)
  }

  // --------------------------------------------------------------- the graph, row by row

  predicate HasProject(s: Snapshot, tenant: string, id: string) {
    exists p <- s.projects :: p.tenant == tenant && p.id == id
  }

  predicate HasGoal(s: Snapshot, tenant: string, project: string, id: string) {
    exists g <- s.goals :: g.tenant == tenant && g.project == project && g.id == id
  }

  predicate HasPlan(s: Snapshot, tenant: string, project: string, id: string) {
    exists p <- s.plans :: p.tenant == tenant && p.project == project && p.id == id
  }

  predicate HasTask(s: Snapshot, tenant: string, project: string, id: string) {
    exists t <- s.tasks :: t.tenant == tenant && t.project == project && t.id == id
  }

  predicate HasArtifact(s: Snapshot, tenant: string, project: string, id: string) {
    exists a <- s.artifacts :: a.tenant == tenant && a.project == project && a.id == id
  }

  predicate HasUri(s: Snapshot, tenant: string, project: string, uri: string) {
    exists a <- s.artifacts :: a.tenant == tenant && a.project == project && a.uri == uri
  }

  // A row is closed when it is complete and every row that it names is there, in its own
  // tenant and project.

  predicate ProjectClosed(s: Snapshot, p: Project) {
    p.tenant != "" && p.id != "" && (p.activeGoal == "" || HasGoal(s, p.tenant, p.id, p.activeGoal)) &&
    (p.activePlan == "" || HasPlan(s, p.tenant, p.id, p.activePlan))
  }

  predicate GoalClosed(s: Snapshot, g: Goal) {
    g.tenant != "" && g.project != "" && g.id != "" && g.version > 0 && HasProject(s, g.tenant, g.project)
  }

  predicate PlanClosed(s: Snapshot, p: Plan) {
    p.tenant != "" && p.project != "" && p.id != "" && p.goal != "" &&
    HasProject(s, p.tenant, p.project) && HasGoal(s, p.tenant, p.project, p.goal)
  }

  predicate TaskClosed(s: Snapshot, t: Task) {
    t.tenant != "" && t.project != "" && t.id != "" && t.plan != "" &&
    HasProject(s, t.tenant, t.project) && HasPlan(s, t.tenant, t.project, t.plan)
  }

  predicate ArtifactClosed(s: Snapshot, a: Artifact) {
    a.tenant != "" && a.project != "" && a.id != "" && a.uri != "" && a.size >= 0 &&
    |a.digest| == 71 && "sha256:" <= a.digest && (forall c <- a.digest[7..] :: c in "0123456789abcdef") &&
    HasProject(s, a.tenant, a.project) && (a.task == "" || HasTask(s, a.tenant, a.project, a.task))
  }

  predicate AuditClosed(s: Snapshot, a: Audit) {
    a.tenant != "" && a.project != "" && a.id != "" && HasProject(s, a.tenant, a.project) &&
    (a.task == "" || HasTask(s, a.tenant, a.project, a.task)) &&
    (forall i, j | 0 <= i < j < |a.artifacts| :: a.artifacts[i] != a.artifacts[j]) &&
    (forall id <- a.artifacts :: id != "" && HasArtifact(s, a.tenant, a.project, id)) &&
    (forall r <- a.evidence :: EvidenceClosed(s, a, r))
  }

  predicate EvidenceClosed(s: Snapshot, a: Audit, r: string) {
    r != "" && (forall c <- r :: c != '\r' && c != '\n' && c != '\0') &&
    ("artifact://" <= r ==> HasUri(s, a.tenant, a.project, r))
  }

  /** No two rows of a table have the same identity. */
  ghost predicate NoRowTwice(s: Snapshot) {
    (forall i, j | 0 <= i < j < |s.projects| :: (s.projects[i].tenant, s.projects[i].id) != (s.projects[j].tenant, s.projects[j].id)) &&
    (forall i, j | 0 <= i < j < |s.goals| ::
       (s.goals[i].tenant, s.goals[i].project, s.goals[i].id) != (s.goals[j].tenant, s.goals[j].project, s.goals[j].id)) &&
    (forall i, j | 0 <= i < j < |s.plans| ::
       (s.plans[i].tenant, s.plans[i].project, s.plans[i].id) != (s.plans[j].tenant, s.plans[j].project, s.plans[j].id)) &&
    (forall i, j | 0 <= i < j < |s.tasks| ::
       (s.tasks[i].tenant, s.tasks[i].project, s.tasks[i].id) != (s.tasks[j].tenant, s.tasks[j].project, s.tasks[j].id)) &&
    (forall i, j | 0 <= i < j < |s.audits| ::
       (s.audits[i].tenant, s.audits[i].project, s.audits[i].id) != (s.audits[j].tenant, s.audits[j].project, s.audits[j].id)) &&
    (forall i, j | 0 <= i < j < |s.artifacts| ::
       (s.artifacts[i].tenant, s.artifacts[i].project, s.artifacts[i].id)
       != (s.artifacts[j].tenant, s.artifacts[j].project, s.artifacts[j].id))
  }

  /** Every row is there once, complete, and names only rows that are there. */
  ghost predicate ClosedGraph(s: Snapshot) {
    s.version > 0 && s.createdAt.instant != -62_135_596_800 && NoRowTwice(s) &&
    (forall p <- s.projects :: ProjectClosed(s, p)) && (forall g <- s.goals :: GoalClosed(s, g)) &&
    (forall p <- s.plans :: PlanClosed(s, p)) && (forall t <- s.tasks :: TaskClosed(s, t)) &&
    (forall a <- s.artifacts :: ArtifactClosed(s, a)) && (forall a <- s.audits :: AuditClosed(s, a))
  }

  lemma TablesHave(s: Snapshot, tenant: string, project: string, id: string)
    ensures [tenant, id] in Keys(ProjectKey, s.projects) <==> HasProject(s, tenant, id)
    ensures [tenant, project, id] in Keys(GoalKey, s.goals) <==> HasGoal(s, tenant, project, id)
    ensures [tenant, project, id] in Keys(PlanKey, s.plans) <==> HasPlan(s, tenant, project, id)
    ensures [tenant, project, id] in Keys(TaskKey, s.tasks) <==> HasTask(s, tenant, project, id)
    ensures [tenant, project, id] in Keys(ArtifactKey, s.artifacts) <==> HasArtifact(s, tenant, project, id)
    ensures [tenant, project, id] in Keys(UriKey, s.artifacts) <==> HasUri(s, tenant, project, id)
  {
  }

  lemma ProjectClosedIff(s: Snapshot, p: Project)
    ensures ProjectClosed(s, p) <==> p.tenant != "" && p.id != "" && ActiveOk(Keys(GoalKey, s.goals), Keys(PlanKey, s.plans), p)
  {
    TablesHave(s, p.tenant, p.id, p.activeGoal);
    TablesHave(s, p.tenant, p.id, p.activePlan);
  }

  lemma GoalClosedIff(s: Snapshot, g: Goal)
    ensures GoalClosed(s, g) <==> GoalOk(Keys(ProjectKey, s.projects), g)
  {
    TablesHave(s, g.tenant, "", g.project);
  }

  lemma PlanClosedIff(s: Snapshot, p: Plan)
    ensures PlanClosed(s, p) <==> PlanOk(Keys(ProjectKey, s.projects), Keys(GoalKey, s.goals), p)
  {
    TablesHave(s, p.tenant, "", p.project);
    TablesHave(s, p.tenant, p.project, p.goal);
  }

  lemma TaskClosedIff(s: Snapshot, t: Task)
    ensures TaskClosed(s, t) <==> TaskOk(Keys(ProjectKey, s.projects), Keys(PlanKey, s.plans), t)
  {
    TablesHave(s, t.tenant, "", t.project);
    TablesHave(s, t.tenant, t.project, t.plan);
  }

  lemma DigestIff(d: string)
    ensures IsDigest(d) <==> |d| == 71 && "sha256:" <= d && forall c <- d[7..] :: c in "0123456789abcdef"
  {
    if |d| == 71 {
      assert forall i | 7 <= i < 71 :: d[i] == d[7..][i - 7];
      assert forall c :: IsHex(c) <==> c in "0123456789abcdef";
    }
  }

  lemma ArtifactClosedIff(s: Snapshot, a: Artifact)
    ensures ArtifactClosed(s, a) <==> ArtifactOk(Keys(ProjectKey, s.projects), Keys(TaskKey, s.tasks), a)
  {
    DigestIff(a.digest);
    TablesHave(s, a.tenant, "", a.project);
    TablesHave(s, a.tenant, a.project, a.task);
  }

  lemma AuditClosedIff(s: Snapshot, a: Audit)
    ensures AuditClosed(s, a) <==> AuditGood(s, a)
  {
    TablesHave(s, a.tenant, "", a.project);
    TablesHave(s, a.tenant, a.project, a.task);
    forall id ensures HasArtifact(s, a.tenant, a.project, id) <==> [a.tenant, a.project, id] in Keys(ArtifactKey, s.artifacts) {
      TablesHave(s, a.tenant, a.project, id);
    }
    forall r ensures EvidenceClosed(s, a, r) <==> ReferenceOk(Keys(UriKey, s.artifacts), a, r) {
      TablesHave(s, a.tenant, a.project, r);
    }
  }

  lemma RowsOnceIff(s: Snapshot)
    ensures NoRowTwice(s) <==>
            UniqueKeys(ProjectKey, s.projects) && UniqueKeys(GoalKey, s.goals) && UniqueKeys(PlanKey, s.plans) &&
            UniqueKeys(TaskKey, s.tasks) && UniqueKeys(AuditKey, s.audits) && UniqueKeys(ArtifactKey, s.artifacts)
  {
  }

  /** The validation's own account of a good snapshot is that of a closed graph. */
  lemma WellFormedIffClosed(s: Snapshot)
    ensures WellFormed(s) <==> ClosedGraph(s)
  {
    RowsOnceIff(s);
    forall p ensures ProjectClosed(s, p) <==> p.tenant != "" && p.id != "" && ActiveOk(Keys(GoalKey, s.goals), Keys(PlanKey, s.plans), p) {
      ProjectClosedIff(s, p);
    }
    forall g ensures GoalClosed(s, g) <==> GoalOk(Keys(ProjectKey, s.projects), g) { GoalClosedIff(s, g); }
    forall p ensures PlanClosed(s, p) <==> PlanOk(Keys(ProjectKey, s.projects), Keys(GoalKey, s.goals), p) { PlanClosedIff(s, p); }
    forall t ensures TaskClosed(s, t) <==> TaskOk(Keys(ProjectKey, s.projects), Keys(PlanKey, s.plans), t) { TaskClosedIff(s, t); }
    forall a ensures ArtifactClosed(s, a) <==> ArtifactOk(Keys(ProjectKey, s.projects), Keys(TaskKey, s.tasks), a) {
      ArtifactClosedIff(s, a);
    }
    forall a ensures AuditClosed(s, a) <==> AuditGood(s, a) { AuditClosedIff(s, a); }
  }

  /** Version, time and projects, whose faults have an error of their own. */
  ghost predicate HeaderOk(s: Snapshot) {
    s.version >= 1 && s.createdAt.instant != ZERO_INSTANT &&
    (forall p <- s.projects :: p.tenant != "" && p.id != "") && UniqueKeys(ProjectKey, s.projects)
  }

  /** The tables that the audits refer to are good. */
  ghost predicate TablesOk(s: Snapshot) {
    (forall g <- s.goals :: GoalOk(Keys(ProjectKey, s.projects), g)) && UniqueKeys(GoalKey, s.goals) &&
    (forall p <- s.plans :: PlanOk(Keys(ProjectKey, s.projects), Keys(GoalKey, s.goals), p)) && UniqueKeys(PlanKey, s.plans) &&
    (forall t <- s.tasks :: TaskOk(Keys(ProjectKey, s.projects), Keys(PlanKey, s.plans), t)) && UniqueKeys(TaskKey, s.tasks) &&
    (forall p <- s.projects :: ActiveOk(Keys(GoalKey, s.goals), Keys(PlanKey, s.plans), p)) &&
    (forall a <- s.artifacts :: ArtifactOk(Keys(ProjectKey, s.projects), Keys(TaskKey, s.tasks), a)) &&
    UniqueKeys(ArtifactKey, s.artifacts)
  }

  /** The first reference of the audit that is not good is malformed rather than dangling. */
  predicate MalformedFirst(uris: set<Key>, a: Audit) {
    exists j | 0 <= j < |a.evidence| ::
      !ReferencePlain(a.evidence[j]) && forall i | 0 <= i < j :: ReferenceOk(uris, a, a.evidence[i])
  }

  /** The audit itself and its artifact ids are good. */
  predicate AuditHeadOk(s: Snapshot, a: Audit) {
    AuditOk(Keys(ProjectKey, s.projects), Keys(TaskKey, s.tasks), a) && ArtifactIdsOk(Keys(ArtifactKey, s.artifacts), a)
  }

  predicate AuditGood(s: Snapshot, a: Audit) {
    AuditHeadOk(s, a) && forall r <- a.evidence :: ReferenceOk(Keys(UriKey, s.artifacts), a, r)
  }

  /** The first audit that is not good has nothing worse than a malformed reference. */
  ghost predicate MalformedReferenceFirst(s: Snapshot) {
    exists i | 0 <= i < |s.audits| :: MalformedAt(s, i)
  }

  ghost predicate MalformedAt(s: Snapshot, i: nat)
    requires i < |s.audits|
  {
    (forall a <- s.audits[..i] :: AuditGood(s, a)) && UniqueKeys(AuditKey, s.audits[..i + 1]) &&
    AuditHeadOk(s, s.audits[i]) && MalformedFirst(Keys(UriKey, s.artifacts), s.audits[i])
  }

  /** One table: every row is good and every key is new. */
  method CheckTable<T(==, !new)>(key: T -> Key, good: T -> bool, rows: seq<T>) returns (ok: bool, keys: set<Key>)
    ensures ok <==> (forall r <- rows :: good(r)) && UniqueKeys(key, rows)
    ensures ok ==> keys == Keys(key, rows)
  {
    keys := {};
    for i := 0 to |rows|
      invariant (forall r <- rows[..i] :: good(r)) && UniqueKeys(key, rows[..i])
      invariant keys == Keys(key, rows[..i])
    {
      var row := rows[i];
      assert row in rows;
      assert rows[..i + 1] == rows[..i] + [row];
      if !good(row) {
        return false, keys;
      }
      if key(row) in keys {
        KeyTwice(key, rows, i);
        return false, keys;
      }
      KeysGrow(key, rows[..i], row);
      keys := keys + {key(row)};
    }
    assert rows[..|rows|] == rows;
    ok := true;
  }

  lemma KeyTwice<T(!new)>(key: T -> Key, rows: seq<T>, i: nat)
    requires i < |rows| && key(rows[i]) in Keys(key, rows[..i])
    ensures !UniqueKeys(key, rows)
  {
    var r :| r in rows[..i] && key(r) == key(rows[i]);
    var j :| 0 <= j < i && rows[..i][j] == r;
    assert key(rows[j]) == key(rows[i]);
  }

  lemma KeysGrow<T(!new)>(key: T -> Key, rows: seq<T>, row: T)
    ensures Keys(key, rows + [row]) == Keys(key, rows) + {key(row)}
    ensures UniqueKeys(key, rows) && key(row) !in Keys(key, rows) ==> UniqueKeys(key, rows + [row])
  {
    assert row in rows + [row];
    assert forall r <- rows :: r in rows + [row];
    assert forall k | k in Keys(key, rows + [row]) :: k in Keys(key, rows) + {key(row)};
  }

  method CheckAudit(artifacts: set<Key>, uris: set<Key>, a: Audit) returns (e: Option<SnapshotError>)
    ensures e.None? <==> ArtifactIdsOk(artifacts, a) && forall r <- a.evidence :: ReferenceOk(uris, a, r)
    ensures e == Some(InvalidSnapshot) <==> ArtifactIdsOk(artifacts, a) && MalformedFirst(uris, a)
  {
    var seen: set<string> := {};
    for i := 0 to |a.artifacts|
      invariant NoRepeats(a.artifacts[..i])
      invariant forall id <- a.artifacts[..i] :: id != "" && [a.tenant, a.project, id] in artifacts
      invariant forall id :: id in seen <==> id in a.artifacts[..i]
    {
      var id := a.artifacts[i];
      assert id in a.artifacts;
      assert a.artifacts[..i + 1] == a.artifacts[..i] + [id];
      if id == "" || id in seen || [a.tenant, a.project, id] !in artifacts {
        return Some(DanglingReference);
      }
      seen := seen + {id};
    }
    assert a.artifacts[..|a.artifacts|] == a.artifacts;
    for i := 0 to |a.evidence|
      invariant forall j | 0 <= j < i :: ReferenceOk(uris, a, a.evidence[j])
    {
      var r := a.evidence[i];
      assert r in a.evidence;
      if !ReferencePlain(r) {
        return Some(InvalidSnapshot);
      }
      if "artifact://" <= r && [a.tenant, a.project, r] !in uris {
        return Some(DanglingReference);
      }
    }
    e := None;
  }

  method ValidateSnapshot(s: Snapshot) returns (e: Option<SnapshotError>)
    ensures e.None? <==> WellFormed(s)
    ensures e.None? <==> ClosedGraph(s)
    ensures e == Some(InvalidSnapshot) <==> !HeaderOk(s) || (TablesOk(s) && MalformedReferenceFirst(s))
  {
    WellFormedIffClosed(s);
    if s.version < 1 || s.createdAt.instant == ZERO_INSTANT {
      return Some(InvalidSnapshot);
    }
    var ok, projects := CheckTable(ProjectKey, (p: Project) => p.tenant != "" && p.id != "", s.projects);
    if !ok {
      return Some(InvalidSnapshot);
    }
    var goals, plans, tasks, artifacts;
    ok, goals := CheckTable(GoalKey, (g: Goal) => GoalOk(projects, g), s.goals);
    if !ok {
      return Some(DanglingReference);
    }
    ok, plans := CheckTable(PlanKey, (p: Plan) => PlanOk(projects, goals, p), s.plans);
    if !ok {
      return Some(DanglingReference);
    }
    ok, tasks := CheckTable(TaskKey, (t: Task) => TaskOk(projects, plans, t), s.tasks);
    if !ok || exists p <- s.projects :: !ActiveOk(goals, plans, p) {
      return Some(DanglingReference);
    }
    ok, artifacts := CheckTable(ArtifactKey, (a: Artifact) => ArtifactOk(projects, tasks, a), s.artifacts);
    if !ok {
      return Some(DanglingReference);
    }
    e := ValidateAudits(s, projects, tasks, artifacts);
  }

  lemma GoodNotMalformed(s: Snapshot, a: Audit)
    requires AuditGood(s, a)
    ensures !MalformedFirst(Keys(UriKey, s.artifacts), a)
  {
    forall j | 0 <= j < |a.evidence| ensures ReferencePlain(a.evidence[j]) {
      assert ReferenceOk(Keys(UriKey, s.artifacts), a, a.evidence[j]);
    }
  }

  lemma UniquePrefix<T(!new)>(key: T -> Key, rows: seq<T>, n: nat)
    requires UniqueKeys(key, rows) && n <= |rows|
    ensures UniqueKeys(key, rows[..n])
  {
  }

  /** When the first i audits are good, a malformed reference can only come first at i
      or after a good audit i with a new key. */
  lemma MalformedFrom(s: Snapshot, i: nat)
    requires i < |s.audits| && forall a <- s.audits[..i] :: AuditGood(s, a)
    ensures MalformedReferenceFirst(s) ==>
            MalformedAt(s, i) || (AuditGood(s, s.audits[i]) && UniqueKeys(AuditKey, s.audits[..i + 1]))
  {
    if MalformedReferenceFirst(s) {
      var j :| 0 <= j < |s.audits| && MalformedAt(s, j);
      if j < i {
        assert s.audits[j] in s.audits[..i];
        GoodNotMalformed(s, s.audits[j]);
      } else if j > i {
        assert s.audits[i] in s.audits[..j];
        UniquePrefix(AuditKey, s.audits[..j + 1], i + 1);
        assert s.audits[..j + 1][..i + 1] == s.audits[..i + 1];
      }
    }
  }

  method ValidateAudits(s: Snapshot, projects: set<Key>, tasks: set<Key>, artifacts: set<Key>)
    returns (e: Option<SnapshotError>)
    requires projects == Keys(ProjectKey, s.projects) && tasks == Keys(TaskKey, s.tasks)
    requires artifacts == Keys(ArtifactKey, s.artifacts)
    ensures e.None? <==> AuditsWellFormed(s) && UniqueKeys(AuditKey, s.audits)
    ensures e == Some(InvalidSnapshot) <==> MalformedReferenceFirst(s)
  {
    var uris := Keys(UriKey, s.artifacts);
    var audits: set<Key> := {};
    for i := 0 to |s.audits|
      invariant forall a <- s.audits[..i] :: AuditGood(s, a)
      invariant UniqueKeys(AuditKey, s.audits[..i]) && audits == Keys(AuditKey, s.audits[..i])
    {
      var a := s.audits[i];
      assert a in s.audits;
      assert s.audits[..i + 1] == s.audits[..i] + [a];
      MalformedFrom(s, i);
      if !AuditOk(projects, tasks, a) {
        return Some(DanglingReference);
      }
      if AuditKey(a) in audits {
        RepeatedKey(s, i);
        return Some(DanglingReference);
      }
      KeysGrow(AuditKey, s.audits[..i], a);
      audits := audits + {AuditKey(a)};
      e := CheckAudit(artifacts, uris, a);
      if e.Some? {
        assert e == Some(InvalidSnapshot) <==> MalformedAt(s, i);
        return;
      }
    }
    assert s.audits[..|s.audits|] == s.audits;
    NoneMalformed(s);
    e := None;
  }

  lemma RepeatedKey(s: Snapshot, i: nat)
    requires i < |s.audits| && AuditKey(s.audits[i]) in Keys(AuditKey, s.audits[..i])
    ensures !UniqueKeys(AuditKey, s.audits) && !UniqueKeys(AuditKey, s.audits[..i + 1])
  {
    KeyTwice(AuditKey, s.audits, i);
    assert s.audits[..i + 1][..i] == s.audits[..i];
    KeyTwice(AuditKey, s.audits[..i + 1], i);
  }

  lemma NoneMalformed(s: Snapshot)
    requires forall a <- s.audits :: AuditGood(s, a)
    ensures !MalformedReferenceFirst(s)
  {
    forall i | 0 <= i < |s.audits| ensures !MalformedAt(s, i) { GoodNotMalformed(s, s.audits[i]); }
  }
}
