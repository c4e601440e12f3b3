/** The read-only operations of `LocalStorageManager`
    (lib/storage/manager.ts): lookups by id, the company filter of
    `getProjects`, `getAllInspections`, `getDashboardData` and
    `searchProjects`, with the facts that relate them to the nested
    operations of module Repository. */
module Queries {
  import opened Util
  import opened Types
  import opened Repository

  // ---------------------------------------------------------------------
  // Lookups

  /** `getCompanyById`: the first company with that id. */
  function CompanyById(cs: seq<Company>, id: string): (r: Option<Company>)
    ensures r.None? <==> forall k :: 0 <= k < |cs| ==> cs[k].id != id
    ensures r.Some? ==> r.value == cs[CompanyIndex(cs, id).value]
  {
    match CompanyIndex(cs, id)
    case None => None
    case Some(j) => Some(cs[j])
  }

  /** `getProjectById`: the first project with that id. */
  function ProjectById(ps: seq<Project>, id: string): (r: Option<Project>)
    ensures r.None? <==> forall k :: 0 <= k < |ps| ==> ps[k].id != id
    ensures r.Some? ==> r.value == ps[ProjectIndex(ps, id).value]
  {
    match ProjectIndex(ps, id)
    case None => None
    case Some(j) => Some(ps[j])
  }

  /** `getUserById`: the first user with that id. */
  function UserById(us: seq<User>, id: string): (r: Option<User>)
    ensures r.None? <==> forall k :: 0 <= k < |us| ==> us[k].id != id
    ensures r.Some? ==> r.value == us[UserIndex(us, id).value]
  {
    match UserIndex(us, id)
    case None => None
    case Some(j) => Some(us[j])
  }

  /** `getProjects(companyId)`: only a truthy `companyId` (present and not
      the empty string) filters; the stored order is kept. */
  function ProjectsOfCompany(ps: seq<Project>, companyId: Option<string>): (r: seq<Project>)
    ensures companyId.None? || companyId.value == "" ==> r == ps
    ensures companyId.Some? && companyId.value != "" ==>
              && IsSubsequence(r, ps)
              && (forall i :: 0 <= i < |r| ==> r[i].companyId == companyId.value)
              && (forall i :: 0 <= i < |ps| && ps[i].companyId == companyId.value ==> ps[i] in r)
              && (forall y :: multiset(r)[y] == if y.companyId == companyId.value then multiset(ps)[y] else 0)
  {
    if companyId.Some? && companyId.value != "" then
      FilterCount(ps, (p: Project) => p.companyId == companyId.value);
      Filter(ps, (p: Project) => p.companyId == companyId.value)
    else ps
  }

  /** `companies.findIndex(c => c.id === id)`: where `updateCompany` writes. */
  function CompanyIndex(cs: seq<Company>, id: string): (r: Option<nat>)
    ensures r.Some? ==> r.value < |cs| && cs[r.value].id == id
    ensures r.Some? ==> forall k :: 0 <= k < r.value ==> cs[k].id != id
    ensures r.None? <==> forall k :: 0 <= k < |cs| ==> cs[k].id != id
  {
    FindIndex(cs, (c: Company) => c.id == id)
  }

  /** `users.findIndex(u => u.id === id)`: where `updateUser` writes. */
  function UserIndex(us: seq<User>, id: string): (r: Option<nat>)
    ensures r.Some? ==> r.value < |us| && us[r.value].id == id
    ensures r.Some? ==> forall k :: 0 <= k < r.value ==> us[k].id != id
    ensures r.None? <==> forall k :: 0 <= k < |us| ==> us[k].id != id
  {
    FindIndex(us, (u: User) => u.id == id)
  }

  /** `companies.filter(c => c.id !== id)`: what `deleteCompany` keeps. */
  function CompaniesWithout(cs: seq<Company>, id: string): (r: seq<Company>)
    ensures forall i :: 0 <= i < |r| ==> r[i] in cs && r[i].id != id
    ensures forall i :: 0 <= i < |cs| && cs[i].id != id ==> cs[i] in r
    ensures IsSubsequence(r, cs)
    ensures forall y :: multiset(r)[y] == if y.id != id then multiset(cs)[y] else 0
    ensures |r| == |cs| <==> forall i :: 0 <= i < |cs| ==> cs[i].id != id
  {
    FilterCount(cs, (c: Company) => c.id != id);
    Filter(cs, (c: Company) => c.id != id)
  }

  /** `projects.filter(p => p.id !== id)`: what `deleteProject` keeps. */
  function ProjectsWithout(ps: seq<Project>, id: string): (r: seq<Project>)
    ensures forall i :: 0 <= i < |r| ==> r[i] in ps && r[i].id != id
    ensures forall i :: 0 <= i < |ps| && ps[i].id != id ==> ps[i] in r
    ensures IsSubsequence(r, ps)
    ensures forall y :: multiset(r)[y] == if y.id != id then multiset(ps)[y] else 0
    ensures |r| == |ps| <==> forall i :: 0 <= i < |ps| ==> ps[i].id != id
  {
    FilterCount(ps, (p: Project) => p.id != id);
    Filter(ps, (p: Project) => p.id != id)
  }

  /** `users.filter(u => u.id !== id)`: what `deleteUser` keeps. */
  function UsersWithout(us: seq<User>, id: string): (r: seq<User>)
    ensures forall i :: 0 <= i < |r| ==> r[i] in us && r[i].id != id
    ensures forall i :: 0 <= i < |us| && us[i].id != id ==> us[i] in r
    ensures IsSubsequence(r, us)
    ensures forall y :: multiset(r)[y] == if y.id != id then multiset(us)[y] else 0
    ensures |r| == |us| <==> forall i :: 0 <= i < |us| ==> us[i].id != id
  {
    FilterCount(us, (u: User) => u.id != id);
    Filter(us, (u: User) => u.id != id)
  }

  /** A company appended under a fresh id is what `getCompanyById` finds. */
  lemma CreatedCompanyIsFound(cs: seq<Company>, c: Company)
    requires forall k :: 0 <= k < |cs| ==> cs[k].id != c.id
    ensures CompanyById(cs + [c], c.id) == Some(c)
  {
    assert (cs + [c])[|cs|] == c;
  }

  /** A project appended under a fresh id is what `getProjectById` finds. */
  lemma CreatedProjectIsFound(ps: seq<Project>, p: Project)
    requires forall k :: 0 <= k < |ps| ==> ps[k].id != p.id
    ensures ProjectById(ps + [p], p.id) == Some(p)
  {
    assert (ps + [p])[|ps|] == p;
  }

  /** A user appended under a fresh id is what `getUserById` finds. */
  lemma CreatedUserIsFound(us: seq<User>, x: User)
    requires forall k :: 0 <= k < |us| ==> us[k].id != x.id
    ensures UserById(us + [x], x.id) == Some(x)
  {
    assert (us + [x])[|us|] == x;
  }

  /** After `updateProject(id, u)` with an update that keeps the id (one
      that carries no id, or carries `id` itself, as every write-back of a
      whole project does), `getProjectById(id)` returns the merged project. */
  lemma UpdatedProjectIsFound(ps: seq<Project>, id: string, u: ProjectPatch, now: Time)
    requires ProjectIndex(ps, id).Some? && (u.id.None? || u.id == Some(id))
    ensures var j := ProjectIndex(ps, id).value;
            ProjectById(ps[j := MergeProject(ps[j], u, now)], id) == Some(MergeProject(ps[j], u, now))
  {
    var j := ProjectIndex(ps, id).value;
    var qs := ps[j := MergeProject(ps[j], u, now)];
    assert qs[j].id == id;
    assert forall k :: 0 <= k < j ==> qs[k].id != id;
  }

  /** After `deleteCompany(id)`, `getCompanyById(id)` finds nothing. */
  lemma DeletedCompanyIsGone(cs: seq<Company>, id: string)
    ensures CompanyById(CompaniesWithout(cs, id), id).None?
  {
  }

  /** Looking up in a non-empty list finds its head when the head has
      the id, and otherwise what looking up in the rest finds. */
  lemma ProjectByIdHead(ps: seq<Project>, id: string)
    requires ps != []
    ensures ProjectById(ps, id) == if ps[0].id == id then Some(ps[0]) else ProjectById(ps[1..], id)
  {
    if ps[0].id != id && ProjectById(ps, id).Some? {
      var j := ProjectIndex(ps, id).value;
      var j' := ProjectIndex(ps[1..], id).value;
      assert ps[j' + 1] == ps[1..][j'];
      assert ps[1..][j - 1] == ps[j];
    }
  }

  /** One step of the filter in `deleteProject`. */
  lemma ProjectsWithoutStep(ps: seq<Project>, id: string)
    requires ps != []
    ensures ProjectsWithout(ps, id) == (if ps[0].id != id then [ps[0]] else []) + ProjectsWithout(ps[1..], id)
  {
    FilterStep(ps, (p: Project) => p.id != id);
  }

  /** After `deleteProject(id)`, `getProjectById(id)` finds nothing, and
      every other id finds exactly the record it found before. */
  lemma {:induction false} DeletedProjectIsGone(ps: seq<Project>, id: string, other: string)
    requires other != id
    ensures ProjectById(ProjectsWithout(ps, id), id).None?
    ensures ProjectById(ProjectsWithout(ps, id), other) == ProjectById(ps, other)
  {
    if ps != [] {
      var rest := ProjectsWithout(ps[1..], id);
      DeletedProjectIsGone(ps[1..], id, other);
      ProjectsWithoutStep(ps, id);
      ProjectByIdHead(ps, other);
      if ps[0].id != id {
        var r := [ps[0]] + rest;
        assert r[1..] == rest;
        ProjectByIdHead(r, other);
      }
    }
  }


  // ---------------------------------------------------------------------
  // getAllInspections

  /** The inspections of milestones `ms`, milestone after milestone. */
  function MilestoneInspections(ms: seq<Milestone>): (r: seq<Inspection>)
    ensures forall k, x :: 0 <= k < |ms| && x in ms[k].inspections.GetOr([]) ==> x in r
    ensures forall x :: x in r ==> exists k :: 0 <= k < |ms| && x in ms[k].inspections.GetOr([])
  {
    if ms == [] then []
    else MilestoneInspections(ms[..|ms| - 1]) + ms[|ms| - 1].inspections.GetOr([])
  }

  /** A project's own inspections, then those of its milestones. */
  function ProjectInspections(p: Project): (r: seq<Inspection>)
    ensures forall x :: x in r <==> (x in p.inspections.GetOr([]) ||
                                    exists k :: 0 <= k < |p.milestones| && x in p.milestones[k].inspections.GetOr([]))
  {
    p.inspections.GetOr([]) + MilestoneInspections(p.milestones)
  }

  /** `getAllInspections`: project after project, in stored order. */
  function AllInspections(ps: seq<Project>): (r: seq<Inspection>)
    ensures forall i, x :: 0 <= i < |ps| && x in ProjectInspections(ps[i]) ==> x in r
    ensures forall x :: x in r ==> exists i :: 0 <= i < |ps| && x in ProjectInspections(ps[i])
  {
    if ps == [] then []
    else AllInspections(ps[..|ps| - 1]) + ProjectInspections(ps[|ps| - 1])
  }

  lemma {:induction false} AllInspectionsAppend(a: seq<Project>, b: seq<Project>)
    ensures AllInspections(a + b) == AllInspections(a) + AllInspections(b)
    decreases |b|
  {
    if b != [] {
      var c := b[..|b| - 1];
      assert (a + b)[..|a + b| - 1] == a + c;
      assert (a + b)[|a + b| - 1] == b[|b| - 1];
      AllInspectionsAppend(a, c);
      calc {
        AllInspections(a + b);
        AllInspections(a + c) + ProjectInspections(b[|b| - 1]);
        AllInspections(a) + AllInspections(c) + ProjectInspections(b[|b| - 1]);
        AllInspections(a) + AllInspections(b);
      }
    } else {
      assert a + b == a;
    }
  }

  lemma {:induction false} MilestoneInspectionsAppend(a: seq<Milestone>, b: seq<Milestone>)
    ensures MilestoneInspections(a + b) == MilestoneInspections(a) + MilestoneInspections(b)
    decreases |b|
  {
    if b != [] {
      var c := b[..|b| - 1];
      assert (a + b)[..|a + b| - 1] == a + c;
      assert (a + b)[|a + b| - 1] == b[|b| - 1];
      MilestoneInspectionsAppend(a, c);
      calc {
        MilestoneInspections(a + b);
        MilestoneInspections(a + c) + b[|b| - 1].inspections.GetOr([]);
        MilestoneInspections(a) + MilestoneInspections(c) + b[|b| - 1].inspections.GetOr([]);
        MilestoneInspections(a) + MilestoneInspections(b);
      }
    } else {
      assert a + b == a;
    }
  }

  /** Replacing one milestone swaps its inspections for the new ones in
      the milestone part of the traversal. */
  lemma {:induction false} MilestoneInspectionsReplace(ms: seq<Milestone>, k: nat, m: Milestone)
    requires k < |ms|
    ensures multiset(MilestoneInspections(ms[k := m])) + multiset(ms[k].inspections.GetOr([]))
         == multiset(MilestoneInspections(ms)) + multiset(m.inspections.GetOr([]))
  {
    var pre, post := ms[..k], ms[k + 1..];
    assert ms == pre + [ms[k]] + post;
    assert ms[k := m] == pre + [m] + post;
    MilestoneInspectionsAppend(pre + [ms[k]], post);
    MilestoneInspectionsAppend(pre + [m], post);
    assert (pre + [ms[k]])[..|pre|] == pre;
    assert (pre + [m])[..|pre|] == pre;
  }

  /** Setting the array of one home changes the project's inspections by
      exactly that array's old and new contents. */
  lemma ProjectInspectionsWithArray(p: Project, o: Owner, a: seq<Inspection>)
    requires ValidOwner(p, o)
    ensures multiset(ProjectInspections(WithArray(p, o, a))) + multiset(ArrayAt(p, o).GetOr([]))
         == multiset(ProjectInspections(p)) + multiset(a)
  {
    if o.OfMilestone? {
      var k := o.milestone;
      var m := p.milestones[k].(inspections := Some(a));
      MilestoneInspectionsReplace(p.milestones, k, m);
      var q := WithArray(p, o, a);
      assert q.milestones == p.milestones[k := m];
      assert ProjectInspections(q) == p.inspections.GetOr([]) + MilestoneInspections(p.milestones[k := m]);
      assert ArrayAt(p, o).GetOr([]) == p.milestones[k].inspections.GetOr([]);
      assert m.inspections.GetOr([]) == a;
      var own := multiset(p.inspections.GetOr([]));
      assert multiset(ProjectInspections(q)) == own + multiset(MilestoneInspections(p.milestones[k := m]));
      assert multiset(ProjectInspections(p)) == own + multiset(MilestoneInspections(p.milestones));
      var x, y := multiset(MilestoneInspections(p.milestones[k := m])), multiset(MilestoneInspections(p.milestones));
      var olda := multiset(ArrayAt(p, o).GetOr([]));
      assert x + olda == y + multiset(a);
      calc {
        multiset(ProjectInspections(q)) + olda;
        own + x + olda;
        own + (x + olda);
        own + (y + multiset(a));
        own + y + multiset(a);
        multiset(ProjectInspections(p)) + multiset(a);
      }
    }
  }

  /** Replacing one project swaps its inspections in the traversal. */
  lemma {:induction false} AllInspectionsReplace(ps: seq<Project>, i: nat, q: Project)
    requires i < |ps|
    ensures multiset(AllInspections(ps[i := q])) + multiset(ProjectInspections(ps[i]))
         == multiset(AllInspections(ps)) + multiset(ProjectInspections(q))
  {
    var pre, post := ps[..i], ps[i + 1..];
    assert ps == pre + [ps[i]] + post;
    assert ps[i := q] == pre + [q] + post;
    AllInspectionsAppend(pre + [ps[i]], post);
    AllInspectionsAppend(pre + [q], post);
    assert (pre + [ps[i]])[..|pre|] == pre;
    assert (pre + [q])[..|pre|] == pre;
  }

  /** Replacing a project by one holding the same inspections leaves the
      traversal as it was. */
  lemma {:induction false} AllInspectionsSameAt(ps: seq<Project>, i: nat, q: Project)
    requires i < |ps| && ProjectInspections(q) == ProjectInspections(ps[i])
    ensures AllInspections(ps[i := q]) == AllInspections(ps)
  {
    var pre, post := ps[..i], ps[i + 1..];
    assert ps == pre + [ps[i]] + post;
    assert ps[i := q] == pre + [q] + post;
    AllInspectionsAppend(pre + [ps[i]], post);
    AllInspectionsAppend(pre + [q], post);
    assert (pre + [ps[i]])[..|pre|] == pre;
    assert (pre + [q])[..|pre|] == pre;
  }

  /** The traversal after project `i` of `ps` became `q`, in terms of the
      array of home `o` that changed from `ArrayAt(ps[i], o)` to `a`. */
  lemma AllInspectionsWriteBack(ps: seq<Project>, i: nat, o: Owner, a: seq<Inspection>, now: Time)
    requires FirstWithId(ps, i) && ValidOwner(ps[i], o)
    ensures multiset(AllInspections(WriteBack(ps, WithArray(ps[i], o, a), now)))
              + multiset(ArrayAt(ps[i], o).GetOr([]))
         == multiset(AllInspections(ps)) + multiset(a)
  {
    var q := WithArray(ps[i], o, a);
    WriteBackAt(ps, i, q, now);
    var q' := q.(updatedAt := now);
    AllInspectionsReplace(ps, i, q');
    assert ProjectInspections(q') == ProjectInspections(q);
    ProjectInspectionsWithArray(ps[i], o, a);
    var pq, pi := multiset(ProjectInspections(q)), multiset(ProjectInspections(ps[i]));
    var olda := multiset(ArrayAt(ps[i], o).GetOr([]));
    var after, before := multiset(AllInspections(ps[i := q'])), multiset(AllInspections(ps));
    assert after + pi == before + pq;
    assert pq + olda == pi + multiset(a);
    MultisetShift(after, before, pi, pq, olda, multiset(a));
  }

  /** Appending `x` to the array of home `o` of project `i` adds one copy
      of `x` to the traversal and changes nothing else. */
  lemma AllInspectionsWriteBackAppend(ps: seq<Project>, i: nat, o: Owner, x: Inspection, now: Time)
    requires FirstWithId(ps, i) && ValidOwner(ps[i], o)
    ensures multiset(AllInspections(WriteBack(ps, WithArray(ps[i], o, ArrayAt(ps[i], o).GetOr([]) + [x]), now)))
         == multiset(AllInspections(ps)) + multiset{x}
  {
    var old_ := ArrayAt(ps[i], o).GetOr([]);
    AllInspectionsWriteBack(ps, i, o, old_ + [x], now);
    assert multiset(old_ + [x]) == multiset(old_) + multiset{x};
    MultisetCancel(multiset(AllInspections(WriteBack(ps, WithArray(ps[i], o, old_ + [x]), now))),
                   multiset(AllInspections(ps)), multiset(old_), multiset{x});
  }

  /** The milestone named by `x.milestoneId` exists but has no
      `inspections` array: `createInspection` drops the inspection. */
  ghost predicate DroppedOnCreate(ps: seq<Project>, x: Inspection) {
    && x.milestoneId.Some?
    && MilestoneHome(ps, x.milestoneId.value).Some?
    && var i := MilestoneHome(ps, x.milestoneId.value).value;
       ps[i].milestones[MilestoneIndex(ps[i], x.milestoneId.value).value].inspections.None?
  }

  /** After `createInspection`, the traversal of `getAllInspections` holds
      exactly one more copy of the new inspection, unless it was dropped
      or no project could take it. */
  lemma CreateInspectionFoundOnce(ps: seq<Project>, x: Inspection, now: Time)
    requires UniqueIds(ps)
    ensures var r := AddInspection(ps, x, now);
            && (r.None? ==> !DroppedOnCreate(ps, x) && ProjectIndex(ps, x.projectId).None?)
            && (r.Some? && DroppedOnCreate(ps, x) ==>
                  multiset(AllInspections(r.value)) == multiset(AllInspections(ps)))
            && (r.Some? && !DroppedOnCreate(ps, x) ==>
                  multiset(AllInspections(r.value)) == multiset(AllInspections(ps)) + multiset{x})
  {
    var r := AddInspection(ps, x, now);
    if r.Some? {
      if x.milestoneId.Some? && MilestoneHome(ps, x.milestoneId.value).Some? {
        var i := MilestoneHome(ps, x.milestoneId.value).value;
        var k := MilestoneIndex(ps[i], x.milestoneId.value).value;
        var a := ps[i].milestones[k].inspections;
        FirstWithIdOfUnique(ps, i);
        if a.Some? {
          assert r.value == WriteBack(ps, WithArray(ps[i], OfMilestone(k), a.value + [x]), now);
          AllInspectionsWriteBackAppend(ps, i, OfMilestone(k), x, now);
        } else {
          assert r.value == ps[i := ps[i].(updatedAt := now)];
          AllInspectionsSameAt(ps, i, ps[i].(updatedAt := now));
        }
      } else {
        var j := ProjectIndex(ps, x.projectId).value;
        assert r.value == WriteBack(ps, WithArray(ps[j], OfProject, ps[j].inspections.GetOr([]) + [x]), now);
        AllInspectionsWriteBackAppend(ps, j, OfProject, x, now);
      }
    }
  }

  /** With unique project ids a fresh inspection that was stored is found
      by `getAllInspections` exactly once. */
  lemma CreatedInspectionCountedOnce(ps: seq<Project>, x: Inspection, now: Time)
    requires UniqueIds(ps) && x !in AllInspections(ps)
    requires AddInspection(ps, x, now).Some? && !DroppedOnCreate(ps, x)
    ensures multiset(AllInspections(AddInspection(ps, x, now).value))[x] == 1
  {
    CreateInspectionFoundOnce(ps, x, now);
  }

  /** `updateInspection` replaces one record of the traversal by its merged
      version and keeps the count. */
  lemma UpdateInspectionReplacesOne(ps: seq<Project>, id: string, u: InspectionPatch, now: Time)
    requires UniqueIds(ps)
    ensures var r := UpdateInspectionIn(ps, id, u, now);
            r.0.Some? ==>
              var s := Locate(ps, id).value;
              var old_ := ArrayAt(ps[s.project], s.owner).value[s.index];
              && old_.id == id
              && multiset(AllInspections(r.1)) + multiset{old_}
                   == multiset(AllInspections(ps)) + multiset{r.0.value}
              && |AllInspections(r.1)| == |AllInspections(ps)|
  {
    var r := UpdateInspectionIn(ps, id, u, now);
    if r.0.Some? {
      var s := Locate(ps, id).value;
      var a := ArrayAt(ps[s.project], s.owner).value;
      FirstWithIdOfUnique(ps, s.project);
      AllInspectionsWriteBack(ps, s.project, s.owner, a[s.index := r.0.value], now);
      MultisetSwapOne(multiset(AllInspections(r.1)), multiset(AllInspections(ps)), a, s.index, r.0.value);
    }
  }

  /** `deleteInspection` removes only records with that id, at least one,
      and every other inspection stays as often as it was. */
  lemma DeleteInspectionRemovesOnlyThatId(ps: seq<Project>, id: string, now: Time)
    requires UniqueIds(ps)
    ensures var r := DeleteInspectionIn(ps, id, now);
            r.0 ==>
              && |AllInspections(r.1)| < |AllInspections(ps)|
              && multiset(AllInspections(r.1)) <= multiset(AllInspections(ps))
              && forall y: Inspection :: y.id != id ==>
                   multiset(AllInspections(r.1))[y] == multiset(AllInspections(ps))[y]
  {
    var r := DeleteInspectionIn(ps, id, now);
    if r.0 {
      var s := Locate(ps, id).value;
      var a := ArrayAt(ps[s.project], s.owner).value;
      var w := InspectionsWithout(a, id);
      FirstWithIdOfUnique(ps, s.project);
      AllInspectionsWriteBack(ps, s.project, s.owner, w, now);
      var m1, m2 := multiset(AllInspections(r.1)), multiset(AllInspections(ps));
      assert m1 + multiset(a) == m2 + multiset(w);
      forall y: Inspection
        ensures m1[y] <= m2[y]
        ensures y.id != id ==> m1[y] == m2[y]
      {
        assert (m1 + multiset(a))[y] == (m2 + multiset(w))[y];
      }
      assert |w| < |a|;
      MultisetSizes(m1, m2, a, w);
    }
  }

  // ---------------------------------------------------------------------
  // getDashboardData

  /** `p => p.status === st`. */
  function StatusIs(st: ProjectStatus): Project -> bool {
    (p: Project) => p.status == st
  }

  /** The filter of `delayedProjects`: on hold, or past its end date and
      not completed. */
  function IsDelayed(now: Time): (r: Project -> bool)
    ensures forall p: Project :: p.status == OnHold ==> r(p)
    ensures forall p: Project :: p.status == ProjectStatus.Completed ==> !r(p)
    ensures forall p: Project :: p.status == Active && now <= p.endDate ==> !r(p)
    ensures forall p: Project :: p.endDate < now && p.status != ProjectStatus.Completed ==> r(p)
  {
    (p: Project) => p.status == OnHold || (p.endDate < now && p.status != ProjectStatus.Completed)
  }

  /** `i => i.status === 'issued'`. */
  function IsPending(v: Invoice): bool {
    v.status == Issued
  }

  /** `i => i.status === 'issued' && new Date(i.dueDate) < new Date()`. */
  function IsOverdue(now: Time): (r: Invoice -> bool)
    ensures forall v: Invoice :: r(v) ==> IsPending(v)
    ensures forall v: Invoice :: r(v) ==> v.dueDate < now
    ensures forall v: Invoice :: IsPending(v) && v.dueDate < now ==> r(v)
  {
    (v: Invoice) => v.status == Issued && v.dueDate < now
  }

  /** `projects.flatMap(p => p.invoices)`. */
  function AllInvoices(ps: seq<Project>): (r: seq<Invoice>)
    ensures forall i, v :: 0 <= i < |ps| && v in ps[i].invoices ==> v in r
    ensures forall v :: v in r ==> exists i :: 0 <= i < |ps| && v in ps[i].invoices
  {
    if ps == [] then [] else AllInvoices(ps[..|ps| - 1]) + ps[|ps| - 1].invoices
  }

  /** `projects.reduce((sum, p) => sum + p.totalFee, 0)`. */
  function Revenue(ps: seq<Project>): (r: int)
    ensures (forall i :: 0 <= i < |ps| ==> ps[i].totalFee >= 0) ==>
              r >= 0 && forall i :: 0 <= i < |ps| ==> r >= ps[i].totalFee
  {
    if ps == [] then 0 else Revenue(ps[..|ps| - 1]) + ps[|ps| - 1].totalFee
  }

  /** Non-increasing `updatedAt`: newest first. */
  ghost predicate NewestFirst(s: seq<Project>) {
    forall i, j :: 0 <= i < j < |s| ==> s[i].updatedAt >= s[j].updatedAt
  }

  /** One step of the stable sort: `x` goes before the first element that
      is not newer than it. */
  function InsertByRecency(x: Project, s: seq<Project>): (r: seq<Project>)
    requires NewestFirst(s)
    ensures NewestFirst(r)
    ensures multiset(r) == multiset(s) + multiset{x}
    ensures |r| == |s| + 1 && (r[0] == x || (s != [] && r[0] == s[0]))
  {
    if s == [] || s[0].updatedAt <= x.updatedAt then
      ConsNewestFirst(x, s);
      [x] + s
    else
      assert s == [s[0]] + s[1..];
      assert NewestFirst(s[1..]) by {
        forall i, j | 0 <= i < j < |s| - 1 ensures s[1..][i].updatedAt >= s[1..][j].updatedAt {
          assert s[1..][i] == s[i + 1] && s[1..][j] == s[j + 1];
        }
      }
      var rest := InsertByRecency(x, s[1..]);
      ConsNewestFirst(s[0], rest);
      assert multiset([s[0]] + rest) == multiset{s[0]} + multiset(rest);
      [s[0]] + rest
  }

  /** A project no older than the head of a newest-first list can go in
      front of it. */
  lemma ConsNewestFirst(y: Project, t: seq<Project>)
    requires NewestFirst(t) && (t != [] ==> y.updatedAt >= t[0].updatedAt)
    ensures NewestFirst([y] + t)
  {
    var r := [y] + t;
    forall i, j | 0 <= i < j < |r| ensures r[i].updatedAt >= r[j].updatedAt {
      if i == 0 {
        assert r[j] == t[j - 1];
      } else {
        assert r[i] == t[i - 1] && r[j] == t[j - 1];
      }
    }
  }

  /** `projects.sort((a, b) => b.updatedAt - a.updatedAt)`: a stable sort,
      newest first. */
  function SortByRecency(s: seq<Project>): (r: seq<Project>)
    ensures NewestFirst(r)
    ensures multiset(r) == multiset(s) && |r| == |s|
  {
    if s == [] then []
    else
      assert s == [s[0]] + s[1..];
      InsertByRecency(s[0], SortByRecency(s[1..]))
  }

  /** The first `n` of the sorted list are newest first, come from `ps`, and
      every project left out is no newer than any project kept. */
  lemma TopOfSorted(ps: seq<Project>, sorted: seq<Project>, n: nat)
    requires NewestFirst(sorted) && multiset(sorted) == multiset(ps) && n <= |sorted|
    ensures NewestFirst(sorted[..n])
    ensures multiset(sorted[..n]) <= multiset(ps)
    ensures forall j :: 0 <= j < |ps| && ps[j] !in sorted[..n] ==>
              forall k :: 0 <= k < n ==> ps[j].updatedAt <= sorted[k].updatedAt
  {
    assert sorted == sorted[..n] + sorted[n..];
    assert multiset(sorted) == multiset(sorted[..n]) + multiset(sorted[n..]);
    forall j | 0 <= j < |ps| && ps[j] !in sorted[..n]
      ensures forall k :: 0 <= k < n ==> ps[j].updatedAt <= sorted[k].updatedAt
    {
      assert ps[j] in multiset(ps);
      assert ps[j] in sorted;
      var m :| 0 <= m < |sorted| && sorted[m] == ps[j];
      assert m >= n;
    }
  }

  datatype Dashboard = Dashboard(
    totalProjects: nat, activeProjects: nat, completedProjects: nat, delayedProjects: nat,
    totalRevenue: int, pendingInvoices: nat, overdueInvoices: nat, resourceUtilization: int,
    upcomingDeadlines: int, pendingInspections: int, recentProjects: seq<Project>)

  /** `[...projects].sort(newest first).slice(0, 5)`: the five most
      recently updated projects, newest first. */
  function RecentProjects(ps: seq<Project>): (r: seq<Project>)
    ensures |r| == if |ps| < 5 then |ps| else 5
    ensures NewestFirst(r)
    ensures multiset(r) <= multiset(ps)
    ensures forall j :: 0 <= j < |ps| && ps[j] !in r ==>
              forall k :: 0 <= k < |r| ==> ps[j].updatedAt <= r[k].updatedAt
  {
    var n := if |ps| < 5 then |ps| else 5;
    var sorted := SortByRecency(ps);
    TopOfSorted(ps, sorted, n);
    sorted[..n]
  }

  /** `getDashboardData`, with the clock reading `now`. */
  function DashboardData(ps: seq<Project>, now: Time): (d: Dashboard)
    ensures d.totalProjects == |ps|
    ensures d.activeProjects + d.completedProjects <= d.totalProjects
    ensures d.delayedProjects <= d.totalProjects
    ensures d.overdueInvoices <= d.pendingInvoices <= |AllInvoices(ps)|
    ensures d.recentProjects == RecentProjects(ps)
  {
    var invoices := AllInvoices(ps);
    FilterDisjoint(ps, StatusIs(Active), StatusIs(ProjectStatus.Completed));
    FilterImplies(invoices, IsOverdue(now), IsPending);
    Dashboard(
      |ps|, |Filter(ps, StatusIs(Active))|, |Filter(ps, StatusIs(ProjectStatus.Completed))|,
      |Filter(ps, IsDelayed(now))|, Revenue(ps), |Filter(invoices, IsPending)|,
      |Filter(invoices, IsOverdue(now))|, 75, 3, 5, RecentProjects(ps))
  }

  // ---------------------------------------------------------------------
  // searchProjects

  /** `String.prototype.toLowerCase` on the ASCII letters. */
  function Lower(s: string): (r: string)
    ensures |r| == |s|
    ensures forall i {:trigger r[i]} :: 0 <= i < |s| ==> r[i] == LowerChar(s[i])
  {
    seq(|s|, k requires 0 <= k < |s| => LowerChar(s[k]))
  }

  /** One character of `toLowerCase`: A-Z become a-z, the rest stay. */
  function LowerChar(c: char): (r: char)
    ensures 'A' <= c <= 'Z' ==> 'a' <= r <= 'z' && r as int == c as int + 32
    ensures !('A' <= c <= 'Z') ==> r == c
  {
    if 'A' <= c <= 'Z' then (c as int + 32) as char else c
  }

  /** `sub` occurs in `s` starting at index `k`. */
  ghost predicate OccursAt(s: string, sub: string, k: nat) {
    k + |sub| <= |s| && s[k..k + |sub|] == sub
  }

  /** `s.includes(sub)`: true exactly when `sub` occurs in `s` at some
      index. */
  predicate Includes(s: string, sub: string)
    ensures Includes(s, sub) <==> exists k: nat :: k <= |s| && OccursAt(s, sub, k)
  {
    if |sub| > |s| then false
    else if s[..|sub|] == sub then
      assert OccursAt(s, sub, 0);
      true
    else
      assert s[0..|sub|] == s[..|sub|];
      OccursShift(s, sub);
      Includes(s[1..], sub)
  }

  /** When `sub` does not start `s`, it occurs in `s` exactly when it
      occurs in the tail, one index earlier. */
  lemma OccursShift(s: string, sub: string)
    requires |s| > 0 && !OccursAt(s, sub, 0)
    ensures (exists k: nat :: k <= |s| && OccursAt(s, sub, k))
            <==> (exists k: nat :: k <= |s| - 1 && OccursAt(s[1..], sub, k))
  {
    if k: nat :| k <= |s| && OccursAt(s, sub, k) {
      assert s[1..][k - 1..k - 1 + |sub|] == s[k..k + |sub|];
      assert OccursAt(s[1..], sub, k - 1);
    }
    if k: nat :| k <= |s| - 1 && OccursAt(s[1..], sub, k) {
      assert s[1..][k..k + |sub|] == s[k + 1..k + 1 + |sub|];
      assert OccursAt(s, sub, k + 1);
    }
  }

  lemma {:induction false} IncludesItself(s: string)
    ensures Includes(s, s) && Includes(s, "")
  {
    assert s[..|s|] == s;
    assert s[..0] == "";
  }

  lemma {:induction false} IncludesSlice(s: string, i: nat, j: nat)
    requires i <= j <= |s|
    ensures Includes(s, s[i..j])
    decreases i
  {
    if i == 0 {
      assert s[..j - i] == s[i..j];
    } else {
      IncludesSlice(s[1..], i - 1, j - 1);
      assert s[1..][i - 1..j - 1] == s[i..j];
    }
  }

  /** The string value of a project's `type`. */
  function ProjectTypeName(t: ProjectType): string {
    match t
    case Architecture => "architecture"
    case Pmc => "pmc"
    case DesignPmc => "design_pmc"
    case Liaising => "liaising"
  }

  /** The string value of a project's `status`. */
  function ProjectStatusName(st: ProjectStatus): string {
    match st
    case Planning => "planning"
    case Active => "active"
    case OnHold => "on_hold"
    case Completed => "completed"
    case Cancelled => "cancelled"
  }

  /** The test `searchProjects` applies, with the query already lower-cased. */
  function MatchesQuery(q: string): Project -> bool {
    (p: Project) =>
      || Includes(Lower(p.name), q)
      || Includes(Lower(p.description), q)
      || Includes(Lower(ProjectTypeName(p.projectType)), q)
      || Includes(Lower(ProjectStatusName(p.status)), q)
  }

  /** `searchProjects(query)`: the projects whose name, description, type
      or status contains the query, ignoring case, in stored order. */
  function SearchProjects(ps: seq<Project>, query: string): (r: seq<Project>)
    ensures IsSubsequence(r, ps)
    ensures forall i :: 0 <= i < |r| ==> MatchesQuery(Lower(query))(r[i])
    ensures forall i :: 0 <= i < |ps| && MatchesQuery(Lower(query))(ps[i]) ==> ps[i] in r
    ensures forall y :: multiset(r)[y] == if MatchesQuery(Lower(query))(y) then multiset(ps)[y] else 0
    ensures query == "" ==> r == ps
  {
    EmptyQueryMatchesAll(ps);
    FilterCount(ps, MatchesQuery(Lower(query)));
    Filter(ps, MatchesQuery(Lower(query)))
  }

  /** The empty query is contained in every name. */
  lemma EmptyQueryMatchesAll(ps: seq<Project>)
    ensures forall i :: 0 <= i < |ps| ==> MatchesQuery(Lower(""))(ps[i])
  {
    forall i | 0 <= i < |ps| ensures MatchesQuery(Lower(""))(ps[i]) {
      IncludesItself(Lower(ps[i].name));
    }
  }

  /** Lower-casing commutes with slicing. */
  lemma LowerOfSlice(s: string, i: nat, j: nat)
    requires i <= j <= |s|
    ensures Lower(s[i..j]) == Lower(s)[i..j]
  {
    var a, b := Lower(s[i..j]), Lower(s)[i..j];
    assert |a| == |b|;
    forall k | 0 <= k < |a| ensures a[k] == b[k] {
      assert a[k] == LowerChar(s[i..j][k]);
      assert b[k] == Lower(s)[i + k] == LowerChar(s[i + k]);
    }
  }

  /** A string with no capital letter is its own lower-case form. */
  lemma LowerKeepsLowerCase(s: string)
    requires forall i :: 0 <= i < |s| ==> !('A' <= s[i] <= 'Z')
    ensures Lower(s) == s
  {
  }

  /** Status names are written in lower case. */
  lemma StatusNameIsLowerCase(st: ProjectStatus)
    ensures forall i :: 0 <= i < |ProjectStatusName(st)| ==> !('A' <= ProjectStatusName(st)[i] <= 'Z')
  {
  }

  /** Searching for a status keeps every project in that status. */
  lemma SearchFindsStatus(ps: seq<Project>, st: ProjectStatus)
    ensures forall i :: 0 <= i < |ps| && ps[i].status == st ==>
              ps[i] in SearchProjects(ps, ProjectStatusName(st))
  {
    var q := ProjectStatusName(st);
    StatusNameIsLowerCase(st);
    LowerKeepsLowerCase(q);
    forall i | 0 <= i < |ps| && ps[i].status == st
      ensures MatchesQuery(Lower(q))(ps[i])
    {
      IncludesItself(q);
    }
  }

  /** Searching for any part of a project's name finds that project,
      whatever the case of the letters. */
  lemma SearchFindsNamePart(ps: seq<Project>, k: nat, i: nat, j: nat)
    requires k < |ps| && i <= j <= |ps[k].name|
    ensures ps[k] in SearchProjects(ps, ps[k].name[i..j])
  {
    var name := ps[k].name;
    LowerOfSlice(name, i, j);
    IncludesSlice(Lower(name), i, j);
  }
}
