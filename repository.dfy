/** What the nested operations of `LocalStorageManager`
    (lib/storage/manager.ts) do to the stored list of projects.

    Milestones, tasks, invoices and inspections have no collection of their
    own: each operation scans the projects, edits one project's embedded
    array and stores that project again with `updateProject(project.id,
    project)`, which overwrites the FIRST stored project carrying that id
    and stamps it with the clock. The functions here give the resulting
    list; class `Storage.LocalStorageManager` runs the scans step by step
    and is proved to produce exactly these lists. */
module Repository {
  import opened Util
  import opened Types

  // ---------------------------------------------------------------------
  // Locating projects and milestones

  /** No project before index `i` has the id of project `i`. */
  ghost predicate FirstWithId(ps: seq<Project>, i: nat) {
    i < |ps| && forall k :: 0 <= k < i ==> ps[k].id != ps[i].id
  }

  /** No two stored projects share an id (what `generateId` aims at). */
  ghost predicate UniqueIds(ps: seq<Project>) {
    forall i, j :: 0 <= i < j < |ps| ==> ps[i].id != ps[j].id
  }

  /** Only index `i` may differ between `ps` and `qs`. */
  ghost predicate ChangedAtMost(ps: seq<Project>, qs: seq<Project>, i: nat) {
    |qs| == |ps| && forall k :: 0 <= k < |ps| && k != i ==> qs[k] == ps[k]
  }

  /** `projects.findIndex(p => p.id === id)`: where `getProjectById` reads
      and where `updateProject` writes. */
  function ProjectIndex(ps: seq<Project>, id: string): (r: Option<nat>)
    ensures r.Some? ==> r.value < |ps| && ps[r.value].id == id && FirstWithId(ps, r.value)
    ensures r.None? <==> forall k :: 0 <= k < |ps| ==> ps[k].id != id
  {
    FindIndex(ps, (p: Project) => p.id == id)
  }

  /** `project.milestones.findIndex(m => m.id === id)`. */
  function MilestoneIndex(p: Project, id: string): (r: Option<nat>)
    ensures r.Some? ==> r.value < |p.milestones| && p.milestones[r.value].id == id
    ensures r.Some? ==> forall k :: 0 <= k < r.value ==> p.milestones[k].id != id
    ensures r.None? <==> forall k :: 0 <= k < |p.milestones| ==> p.milestones[k].id != id
  {
    FindIndex(p.milestones, (m: Milestone) => m.id == id)
  }

  /** The first project, in stored order, that has a milestone `id`. */
  function MilestoneHome(ps: seq<Project>, id: string): (r: Option<nat>)
    ensures r.Some? ==> r.value < |ps| && MilestoneIndex(ps[r.value], id).Some?
    ensures r.Some? ==> forall k :: 0 <= k < r.value ==> MilestoneIndex(ps[k], id).None?
    ensures r.None? <==> forall i, k :: 0 <= i < |ps| && 0 <= k < |ps[i].milestones| ==>
                                         ps[i].milestones[k].id != id
  {
    var r := FindIndex(ps, (p: Project) => MilestoneIndex(p, id).Some?);
    assert r.None? ==> forall i :: 0 <= i < |ps| ==> MilestoneIndex(ps[i], id).None?;
    r
  }

  /** The scan for milestone `id` stops at the first project holding one. */
  lemma MilestoneHomeAt(ps: seq<Project>, id: string, i: nat)
    requires i < |ps| && MilestoneIndex(ps[i], id).Some?
    requires forall k :: 0 <= k < i ==> MilestoneIndex(ps[k], id).None?
    ensures MilestoneHome(ps, id) == Some(i)
  {
    var k := MilestoneIndex(ps[i], id).value;
    assert ps[i].milestones[k].id == id;
  }

  /** A scan that found milestone `id` nowhere. */
  lemma MilestoneHomeNone(ps: seq<Project>, id: string)
    requires forall k :: 0 <= k < |ps| ==> MilestoneIndex(ps[k], id).None?
    ensures MilestoneHome(ps, id).None?
  {
  }

  lemma FirstWithIdOfUnique(ps: seq<Project>, i: nat)
    requires UniqueIds(ps) && i < |ps|
    ensures FirstWithId(ps, i)
  {
  }

  /** The list after `updateProject(q.id, q)`, where `q` is a whole
      project passed as its own update. */
  function WriteBack(ps: seq<Project>, q: Project, now: Time): (r: seq<Project>)
    ensures ProjectIndex(ps, q.id).None? ==> r == ps
    ensures ProjectIndex(ps, q.id).Some? ==>
              var j := ProjectIndex(ps, q.id).value;
              ChangedAtMost(ps, r, j) && r[j] == Overlay(ps[j], q, now)
  {
    match ProjectIndex(ps, q.id)
    case None => ps
    case Some(j) => ps[j := MergeProject(ps[j], WholeProject(q), now)]
  }

  /** Writing back a project found at index `i` replaces index `i` only,
      provided no earlier project has the same id; when `q` keeps the
      inspections key of `ps[i]` or carries one, index `i` becomes `q`
      itself with the new stamp. */
  lemma {:induction false} WriteBackAt(ps: seq<Project>, i: nat, q: Project, now: Time)
    requires i < |ps| && q.id == ps[i].id
    ensures FirstWithId(ps, i) ==> ChangedAtMost(ps, WriteBack(ps, q, now), i)
    ensures FirstWithId(ps, i) ==> WriteBack(ps, q, now) == ps[i := Overlay(ps[i], q, now)]
    ensures FirstWithId(ps, i) && (q.inspections.Some? || q.inspections == ps[i].inspections) ==>
              WriteBack(ps, q, now) == ps[i := q.(updatedAt := now)]
  {
  }

  /** Two projects with one id: a milestone edit found in the second is
      written over the first, and the second stays as it was; the first
      keeps its own inspections when the second has none. */
  lemma WriteBackToFirstOfDuplicates(ps: seq<Project>, q: Project, now: Time)
    requires |ps| == 2 && ps[0].id == ps[1].id && q.id == ps[1].id
    ensures WriteBack(ps, q, now) == [Overlay(ps[0], q, now), ps[1]]
    ensures q.inspections.None? ==> WriteBack(ps, q, now)[0].inspections == ps[0].inspections
  {
  }

  // ---------------------------------------------------------------------
  // createMilestone, createInvoice, createTask

  /** `createMilestone` with the stamped milestone `m`: `None` when
      `m.projectId` names no project (the source throws and writes nothing). */
  function AddMilestone(ps: seq<Project>, m: Milestone, now: Time): (r: Option<seq<Project>>)
    ensures r.None? <==> forall k :: 0 <= k < |ps| ==> ps[k].id != m.projectId
    ensures r.Some? ==>
              var j := ProjectIndex(ps, m.projectId).value;
              && ChangedAtMost(ps, r.value, j)
              && r.value[j].milestones == ps[j].milestones + [m]
              && r.value[j].updatedAt == now
              && r.value[j] == ps[j].(milestones := r.value[j].milestones, updatedAt := now)
  {
    match ProjectIndex(ps, m.projectId)
    case None => None
    case Some(j) =>
      var q := ps[j].(milestones := ps[j].milestones + [m]);
      WriteBackAt(ps, j, q, now);
      Some(WriteBack(ps, q, now))
  }

  /** `createInvoice` with the stamped invoice `v`: `None` when `v.projectId`
      names no project (the source throws and writes nothing). */
  function AddInvoice(ps: seq<Project>, v: Invoice, now: Time): (r: Option<seq<Project>>)
    ensures r.None? <==> forall k :: 0 <= k < |ps| ==> ps[k].id != v.projectId
    ensures r.Some? ==>
              var j := ProjectIndex(ps, v.projectId).value;
              && ChangedAtMost(ps, r.value, j)
              && r.value[j].invoices == ps[j].invoices + [v]
              && r.value[j] == ps[j].(invoices := r.value[j].invoices, updatedAt := now)
  {
    match ProjectIndex(ps, v.projectId)
    case None => None
    case Some(j) =>
      var q := ps[j].(invoices := ps[j].invoices + [v]);
      WriteBackAt(ps, j, q, now);
      Some(WriteBack(ps, q, now))
  }

  /** Project `p` with milestone `k` replaced by `m`. */
  function WithMilestone(p: Project, k: nat, m: Milestone): Project
    requires k < |p.milestones|
  {
    p.(milestones := p.milestones[k := m])
  }

  /** `createTask` with the stamped task `t`. The home is the first project
      in stored order that has a milestone `t.milestoneId`, whatever
      `t.projectId` says; `None` when no milestone has that id (the source
      throws and writes nothing). */
  function AddTask(ps: seq<Project>, t: Task, now: Time): (r: Option<seq<Project>>)
    ensures r.None? <==> forall i, k :: 0 <= i < |ps| && 0 <= k < |ps[i].milestones| ==>
                                        ps[i].milestones[k].id != t.milestoneId
    ensures r.Some? ==>
              var i := MilestoneHome(ps, t.milestoneId).value;
              var k := MilestoneIndex(ps[i], t.milestoneId).value;
              var m := ps[i].milestones[k];
              FirstWithId(ps, i) ==>
                && ChangedAtMost(ps, r.value, i)
                && r.value[i] == WithMilestone(ps[i], k, m.(tasks := m.tasks + [t])).(updatedAt := now)
  {
    match MilestoneHome(ps, t.milestoneId)
    case None => None
    case Some(i) =>
      var k := MilestoneIndex(ps[i], t.milestoneId).value;
      var m := ps[i].milestones[k];
      var q := WithMilestone(ps[i], k, m.(tasks := m.tasks + [t]));
      WriteBackAt(ps, i, q, now);
      Some(WriteBack(ps, q, now))
  }

  // ---------------------------------------------------------------------
  // updateMilestone, updateInvoice, deleteInvoice, getInvoiceById

  /** `updateMilestone`: the first milestone `id` of the first project that
      has one is merged with `u`; `None` and no change when there is none. */
  function UpdateMilestoneIn(ps: seq<Project>, id: string, u: MilestonePatch, now: Time)
    : (r: (Option<Milestone>, seq<Project>))
    ensures r.0.None? <==> forall i, k :: 0 <= i < |ps| && 0 <= k < |ps[i].milestones| ==>
                                           ps[i].milestones[k].id != id
    ensures r.0.None? ==> r.1 == ps
    ensures r.0.Some? ==>
              var i := MilestoneHome(ps, id).value;
              var k := MilestoneIndex(ps[i], id).value;
              && r.0.value == MergeMilestone(ps[i].milestones[k], u, now)
              && (FirstWithId(ps, i) ==>
                    ChangedAtMost(ps, r.1, i) &&
                    r.1[i] == WithMilestone(ps[i], k, r.0.value).(updatedAt := now))
  {
    match MilestoneHome(ps, id)
    case None => (None, ps)
    case Some(i) =>
      var k := MilestoneIndex(ps[i], id).value;
      var m := MergeMilestone(ps[i].milestones[k], u, now);
      var q := WithMilestone(ps[i], k, m);
      WriteBackAt(ps, i, q, now);
      (Some(m), WriteBack(ps, q, now))
  }

  /** Two projects with one id, where only the second has milestone `id`
      and it has no inspections: editing the milestone copies the second
      over the first, whose inspections stay, and leaves the second as it
      was. */
  lemma MilestoneEditOnDuplicateKeepsInspections(
    ps: seq<Project>, id: string, u: MilestonePatch, now: Time)
    requires |ps| == 2 && ps[0].id == ps[1].id && ps[1].inspections.None?
    requires MilestoneIndex(ps[0], id).None? && MilestoneIndex(ps[1], id).Some?
    ensures UpdateMilestoneIn(ps, id, u, now).1[0].inspections == ps[0].inspections
    ensures UpdateMilestoneIn(ps, id, u, now).1[1] == ps[1]
  {
    var k := MilestoneIndex(ps[1], id).value;
    var q := WithMilestone(ps[1], k, MergeMilestone(ps[1].milestones[k], u, now));
    assert MilestoneHome(ps, id) == Some(1);
    WriteBackToFirstOfDuplicates(ps, q, now);
  }

  /** `project.invoices.findIndex(inv => inv.id === id)`. */
  function InvoiceIndex(p: Project, id: string): (r: Option<nat>)
    ensures r.Some? ==> r.value < |p.invoices| && p.invoices[r.value].id == id
    ensures r.Some? ==> forall k :: 0 <= k < r.value ==> p.invoices[k].id != id
    ensures r.None? <==> forall k :: 0 <= k < |p.invoices| ==> p.invoices[k].id != id
  {
    FindIndex(p.invoices, (v: Invoice) => v.id == id)
  }

  /** `getInvoiceById(projectId, invoiceId)`. */
  function GetInvoice(ps: seq<Project>, projectId: string, invoiceId: string): (r: Option<Invoice>)
    ensures r.Some? <==> ProjectIndex(ps, projectId).Some? &&
                         exists v :: v in ps[ProjectIndex(ps, projectId).value].invoices && v.id == invoiceId
    ensures r.Some? ==> r.value.id == invoiceId && r.value in ps[ProjectIndex(ps, projectId).value].invoices
    ensures r.Some? ==> var j := ProjectIndex(ps, projectId).value;
                        r.value == ps[j].invoices[InvoiceIndex(ps[j], invoiceId).value]
  {
    match ProjectIndex(ps, projectId)
    case None => None
    case Some(j) =>
      match InvoiceIndex(ps[j], invoiceId)
      case None => None
      case Some(x) => Some(ps[j].invoices[x])
  }

  /** `updateInvoice`: `None` and no change when the project or the invoice
      is missing; otherwise that invoice is merged with `u`. */
  function UpdateInvoiceIn(ps: seq<Project>, projectId: string, invoiceId: string,
                           u: InvoicePatch, now: Time): (r: (Option<Invoice>, seq<Project>))
    ensures r.0.None? <==> GetInvoice(ps, projectId, invoiceId).None?
    ensures r.0.None? ==> r.1 == ps
    ensures r.0.Some? ==>
              var j := ProjectIndex(ps, projectId).value;
              var x := InvoiceIndex(ps[j], invoiceId).value;
              && r.0.value == MergeInvoice(ps[j].invoices[x], u, now)
              && ChangedAtMost(ps, r.1, j)
              && r.1[j] == ps[j].(invoices := ps[j].invoices[x := r.0.value], updatedAt := now)
  {
    match ProjectIndex(ps, projectId)
    case None => (None, ps)
    case Some(j) =>
      match InvoiceIndex(ps[j], invoiceId)
      case None => (None, ps)
      case Some(x) =>
        var v := MergeInvoice(ps[j].invoices[x], u, now);
        var q := ps[j].(invoices := ps[j].invoices[x := v]);
        WriteBackAt(ps, j, q, now);
        (Some(v), WriteBack(ps, q, now))
  }

  /** `invoices.filter(inv => inv.id !== id)`. */
  function InvoicesWithout(vs: seq<Invoice>, id: string): (r: seq<Invoice>)
    ensures forall i :: 0 <= i < |r| ==> r[i] in vs && r[i].id != id
    ensures forall i :: 0 <= i < |vs| && vs[i].id != id ==> vs[i] in r
    ensures IsSubsequence(r, vs)
    ensures forall y :: multiset(r)[y] == if y.id != id then multiset(vs)[y] else 0
    ensures |r| == |vs| <==> forall i :: 0 <= i < |vs| ==> vs[i].id != id
    ensures |r| == |vs| ==> r == vs
  {
    FilterCount(vs, (v: Invoice) => v.id != id);
    Filter(vs, (v: Invoice) => v.id != id)
  }

  /** `deleteInvoice`: `false` and no change when the project is missing or
      holds no invoice `invoiceId`; otherwise every such invoice goes. */
  function DeleteInvoiceIn(ps: seq<Project>, projectId: string, invoiceId: string, now: Time)
    : (r: (bool, seq<Project>))
    ensures r.0 <==> GetInvoice(ps, projectId, invoiceId).Some?
    ensures !r.0 ==> r.1 == ps
    ensures r.0 ==>
              var j := ProjectIndex(ps, projectId).value;
              && ChangedAtMost(ps, r.1, j)
              && r.1[j] == ps[j].(invoices := InvoicesWithout(ps[j].invoices, invoiceId), updatedAt := now)
  {
    match ProjectIndex(ps, projectId)
    case None => (false, ps)
    case Some(j) =>
      var vs := InvoicesWithout(ps[j].invoices, invoiceId);
      if |vs| == |ps[j].invoices| then (false, ps)
      else
        var q := ps[j].(invoices := vs);
        WriteBackAt(ps, j, q, now);
        (true, WriteBack(ps, q, now))
  }

  // ---------------------------------------------------------------------
  // Inspections: homed in a milestone's array or in the project's array

  /** The two homes of an inspection inside one project. */
  datatype Owner = OfProject | OfMilestone(milestone: nat)

  predicate ValidOwner(p: Project, o: Owner) {
    o.OfMilestone? ==> o.milestone < |p.milestones|
  }

  /** The (possibly absent) inspections array of owner `o`. */
  function ArrayAt(p: Project, o: Owner): Option<seq<Inspection>>
    requires ValidOwner(p, o)
  {
    match o
    case OfProject => p.inspections
    case OfMilestone(k) => p.milestones[k].inspections
  }

  /** Project `p` with the inspections array of owner `o` set to `a`. */
  function WithArray(p: Project, o: Owner, a: seq<Inspection>): (r: Project)
    requires ValidOwner(p, o)
    ensures ValidOwner(r, o) && ArrayAt(r, o) == Some(a) && |r.milestones| == |p.milestones|
  {
    match o
    case OfProject => p.(inspections := Some(a))
    case OfMilestone(k) => WithMilestone(p, k, p.milestones[k].(inspections := Some(a)))
  }

  /** Setting a home's array to what it already holds changes nothing. */
  lemma WithSameArray(p: Project, o: Owner, a: seq<Inspection>)
    requires ValidOwner(p, o) && ArrayAt(p, o) == Some(a)
    ensures WithArray(p, o, a) == p
  {
    if o.OfMilestone? {
      assert p.milestones[o.milestone := p.milestones[o.milestone].(inspections := Some(a))] == p.milestones;
    }
  }

  /** `array.findIndex(i => i.id === id)`, guarded by `if (array)`. */
  function InspectionIndex(a: Option<seq<Inspection>>, id: string): (r: Option<nat>)
    ensures r.Some? ==> a.Some? && r.value < |a.value| && a.value[r.value].id == id
    ensures r.Some? ==> forall k :: 0 <= k < r.value ==> a.value[k].id != id
    ensures r.None? <==> (a.Some? ==> forall k :: 0 <= k < |a.value| ==> a.value[k].id != id)
  {
    if a.None? then None else FindIndex(a.value, (x: Inspection) => x.id == id)
  }

  /** The first milestone of `p` whose inspections hold `id`. */
  function MilestoneHolding(p: Project, id: string): (r: Option<nat>)
    ensures r.Some? ==> r.value < |p.milestones| &&
                        InspectionIndex(p.milestones[r.value].inspections, id).Some?
    ensures r.Some? ==> forall k :: 0 <= k < r.value ==>
                          InspectionIndex(p.milestones[k].inspections, id).None?
    ensures r.None? <==> forall k :: 0 <= k < |p.milestones| ==>
                           InspectionIndex(p.milestones[k].inspections, id).None?
  {
    FindIndex(p.milestones, (m: Milestone) => InspectionIndex(m.inspections, id).Some?)
  }

  /** Project `p` holds an inspection `id` in one of its homes. */
  predicate Holds(p: Project, id: string) {
    InspectionIndex(p.inspections, id).Some? || MilestoneHolding(p, id).Some?
  }

  /** Where an inspection was found: project, owner, index. */
  datatype Site = Site(project: nat, owner: Owner, index: nat)

  /** The search order of `updateInspection` and `deleteInspection`:
      projects in stored order; within a project its own array first, then
      its milestones in order; the first hit wins. */
  function Locate(ps: seq<Project>, id: string): (r: Option<Site>)
    ensures r.None? <==> forall i :: 0 <= i < |ps| ==> !Holds(ps[i], id)
    ensures r.Some? ==>
              var s := r.value;
              && s.project < |ps| && ValidOwner(ps[s.project], s.owner)
              && (forall k :: 0 <= k < s.project ==> !Holds(ps[k], id))
              && InspectionIndex(ArrayAt(ps[s.project], s.owner), id) == Some(s.index)
              && (s.owner.OfMilestone? ==>
                    && InspectionIndex(ps[s.project].inspections, id).None?
                    && MilestoneHolding(ps[s.project], id) == Some(s.owner.milestone))
  {
    match FindIndex(ps, (p: Project) => Holds(p, id))
    case None => None
    case Some(i) =>
      match InspectionIndex(ps[i].inspections, id)
      case Some(x) => Some(Site(i, OfProject, x))
      case None =>
        var k := MilestoneHolding(ps[i], id).value;
        Some(Site(i, OfMilestone(k), InspectionIndex(ps[i].milestones[k].inspections, id).value))
  }

  /** The search of `Locate` stops at the first hit: a hit at project `i`,
      owner `o`, index `x`, with nothing earlier in search order, is what
      it returns. */
  lemma LocateAt(ps: seq<Project>, id: string, i: nat, o: Owner, x: nat)
    requires i < |ps| && ValidOwner(ps[i], o)
    requires forall k :: 0 <= k < i ==> !Holds(ps[k], id)
    requires InspectionIndex(ArrayAt(ps[i], o), id) == Some(x)
    requires o.OfMilestone? ==>
               && InspectionIndex(ps[i].inspections, id).None?
               && forall l :: 0 <= l < o.milestone ==>
                    InspectionIndex(ps[i].milestones[l].inspections, id).None?
    ensures Locate(ps, id) == Some(Site(i, o, x))
  {
    if o.OfMilestone? {
      FindIndexAt(ps[i].milestones, (m: Milestone) => InspectionIndex(m.inspections, id).Some?, o.milestone);
    }
    FindIndexAt(ps, (p: Project) => Holds(p, id), i);
  }

  /** `createInspection` with the stamped inspection `x`. `None` means that
      nothing is written.
      - A milestone whose id is `x.milestoneId` exists: the first project
        (in stored order) having one is written back; the inspection joins
        that milestone's array only if the array exists, and is dropped
        otherwise.
      - Otherwise the project `x.projectId` gets it at the end of its own
        array, which is created if absent; no such project: `None`. */
  function AddInspection(ps: seq<Project>, x: Inspection, now: Time): (r: Option<seq<Project>>)
    ensures r.None? <==> (x.milestoneId.None? || MilestoneHome(ps, x.milestoneId.value).None?) &&
                         ProjectIndex(ps, x.projectId).None?
    ensures r.Some? && x.milestoneId.Some? && MilestoneHome(ps, x.milestoneId.value).Some? ==>
              var i := MilestoneHome(ps, x.milestoneId.value).value;
              var k := MilestoneIndex(ps[i], x.milestoneId.value).value;
              var a := ps[i].milestones[k].inspections;
              FirstWithId(ps, i) ==>
                && ChangedAtMost(ps, r.value, i)
                && r.value[i] == (if a.Some? then WithArray(ps[i], OfMilestone(k), a.value + [x])
                                  else ps[i]).(updatedAt := now)
    ensures r.Some? && (x.milestoneId.None? || MilestoneHome(ps, x.milestoneId.value).None?) ==>
              var j := ProjectIndex(ps, x.projectId).value;
              && ChangedAtMost(ps, r.value, j)
              && r.value[j] == ps[j].(inspections := Some(ps[j].inspections.GetOr([]) + [x]),
                                      updatedAt := now)
  {
    var home := if x.milestoneId.Some? then MilestoneHome(ps, x.milestoneId.value) else None;
    match home
    case Some(i) =>
      var k := MilestoneIndex(ps[i], x.milestoneId.value).value;
      var a := ps[i].milestones[k].inspections;
      var q := if a.Some? then WithArray(ps[i], OfMilestone(k), a.value + [x]) else ps[i];
      WriteBackAt(ps, i, q, now);
      Some(WriteBack(ps, q, now))
    case None =>
      match ProjectIndex(ps, x.projectId)
      case None => None
      case Some(j) =>
        var q := WithArray(ps[j], OfProject, ps[j].inspections.GetOr([]) + [x]);
        WriteBackAt(ps, j, q, now);
        Some(WriteBack(ps, q, now))
  }

  /** `updateInspection`: the first inspection `id` in search order is
      merged with `u` in place; `None` and no change when there is none. */
  function UpdateInspectionIn(ps: seq<Project>, id: string, u: InspectionPatch, now: Time)
    : (r: (Option<Inspection>, seq<Project>))
    ensures r.0.None? <==> forall i :: 0 <= i < |ps| ==> !Holds(ps[i], id)
    ensures r.0.None? ==> r.1 == ps
    ensures r.0.Some? ==>
              var s := Locate(ps, id).value;
              var a := ArrayAt(ps[s.project], s.owner).value;
              && r.0.value == MergeInspection(a[s.index], u, now)
              && (FirstWithId(ps, s.project) ==>
                    && ChangedAtMost(ps, r.1, s.project)
                    && r.1[s.project] ==
                         WithArray(ps[s.project], s.owner, a[s.index := r.0.value]).(updatedAt := now))
  {
    match Locate(ps, id)
    case None => (None, ps)
    case Some(s) =>
      var a := ArrayAt(ps[s.project], s.owner).value;
      var y := MergeInspection(a[s.index], u, now);
      var q := WithArray(ps[s.project], s.owner, a[s.index := y]);
      WriteBackAt(ps, s.project, q, now);
      (Some(y), WriteBack(ps, q, now))
  }

  /** `inspections.filter(i => i.id !== id)`. */
  function InspectionsWithout(a: seq<Inspection>, id: string): (r: seq<Inspection>)
    ensures forall i :: 0 <= i < |r| ==> r[i] in a && r[i].id != id
    ensures forall i :: 0 <= i < |a| && a[i].id != id ==> a[i] in r
    ensures IsSubsequence(r, a)
    ensures forall y :: multiset(r)[y] == if y.id != id then multiset(a)[y] else 0
    ensures |r| == |a| <==> forall i :: 0 <= i < |a| ==> a[i].id != id
    ensures |r| == |a| ==> r == a
  {
    FilterCount(a, (x: Inspection) => x.id != id);
    Filter(a, (x: Inspection) => x.id != id)
  }

  /** `deleteInspection`: every inspection `id` leaves the ONE array where
      the search first finds it (copies elsewhere stay); `false` and no
      change when none is found. */
  function DeleteInspectionIn(ps: seq<Project>, id: string, now: Time): (r: (bool, seq<Project>))
    ensures r.0 <==> exists i :: 0 <= i < |ps| && Holds(ps[i], id)
    ensures !r.0 ==> r.1 == ps
    ensures r.0 ==>
              var s := Locate(ps, id).value;
              var a := ArrayAt(ps[s.project], s.owner).value;
              FirstWithId(ps, s.project) ==>
                && ChangedAtMost(ps, r.1, s.project)
                && r.1[s.project] ==
                     WithArray(ps[s.project], s.owner, InspectionsWithout(a, id)).(updatedAt := now)
  {
    match Locate(ps, id)
    case None => (false, ps)
    case Some(s) =>
      var a := ArrayAt(ps[s.project], s.owner).value;
      var q := WithArray(ps[s.project], s.owner, InspectionsWithout(a, id));
      WriteBackAt(ps, s.project, q, now);
      (true, WriteBack(ps, q, now))
  }

  /** `deleteInspection` when the search first hits project `i`, owner
      `o`: that array is filtered and the project written back. */
  lemma DeleteInspectionAt(ps: seq<Project>, id: string, i: nat, o: Owner, x: nat, now: Time)
    requires i < |ps| && ValidOwner(ps[i], o)
    requires forall k :: 0 <= k < i ==> !Holds(ps[k], id)
    requires InspectionIndex(ArrayAt(ps[i], o), id) == Some(x)
    requires o.OfMilestone? ==>
               && InspectionIndex(ps[i].inspections, id).None?
               && forall l :: 0 <= l < o.milestone ==>
                    InspectionIndex(ps[i].milestones[l].inspections, id).None?
    ensures DeleteInspectionIn(ps, id, now)
         == (true, WriteBack(ps, WithArray(ps[i], o, InspectionsWithout(ArrayAt(ps[i], o).value, id)), now))
  {
    LocateAt(ps, id, i, o, x);
  }
}
