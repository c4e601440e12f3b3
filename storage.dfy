/** Class `LocalStorageManager` of lib/storage/manager.ts: the browser's
    localStorage holds one JSON string per key, and each operation reads a
    whole collection, edits the copy, and writes it back under its key.

    A key is a field holding the parsed collection (`None` when the key is
    absent). The fresh id `generateId()` would draw and the clock reading
    `new Date()` are parameters. Every operation is proved to leave exactly
    the state that the functions of modules Repository and Queries
    describe, and to write nothing where the source writes nothing. */
module Storage {
  import opened Util
  import opened Types
  import opened Repository
  import opened Queries

  /** The object `exportAllData` produces and `importAllData` parses; a
      property that is missing (or falsy) is `None`. */
  datatype Backup = Backup(
    companies: Option<seq<Company>>, projects: Option<seq<Project>>,
    users: Option<seq<User>>, exportedAt: Option<Time>)

  /** The company `initializeSampleData` creates (id and stamps are set
      when it is created). */
  const SampleCompany := Company(
    "", "Architecture Consultancy Ltd", "123 Business District, City", "+1-555-0123",
    "info@archconsult.com", None,
    FolderStructure("default-folder", "Standard PMC Structure", [], ""),
    "standard", true, 0, 0)

  /** The administrator `initializeSampleData` creates for the sample company. */
  function AdminUser(companyId: string): User {
    User("", "System Admin", "admin@pmc.com", Admin, Some(companyId), [], Some(100), None,
         None, true, 0, 0)
  }

  class LocalStorageManager {
    /** `pmc_companies` */
    var companiesKey: Option<seq<Company>>
    /** `pmc_projects` */
    var projectsKey: Option<seq<Project>>
    /** `pmc_users` */
    var usersKey: Option<seq<User>>
    /** `pmc_settings`: only ever removed by this class. */
    var settingsKey: Option<string>
    /** `pmc_sync_queue`: only ever removed by this class. */
    var syncQueueKey: Option<string>

    /** A manager over whatever the browser's storage already holds. */
    constructor (companies: Option<seq<Company>>, projects: Option<seq<Project>>,
                 users: Option<seq<User>>, settings: Option<string>, syncQueue: Option<string>)
      ensures companiesKey == companies && projectsKey == projects && usersKey == users
      ensures settingsKey == settings && syncQueueKey == syncQueue
    {
      companiesKey, projectsKey, usersKey := companies, projects, users;
      settingsKey, syncQueueKey := settings, syncQueue;
    }

    /** `getCompanies`: the stored list, or `[]` when the key is absent. */
    function Companies(): (r: seq<Company>)
      reads this`companiesKey
      ensures companiesKey.None? ==> r == []
      ensures companiesKey.Some? ==> r == companiesKey.value
    {
      companiesKey.GetOr([])
    }

    /** `getProjects()`: the stored list, or `[]` when the key is absent. */
    function Projects(): (r: seq<Project>)
      reads this`projectsKey
      ensures projectsKey.None? ==> r == []
      ensures projectsKey.Some? ==> r == projectsKey.value
    {
      projectsKey.GetOr([])
    }

    /** `getUsers`: the stored list, or `[]` when the key is absent. */
    function Users(): (r: seq<User>)
      reads this`usersKey
      ensures usersKey.None? ==> r == []
      ensures usersKey.Some? ==> r == usersKey.value
    {
      usersKey.GetOr([])
    }

    // -------------------------------------------------------------------
    // Companies

    /** `createCompany`: appends the new company and returns it. */
    method CreateCompany(c: Company, id: string, now: Time) returns (r: Company)
      modifies this`companiesKey
      ensures r == NewCompany(c, id, now)
      ensures companiesKey == Some(old(Companies()) + [r])
    {
      r := NewCompany(c, id, now);
      var companies := Companies();
      companies := companies + [r];
      companiesKey := Some(companies);
    }

    /** `updateCompany`: merges `u` into the first company with that id;
        `None` and no write when there is none. */
    method UpdateCompany(id: string, u: CompanyPatch, now: Time) returns (r: Option<Company>)
      modifies this`companiesKey
      ensures r.None? <==> forall k :: 0 <= k < |old(Companies())| ==> old(Companies())[k].id != id
      ensures r.None? ==> companiesKey == old(companiesKey)
      ensures r.Some? ==>
                && r.value == MergeCompany(old(Companies())[CompanyIndex(old(Companies()), id).value], u, now)
                && companiesKey == Some(old(Companies())[CompanyIndex(old(Companies()), id).value := r.value])
    {
      var companies := Companies();
      var index := CompanyIndex(companies, id);
      if index.None? {
        return None;
      }
      companies := companies[index.value := MergeCompany(companies[index.value], u, now)];
      companiesKey := Some(companies);
      r := Some(companies[index.value]);
    }

    /** `deleteCompany`: drops every company with that id; `false` and no
        write when there is none. */
    method DeleteCompany(id: string) returns (deleted: bool)
      modifies this`companiesKey
      ensures deleted <==> exists k :: 0 <= k < |old(Companies())| && old(Companies())[k].id == id
      ensures !deleted ==> companiesKey == old(companiesKey)
      ensures deleted ==> companiesKey == Some(CompaniesWithout(old(Companies()), id))
    {
      var companies := Companies();
      var filtered := CompaniesWithout(companies, id);
      if |filtered| == |companies| {
        return false;
      }
      companiesKey := Some(filtered);
      return true;
    }

    // -------------------------------------------------------------------
    // Projects

    /** `createProject`: appends the new project and returns it. */
    method CreateProject(p: Project, id: string, now: Time) returns (r: Project)
      modifies this`projectsKey
      ensures r == NewProject(p, id, now)
      ensures projectsKey == Some(old(Projects()) + [r])
    {
      r := NewProject(p, id, now);
      var projects := Projects();
      projects := projects + [r];
      projectsKey := Some(projects);
    }

    /** `updateProject`: merges `u` into the first project with that id;
        `None` and no write when there is none. */
    method UpdateProject(id: string, u: ProjectPatch, now: Time) returns (r: Option<Project>)
      modifies this`projectsKey
      ensures r.None? <==> ProjectIndex(old(Projects()), id).None?
      ensures r.None? ==> projectsKey == old(projectsKey)
      ensures r.Some? ==>
                && r.value == MergeProject(old(Projects())[ProjectIndex(old(Projects()), id).value], u, now)
                && projectsKey == Some(old(Projects())[ProjectIndex(old(Projects()), id).value := r.value])
    {
      var projects := Projects();
      var index := ProjectIndex(projects, id);
      if index.None? {
        return None;
      }
      projects := projects[index.value := MergeProject(projects[index.value], u, now)];
      projectsKey := Some(projects);
      r := Some(projects[index.value]);
    }

    /** `deleteProject`: drops every project with that id; `false` and no
        write when there is none. */
    method DeleteProject(id: string) returns (deleted: bool)
      modifies this`projectsKey
      ensures deleted <==> exists k :: 0 <= k < |old(Projects())| && old(Projects())[k].id == id
      ensures !deleted ==> projectsKey == old(projectsKey)
      ensures deleted ==> projectsKey == Some(ProjectsWithout(old(Projects()), id))
    {
      var projects := Projects();
      var filtered := ProjectsWithout(projects, id);
      if |filtered| == |projects| {
        return false;
      }
      projectsKey := Some(filtered);
      return true;
    }

    // -------------------------------------------------------------------
    // Users

    /** `createUser`: appends the new user and returns it. */
    method CreateUser(x: User, id: string, now: Time) returns (r: User)
      modifies this`usersKey
      ensures r == NewUser(x, id, now)
      ensures usersKey == Some(old(Users()) + [r])
    {
      r := NewUser(x, id, now);
      var users := Users();
      users := users + [r];
      usersKey := Some(users);
    }

    /** `updateUser`: merges `u` into the first user with that id; `None`
        and no write when there is none. */
    method UpdateUser(id: string, u: UserPatch, now: Time) returns (r: Option<User>)
      modifies this`usersKey
      ensures r.None? <==> forall k :: 0 <= k < |old(Users())| ==> old(Users())[k].id != id
      ensures r.None? ==> usersKey == old(usersKey)
      ensures r.Some? ==>
                && r.value == MergeUser(old(Users())[UserIndex(old(Users()), id).value], u, now)
                && usersKey == Some(old(Users())[UserIndex(old(Users()), id).value := r.value])
    {
      var users := Users();
      var index := UserIndex(users, id);
      if index.None? {
        return None;
      }
      users := users[index.value := MergeUser(users[index.value], u, now)];
      usersKey := Some(users);
      r := Some(users[index.value]);
    }

    /** `deleteUser`: drops every user with that id; `false` and no write
        when there is none. */
    method DeleteUser(id: string) returns (deleted: bool)
      modifies this`usersKey
      ensures deleted <==> exists k :: 0 <= k < |old(Users())| && old(Users())[k].id == id
      ensures !deleted ==> usersKey == old(usersKey)
      ensures deleted ==> usersKey == Some(UsersWithout(old(Users()), id))
    {
      var users := Users();
      var filtered := UsersWithout(users, id);
      if |filtered| == |users| {
        return false;
      }
      usersKey := Some(filtered);
      return true;
    }

    // -------------------------------------------------------------------
    // Milestones and tasks

    /** `createMilestone`: the project `m.projectId` gets the new milestone
        at the end; "Project not found" and no write when it is missing. */
    method CreateMilestone(m: Milestone, id: string, now: Time) returns (r: Result<Milestone>)
      modifies this`projectsKey
      ensures AddMilestone(old(Projects()), NewMilestone(m, id, now), now).None? ==>
                r == Err("Project not found") && projectsKey == old(projectsKey)
      ensures AddMilestone(old(Projects()), NewMilestone(m, id, now), now).Some? ==>
                && r == Ok(NewMilestone(m, id, now))
                && projectsKey == Some(AddMilestone(old(Projects()), NewMilestone(m, id, now), now).value)
    {
      var x := NewMilestone(m, id, now);
      var project := ProjectById(Projects(), m.projectId);
      if project.None? {
        return Err("Project not found");
      }
      var q := project.value.(milestones := project.value.milestones + [x]);
      var written := UpdateProject(q.id, WholeProject(q), now);
      return Ok(x);
    }

    /** `updateMilestone`: scans the projects in stored order; in the first
        one holding milestone `id`, merges `u` into it and writes the
        project back. */
    method UpdateMilestone(id: string, u: MilestonePatch, now: Time) returns (r: Option<Milestone>)
      modifies this`projectsKey
      ensures r == UpdateMilestoneIn(old(Projects()), id, u, now).0
      ensures r.None? ==> projectsKey == old(projectsKey)
      ensures r.Some? ==> projectsKey == Some(UpdateMilestoneIn(old(Projects()), id, u, now).1)
    {
      var projects := Projects();
      var i := 0;
      while i < |projects|
        invariant i <= |projects|
        invariant projectsKey == old(projectsKey)
        invariant forall k :: 0 <= k < i ==> MilestoneIndex(projects[k], id).None?
      {
        var index := MilestoneIndex(projects[i], id);
        if index.Some? {
          var merged := MergeMilestone(projects[i].milestones[index.value], u, now);
          var q := WithMilestone(projects[i], index.value, merged);
          var written := UpdateProject(q.id, WholeProject(q), now);
          return Some(merged);
        }
        i := i + 1;
      }
      return None;
    }

    /** `createTask`: the first project (in stored order) that has
        milestone `t.milestoneId` gets the new task in that milestone;
        "Milestone not found" and no write when no project has it. */
    method CreateTask(t: Task, id: string, now: Time) returns (r: Result<Task>)
      modifies this`projectsKey
      ensures AddTask(old(Projects()), NewTask(t, id, now), now).None? ==>
                r == Err("Milestone not found") && projectsKey == old(projectsKey)
      ensures AddTask(old(Projects()), NewTask(t, id, now), now).Some? ==>
                && r == Ok(NewTask(t, id, now))
                && projectsKey == Some(AddTask(old(Projects()), NewTask(t, id, now), now).value)
    {
      var x := NewTask(t, id, now);
      var projects := Projects();
      var i := 0;
      while i < |projects|
        invariant i <= |projects|
        invariant projectsKey == old(projectsKey)
        invariant forall k :: 0 <= k < i ==> MilestoneIndex(projects[k], t.milestoneId).None?
      {
        var index := MilestoneIndex(projects[i], t.milestoneId);
        if index.Some? {
          var m := projects[i].milestones[index.value];
          var q := WithMilestone(projects[i], index.value, m.(tasks := m.tasks + [x]));
          MilestoneHomeAt(projects, t.milestoneId, i);
          assert AddTask(projects, x, now) == Some(WriteBack(projects, q, now));
          var written := UpdateProject(q.id, WholeProject(q), now);
          return Ok(x);
        }
        i := i + 1;
      }
      MilestoneHomeNone(projects, t.milestoneId);
      return Err("Milestone not found");
    }

    // -------------------------------------------------------------------
    // Invoices

    /** `createInvoice`: the project `v.projectId` gets the new invoice at
        the end; "Project not found" and no write when it is missing. */
    method CreateInvoice(v: Invoice, id: string, now: Time) returns (r: Result<Invoice>)
      modifies this`projectsKey
      ensures AddInvoice(old(Projects()), NewInvoice(v, id, now), now).None? ==>
                r == Err("Project not found") && projectsKey == old(projectsKey)
      ensures AddInvoice(old(Projects()), NewInvoice(v, id, now), now).Some? ==>
                && r == Ok(NewInvoice(v, id, now))
                && projectsKey == Some(AddInvoice(old(Projects()), NewInvoice(v, id, now), now).value)
    {
      var x := NewInvoice(v, id, now);
      var project := ProjectById(Projects(), v.projectId);
      if project.None? {
        return Err("Project not found");
      }
      var q := project.value.(invoices := project.value.invoices + [x]);
      var written := UpdateProject(q.id, WholeProject(q), now);
      return Ok(x);
    }

    /** `updateInvoice`: merges `u` into invoice `invoiceId` of project
        `projectId`; `None` and no write when either is missing. */
    method UpdateInvoice(projectId: string, invoiceId: string, u: InvoicePatch, now: Time)
      returns (r: Option<Invoice>)
      modifies this`projectsKey
      ensures r == UpdateInvoiceIn(old(Projects()), projectId, invoiceId, u, now).0
      ensures r.None? ==> projectsKey == old(projectsKey)
      ensures r.Some? ==>
                projectsKey == Some(UpdateInvoiceIn(old(Projects()), projectId, invoiceId, u, now).1)
    {
      var project := ProjectById(Projects(), projectId);
      if project.None? {
        return None;
      }
      var p := project.value;
      var index := InvoiceIndex(p, invoiceId);
      if index.None? {
        return None;
      }
      var merged := MergeInvoice(p.invoices[index.value], u, now);
      p := p.(invoices := p.invoices[index.value := merged]);
      var written := UpdateProject(p.id, WholeProject(p), now);
      return Some(merged);
    }

    /** `deleteInvoice`: drops every invoice `invoiceId` of project
        `projectId`; `false` and no write when nothing is dropped. */
    method DeleteInvoice(projectId: string, invoiceId: string, now: Time) returns (deleted: bool)
      modifies this`projectsKey
      ensures deleted == DeleteInvoiceIn(old(Projects()), projectId, invoiceId, now).0
      ensures !deleted ==> projectsKey == old(projectsKey)
      ensures deleted ==> projectsKey == Some(DeleteInvoiceIn(old(Projects()), projectId, invoiceId, now).1)
    {
      var project := ProjectById(Projects(), projectId);
      if project.None? {
        return false;
      }
      var p := project.value;
      var originalLength := |p.invoices|;
      p := p.(invoices := InvoicesWithout(p.invoices, invoiceId));
      if |p.invoices| == originalLength {
        return false;
      }
      var written := UpdateProject(p.id, WholeProject(p), now);
      return true;
    }

    // -------------------------------------------------------------------
    // Inspections

    /** `createInspection`: the first project holding milestone
        `x.milestoneId` is written back, with the inspection added to that
        milestone's array when the array exists; with no such milestone,
        project `x.projectId` gets it in its own array, created if absent.
        The new inspection is returned in every case. */
    method CreateInspection(x0: Inspection, id: string, now: Time) returns (r: Inspection)
      modifies this`projectsKey
      ensures r == NewInspection(x0, id, now)
      ensures AddInspection(old(Projects()), r, now).None? ==> projectsKey == old(projectsKey)
      ensures AddInspection(old(Projects()), r, now).Some? ==>
                projectsKey == Some(AddInspection(old(Projects()), r, now).value)
    {
      r := NewInspection(x0, id, now);
      var projects := Projects();
      var i := 0;
      while i < |projects|
        invariant i <= |projects|
        invariant projectsKey == old(projectsKey)
        invariant x0.milestoneId.Some? ==>
                    forall k :: 0 <= k < i ==> MilestoneIndex(projects[k], x0.milestoneId.value).None?
      {
        var index := if x0.milestoneId.Some? then MilestoneIndex(projects[i], x0.milestoneId.value) else None;
        if index.Some? {
          var a := projects[i].milestones[index.value].inspections;
          var q := if a.Some? then WithArray(projects[i], OfMilestone(index.value), a.value + [r])
                   else projects[i];
          MilestoneHomeAt(projects, r.milestoneId.value, i);
          assert AddInspection(projects, r, now) == Some(WriteBack(projects, q, now));
          var written := UpdateProject(q.id, WholeProject(q), now);
          return;
        }
        i := i + 1;
      }
      if r.milestoneId.Some? {
        MilestoneHomeNone(projects, r.milestoneId.value);
      }
      var target := ProjectById(projects, x0.projectId);
      if target.Some? {
        var q := WithArray(target.value, OfProject, target.value.inspections.GetOr([]) + [r]);
        var written := UpdateProject(q.id, WholeProject(q), now);
      }
    }

    /** `updateInspection`: searches project by project, the project's own
        array first and then its milestones' arrays; the first inspection
        `id` found is merged with `u` and its project written back. */
    method UpdateInspection(id: string, u: InspectionPatch, now: Time) returns (r: Option<Inspection>)
      modifies this`projectsKey
      ensures r == UpdateInspectionIn(old(Projects()), id, u, now).0
      ensures r.None? ==> projectsKey == old(projectsKey)
      ensures r.Some? ==> projectsKey == Some(UpdateInspectionIn(old(Projects()), id, u, now).1)
    {
      var projects := Projects();
      var i := 0;
      while i < |projects|
        invariant i <= |projects|
        invariant projectsKey == old(projectsKey)
        invariant forall k :: 0 <= k < i ==> !Holds(projects[k], id)
      {
        var project := projects[i];
        var index := InspectionIndex(project.inspections, id);
        if index.Some? {
          var a := project.inspections.value;
          var merged := MergeInspection(a[index.value], u, now);
          var q := WithArray(project, OfProject, a[index.value := merged]);
          LocateAt(projects, id, i, OfProject, index.value);
          assert q.id == projects[i].id;
          var written := UpdateProject(q.id, WholeProject(q), now);
          assert projectsKey == Some(WriteBack(projects, q, now));
          return Some(merged);
        }
        var j := 0;
        while j < |project.milestones|
          invariant j <= |project.milestones|
          invariant forall l :: 0 <= l < j ==> InspectionIndex(project.milestones[l].inspections, id).None?
        {
          var found := InspectionIndex(project.milestones[j].inspections, id);
          if found.Some? {
            var b := project.milestones[j].inspections.value;
            var merged := MergeInspection(b[found.value], u, now);
            var q := WithArray(project, OfMilestone(j), b[found.value := merged]);
            LocateAt(projects, id, i, OfMilestone(j), found.value);
            assert q.id == projects[i].id;
            var written := UpdateProject(q.id, WholeProject(q), now);
            assert projectsKey == Some(WriteBack(projects, q, now));
            return Some(merged);
          }
          j := j + 1;
        }
        i := i + 1;
      }
      return None;
    }

    /** `deleteInspection`: the same search as `updateInspection`; every
        inspection `id` leaves the first array that holds one, and that
        project is written back. The arrays searched before it are filtered
        too, which leaves them as they were. */
    method DeleteInspection(id: string, now: Time) returns (deleted: bool)
      modifies this`projectsKey
      ensures deleted == DeleteInspectionIn(old(Projects()), id, now).0
      ensures !deleted ==> projectsKey == old(projectsKey)
      ensures deleted ==> projectsKey == Some(DeleteInspectionIn(old(Projects()), id, now).1)
    {
      var projects := Projects();
      var i := 0;
      while i < |projects|
        invariant i <= |projects|
        invariant projectsKey == old(projectsKey)
        invariant forall k :: 0 <= k < i ==> !Holds(projects[k], id)
      {
        deleted := DeleteInProject(projects, i, id, now);
        if deleted {
          return;
        }
        i := i + 1;
      }
      return false;
    }

    /** One project of `deleteInspection`: its own array first, then its
        milestones' arrays. */
    method DeleteInProject(projects: seq<Project>, i: nat, id: string, now: Time)
      returns (deleted: bool)
      requires projects == Projects() && i < |projects|
      requires forall k :: 0 <= k < i ==> !Holds(projects[k], id)
      modifies this`projectsKey
      ensures deleted ==> DeleteInspectionIn(projects, id, now).0
      ensures deleted ==> projectsKey == Some(DeleteInspectionIn(projects, id, now).1)
      ensures !deleted ==> projectsKey == old(projectsKey) && !Holds(projects[i], id)
    {
      var project := projects[i];
      if project.inspections.Some? {
        var a := project.inspections.value;
        var kept := InspectionsWithout(a, id);
        project := project.(inspections := Some(kept));
        if |kept| != |a| {
          DeleteInspectionAt(projects, id, i, OfProject, InspectionIndex(projects[i].inspections, id).value, now);
          assert project == WithArray(projects[i], OfProject, kept);
          var written := UpdateProject(project.id, WholeProject(project), now);
          assert projectsKey == Some(WriteBack(projects, project, now));
          return true;
        }
        WithSameArray(projects[i], OfProject, a);
      }
      deleted := DeleteFromMilestones(projects, i, id, now);
    }

    /** The milestone part of `deleteInspection` for project `i`, whose own
        array holds no inspection `id`: the first milestone array holding
        one is filtered and the project written back. */
    method DeleteFromMilestones(projects: seq<Project>, i: nat, id: string, now: Time)
      returns (deleted: bool)
      requires projects == Projects() && i < |projects|
      requires InspectionIndex(projects[i].inspections, id).None?
      requires forall k :: 0 <= k < i ==> !Holds(projects[k], id)
      modifies this`projectsKey
      ensures deleted ==> DeleteInspectionIn(projects, id, now).0
      ensures deleted ==> projectsKey == Some(DeleteInspectionIn(projects, id, now).1)
      ensures !deleted ==> projectsKey == old(projectsKey) && !Holds(projects[i], id)
    {
      var project := projects[i];
      var j := 0;
      while j < |project.milestones|
        invariant j <= |project.milestones|
        invariant projectsKey == old(projectsKey)
        invariant project == projects[i]
        invariant forall l :: 0 <= l < j ==> InspectionIndex(project.milestones[l].inspections, id).None?
      {
        if project.milestones[j].inspections.Some? {
          var b := project.milestones[j].inspections.value;
          var kept := InspectionsWithout(b, id);
          var p' := WithArray(project, OfMilestone(j), kept);
          if |kept| != |b| {
            DeleteInspectionAt(projects, id, i, OfMilestone(j), InspectionIndex(project.milestones[j].inspections, id).value, now);
            assert p'.id == projects[i].id;
            var written := UpdateProject(p'.id, WholeProject(p'), now);
            assert projectsKey == Some(WriteBack(projects, p', now));
            return true;
          }
          WithSameArray(project, OfMilestone(j), b);
          project := p';
        }
        j := j + 1;
      }
      return false;
    }

    /** `getAllInspections`: every project's own inspections, then those of
        its milestones, project after project. */
    method GetAllInspections() returns (r: seq<Inspection>)
      ensures r == AllInspections(Projects())
    {
      var projects := Projects();
      r := [];
      var i := 0;
      while i < |projects|
        invariant i <= |projects|
        invariant r == AllInspections(projects[..i])
      {
        r := PushInspectionsOf(r, projects[i]);
        assert projects[..i + 1][..i] == projects[..i];
        i := i + 1;
      }
      assert projects[..i] == projects;
    }

    /** One project of `getAllInspections`: its own array, then each
        milestone's, pushed onto `r`. */
    static method PushInspectionsOf(r0: seq<Inspection>, project: Project) returns (r: seq<Inspection>)
      ensures r == r0 + ProjectInspections(project)
    {
      r := r0;
      if project.inspections.Some? {
        r := r + project.inspections.value;
      }
      var j := 0;
      while j < |project.milestones|
        invariant j <= |project.milestones|
        invariant r == r0 + project.inspections.GetOr([]) + MilestoneInspections(project.milestones[..j])
      {
        if project.milestones[j].inspections.Some? {
          r := r + project.milestones[j].inspections.value;
        }
        assert project.milestones[..j + 1][..j] == project.milestones[..j];
        j := j + 1;
      }
      assert project.milestones[..j] == project.milestones;
    }

    // -------------------------------------------------------------------
    // Sample data, backup and reset

    /** `initializeSampleData`: when no company is stored, creates the
        sample company and its administrator; otherwise does nothing. The
        two creations read the clock separately: `companyTime` and
        `userTime`. */
    method InitializeSampleData(companyId: string, userId: string, companyTime: Time, userTime: Time)
      modifies this`companiesKey, this`usersKey
      ensures old(Companies()) != [] ==> companiesKey == old(companiesKey) && usersKey == old(usersKey)
      ensures old(Companies()) == [] ==>
                && companiesKey == Some([NewCompany(SampleCompany, companyId, companyTime)])
                && usersKey == Some(old(Users()) + [NewUser(AdminUser(companyId), userId, userTime)])
    {
      var existing := Companies();
      if |existing| > 0 {
        return;
      }
      assert existing + [NewCompany(SampleCompany, companyId, companyTime)]
          == [NewCompany(SampleCompany, companyId, companyTime)];
      var company := CreateCompany(SampleCompany, companyId, companyTime);
      var admin := CreateUser(AdminUser(company.id), userId, userTime);
    }

    /** `exportAllData`: the three collections and the export time. Every
        collection is present, even an empty one, so importing the backup
        rewrites all three keys. */
    function ExportAllData(now: Time): (r: Backup)
      reads this`companiesKey, this`projectsKey, this`usersKey
      ensures r.companies == Some(Companies()) && r.projects == Some(Projects())
      ensures r.users == Some(Users()) && r.exportedAt == Some(now)
    {
      Backup(Some(Companies()), Some(Projects()), Some(Users()), Some(now))
    }

    /** `importAllData`: `None` stands for text on which `JSON.parse`
        throws, or that parses to `null` (reading `data.companies` then
        throws): the result is `false` and nothing is written. Any other
        value gives `true`, and each collection it carries replaces the
        stored one; a value carrying none of them, such as `5` or `[]`,
        writes nothing. */
    method ImportAllData(data: Option<Backup>) returns (ok: bool)
      modifies this`companiesKey, this`projectsKey, this`usersKey
      ensures ok <==> data.Some?
      ensures companiesKey == if data.Some? && data.value.companies.Some? then data.value.companies
                              else old(companiesKey)
      ensures projectsKey == if data.Some? && data.value.projects.Some? then data.value.projects
                             else old(projectsKey)
      ensures usersKey == if data.Some? && data.value.users.Some? then data.value.users
                          else old(usersKey)
    {
      if data.None? {
        return false;
      }
      if data.value.companies.Some? {
        companiesKey := data.value.companies;
      }
      if data.value.projects.Some? {
        projectsKey := data.value.projects;
      }
      if data.value.users.Some? {
        usersKey := data.value.users;
      }
      return true;
    }

    /** `clearAllData`: removes all five keys. */
    method ClearAllData()
      modifies this`companiesKey, this`projectsKey, this`usersKey, this`settingsKey, this`syncQueueKey
      ensures companiesKey.None? && projectsKey.None? && usersKey.None?
      ensures settingsKey.None? && syncQueueKey.None?
      ensures Companies() == [] && Projects() == [] && Users() == []
    {
      companiesKey, projectsKey, usersKey := None, None, None;
      settingsKey, syncQueueKey := None, None;
    }

    /** A backup taken by `exportAllData` and imported after
        `clearAllData` brings back every collection; settings and the sync
        queue stay cleared. */
    method RestoreFromBackup(now: Time) returns (ok: bool)
      modifies this`companiesKey, this`projectsKey, this`usersKey, this`settingsKey, this`syncQueueKey
      ensures ok
      ensures Companies() == old(Companies()) && Projects() == old(Projects()) && Users() == old(Users())
      ensures settingsKey.None? && syncQueueKey.None?
    {
      var backup := ExportAllData(now);
      ClearAllData();
      ok := ImportAllData(Some(backup));
    }

    /** `initializeSampleData` is idempotent: a second call, at any later
        clock readings, changes nothing. */
    method InitializeTwice(companyId: string, userId: string, companyTime: Time, userTime: Time,
                           laterCompanyTime: Time, laterUserTime: Time)
      modifies this`companiesKey, this`usersKey
      ensures old(Companies()) != [] ==> companiesKey == old(companiesKey) && usersKey == old(usersKey)
      ensures old(Companies()) == [] ==>
                && companiesKey == Some([NewCompany(SampleCompany, companyId, companyTime)])
                && usersKey == Some(old(Users()) + [NewUser(AdminUser(companyId), userId, userTime)])
    {
      InitializeSampleData(companyId, userId, companyTime, userTime);
      var once, onceUsers := companiesKey, usersKey;
      InitializeSampleData(companyId, userId, laterCompanyTime, laterUserTime);
      assert companiesKey == once && usersKey == onceUsers;
    }
  }
}
