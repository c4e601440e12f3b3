/** The records of the PMC system (lib/types/index.ts) and the shallow
    merge `{ ...record, ...updates, updatedAt: now }` that every update
    operation of the local store performs.

    Dates are instants in milliseconds (`Time`); JSON numbers are integers.
    An optional property (`x?: T`) is an `Option`. The TypeScript property
    `type` of a project is called `projectType` here, since `type` is a
    Dafny keyword. */
module Types {
  import opened Util

  type Time = int

  datatype UserRole =
    | Management | PmcHead | TeamLeadArchitect | Architect
    | Engineer | SiteEngineer | Accounts | Admin

  datatype ProjectType = Architecture | Pmc | DesignPmc | Liaising
  datatype ProjectStatus = Planning | Active | OnHold | Completed | Cancelled
  datatype Priority = Low | Medium | High | Critical
  datatype MilestoneStatus = NotStarted | InProgress | Completed | Delayed | Cancelled
  datatype TaskStatus = Todo | InProgress | Review | Completed | Cancelled
  datatype InspectionStatus = Scheduled | InProgress | Completed | Cancelled
  datatype ComplianceStatus = Compliant | NonCompliant | PartiallyCompliant | PendingReview
  datatype CertificationStatus = Draft | Submitted | Approved | Rejected | Paid
  datatype InvoiceType = PmcToClient | PmcToContractor
  datatype InvoiceStatus = Draft | Issued | Paid | Overdue | Cancelled
  datatype FeeType = Fixed | Percentage | Hourly | MilestoneBased
  datatype DocumentType =
    | AgreementDoc | DrawingDoc | ApprovalDoc | InspectionDoc | BillingDoc | InvoiceDoc | OtherDoc

  datatype Folder = Folder(id: string, name: string, path: string, children: Option<seq<Folder>>)

  datatype FolderStructure = FolderStructure(id: string, name: string, folders: seq<Folder>, companyId: string)

  datatype Company = Company(
    id: string, name: string, address: string, phone: string, email: string,
    logo: Option<string>, defaultFolderStructure: FolderStructure,
    defaultExcelTemplate: string, active: bool, createdAt: Time, updatedAt: Time)

  datatype User = User(
    id: string, name: string, email: string, role: UserRole, companyId: Option<string>,
    projects: seq<string>, hourlyRate: Option<int>, monthlyCost: Option<int>,
    avatar: Option<string>, active: bool, createdAt: Time, updatedAt: Time)

  datatype MilestonePayment = MilestonePayment(milestoneId: string, amount: int, percentage: int)

  datatype FeeStructure = FeeStructure(
    id: string, feeType: FeeType, amount: int, percentage: Option<int>,
    milestones: Option<seq<MilestonePayment>>)

  datatype ProjectTeamMember = ProjectTeamMember(
    id: string, userId: string, projectId: string, role: string, allocation: int,
    hourlyRate: Option<int>, monthlyCost: Option<int>, joinedDate: Time, isActive: bool)

  datatype Task = Task(
    id: string, projectId: string, milestoneId: string, title: string, description: string,
    assignedTo: string, status: TaskStatus, priority: Priority, estimatedHours: int,
    actualHours: Option<int>, startDate: Time, dueDate: Time, completedDate: Option<Time>,
    dependencies: seq<string>, createdAt: Time, updatedAt: Time)

  datatype Inspection = Inspection(
    id: string, projectId: string, milestoneId: Option<string>, taskId: Option<string>,
    title: string, description: string, inspectorId: string, inspectionDate: Time,
    status: InspectionStatus, complianceStatus: ComplianceStatus, observations: string,
    recommendations: string, photos: seq<string>, reportPath: Option<string>,
    nextInspectionDate: Option<Time>, createdAt: Time, updatedAt: Time)

  datatype BillCertification = BillCertification(
    id: string, projectId: string, milestoneId: string, certificationNumber: string,
    amount: int, certificationDate: Time, certifyingAuthority: string, description: string,
    status: CertificationStatus, documentPath: Option<string>, createdAt: Time, updatedAt: Time)

  /** The interface in lib/types/index.ts declares no `inspections` on a
      milestone, yet the store reads and writes `milestone.inspections`:
      it is an optional array here. */
  datatype Milestone = Milestone(
    id: string, projectId: string, name: string, description: string, order: int,
    startDate: Time, endDate: Time, status: MilestoneStatus, completionPercentage: int,
    tasks: seq<Task>, billCertifications: seq<BillCertification>, invoiceAmount: Option<int>,
    actualStartDate: Option<Time>, actualEndDate: Option<Time>, createdAt: Time, updatedAt: Time,
    inspections: Option<seq<Inspection>>)

  datatype Invoice = Invoice(
    id: string, projectId: string, invoiceNumber: string, invoiceType: InvoiceType,
    amount: int, issueDate: Time, dueDate: Time, status: InvoiceStatus, description: string,
    billCertificationId: Option<string>, milestoneId: Option<string>, paidDate: Option<Time>,
    paymentMethod: Option<string>, documentPath: Option<string>, createdAt: Time, updatedAt: Time)

  datatype DocumentReference = DocumentReference(
    id: string, projectId: string, name: string, docType: DocumentType, filePath: string,
    folderPath: string, size: int, uploadedBy: string, uploadedAt: Time, tags: seq<string>,
    isActive: bool)

  /** A project owns its milestones, invoices, documents and team; the
      project-level `inspections` array is created lazily by the store. */
  datatype Project = Project(
    id: string, name: string, description: string, companyId: string,
    projectType: ProjectType, status: ProjectStatus, priority: Priority,
    teamLeadArchitectId: string, startDate: Time, endDate: Time, estimatedDuration: int,
    totalFee: int, feeStructure: FeeStructure, folderPath: string, excelFilePath: string,
    folderStructure: FolderStructure, team: seq<ProjectTeamMember>, milestones: seq<Milestone>,
    invoices: seq<Invoice>, documents: seq<DocumentReference>, createdAt: Time, updatedAt: Time,
    inspections: Option<seq<Inspection>>)

  // ---------------------------------------------------------------------
  // Partial<T>: every property may be given or left out.

  datatype CompanyPatch = CompanyPatch(
    id: Option<string>, name: Option<string>, address: Option<string>, phone: Option<string>,
    email: Option<string>, logo: Option<Option<string>>,
    defaultFolderStructure: Option<FolderStructure>, defaultExcelTemplate: Option<string>,
    active: Option<bool>, createdAt: Option<Time>, updatedAt: Option<Time>)

  datatype UserPatch = UserPatch(
    id: Option<string>, name: Option<string>, email: Option<string>, role: Option<UserRole>,
    companyId: Option<Option<string>>, projects: Option<seq<string>>,
    hourlyRate: Option<Option<int>>, monthlyCost: Option<Option<int>>,
    avatar: Option<Option<string>>, active: Option<bool>, createdAt: Option<Time>,
    updatedAt: Option<Time>)

  datatype ProjectPatch = ProjectPatch(
    id: Option<string>, name: Option<string>, description: Option<string>,
    companyId: Option<string>, projectType: Option<ProjectType>, status: Option<ProjectStatus>,
    priority: Option<Priority>, teamLeadArchitectId: Option<string>, startDate: Option<Time>,
    endDate: Option<Time>, estimatedDuration: Option<int>, totalFee: Option<int>,
    feeStructure: Option<FeeStructure>, folderPath: Option<string>, excelFilePath: Option<string>,
    folderStructure: Option<FolderStructure>, team: Option<seq<ProjectTeamMember>>,
    milestones: Option<seq<Milestone>>, invoices: Option<seq<Invoice>>,
    documents: Option<seq<DocumentReference>>, createdAt: Option<Time>, updatedAt: Option<Time>,
    inspections: Option<Option<seq<Inspection>>>)

  datatype MilestonePatch = MilestonePatch(
    id: Option<string>, projectId: Option<string>, name: Option<string>,
    description: Option<string>, order: Option<int>, startDate: Option<Time>,
    endDate: Option<Time>, status: Option<MilestoneStatus>, completionPercentage: Option<int>,
    tasks: Option<seq<Task>>, billCertifications: Option<seq<BillCertification>>,
    invoiceAmount: Option<Option<int>>, actualStartDate: Option<Option<Time>>,
    actualEndDate: Option<Option<Time>>, createdAt: Option<Time>, updatedAt: Option<Time>,
    inspections: Option<Option<seq<Inspection>>>)

  datatype InvoicePatch = InvoicePatch(
    id: Option<string>, projectId: Option<string>, invoiceNumber: Option<string>,
    invoiceType: Option<InvoiceType>, amount: Option<int>, issueDate: Option<Time>,
    dueDate: Option<Time>, status: Option<InvoiceStatus>, description: Option<string>,
    billCertificationId: Option<Option<string>>, milestoneId: Option<Option<string>>,
    paidDate: Option<Option<Time>>, paymentMethod: Option<Option<string>>,
    documentPath: Option<Option<string>>, createdAt: Option<Time>, updatedAt: Option<Time>)

  datatype InspectionPatch = InspectionPatch(
    id: Option<string>, projectId: Option<string>, milestoneId: Option<Option<string>>,
    taskId: Option<Option<string>>, title: Option<string>, description: Option<string>,
    inspectorId: Option<string>, inspectionDate: Option<Time>, status: Option<InspectionStatus>,
    complianceStatus: Option<ComplianceStatus>, observations: Option<string>,
    recommendations: Option<string>, photos: Option<seq<string>>,
    reportPath: Option<Option<string>>, nextInspectionDate: Option<Option<Time>>,
    createdAt: Option<Time>, updatedAt: Option<Time>)

  /** `{}`: an update that names no property. */
  const NoCompanyChanges := CompanyPatch(None, None, None, None, None, None, None, None, None, None, None)
  const NoUserChanges := UserPatch(None, None, None, None, None, None, None, None, None, None, None, None)
  const NoProjectChanges := ProjectPatch(
    None, None, None, None, None, None, None, None, None, None, None, None,
    None, None, None, None, None, None, None, None, None, None, None)
  const NoMilestoneChanges := MilestonePatch(
    None, None, None, None, None, None, None, None, None, None, None, None, None, None, None, None, None)
  const NoInvoiceChanges := InvoicePatch(
    None, None, None, None, None, None, None, None, None, None, None, None, None, None, None, None)
  const NoInspectionChanges := InspectionPatch(
    None, None, None, None, None, None, None, None, None, None, None, None, None, None, None, None, None)

  /** A whole project passed as its own update, as the nested operations do
      with `updateProject(project.id, project)`. The project was parsed from
      storage, where an `inspections` property holding `undefined` does not
      survive `JSON.stringify`: a project without inspections carries no
      such key, so its patch leaves that property alone. */
  function WholeProject(p: Project): (u: ProjectPatch)
    ensures u.id == Some(p.id) && u.milestones == Some(p.milestones)
    ensures u.invoices == Some(p.invoices)
    ensures u.team == Some(p.team) && u.documents == Some(p.documents)
    ensures u.inspections.Some? <==> p.inspections.Some?
    ensures u.inspections.Some? ==> u.inspections.value == p.inspections
  {
    ProjectPatch(
      Some(p.id), Some(p.name), Some(p.description), Some(p.companyId), Some(p.projectType),
      Some(p.status), Some(p.priority), Some(p.teamLeadArchitectId), Some(p.startDate),
      Some(p.endDate), Some(p.estimatedDuration), Some(p.totalFee), Some(p.feeStructure),
      Some(p.folderPath), Some(p.excelFilePath), Some(p.folderStructure), Some(p.team),
      Some(p.milestones), Some(p.invoices), Some(p.documents), Some(p.createdAt),
      Some(p.updatedAt), if p.inspections.Some? then Some(p.inspections) else None)
  }

  /** What `{ ...p, ...q, updatedAt: new Date() }` yields for a whole
      project `q` read from storage: every property of `q` wins over `p`'s,
      except an `inspections` key that `q` does not carry, which keeps
      `p`'s. */
  function Overlay(p: Project, q: Project, now: Time): (r: Project)
    ensures r.inspections == if q.inspections.Some? then q.inspections else p.inspections
    ensures q.inspections.Some? || p.inspections.None? ==> r == q.(updatedAt := now)
    ensures q.inspections == p.inspections ==> r == q.(updatedAt := now)
    ensures r.(inspections := q.inspections) == q.(updatedAt := now)
  {
    q.(updatedAt := now, inspections := if q.inspections.Some? then q.inspections else p.inspections)
  }

  // ---------------------------------------------------------------------
  // `{ ...x, id: generateId(), createdAt: new Date(), updatedAt: new Date() }`:
  // a new record with a fresh id and both stamps set to the clock.

  function NewCompany(c: Company, id: string, now: Time): Company {
    c.(id := id, createdAt := now, updatedAt := now)
  }

  function NewProject(p: Project, id: string, now: Time): Project {
    p.(id := id, createdAt := now, updatedAt := now)
  }

  function NewUser(x: User, id: string, now: Time): User {
    x.(id := id, createdAt := now, updatedAt := now)
  }

  function NewMilestone(m: Milestone, id: string, now: Time): Milestone {
    m.(id := id, createdAt := now, updatedAt := now)
  }

  function NewTask(t: Task, id: string, now: Time): Task {
    t.(id := id, createdAt := now, updatedAt := now)
  }

  function NewInvoice(v: Invoice, id: string, now: Time): Invoice {
    v.(id := id, createdAt := now, updatedAt := now)
  }

  function NewInspection(x: Inspection, id: string, now: Time): Inspection {
    x.(id := id, createdAt := now, updatedAt := now)
  }

  // ---------------------------------------------------------------------
  // `{ ...old, ...updates, updatedAt: new Date() }`: each property given in
  // `updates` overrides the old one, and the clock wins over both.

  function MergeCompany(c: Company, u: CompanyPatch, now: Time): (r: Company)
    ensures r.updatedAt == now
    ensures u == NoCompanyChanges ==> r == c.(updatedAt := now)
  {
    Company(
      u.id.GetOr(c.id), u.name.GetOr(c.name), u.address.GetOr(c.address),
      u.phone.GetOr(c.phone), u.email.GetOr(c.email), u.logo.GetOr(c.logo),
      u.defaultFolderStructure.GetOr(c.defaultFolderStructure),
      u.defaultExcelTemplate.GetOr(c.defaultExcelTemplate), u.active.GetOr(c.active),
      u.createdAt.GetOr(c.createdAt), now)
  }

  function MergeUser(x: User, u: UserPatch, now: Time): (r: User)
    ensures r.updatedAt == now
    ensures u == NoUserChanges ==> r == x.(updatedAt := now)
  {
    User(
      u.id.GetOr(x.id), u.name.GetOr(x.name), u.email.GetOr(x.email), u.role.GetOr(x.role),
      u.companyId.GetOr(x.companyId), u.projects.GetOr(x.projects),
      u.hourlyRate.GetOr(x.hourlyRate), u.monthlyCost.GetOr(x.monthlyCost),
      u.avatar.GetOr(x.avatar), u.active.GetOr(x.active), u.createdAt.GetOr(x.createdAt), now)
  }

  function MergeProject(p: Project, u: ProjectPatch, now: Time): (r: Project)
    ensures r.updatedAt == now
    ensures u == NoProjectChanges ==> r == p.(updatedAt := now)
    ensures forall q: Project :: u == WholeProject(q) ==> r == Overlay(p, q, now)
  {
    Project(
      u.id.GetOr(p.id), u.name.GetOr(p.name), u.description.GetOr(p.description),
      u.companyId.GetOr(p.companyId), u.projectType.GetOr(p.projectType),
      u.status.GetOr(p.status), u.priority.GetOr(p.priority),
      u.teamLeadArchitectId.GetOr(p.teamLeadArchitectId), u.startDate.GetOr(p.startDate),
      u.endDate.GetOr(p.endDate), u.estimatedDuration.GetOr(p.estimatedDuration),
      u.totalFee.GetOr(p.totalFee), u.feeStructure.GetOr(p.feeStructure),
      u.folderPath.GetOr(p.folderPath), u.excelFilePath.GetOr(p.excelFilePath),
      u.folderStructure.GetOr(p.folderStructure), u.team.GetOr(p.team),
      u.milestones.GetOr(p.milestones), u.invoices.GetOr(p.invoices),
      u.documents.GetOr(p.documents), u.createdAt.GetOr(p.createdAt), now,
      u.inspections.GetOr(p.inspections))
  }

  function MergeMilestone(m: Milestone, u: MilestonePatch, now: Time): (r: Milestone)
    ensures r.updatedAt == now
    ensures u == NoMilestoneChanges ==> r == m.(updatedAt := now)
  {
    Milestone(
      u.id.GetOr(m.id), u.projectId.GetOr(m.projectId), u.name.GetOr(m.name),
      u.description.GetOr(m.description), u.order.GetOr(m.order),
      u.startDate.GetOr(m.startDate), u.endDate.GetOr(m.endDate), u.status.GetOr(m.status),
      u.completionPercentage.GetOr(m.completionPercentage), u.tasks.GetOr(m.tasks),
      u.billCertifications.GetOr(m.billCertifications),
      u.invoiceAmount.GetOr(m.invoiceAmount), u.actualStartDate.GetOr(m.actualStartDate),
      u.actualEndDate.GetOr(m.actualEndDate), u.createdAt.GetOr(m.createdAt), now,
      u.inspections.GetOr(m.inspections))
  }

  function MergeInvoice(i: Invoice, u: InvoicePatch, now: Time): (r: Invoice)
    ensures r.updatedAt == now
    ensures u == NoInvoiceChanges ==> r == i.(updatedAt := now)
  {
    Invoice(
      u.id.GetOr(i.id), u.projectId.GetOr(i.projectId), u.invoiceNumber.GetOr(i.invoiceNumber),
      u.invoiceType.GetOr(i.invoiceType), u.amount.GetOr(i.amount),
      u.issueDate.GetOr(i.issueDate), u.dueDate.GetOr(i.dueDate), u.status.GetOr(i.status),
      u.description.GetOr(i.description), u.billCertificationId.GetOr(i.billCertificationId),
      u.milestoneId.GetOr(i.milestoneId), u.paidDate.GetOr(i.paidDate),
      u.paymentMethod.GetOr(i.paymentMethod), u.documentPath.GetOr(i.documentPath),
      u.createdAt.GetOr(i.createdAt), now)
  }

  function MergeInspection(x: Inspection, u: InspectionPatch, now: Time): (r: Inspection)
    ensures r.updatedAt == now
    ensures u == NoInspectionChanges ==> r == x.(updatedAt := now)
  {
    Inspection(
      u.id.GetOr(x.id), u.projectId.GetOr(x.projectId), u.milestoneId.GetOr(x.milestoneId),
      u.taskId.GetOr(x.taskId), u.title.GetOr(x.title), u.description.GetOr(x.description),
      u.inspectorId.GetOr(x.inspectorId), u.inspectionDate.GetOr(x.inspectionDate),
      u.status.GetOr(x.status), u.complianceStatus.GetOr(x.complianceStatus),
      u.observations.GetOr(x.observations), u.recommendations.GetOr(x.recommendations),
      u.photos.GetOr(x.photos), u.reportPath.GetOr(x.reportPath),
      u.nextInspectionDate.GetOr(x.nextInspectionDate), u.createdAt.GetOr(x.createdAt), now)
  }

  /** Applying the same update twice is applying it once at the later time:
      the merge overlays, it never accumulates. */
  lemma ProjectMergeIdempotent(p: Project, u: ProjectPatch, t1: Time, t2: Time)
    ensures MergeProject(MergeProject(p, u, t1), u, t2) == MergeProject(p, u, t2)
  {
  }
}
