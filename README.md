# PMC local data store and access control, in Dafny

This project models the offline core of the PMC (project management
consultancy) web application:

- **`LocalStorageManager`** (lib/storage/manager.ts) keeps companies,
  projects and users as JSON arrays under browser localStorage keys.
  Milestones, tasks, invoices and inspections live nested inside the stored
  projects. Every nested change rewrites the owning project through
  `updateProject`. The manager also answers the dashboard and search
  queries, seeds sample data, and exports, imports and clears everything.
- **`AuthProvider`** (lib/auth/context.tsx) holds the signed-in user and
  the `pmc_current_user` session key, and decides access by role:
  `hasRole`, `canAccess`, the `RESOURCE_PERMISSIONS` table and the
  `usePermissions` flags.

Layout, one module per file:

- `util.dfy` (`Util`): `Option`, `Result`, the array helpers `find`,
  `findIndex` and `filter` as `Find`, `FindIndex` and `Filter`, and
  multiset arithmetic.
- `types.dfy` (`Types`): the entities of lib/types/index.ts, update
  patches, the spread merges `{...x, ...updates, updatedAt}`, and the
  stamping of new records.
- `repository.dfy` (`Repository`): every nested operation as a function
  from the stored projects to the result and the new projects.
- `queries.dfy` (`Queries`): the lookups, the inspection traversal, the
  dashboard and the search, with the lemmas relating them to the
  operations.
- `storage.dfy` (`Storage`): the class `LocalStorageManager`. Each
  localStorage key is a field, with `None` meaning the key is absent. Each
  method loops where the source loops and is proved equal to its
  `Repository` function.
- `access.dfy` (`Access`): the permission table and the role checks.
- `session.dfy` (`Session`): the class `AuthProvider`, covering sign-in,
  sign-out and session restore.

Fresh ids (`generateId`) and clock readings (`new Date()`) are parameters
of the operations that use them.

The table at lib/auth/context.tsx:39-68 lists only management, pmc_head and
team_lead_architect for `('projects', 'create')`, so `Access.AdminRights`
proves that admin cannot create projects.

## Model

| member | source | states |
|---|---|---|
| Util.FindIndex | lib/storage/manager.ts:54 | the index of the first element satisfying the predicate, with none before it; `None` exactly when no element does |
| Util.FindIndexAt | lib/storage/manager.ts:340 | the first index satisfying the predicate is the one returned |
| Util.Find | lib/auth/context.tsx:101 | an element satisfying the predicate with none before it; `None` exactly when no element does |
| Util.Filter | lib/storage/manager.ts:72 | keeps exactly the elements satisfying the predicate, in order; it is a sub-multiset, and is the input itself when nothing is dropped |
| Util.FilterCount | lib/storage/manager.ts:72 | filtering keeps each passing element as often as it occurs and no failing element |
| Util.FilterImplies | lib/storage/manager.ts:434-446 | a weaker predicate keeps at least as many elements |
| Util.FilterDisjoint | lib/storage/manager.ts:434-446 | two exclusive predicates together keep at most all elements |
| Types.WholeProject | lib/storage/manager.ts:201 | the patch built from a whole project carries its id and its team, milestones, invoices and documents arrays; it carries an `inspections` key exactly when the project has one |
| Types.Overlay | lib/storage/manager.ts:116-120 | spreading a whole project over a stored one yields the whole project with the new stamp, except that a missing `inspections` key keeps the stored one's |
| Types.NewCompany | lib/storage/manager.ts:27-33 | a new company has the generated id and equal created and updated times |
| Types.NewProject | lib/storage/manager.ts:79-85 | a new project has the generated id and equal created and updated times |
| Types.NewUser | lib/storage/manager.ts:137-143 | a new user has the generated id and equal created and updated times |
| Types.NewMilestone | lib/storage/manager.ts:189-195 | a new milestone has the generated id and equal created and updated times |
| Types.NewTask | lib/storage/manager.ts:227-233 | a new task has the generated id and equal created and updated times |
| Types.NewInvoice | lib/storage/manager.ts:250-256 | a new invoice has the generated id and equal created and updated times |
| Types.NewInspection | lib/storage/manager.ts:304-310 | a new inspection has the generated id and equal created and updated times |
| Types.MergeCompany | lib/storage/manager.ts:58-62 | the merge stamps `updatedAt` with the clock, and the empty patch changes nothing else |
| Types.MergeUser | lib/storage/manager.ts:168-172 | the merge stamps `updatedAt` with the clock, and the empty patch changes nothing else |
| Types.MergeProject | lib/storage/manager.ts:116-120 | the merge stamps `updatedAt`; the empty patch changes nothing else; a whole-project patch yields `Overlay`: that project, stamped, keeping the target's inspections when it has none |
| Types.MergeMilestone | lib/storage/manager.ts:213-217 | the merge stamps `updatedAt` with the clock, and the empty patch changes nothing else |
| Types.MergeInvoice | lib/storage/manager.ts:273-277 | the merge stamps `updatedAt` with the clock, and the empty patch changes nothing else |
| Types.MergeInspection | lib/storage/manager.ts:342-361 | the merge (at lines 342-346 and 357-361) stamps `updatedAt` with the clock, and the empty patch changes nothing else |
| Types.ProjectMergeIdempotent | lib/storage/manager.ts:110-124 | applying the same project update twice equals applying it once at the later time |
| Repository.ProjectIndex | lib/storage/manager.ts:114 | the first project with the id, and `None` exactly when there is none |
| Repository.MilestoneIndex | lib/storage/manager.ts:209-211 | the first milestone of a project with the id, and `None` exactly when there is none |
| Repository.MilestoneHome | lib/storage/manager.ts:208-211 | the first project holding a milestone with the id, and `None` exactly when no project does |
| Repository.MilestoneHomeAt | lib/storage/manager.ts:208-211 | the first project whose milestones contain the id is the one found |
| Repository.MilestoneHomeNone | lib/storage/manager.ts:208-211 | no project holding the milestone gives `None` |
| Repository.FirstWithIdOfUnique | lib/storage/manager.ts:114 | with unique project ids, every project is the first with its own id |
| Repository.WriteBack | lib/storage/manager.ts:110-124 | writing a project back overlays it on the first project with its id; no match leaves the list unchanged |
| Repository.WriteBackAt | lib/storage/manager.ts:110-124 | writing back to the first project with the id changes only that position; a project that keeps that position's inspections key, or carries one, lands there as it is, stamped |
| Repository.WriteBackToFirstOfDuplicates | lib/storage/manager.ts:114-120 | with two projects sharing an id, the write lands on the first, which keeps its own inspections when the written one has none, and leaves the second as it was |
| Repository.MilestoneEditOnDuplicateKeepsInspections | lib/storage/manager.ts:206-224 | a milestone edit found in the second of two same-id projects copies it over the first, whose inspections stay, and leaves the second unchanged |
| Repository.AddMilestone | lib/storage/manager.ts:189-204 | fails exactly when no project has the milestone's project id; otherwise appends the milestone to that project and writes it back |
| Repository.AddInvoice | lib/storage/manager.ts:250-265 | fails exactly when no project has the invoice's project id; otherwise appends the invoice to that project and writes it back |
| Repository.AddTask | lib/storage/manager.ts:227-247 | fails exactly when no project holds the milestone; otherwise appends the new task to the first such milestone and writes its project back |
| Repository.UpdateMilestoneIn | lib/storage/manager.ts:206-224 | finds nothing exactly when no milestone has the id, and then changes nothing; otherwise merges the first such milestone and writes its project back |
| Repository.InvoiceIndex | lib/storage/manager.ts:271 | the first invoice of a project with the id, and `None` exactly when there is none |
| Repository.GetInvoice | lib/storage/manager.ts:297-301 | found exactly when the project exists and holds an invoice with that id, and then it is the first such invoice of the first project with that id |
| Repository.UpdateInvoiceIn | lib/storage/manager.ts:267-282 | finds nothing exactly when the invoice is not found, and then changes nothing; otherwise merges it in place and writes the project back |
| Repository.InvoicesWithout | lib/storage/manager.ts:289 | keeps exactly the invoices with other ids, in order and each as often as it occurs; equal length means nothing was removed |
| Repository.DeleteInvoiceIn | lib/storage/manager.ts:284-295 | deletes exactly when the invoice exists, and then filters it out of its project; otherwise changes nothing |
| Repository.WithArray | lib/storage/manager.ts:340-363 | replacing the inspection array of a project or of one of its milestones yields that array there and keeps the milestone count |
| Repository.WithSameArray | lib/storage/manager.ts:340-363 | writing back the array already in place leaves the project unchanged |
| Repository.InspectionIndex | lib/storage/manager.ts:341 | the index of the first inspection with the id in a present array, and `None` exactly when there is none |
| Repository.MilestoneHolding | lib/storage/manager.ts:348-361 | the first milestone of a project whose inspections contain the id, and `None` exactly when none does |
| Repository.Locate | lib/storage/manager.ts:335-369 | the first project holding the inspection, and there the project's own array before any milestone's; `None` exactly when no project holds it |
| Repository.LocateAt | lib/storage/manager.ts:335-369 | the position the nested search reaches first is the one located |
| Repository.AddInspection | lib/storage/manager.ts:304-333 | goes to the first milestone with the given milestone id, where a missing array drops it; otherwise it goes to the project, and fails only when no project matches |
| Repository.UpdateInspectionIn | lib/storage/manager.ts:335-369 | finds nothing exactly when no project holds the id, and then changes nothing; otherwise merges the located inspection and writes its project back |
| Repository.InspectionsWithout | lib/storage/manager.ts:378 | keeps exactly the inspections with other ids, in order and each as often as it occurs; equal length means nothing was removed |
| Repository.DeleteInspectionIn | lib/storage/manager.ts:371-397 | deletes exactly when some project holds the id, and then filters the array where it was located; otherwise changes nothing |
| Repository.DeleteInspectionAt | lib/storage/manager.ts:371-397 | the deletion filters the array the nested loops reach first |
| Queries.CompanyById | lib/storage/manager.ts:47-50 | the first stored company with that id, and `None` exactly when there is none |
| Queries.ProjectById | lib/storage/manager.ts:105-108 | the first stored project with that id, and `None` exactly when there is none |
| Queries.UserById | lib/storage/manager.ts:157-160 | the first stored user with that id, and `None` exactly when there is none |
| Queries.ProjectsOfCompany | lib/storage/manager.ts:94-103 | with no company id, or an empty one, all projects; otherwise exactly those of that company, in order |
| Queries.CompanyIndex | lib/storage/manager.ts:54 | the first company with the id, and `None` exactly when there is none |
| Queries.UserIndex | lib/storage/manager.ts:164 | the first user with the id, and `None` exactly when there is none |
| Queries.CompaniesWithout | lib/storage/manager.ts:72 | keeps exactly the companies with other ids, in order and each as often as it occurs; equal length exactly when none had the id |
| Queries.ProjectsWithout | lib/storage/manager.ts:130 | keeps exactly the projects with other ids, in order and each as often as it occurs; equal length exactly when none had the id |
| Queries.UsersWithout | lib/storage/manager.ts:182 | keeps exactly the users with other ids, in order and each as often as it occurs; equal length exactly when none had the id |
| Queries.CreatedCompanyIsFound | lib/storage/manager.ts:27-50 | a company created with a fresh id is found by that id |
| Queries.CreatedProjectIsFound | lib/storage/manager.ts:79-108 | a project created with a fresh id is found by that id |
| Queries.CreatedUserIsFound | lib/storage/manager.ts:137-160 | a user created with a fresh id is found by that id |
| Queries.UpdatedProjectIsFound | lib/storage/manager.ts:105-124 | after an update whose patch carries no id or the same id (as every write-back of a whole project does), lookup by id returns the merged project |
| Queries.DeletedCompanyIsGone | lib/storage/manager.ts:47-76 | after deletion no company with that id is found |
| Queries.DeletedProjectIsGone | lib/storage/manager.ts:105-134 | after deletion that id is not found, and lookup of every other id returns the same record as before |
| Queries.MilestoneInspections | lib/storage/manager.ts:407-411 | an inspection is collected exactly when some milestone's present array holds it |
| Queries.ProjectInspections | lib/storage/manager.ts:403-411 | an inspection is collected exactly when the project's own present array or one of its milestones' holds it |
| Queries.AllInspections | lib/storage/manager.ts:399-415 | an inspection is collected exactly when some stored project's traversal holds it |
| Queries.AllInspectionsAppend | lib/storage/manager.ts:399-415 | the traversal of two project lists is the concatenation of their traversals |
| Queries.MilestoneInspectionsAppend | lib/storage/manager.ts:405-411 | the traversal of two milestone lists is the concatenation of their traversals |
| Queries.MilestoneInspectionsReplace | lib/storage/manager.ts:405-411 | replacing one milestone swaps its inspections in the traversal, as multisets |
| Queries.ProjectInspectionsWithArray | lib/storage/manager.ts:399-415 | replacing one inspection array swaps its contents in the project's traversal, as multisets |
| Queries.AllInspectionsReplace | lib/storage/manager.ts:399-415 | replacing one project swaps its inspections in the whole traversal, as multisets |
| Queries.AllInspectionsSameAt | lib/storage/manager.ts:399-415 | replacing a project by one with the same inspections leaves the traversal unchanged |
| Queries.AllInspectionsWriteBack | lib/storage/manager.ts:110-124 | writing back a project with one array replaced swaps that array's contents in the traversal |
| Queries.AllInspectionsWriteBackAppend | lib/storage/manager.ts:304-333 | writing back a project with one inspection appended adds exactly that inspection to the traversal |
| Queries.CreateInspectionFoundOnce | lib/storage/manager.ts:304-333 | with unique project ids, `getAllInspections` gains exactly the new inspection, or nothing when it was dropped; failure means no target existed |
| Queries.CreatedInspectionCountedOnce | lib/storage/manager.ts:304-415 | a fresh inspection that was stored is counted exactly once by `getAllInspections` |
| Queries.UpdateInspectionReplacesOne | lib/storage/manager.ts:335-369 | with unique project ids, an update swaps exactly one record with that id for its merged version and keeps the count |
| Queries.DeleteInspectionRemovesOnlyThatId | lib/storage/manager.ts:371-397 | with unique project ids, a deletion removes at least one record and only records with that id; all others keep their multiplicity |
| Queries.IsDelayed | lib/storage/manager.ts:436-439 | an on-hold project is delayed, and so is any project past its end date that is not completed; a completed one never is; an active one not past its end date is not |
| Queries.IsOverdue | lib/storage/manager.ts:444-446 | an invoice is overdue exactly when it is pending (issued) and its due date has passed |
| Queries.AllInvoices | lib/storage/manager.ts:442 | an invoice is collected exactly when some project holds it |
| Queries.Revenue | lib/storage/manager.ts:440 | with non-negative fees, the total is non-negative and at least each project's fee |
| Queries.InsertByRecency | lib/storage/manager.ts:448-449 | inserting into a newest-first list keeps it newest-first and adds exactly that project |
| Queries.SortByRecency | lib/storage/manager.ts:448-449 | the sort is newest-first and a permutation of its input |
| Queries.TopOfSorted | lib/storage/manager.ts:448-450 | a prefix of a newest-first permutation is newest-first, drawn from the input, and no left-out project is newer than a kept one |
| Queries.RecentProjects | lib/storage/manager.ts:448-450 | the five (or fewer) most recently updated projects, newest first, none newer left out |
| Queries.DashboardData | lib/storage/manager.ts:418-465 | counts are bounded by the totals they filter, overdue invoices are pending ones, and the recent list is `RecentProjects` |
| Queries.Lower | lib/storage/manager.ts:470 | lower-casing keeps the length and maps each letter A-Z to a-z |
| Queries.LowerChar | lib/storage/manager.ts:470 | A-Z map to a-z (32 code points up); every other character is unchanged |
| Queries.Includes | lib/storage/manager.ts:472-476 | true exactly when the second string occurs in the first at some index |
| Queries.IncludesItself | lib/storage/manager.ts:472-476 | every string includes itself and the empty string |
| Queries.IncludesSlice | lib/storage/manager.ts:472-476 | every string includes each of its slices |
| Queries.SearchProjects | lib/storage/manager.ts:468-478 | keeps exactly the matching projects, in order and each as often as it occurs; the empty query keeps all |
| Queries.EmptyQueryMatchesAll | lib/storage/manager.ts:468-478 | the empty query matches every project |
| Queries.SearchFindsStatus | lib/storage/manager.ts:475 | searching for a project's status name finds that project |
| Queries.SearchFindsNamePart | lib/storage/manager.ts:472 | searching for any slice of a project's name finds that project |
| Storage.LocalStorageManager.constructor | lib/storage/manager.ts:20-24 | the manager starts from the five stored keys as given |
| Storage.LocalStorageManager.Companies | lib/storage/manager.ts:42-45 | an absent key reads as no companies; otherwise the stored list |
| Storage.LocalStorageManager.Projects | lib/storage/manager.ts:94-96 | an absent key reads as no projects; otherwise the stored list |
| Storage.LocalStorageManager.Users | lib/storage/manager.ts:152-155 | an absent key reads as no users; otherwise the stored list |
| Storage.LocalStorageManager.CreateCompany | lib/storage/manager.ts:27-40 | returns the stamped company and appends it to the stored companies |
| Storage.LocalStorageManager.UpdateCompany | lib/storage/manager.ts:52-66 | `null` exactly when no company has the id, and then nothing is written; otherwise the first match is merged in place |
| Storage.LocalStorageManager.DeleteCompany | lib/storage/manager.ts:68-76 | `true` exactly when a company had the id, and then all companies with it are removed; otherwise nothing is written |
| Storage.LocalStorageManager.CreateProject | lib/storage/manager.ts:79-92 | returns the stamped project and appends it to the stored projects |
| Storage.LocalStorageManager.UpdateProject | lib/storage/manager.ts:110-124 | `null` exactly when no project has the id, and then nothing is written; otherwise the first match is merged in place |
| Storage.LocalStorageManager.DeleteProject | lib/storage/manager.ts:126-134 | `true` exactly when a project had the id, and then all projects with it are removed; otherwise nothing is written |
| Storage.LocalStorageManager.CreateUser | lib/storage/manager.ts:137-150 | returns the stamped user and appends it to the stored users |
| Storage.LocalStorageManager.UpdateUser | lib/storage/manager.ts:162-176 | `null` exactly when no user has the id, and then nothing is written; otherwise the first match is merged in place |
| Storage.LocalStorageManager.DeleteUser | lib/storage/manager.ts:178-186 | `true` exactly when a user had the id, and then all users with it are removed; otherwise nothing is written |
| Storage.LocalStorageManager.CreateMilestone | lib/storage/manager.ts:189-204 | fails with "Project not found" without writing, or stores the projects `AddMilestone` gives |
| Storage.LocalStorageManager.UpdateMilestone | lib/storage/manager.ts:206-224 | the nested search agrees with `UpdateMilestoneIn`; a miss writes nothing |
| Storage.LocalStorageManager.CreateTask | lib/storage/manager.ts:227-247 | fails with "Milestone not found" without writing, or stores the projects `AddTask` gives |
| Storage.LocalStorageManager.CreateInvoice | lib/storage/manager.ts:250-265 | fails with "Project not found" without writing, or stores the projects `AddInvoice` gives |
| Storage.LocalStorageManager.UpdateInvoice | lib/storage/manager.ts:267-282 | agrees with `UpdateInvoiceIn`; a miss writes nothing |
| Storage.LocalStorageManager.DeleteInvoice | lib/storage/manager.ts:284-295 | agrees with `DeleteInvoiceIn`; `false` writes nothing |
| Storage.LocalStorageManager.CreateInspection | lib/storage/manager.ts:304-333 | always returns the stamped inspection; stores what `AddInspection` gives, or writes nothing when no project matches |
| Storage.LocalStorageManager.UpdateInspection | lib/storage/manager.ts:335-369 | the nested loops agree with `UpdateInspectionIn`; a miss writes nothing |
| Storage.LocalStorageManager.DeleteInspection | lib/storage/manager.ts:371-397 | the nested loops agree with `DeleteInspectionIn`; `false` writes nothing |
| Storage.LocalStorageManager.DeleteInProject | lib/storage/manager.ts:374-395 | for one project, agrees with `DeleteInspectionIn` when it deletes; otherwise writes nothing and the project holds no such inspection |
| Storage.LocalStorageManager.DeleteFromMilestones | lib/storage/manager.ts:384-394 | the milestone part of one project: agrees with `DeleteInspectionIn` when it deletes; otherwise writes nothing |
| Storage.LocalStorageManager.GetAllInspections | lib/storage/manager.ts:399-415 | the loops collect exactly `AllInspections` of the stored projects |
| Storage.LocalStorageManager.PushInspectionsOf | lib/storage/manager.ts:404-411 | pushes exactly one project's inspections, its own array before its milestones' |
| Storage.LocalStorageManager.InitializeSampleData | lib/storage/manager.ts:486-522 | with no company stored, it stores exactly the sample company and appends its admin user, each stamped with its own clock reading; otherwise nothing changes |
| Storage.LocalStorageManager.ExportAllData | lib/storage/manager.ts:525-534 | the backup carries all three stored collections, even empty ones, and the export time |
| Storage.LocalStorageManager.ImportAllData | lib/storage/manager.ts:537-558 | `false` exactly when parsing throws or yields `null`, and then nothing is written; otherwise `true`, and each collection the value carries replaces the stored one |
| Storage.LocalStorageManager.ClearAllData | lib/storage/manager.ts:561-567 | all five keys are removed and every collection reads as empty |
| Storage.LocalStorageManager.RestoreFromBackup | lib/storage/manager.ts:525-567 | export, clear and import bring back every collection; settings and the sync queue stay cleared |
| Storage.LocalStorageManager.InitializeTwice | lib/storage/manager.ts:486-522 | a second sample-data seeding, at any later clock readings, changes nothing: the state is that of one call |
| Access.AllowedRoles | lib/auth/context.tsx:39-68 | the table names six resources and five actions; each listed entry is non-empty and names each role once |
| Access.Grants | lib/auth/context.tsx:39-68 | a role is granted only actions of the table's six resources |
| Access.HasRole | lib/auth/context.tsx:121-126 | false with no user; otherwise true exactly when the user's role is the role given or in the list given |
| Access.CanAccess | lib/auth/context.tsx:128-140 | false with no user and for pairs missing from the table; otherwise true exactly when the role is listed, in either reading of the table |
| Access.TableReadTwoWays | lib/auth/context.tsx:39-68 | reading the table by resource and by role gives the same answer |
| Access.DenyByDefault | lib/auth/context.tsx:132-134 | a resource outside the table is denied to every user |
| Access.AdminRights | lib/auth/context.tsx:39-68 | admin may delete projects and view or manage users, and nothing else |
| Access.NobodyManagesProjects | lib/auth/context.tsx:213 | `canManageProjects` asks for a pair the table lacks, so it is false for everyone |
| Access.HasAllRoles | lib/auth/context.tsx:199-202 | false with no user; otherwise true exactly when every listed role is the user's role |
| Access.AllAre | lib/auth/context.tsx:201 | true exactly when every element equals the given role |
| Access.AllRolesImpliesAnyRole | lib/auth/context.tsx:195-202 | for a non-empty list, holding all roles implies holding any of them |
| Access.PermissionsOf | lib/auth/context.tsx:204-216 | `isAdmin` covers admin and management; `canManageProjects` is always false; the financials and user-management flags follow the table |
| Session.LoginUser | lib/auth/context.tsx:101 | the first stored user with exactly that email whose account is active; `None` exactly when there is none |
| Session.InactiveNeverSignsIn | lib/auth/context.tsx:101 | an account that is not active never signs in |
| Session.AuthProvider.IsAuthenticated | lib/auth/context.tsx:146 | true exactly when a user is signed in |
| Session.AuthProvider.constructor | lib/auth/context.tsx:70-71 | nobody is signed in at first render, whatever the session key holds |
| Session.AuthProvider.Login | lib/auth/context.tsx:97-114 | succeeds exactly when an active user has that email, and then signs that user in and saves the session; otherwise nothing changes |
| Session.AuthProvider.Logout | lib/auth/context.tsx:116-119 | nobody is signed in and the session key is removed |
| Session.AuthProvider.RestoreSession | lib/auth/context.tsx:73-95 | no key: nothing happens; a key that yields no user, or a user the store lacks, is removed; a known user becomes the signed-in user as the store has it |
| Session.AuthProvider.LoginThenReload | lib/auth/context.tsx:73-114 | with unique user ids, reloading after a sign-in restores the same user and keeps the key |
| Session.SignedInUserIsFoundById | lib/auth/context.tsx:81-83 | with unique user ids, looking up the signed-in user by id returns that same record |

## Left out

- JSON encoding and the localStorage API are abstracted. Each key is an `Option` of the decoded value. In `ImportAllData`, `None` stands for text on which `JSON.parse` throws or that parses to `null`. A stored value that is present but not an array is not distinguished from an array, and an imported collection that is truthy but not an array is not modelled.
- Queries.Lower: lower-cases only the ASCII letters A-Z, because Unicode case mapping is out of reach.
- Queries.LowerChar: maps only A-Z; capitals outside ASCII (such as `É`) stay unchanged, unlike `toLowerCase`, for the same reason.
- One clock reading stands for the two `new Date()` calls of a create (createdAt and updatedAt), so they are equal in the model. The nested operations also use that one reading (`now`) for two stamps the source takes separately: the nested record's own stamp (lib/storage/manager.ts:193-194, 215, 345) and the parent project's `updatedAt` written by `updateProject` (lib/storage/manager.ts:119).
- Patch fields are absent or present. For an optional property, `Some(None)` is a present key holding `undefined` or `null`. For a required property, a present key holding `undefined` is not modelled.
- Money amounts and fees are integers, not floating-point numbers.
- The `ROLE_PERMISSIONS` table (lib/auth/context.tsx:28-37) is not modelled because no code reads it.
- The `withAuth` wrapper, the React context and hooks plumbing, and all rendering are not modelled.
- Queries.SortByRecency: proved newest-first and a permutation. The stability of `Array.prototype.sort` on equal times is not stated.
- Queries.DashboardData: `endDate` is always present in the model, so the truthiness test on it in the delayed count (lib/storage/manager.ts:438) is not modelled.
- The dashboard's mock figures (75, 3 and 5) are constants.
- lib/excel/manager.ts and the UI components are not part of this model.
- Console logging is not modelled, and neither are the catch blocks that only log and return the same value as the error path.
- Asynchronous calls are modelled as sequential; interleaving of concurrent calls is not.
- `generateId` is a parameter. Whether ids are unique is not modelled, so lemmas that need it assume unique ids.
- `inspections` is read by the inspection operations on projects and on milestones, but neither `Project` (lib/types/index.ts:56-79) nor `Milestone` declares it. The model gives both an optional inspection array.
- Session.AuthProvider.RestoreSession: a stored session that parses but has no usable `id` is treated like text that does not parse (`Malformed`). Both remove the key.
- Storage.LocalStorageManager.ExportAllData: returns the backup as a value rather than as indented JSON text. Its round trip is stated by `RestoreFromBackup`.
