# Law-office document workspace: authorization and document logic in Dafny

This project models the decision logic of a React/TypeScript law-office
workspace, where staff and clients share legal documents, tasks and
templates. The model covers:

- **The role-based authorization model.** A fixed catalogue gives the roles
  `admin`, `team` and `client` resource/action permissions and feature flags.
  Three lookups read it: `hasPermission`, `hasFeature` and `canAccessRoute`,
  the last over a route table. Three consumers sit on top of it: the
  `usePermissions` hook, the `PermissionGate` guard and the role-filtered
  navigation menu.
- **The authentication reducer** and the provider actions that dispatch into it.
- **The template, task and document services.** The model keeps their
  record-building logic, with the backend calls left out:
  - placeholder substitution;
  - partial-update records;
  - default values;
  - auto-tagging, tag merging and document classification.
- **File validation and the upload queues** of the uploader component and
  the upload page.
- **The page state of the document viewer** (zoom and rotation) and of the
  e-signature page (signers and requests).
- **The filter and sort** of the document list.

## Modelling choices

- Roles are strings. A profile role such as `user` or `viewer`, which the
  catalogue does not know, can then be expressed.
- Pure code becomes datatypes, functions and lemmas.
- Code that builds a result step by step becomes a method, and each method
  is proved equal to a specification function. The properties are then
  proved about that function. There are two kinds:
  - Methods with a `while` loop and its invariants: `useTemplate` and
    `renderPreview` substitution, and the uploader's `handleFiles` and
    `uploadFiles`.
  - Straight-line methods, a sequence of `if` statements that each set a
    field or push tags: the `updateTemplate`, `updateTask` and
    `completeTask` update records, and both `generateAutoTags`. Each is
    proved equal to a closed-form record or tag list.
- The document viewer and the e-signature page are classes. Their fields
  are the component state, and each handler is a method. Each method's
  postcondition says the new state is a function of the old one.
- The auth provider is also a class. It holds the reducer state and a ghost
  log of the actions it dispatched.
- JavaScript truthiness is written out:
  - the empty string is falsy;
  - arrays are always truthy;
  - a `!== undefined` test writes the value even when it is `0` or `false`.
- Backend results are parameters of the operation, never computed:
  whether credentials were accepted, whether a template was found, and each
  upload's outcome. Fresh ids and the clock are parameters too.

Modules:

| Module | What it models |
|---|---|
| `Permissions` | the role catalogue |
| `UsePermissions` | the permissions hook |
| `PermissionGate` | the access guard |
| `RoleBasedNavigation` | the navigation menu |
| `AuthContext` | the auth reducer and provider |
| `TemplateService` | the template service |
| `CreateTemplate` | the template editor |
| `TaskService` | the task service |
| `DocumentService` | the document service |
| `FileUtils` | file validation and icons |
| `FileUploader` | the upload component |
| `UploadDocuments` | the upload page |
| `DocumentViewer` | the viewer |
| `ESignature` | the e-signature page |
| `AllDocuments` | the document list |

`Wrappers` (Option, Result) and `Text` (substring search, ASCII case
mapping, replace-all as split/join, file extension) are shared helpers.

## Model

| member | source | states |
|---|---|---|
| Permissions.HasPermission | src/types/permissions.ts:86-92 | a permission is only ever granted to a role of the catalogue |
| Permissions.HasFeature | src/types/permissions.ts:94-97 | a feature is held exactly when the role is in the catalogue and lists the feature |
| Permissions.FindPermission | src/types/permissions.ts:90 | a found entry names the looked-up resource |
| Permissions.CanAccessRoute | src/types/permissions.ts:99-112 | a route outside the table is open, and a mapped route is only opened to a role of the catalogue |
| Permissions.CatalogueResourcesDistinct | src/types/permissions.ts:19-29 | no role lists the same resource twice (admin 19-29, team 47-55, client 70-74), so the first-match lookup is unambiguous |
| Permissions.FindPermissionFirst | src/types/permissions.ts:90 | `find` returns the first entry naming the resource |
| Permissions.FindPermissionAbsent | src/types/permissions.ts:90 | `find` comes back empty exactly when no entry names the resource |
| Permissions.FindPermissionUnique | src/types/permissions.ts:90 | in a list with distinct resources, the entry naming the resource is the one found |
| Permissions.RoleEntry | src/types/permissions.ts:90 | looking up the resource of any catalogue entry finds that entry |
| Permissions.HasPermissionMeaning | src/types/permissions.ts:86-92 | `hasPermission` holds iff the role has an entry for the resource whose actions include the action |
| Permissions.UnknownRoleDenied | src/types/permissions.ts:87-88 | a role outside the catalogue is denied every resource and action |
| Permissions.UnknownRoleHasNoFeature | src/types/permissions.ts:95-96 | a role outside the catalogue has no feature |
| Permissions.TeamExtendsClientAt | src/types/permissions.ts:47-55 | each client entry has a team entry for the same resource with at least its actions (client list at 70-74) |
| Permissions.ClientWithinTeam | src/types/permissions.ts:70-74 | whatever client is granted, team is granted |
| Permissions.AdminExtendsTeamAt | src/types/permissions.ts:19-29 | admin's entries extend team's entry by entry with at least the same actions (team list at 47-55) |
| Permissions.TeamWithinAdmin | src/types/permissions.ts:47-55 | whatever team is granted, admin is granted |
| Permissions.PermissionsNest | src/types/permissions.ts:19-29 | permissions nest: client within team within admin |
| Permissions.FeaturesDoNotNest | src/types/permissions.ts:56-82 | feature lists do not nest: client has `document_viewing` and team does not; team has `document_management` and admin does not |
| Permissions.ClientDeniedResources | src/types/permissions.ts:70-74 | client is denied every action on users, folders, settings, analytics, billing and integrations |
| Permissions.TeamLacksBilling | src/types/permissions.ts:47-55 | team has no billing entry |
| Permissions.BillingExamples | src/types/permissions.ts:27 | only admin may manage billing |
| Permissions.TeamDocumentExamples | src/types/permissions.ts:49 | team may update documents but not delete them |
| Permissions.ClientFeatureExamples | src/types/permissions.ts:75-82 | client has `document_viewing` but not `billing_management` |
| Permissions.UnmappedRouteOpen | src/types/permissions.ts:109-110 | a route missing from the route table is open to every role, unknown roles included |
| Permissions.MappedRouteIsPermission | src/types/permissions.ts:112 | a mapped route is open iff the role holds the mapped resource/action |
| Permissions.AdminPassesRouteTable | src/types/permissions.ts:100-107 | admin holds the permission of every mapped route |
| Permissions.AdminHoldsRoutePermissions | src/types/permissions.ts:100-107 | admin holds users/read, users/manage_roles, settings/read, analytics/read and billing/read |
| Permissions.RouteAccessNests | src/types/permissions.ts:99-112 | route access nests client within team within admin, and admin reaches every route |
| Permissions.UserManagementRoute | src/types/permissions.ts:102 | `/user-management` is open to admin and closed to client |
| Permissions.AsWrittenAgreesOffInheritedKeys | src/types/permissions.ts:87-110 | with plain-object lookups, the code as written agrees with the intended functions on every role and route that is not an inherited object key |
| Permissions.InheritedKeyCounterexample | src/types/permissions.ts:109-110 | as written, the unmapped route `constructor` is refused and role `toString` makes `hasPermission` throw, where the intended functions open the route and deny the role |
| UsePermissions.BoundRole | src/hooks/usePermissions.ts:5-6 | the bound role is the user's role when it is non-empty, otherwise `client`, and is never empty |
| UsePermissions.UsePermissions | src/hooks/usePermissions.ts:4-23 | the accessor's role is the bound role; its lookups apply the catalogue functions to it (9-16) |
| UsePermissions.AtMostOneRolePredicate | src/hooks/usePermissions.ts:18-20 | at most one of `isAdmin`, `isTeam` and `isClient` holds |
| UsePermissions.NoUserActsAsClient | src/hooks/usePermissions.ts:6 | with no user, every lookup equals the client lookup and `isClient` holds |
| UsePermissions.NoUserReadsDocuments | src/hooks/usePermissions.ts:6 | with no user, reading documents is allowed |
| UsePermissions.ForeignRoleHasNothing | src/hooks/usePermissions.ts:18-20 | a role outside the three makes every role test, permission and feature false; only unmapped routes stay open |
| UsePermissions.DefaultProfileRoleDenied | src/hooks/usePermissions.ts:9-10 | a profile with the role `user` is denied every permission |
| PermissionGate.HasAccess | src/components/PermissionGate.tsx:23-31 | access is refused only when some discriminant was supplied |
| PermissionGate.Render | src/components/PermissionGate.tsx:33 | the children when access is granted, otherwise the fallback |
| PermissionGate.NoDiscriminantGrants | src/components/PermissionGate.tsx:23 | with no pair, no feature and no role, access is granted and the children render |
| PermissionGate.PairDecides | src/components/PermissionGate.tsx:25-26 | a resource+action pair decides by `hasPermission`; feature and role are ignored |
| PermissionGate.FeatureDecides | src/components/PermissionGate.tsx:27-28 | without a pair, a feature decides by `hasFeature`; role is ignored |
| PermissionGate.RoleDecides | src/components/PermissionGate.tsx:29-30 | otherwise a role grants iff it equals the bound role |
| PermissionGate.HalfPairFallsThrough | src/components/PermissionGate.tsx:25 | a resource without an action, or an action without a resource, has no effect on the decision |
| PermissionGate.TemplateCreateGate | src/components/PermissionGate.tsx:18-33 | a templates/create gate shows the fallback to client and the children to team |
| RoleBasedNavigation.RoleBasedFeatures | src/components/RoleBasedNavigation.tsx:94-125 | any role other than admin, team or client gets an empty feature list |
| RoleBasedNavigation.FilterFrom | src/components/RoleBasedNavigation.tsx:89-91 | filtering from a position keeps at most the items from there on |
| RoleBasedNavigation.FilterByRole | src/components/RoleBasedNavigation.tsx:89-91 | the filtered menu is no longer than the master list |
| RoleBasedNavigation.NavigationItems | src/components/RoleBasedNavigation.tsx:20-91 | the menu for the bound role is no longer than the master list of items |
| RoleBasedNavigation.FilterFromMembership | src/components/RoleBasedNavigation.tsx:89-91 | an item survives the filter iff it is in the list and lists the role |
| RoleBasedNavigation.FilterMembership | src/components/RoleBasedNavigation.tsx:89-91 | the menu holds exactly the master-list items that list the role |
| RoleBasedNavigation.FilterFromIsSubsequence | src/components/RoleBasedNavigation.tsx:89-91 | the filtered suffix is a subsequence of the suffix |
| RoleBasedNavigation.FilterIsSubsequence | src/components/RoleBasedNavigation.tsx:89-91 | the menu keeps the master list's order |
| RoleBasedNavigation.FilterFromKeepsAll | src/components/RoleBasedNavigation.tsx:89-91 | when every item lists the role, nothing is dropped |
| RoleBasedNavigation.AdminSeesAll | src/components/RoleBasedNavigation.tsx:20-87 | admin sees all 11 items |
| RoleBasedNavigation.ClientMenu | src/components/RoleBasedNavigation.tsx:20-91 | client sees Dashboard, Documents, Tasks, Knowledge Hub and Settings, in that order |
| RoleBasedNavigation.TeamMenu | src/components/RoleBasedNavigation.tsx:20-91 | team sees every item but Team Management, Security, Billing and Audit Logs |
| RoleBasedNavigation.ForeignRoleEmptyMenu | src/components/RoleBasedNavigation.tsx:89-91 | a role outside the three gets an empty menu |
| RoleBasedNavigation.TeamReadsInsightsAndSettings | src/types/permissions.ts:103-105 | team may open `/insights` and `/settings` |
| RoleBasedNavigation.AdminMenuRoutesOpen | src/components/RoleBasedNavigation.tsx:20-87 | every admin menu entry leads to a route admin may open |
| RoleBasedNavigation.TeamPathsOpen | src/components/RoleBasedNavigation.tsx:20-87 | every path in the team menu is open to team |
| RoleBasedNavigation.TeamMenuRoutesOpen | src/components/RoleBasedNavigation.tsx:89-91 | every team menu entry leads to a route team may open |
| RoleBasedNavigation.ClientShownDeniedSettings | src/components/RoleBasedNavigation.tsx:81-86 | client is shown the Settings entry although `canAccessRoute` refuses `/settings` to client |
| AuthContext.AuthReducer | src/contexts/AuthContext.tsx:25-55 | only AUTH_SUCCESS authenticates a signed-out state, only AUTH_START starts loading, and only AUTH_SUCCESS or UPDATE_USER brings in a user |
| AuthContext.StartKeepsSession | src/contexts/AuthContext.tsx:27-28 | `AUTH_START` sets loading and keeps user and authentication |
| AuthContext.SuccessIgnoresPriorState | src/contexts/AuthContext.tsx:29-34 | `AUTH_SUCCESS` gives the same signed-in state whatever came before |
| AuthContext.FailureIsLogout | src/contexts/AuthContext.tsx:35-46 | `AUTH_FAILURE` and `LOGOUT` both give the signed-out state from any state |
| AuthContext.UpdateUserOnlyReplacesUser | src/contexts/AuthContext.tsx:47-51 | `UPDATE_USER` replaces the user only |
| AuthContext.UnrecognisedIsIdentity | src/contexts/AuthContext.tsx:52-53 | an unrecognised action leaves the state unchanged |
| AuthContext.ReducerPreservesConsistent | src/contexts/AuthContext.tsx:25-55 | every action except `UPDATE_USER` while signed out keeps "authenticated iff there is a user" |
| AuthContext.TerminalActionsRestoreConsistent | src/contexts/AuthContext.tsx:29-46 | after success, failure or logout the state is consistent and not loading |
| AuthContext.UpdateWhileSignedOutBreaksConsistent | src/contexts/AuthContext.tsx:47-62 | the initial state is consistent, and `UPDATE_USER` applied to it or after a logout breaks consistency |
| AuthContext.RunStaysConsistent | src/contexts/AuthContext.tsx:25-55 | any action sequence that never updates the user while signed out keeps the state consistent |
| AuthContext.AuthProvider.constructor | src/contexts/AuthContext.tsx:58-62 | the provider starts with no user, not authenticated and loading, having dispatched nothing |
| AuthContext.AuthProvider.Dispatch | src/contexts/AuthContext.tsx:58 | the new state is the reducer applied to the old state, and the action is logged |
| AuthContext.AuthProvider.SignIn | src/contexts/AuthContext.tsx:106-126 | `signIn` dispatches `AUTH_START` first, then success when the credentials and profile are there, else failure; it ends consistent and not loading |
| AuthContext.AuthProvider.SignUp | src/contexts/AuthContext.tsx:128-146 | `signUp` dispatches `AUTH_START` and leaves loading set on success; on failure it dispatches `AUTH_FAILURE` |
| AuthContext.AuthProvider.Logout | src/contexts/AuthContext.tsx:148-151 | `logout` dispatches `LOGOUT` and leaves the signed-out state |
| AuthContext.AuthProvider.UpdateProfile | src/contexts/AuthContext.tsx:153-160 | a returned profile is dispatched as `UPDATE_USER`; otherwise nothing changes |
| AuthContext.AuthProvider.InitializeAuth | src/contexts/AuthContext.tsx:65-83 | a session user with a profile signs in; anything else, a thrown check included, dispatches failure |
| AuthContext.AuthProvider.OnAuthStateChange | src/contexts/AuthContext.tsx:88-99 | `SIGNED_IN` with a user dispatches AUTH_SUCCESS with the loaded profile or AUTH_FAILURE when there is none; a profile fetch that throws dispatches nothing and leaves the state; `SIGNED_OUT` dispatches LOGOUT; any other event dispatches nothing |
| TemplateService.Placeholder | src/services/templateService.ts:170 | the placeholder is `{{`, then exactly the name, then `}}` |
| TemplateService.Fallback | src/services/templateService.ts:169 | the fallback is `[`, then the upper-cased name, then `]` |
| TemplateService.ResolveValue | src/services/templateService.ts:169 | precedence: a non-empty caller value wins; otherwise a non-empty default; otherwise the bracketed name; the value is never empty |
| TemplateService.SubstituteStep | src/services/templateService.ts:168-171 | each variable, in declaration order, replaces its placeholder in the text so far |
| TemplateService.Substitute | src/services/templateService.ts:167-172 | a template without variables renders as its content unchanged |
| TemplateService.UseTemplate | src/services/templateService.ts:155-179 | a missing template fails with "Template not found"; a found one writes usage count + 1 and returns the substitution |
| TemplateService.AbsentPlaceholdersNoChange | src/services/templateService.ts:167-172 | content without any declared placeholder is returned unchanged |
| TemplateService.OneVariableReplacesEveryOccurrence | src/services/templateService.ts:170-171 | every occurrence of the placeholder is replaced, and none survives between the replaced pieces |
| TemplateService.EarlierValueIsSubstitutedAgain | src/services/templateService.ts:167-172 | a value containing a later variable's placeholder is itself substituted |
| TemplateService.FallbackExample | src/services/templateService.ts:169 | with no value and no default, `{{client}}` becomes `[CLIENT]` |
| TemplateService.EmptyValueCountsAsMissing | src/services/templateService.ts:169 | an empty caller value resolves as if the caller had given none: to the default when it is non-empty, else to the fallback |
| TemplateService.CreateTemplateRecord | src/services/templateService.ts:39-69 | without a user the call fails with "User not authenticated"; otherwise the record starts with usage count 0, created by the user |
| TemplateService.MapToTemplateData | src/services/templateService.ts:219-234 | missing tags and variables read back as empty lists; usage count and visibility are copied |
| TemplateService.CreatedTemplateReadsBack | src/services/templateService.ts:44-55 | a created template reads back with the given fields, usage count 0 and its creator |
| TemplateService.DuplicateData | src/services/templateService.ts:202-210 | the copy is private and is named `newName` when truthy, else "<name> (Copy)" |
| TemplateService.DuplicateTemplate | src/services/templateService.ts:197-217 | a missing original fails with "Template not found"; otherwise the copy is created like any template |
| TemplateService.DuplicateRendersLikeOriginal | src/services/templateService.ts:197-217 | the stored copy renders every value map as the original does, with the same description, category and tags, private, unused and owned by the caller |
| TemplateService.DuplicateNameSuffix | src/services/templateService.ts:203 | without a new name the copy's name is the original's followed by " (Copy)" |
| TemplateService.WhenTruthy | src/services/templateService.ts:115-121 | a field is written exactly when it is a non-empty string |
| TemplateService.BuildTemplateUpdate | src/services/templateService.ts:114-124 | `updated_at` is always set; string fields are written when truthy, tags and variables when present, and `is_public` whenever defined |
| TemplateService.UpdateKeepsUnwrittenFields | src/services/templateService.ts:114-124 | an empty name or content leaves the stored value; `isPublic: false` is written; creator, creation time, usage and id are never touched |
| TemplateService.UpdateIdempotent | src/services/templateService.ts:126-131 | applying the same update twice is applying it once |
| CreateTemplate.AddVariable | src/pages/CreateTemplate.tsx:30-38 | one variable is appended with an empty name, type text and not required; the others are unchanged |
| CreateTemplate.UpdateVariable | src/pages/CreateTemplate.tsx:40-44 | only the variable with that id has the field set; the others are unchanged |
| CreateTemplate.RemoveVariable | src/pages/CreateTemplate.tsx:46-48 | the list never grows |
| CreateTemplate.RenderPreview | src/pages/CreateTemplate.tsx:56-64 | the preview loop computes the substitution with no caller values |
| CreateTemplate.PreviewValue | src/pages/CreateTemplate.tsx:59 | in the preview a variable shows its default when non-empty, else `[NAME]` |
| CreateTemplate.RemoveVariableMembership | src/pages/CreateTemplate.tsx:46-48 | exactly the variables with another id are kept |
| CreateTemplate.RemoveMissingIsIdentity | src/pages/CreateTemplate.tsx:46-48 | removing an id nobody has changes nothing |
| CreateTemplate.RemoveVariableAppend | src/pages/CreateTemplate.tsx:46-48 | removal distributes over concatenation, so the kept variables keep their order |
| CreateTemplate.AddThenRemove | src/pages/CreateTemplate.tsx:30-48 | adding under a fresh id and removing it gives back the list |
| CreateTemplate.UpdateMissingIsIdentity | src/pages/CreateTemplate.tsx:40-44 | updating an id nobody has changes nothing |
| CreateTemplate.UpdateTwiceIsOnce | src/pages/CreateTemplate.tsx:40-44 | repeating an edit that does not change the id has no further effect |
| CreateTemplate.UpdateThenRemove | src/pages/CreateTemplate.tsx:40-48 | an edit that keeps ids does not change what a removal deletes |
| CreateTemplate.RenamedVariableFillsNewPlaceholder | src/pages/CreateTemplate.tsx:40-64 | after a rename, the new placeholder shows the variable's default in the preview |
| TaskService.WhenTruthy | src/services/taskService.ts:110-118 | a field is written exactly when it is a non-empty string |
| TaskService.CreateTaskRow | src/services/taskService.ts:33-64 | without a user the call fails with "User not authenticated"; otherwise the task starts as `todo`, assigned by the user, with no actual hours and tags defaulting to empty |
| TaskService.MapToTaskData | src/services/taskService.ts:194-211 | missing tags read back as an empty list; status and hours are copied |
| TaskService.BuildTaskUpdate | src/services/taskService.ts:107-136 | the field-by-field `if` sequence builds exactly the closed-form update record of `updateTask` |
| TaskService.BuildCompleteUpdate | src/services/taskService.ts:152-176 | the straight-line body builds exactly the record of `completeTask` |
| TaskService.CompleteIsStatusUpdate | src/services/taskService.ts:154-161 | completing is the same update as setting status `completed` plus the actual hours |
| TaskService.CompletedTaskReadsBack | src/services/taskService.ts:154-161 | a completed task reads back as `completed`, updated now, with the given hours or the old ones, and the other fields kept |
| TaskService.ZeroHoursWrittenEmptyStringsNot | src/services/taskService.ts:109-121 | hours of 0 are written while empty strings are not |
| TaskService.UpdateKeepsOrigin | src/services/taskService.ts:109-121 | an update never changes id, assigner, document or creation time |
| TaskService.TaskUpdateIdempotent | src/services/taskService.ts:123-128 | applying the same update twice is applying it once |
| TaskService.CreatedTaskReadsBack | src/services/taskService.ts:38-50 | a created task reads back as `todo` with the given title, priority, assignee and hours, assigned by the user, and with empty tags when none were given |
| DocumentService.GenerateAutoTags | src/services/documentService.ts:251-277 | the sequence of conditional pushes builds exactly the rule-order tag list |
| DocumentService.RuleTagsSource | src/services/documentService.ts:257-270 | a tag is produced iff some rule whose fragment occurs in its subject carries it |
| DocumentService.ProposalNotInVocabulary | src/services/documentService.ts:257-270 | no rule produces `proposal` |
| DocumentService.AutoTagsOf | src/services/documentService.ts:251-277 | every automatic tag comes from the fixed vocabulary of the rule table |
| DocumentService.RuleTagsPrefix | src/services/documentService.ts:257-270 | later rules only append |
| DocumentService.KeywordTags | src/services/documentService.ts:257-270 | `nda` brings `nda` and `confidential`, `invoice` brings `invoice` and `financial`, and a PDF's first tag is `pdf` |
| DocumentService.RuleBringsTags | src/services/documentService.ts:257-270 | a matching rule's tags all appear |
| DocumentService.PdfTagFirst | src/services/documentService.ts:257 | a PDF's first auto tag is `pdf` |
| DocumentService.DedupAfterSpec | src/services/documentService.ts:53 | de-duplication keeps exactly the unseen elements, each once |
| DocumentService.DedupAfterDistinct | src/services/documentService.ts:53 | a list without repeats and unseen elements is kept as is |
| DocumentService.DedupAfterAppend | src/services/documentService.ts:53 | de-duplicating a concatenation de-duplicates the second part against the first |
| DocumentService.DedupAfter | src/services/documentService.ts:53 | deduplication never lengthens the list and keeps only input elements not already seen |
| DocumentService.MergeTagsSpec | src/services/documentService.ts:52-53 | the merged tags are exactly the caller's and the auto tags, without repeats, with distinct caller tags kept in front in order |
| DocumentService.MergeTags | src/services/documentService.ts:52-53 | the merged list is no longer than both lists together and holds only their tags |
| DocumentService.GetDocumentType | src/services/documentService.ts:279-286 | first match wins in the order pdf, word (`document`), excel (`spreadsheet`), image, text; `other` exactly when no fragment occurs |
| DocumentService.WordTypeMatchesWordTag | src/services/documentService.ts:258-283 | a Word file is typed `document` and tagged `document` |
| DocumentService.StorageName | src/services/documentService.ts:36-37 | the storage name is the id, a dash, then the file name |
| DocumentService.NewDocumentRow | src/services/documentService.ts:56-73 | without a user the call fails with "User not authenticated"; otherwise the record is a `draft` at version 1 with the file's name and type, the merged tags, and priority defaulting to `medium` |
| DocumentService.MapToDocumentMetadata | src/services/documentService.ts:288-307 | missing tags read back as an empty list; status, version and name are copied |
| DocumentService.ProposalOnlyFromNameOrCallerTags | src/services/documentService.ts:97 | the proposal trigger fires iff the name or the caller's tags say `proposal` |
| DocumentService.StatusChangeMeaning | src/services/documentService.ts:213 | a status change is notified only for two present, different statuses, and for non-empty ones exactly then |
| DocumentService.UploadedDocumentReadsBack | src/services/documentService.ts:33-107 | an upload reads back as a draft at version 1 with the file's name and a repeat-free union of caller and auto tags |
| FileUtils.GetFileIconAsWritten | src/utils/fileUtils.ts:45-55 | as written: `pdf` gives the pdf icon, and otherwise `document` gives the memo icon |
| FileUtils.GetFileIcon | src/utils/fileUtils.ts:45-55 | `pdf` gives the pdf icon, spreadsheets and presentations the chart icon, and the folder icon iff no fragment matches |
| FileUtils.EmptyAllowListRejects | src/utils/fileUtils.ts:57-59 | an empty allow list rejects every type |
| FileUtils.AllowListMonotone | src/utils/fileUtils.ts:57-59 | widening the allow list never rejects an accepted type |
| FileUtils.EmptyEntryAcceptsAll | src/utils/fileUtils.ts:57-59 | an empty fragment in the allow list accepts every type |
| FileUtils.SizeLimitInclusive | src/utils/fileUtils.ts:61-64 | exactly maxMB·1024·1024 bytes passes and one byte more fails |
| FileUtils.SizeLimitMonotone | src/utils/fileUtils.ts:62-63 | a file accepted under a limit is accepted under any larger one |
| FileUtils.IconOrderingsAgreeElsewhere | src/utils/fileUtils.ts:45-55 | the corrected icon order agrees with the written one on every type that names no spreadsheet or presentation |
| FileUtils.OpenDocumentTypesLackPdf | src/utils/fileUtils.ts:46 | the OpenDocument spreadsheet and presentation types do not contain `pdf` |
| FileUtils.OpenDocumentTypesContain | src/utils/fileUtils.ts:47-50 | those types contain both `document` and their own kind |
| FileUtils.SpreadsheetIconCounterexample | src/utils/fileUtils.ts:47-50 | as written, the OpenDocument spreadsheet and presentation get the memo icon; corrected, the chart icon |
| FileUtils.DocumentShadowsCharts | src/utils/fileUtils.ts:47-50 | as written, no type containing `document` ever gets the chart icon |
| FileUploader.UploaderAutoTags | src/components/FileUploader.tsx:102-123 | the sequence of conditional pushes builds exactly the uploader's rule-order tag list |
| FileUploader.UploaderTagsAreServiceTagsWithoutSigned | src/components/FileUploader.tsx:102-123 | the uploader's tags are the service's tags without the final `signed` rule |
| FileUploader.UploadedTagsAddOnlySigned | src/services/documentService.ts:52-53 | merging the uploader's tags with the service's adds at most `signed` |
| FileUploader.CheckFile | src/components/FileUploader.tsx:67-76 | a wrong type is reported first; a right type that is too large is reported next; otherwise the file is accepted |
| FileUploader.HandleFiles | src/components/FileUploader.tsx:62-100 | the loop appends the accepted entries (only the first when `multiple` is off) and reports the rejected ones joined by newlines |
| FileUploader.EachFileQueuedOrReported | src/components/FileUploader.tsx:66-89 | each file is queued or produces one message, never both and never neither |
| FileUploader.QueuedEntries | src/components/FileUploader.tsx:82-88 | the queued entries are exactly the accepted files as pending, at progress 0 and with their auto tags |
| FileUploader.ReportedMessages | src/components/FileUploader.tsx:67-76 | the messages are exactly those of the rejected files |
| FileUploader.ErrorReportIffRejected | src/components/FileUploader.tsx:91-93 | the error callback fires iff some file was rejected |
| FileUploader.TypeReportedBeforeSize | src/components/FileUploader.tsx:67-70 | a file of the wrong type gets only the type message, whatever its size |
| FileUploader.SingleModeKeepsFirst | src/components/FileUploader.tsx:95-97 | with `multiple` off, only the first accepted file is appended |
| FileUploader.KeptFirst | src/components/FileUploader.tsx:95-97 | single mode keeps the head of the accepted list |
| FileUploader.EmptyBeforeFirstAccepted | src/components/FileUploader.tsx:66-89 | before the first accepted file nothing is queued |
| FileUploader.ValidUpToPrefix | src/components/FileUploader.tsx:66-89 | queueing only appends |
| FileUploader.RemoveFile | src/components/FileUploader.tsx:125-127 | the queue never grows |
| FileUploader.UpdateFileTags | src/components/FileUploader.tsx:129-133 | only the entry with that id gets the tags; the others are unchanged |
| FileUploader.ClearCompleted | src/components/FileUploader.tsx:202-204 | the queue never grows |
| FileUploader.RemoveFileMembership | src/components/FileUploader.tsx:125-127 | exactly the entries with another id are kept |
| FileUploader.RemoveFileAppend | src/components/FileUploader.tsx:125-127 | removal distributes over concatenation, keeping order |
| FileUploader.ClearCompletedMembership | src/components/FileUploader.tsx:202-204 | exactly the entries that are not completed are kept |
| FileUploader.ClearCompletedIdempotent | src/components/FileUploader.tsx:202-204 | clearing twice is clearing once |
| FileUploader.UpdateTagsKeepsRemoval | src/components/FileUploader.tsx:125-133 | retagging does not change what a removal deletes |
| FileUploader.UpdateTagsTwice | src/components/FileUploader.tsx:129-133 | the second retagging wins |
| FileUploader.MarkById | src/components/FileUploader.tsx:146-150 | only the entry with that id is marked |
| FileUploader.UploadEntry | src/components/FileUploader.tsx:142-191 | a pending entry ends completed at 100 or in error; the others are untouched; the document is reported when uploaded |
| FileUploader.UploadFiles | src/components/FileUploader.tsx:135-200 | the loop processes every entry, and the callback receives the uploaded documents when there are any |
| FileUploader.ProcessedOutcome | src/components/FileUploader.tsx:142-191 | only pending entries change: uploaded ones become completed at 100, failed ones error with the thrown message or "Upload failed"; id, file and tags are kept |
| FileUploader.UploadAgainChangesNothing | src/components/FileUploader.tsx:142 | a second upload right after the first changes nothing and uploads nothing |
| FileUploader.NothingPendingUploadsNothing | src/components/FileUploader.tsx:142 | with nothing pending, nothing is uploaded |
| FileUploader.CompletionIffSomeUploaded | src/components/FileUploader.tsx:197-199 | the completion callback fires iff some pending entry uploaded |
| UploadDocuments.GenerateAutoTags | src/pages/UploadDocuments.tsx:75-92 | the conditional pushes build exactly the keyword tags of the lower-cased name, then the extension |
| UploadDocuments.PushKeywordTags | src/pages/UploadDocuments.tsx:79-86 | the seven keyword tests build exactly the rule-order keyword tags |
| UploadDocuments.KeywordTagsSource | src/pages/UploadDocuments.tsx:79-86 | a keyword tag appears iff a rule whose keyword occurs carries it |
| UploadDocuments.PageTagsFacts | src/pages/UploadDocuments.tsx:75-92 | `nda` and `invoice` bring their pairs; a non-empty extension is the last tag; without one only keyword tags remain |
| UploadDocuments.ExtensionTagMeaning | src/pages/UploadDocuments.tsx:88-89 | the extension is the dot-free suffix after the last dot (the whole name when there is none) and is omitted only when empty |
| UploadDocuments.TrailingDotNoExtension | src/pages/UploadDocuments.tsx:88-89 | a name ending in a dot gets no extension tag |
| UploadDocuments.HrMatchesInsideWords | src/pages/UploadDocuments.tsx:85 | `three.txt` is tagged `hr` and `txt`: keywords match inside words |
| UploadDocuments.HandleFiles | src/pages/UploadDocuments.tsx:55-73 | one entry per file is appended after the existing ones, with the supplied id, the file's name, size and MIME type, status uploading, progress 0 and the chosen folder; its tags are the page's automatic tags of the name when auto-tagging is on and empty otherwise |
| UploadDocuments.RemoveFile | src/pages/UploadDocuments.tsx:116-118 | the list never grows |
| UploadDocuments.RemoveFileMembership | src/pages/UploadDocuments.tsx:116-118 | exactly the entries with another id are kept |
| UploadDocuments.CompletedCountBound | src/pages/UploadDocuments.tsx:136-137 | the completed count never exceeds the total, and equals it iff every entry is completed |
| UploadDocuments.CompletedCountAppend | src/pages/UploadDocuments.tsx:136 | the count adds up over concatenation |
| UploadDocuments.NoneCompletedCountsZero | src/pages/UploadDocuments.tsx:136 | with nothing completed the count is 0 |
| UploadDocuments.HandleFilesKeepsCompletedCount | src/pages/UploadDocuments.tsx:55-73 | adding files leaves the completed count unchanged |
| UploadDocuments.RemoveFreshId | src/pages/UploadDocuments.tsx:116-118 | removing an unknown id changes nothing |
| DocumentViewer.ZoomInStep | src/components/DocumentViewer.tsx:45 | zoom-in adds 25, capped at 200 |
| DocumentViewer.ZoomOutStep | src/components/DocumentViewer.tsx:46 | zoom-out subtracts 25, floored at 50 |
| DocumentViewer.RotateStep | src/components/DocumentViewer.tsx:47 | the rotation stays below 360 |
| DocumentViewer.StepKeepsValid | src/components/DocumentViewer.tsx:45-47 | each handler keeps the zoom in [50, 200] on a multiple of 25 and the rotation on a quarter turn |
| DocumentViewer.RunKeepsValid | src/components/DocumentViewer.tsx:45-47 | any sequence of presses keeps the state valid |
| DocumentViewer.ReachableIsValid | src/components/DocumentViewer.tsx:23-24 | every state reachable from zoom 100 and rotation 0 is valid |
| DocumentViewer.ZoomSaturates | src/components/DocumentViewer.tsx:45-46 | the zoom buttons saturate at 200 and 50 |
| DocumentViewer.ZoomInOutRoundTrip | src/components/DocumentViewer.tsx:45-46 | below the cap, zooming in and out returns to the same state |
| DocumentViewer.FourRotationsIdentity | src/components/DocumentViewer.tsx:47 | four rotations return to the start |
| DocumentViewer.RotationCountsQuarterTurns | src/components/DocumentViewer.tsx:47 | the rotation is 90 times the number of rotate presses, mod 360 |
| DocumentViewer.ZoomIgnoresRotations | src/components/DocumentViewer.tsx:45-47 | rotating never changes the zoom |
| DocumentViewer.PreviewFor | src/components/DocumentViewer.tsx:49-111 | a spinner while loading, then pdf, image, text or download, each exactly when the earlier fragments are absent |
| DocumentViewer.PreviewAgreesWithDocumentType | src/components/DocumentViewer.tsx:58 | the viewer's PDF frame matches the service's `pdf` type, and a type `other` can only be downloaded |
| DocumentViewer.ZoomControlsMatchPreview | src/components/DocumentViewer.tsx:127 | the zoom buttons appear exactly for the previews that use zoom and rotation |
| DocumentViewer.Viewer.constructor | src/components/DocumentViewer.tsx:23-25 | zoom 100, rotation 0, loading |
| DocumentViewer.Viewer.HandleZoomIn | src/components/DocumentViewer.tsx:45 | only the zoom changes, by one zoom-in step; validity is kept |
| DocumentViewer.Viewer.HandleZoomOut | src/components/DocumentViewer.tsx:46 | only the zoom changes, by one zoom-out step; validity is kept |
| DocumentViewer.Viewer.HandleRotate | src/components/DocumentViewer.tsx:47 | only the rotation changes, by a quarter turn; validity is kept |
| DocumentViewer.Viewer.Open | src/components/DocumentViewer.tsx:27-29 | opening sets loading and keeps zoom and rotation |
| DocumentViewer.Viewer.FinishLoading | src/components/DocumentViewer.tsx:31 | the timer clears loading and keeps zoom and rotation |
| ESignature.AddSigner | src/pages/ESignature.tsx:54-63 | one blank pending signer is appended; the others are unchanged |
| ESignature.UpdateSigner | src/pages/ESignature.tsx:65-69 | only the signer with that id has the field set |
| ESignature.RemoveSigner | src/pages/ESignature.tsx:71-73 | the list never grows |
| ESignature.ResetStatuses | src/pages/ESignature.tsx:90 | every signer is copied with status `pending` |
| ESignature.RemoveSignerMembership | src/pages/ESignature.tsx:71-73 | exactly the signers with another id are kept |
| ESignature.RemoveSignerAppend | src/pages/ESignature.tsx:71-73 | removal distributes over concatenation, keeping order |
| ESignature.RemoveMissingSigner | src/pages/ESignature.tsx:71-73 | removing an unknown id changes nothing |
| ESignature.AddThenRemoveSigner | src/pages/ESignature.tsx:54-73 | adding under a fresh id and removing it gives back the list |
| ESignature.UpdateSignerTwice | src/pages/ESignature.tsx:65-69 | the second value of a field wins |
| ESignature.UpdateThenRemoveSigner | src/pages/ESignature.tsx:65-73 | an update does not change what a removal deletes |
| ESignature.SendGuard | src/pages/ESignature.tsx:83 | without a document or without signers, sending changes nothing |
| ESignature.SendPrepends | src/pages/ESignature.tsx:84-101 | a send puts one `sent` request for the document, with its signers reset to pending, in front of the unchanged list, and clears the form |
| ESignature.SendTwiceIsOnce | src/pages/ESignature.tsx:82-102 | a second send right after the first changes nothing |
| ESignature.SendKeepsHistory | src/pages/ESignature.tsx:95 | no earlier request is lost |
| ESignature.ESignaturePage.constructor | src/pages/ESignature.tsx:24-52 | an empty form and the two sample requests |
| ESignature.ESignaturePage.HandleAddSigner | src/pages/ESignature.tsx:54-63 | only the signer list changes, by adding a signer |
| ESignature.ESignaturePage.HandleUpdateSigner | src/pages/ESignature.tsx:65-69 | only the signer list changes, by the update |
| ESignature.ESignaturePage.HandleRemoveSigner | src/pages/ESignature.tsx:71-73 | only the signer list changes, by the removal |
| ESignature.ESignaturePage.HandleFileUpload | src/pages/ESignature.tsx:75-80 | a chosen file becomes the document; no file changes nothing |
| ESignature.ESignaturePage.SetMessage | src/pages/ESignature.tsx:26 | only the message changes |
| ESignature.ESignaturePage.SetDueDate | src/pages/ESignature.tsx:27 | only the due date changes |
| ESignature.ESignaturePage.HandleSendForSignature | src/pages/ESignature.tsx:82-102 | the new page state is the send of the old one |
| AllDocuments.FilterDocs | src/pages/AllDocuments.tsx:15-21 | the list never grows |
| AllDocuments.ParseSortKey | src/pages/AllDocuments.tsx:23-34 | the order is kept exactly for keys other than name, created, updated and size |
| AllDocuments.InsertDesc | src/pages/AllDocuments.tsx:26-31 | insertion adds one document |
| AllDocuments.SortDesc | src/pages/AllDocuments.tsx:26-31 | sorting keeps the length |
| AllDocuments.FilterMembership | src/pages/AllDocuments.tsx:15-21 | a document is listed iff it is in the input and matches search, status and type |
| AllDocuments.FilterIsSubMultiset | src/pages/AllDocuments.tsx:15 | the filtered list is a sub-multiset of the input |
| AllDocuments.EmptyTermMatches | src/pages/AllDocuments.tsx:16 | the empty search term matches every document |
| AllDocuments.NoFilterKeepsAll | src/pages/AllDocuments.tsx:16-19 | an empty term with both filters `all` keeps every document in order |
| AllDocuments.FilterIdempotent | src/pages/AllDocuments.tsx:15-21 | filtering twice is filtering once |
| AllDocuments.SearchIgnoresCase | src/pages/AllDocuments.tsx:16-17 | search is case-insensitive in the term |
| AllDocuments.LowerIdempotent | src/pages/AllDocuments.tsx:16-17 | lower-casing twice is lower-casing once |
| AllDocuments.InsertDescMultiset | src/pages/AllDocuments.tsx:26-31 | insertion adds exactly that document |
| AllDocuments.InsertDescSorted | src/pages/AllDocuments.tsx:26-31 | insertion into a descending list keeps it descending |
| AllDocuments.SortDescSorted | src/pages/AllDocuments.tsx:26-31 | the comparator `b - a` puts larger keys first |
| AllDocuments.SortDescPermutation | src/pages/AllDocuments.tsx:26-31 | sorting is a permutation |
| AllDocuments.InsertSmallestAtEnd | src/pages/AllDocuments.tsx:26-31 | a document no larger than all others goes last |
| AllDocuments.SortedInputUnchanged | src/pages/AllDocuments.tsx:26-31 | an already descending list is left as is (ties in input order) |
| AllDocuments.VisibleBySize | src/pages/AllDocuments.tsx:15-31 | sorted by size, the page lists exactly the matching documents, largest first |
| AllDocuments.UnrecognisedKeyKeepsOrder | src/pages/AllDocuments.tsx:32-33 | an unrecognised sort key keeps the filtered order |
| Text.ToLower | src/pages/AllDocuments.tsx:16 | the result has the same length, no upper-case ASCII letter, and every other character unchanged |
| Text.ToUpper | src/services/templateService.ts:169 | the result has the same length, no lower-case ASCII letter, and every other character unchanged |
| Text.LowerOfUpper | src/pages/AllDocuments.tsx:16 | lower-casing an upper-cased string is lower-casing the original |
| Text.UpperOfLower | src/services/templateService.ts:169 | upper-casing a lower-cased string is upper-casing the original |
| Text.ReplaceAll | src/services/templateService.ts:170-171 | a string shorter than the pattern is returned unchanged, and a leading occurrence is replaced by the replacement |
| Text.Split | src/services/templateService.ts:170-171 | splitting gives at least one piece, and no piece is longer than the string |
| Text.Join | src/components/FileUploader.tsx:91-93 | a non-empty join starts with its first part |
| Text.NatToString | src/components/FileUploader.tsx:73-76 | the rendering is a non-empty string of decimal digits without a leading zero, one digit exactly for numbers below ten |
| Text.JoinSplit | src/services/templateService.ts:170-171 | joining the pieces split at a separator with that separator gives back the text |
| Text.ReplaceAllIsSplitJoin | src/services/templateService.ts:170-171 | a global replace is splitting at the pattern and joining with the replacement |
| Text.SplitPiecesAvoidSeparator | src/services/templateService.ts:170-171 | no piece contains the separator |
| Text.ReplaceAllAbsent | src/services/templateService.ts:170-171 | a replace of an absent pattern changes nothing |
| Text.ReplaceAllByItself | src/services/templateService.ts:170-171 | replacing a pattern by itself changes nothing |
| Text.ReplaceAllWhole | src/services/templateService.ts:170-171 | replacing the whole text gives the replacement |
| Text.AfterLastDotSuffix | src/pages/UploadDocuments.tsx:88 | the extension is a dot-free suffix preceded by a dot, when shorter than the name |
| Text.AfterLastDotNoDot | src/pages/UploadDocuments.tsx:88 | a name without a dot is its own extension |

## Left out

- Backend calls are left out: storage upload and download, database select/insert/update/delete, `auth.getUser` and the user service. Their results are parameters: the accepted credentials, the found row, each upload's outcome.
- The workflow webhooks, the mock cookie login service and the folder service are not part of this model. They are network and storage I/O.
- Upload progress from timers and random numbers is not modelled (src/components/FileUploader.tsx:153-159, src/pages/UploadDocuments.tsx:94-114). Neither is `formatFileSize`, which is floating point.
- The current-year tag of the document service is not modelled (src/services/documentService.ts:273-274), because it reads the clock.
- AllDocuments.VisibleDocuments: sorting by name (`localeCompare`) is not modelled, because it depends on the locale. `SortDocs` requires a key other than `name`. Creation and update dates are integer timestamps.
- TemplateService.UseTemplate: placeholders are replaced literally. RegExp metacharacters in variable names and `$` patterns in replacement values are not modelled.
- `toLowerCase` and `toUpperCase` are modelled on ASCII letters only.
- React machinery is not modelled: hooks, context, effects, re-rendering and the `dragActive` and `uploading` flags. The gate returns the chosen element value instead of rendering it.
- FileUploader.UploadFiles: requires the queued ids to be distinct, as `Date.now()` plus a random suffix makes them in practice. It also does not model the state updates of one upload interleaving with another's.
- FileUploader.ProcessedOutcome: an entry that fails keeps the progress 0 that the `uploading` mark gave it. The timer that would have advanced it is not modelled.
- ESignature.UpdateSigner: only the name, email and role fields are edited. These are the ones the form binds. Dates are kept as strings.
- The local icon function of the upload page (src/pages/UploadDocuments.tsx:128-134) is not modelled. It is a presentation lookup.
- TaskService.MapToTaskData: hours and file sizes are integers. The source's number type also admits fractions.
- RoleBasedNavigation.RoleBasedFeatures: lookups of inherited object keys (such as `constructor`) are not modelled there. They return a function instead of `[]`. The same problem in the catalogue is the first finding below.
- AuthContext.AuthProvider.SignUp: the auth-state event that the backend raises after sign-up is not modelled. Only the dispatches of `signUp` itself are.

## Findings

| source | as written | input that shows it | evidently intended | confidence | as-written member | corrected member |
|---|---|---|---|---|---|---|
| src/types/permissions.ts:87-110 | `ROLES[userRole]` and `routePermissions[route]` index plain objects, so keys inherited from `Object.prototype` count as present | `canAccessRoute('admin', 'constructor')` returns false for an unmapped route, and `hasPermission('toString', 'documents', 'read')` throws | unmapped routes open to everyone; unknown roles denied | not executed; low impact, since real routes start with `/` | Permissions.InheritedKeyCounterexample | Permissions.UnmappedRouteOpen |
| src/utils/fileUtils.ts:47-50 | the `document` test comes before the spreadsheet and presentation tests | `application/vnd.oasis.opendocument.spreadsheet` gets the memo icon; so do the OpenDocument presentation and the Office Open XML types, whose names contain `officedocument` | the chart icon for spreadsheets and presentations | not executed | FileUtils.SpreadsheetIconCounterexample | FileUtils.GetFileIcon |
