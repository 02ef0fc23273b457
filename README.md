# Property maintenance requests: a Dafny model

The application lets tenants file maintenance requests, admins assign them to
property managers, managers carry out and report on the work, and tenants
approve or reject the result. Everything is kept in the browser's local
storage through a small data layer (`src/lib/localStorage.ts`). The request
lifecycle is not enforced by that layer, whose update is a bare shallow
merge. It lives in the dashboard handlers: which button each dashboard
renders for which status, what each handler validates, and which fields each
one writes.

This project models that core:

- `wrappers.dfy`: `Option`.
- `seqs.dfy`: the array helpers the code relies on. These are `filter`,
  `find`/`findIndex` (as "first index"), and removal at an index.
- `text.dfy`: JavaScript's `String.prototype.trim` white space, `trim()` and
  the `split('@')[0]` local part of an email.
- `types.dfy`: the record types, the string enumerations with their wire
  names, the draft passed to `addRequest`, and `Partial<MaintenanceRequest>`
  with the shallow merge `{...r, ...updates}`.
- `lifecycle.dfy`: the status machine, the record invariant, the five
  dashboard actions (their guard status, their input check, the update object
  they write) and the controls each role sees.
- `views.dfy`: the pure parts of the dashboards. These are:
  - the per-role request lists;
  - the admin status filter and counters;
  - the manager choices and name lookup;
  - the currency fallback;
  - the image-batch filter and removal;
  - the `prev.map(r => r.id === id ? updated : r)` replacement;
  - the quick-login emails.
- `storage.dfy`: the storage as a class `Store`.
  - Its fields are the users, requests and images keys and the current user,
    plus whether each collection key is present.
  - Its methods are the data-layer operations, the startup effect, and the
    login and lifecycle handlers.
- `scenarios.dfy`: a new request's whole life on a freshly seeded browser,
  derived from the handlers' contracts alone, and a batch selection that
  drops an oversized photo.

Ids, timestamps and the random part of image keys are parameters of the
methods. A new request id, user id or image key must be fresh. A call to
`Date.now()` or `Math.random()` is a caller-chosen value.

Each handler's precondition is its UI guard: the stored request with that id,
if any, is in the one status in which the handler's control is rendered
(`GuardedAt`). The dashboards render their controls from a copy of the list
loaded when they mount. The guard reads the stored record, so it assumes that
copy is current (see "## Left out"). An unknown id is still allowed, and then
`updateRequest` returns null.

An image save whose file the reader cannot read (`reader.onerror`, which
rejects) is an input flag, `Upload.succeeds`.

Under these guards the model proves the following:

- Every lifecycle handler (assign, start, complete, approve, reject) performs
  at most one of pending→assigned, assigned→in_progress, in_progress→completed,
  completed→approved and completed→rejected, on at most one record
  (`Lifecycle.OneStep`), and nothing leaves approved or rejected. Submitting a
  request performs no transition: it only appends one pending record and keeps
  every earlier record as it was. A refused input, a failed photo read and an
  unknown id write no request and leave the requests key as it was.
- Every handler preserves the record invariant:
  - a non-pending request has `assignedTo`;
  - a completed, approved or rejected request has a report that is not blank;
  - a rejected request has a reason that is not blank.

Three behaviours of the code worth noting:

- A rejected request is terminal. No dashboard offers a control for it. The
  manager's buttons exist only for assigned and in-progress requests
  (`src/components/PropertyManagerDashboard.tsx:236-249`), so there is no path
  back to in-progress.
- The new-request check does not trim. A title, description or category
  made only of white space is accepted
  (`src/components/TenantDashboard.tsx:56`). Only the completion report and
  the rejection reason are checked after `trim()`.
- `updateRequest` itself accepts any status change. The state machine holds
  only because the handlers are reached through their controls.
  `Storage.Store.UpdateRequest` therefore has no status precondition, and the
  guarded `Storage.Store.Perform` carries the machine.

## Model

| member | source | states |
|---|---|---|
| Types.ParseRole | src/types/index.ts:1 | a role's wire name is one of exactly three strings; parsing succeeds exactly on those and yields the role with that name |
| Types.RoleRoundTrip | src/types/index.ts:1 | parsing a role's name gives back the role |
| Types.ParsePriority | src/types/index.ts:18 | priority names are exactly low, medium, high, urgent; parsing fails on every other string |
| Types.PriorityRoundTrip | src/types/index.ts:18 | parsing a priority's name gives back the priority |
| Types.ParseStatus | src/types/index.ts:19 | status names are exactly the six values; parsing fails on every other string |
| Types.StatusRoundTrip | src/types/index.ts:19 | parsing a status's name gives back the status |
| Types.StatusNamesDistinct | src/types/index.ts:19 | two statuses have the same name iff they are equal, and none is named "all" |
| Types.WithIdentityRoundTrip | src/lib/localStorage.ts:131-137 | a record is exactly its draft plus id and createdAt: adding an identity to a draft and taking the draft back are inverse |
| Types.MergeNoChange | src/lib/localStorage.ts:147 | merging an empty update leaves the record as it was |
| Types.MergeIdempotent | src/lib/localStorage.ts:147 | merging the same update twice equals merging it once |
| Types.MergeThen | src/lib/localStorage.ts:147 | two successive merges equal one merge of the combined update, later keys winning |
| Types.MergeFixedIff | src/lib/localStorage.ts:147 | a merge leaves the record unchanged iff every key in the update already holds that value |
| Seqs.Filter | src/components/AdminDashboard.tsx:94-97 | the kept elements satisfy the predicate and come from the input; every input element satisfying it is kept; nothing is kept when none satisfies it |
| Seqs.FilterAppend | src/components/AdminDashboard.tsx:94-97 | filtering a concatenation is concatenating the filtered parts, so order is kept |
| Seqs.FilterKeepsAll | src/components/AdminDashboard.tsx:94-97 | the filter keeps the whole input iff every element satisfies the predicate |
| Seqs.FindFirst | src/lib/localStorage.ts:145 | `findIndex`: the index of the first element satisfying the predicate, and none iff no element does |
| Seqs.FindFirstAppend | src/lib/localStorage.ts:145 | the first match in a concatenation is the first match of the first part, or the shifted first match of the second |
| Seqs.RemoveAt | src/components/TenantDashboard.tsx:51-53 | removing index i drops exactly the i-th element and keeps the others in order; an index out of range removes nothing |
| Text.TrimStart | src/components/PropertyManagerDashboard.tsx:61 | the result is a suffix, everything dropped is white space, and the result does not start with white space |
| Text.TrimEnd | src/components/PropertyManagerDashboard.tsx:61 | the result is a prefix, everything dropped is white space, and the result does not end with white space |
| Text.TrimEmptyIffBlank | src/components/TenantReviewModal.tsx:51 | `!s.trim()` holds iff every character of s is white space |
| Text.LocalPart | src/lib/localStorage.ts:103 | `split('@')[0]`: a prefix of the email with no '@', followed in the email by '@' unless it is the whole email |
| Text.LocalPartUnique | src/lib/localStorage.ts:103 | any '@'-free prefix followed by '@' or ending the email is the local part |
| Lifecycle.TransitionAdvances | src/components/PropertyManagerDashboard.tsx:236-249 | every legal transition raises the stage by exactly one, and approved and rejected are exactly the statuses with no transition out |
| Lifecycle.OfferedMatchesGuard | src/components/AdminDashboard.tsx:346 | a control is rendered iff the viewer has its role and the request is in its guard status (assign on pending, start on assigned, complete on in_progress, review on completed); a terminal request offers no control; every control leads to a legal transition |
| Lifecycle.ActionFollowsMachine | src/components/PropertyManagerDashboard.tsx:24-27 | an admissible action in its guard status writes its target status, takes a legal transition, keeps the record invariant, the id and createdAt, and changes no field outside the lifecycle fields |
| Lifecycle.TransitionsAreActions | src/components/TenantReviewModal.tsx:23-66 | a status pair is a legal transition iff some admissible action has it as guard and target status |
| Lifecycle.RunAdvances | src/components/AdminDashboard.tsx:43-49 | a sequence of guarded actions raises the stage by its length, so at most four actions apply to one request, and it keeps the id and the record invariant |
| Lifecycle.StepAt | src/lib/localStorage.ts:143-150 | writing an admissible action at its guard status into one record changes only that record, by a legal transition, and keeps every other record and the invariant of the whole list |
| Lifecycle.OneStepKeepsTerminal | src/components/PropertyManagerDashboard.tsx:236-249 | under such a step an approved or rejected record is left unchanged |
| Views.TenantView | src/components/TenantDashboard.tsx:19-21 | the tenant's list holds exactly the stored requests whose tenantId is the user's id; empty with no user |
| Views.ManagerView | src/components/PropertyManagerDashboard.tsx:16-18 | the manager's list holds exactly the requests whose assignedTo equals the user's id; with no user, those with no assignee |
| Views.ViewsAfterAppend | src/lib/localStorage.ts:138 | appending a request extends each role's list by that request when it belongs there, and leaves it alone otherwise |
| Views.StatusFilter | src/components/AdminDashboard.tsx:94-97 | "all" keeps every request; any other value keeps exactly the requests whose status has that name, in order |
| Views.UnknownFilterIsEmpty | src/components/AdminDashboard.tsx:94-97 | a filter value that names no status and is not "all" keeps nothing |
| Views.CountStatusCons | src/components/AdminDashboard.tsx:106-110 | a status count over a non-empty list is the head's contribution plus the tail's count |
| Views.StatusCountsPartition | src/components/AdminDashboard.tsx:104-111 | the six per-status counts sum to the number of requests |
| Views.StatsMissOnlyRejected | src/components/AdminDashboard.tsx:104-111 | total is the number of requests; the five shown counts sum to at most total, and the difference is the number of rejected requests |
| Views.ManagerCounters | src/components/PropertyManagerDashboard.tsx:140-145 | the four manager counters cover the manager's list except its pending and rejected requests |
| Views.ManagerChoices | src/components/AdminDashboard.tsx:22 | the assignable users are exactly the users with role property_manager, in order |
| Views.ManagerName | src/components/AdminDashboard.tsx:99-102 | the first property manager with that id gives its name, or "Unknown" when the name is empty; "Unknown" when no property manager has that id |
| Views.DefaultCurrency | src/components/AdminDashboard.tsx:25-39 | the result is one of the nine listed currencies: the one with the stored code when there is one, USD otherwise (unset, empty or unlisted code) |
| Views.SelectImages | src/components/TenantDashboard.tsx:33-49 | the chosen files keep the earlier selection as a prefix; the added files are accepted picked files, and every accepted picked file is added; the warning is raised iff some picked file is dropped |
| Views.SelectTwice | src/components/PropertyManagerDashboard.tsx:38-54 | two selections in a row equal one selection of both batches, so input order is kept, and warn iff either did |
| Views.RemoveImageKeepsOthers | src/components/PropertyManagerDashboard.tsx:56-58 | removing index i keeps every other file, shifting the later ones down by one |
| Views.ReplaceById | src/components/AdminDashboard.tsx:52 | same length; every entry with the id becomes the updated record, every other entry is unchanged |
| Views.ReplaceByIdProperties | src/components/TenantDashboard.tsx:378 | replacing with an id absent from the list changes nothing, and replacing twice with a record of that id is replacing once |
| Storage.SeedIsConsistent | src/lib/localStorage.ts:4-57 | the seeded requests satisfy the record invariant, and the seeded ids are distinct |
| Storage.QuickLoginFindsSeed | src/components/LoginPage.tsx:26-31 | each quick-login email finds the seeded user with that role |
| Storage.KeysOf | src/lib/localStorage.ts:160 | the keys of a batch are the `img_` keys of its uploads, in order |
| Storage.StoreImagesContents | src/lib/localStorage.ts:155-178 | saving a batch under fresh keys adds exactly those keys, each holding its own file's data, name, type, size and time, and changes no earlier entry |
| Storage.LeadingSuccesses | src/components/TenantDashboard.tsx:68-72 | the number of saves done before the first failure: all before it succeed, the one at it fails |
| Storage.Store.constructor | src/lib/localStorage.ts:81-84 | empty browser storage: no keys, so the current-user reader (`GetCurrentUser`, the `getCurrentUser` model) yields null |
| Storage.Store.InitializeLocalStorage | src/lib/localStorage.ts:68-78 | each absent key is seeded, every present one is left as it was; when all keys are present nothing changes |
| Storage.Store.SetCurrentUser | src/lib/localStorage.ts:86-92 | the session becomes the user given, or empty for null |
| Storage.Store.LogoutUser | src/lib/localStorage.ts:118-120 | the session becomes empty |
| Storage.Store.LoginUser | src/lib/localStorage.ts:94-116 | a known email returns the first such user, whatever the role, and leaves the users unchanged; an unseen email with a role appends exactly one user with that email, role and local-part name; with no role it returns null and changes nothing; a returned user becomes current |
| Storage.Store.AddRequest | src/lib/localStorage.ts:131-141 | the returned record is the draft plus the new id and time, appended as the last element, and the id now finds it |
| Storage.Store.UpdateRequest | src/lib/localStorage.ts:143-152 | a found id: the first record with it is replaced in place by the shallow merge, which is returned; an unknown id returns null and writes nothing |
| Storage.Store.SaveImage | src/lib/localStorage.ts:155-183 | success adds one entry under the new `img_` key and changes nothing else; read back through `getImageData`, the new key yields the data URL, or null when that is empty; every other key reads as before; a failed read stores nothing and the new key reads null |
| Storage.Store.UploadAll | src/components/PropertyManagerDashboard.tsx:73-77 | files are saved in order until the first failure; what was saved before it stays; the keys are returned, in order, only if every save succeeded |
| Storage.Store.Startup | src/contexts/AuthContext.tsx:25-44 | seeding first; a stored session is kept; with none, the first admin becomes and is persisted as the current user; with no admin the session stays empty |
| Storage.Store.HandleLogin | src/components/LoginPage.tsx:17-24 | an empty email does nothing; otherwise the login, with the selected role, always yields a session user, creating one for an unseen email |
| Storage.Store.QuickLogin | src/components/LoginPage.tsx:26-37 | never creates a user; the session changes only when the demo email is found |
| Storage.Store.Perform | src/lib/localStorage.ts:143-152 | a guarded admissible action writes its update object into the one record with the id, by a legal transition, keeping the invariant; an unknown id writes nothing |
| Storage.Store.AssignRequest | src/components/AdminDashboard.tsx:43-58 | writes exactly status assigned, the manager, the admin and the time; replaces only that record in the admin's list; an unknown id leaves the list alone |
| Storage.Store.StartWork | src/components/PropertyManagerDashboard.tsx:24-36 | writes only status in_progress on an assigned request |
| Storage.Store.CompleteWork | src/components/PropertyManagerDashboard.tsx:60-106 | a blank report changes nothing; a photo that cannot be read ends in the error outcome and leaves the request, the list and the form alone; otherwise writes status completed, the time, the report as typed and the photo keys in order, and closes the form; the images key is written exactly when some photo was saved; a found record leaves the requests key present |
| Storage.Store.UploadAndComplete | src/components/PropertyManagerDashboard.tsx:70-90 | with a non-blank report: the error outcome exactly when some photo read fails, and then no request write; otherwise the completion write on the record with the id, or nothing for an unknown id; the images key is written exactly when some photo was saved |
| Storage.Store.WriteCompletion | src/components/PropertyManagerDashboard.tsx:79-92 | on the record with the id: status completed, the time, the report as typed and the given photo keys, nothing else, the requests key present, that record replaced in the list and the form closed; an unknown id changes nothing |
| Storage.Store.ApproveWork | src/components/TenantReviewModal.tsx:23-48 | writes only status approved and the review time; closes the modal only when the update returned a record |
| Storage.Store.RejectWork | src/components/TenantReviewModal.tsx:50-85 | a blank reason changes nothing; otherwise writes status rejected, the reason as typed and the time; closes the modal only when the update returned a record |
| Storage.Store.SubmitRequest | src/components/TenantDashboard.tsx:55-107 | an empty title, description or category changes nothing; a photo that cannot be read ends in the error outcome, creates no request, leaves the list and form alone and keeps the photos saved before it; otherwise appends a pending request of the tenant with no lifecycle field and the photo keys in order, puts it first in the local list and clears the form; with the fields filled, the images key is written exactly when some photo was saved |
| Scenarios.FreshStartup | src/contexts/AuthContext.tsx:25-44 | a fresh browser is seeded and the seeded admin is signed in; the seeded manager is an assign choice |
| Scenarios.FileLeakRequest | src/components/TenantDashboard.tsx:55-92 | a tenant's new request without photos is pending, has no images and no lifecycle field, belongs to the tenant and is stored last |
| Scenarios.AssignLeakRequest | src/components/AdminDashboard.tsx:43-58 | assigning sets exactly the status, the manager, the admin and the time of that record |
| Scenarios.StartLeakRequest | src/components/PropertyManagerDashboard.tsx:24-36 | starting work changes only the status, to in_progress |
| Scenarios.RefuseBlankReport | src/components/PropertyManagerDashboard.tsx:60-68 | a report of spaces only is refused and writes neither the request nor an image |
| Scenarios.CompleteWithPhoto | src/components/PropertyManagerDashboard.tsx:73-90 | completing with one photo sets exactly the status, the time, the report and that photo's key |
| Scenarios.RejectWithReason | src/components/TenantReviewModal.tsx:50-66 | rejecting sets exactly the status, the reason and the review time, keeping the report |
| Scenarios.LeakStory | src/components/TenantDashboard.tsx:55-107 | on a freshly seeded browser, filing, assigning, starting, a refused blank report, completing with a photo and rejecting leave a terminal record carrying the tenant, manager, admin, report, photo key and reason, and satisfying the invariant |
| Scenarios.OversizeFileDropped | src/components/TenantDashboard.tsx:33-49 | of three photos, one over 10 MiB, the two other, different files are kept in their order and the user is warned |

## Left out

- `src/lib/supabase.ts`: a client for an external service that the modelled code never calls.
- `src/pages/Settings.tsx`: country and currency picker UI. The stored code it writes, which may be empty, is covered by `Views.DefaultCurrency`.
- `src/components/Header.tsx` and `src/pages/Index.tsx`: presentation and role dispatch only. Logout is modelled by `Storage.Store.LogoutUser`.
- Property cards in the admin dashboard: they use floating point, number formatting and a data module that is not part of this model.
- Rendering, toasts, icons, colour switches and the `submitting` flags. The toasts are reduced to `Storage.Outcome`.
- JSON serialisation of the storage keys: the storage is held as typed fields.
- The FileReader data-URL encoding: a file's `dataUrl` is an input.
- `Date.now()`, `Math.random()` and `new Date()`: passed in as parameters, with freshness preconditions. The source's `Date.now()` ids can collide under rapid calls, and the model assumes they do not.
- Asynchrony: each handler runs as one sequential call. Nothing interleaves with it.
- Storage writes of users, requests and the session cannot fail in the model. Only image saves can, through `Upload.succeeds`, and only by the file reader failing.
- Storage.Store.SaveImage: a full storage quota is not modelled. The images write runs inside `reader.onload` (`src/lib/localStorage.ts:171`), and only `onerror` rejects. So a failing `setItem` leaves the promise unsettled, and the awaiting handler stays suspended with no toast and its uploading flag set.
- Storage.GuardedAt: the guard reads the stored record, but the dashboards render controls from their own copy of the list, loaded at mount. The model assumes that copy is current, which holds within one tab, because switching role remounts the dashboard (`src/pages/Index.tsx:23-37`). With a second tab a stale card can offer, for example, assignment of a request already approved in the store. "Nothing leaves approved or rejected" holds only under this assumption.
- Storage.Store.UpdateRequest: an update object can only set keys to values. An explicit `undefined` in `updates`, which would erase a field, is not expressible. No handler passes one.
- Storage.Store.InitializeLocalStorage: a stored users or requests key is always a well-formed list. A stored value that is not such a list is not modelled.
- The local copies of the request lists kept by the dashboards are parameters of the handlers. The model does not tie them to the stored list.
- The unused `Assignment` and `Review` interfaces (`src/types/index.ts:32-48`).
- Views.ManagerCounters: only its sum is stated, not that each counter is its status's count, which is the body itself.
