/** The data model of the application: the string-literal unions as enumerations,
    the `User` and `MaintenanceRequest` records, the draft `addRequest` takes
    (a request without `id` and `createdAt`), and the `Partial<MaintenanceRequest>`
    that `updateRequest` merges. Stored images and selected files are here too. */
module Types {

  import opened Wrappers

  // ---------------------------------------------------------------- roles

  datatype Role = Tenant | Admin | PropertyManager

  /** The string stored for a role. */
  function RoleName(r: Role): string
  {
    match r
    case Tenant => "tenant"
    case Admin => "admin"
    case PropertyManager => "property_manager"
  }

  /** Reading a stored role back: a string is a role exactly when it is one
      of the three names, and then it names that role and no other. */
  function ParseRole(s: string): (r: Option<Role>)
    ensures r.Some? ==> RoleName(r.value) == s
    ensures r.None? ==> forall role: Role :: RoleName(role) != s
  {
    if s == "tenant" then Some(Tenant)
    else if s == "admin" then Some(Admin)
    else if s == "property_manager" then Some(PropertyManager)
    else None
  }

  lemma RoleRoundTrip(r: Role)
    ensures ParseRole(RoleName(r)) == Some(r)
  {
  }

  // ---------------------------------------------------------------- priorities

  datatype Priority = Low | Medium | High | Urgent

  function PriorityName(p: Priority): string
  {
    match p
    case Low => "low"
    case Medium => "medium"
    case High => "high"
    case Urgent => "urgent"
  }

  function ParsePriority(s: string): (r: Option<Priority>)
    ensures r.Some? ==> PriorityName(r.value) == s
    ensures r.None? ==> forall p: Priority :: PriorityName(p) != s
  {
    if s == "low" then Some(Low)
    else if s == "medium" then Some(Medium)
    else if s == "high" then Some(High)
    else if s == "urgent" then Some(Urgent)
    else None
  }

  lemma PriorityRoundTrip(p: Priority)
    ensures ParsePriority(PriorityName(p)) == Some(p)
  {
  }

  // ---------------------------------------------------------------- statuses

  datatype Status = Pending | Assigned | InProgress | Completed | Approved | Rejected

  function StatusName(s: Status): string
  {
    match s
    case Pending => "pending"
    case Assigned => "assigned"
    case InProgress => "in_progress"
    case Completed => "completed"
    case Approved => "approved"
    case Rejected => "rejected"
  }

  function ParseStatus(s: string): (r: Option<Status>)
    ensures r.Some? ==> StatusName(r.value) == s
    ensures r.None? ==> forall st: Status :: StatusName(st) != s
  {
    if s == "pending" then Some(Pending)
    else if s == "assigned" then Some(Assigned)
    else if s == "in_progress" then Some(InProgress)
    else if s == "completed" then Some(Completed)
    else if s == "approved" then Some(Approved)
    else if s == "rejected" then Some(Rejected)
    else None
  }

  lemma StatusRoundTrip(s: Status)
    ensures ParseStatus(StatusName(s)) == Some(s)
  {
  }

  /** Distinct statuses are stored as distinct strings, and none of them is
      the admin filter's synthetic value "all". */
  lemma StatusNamesDistinct(s: Status, t: Status)
    ensures StatusName(s) == StatusName(t) <==> s == t
    ensures StatusName(s) != "all"
  {
  }

  // ---------------------------------------------------------------- records

  datatype User = User(id: string, email: string, name: string, role: Role, createdAt: string)

  datatype MaintenanceRequest = MaintenanceRequest(
    id: string,
    tenantId: string,
    tenantName: string,
    title: string,
    description: string,
    category: string,
    priority: Priority,
    status: Status,
    images: seq<string>,              // required: ids into the image store
    createdAt: string,
    assignedTo: Option<string>,       // the eight optional lifecycle fields
    assignedBy: Option<string>,
    assignedAt: Option<string>,
    completedAt: Option<string>,
    completionReport: Option<string>,
    completionImages: Option<seq<string>>,
    reviewedAt: Option<string>,
    rejectionReason: Option<string>)

  /** `Omit<MaintenanceRequest, 'id' | 'createdAt'>`, the argument of `addRequest`. */
  datatype Draft = Draft(
    tenantId: string,
    tenantName: string,
    title: string,
    description: string,
    category: string,
    priority: Priority,
    status: Status,
    images: seq<string>,
    assignedTo: Option<string>,
    assignedBy: Option<string>,
    assignedAt: Option<string>,
    completedAt: Option<string>,
    completionReport: Option<string>,
    completionImages: Option<seq<string>>,
    reviewedAt: Option<string>,
    rejectionReason: Option<string>)

  /** `{ ...draft, id, createdAt }`. */
  function WithIdentity(d: Draft, id: string, createdAt: string): MaintenanceRequest
  {
    MaintenanceRequest(id, d.tenantId, d.tenantName, d.title, d.description, d.category,
      d.priority, d.status, d.images, createdAt, d.assignedTo, d.assignedBy, d.assignedAt,
      d.completedAt, d.completionReport, d.completionImages, d.reviewedAt, d.rejectionReason)
  }

  /** The draft part of a stored request: everything but `id` and `createdAt`. */
  function DraftOf(r: MaintenanceRequest): Draft
  {
    Draft(r.tenantId, r.tenantName, r.title, r.description, r.category, r.priority, r.status,
      r.images, r.assignedTo, r.assignedBy, r.assignedAt, r.completedAt, r.completionReport,
      r.completionImages, r.reviewedAt, r.rejectionReason)
  }

  /** Creating a record keeps every draft field, and a record is its draft
      part plus its identity: the two functions are inverse. */
  lemma WithIdentityRoundTrip(d: Draft, id: string, createdAt: string, r: MaintenanceRequest)
    ensures var made := WithIdentity(d, id, createdAt);
      DraftOf(made) == d && made.id == id && made.createdAt == createdAt
    ensures WithIdentity(DraftOf(r), r.id, r.createdAt) == r
  {
  }

  /** A record that has reached no lifecycle step: all eight optional fields absent. */
  predicate NoLifecycleFields(r: MaintenanceRequest)
  {
    r.assignedTo.None? && r.assignedBy.None? && r.assignedAt.None? && r.completedAt.None? &&
    r.completionReport.None? && r.completionImages.None? && r.reviewedAt.None? &&
    r.rejectionReason.None?
  }

  // ---------------------------------------------------------------- partial updates

  /** `Partial<MaintenanceRequest>`: `Some(v)` is a key present in the update
      object, `None` a key left out. */
  datatype Patch = Patch(
    id: Option<string>,
    tenantId: Option<string>,
    tenantName: Option<string>,
    title: Option<string>,
    description: Option<string>,
    category: Option<string>,
    priority: Option<Priority>,
    status: Option<Status>,
    images: Option<seq<string>>,
    createdAt: Option<string>,
    assignedTo: Option<string>,
    assignedBy: Option<string>,
    assignedAt: Option<string>,
    completedAt: Option<string>,
    completionReport: Option<string>,
    completionImages: Option<seq<string>>,
    reviewedAt: Option<string>,
    rejectionReason: Option<string>)

  /** `{}`: the update object with no keys. */
  const NoChange := Patch(None, None, None, None, None, None, None, None, None,
                          None, None, None, None, None, None, None, None, None)

  /** The value of a key after the spread: the update's when present. */
  function Take<T>(update: Option<T>, prior: T): T
  {
    if update.Some? then update.value else prior
  }

  /** The same for an optional property: a present key overwrites. */
  function TakeOpt<T>(update: Option<T>, prior: Option<T>): Option<T>
  {
    if update.Some? then update else prior
  }

  /** `{ ...r, ...p }`: the shallow merge `updateRequest` performs. */
  function Merge(r: MaintenanceRequest, p: Patch): MaintenanceRequest
  {
    MaintenanceRequest(
      Take(p.id, r.id), Take(p.tenantId, r.tenantId), Take(p.tenantName, r.tenantName),
      Take(p.title, r.title), Take(p.description, r.description), Take(p.category, r.category),
      Take(p.priority, r.priority), Take(p.status, r.status), Take(p.images, r.images),
      Take(p.createdAt, r.createdAt),
      TakeOpt(p.assignedTo, r.assignedTo), TakeOpt(p.assignedBy, r.assignedBy),
      TakeOpt(p.assignedAt, r.assignedAt), TakeOpt(p.completedAt, r.completedAt),
      TakeOpt(p.completionReport, r.completionReport),
      TakeOpt(p.completionImages, r.completionImages),
      TakeOpt(p.reviewedAt, r.reviewedAt), TakeOpt(p.rejectionReason, r.rejectionReason))
  }

  /** `{ ...p, ...q }` on two update objects: a key present in `q` wins. */
  function Then(p: Patch, q: Patch): Patch
  {
    Patch(
      TakeOpt(q.id, p.id), TakeOpt(q.tenantId, p.tenantId), TakeOpt(q.tenantName, p.tenantName),
      TakeOpt(q.title, p.title), TakeOpt(q.description, p.description),
      TakeOpt(q.category, p.category), TakeOpt(q.priority, p.priority),
      TakeOpt(q.status, p.status), TakeOpt(q.images, p.images), TakeOpt(q.createdAt, p.createdAt),
      TakeOpt(q.assignedTo, p.assignedTo), TakeOpt(q.assignedBy, p.assignedBy),
      TakeOpt(q.assignedAt, p.assignedAt), TakeOpt(q.completedAt, p.completedAt),
      TakeOpt(q.completionReport, p.completionReport),
      TakeOpt(q.completionImages, p.completionImages),
      TakeOpt(q.reviewedAt, p.reviewedAt), TakeOpt(q.rejectionReason, p.rejectionReason))
  }

  /** Every key the update object carries already has that value in `r`. */
  predicate Agrees(r: MaintenanceRequest, p: Patch)
  {
    (p.id.Some? ==> p.id.value == r.id) &&
    (p.tenantId.Some? ==> p.tenantId.value == r.tenantId) &&
    (p.tenantName.Some? ==> p.tenantName.value == r.tenantName) &&
    (p.title.Some? ==> p.title.value == r.title) &&
    (p.description.Some? ==> p.description.value == r.description) &&
    (p.category.Some? ==> p.category.value == r.category) &&
    (p.priority.Some? ==> p.priority.value == r.priority) &&
    (p.status.Some? ==> p.status.value == r.status) &&
    (p.images.Some? ==> p.images.value == r.images) &&
    (p.createdAt.Some? ==> p.createdAt.value == r.createdAt) &&
    (p.assignedTo.Some? ==> p.assignedTo == r.assignedTo) &&
    (p.assignedBy.Some? ==> p.assignedBy == r.assignedBy) &&
    (p.assignedAt.Some? ==> p.assignedAt == r.assignedAt) &&
    (p.completedAt.Some? ==> p.completedAt == r.completedAt) &&
    (p.completionReport.Some? ==> p.completionReport == r.completionReport) &&
    (p.completionImages.Some? ==> p.completionImages == r.completionImages) &&
    (p.reviewedAt.Some? ==> p.reviewedAt == r.reviewedAt) &&
    (p.rejectionReason.Some? ==> p.rejectionReason == r.rejectionReason)
  }

  /** An empty update changes nothing. */
  lemma MergeNoChange(r: MaintenanceRequest)
    ensures Merge(r, NoChange) == r
  {
  }

  /** Merging the same update twice is merging it once. */
  lemma MergeIdempotent(r: MaintenanceRequest, p: Patch)
    ensures Merge(Merge(r, p), p) == Merge(r, p)
  {
  }

  /** Two successive merges are one merge of the combined update. */
  lemma MergeThen(r: MaintenanceRequest, p: Patch, q: Patch)
    ensures Merge(Merge(r, p), q) == Merge(r, Then(p, q))
  {
  }

  /** A merge leaves the record as it was exactly when the update agrees with
      it on every key it carries. */
  lemma MergeFixedIff(r: MaintenanceRequest, p: Patch)
    ensures Merge(r, p) == r <==> Agrees(r, p)
  {
    if Merge(r, p) == r {
      var m := Merge(r, p);
      assert m.id == r.id && m.status == r.status && m.assignedTo == r.assignedTo;
    }
  }

  // ---------------------------------------------------------------- images

  /** A browser `File` the user selected, with the data URL `FileReader`
      produces for it. */
  datatype ImageFile = ImageFile(name: string, mimeType: string, size: nat, dataUrl: string)

  /** The value stored under an image key: `{data, name, type, size, uploadedAt}`. */
  datatype ImageRecord = ImageRecord(data: string, name: string, mimeType: string, size: nat,
                                     uploadedAt: string)

}
