/** The pure computations of the three dashboards and the login page: the
    per-role request lists, the admin status filter and its counters, the
    manager list and name lookup, the currency setting, the image-batch filter,
    the "replace the updated record" list update, and the quick-login emails. */
module Views {

  import opened Wrappers
  import opened Types
  import opened Seqs

  /** `user?.id`: the session user's id, or `undefined` when nobody is signed in. */
  function SessionId(user: Option<User>): Option<string>
  {
    if user.Some? then Some(user.value.id) else None
  }

  // ---------------------------------------------------------------- role views

  /** `getRequests().filter(r => r.tenantId === user?.id)`. */
  function TenantView(rs: seq<MaintenanceRequest>, user: Option<User>): (r: seq<MaintenanceRequest>)
    ensures forall i :: 0 <= i < |r| ==> r[i] in rs && user.Some? && r[i].tenantId == user.value.id
    ensures forall i :: 0 <= i < |rs| && user.Some? && rs[i].tenantId == user.value.id ==> rs[i] in r
    ensures user.None? ==> r == []
  {
    Filter(rs, (x: MaintenanceRequest) => user.Some? && x.tenantId == user.value.id)
  }

  /** `getRequests().filter(r => r.assignedTo === user?.id)`. With nobody
      signed in, `undefined === undefined` holds, so the unassigned requests. */
  function ManagerView(rs: seq<MaintenanceRequest>, user: Option<User>): (r: seq<MaintenanceRequest>)
    ensures forall i :: 0 <= i < |r| ==> r[i] in rs && r[i].assignedTo == SessionId(user)
    ensures forall i :: 0 <= i < |rs| && rs[i].assignedTo == SessionId(user) ==> rs[i] in r
  {
    Filter(rs, (x: MaintenanceRequest) => x.assignedTo == SessionId(user))
  }

  /** The role views keep store order: a request appended to the store
      appears at the end of the view of the user it belongs to. */
  lemma {:induction false} ViewsAfterAppend(rs: seq<MaintenanceRequest>, x: MaintenanceRequest, user: Option<User>)
    ensures TenantView(rs + [x], user) ==
      TenantView(rs, user) + (if user.Some? && x.tenantId == user.value.id then [x] else [])
    ensures ManagerView(rs + [x], user) ==
      ManagerView(rs, user) + (if x.assignedTo == SessionId(user) then [x] else [])
  {
    FilterAppend(rs, [x], (y: MaintenanceRequest) => user.Some? && y.tenantId == user.value.id);
    FilterSingleton(x, (y: MaintenanceRequest) => user.Some? && y.tenantId == user.value.id);
    FilterAppend(rs, [x], (y: MaintenanceRequest) => y.assignedTo == SessionId(user));
    FilterSingleton(x, (y: MaintenanceRequest) => y.assignedTo == SessionId(user));
  }

  // ---------------------------------------------------------------- admin filter and stats

  /** `requests.filter(r => selectedFilter === 'all' || r.status === selectedFilter)`. */
  function StatusFilter(rs: seq<MaintenanceRequest>, selected: string): (r: seq<MaintenanceRequest>)
    ensures selected == "all" ==> r == rs
    ensures selected != "all" ==>
      forall i :: 0 <= i < |r| ==> r[i] in rs && StatusName(r[i].status) == selected
    ensures selected != "all" ==>
      forall i :: 0 <= i < |rs| && StatusName(rs[i].status) == selected ==> rs[i] in r
  {
    var p := (x: MaintenanceRequest) => selected == "all" || StatusName(x.status) == selected;
    FilterKeepsAll(rs, p);
    Filter(rs, p)
  }

  /** A filter value that names no status (and is not 'all') shows nothing. */
  lemma UnknownFilterIsEmpty(rs: seq<MaintenanceRequest>, selected: string)
    requires selected != "all" && ParseStatus(selected).None?
    ensures StatusFilter(rs, selected) == []
  {
    assert forall i :: 0 <= i < |rs| ==> StatusName(rs[i].status) != selected;
  }

  /** `requests.filter(r => r.status === s).length`. */
  function CountStatus(rs: seq<MaintenanceRequest>, s: Status): nat
  {
    Count(rs, (x: MaintenanceRequest) => x.status == s)
  }

  /** Counting a status over a non-empty list: the head, then the tail. */
  lemma CountStatusCons(rs: seq<MaintenanceRequest>, s: Status)
    requires rs != []
    ensures CountStatus(rs, s) == (if rs[0].status == s then 1 else 0) + CountStatus(rs[1..], s)
  {
  }

  /** Every request has exactly one of the six statuses, so the six counts
      add up to the number of requests. */
  lemma {:induction false} StatusCountsPartition(rs: seq<MaintenanceRequest>)
    ensures CountStatus(rs, Pending) + CountStatus(rs, Assigned) + CountStatus(rs, InProgress) +
            CountStatus(rs, Completed) + CountStatus(rs, Approved) + CountStatus(rs, Rejected) == |rs|
  {
    if rs != [] {
      StatusCountsPartition(rs[1..]);
      CountStatusCons(rs, Pending);
      CountStatusCons(rs, Assigned);
      CountStatusCons(rs, InProgress);
      CountStatusCons(rs, Completed);
      CountStatusCons(rs, Approved);
      CountStatusCons(rs, Rejected);
    }
  }

  /** The admin dashboard's counters (there is none for rejected requests). */
  datatype AdminStats = AdminStats(total: nat, pendingCount: nat, assignedCount: nat,
                                   inProgressCount: nat, completedCount: nat, approvedCount: nat)

  function Stats(rs: seq<MaintenanceRequest>): AdminStats
  {
    AdminStats(|rs|, CountStatus(rs, Pending), CountStatus(rs, Assigned),
      CountStatus(rs, InProgress), CountStatus(rs, Completed), CountStatus(rs, Approved))
  }

  /** The five shown counters never exceed the total; what they miss is
      exactly the rejected requests. */
  lemma StatsMissOnlyRejected(rs: seq<MaintenanceRequest>)
    ensures var st := Stats(rs);
      st.total - (st.pendingCount + st.assignedCount + st.inProgressCount + st.completedCount + st.approvedCount)
        == CountStatus(rs, Rejected)
    ensures var st := Stats(rs);
      st.pendingCount + st.assignedCount + st.inProgressCount + st.completedCount + st.approvedCount <= st.total
  {
    StatusCountsPartition(rs);
  }

  /** The manager dashboard's four counters over the manager's own list. */
  datatype ManagerStats = ManagerStats(assignedCount: nat, inProgressCount: nat, completedCount: nat,
                                       approvedCount: nat)

  function ManagerCounters(mine: seq<MaintenanceRequest>): (st: ManagerStats)
    ensures st.assignedCount + st.inProgressCount + st.completedCount + st.approvedCount +
            CountStatus(mine, Pending) +
            CountStatus(mine, Rejected) == |mine|
  {
    StatusCountsPartition(mine);
    ManagerStats(CountStatus(mine, Assigned), CountStatus(mine, InProgress),
      CountStatus(mine, Completed), CountStatus(mine, Approved))
  }

  // ---------------------------------------------------------------- managers

  /** `getUsers().filter(u => u.role === 'property_manager')`: the assign choices. */
  function ManagerChoices(users: seq<User>): (r: seq<User>)
    ensures forall i :: 0 <= i < |r| ==> r[i] in users && r[i].role == PropertyManager
    ensures forall i :: 0 <= i < |users| && users[i].role == PropertyManager ==> users[i] in r
  {
    Filter(users, (u: User) => u.role == PropertyManager)
  }

  /** `propertyManagers.find(m => m.id === managerId)?.name || 'Unknown'`. */
  function ManagerName(users: seq<User>, managerId: string): (r: string)
    ensures var ms := ManagerChoices(users);
      forall i :: 0 <= i < |ms| && ms[i].id == managerId && (forall j :: 0 <= j < i ==> ms[j].id != managerId)
        ==> r == (if ms[i].name == "" then "Unknown" else ms[i].name)
    ensures (forall u :: u in users && u.role == PropertyManager ==> u.id != managerId) ==> r == "Unknown"
    ensures r == "Unknown" || exists u :: u in users && u.role == PropertyManager && u.id == managerId && u.name == r
  {
    var ms := ManagerChoices(users);
    match FindFirst(ms, (m: User) => m.id == managerId)
    case None => "Unknown"
    case Some(i) =>
      assert ms[i] in users && ms[i].role == PropertyManager && ms[i].id == managerId;
      if ms[i].name == "" then "Unknown" else ms[i].name
  }

  // ---------------------------------------------------------------- currency

  datatype Currency = Currency(code: string, symbol: string, name: string)

  /** The nine currencies the admin dashboard knows, US dollar first. */
  const Currencies: seq<Currency> := [
    Currency("USD", "$", "US Dollar"),
    Currency("EUR", "€", "Euro"),
    Currency("GBP", "£", "British Pound"),
    Currency("CAD", "C$", "Canadian Dollar"),
    Currency("AUD", "A$", "Australian Dollar"),
    Currency("JPY", "¥", "Japanese Yen"),
    Currency("INR", "₹", "Indian Rupee"),
    Currency("BRL", "R$", "Brazilian Real"),
    Currency("MXN", "Mex$", "Mexican Peso")
  ]

  /** `localStorage.getItem('selectedCurrency') || 'USD'`: an unset or empty setting means USD. */
  function SelectedCode(stored: Option<string>): string
  {
    if stored.None? || stored.value == "" then "USD" else stored.value
  }

  /** The currency shown: the listed entry for the stored code, or the US
      dollar when the code is unset, empty or not listed. */
  function DefaultCurrency(stored: Option<string>): (c: Currency)
    ensures c in Currencies
    ensures (exists k :: 0 <= k < |Currencies| && Currencies[k].code == SelectedCode(stored)) ==>
      c.code == SelectedCode(stored)
    ensures (forall k :: 0 <= k < |Currencies| ==> Currencies[k].code != SelectedCode(stored)) ==>
      c == Currencies[0]
  {
    match FindFirst(Currencies, (x: Currency) => x.code == SelectedCode(stored))
    case None => Currencies[0]
    case Some(i) => Currencies[i]
  }

  // ---------------------------------------------------------------- image batches

  const AcceptedTypes: seq<string> := ["image/jpeg", "image/jpg", "image/png", "image/heic"]

  /** 10 MiB. */
  const MaxImageBytes: nat := 10 * 1024 * 1024

  predicate Accepted(f: ImageFile)
  {
    f.mimeType in AcceptedTypes && f.size <= MaxImageBytes
  }

  /** The selected files after a pick, and whether the "Invalid files" warning shows. */
  datatype Selection = Selection(files: seq<ImageFile>, warned: bool)

  /** `handleImageSelect`: keep the acceptable files of the pick, append them
      to those already selected, and warn when any were dropped. */
  function SelectImages(prev: seq<ImageFile>, picked: seq<ImageFile>): (s: Selection)
    ensures |prev| <= |s.files| && s.files[..|prev|] == prev
    ensures forall i :: |prev| <= i < |s.files| ==> s.files[i] in picked && Accepted(s.files[i])
    ensures forall i :: 0 <= i < |picked| && Accepted(picked[i]) ==> picked[i] in s.files[|prev|..]
    ensures s.warned <==> exists i :: 0 <= i < |picked| && !Accepted(picked[i])
  {
    var valid := Filter(picked, Accepted);
    FilterKeepsAll(picked, Accepted);
    assert (prev + valid)[|prev|..] == valid;
    Selection(prev + valid, |valid| != |picked|)
  }

  /** The kept files keep their pick order: picking in two batches is
      picking once in one batch. */
  lemma SelectTwice(prev: seq<ImageFile>, a: seq<ImageFile>, b: seq<ImageFile>)
    ensures SelectImages(SelectImages(prev, a).files, b).files == SelectImages(prev, a + b).files
    ensures SelectImages(prev, a + b).warned <==> SelectImages(prev, a).warned || SelectImages(prev, b).warned
  {
    FilterAppend(a, b, Accepted);
    var fa, fb := Filter(a, Accepted), Filter(b, Accepted);
    assert prev + fa + fb == prev + (fa + fb);
  }

  /** `removeImage(index)` keeps every other file, in order. */
  lemma RemoveImageKeepsOthers(files: seq<ImageFile>, index: int, k: nat)
    requires 0 <= index < |files| && k < |files| - 1
    ensures |RemoveAt(files, index)| == |files| - 1
    ensures RemoveAt(files, index)[k] == if k < index then files[k] else files[k + 1]
  {
  }

  // ---------------------------------------------------------------- local list updates

  /** `prev.map(r => r.id === id ? updated : r)`. */
  function ReplaceById(list: seq<MaintenanceRequest>, id: string, updated: MaintenanceRequest): (r: seq<MaintenanceRequest>)
    ensures |r| == |list|
    ensures forall k :: 0 <= k < |r| ==> r[k] == if list[k].id == id then updated else list[k]
  {
    if list == [] then []
    else [if list[0].id == id then updated else list[0]] + ReplaceById(list[1..], id, updated)
  }

  /** A list without that id is left as it is, and replacing with a record of
      that id a second time changes nothing more. */
  lemma ReplaceByIdProperties(list: seq<MaintenanceRequest>, id: string, updated: MaintenanceRequest)
    ensures (forall k :: 0 <= k < |list| ==> list[k].id != id) ==> ReplaceById(list, id, updated) == list
    ensures updated.id == id ==>
      ReplaceById(ReplaceById(list, id, updated), id, updated) == ReplaceById(list, id, updated)
  {
  }

  // ---------------------------------------------------------------- login page

  /** `quickLogin`'s role-to-email table. */
  function QuickLoginEmail(role: Role): string
  {
    match role
    case Tenant => "tenant@example.com"
    case Admin => "admin@example.com"
    case PropertyManager => "manager@example.com"
  }

}
