/** The browser storage the application persists to, as one object: the users,
    requests and images keys and the current-user key. The operations of the
    data layer are its methods, and so are the startup effect and the dashboard
    handlers that drive the request lifecycle through it. Ids, timestamps and
    the random part of image keys are chosen by the caller. */
module Storage {

  import opened Wrappers
  import opened Types
  import opened Seqs
  import opened Text
  import opened Lifecycle
  import opened Views

  // ---------------------------------------------------------------- seed data

  const SeedTime := "2024-01-01T00:00:00Z"

  /** The demonstration users written when the users key is absent. */
  const MockUsers: seq<User> := [
    User("1", "tenant@example.com", "John Tenant", Tenant, SeedTime),
    User("2", "admin@example.com", "Sarah Admin", Admin, SeedTime),
    User("3", "manager@example.com", "Mike Manager", PropertyManager, SeedTime)
  ]

  /** The demonstration requests written when the requests key is absent. */
  const MockRequests: seq<MaintenanceRequest> := [
    MaintenanceRequest("1", "1", "John Tenant", "AC Unit Leaking Water",
      "The AC unit in the living room is leaking water onto the floor. It started yesterday and is getting worse.",
      "HVAC", High, Pending, [], "2024-12-07T10:00:00Z",
      None, None, None, None, None, None, None, None),
    MaintenanceRequest("2", "1", "John Tenant", "Broken Kitchen Faucet",
      "Kitchen faucet handle is loose and water pressure is very low.",
      "Plumbing", Medium, Assigned, [], "2024-12-06T14:30:00Z",
      Some("3"), Some("2"), Some("2024-12-06T15:00:00Z"), None, None, None, None, None)
  ]

  /** The seed data satisfies the record invariant, and its ids are distinct. */
  lemma SeedIsConsistent()
    ensures AllWellFormed(MockRequests)
    ensures MockRequests[0].id != MockRequests[1].id
    ensures forall i, j :: 0 <= i < j < |MockUsers| ==> MockUsers[i].id != MockUsers[j].id
  {
  }

  /** Each quick-login email is the email of the seeded user with that role,
      and of no earlier seeded user. */
  lemma QuickLoginFindsSeed(role: Role)
    ensures var i := match role case Tenant => 0 case Admin => 1 case PropertyManager => 2;
      FindUser(MockUsers, QuickLoginEmail(role)) == Some(i) && MockUsers[i].role == role
  {
    var i := match role case Tenant => 0 case Admin => 1 case PropertyManager => 2;
    FindFirstUnique(MockUsers, (u: User) => u.email == QuickLoginEmail(role), i);
  }

  // ---------------------------------------------------------------- lookups

  /** `users.find(u => u.email === email)`, as an index. */
  function FindUser(users: seq<User>, email: string): Option<nat>
  {
    FindFirst(users, (u: User) => u.email == email)
  }

  /** `users.find(u => u.role === 'admin')`, as an index. */
  function FirstAdmin(users: seq<User>): Option<nat>
  {
    FindFirst(users, (u: User) => u.role == Admin)
  }

  /** `requests.findIndex(r => r.id === id)`, with -1 as `None`. */
  function FindRequest(rs: seq<MaintenanceRequest>, id: string): Option<nat>
  {
    FindFirst(rs, (r: MaintenanceRequest) => r.id == id)
  }

  function UserIds(users: seq<User>): set<string>
  {
    set u | u in users :: u.id
  }

  function RequestIds(rs: seq<MaintenanceRequest>): set<string>
  {
    set r | r in rs :: r.id
  }

  /** The UI guard of a handler: the stored request with that id, if there is
      one, is in the status for which the button is rendered. */
  predicate GuardedAt(rs: seq<MaintenanceRequest>, id: string, s: Status)
  {
    match FindRequest(rs, id)
    case None => true
    case Some(i) => rs[i].status == s
  }

  // ---------------------------------------------------------------- image keys

  /** The nondeterministic inputs of one `saveImageToLocal` call: the
      `Date.now()` and `Math.random()` parts of the key, the `uploadedAt`
      time, and whether the file reader delivers the file (`onerror` rejects). */
  datatype Upload = Upload(stamp: string, random: string, uploadedAt: string, succeeds: bool)

  /** `img_${Date.now()}_${random}`. */
  function ImageKey(u: Upload): string
  {
    "img_" + u.stamp + "_" + u.random
  }

  /** The record stored for a file. */
  function Recorded(f: ImageFile, u: Upload): ImageRecord
  {
    ImageRecord(f.dataUrl, f.name, f.mimeType, f.size, u.uploadedAt)
  }

  /** The keys a batch of uploads will use, in order. */
  function KeysOf(ups: seq<Upload>): (r: seq<string>)
    ensures |r| == |ups|
    ensures forall k :: 0 <= k < |ups| ==> r[k] == ImageKey(ups[k])
    decreases |ups|
  {
    if ups == [] then [] else KeysOf(ups[..|ups| - 1]) + [ImageKey(ups[|ups| - 1])]
  }

  /** The batch's keys are pairwise distinct and not yet used in `m`. */
  predicate FreshKeys(ups: seq<Upload>, m: map<string, ImageRecord>)
  {
    (forall k :: 0 <= k < |ups| ==> ImageKey(ups[k]) !in m) &&
    (forall j, k :: 0 <= j < k < |ups| ==> ImageKey(ups[j]) != ImageKey(ups[k]))
  }

  /** The image map after saving `files` one after the other. */
  function StoreImages(m: map<string, ImageRecord>, files: seq<ImageFile>, ups: seq<Upload>): map<string, ImageRecord>
    requires |files| == |ups|
    decreases |files|
  {
    if files == [] then m
    else StoreImages(m, files[..|files| - 1], ups[..|ups| - 1])
           [ImageKey(ups[|ups| - 1]) := Recorded(files[|files| - 1], ups[|ups| - 1])]
  }

  /** Saving a batch under fresh keys adds exactly the batch's keys, each
      holding its own file's record, and leaves every earlier entry as it was. */
  lemma {:induction false} StoreImagesContents(m: map<string, ImageRecord>, files: seq<ImageFile>, ups: seq<Upload>)
    requires |files| == |ups| && FreshKeys(ups, m)
    ensures forall key :: key in StoreImages(m, files, ups) <==> key in m || key in KeysOf(ups)
    ensures forall key :: key in m ==> StoreImages(m, files, ups)[key] == m[key]
    ensures forall k :: 0 <= k < |ups| ==>
      ImageKey(ups[k]) in StoreImages(m, files, ups) &&
      StoreImages(m, files, ups)[ImageKey(ups[k])] == Recorded(files[k], ups[k])
    decreases |files|
  {
    if files != [] {
      var n := |files| - 1;
      var fs, us := files[..n], ups[..n];
      assert FreshKeys(us, m);
      StoreImagesContents(m, fs, us);
      var prior := StoreImages(m, fs, us);
      assert StoreImages(m, files, ups) == prior[ImageKey(ups[n]) := Recorded(files[n], ups[n])];
      assert KeysOf(ups) == KeysOf(us) + [ImageKey(ups[n])];
      forall k | 0 <= k < n
        ensures StoreImages(m, files, ups)[ImageKey(ups[k])] == Recorded(files[k], ups[k])
      {
        assert ImageKey(ups[k]) != ImageKey(ups[n]);
        assert us[k] == ups[k] && fs[k] == files[k];
      }
    }
  }

  /** One more save of a fresh batch: its key is not yet in the map built so
      far, and saving it extends both the map and the key list by one. */
  lemma StoreImagesStep(m: map<string, ImageRecord>, files: seq<ImageFile>, ups: seq<Upload>, i: nat)
    requires |files| == |ups| && FreshKeys(ups, m) && i < |ups|
    ensures ImageKey(ups[i]) !in StoreImages(m, files[..i], ups[..i])
    ensures StoreImages(m, files[..i + 1], ups[..i + 1]) ==
            StoreImages(m, files[..i], ups[..i])[ImageKey(ups[i]) := Recorded(files[i], ups[i])]
    ensures KeysOf(ups[..i + 1]) == KeysOf(ups[..i]) + [ImageKey(ups[i])]
  {
    var fs, us := files[..i], ups[..i];
    assert FreshKeys(us, m);
    StoreImagesContents(m, fs, us);
    assert files[..i + 1][..i] == fs && ups[..i + 1][..i] == us;
  }

  /** How many uploads of the batch succeed before the first failure. */
  function LeadingSuccesses(ups: seq<Upload>): (n: nat)
    ensures n <= |ups|
    ensures forall k :: 0 <= k < n ==> ups[k].succeeds
    ensures n < |ups| ==> !ups[n].succeeds
  {
    if ups == [] || !ups[0].succeeds then 0 else 1 + LeadingSuccesses(ups[1..])
  }

  // ---------------------------------------------------------------- handler results

  /** What a dashboard handler ends with: the record `updateRequest` or
      `addRequest` returned; a validation toast; the error toast shown when
      a photo could not be read; or `updateRequest` returning null, after which nothing happens. */
  datatype Outcome = Written(record: MaintenanceRequest) | Refused | UploadFailed | NotFound

  /** The tenant's new-request form. */
  datatype RequestForm = RequestForm(title: string, description: string, category: string,
                                     priority: Priority)

  const EmptyRequestForm := RequestForm("", "", "", Medium)

  /** The manager's completion form: the request it is open for, the report
      text and the selected photos. */
  datatype CompletionForm = CompletionForm(target: Option<string>, report: string,
                                           files: seq<ImageFile>)

  const ClosedCompletionForm := CompletionForm(None, "", [])

  /** The draft `handleSubmitRequest` passes to `addRequest`. */
  function NewDraft(user: User, form: RequestForm, imageIds: seq<string>): Draft
  {
    Draft(user.id, user.name, form.title, form.description, form.category, form.priority,
      Pending, imageIds, None, None, None, None, None, None, None, None)
  }

  // ---------------------------------------------------------------- the store

  class Store {
    var users: seq<User>
    var requests: seq<MaintenanceRequest>
    var images: map<string, ImageRecord>
    var current: Option<User>
    // Whether the users, requests and images keys are present at all.
    var hasUsers: bool
    var hasRequests: bool
    var hasImages: bool

    /** An absent key reads as an empty collection (`getItem(...) || '[]'`). */
    ghost predicate Valid()
      reads this
    {
      (!hasUsers ==> users == []) &&
      (!hasRequests ==> requests == []) &&
      (!hasImages ==> images == map[])
    }

    /** A browser with nothing stored yet. */
    constructor ()
      ensures Valid()
      ensures users == [] && requests == [] && images == map[] && current == None
      ensures !hasUsers && !hasRequests && !hasImages
    {
      users, requests, images, current := [], [], map[], None;
      hasUsers, hasRequests, hasImages := false, false, false;
    }

    /** `getUsers()`. */
    function GetUsers(): seq<User>
      reads this
    {
      users
    }

    /** `getRequests()`. */
    function GetRequests(): seq<MaintenanceRequest>
      reads this
    {
      requests
    }

    /** `getCurrentUser()`: null when nothing is stored. */
    function GetCurrentUser(): Option<User>
      reads this
    {
      current
    }

    /** `initializeLocalStorage`: seed each of the three keys that is absent,
      and touch nothing that is present. */
    method InitializeLocalStorage()
      requires Valid()
      modifies this
      ensures Valid() && hasUsers && hasRequests && hasImages
      ensures users == if old(hasUsers) then old(users) else MockUsers
      ensures requests == if old(hasRequests) then old(requests) else MockRequests
      ensures images == old(images) && current == old(current)
      ensures old(hasUsers && hasRequests && hasImages) ==> unchanged(this)
    {
      if !hasUsers {
        users, hasUsers := MockUsers, true;
      }
      if !hasRequests {
        requests, hasRequests := MockRequests, true;
      }
      if !hasImages {
        images, hasImages := map[], true;
      }
    }

    /** `setCurrentUser(user)`: store the user, or remove the key for null. */
    method SetCurrentUser(user: Option<User>)
      modifies this`current
      ensures current == user
    {
      current := user;
    }

    /** `logoutUser()`. */
    method LogoutUser()
      modifies this`current
      ensures current == None
    {
      SetCurrentUser(None);
    }

    /** `loginUser(email, role?)`: the first stored user with that email,
      unchanged and whatever the role; otherwise, when a role is given, a new
      user named after the email's local part, appended and stored; otherwise
      null. A user found or created becomes the current user. */
    method LoginUser(email: string, role: Option<Role>, newId: string, now: string) returns (user: Option<User>)
      requires Valid()
      requires role.Some? && FindUser(users, email).None? ==> newId !in UserIds(users)
      modifies this`users, this`hasUsers, this`current
      ensures Valid()
      ensures match FindUser(old(users), email)
        case Some(i) =>
          user == Some(old(users)[i]) && users == old(users) && hasUsers == old(hasUsers) &&
          current == user
        case None =>
          if role.Some? then
            user == Some(User(newId, email, LocalPart(email), role.value, now)) &&
            users == old(users) + [user.value] && hasUsers && current == user
          else
            user == None && users == old(users) && hasUsers == old(hasUsers) &&
            current == old(current)
    {
      var found := FindUser(users, email);
      if found.Some? {
        user := Some(users[found.value]);
      } else if role.Some? {
        user := Some(User(newId, email, LocalPart(email), role.value, now));
        users, hasUsers := users + [user.value], true;
      } else {
        user := None;
      }
      if user.Some? {
        SetCurrentUser(user);
      }
    }

    /** `addRequest(draft)`: append the draft with its new id and creation
      time, and return it; the new id then finds it. */
    method AddRequest(draft: Draft, id: string, now: string) returns (r: MaintenanceRequest)
      requires Valid() && id !in RequestIds(requests)
      modifies this`requests, this`hasRequests
      ensures Valid() && hasRequests
      ensures DraftOf(r) == draft && r.id == id && r.createdAt == now
      ensures requests == old(requests) + [r]
      ensures FindRequest(requests, id) == Some(|old(requests)|)
    {
      r := WithIdentity(draft, id, now);
      FindFirstAppend(requests, [r], (x: MaintenanceRequest) => x.id == id);
      requests, hasRequests := requests + [r], true;
    }

    /** `updateRequest(id, updates)`: merge the updates into the first
      request with that id, in place, and return it; null, and no write, for
      an unknown id. */
    method UpdateRequest(id: string, updates: Patch) returns (r: Option<MaintenanceRequest>)
      requires Valid()
      modifies this`requests, this`hasRequests
      ensures Valid()
      ensures match FindRequest(old(requests), id)
        case None =>
          r == None && requests == old(requests) && hasRequests == old(hasRequests)
        case Some(i) =>
          r == Some(Merge(old(requests)[i], updates)) && requests == old(requests)[i := r.value] &&
          hasRequests
    {
      var index := FindRequest(requests, id);
      if index.None? {
        return None;
      }
      var merged := Merge(requests[index.value], updates);
      requests, hasRequests := requests[index.value := merged], true;
      return Some(merged);
    }

    /** `saveImageToLocal(file)`: store the file's record under a fresh
      `img_` key and resolve to the key; a file the reader cannot read rejects and
      stores nothing. */
    method SaveImage(file: ImageFile, up: Upload) returns (key: Option<string>)
      requires Valid() && ImageKey(up) !in images
      modifies this`images, this`hasImages
      ensures Valid()
      ensures up.succeeds ==>
        key == Some(ImageKey(up)) && images == old(images)[ImageKey(up) := Recorded(file, up)] &&
        hasImages
      ensures up.succeeds && file.dataUrl != "" ==> GetImageData(ImageKey(up)) == Some(file.dataUrl)
      ensures up.succeeds && file.dataUrl == "" ==> GetImageData(ImageKey(up)) == None
      ensures !up.succeeds ==> GetImageData(ImageKey(up)) == None
      ensures forall k :: k != ImageKey(up) ==> GetImageData(k) == old(GetImageData(k))
      ensures !up.succeeds ==> key == None && images == old(images) && hasImages == old(hasImages)
    {
      if !up.succeeds {
        return None;
      }
      images, hasImages := images[ImageKey(up) := Recorded(file, up)], true;
      return Some(ImageKey(up));
    }

    /** `getImageData(id)`: the stored data, or null for an unknown key or
      empty data. */
    function GetImageData(key: string): (r: Option<string>)
      reads this
    {
      if key in images && images[key].data != "" then Some(images[key].data) else None
    }

    /** The upload loop both submit handlers run: save the files in order,
      collecting their keys, and stop at the first failure, keeping what was
      saved before it. */
    method UploadAll(files: seq<ImageFile>, ups: seq<Upload>) returns (ids: Option<seq<string>>)
      requires Valid() && |ups| == |files| && FreshKeys(ups, images)
      modifies this`images, this`hasImages
      ensures Valid()
      ensures var n := LeadingSuccesses(ups);
        images == StoreImages(old(images), files[..n], ups[..n]) &&
        hasImages == (old(hasImages) || n > 0)
      ensures ids.Some? <==> LeadingSuccesses(ups) == |ups|
      ensures ids.Some? ==> ids.value == KeysOf(ups)
    {
      var imageIds: seq<string> := [];
      var i := 0;
      while i < |files|
        invariant 0 <= i <= |files| && Valid()
        invariant forall k :: 0 <= k < i ==> ups[k].succeeds
        invariant imageIds == KeysOf(ups[..i])
        invariant images == StoreImages(old(images), files[..i], ups[..i])
        invariant hasImages == (old(hasImages) || i > 0)
      {
        StoreImagesStep(old(images), files, ups, i);
        var id := SaveImage(files[i], ups[i]);
        if id.None? {
          assert LeadingSuccesses(ups) == i;
          return None;
        }
        imageIds := imageIds + [id.value];
        i := i + 1;
      }
      assert LeadingSuccesses(ups) == i;
      assert files[..i] == files && ups[..i] == ups;
      return Some(imageIds);
    }

    /** The startup effect: seed, read the session, and when nobody is signed
      in persist the first admin as the current user. */
    method Startup() returns (user: Option<User>)
      requires Valid()
      modifies this
      ensures Valid() && hasUsers && hasRequests && hasImages
      ensures users == (if old(hasUsers) then old(users) else MockUsers)
      ensures requests == (if old(hasRequests) then old(requests) else MockRequests)
      ensures images == old(images)
      ensures old(current).Some? ==> current == old(current) && user == old(current)
      ensures old(current).None? ==>
        match FirstAdmin(users)
        case None => current == None && user == None
        case Some(i) => current == Some(users[i]) && user == current
    {
      InitializeLocalStorage();
      user := GetCurrentUser();
      if user.None? {
        var admin := FirstAdmin(GetUsers());
        if admin.Some? {
          current := Some(users[admin.value]);
          user := current;
        }
      }
    }

    // ------------------------------------------------------------ login page

    /** `handleLogin`: nothing for an empty email; otherwise log in with the
      selected role, which creates an unseen user with that role, and make the
      user the session user. */
    method HandleLogin(email: string, selected: Role, session: Option<User>, newId: string, now: string)
      returns (session': Option<User>)
      requires Valid()
      requires FindUser(users, email).None? ==> newId !in UserIds(users)
      modifies this`users, this`hasUsers, this`current
      ensures Valid()
      ensures email == "" ==> session' == session && unchanged(this)
      ensures email != "" ==> session'.Some? && current == session'
      ensures email != "" ==>
        match FindUser(old(users), email)
        case Some(i) => session' == Some(old(users)[i]) && users == old(users)
        case None => session' == Some(User(newId, email, LocalPart(email), selected, now)) &&
                     users == old(users) + [session'.value]
    {
      session' := session;
      if email != "" {
        var user := LoginUser(email, Some(selected), newId, now);
        if user.Some? {
          session' := user;
        }
      }
    }

    /** `quickLogin(role)`: log in with the role's demo email and no role, so
      no user is ever created; the session changes only when the email is found. */
    method QuickLogin(role: Role, session: Option<User>) returns (session': Option<User>)
      requires Valid()
      modifies this`users, this`hasUsers, this`current
      ensures Valid() && users == old(users) && hasUsers == old(hasUsers)
      ensures match FindUser(users, QuickLoginEmail(role))
        case Some(i) => session' == Some(users[i]) && current == session'
        case None => session' == session && current == old(current)
    {
      var user := LoginUser(QuickLoginEmail(role), None, "", "");
      session' := session;
      if user.Some? {
        session' := user;
      }
    }

    // ------------------------------------------------------------ lifecycle handlers

    /** One guarded lifecycle write: `updateRequest(id, PatchOf(a))` for an
      admissible action whose button the stored record shows. */
    method Perform(id: string, a: Action) returns (r: Option<MaintenanceRequest>)
      requires Valid() && GuardedAt(requests, id, Guard(a)) && Admissible(a)
      modifies this`requests, this`hasRequests
      ensures Valid()
      ensures match FindRequest(old(requests), id)
        case None => r == None && requests == old(requests) && hasRequests == old(hasRequests)
        case Some(i) =>
          r == Some(Apply(old(requests)[i], a)) && requests == old(requests)[i := r.value] &&
          r.value.id == id && r.value.status == Target(a) && hasRequests
      ensures OneStep(old(requests), requests)
      ensures AllWellFormed(old(requests)) ==> AllWellFormed(requests)
    {
      ghost var before := requests;
      r := UpdateRequest(id, PatchOf(a));
      match FindRequest(before, id)
      case None =>
      case Some(i) =>
        StepAt(before, i, a);
        ActionFollowsMachine(before[i], a);
    }

    /** `handleAssignRequest`, offered only for pending requests and only
      with a property manager: assign, then replace the record in the
      admin's list; no change to the list when the id is unknown. */
    method AssignRequest(list: seq<MaintenanceRequest>, requestId: string, managerId: string,
                         admin: User, now: string) returns (list': seq<MaintenanceRequest>)
      requires Valid() && GuardedAt(requests, requestId, Pending)
      requires exists m :: m in ManagerChoices(users) && m.id == managerId
      modifies this`requests, this`hasRequests
      ensures Valid()
      ensures match FindRequest(old(requests), requestId)
        case None => requests == old(requests) && hasRequests == old(hasRequests) && list' == list
        case Some(i) =>
          requests == old(requests)[i := old(requests)[i].(status := Assigned,
            assignedTo := Some(managerId), assignedBy := Some(admin.id), assignedAt := Some(now))] &&
          list' == ReplaceById(list, requestId, requests[i]) && hasRequests
      ensures OneStep(old(requests), requests)
      ensures AllWellFormed(old(requests)) ==> AllWellFormed(requests)
    {
      var updated := Perform(requestId, Assign(managerId, admin.id, now));
      list' := list;
      if updated.Some? {
        list' := ReplaceById(list, requestId, updated.value);
      }
    }

    /** `handleStartWork`, offered only for assigned requests: write
      status in_progress and nothing else. */
    method StartWork(list: seq<MaintenanceRequest>, requestId: string) returns (list': seq<MaintenanceRequest>)
      requires Valid() && GuardedAt(requests, requestId, Assigned)
      modifies this`requests, this`hasRequests
      ensures Valid()
      ensures match FindRequest(old(requests), requestId)
        case None => requests == old(requests) && hasRequests == old(hasRequests) && list' == list
        case Some(i) =>
          requests == old(requests)[i := old(requests)[i].(status := InProgress)] &&
          list' == ReplaceById(list, requestId, requests[i]) && hasRequests
      ensures OneStep(old(requests), requests)
      ensures AllWellFormed(old(requests)) ==> AllWellFormed(requests)
    {
      var updated := Perform(requestId, Lifecycle.StartWork);
      list' := list;
      if updated.Some? {
        list' := ReplaceById(list, requestId, updated.value);
      }
    }

    /** `handleCompleteWork`, reachable only from the completion form of an
      in-progress request: refuse a report that is blank after trim; upload the
      photos, giving up on the first failure; then write status completed, the
      time, the report as typed and the photo keys, and close the form. */
    method CompleteWork(list: seq<MaintenanceRequest>, requestId: string, form: CompletionForm,
                        ups: seq<Upload>, now: string)
      returns (outcome: Outcome, list': seq<MaintenanceRequest>, form': CompletionForm)
      requires Valid() && GuardedAt(requests, requestId, InProgress)
      requires form.target == Some(requestId)
      requires |ups| == |form.files| && FreshKeys(ups, images)
      modifies this`requests, this`hasRequests, this`images, this`hasImages
      ensures Valid()
      ensures IsBlank(form.report) ==>
        outcome == Refused && unchanged(this) && list' == list && form' == form
      ensures outcome.UploadFailed? ==>
        !IsBlank(form.report) && LeadingSuccesses(ups) < |ups| &&
        requests == old(requests) && list' == list && form' == form
      ensures !IsBlank(form.report) && LeadingSuccesses(ups) < |ups| ==>
        outcome == UploadFailed && requests == old(requests) && hasRequests == old(hasRequests) &&
        list' == list && form' == form
      ensures !IsBlank(form.report) ==>
        var n := LeadingSuccesses(ups);
        images == StoreImages(old(images), form.files[..n], ups[..n]) &&
        hasImages == (old(hasImages) || n > 0)
      ensures !IsBlank(form.report) && LeadingSuccesses(ups) == |ups| ==>
        match FindRequest(old(requests), requestId)
        case None =>
          outcome == NotFound && requests == old(requests) && hasRequests == old(hasRequests) &&
          list' == list && form' == form
        case Some(i) =>
          requests == old(requests)[i := old(requests)[i].(status := Completed,
            completedAt := Some(now), completionReport := Some(form.report),
            completionImages := Some(KeysOf(ups)))] &&
          outcome == Written(requests[i]) &&
          list' == ReplaceById(list, requestId, requests[i]) && form' == ClosedCompletionForm &&
          hasRequests
      ensures OneStep(old(requests), requests)
      ensures AllWellFormed(old(requests)) ==> AllWellFormed(requests)
    {
      TrimEmptyIffBlank(form.report);
      if Trim(form.report) == "" {
        return Refused, list, form;
      }
      outcome, list', form' := UploadAndComplete(list, requestId, form, ups, now);
    }

    /** The part of `handleCompleteWork` after the report check: upload the
      photos, giving up on the first failure, then write the completion. */
    method UploadAndComplete(list: seq<MaintenanceRequest>, requestId: string, form: CompletionForm,
                             ups: seq<Upload>, now: string)
      returns (outcome: Outcome, list': seq<MaintenanceRequest>, form': CompletionForm)
      requires Valid() && GuardedAt(requests, requestId, InProgress) && !IsBlank(form.report)
      requires |ups| == |form.files| && FreshKeys(ups, images)
      modifies this`requests, this`hasRequests, this`images, this`hasImages
      ensures Valid()
      ensures outcome.UploadFailed? <==> LeadingSuccesses(ups) < |ups|
      ensures LeadingSuccesses(ups) < |ups| ==>
        requests == old(requests) && hasRequests == old(hasRequests) && list' == list && form' == form
      ensures var n := LeadingSuccesses(ups);
        images == StoreImages(old(images), form.files[..n], ups[..n]) &&
        hasImages == (old(hasImages) || n > 0)
      ensures LeadingSuccesses(ups) == |ups| ==>
        match FindRequest(old(requests), requestId)
        case None =>
          outcome == NotFound && requests == old(requests) && hasRequests == old(hasRequests) &&
          list' == list && form' == form
        case Some(i) =>
          requests == old(requests)[i := old(requests)[i].(status := Completed,
            completedAt := Some(now), completionReport := Some(form.report),
            completionImages := Some(KeysOf(ups)))] &&
          outcome == Written(requests[i]) &&
          list' == ReplaceById(list, requestId, requests[i]) && form' == ClosedCompletionForm &&
          hasRequests
      ensures OneStep(old(requests), requests)
      ensures AllWellFormed(old(requests)) ==> AllWellFormed(requests)
    {
      var ids := UploadAll(form.files, ups);
      if ids.None? {
        return UploadFailed, list, form;
      }
      outcome, list', form' := WriteCompletion(list, requestId, form, ids.value, now);
    }

    /** The `updateRequest` call of `handleCompleteWork` once every photo is
      saved: write the completion on the record with the id, then replace it
      in the manager's list and close the form; no change for an unknown id. */
    method WriteCompletion(list: seq<MaintenanceRequest>, requestId: string, form: CompletionForm,
                           keys: seq<string>, now: string)
      returns (outcome: Outcome, list': seq<MaintenanceRequest>, form': CompletionForm)
      requires Valid() && GuardedAt(requests, requestId, InProgress) && !IsBlank(form.report)
      modifies this`requests, this`hasRequests
      ensures Valid()
      ensures match FindRequest(old(requests), requestId)
        case None =>
          outcome == NotFound && requests == old(requests) && hasRequests == old(hasRequests) &&
          list' == list && form' == form
        case Some(i) =>
          requests == old(requests)[i := old(requests)[i].(status := Completed,
            completedAt := Some(now), completionReport := Some(form.report),
            completionImages := Some(keys))] &&
          outcome == Written(requests[i]) &&
          list' == ReplaceById(list, requestId, requests[i]) && form' == ClosedCompletionForm &&
          hasRequests
      ensures OneStep(old(requests), requests)
      ensures AllWellFormed(old(requests)) ==> AllWellFormed(requests)
    {
      var updated := Perform(requestId, Complete(now, form.report, keys));
      if updated.None? {
        return NotFound, list, form;
      }
      return Written(updated.value), ReplaceById(list, requestId, updated.value), ClosedCompletionForm;
    }

    /** `handleApprove`, from the review of a completed request: write status
      approved and the review time; on success the tenant's list takes the
      record and the modal closes (`closed`). */
    method ApproveWork(list: seq<MaintenanceRequest>, requestId: string, now: string)
      returns (outcome: Outcome, list': seq<MaintenanceRequest>, closed: bool)
      requires Valid() && GuardedAt(requests, requestId, Completed)
      modifies this`requests, this`hasRequests
      ensures Valid()
      ensures match FindRequest(old(requests), requestId)
        case None =>
          outcome == NotFound && requests == old(requests) && hasRequests == old(hasRequests) &&
          list' == list && !closed
        case Some(i) =>
          requests == old(requests)[i := old(requests)[i].(status := Approved, reviewedAt := Some(now))] &&
          outcome == Written(requests[i]) && closed &&
          list' == ReplaceById(list, requestId, requests[i]) && hasRequests
      ensures OneStep(old(requests), requests)
      ensures AllWellFormed(old(requests)) ==> AllWellFormed(requests)
    {
      var updated := Perform(requestId, Approve(now));
      if updated.None? {
        return NotFound, list, false;
      }
      return Written(updated.value), ReplaceById(list, updated.value.id, updated.value), true;
    }

    /** `handleReject`: refuse a reason that is blank after trim; otherwise
      write status rejected, the reason as typed and the review time. */
    method RejectWork(list: seq<MaintenanceRequest>, requestId: string, reason: string, now: string)
      returns (outcome: Outcome, list': seq<MaintenanceRequest>, closed: bool)
      requires Valid() && GuardedAt(requests, requestId, Completed)
      modifies this`requests, this`hasRequests
      ensures Valid()
      ensures IsBlank(reason) ==> outcome == Refused && unchanged(this) && list' == list && !closed
      ensures !IsBlank(reason) ==>
        match FindRequest(old(requests), requestId)
        case None =>
          outcome == NotFound && requests == old(requests) && hasRequests == old(hasRequests) &&
          list' == list && !closed
        case Some(i) =>
          requests == old(requests)[i := old(requests)[i].(status := Rejected,
            rejectionReason := Some(reason), reviewedAt := Some(now))] &&
          outcome == Written(requests[i]) && closed &&
          list' == ReplaceById(list, requestId, requests[i]) && hasRequests
      ensures OneStep(old(requests), requests)
      ensures AllWellFormed(old(requests)) ==> AllWellFormed(requests)
    {
      TrimEmptyIffBlank(reason);
      if Trim(reason) == "" {
        return Refused, list, false;
      }
      var updated := Perform(requestId, Reject(reason, now));
      if updated.None? {
        return NotFound, list, false;
      }
      return Written(updated.value), ReplaceById(list, updated.value.id, updated.value), true;
    }

    /** `handleSubmitRequest`: refuse an empty title, description or category
      (no trim: white space passes); upload the selected photos, giving up on
      the first failure without creating the request; then append a pending
      request of the signed-in tenant, put it at the head of the tenant's
      list, and clear the form. */
    method SubmitRequest(list: seq<MaintenanceRequest>, user: User, form: RequestForm,
                         selected: seq<ImageFile>, ups: seq<Upload>, newId: string, now: string)
      returns (outcome: Outcome, list': seq<MaintenanceRequest>, form': RequestForm,
               selected': seq<ImageFile>)
      requires Valid() && newId !in RequestIds(requests)
      requires |ups| == |selected| && FreshKeys(ups, images)
      modifies this`requests, this`hasRequests, this`images, this`hasImages
      ensures Valid()
      ensures form.title == "" || form.description == "" || form.category == "" ==>
        outcome == Refused && unchanged(this) && list' == list && form' == form && selected' == selected
      ensures outcome.UploadFailed? ==>
        LeadingSuccesses(ups) < |ups| && requests == old(requests) && list' == list &&
        form' == form && selected' == selected
      ensures form.title != "" && form.description != "" && form.category != "" &&
              LeadingSuccesses(ups) < |ups| ==>
        outcome == UploadFailed && requests == old(requests) && hasRequests == old(hasRequests) &&
        list' == list && form' == form && selected' == selected
      ensures form.title != "" && form.description != "" && form.category != "" ==>
        var n := LeadingSuccesses(ups);
        images == StoreImages(old(images), selected[..n], ups[..n]) &&
        hasImages == (old(hasImages) || n > 0)
      ensures form.title != "" && form.description != "" && form.category != "" &&
              LeadingSuccesses(ups) == |ups| ==>
        outcome.Written? &&
        var r := outcome.record;
        r.id == newId && r.createdAt == now && r.status == Pending && NoLifecycleFields(r) &&
        r.tenantId == user.id && r.tenantName == user.name && r.title == form.title &&
        r.description == form.description && r.category == form.category &&
        r.priority == form.priority && r.images == KeysOf(ups) &&
        requests == old(requests) + [r] && list' == [r] + list &&
        form' == EmptyRequestForm && selected' == []
      ensures AllWellFormed(old(requests)) ==> AllWellFormed(requests)
    {
      if form.title == "" || form.description == "" || form.category == "" {
        return Refused, list, form, selected;
      }
      var ids := UploadAll(selected, ups);
      if ids.None? {
        return UploadFailed, list, form, selected;
      }
      var r := AddRequest(NewDraft(user, form, ids.value), newId, now);
      return Written(r), [r] + list, EmptyRequestForm, [];
    }
  }

}
