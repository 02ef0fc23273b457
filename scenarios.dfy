/** End-to-end runs of the store through its dashboard handlers, each one
    derived only from the handlers' contracts: a new request's whole life on a
    freshly seeded browser, including a refused completion report, and a batch
    selection that drops a file. */
module Scenarios {

  import opened Wrappers
  import opened Types
  import opened Text
  import opened Lifecycle
  import opened Views
  import opened Storage

  const WasherUpload := Upload("1733600000000", "k3j9", "t3", true)

  const Washer := ImageFile("washer.jpg", "image/jpeg", 2 * 1024 * 1024, "data:image/jpeg;base64,AAAA")
  const Sink := ImageFile("sink.png", "image/png", 512 * 1024, "data:image/png;base64,BBBB")

  /** The id the story's new request gets. */
  const LeakId := "r3"

  /** No request of `rs` has the id. */
  predicate Absent(rs: seq<MaintenanceRequest>, id: string)
  {
    forall k :: 0 <= k < |rs| ==> rs[k].id != id
  }

  /** A record appended after requests without its id is the one its id finds. */
  lemma FoundLast(prior: seq<MaintenanceRequest>, x: MaintenanceRequest)
    requires Absent(prior, x.id)
    ensures FindRequest(prior + [x], x.id) == Some(|prior|)
  {
    var rs := prior + [x];
    assert forall k :: 0 <= k < |prior| ==> rs[k] == prior[k];
    Seqs.FindFirstUnique(rs, (r: MaintenanceRequest) => r.id == x.id, |prior|);
  }

  /** On a fresh browser startup seeds the store and signs in the seeded
      admin; the seeded tenant and manager are there to be used. */
  method FreshStartup() returns (store: Store, admin: User, tenant: User, manager: User)
    ensures fresh(store) && store.Valid()
    ensures store.users == MockUsers && store.requests == MockRequests && store.images == map[]
    ensures admin == MockUsers[1] && store.current == Some(admin)
    ensures tenant == MockUsers[0] && manager == MockUsers[2]
    ensures admin.id == "2" && admin.role == Admin && tenant.id == "1" && tenant.role == Tenant
    ensures manager.id == "3" && manager in ManagerChoices(store.users)
    ensures Absent(store.requests, LeakId)
  {
    store := new Store();
    var user := store.Startup();
    assert FirstAdmin(MockUsers) == Some(1) by {
      Seqs.FindFirstUnique(MockUsers, (u: User) => u.role == Admin, 1);
    }
    admin, tenant, manager := user.value, MockUsers[0], MockUsers[2];
  }

  /** A tenant files a leak without photos: the new record is pending, has
      no images and no lifecycle field, belongs to the tenant and is stored
      last. */
  method FileLeakRequest(store: Store, tenant: User) returns (submitted: MaintenanceRequest)
    requires store.Valid() && Absent(store.requests, LeakId)
    modifies store
    ensures store.Valid() && store.users == old(store.users) && store.images == old(store.images)
    ensures submitted.status == Pending && submitted.images == [] && submitted.tenantId == tenant.id
    ensures NoLifecycleFields(submitted)
    ensures submitted.id == LeakId && store.requests == old(store.requests) + [submitted]
  {
    var form := RequestForm("Leak", "Sink leaking", "Plumbing", High);
    assert LeakId !in RequestIds(store.requests);
    assert LeadingSuccesses([]) == 0 && FreshKeys([], store.images);
    var outcome, list, form', picks := store.SubmitRequest([], tenant, form, [], [], LeakId, "t0");
    submitted := outcome.record;
  }

  /** An admin assigns the request to a property manager. */
  method AssignLeakRequest(store: Store, admin: User, manager: User, prior: seq<MaintenanceRequest>,
                    submitted: MaintenanceRequest) returns (handedOver: MaintenanceRequest)
    requires store.Valid() && manager in ManagerChoices(store.users)
    requires submitted.status == Pending && Absent(prior, submitted.id)
    requires store.requests == prior + [submitted]
    modifies store
    ensures store.Valid() && store.users == old(store.users) && store.images == old(store.images)
    ensures handedOver == submitted.(status := Assigned, assignedTo := Some(manager.id),
      assignedBy := Some(admin.id), assignedAt := Some("t1"))
    ensures store.requests == prior + [handedOver]
  {
    FoundLast(prior, submitted);
    var list := store.AssignRequest([], submitted.id, manager.id, admin, "t1");
    handedOver := store.requests[|prior|];
    assert store.requests == prior + [handedOver];
  }

  /** The manager starts work: only the status changes. */
  method StartLeakRequest(store: Store, prior: seq<MaintenanceRequest>, handedOver: MaintenanceRequest)
    returns (started: MaintenanceRequest)
    requires store.Valid()
    requires handedOver.status == Assigned && Absent(prior, handedOver.id)
    requires store.requests == prior + [handedOver]
    modifies store
    ensures store.Valid() && store.images == old(store.images)
    ensures started == handedOver.(status := InProgress)
    ensures store.requests == prior + [started]
  {
    FoundLast(prior, handedOver);
    var list := store.StartWork([], handedOver.id);
    started := store.requests[|prior|];
    assert store.requests == prior + [started];
  }

  /** A report of spaces only is refused, and nothing is written. */
  method RefuseBlankReport(store: Store, prior: seq<MaintenanceRequest>, started: MaintenanceRequest)
    returns (refused: Outcome)
    requires store.Valid()
    requires started.status == InProgress && Absent(prior, started.id)
    requires store.requests == prior + [started]
    modifies store
    ensures store.Valid() && refused == Refused
    ensures store.requests == old(store.requests) && store.images == old(store.images)
  {
    FoundLast(prior, started);
    assert IsBlank("  ");
    var list, blank';
    refused, list, blank' := store.CompleteWork([], started.id, CompletionForm(Some(started.id), "  ", []), [], "t2");
  }

  /** The manager completes with one photo, whose key the record keeps. */
  method CompleteWithPhoto(store: Store, prior: seq<MaintenanceRequest>, started: MaintenanceRequest)
    returns (completed: MaintenanceRequest)
    requires store.Valid() && ImageKey(WasherUpload) !in store.images
    requires started.status == InProgress && Absent(prior, started.id)
    requires store.requests == prior + [started]
    modifies store
    ensures store.Valid()
    ensures completed == started.(status := Completed, completedAt := Some("t4"),
      completionReport := Some("Fixed washer"), completionImages := Some([ImageKey(WasherUpload)]))
    ensures store.requests == prior + [completed]
  {
    FoundLast(prior, started);
    var up := WasherUpload;
    var form := CompletionForm(Some(started.id), "Fixed washer", [Washer]);
    assert !IsWhitespace(form.report[0]);
    assert LeadingSuccesses([up]) == 1 && FreshKeys([up], store.images);
    assert KeysOf([up]) == [ImageKey(up)];
    var done, list, form' := store.CompleteWork([], started.id, form, [up], "t4");
    completed := store.requests[|prior|];
    assert store.requests == prior + [completed];
  }

  /** The tenant rejects with a reason; the manager's report survives. */
  method RejectWithReason(store: Store, prior: seq<MaintenanceRequest>, completed: MaintenanceRequest)
    returns (rejected: MaintenanceRequest)
    requires store.Valid()
    requires completed.status == Completed && Absent(prior, completed.id)
    requires store.requests == prior + [completed]
    modifies store
    ensures store.Valid()
    ensures rejected == completed.(status := Rejected, rejectionReason := Some("Still leaking"),
      reviewedAt := Some("t5"))
    ensures store.requests == prior + [rejected]
  {
    FoundLast(prior, completed);
    assert !IsWhitespace("Still leaking"[0]);
    var verdict, list, closed := store.RejectWork([], completed.id, "Still leaking", "t5");
    rejected := store.requests[|prior|];
    assert store.requests == prior + [rejected];
  }

  /** A rejected record with an assignee, the manager's report and the
      tenant's reason satisfies the record invariant. */
  lemma StoryEndsWellFormed(r: MaintenanceRequest)
    requires r.status == Rejected && r.assignedTo.Some?
    requires r.completionReport == Some("Fixed washer") && r.rejectionReason == Some("Still leaking")
    ensures WellFormed(r)
  {
    assert !IsWhitespace("Fixed washer"[0]) && !IsWhitespace("Still leaking"[0]);
  }

  /** The whole story on a fresh browser: the seeded tenant's leak is
      assigned by the seeded admin to the seeded manager, worked on, has a
      blank report refused, is completed with one photo and is rejected.
      The record ends terminal, with the reason, the report, the photo key
      and every earlier lifecycle field, and the invariant holds. */
  method LeakStory() returns (final: MaintenanceRequest)
    ensures final.id == LeakId && final.tenantId == "1" && final.status == Rejected
    ensures final.assignedTo == Some("3") && final.assignedBy == Some("2")
    ensures final.completionReport == Some("Fixed washer") &&
            final.completionImages == Some([ImageKey(WasherUpload)])
    ensures final.rejectionReason == Some("Still leaking")
    ensures WellFormed(final) && Terminal(final.status)
  {
    var store, admin, tenant, manager := FreshStartup();
    var prior := store.GetRequests();
    var submitted := FileLeakRequest(store, tenant);
    var handedOver := AssignLeakRequest(store, admin, manager, prior, submitted);
    var started := StartLeakRequest(store, prior, handedOver);
    var refused := RefuseBlankReport(store, prior, started);
    var completed := CompleteWithPhoto(store, prior, started);
    final := RejectWithReason(store, prior, completed);
    StoryEndsWellFormed(final);
  }

  /** A batch of three photos, one of them over 10 MiB: two are kept, in
      order, and the user is warned. */
  lemma OversizeFileDropped()
    ensures var big := ImageFile("big.png", "image/png", MaxImageBytes + 1, "data:b");
      var s := SelectImages([], [Washer, big, Sink]);
      s.files == [Washer, Sink] && s.warned
  {
    var big := ImageFile("big.png", "image/png", MaxImageBytes + 1, "data:b");
    assert Sink.mimeType == AcceptedTypes[2];
    assert Accepted(Washer) && !Accepted(big) && Accepted(Sink);
    assert [Washer, big, Sink] == [Washer] + ([big] + [Sink]);
    Seqs.FilterAppend([big], [Sink], Accepted);
    Seqs.FilterAppend([Washer], [big] + [Sink], Accepted);
    Seqs.FilterSingleton(Washer, Accepted);
    Seqs.FilterSingleton(big, Accepted);
    Seqs.FilterSingleton(Sink, Accepted);
  }

}
