/** The maintenance-request state machine. `updateRequest` itself merges any
    update; the machine lives in the dashboards, where each action is a button
    that exists only in one status, some actions validate their input, and each
    writes its own fields. This module states that machine on values: the
    legal transitions, the actions with their guards, validation and updates,
    and the record invariant the actions keep. */
module Lifecycle {

  import opened Wrappers
  import opened Types
  import opened Text

  /** pending -> assigned -> in_progress -> completed -> approved | rejected. */
  predicate Transition(from: Status, to: Status)
  {
    (from == Pending && to == Assigned) ||
    (from == Assigned && to == InProgress) ||
    (from == InProgress && to == Completed) ||
    (from == Completed && (to == Approved || to == Rejected))
  }

  /** No button exists for these statuses; no transition leaves them. */
  predicate Terminal(s: Status)
  {
    s == Approved || s == Rejected
  }

  /** How far along the machine a status is. */
  function Rank(s: Status): nat
  {
    match s
    case Pending => 0
    case Assigned => 1
    case InProgress => 2
    case Completed => 3
    case Approved => 4
    case Rejected => 4
  }

  /** Every transition moves exactly one step forward, and the terminal
      statuses are exactly those no transition leaves. */
  lemma TransitionAdvances(s: Status, t: Status)
    ensures Transition(s, t) ==> Rank(t) == Rank(s) + 1
    ensures Terminal(s) <==> forall u: Status :: !Transition(s, u)
  {
    if !Terminal(s) {
      var u := match s
        case Pending => Assigned
        case Assigned => InProgress
        case InProgress => Completed
        case _ => Approved;
      assert Transition(s, u);
    }
  }

  /** A lifecycle text field that was entered: present and not blank after trim. */
  predicate Reported(field: Option<string>)
  {
    field.Some? && !IsBlank(field.value)
  }

  /** The record invariant the guarded actions keep: a request past pending
      has a manager, one past in_progress has a completion report, and a
      rejected one has a rejection reason. */
  predicate WellFormed(r: MaintenanceRequest)
  {
    (r.status != Pending ==> r.assignedTo.Some?) &&
    (r.status == Completed || r.status == Approved || r.status == Rejected ==>
      Reported(r.completionReport)) &&
    (r.status == Rejected ==> Reported(r.rejectionReason))
  }

  predicate AllWellFormed(rs: seq<MaintenanceRequest>)
  {
    forall i :: 0 <= i < |rs| ==> WellFormed(rs[i])
  }

  /** The five dashboard actions, with the inputs each one writes. */
  datatype Action =
    | Assign(managerId: string, adminId: string, assignedAt: string)
    | StartWork
    | Complete(completedAt: string, report: string, imageIds: seq<string>)
    | Approve(reviewedAt: string)
    | Reject(reason: string, reviewedAt: string)

  /** The only status in which the action's button is shown. */
  function Guard(a: Action): Status
  {
    match a
    case Assign(_, _, _) => Pending
    case StartWork => Assigned
    case Complete(_, _, _) => InProgress
    case Approve(_) => Completed
    case Reject(_, _) => Completed
  }

  /** The status the action writes. */
  function Target(a: Action): Status
  {
    match a
    case Assign(_, _, _) => Assigned
    case StartWork => InProgress
    case Complete(_, _, _) => Completed
    case Approve(_) => Approved
    case Reject(_, _) => Rejected
  }

  /** The handler's own input check: a report or reason that is blank after
      trim is refused; assigning, starting and approving check nothing. */
  predicate Admissible(a: Action)
  {
    match a
    case Complete(_, report, _) => !IsBlank(report)
    case Reject(reason, _) => !IsBlank(reason)
    case _ => true
  }

  /** The update object each handler passes to `updateRequest`. */
  function PatchOf(a: Action): Patch
  {
    match a
    case Assign(m, admin, at) =>
      NoChange.(status := Some(Assigned), assignedTo := Some(m), assignedBy := Some(admin),
                assignedAt := Some(at))
    case StartWork =>
      NoChange.(status := Some(InProgress))
    case Complete(at, report, ids) =>
      NoChange.(status := Some(Completed), completedAt := Some(at),
                completionReport := Some(report), completionImages := Some(ids))
    case Approve(at) =>
      NoChange.(status := Some(Approved), reviewedAt := Some(at))
    case Reject(reason, at) =>
      NoChange.(status := Some(Rejected), rejectionReason := Some(reason), reviewedAt := Some(at))
  }

  /** The controls the dashboards render on a request card. */
  datatype Control = AssignControl | StartWorkButton | CompleteWorkButton | ReviewButton

  /** Which controls a signed-in role sees on a request in status `s`: the
      admin's manager picker on pending requests, the manager's Start Work on
      assigned and Complete Work on in-progress ones, the tenant's review
      button on completed ones, and nothing anywhere else. */
  function Offered(role: Role, s: Status): set<Control>
  {
    match role
    case Admin => if s == Pending then {AssignControl} else {}
    case PropertyManager =>
      if s == Assigned then {StartWorkButton}
      else if s == InProgress then {CompleteWorkButton}
      else {}
    case Tenant => if s == Completed then {ReviewButton} else {}
  }

  /** The control through which an action is taken (approve and reject both
      sit in the review modal). */
  function ControlOf(a: Action): Control
  {
    match a
    case Assign(_, _, _) => AssignControl
    case StartWork => StartWorkButton
    case Complete(_, _, _) => CompleteWorkButton
    case Approve(_) => ReviewButton
    case Reject(_, _) => ReviewButton
  }

  /** The role whose dashboard holds the action's control. */
  function ActorOf(a: Action): Role
  {
    match a
    case Assign(_, _, _) => Admin
    case StartWork => PropertyManager
    case Complete(_, _, _) => PropertyManager
    case Approve(_) => Tenant
    case Reject(_, _) => Tenant
  }

  /** An action is reachable exactly when its control is rendered: by its
      own role, in its guard status; a terminal request shows no control to
      anyone, and every control shown leads to a legal transition. */
  lemma OfferedMatchesGuard(a: Action, role: Role, s: Status)
    ensures ControlOf(a) in Offered(role, s) <==> role == ActorOf(a) && s == Guard(a)
    ensures Terminal(s) ==> Offered(role, s) == {}
    ensures ControlOf(a) in Offered(role, s) ==> Transition(s, Target(a))
  {
  }

  /** The partial record written by `a`, applied to `r`. */
  function Apply(r: MaintenanceRequest, a: Action): MaintenanceRequest
  {
    Merge(r, PatchOf(a))
  }

  /** An admissible action in its guard status performs a legal transition,
      keeps the record invariant, and leaves the request's identity and the
      tenant's original report untouched. */
  lemma ActionFollowsMachine(r: MaintenanceRequest, a: Action)
    requires r.status == Guard(a) && Admissible(a)
    ensures Apply(r, a).status == Target(a)
    ensures Transition(r.status, Apply(r, a).status)
    ensures WellFormed(r) ==> WellFormed(Apply(r, a))
    ensures Apply(r, a).id == r.id && Apply(r, a).createdAt == r.createdAt
    ensures Apply(r, a).(status := r.status, assignedTo := r.assignedTo,
      assignedBy := r.assignedBy, assignedAt := r.assignedAt, completedAt := r.completedAt,
      completionReport := r.completionReport, completionImages := r.completionImages,
      reviewedAt := r.reviewedAt, rejectionReason := r.rejectionReason) == r
  {
  }

  /** The actions realise exactly the transition table: every legal transition
      is performed by some admissible action in its guard status, and every
      admissible action performs a legal one. */
  lemma TransitionsAreActions(s: Status, t: Status)
    ensures Transition(s, t) <==> exists a: Action :: Guard(a) == s && Target(a) == t && Admissible(a)
  {
    if Transition(s, t) {
      var a: Action := match s
        case Pending => Assign("", "", "")
        case Assigned => StartWork
        case InProgress => Complete("", "x", [])
        case _ => if t == Approved then Approve("") else Reject("x", "");
      assert !IsWhitespace("x"[0]);
      assert Guard(a) == s && Target(a) == t && Admissible(a);
    }
  }

  /** Replaying a sequence of button presses on one request: `None` as soon as
      a press is made in the wrong status or is refused by validation. */
  function Run(r: MaintenanceRequest, acts: seq<Action>): Option<MaintenanceRequest>
    decreases acts
  {
    if acts == [] then Some(r)
    else if r.status == Guard(acts[0]) && Admissible(acts[0]) then Run(Apply(r, acts[0]), acts[1..])
    else None
  }

  /** Any successful run moves the request one rank per action, so a request
      goes through at most four actions from pending and none at all once it
      is approved or rejected; the run keeps the record invariant and the id. */
  lemma {:induction false} RunAdvances(r: MaintenanceRequest, acts: seq<Action>)
    requires Run(r, acts).Some?
    ensures Rank(Run(r, acts).value.status) == Rank(r.status) + |acts|
    ensures |acts| <= 4 - Rank(r.status)
    ensures Run(r, acts).value.id == r.id
    ensures WellFormed(r) ==> WellFormed(Run(r, acts).value)
    decreases acts
  {
    if acts != [] {
      ActionFollowsMachine(r, acts[0]);
      TransitionAdvances(r.status, Apply(r, acts[0]).status);
      RunAdvances(Apply(r, acts[0]), acts[1..]);
    }
  }

  /** The change a guarded handler makes to the stored list: at most one
      record differs, it keeps its id, and its status took a legal transition. */
  predicate OneStep(before: seq<MaintenanceRequest>, after: seq<MaintenanceRequest>)
  {
    |before| == |after| &&
    (forall k :: 0 <= k < |before| && after[k] != before[k] ==>
      after[k].id == before[k].id && Transition(before[k].status, after[k].status)) &&
    (forall k, l ::
       0 <= k < |before| && 0 <= l < |before| && after[k] != before[k] && after[l] != before[l]
       ==> k == l)
  }

  /** Applying an admissible action at its guard status to one stored record
      is a single step of the machine and keeps every record well formed. */
  lemma StepAt(rs: seq<MaintenanceRequest>, i: nat, a: Action)
    requires i < |rs| && rs[i].status == Guard(a) && Admissible(a)
    ensures OneStep(rs, rs[i := Apply(rs[i], a)])
    ensures AllWellFormed(rs) ==> AllWellFormed(rs[i := Apply(rs[i], a)])
  {
    ActionFollowsMachine(rs[i], a);
  }

  /** Under single steps a terminal record never changes again. */
  lemma OneStepKeepsTerminal(before: seq<MaintenanceRequest>, after: seq<MaintenanceRequest>, k: nat)
    requires OneStep(before, after) && k < |before| && Terminal(before[k].status)
    ensures after[k] == before[k]
  {
  }

}
