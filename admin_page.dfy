/** The admin console: the status filter, the four stat cards, which review
    actions are offered and when they may be sent, the state after an action
    and the status badge. */
module AdminPage {
  import opened Common
  import opened StatusPage

  /** What the console shows of an application. */
  datatype Listed = Listed(id: Id, status: string, brandName: string)

  // ---------------------------------------------------------------------
  // filter and stat cards

  /** `filteredApplications` for filter value `filter`. */
  function Filtered(apps: seq<Listed>, filter: string): (r: seq<Listed>)
    ensures forall k :: 0 <= k < |r| ==> r[k] in apps && (filter == "all" || r[k].status == filter)
    ensures forall k :: 0 <= k < |apps| && (filter == "all" || apps[k].status == filter) ==> apps[k] in r
  {
    Filter((a: Listed) => filter == "all" || a.status == filter, apps)
  }

  /** The filter value 'all' lists every application, in order. */
  lemma FilterAllListsEverything(apps: seq<Listed>)
    ensures Filtered(apps, "all") == apps
  {
    FilterKeepsAll((a: Listed) => "all" == "all" || a.status == "all", apps);
  }

  /** `a.status === 'submitted' || a.status === 'in_review'`. */
  predicate AwaitingReview(a: Listed) { a.status == Submitted || a.status == InReview }
  predicate IsApproved(a: Listed) { a.status == Approved }
  predicate NeedsInfo(a: Listed) { a.status == NeedsClarification }

  /** The three status cards besides the total. */
  function PendingReviewCount(apps: seq<Listed>): (n: nat)
    ensures n <= |apps|
  {
    |Filter(AwaitingReview, apps)|
  }

  function ApprovedCount(apps: seq<Listed>): (n: nat)
    ensures n <= |apps|
  {
    |Filter(IsApproved, apps)|
  }

  function ClarificationCount(apps: seq<Listed>): (n: nat)
    ensures n <= |apps|
  {
    |Filter(NeedsInfo, apps)|
  }

  /** 'Pending Review' counts what the 'Submitted' and 'In Review' filters
      list together; 'Approved' and 'Needs Clarification' count what their
      own filter lists. */
  lemma {:induction false} CardsMatchFilters(apps: seq<Listed>)
    ensures PendingReviewCount(apps) == |Filtered(apps, Submitted)| + |Filtered(apps, InReview)|
    ensures ApprovedCount(apps) == |Filtered(apps, Approved)|
    ensures ClarificationCount(apps) == |Filtered(apps, NeedsClarification)|
  {
    if apps != [] {
      var a, t := apps[0], apps[1..];
      CardsMatchFilters(t);
      assert Filter(AwaitingReview, apps) == (if AwaitingReview(a) then [a] else []) + Filter(AwaitingReview, t);
      assert Filter(IsApproved, apps) == (if IsApproved(a) then [a] else []) + Filter(IsApproved, t);
      assert Filter(NeedsInfo, apps) == (if NeedsInfo(a) then [a] else []) + Filter(NeedsInfo, t);
      assert Filtered(apps, Submitted) == (if a.status == Submitted then [a] else []) + Filtered(t, Submitted);
      assert Filtered(apps, InReview) == (if a.status == InReview then [a] else []) + Filtered(t, InReview);
      assert Filtered(apps, Approved) == (if a.status == Approved then [a] else []) + Filtered(t, Approved);
      assert Filtered(apps, NeedsClarification) == (if a.status == NeedsClarification then [a] else []) + Filtered(t, NeedsClarification);
    }
  }

  /** The three status cards count disjoint groups, so together they never
      exceed the total. */
  lemma {:induction false} CardsWithinTotal(apps: seq<Listed>)
    ensures PendingReviewCount(apps) + ApprovedCount(apps) + ClarificationCount(apps) <= |apps|
  {
    if apps != [] {
      var a, t := apps[0], apps[1..];
      CardsWithinTotal(t);
      assert Filter(AwaitingReview, apps) == (if AwaitingReview(a) then [a] else []) + Filter(AwaitingReview, t);
      assert Filter(IsApproved, apps) == (if IsApproved(a) then [a] else []) + Filter(IsApproved, t);
      assert Filter(NeedsInfo, apps) == (if NeedsInfo(a) then [a] else []) + Filter(NeedsInfo, t);
    }
  }

  // ---------------------------------------------------------------------
  // review actions

  datatype Action = Approve | Reject | Clarify

  /** Approve, Request Info and Reject are offered only before a decision. */
  predicate ActionsOffered(status: string) {
    status != Approved && status != Rejected
  }

  /** The applications the Pending Review and Needs Clarification cards
      count, and those whose clarification came back, carry the review
      actions; approved and rejected ones carry none. */
  lemma ActionsOfferedBeforeDecision(a: Listed)
    ensures AwaitingReview(a) || NeedsInfo(a) || a.status == ClarificationSubmitted ==> ActionsOffered(a.status)
    ensures IsApproved(a) || a.status == Rejected ==> !ActionsOffered(a.status)
  {
  }

  /** Whether the dialog's send button is enabled: approving needs no
      message; rejecting and asking for clarification need a message that
      is not blank; nothing is sent while a request is in flight. */
  function CanSend(action: Action, message: string, actionLoading: bool): (ok: bool)
    ensures ok ==> !actionLoading
    ensures action == Approve ==> (ok <==> !actionLoading)
    ensures action != Approve ==> (ok <==> !actionLoading && !AllSpace(message))
  {
    match action
    case Approve => !actionLoading
    case _ => !actionLoading && Trim(message) != ""
  }

  /** The request `handleAction` sends. */
  datatype ActionRequest = ActionRequest(applicationId: Id, action: Action, message: string)

  /** The console's dialog state. */
  class AdminConsole {
    var applications: seq<Listed>
    var filterStatus: string
    var selected: Option<Listed>
    var actionType: Option<Action>
    var actionMessage: string
    var actionLoading: bool

    constructor ()
      ensures applications == [] && filterStatus == "all"
      ensures selected.None? && actionType.None? && actionMessage == "" && !actionLoading
    {
      applications := [];
      filterStatus := "all";
      selected := None;
      actionType := None;
      actionMessage := "";
      actionLoading := false;
    }

    /** `fetchApplications`, given the answer (`None` when the request was
        not ok): an ok answer replaces the list, a failed one keeps it. */
    method FetchApplications(answer: Option<seq<Listed>>)
      modifies this
      ensures applications == if answer.Some? then answer.value else old(applications)
      ensures filterStatus == old(filterStatus) && selected == old(selected) && actionType == old(actionType)
      ensures actionMessage == old(actionMessage) && actionLoading == old(actionLoading)
    {
      if answer.Some? {
        applications := answer.value;
      }
    }

    /** Pressing Approve, Request Info or Reject on a row: the row and the
        action are selected and the message starts empty. */
    method OpenAction(app: Listed, action: Action)
      requires ActionsOffered(app.status)
      modifies this
      ensures selected == Some(app) && actionType == Some(action) && actionMessage == ""
      ensures applications == old(applications) && filterStatus == old(filterStatus)
      ensures actionLoading == old(actionLoading)
    {
      selected := Some(app);
      actionType := Some(action);
      actionMessage := "";
    }

    /** `handleAction`, given whether the server answered ok: with no row or
        no action selected nothing is sent and nothing changes; otherwise the
        request names the row, the action and the message, and a success
        clears the selection, the action and the message. */
    method HandleAction(ok: bool) returns (sent: Option<ActionRequest>)
      modifies this
      ensures old(selected).None? || old(actionType).None? ==>
        sent.None? && selected == old(selected) && actionType == old(actionType)
        && actionMessage == old(actionMessage) && actionLoading == old(actionLoading)
      ensures old(selected).Some? && old(actionType).Some? ==>
        && sent == Some(ActionRequest(old(selected).value.id, old(actionType).value, old(actionMessage)))
        && !actionLoading
        && (ok ==> selected.None? && actionType.None? && actionMessage == "")
        && (!ok ==> selected == old(selected) && actionType == old(actionType) && actionMessage == old(actionMessage))
      ensures applications == old(applications) && filterStatus == old(filterStatus)
    {
      if selected.None? || actionType.None? {
        return None;
      }
      actionLoading := true;
      sent := Some(ActionRequest(selected.value.id, actionType.value, actionMessage));
      if ok {
        selected := None;
        actionType := None;
        actionMessage := "";
      }
      actionLoading := false;
    }
  }

  // ---------------------------------------------------------------------
  // status badge

  datatype Variant = SecondaryBadge | DefaultBadge | DestructiveBadge

  datatype Badge = Badge(caption: string, variant: Variant)

  /** `StatusBadge`'s configuration table; a status outside the six has no
      entry. */
  function BadgeFor(status: string): (b: Option<Badge>)
    ensures b.Some? <==> KnownStatus(status)
    ensures b.Some? ==> (b.value.variant == DestructiveBadge <==> status == NeedsClarification || status == Rejected)
    ensures b.Some? ==> (b.value.variant == DefaultBadge <==> status == InReview || status == Approved)
  {
    if status == Submitted then Some(Badge("Submitted", SecondaryBadge))
    else if status == InReview then Some(Badge("In Review", DefaultBadge))
    else if status == NeedsClarification then Some(Badge("Needs Clarification", DestructiveBadge))
    else if status == ClarificationSubmitted then Some(Badge("Clarification Submitted", SecondaryBadge))
    else if status == Approved then Some(Badge("Approved", DefaultBadge))
    else if status == Rejected then Some(Badge("Rejected", DestructiveBadge))
    else None
  }
}
