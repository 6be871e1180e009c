/**
 * `OpportunitiesController`: the listing parameters, the pending lists, the
 * approve and subscribe toggles, the approval request with its fan-out of
 * mails, and the edit-step wizard. Each request acts on the controller's
 * `params`, the loaded record and the current user; the mails it queues are
 * kept in an outbox.
 */
module OpportunitiesController {
  import opened Wrappers
  import opened Text
  import opened Params
  import opened Seqs
  import opened Opportunities
  import opened OpportunityScopes
  import opened OpportunitiesHelper
  import opened SubmissionAdapters

  // ---------------------------------------------------------------------------
  // Listing parameters

  predicate NotBlank(s: string) {
    !Blank(s)
  }

  /** `reject!(&:blank?)` on the selected category ids. */
  function NonBlank(items: seq<string>): seq<string> {
    Where(items, NotBlank)
  }

  /**
   * `category_ids.reject!(&:blank?)` in place: the kept ids move to the front
   * of the array, in order, and `n` is the array's new length.
   */
  method RejectBlankInPlace(a: array<string>) returns (n: nat)
    modifies a
    ensures n <= a.Length
    ensures a[..n] == NonBlank(old(a[..]))
  {
    ghost var items := a[..];
    n := 0;
    var i := 0;
    while i < a.Length
      invariant n <= i <= a.Length
      invariant a[..n] == NonBlank(items[..i])
      invariant forall j :: i <= j < a.Length ==> a[j] == items[j]
    {
      var x := a[i];
      NonBlankSnoc(items, i);
      if !Blank(x) {
        a[n] := x;
        assert a[..n + 1] == a[..n] + [x];
        n := n + 1;
      }
      i := i + 1;
    }
    assert items[..a.Length] == items;
  }

  lemma NonBlankSnoc(items: seq<string>, i: nat)
    requires i < |items|
    ensures NonBlank(items[..i + 1]) == NonBlank(items[..i]) + if Blank(items[i]) then [] else [items[i]]
  {
    assert items[..i + 1] == items[..i] + [items[i]];
    WhereAppend(items[..i], [items[i]], NotBlank);
  }

  /**
   * `params.merge(params[:opportunity_filters] || {})`: the nested filters
   * override top-level keys. Merging a value that is not a hash raises (None).
   */
  function MergeFilters(params: map<string, Value>): (r: Option<map<string, Value>>)
    ensures "opportunity_filters" !in params ==> r == Some(params)
    ensures r.Some? && "opportunity_filters" in params ==> params["opportunity_filters"].Hash?
    ensures r.Some? && "opportunity_filters" in params ==>
      var filters := params["opportunity_filters"].entries;
      (forall k :: k in r.value <==> k in params || k in filters)
      && (forall k :: k in filters ==> r.value[k] == filters[k])
      && (forall k :: k in params && k !in filters ==> r.value[k] == params[k])
    ensures r.None? <==> "opportunity_filters" in params && !params["opportunity_filters"].Hash?
  {
    if "opportunity_filters" !in params then Some(params)
    else match params["opportunity_filters"]
      case Hash(filters) => Some(params + filters)
      case _ => None
  }

  /**
   * `opportunity_filter_params`: the merged parameters with the blank entries
   * taken out of `category_ids`. A `category_ids` that is not an array has no
   * `reject!` and raises (None).
   */
  function OpportunityFilterParams(params: map<string, Value>): (r: Option<map<string, Value>>)
    ensures r.Some? <==> (MergeFilters(params).Some?
      && ("category_ids" in MergeFilters(params).value ==> MergeFilters(params).value["category_ids"].List?))
    ensures r.Some? ==> MergeFilters(params).Some?
    ensures r.Some? ==> r.value.Keys == MergeFilters(params).value.Keys
    ensures r.Some? ==> forall k :: k in r.value && k != "category_ids" ==> r.value[k] == MergeFilters(params).value[k]
    ensures r.Some? && "category_ids" in r.value ==>
      MergeFilters(params).value["category_ids"].List? &&
      var before := MergeFilters(params).value["category_ids"].items;
      r.value["category_ids"] == List(NonBlank(before))
      && forall x :: x in NonBlank(before) <==> x in before && !Blank(x)
    ensures MergeFilters(params).Some? && "category_ids" !in MergeFilters(params).value ==> r == MergeFilters(params)
  {
    match MergeFilters(params)
    case None => None
    case Some(merged) =>
      if "category_ids" !in merged then Some(merged)
      else match merged["category_ids"]
        case List(items) => Some(merged["category_ids" := List(NonBlank(items))])
        case _ => None
  }

  /** Cleaning twice leaves the ids as cleaning once did. */
  lemma NonBlankIdempotent(items: seq<string>)
    ensures NonBlank(NonBlank(items)) == NonBlank(items)
  {
    var kept := NonBlank(items);
    WhereAll(kept, NotBlank);
  }

  /** `feed`: the index parameters with `sort` and `direction` forced to most recently updated first. */
  function FeedFilterParams(params: map<string, Value>): (r: Option<map<string, Value>>)
    ensures r.Some? <==> OpportunityFilterParams(params).Some?
    ensures r.Some? ==> r.value.Keys == OpportunityFilterParams(params).value.Keys + {"sort", "direction"}
    ensures r.Some? ==> "sort" in r.value && r.value["sort"] == Str("updated_at")
    ensures r.Some? ==> "direction" in r.value && r.value["direction"] == Str("desc")
    ensures r.Some? ==> forall k :: k in OpportunityFilterParams(params).value && k != "sort" && k != "direction" ==>
      k in r.value && r.value[k] == OpportunityFilterParams(params).value[k]
  {
    match OpportunityFilterParams(params)
    case None => None
    case Some(p) => Some(p["sort" := Str("updated_at")]["direction" := Str("desc")])
  }

  // ---------------------------------------------------------------------------
  // Pending lists

  /** `@pending_approval_opportunities`: every record not approved. */
  function PendingApprovalList(s: seq<Opportunity>): (r: seq<Opportunity>)
    ensures forall o :: o in r <==> o in s && !Approved(o)
  {
    NotApprovedScope(s)
  }

  /** `@pending_publish_opportunities`: approved records whose publish date is still ahead. */
  function PendingPublishList(s: seq<Opportunity>, now: int): (r: seq<Opportunity>)
    ensures forall o :: o in r <==> o in s && Approved(o) && o.publishAt.Some? && o.publishAt.value > now
    ensures forall o :: o in r ==> Status(o, now) == NotPublished
  {
    ApprovedScope(NotPublishedScope(s, now))
  }

  // ---------------------------------------------------------------------------
  // Approve toggle

  /** The record after the `approve` action: approved records are unapproved and the others approved at `now`. */
  function ToggleApproval(o: Opportunity, now: int): (r: Opportunity)
    ensures Approved(r) <==> !Approved(o)
    ensures Approved(r) ==> r.approvedAt == Some(now)
    ensures r.(approvedAt := o.approvedAt) == o
  {
    if Approved(o) then o.(approvedAt := None) else o.(approvedAt := Some(now))
  }

  /** Two `approve` requests restore `approved?`; an unapproved record comes back unchanged. */
  lemma ToggleApprovalTwice(o: Opportunity, first: int, second: int)
    ensures Approved(ToggleApproval(ToggleApproval(o, first), second)) == Approved(o)
    ensures !Approved(o) ==> ToggleApproval(ToggleApproval(o, first), second) == o
  {
  }

  // ---------------------------------------------------------------------------
  // Approval requests

  datatype ApprovalRequest = ApprovalRequest(recipient: UserInfo, opportunityId: int)

  /** One `Mailer.approval_request` per approver or admin, in the order they are listed. */
  function ApprovalRequests(approvers: seq<UserInfo>, opportunityId: int): (r: seq<ApprovalRequest>)
    ensures |r| == |approvers|
    ensures forall i :: 0 <= i < |r| ==> r[i].recipient == approvers[i]
    ensures forall q :: q in r ==> q.recipient in approvers && q.opportunityId == opportunityId
    ensures forall u :: u in approvers ==> ApprovalRequest(u, opportunityId) in r
  {
    seq(|approvers|, i requires 0 <= i < |approvers| => ApprovalRequest(approvers[i], opportunityId))
  }

  /** With distinct approvers, each receives exactly one request and nobody else receives any. */
  lemma {:induction false} OneRequestPerApprover(approvers: seq<UserInfo>, opportunityId: int)
    requires forall i, j :: 0 <= i < j < |approvers| ==> approvers[i] != approvers[j]
    ensures forall u :: u in approvers ==> multiset(ApprovalRequests(approvers, opportunityId))[ApprovalRequest(u, opportunityId)] == 1
    ensures forall q :: q in ApprovalRequests(approvers, opportunityId) ==> q.recipient in approvers && q.opportunityId == opportunityId
  {
    var r := ApprovalRequests(approvers, opportunityId);
    if approvers != [] {
      var rest := approvers[1..];
      OneRequestPerApprover(rest, opportunityId);
      assert r == [r[0]] + ApprovalRequests(rest, opportunityId);
      assert approvers[0] !in rest by {
        forall j | 0 <= j < |rest| ensures rest[j] != approvers[0] {
          assert rest[j] == approvers[j + 1];
        }
      }
      forall u | u in approvers
        ensures multiset(r)[ApprovalRequest(u, opportunityId)] == 1
      {
        if u != approvers[0] {
          assert u in rest;
        }
      }
    }
  }

  // ---------------------------------------------------------------------------
  // Subscriptions

  /** The user's subscription list after `subscribe`: removed when present, appended otherwise. */
  function ToggleSubscription(subscriptions: seq<int>, id: int): (r: seq<int>)
    ensures id in r <==> id !in subscriptions
    ensures forall other :: other != id ==> multiset(r)[other] == multiset(subscriptions)[other]
  {
    if id in subscriptions then
      var keep := (x: int) => x != id;
      assert forall other :: multiset(Where(subscriptions, keep))[other] == if other != id then multiset(subscriptions)[other] else 0 by {
        forall other ensures multiset(Where(subscriptions, keep))[other] == if other != id then multiset(subscriptions)[other] else 0 {
          WhereCount(subscriptions, keep, other);
        }
      }
      Where(subscriptions, keep)
    else
      subscriptions + [id]
  }

  /** Subscribing and then unsubscribing gives back the list as it was. */
  lemma ToggleSubscriptionTwice(subscriptions: seq<int>, id: int)
    requires id !in subscriptions
    ensures ToggleSubscription(ToggleSubscription(subscriptions, id), id) == subscriptions
  {
    var keep := (x: int) => x != id;
    WhereAppend(subscriptions, [id], keep);
    WhereAll(subscriptions, keep);
  }

  // ---------------------------------------------------------------------------
  // Edit wizard

  /** `edit`: a step outside the list (or none) becomes the first step. */
  function DefaultStep(step: Option<string>): (r: string)
    ensures r in EditOpportunitySteps()
    ensures step.Some? && step.value in EditOpportunitySteps() ==> r == step.value
    ensures (step.None? || step.value !in EditOpportunitySteps()) ==> r == "title"
  {
    if step.Some? && step.value in EditOpportunitySteps() then step.value else EditOpportunitySteps()[0]
  }

  /** `Array#index`: the first position holding `x`. */
  function IndexOf(s: seq<string>, x: string): (r: Option<nat>)
    ensures r.None? <==> x !in s
    ensures r.Some? ==> r.value < |s| && s[r.value] == x && forall j :: 0 <= j < r.value ==> s[j] != x
  {
    if s == [] then None
    else if s[0] == x then Some(0)
    else match IndexOf(s[1..], x)
      case None => None
      case Some(i) => Some(i + 1)
  }

  /**
   * `next_step`. An unknown step has no index and `nil + 1` raises
   * (NoStepIndex); the last step has no successor.
   */
  datatype NextStepResult = Successor(step: string) | NoSuccessor | NoStepIndex

  function NextStep(step: Option<string>): (r: NextStepResult)
    ensures r == NoStepIndex <==> step.None? || step.value !in EditOpportunitySteps()
    ensures r == NoSuccessor <==> step == Some("submissions")
    ensures r.Successor? ==>
      (exists i :: 0 <= i < |EditOpportunitySteps()| - 1
         && step == Some(EditOpportunitySteps()[i]) && r.step == EditOpportunitySteps()[i + 1])
  {
    var steps := EditOpportunitySteps();
    if step.None? then NoStepIndex
    else match IndexOf(steps, step.value)
      case None => NoStepIndex
      case Some(i) => if i + 1 < |steps| then Successor(steps[i + 1]) else NoSuccessor
  }

  /** What `update` answers. */
  datatype UpdateResponse = RenderEdit | RedirectBack | RedirectToStep(step: string) | RedirectToShow | StepError

  function UpdateResponseFor(saved: bool, rename: bool, step: Option<string>): (r: UpdateResponse)
    ensures !saved <==> r == RenderEdit
    ensures r == RedirectBack <==> saved && rename
    ensures r == RedirectToShow <==> saved && !rename && step == Some("submissions")
    ensures r.RedirectToStep? ==> r.step in EditOpportunitySteps() && r.step != "title"
    ensures saved && !rename && NextStep(step).Successor? ==> r == RedirectToStep(NextStep(step).step)
    ensures r == StepError <==> saved && !rename && NextStep(step) == NoStepIndex
  {
    if !saved then RenderEdit
    else if rename then RedirectBack
    else match NextStep(step)
      case Successor(next) => RedirectToStep(next)
      case NoSuccessor => RedirectToShow
      case NoStepIndex => StepError
  }

  // ---------------------------------------------------------------------------
  // State-changing actions

  /** The signed-in user and the opportunities they follow. */
  class User {
    const info: UserInfo
    var opportunities: seq<int>

    constructor (info: UserInfo, opportunities: seq<int>)
      ensures this.info == info && this.opportunities == opportunities
    {
      this.info := info;
      this.opportunities := opportunities;
    }
  }

  datatype RequestApprovalOutcome = Denied | Requested

  class Controller {
    /** `params[:step]`. */
    var step: Option<string>
    /** Mails handed to `deliver_later`. */
    var outbox: seq<ApprovalRequest>
    /** Whether `flash[:success]` was set. */
    var subscribedFlash: bool

    constructor (step: Option<string>)
      ensures this.step == step && outbox == [] && !subscribedFlash
    {
      this.step := step;
      outbox := [];
      subscribedFlash := false;
    }

    /** `edit`: an unknown step is replaced by the first one. */
    method Edit()
      modifies this`step
      ensures step == Some(DefaultStep(old(step)))
    {
      if !(step.Some? && step.value in EditOpportunitySteps()) {
        step := Some(EditOpportunitySteps()[0]);
      }
    }

    /**
     * `approve`: unapproves an approved record and approves any other. Both go
     * through `update`, which re-validates; `saved` is its result, which the
     * action ignores (it reports success either way).
     */
    method Approve(o: OpportunityRecord, now: int, classes: Classes) returns (saved: bool)
      modifies o
      ensures o.Value() == ToggleApproval(old(o.Value()), now)
      ensures o.errors == ValidationErrors(o.Value(), classes)
      ensures saved <==> o.errors == []
    {
      if Approved(o.Value()) {
        saved := o.Unapprove(classes);
      } else {
        saved := o.Approve(now, classes);
      }
    }

    /**
     * `request_approval`: denied, with nothing changed, when already submitted;
     * otherwise `submitted_at` is set (through `update`, which re-validates)
     * and each approver or admin is sent one request, whether or not that
     * save succeeded.
     */
    method RequestApproval(o: OpportunityRecord, approversAndAdmins: seq<UserInfo>, now: int, classes: Classes)
      returns (outcome: RequestApprovalOutcome)
      modifies o, this`outbox
      ensures old(SubmittedForApproval(o.Value())) ==>
        outcome == Denied && o.Value() == old(o.Value()) && o.errors == old(o.errors) && outbox == old(outbox)
      ensures !old(SubmittedForApproval(o.Value())) ==>
        outcome == Requested
        && o.Value() == old(o.Value()).(submittedAt := Some(now))
        && o.errors == ValidationErrors(o.Value(), classes)
        && outbox == old(outbox) + ApprovalRequests(approversAndAdmins, old(o.id))
    {
      if SubmittedForApproval(o.Value()) {
        return Denied;
      }
      var _ := o.SubmitForApproval(now, classes);
      var id := o.id;
      var i := 0;
      while i < |approversAndAdmins|
        invariant 0 <= i <= |approversAndAdmins|
        invariant outbox == old(outbox) + ApprovalRequests(approversAndAdmins, id)[..i]
        modifies this`outbox
      {
        outbox := outbox + [ApprovalRequest(approversAndAdmins[i], id)];
        i := i + 1;
      }
      outcome := Requested;
    }

    /** `subscribe`: toggles the record in the user's list; the success flash only when added. */
    method Subscribe(user: User, opportunityId: int)
      modifies user, this`subscribedFlash
      ensures user.opportunities == ToggleSubscription(old(user.opportunities), opportunityId)
      ensures subscribedFlash == (old(subscribedFlash) || opportunityId !in old(user.opportunities))
    {
      if opportunityId in user.opportunities {
        user.opportunities := Where(user.opportunities, (x: int) => x != opportunityId);
      } else {
        user.opportunities := user.opportunities + [opportunityId];
        subscribedFlash := true;
      }
    }
  }
}
