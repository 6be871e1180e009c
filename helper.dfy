/** `OpportunitiesHelper`: presentation predicates and the fixed lists the views use. */
module OpportunitiesHelper {
  import opened Wrappers
  import opened Params
  import opened SubmissionAdapters
  import opened Opportunities

  /**
   * `filtered?` over the filterer's parameters: a search text, a status other
   * than `open` (a missing status counts as other), or a `category_id`.
   */
  predicate Filtered(params: map<string, Value>) {
    PresentValue(Get(params, "text"))
    || Get(params, "status") != Some(Str("open"))
    || PresentValue(Get(params, "category_id"))
  }

  /** The listing counts as unfiltered exactly for the default parameters. */
  lemma UnfilteredExactly(params: map<string, Value>)
    ensures !Filtered(params) <==>
      !PresentValue(Get(params, "text"))
      && "status" in params && params["status"] == Str("open")
      && !PresentValue(Get(params, "category_id"))
  {
  }

  /** The helper reads the singular `category_id`; the controller's `category_ids` plays no part. */
  lemma FilteredIgnoresCategoryIds(params: map<string, Value>, v: Value)
    ensures Filtered(params["category_ids" := v]) == Filtered(params)
  {
  }

  /** The text `opportunity_status_text` picks, with the publish date it interpolates. */
  datatype StatusText = NotApprovedText | PostedText | WaitingForPublishDate(publishAt: int)

  /** `opportunity_status_text`. */
  function OpportunityStatusText(o: Opportunity, now: int): (r: StatusText)
    ensures r == NotApprovedText <==> !Approved(o)
    ensures r == PostedText <==> Posted(o, now)
    ensures r.WaitingForPublishDate? <==> Approved(o) && !Published(o, now)
    ensures r.WaitingForPublishDate? ==> o.publishAt == Some(r.publishAt) && r.publishAt >= now
  {
    if Approved(o) then
      if Published(o, now) then PostedText else WaitingForPublishDate(o.publishAt.value)
    else
      NotApprovedText
  }

  /** The status text says `posted` exactly when `status_key` is `open` or `closed`. */
  lemma StatusTextAgreesWithStatusKey(o: Opportunity, now: int)
    ensures OpportunityStatusText(o, now) == PostedText <==> Status(o, now) in {Open, Closed}
    ensures OpportunityStatusText(o, now) == NotApprovedText <==> Status(o, now) in {PendingApproval, Draft}
    ensures OpportunityStatusText(o, now).WaitingForPublishDate? <==> Status(o, now) == NotPublished
  {
  }

  /** `edit_opportunity_steps`: four distinct steps in a fixed order. */
  function EditOpportunitySteps(): (r: seq<string>)
    ensures |r| == 4 && r[0] == "title" && r[|r| - 1] == "submissions"
    ensures forall i, j :: 0 <= i < j < |r| ==> r[i] != r[j]
  {
    ["title", "description", "questions", "submissions"]
  }

  /** `all_submission_adapters`: every adapter kind, each once, the `None` fallback included. */
  function AllSubmissionAdapters(): (r: seq<Kind>)
    ensures forall k: Kind :: k in r
    ensures forall i, j :: 0 <= i < j < |r| ==> r[i] != r[j]
  {
    var r := [NoneKind, ScreendoorKind, EmailKind];
    assert forall k: Kind :: k in r by {
      forall k: Kind ensures k in r {
        if k == NoneKind { assert r[0] == k; }
        else if k == ScreendoorKind { assert r[1] == k; }
        else { assert r[2] == k; }
      }
    }
    r
  }
}
