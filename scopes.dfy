/**
 * The class-level query scopes of `Opportunity`, read as filters over the rows
 * of the table. Each scope's body states its SQL condition on the columns; its
 * contract ties that condition to the instance predicate of the same name.
 */
module OpportunityScopes {
  import opened Wrappers
  import opened Seqs
  import opened Opportunities

  /** `n.hours` in the seconds the timestamps count. */
  const SecondsPerHour := 3600

  /** `not_approved`: `approved_at IS NULL`. */
  function NotApprovedScope(s: seq<Opportunity>): (r: seq<Opportunity>)
    ensures forall o :: o in r <==> o in s && !Approved(o)
  {
    Where(s, (o: Opportunity) => o.approvedAt.None?)
  }

  /** `approved`: `approved_at IS NOT NULL`. */
  function ApprovedScope(s: seq<Opportunity>): (r: seq<Opportunity>)
    ensures forall o :: o in r <==> o in s && Approved(o)
  {
    Where(s, (o: Opportunity) => o.approvedAt.Some?)
  }

  /** `published`: `publish_at IS NULL OR publish_at < now`. */
  function PublishedScope(s: seq<Opportunity>, now: int): (r: seq<Opportunity>)
    ensures forall o :: o in r <==> o in s && Published(o, now)
  {
    Where(s, (o: Opportunity) => o.publishAt.None? || o.publishAt.value < now)
  }

  /**
   * `not_published`: `publish_at IS NOT NULL AND publish_at > now`. It is not
   * the complement of `published`: a publish date equal to `now` is in neither.
   */
  function NotPublishedScope(s: seq<Opportunity>, now: int): (r: seq<Opportunity>)
    ensures forall o :: o in r <==> o in s && !Published(o, now) && o.publishAt != Some(now)
  {
    Where(s, (o: Opportunity) => o.publishAt.Some? && o.publishAt.value > now)
  }

  lemma PublishScopesSplitAtNow(s: seq<Opportunity>, o: Opportunity, now: int)
    requires o in s
    ensures o.publishAt == Some(now) ==> o !in PublishedScope(s, now) && o !in NotPublishedScope(s, now)
    ensures o.publishAt != Some(now) ==> (o in PublishedScope(s, now) <==> o !in NotPublishedScope(s, now))
  {
  }

  /** `posted`: `approved.published`, the same rows in the same order as filtering by `posted?`. */
  function PostedScope(s: seq<Opportunity>, now: int): (r: seq<Opportunity>)
    ensures r == Where(s, (o: Opportunity) => Posted(o, now))
  {
    WhereWhere(s, (o: Opportunity) => o.approvedAt.Some?, (o: Opportunity) => o.publishAt.None? || o.publishAt.value < now,
               (o: Opportunity) => Posted(o, now));
    PublishedScope(ApprovedScope(s), now)
  }

  /**
   * `submissions_open`: `submissions_close_at IS NULL OR submissions_close_at > now`.
   * It looks only at the closing time: everything open for submissions is in it,
   * but so is a row whose submissions have not opened yet.
   */
  function SubmissionsOpenScope(s: seq<Opportunity>, now: int): (r: seq<Opportunity>)
    ensures forall o :: o in r <==> o in s && OpenForSubmissions(o.(submissionsOpenAt := None), now)
    ensures forall o :: o in s && OpenForSubmissions(o, now) ==> o in r
  {
    Where(s, (o: Opportunity) => o.submissionsCloseAt.None? || o.submissionsCloseAt.value > now)
  }

  /** A row whose submissions open in the future is in `submissions_open` all the same. */
  lemma SubmissionsOpenScopeIgnoresOpeningTime(now: int)
    ensures var o := New(0).(submissionsOpenAt := Some(now + 1));
      o in SubmissionsOpenScope([o], now) && !OpenForSubmissions(o, now)
  {
  }

  /** `submissions_closed`: `submissions_close_at IS NOT NULL AND submissions_close_at < now`. */
  function SubmissionsClosedScope(s: seq<Opportunity>, now: int): (r: seq<Opportunity>)
    ensures forall o :: o in r <==> o in s && o.submissionsCloseAt.Some? && o.submissionsCloseAt.value < now
    ensures forall o :: o in r ==> o in s && !OpenForSubmissions(o, now)
    ensures forall o :: o in r ==> o !in SubmissionsOpenScope(s, now)
    ensures forall o :: o in s && o.submissionsCloseAt == Some(now) ==>
      o !in r && o !in SubmissionsOpenScope(s, now)
  {
    Where(s, (o: Opportunity) => o.submissionsCloseAt.Some? && o.submissionsCloseAt.value < now)
  }

  /**
   * `with_any_category(ids)`: rows linked to at least one of the ids. An empty
   * list matches nothing (`IN ()` holds of no row).
   */
  function WithAnyCategory(s: seq<Opportunity>, ids: seq<int>): (r: seq<Opportunity>)
    ensures forall o :: o in r <==> o in s && o.categoryIds * (set c | c in ids) != {}
    ensures ids == [] ==> r == []
  {
    forall o: Opportunity | o in s {
      SharesCategory(o.categoryIds, ids);
    }
    var r := Where(s, (o: Opportunity) => exists c :: c in ids && c in o.categoryIds);
    assert r != [] ==> r[0] in r;
    r
  }

  lemma SharesCategory(cats: set<int>, ids: seq<int>)
    ensures cats * (set c | c in ids) != {} <==> exists c :: c in ids && c in cats
  {
    var shared := cats * (set c | c in ids);
    if c :| c in ids && c in cats {
      assert c in shared;
    }
    if !exists c :: c in ids && c in cats {
      assert shared == {};
    }
  }

  /** What a question-deadline reminder asks of a posted row besides being posted. */
  predicate QuestionReminderDue(o: Opportunity, now: int, leadHours: int) {
    o.enableQuestions && !o.questionReminderSent
    && o.questionsCloseAt.Some? && o.questionsCloseAt.value < now + leadHours * SecondsPerHour
  }

  /** What a submission-deadline reminder asks of a posted row besides being posted. */
  predicate SubmissionReminderDue(o: Opportunity, now: int, leadHours: int) {
    !o.submissionReminderSent
    && o.submissionsCloseAt.Some? && o.submissionsCloseAt.value < now + leadHours * SecondsPerHour
  }

  /** `needs_question_deadline_reminders`, with the configured lead time as a parameter. */
  function NeedsQuestionDeadlineReminders(s: seq<Opportunity>, now: int, leadHours: int): (r: seq<Opportunity>)
    ensures forall o :: o in r <==>
      o in s && Posted(o, now) && o.enableQuestions && !o.questionReminderSent
      && o.questionsCloseAt.Some? && o.questionsCloseAt.value < now + leadHours * SecondsPerHour
  {
    Where(PostedScope(s, now), (o: Opportunity) => QuestionReminderDue(o, now, leadHours))
  }

  /** `needs_submission_deadline_reminders`, with the configured lead time as a parameter. */
  function NeedsSubmissionDeadlineReminders(s: seq<Opportunity>, now: int, leadHours: int): (r: seq<Opportunity>)
    ensures forall o :: o in r <==>
      o in s && Posted(o, now) && !o.submissionReminderSent
      && o.submissionsCloseAt.Some? && o.submissionsCloseAt.value < now + leadHours * SecondsPerHour
  {
    Where(PostedScope(s, now), (o: Opportunity) => SubmissionReminderDue(o, now, leadHours))
  }

  /** A longer lead time selects every row a shorter one does, duplicates included. */
  lemma ReminderLeadMonotone(s: seq<Opportunity>, now: int, shorter: int, longer: int)
    requires shorter <= longer
    ensures multiset(NeedsQuestionDeadlineReminders(s, now, shorter))
         <= multiset(NeedsQuestionDeadlineReminders(s, now, longer))
    ensures multiset(NeedsSubmissionDeadlineReminders(s, now, shorter))
         <= multiset(NeedsSubmissionDeadlineReminders(s, now, longer))
  {
    assert shorter * SecondsPerHour <= longer * SecondsPerHour;
    WhereMonotone(PostedScope(s, now), (o: Opportunity) => QuestionReminderDue(o, now, shorter),
                  (o: Opportunity) => QuestionReminderDue(o, now, longer));
    WhereMonotone(PostedScope(s, now), (o: Opportunity) => SubmissionReminderDue(o, now, shorter),
                  (o: Opportunity) => SubmissionReminderDue(o, now, longer));
  }
}
