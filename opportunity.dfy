/**
 * The `Opportunity` record: its columns, the derived-status predicates computed
 * from them and a clock reading `now`, the submission-adapter resolution with
 * its fallback, the validations, the `before_create` defaults, and the three
 * transitions `approve!`, `unapprove!` and `submit_for_approval!`.
 *
 * Timestamps are integers (seconds); a nullable column is an Option.
 */
module Opportunities {
  import opened Wrappers
  import opened Text
  import opened SubmissionAdapters

  /** The attributes of a user that an opportunity copies on creation. */
  datatype UserInfo = UserInfo(id: int, name: Option<string>, email: Option<string>)

  /** One row of the `opportunities` table (the columns the lifecycle reads). */
  datatype Opportunity = Opportunity(
    id: int,
    title: Option<string>,
    creator: Option<UserInfo>,
    contactName: Option<string>,
    contactEmail: Option<string>,
    adapterName: Option<string>,
    adapterData: Data,
    publishAt: Option<int>,
    submissionsOpenAt: Option<int>,
    submissionsCloseAt: Option<int>,
    enableQuestions: bool,
    questionsOpenAt: Option<int>,
    questionsCloseAt: Option<int>,
    submittedAt: Option<int>,
    approvedAt: Option<int>,
    submissionReminderSent: bool,
    questionReminderSent: bool,
    categoryIds: set<int>)

  /** `Opportunity.new`: every nullable column nil, the boolean columns at their default `false`. */
  function New(id: int): Opportunity {
    Opportunity(id, None, None, None, None, None, map[], None, None, None, false,
                None, None, None, None, false, false, {})
  }

  // ---------------------------------------------------------------------------
  // Derived status

  predicate Approved(o: Opportunity) {
    o.approvedAt.Some?
  }

  /** Published when there is no publish date or it is strictly in the past. */
  predicate Published(o: Opportunity, now: int) {
    o.publishAt.None? || o.publishAt.value < now
  }

  predicate Posted(o: Opportunity, now: int) {
    Approved(o) && Published(o, now)
  }

  predicate SubmittedForApproval(o: Opportunity) {
    o.submittedAt.Some?
  }

  /** An absent bound is unbounded; both comparisons are strict. */
  predicate InWindow(openAt: Option<int>, closeAt: Option<int>, now: int) {
    (openAt.None? || openAt.value < now) && (closeAt.None? || closeAt.value > now)
  }

  predicate OpenForSubmissions(o: Opportunity, now: int) {
    InWindow(o.submissionsOpenAt, o.submissionsCloseAt, now)
  }

  predicate OpenForQuestions(o: Opportunity, now: int) {
    o.enableQuestions && InWindow(o.questionsOpenAt, o.questionsCloseAt, now)
  }

  /** A window is closed at its own opening and closing instants. */
  lemma WindowEdgesAreClosed(openAt: Option<int>, closeAt: Option<int>, now: int)
    ensures openAt == Some(now) ==> !InWindow(openAt, closeAt, now)
    ensures closeAt == Some(now) ==> !InWindow(openAt, closeAt, now)
    ensures openAt.None? && closeAt.None? ==> InWindow(openAt, closeAt, now)
  {
  }

  /** `posted_at`: the later of the publish and approval times, ignoring an absent one. */
  function PostedAt(o: Opportunity): (r: Option<int>)
    ensures r.None? <==> o.publishAt.None? && o.approvedAt.None?
    ensures r.Some? ==> r == o.publishAt || r == o.approvedAt
    ensures o.publishAt.Some? ==> r.Some? && o.publishAt.value <= r.value
    ensures o.approvedAt.Some? ==> r.Some? && o.approvedAt.value <= r.value
  {
    match (o.publishAt, o.approvedAt)
    case (None, None) => None
    case (Some(p), None) => Some(p)
    case (None, Some(a)) => Some(a)
    case (Some(p), Some(a)) => if p < a then Some(a) else Some(p)
  }

  /** The five values `status_key` returns. */
  datatype StatusKey = PendingApproval | Draft | NotPublished | Open | Closed

  /** `status_key`: the first matching branch of a five-way classification. */
  function Status(o: Opportunity, now: int): (r: StatusKey)
    ensures r == PendingApproval <==> !Approved(o) && SubmittedForApproval(o)
    ensures r == Draft <==> !Approved(o) && !SubmittedForApproval(o)
    ensures r == NotPublished <==> Approved(o) && !Published(o, now)
    ensures r == Open <==> Posted(o, now) && OpenForSubmissions(o, now)
    ensures r == Closed <==> Posted(o, now) && !OpenForSubmissions(o, now)
  {
    if !Approved(o) then
      if SubmittedForApproval(o) then PendingApproval else Draft
    else if !Posted(o, now) then NotPublished
    else if OpenForSubmissions(o, now) then Open
    else Closed
  }

  // ---------------------------------------------------------------------------
  // Submission adapter

  /**
   * `submission_adapter`: the class named by `submission_adapter_name`, built
   * over the adapter data; a blank name, a name that does not resolve, or a
   * constructor that raises all give the `None` adapter, and nothing raises.
   */
  function SubmissionAdapter(o: Opportunity, classes: Classes): (k: Kind)
    ensures k != NoneKind ==> o.adapterName == Some(KindName(k)) && !classes.raisesOnNew(k, o.adapterData)
    ensures !Present(o.adapterName) ==> k == NoneKind
    ensures Present(o.adapterName) && Lookup(o.adapterName.value).None? ==> k == NoneKind
    ensures Present(o.adapterName) && Lookup(o.adapterName.value).Some? ==>
      var named := Lookup(o.adapterName.value).value;
      k == if classes.raisesOnNew(named, o.adapterData) then NoneKind else named
  {
    if Present(o.adapterName) then
      match Lookup(o.adapterName.value)
      case Some(named) => if classes.raisesOnNew(named, o.adapterData) then NoneKind else named
      case None => NoneKind
    else
      NoneKind
  }

  // ---------------------------------------------------------------------------
  // Validations

  datatype ValidationError = TitleBlank | CreatorMissing | AdapterInvalid

  /** The errors `valid?` collects, in the order the validations are declared. */
  function ValidationErrors(o: Opportunity, classes: Classes): (r: seq<ValidationError>)
    ensures r == [] <==>
      Present(o.title) && o.creator.Some? && classes.valid(SubmissionAdapter(o, classes), o.adapterData)
    ensures TitleBlank in r <==> !Present(o.title)
    ensures CreatorMissing in r <==> o.creator.None?
    ensures AdapterInvalid in r <==> !classes.valid(SubmissionAdapter(o, classes), o.adapterData)
    ensures |r| <= 3
  {
    (if Present(o.title) then [] else [TitleBlank])
    + (if o.creator.Some? then [] else [CreatorMissing])
    + (if classes.valid(SubmissionAdapter(o, classes), o.adapterData) then [] else [AdapterInvalid])
  }

  // ---------------------------------------------------------------------------
  // before_create defaults

  /** The Email adapter's data built from the creating user. */
  function CreatorEmailData(u: UserInfo): Data {
    map["email" := u.email, "name" := u.name]
  }

  /**
   * `set_default_submission_adapter_params` then `set_default_contact_info`.
   * `||=` replaces only nil, so an empty string is kept.
   */
  function CreateDefaults(o: Opportunity): (r: Opportunity)
    requires o.creator.Some?
    ensures o.adapterName.None? ==> r.adapterName == Some("Email")
    ensures o.adapterName.Some? ==> r.adapterName == o.adapterName
    ensures r.adapterName == Some("Email") ==> r.adapterData == CreatorEmailData(o.creator.value)
    ensures r.adapterName != Some("Email") ==> r.adapterData == o.adapterData
    ensures r.contactName == if o.contactName.Some? then o.contactName else o.creator.value.name
    ensures r.contactEmail == if o.contactEmail.Some? then o.contactEmail else o.creator.value.email
    ensures r.(adapterName := o.adapterName, adapterData := o.adapterData,
               contactName := o.contactName, contactEmail := o.contactEmail) == o
  {
    var u := o.creator.value;
    var name := if o.adapterName.None? then "Email" else o.adapterName.value;
    o.(adapterName := Some(name),
       adapterData := if name == "Email" then CreatorEmailData(u) else o.adapterData,
       contactName := if o.contactName.None? then u.name else o.contactName,
       contactEmail := if o.contactEmail.None? then u.email else o.contactEmail)
  }

  /** Applying the defaults a second time changes nothing. */
  lemma CreateDefaultsIdempotent(o: Opportunity)
    requires o.creator.Some?
    ensures CreateDefaults(CreateDefaults(o)) == CreateDefaults(o)
  {
  }

  /**
   * A record created without an adapter name ends up with the Email adapter
   * over its creator's data, unless that adapter's constructor raises.
   */
  lemma DefaultAdapterIsEmail(o: Opportunity, classes: Classes)
    requires o.creator.Some? && o.adapterName.None?
    ensures var data := CreatorEmailData(o.creator.value);
      SubmissionAdapter(CreateDefaults(o), classes) == if classes.raisesOnNew(EmailKind, data) then NoneKind else EmailKind
  {
    assert !IsSpace("Email"[0]);
    assert Lookup("Email") == Some(EmailKind);
  }

  /**
   * The validations read neither `approved_at` nor `submitted_at`, given that
   * an adapter's validity depends only on its kind and data (`Classes`): the
   * three lifecycle transitions save exactly the records that were already valid.
   */
  lemma ValidationIgnoresLifecycleTimes(o: Opportunity, p: Opportunity, classes: Classes)
    requires p == o.(approvedAt := p.approvedAt, submittedAt := p.submittedAt)
    ensures ValidationErrors(p, classes) == ValidationErrors(o, classes)
  {
    assert SubmissionAdapter(p, classes) == SubmissionAdapter(o, classes);
  }

  // ---------------------------------------------------------------------------
  // The record as an object whose fields the transitions update in place

  class OpportunityRecord {
    var id: int
    var title: Option<string>
    var creator: Option<UserInfo>
    var contactName: Option<string>
    var contactEmail: Option<string>
    var adapterName: Option<string>
    var adapterData: Data
    var publishAt: Option<int>
    var submissionsOpenAt: Option<int>
    var submissionsCloseAt: Option<int>
    var enableQuestions: bool
    var questionsOpenAt: Option<int>
    var questionsCloseAt: Option<int>
    var submittedAt: Option<int>
    var approvedAt: Option<int>
    var submissionReminderSent: bool
    var questionReminderSent: bool
    var categoryIds: set<int>
    /** `errors`, filled by the last validation run. */
    var errors: seq<ValidationError>

    /** The record's attributes as a row. */
    function Value(): Opportunity
      reads this
    {
      Opportunity(id, title, creator, contactName, contactEmail, adapterName, adapterData,
                  publishAt, submissionsOpenAt, submissionsCloseAt, enableQuestions,
                  questionsOpenAt, questionsCloseAt, submittedAt, approvedAt,
                  submissionReminderSent, questionReminderSent, categoryIds)
    }

    constructor (o: Opportunity)
      ensures Value() == o && errors == []
    {
      id, title, creator, contactName, contactEmail := o.id, o.title, o.creator, o.contactName, o.contactEmail;
      adapterName, adapterData := o.adapterName, o.adapterData;
      publishAt, submissionsOpenAt, submissionsCloseAt := o.publishAt, o.submissionsOpenAt, o.submissionsCloseAt;
      enableQuestions, questionsOpenAt, questionsCloseAt := o.enableQuestions, o.questionsOpenAt, o.questionsCloseAt;
      submittedAt, approvedAt := o.submittedAt, o.approvedAt;
      submissionReminderSent, questionReminderSent := o.submissionReminderSent, o.questionReminderSent;
      categoryIds := o.categoryIds;
      errors := [];
    }

    /**
     * `approve!`, that is `update approved_at: Time.now`: the attribute is
     * assigned, the validations run again and replace `errors`, and `saved`
     * says whether the record passed them and was written. The in-memory
     * attribute keeps its new value either way.
     */
    method Approve(now: int, classes: Classes) returns (saved: bool)
      modifies this`approvedAt, this`errors
      ensures Value() == old(Value()).(approvedAt := Some(now))
      ensures Approved(Value())
      ensures errors == ValidationErrors(Value(), classes)
      ensures errors == ValidationErrors(old(Value()), classes)
      ensures saved <==> errors == []
    {
      approvedAt := Some(now);
      saved := Validate(classes);
      ValidationIgnoresLifecycleTimes(old(Value()), Value(), classes);
    }

    /** `unapprove!`, that is `update approved_at: nil`, re-validating as `approve!` does. */
    method Unapprove(classes: Classes) returns (saved: bool)
      modifies this`approvedAt, this`errors
      ensures Value() == old(Value()).(approvedAt := None)
      ensures !Approved(Value())
      ensures errors == ValidationErrors(Value(), classes)
      ensures errors == ValidationErrors(old(Value()), classes)
      ensures saved <==> errors == []
    {
      approvedAt := None;
      saved := Validate(classes);
      ValidationIgnoresLifecycleTimes(old(Value()), Value(), classes);
    }

    /** `submit_for_approval!`, that is `update submitted_at: Time.now`, re-validating as `approve!` does. */
    method SubmitForApproval(now: int, classes: Classes) returns (saved: bool)
      modifies this`submittedAt, this`errors
      ensures Value() == old(Value()).(submittedAt := Some(now))
      ensures SubmittedForApproval(Value())
      ensures errors == ValidationErrors(Value(), classes)
      ensures errors == ValidationErrors(old(Value()), classes)
      ensures saved <==> errors == []
    {
      submittedAt := Some(now);
      saved := Validate(classes);
      ValidationIgnoresLifecycleTimes(old(Value()), Value(), classes);
    }

    /**
     * `valid?`: clears `errors`, then each validation adds its error when it fails
     * (`ensure_submission_adapter_is_valid` last).
     */
    method Validate(classes: Classes) returns (valid: bool)
      modifies this`errors
      ensures errors == ValidationErrors(Value(), classes)
      ensures valid <==> errors == []
    {
      errors := [];
      if !Present(title) {
        errors := errors + [TitleBlank];
      }
      if creator.None? {
        errors := errors + [CreatorMissing];
      }
      if !classes.valid(SubmissionAdapter(Value(), classes), adapterData) {
        errors := errors + [AdapterInvalid];
      }
      valid := errors == [];
    }

    /** `set_default_submission_adapter_params`. */
    method SetDefaultSubmissionAdapterParams()
      requires creator.Some?
      modifies this`adapterName, this`adapterData
      ensures Value() == old(Value()).(adapterName := CreateDefaults(old(Value())).adapterName,
                                       adapterData := CreateDefaults(old(Value())).adapterData)
    {
      if adapterName.None? {
        adapterName := Some("Email");
      }
      if adapterName == Some("Email") {
        adapterData := CreatorEmailData(creator.value);
      }
    }

    /** `set_default_contact_info`. */
    method SetDefaultContactInfo()
      requires creator.Some?
      modifies this`contactName, this`contactEmail
      ensures Value() == old(Value()).(contactName := CreateDefaults(old(Value())).contactName,
                                       contactEmail := CreateDefaults(old(Value())).contactEmail)
    {
      if contactName.None? {
        contactName := creator.value.name;
      }
      if contactEmail.None? {
        contactEmail := creator.value.email;
      }
    }

    /**
     * Saving a new record: validations first, then the `before_create` callbacks
     * only when the record is valid. The defaults therefore never take part in
     * the validation of the record they fill in.
     */
    method Create(classes: Classes) returns (saved: bool)
      modifies this
      ensures errors == ValidationErrors(old(Value()), classes)
      ensures saved <==> errors == []
      ensures saved ==> Value() == CreateDefaults(old(Value()))
      ensures !saved ==> Value() == old(Value())
    {
      saved := Validate(classes);
      if saved {
        SetDefaultSubmissionAdapterParams();
        SetDefaultContactInfo();
      }
    }
  }
}
