# Opportunity lifecycle model

A Dafny model of the opportunity lifecycle of the Beacon (dispatch) Rails
application. An opportunity is a posting, such as an RFP or a grant. It is
approved by staff, published at a date, and then open for questions and
submissions during optional time windows. The model covers these parts:

- **`Opportunities`** (`opportunity.dfy`, from `app/models/opportunity.rb`).
  - The row as a datatype.
  - The derived status predicates: `approved?`, `published?`, `posted?`,
    `open_for_submissions?`, `open_for_questions?`, `submitted_for_approval?`.
  - `posted_at` and `status_key`.
  - The submission-adapter lookup with its fallback to the `None` adapter.
  - The validations and the `before_create` defaults.
  - `OpportunityRecord`, a class whose methods update fields in place:
    `approve!`, `unapprove!`, `submit_for_approval!`, `valid?`, the two
    callbacks, and `Create`, which runs validation and then the callbacks.
- **`OpportunityScopes`** (`scopes.dfy`).
  - The class-level scopes as filters over a sequence of rows.
  - The two deadline-reminder queries.
- **`OpportunitiesHelper`** (`helper.dfy`): `filtered?`,
  `opportunity_status_text`, the edit steps and the adapter registry.
- **`OpportunitiesController`** (`controller.dfy`).
  - Listing parameters: the merge, blank-id cleaning and the feed's forced sort.
  - The pending lists.
  - The approve and subscribe toggles.
  - `request_approval` and its fan-out of approval mails.
  - The edit-step wizard: defaulting the step, `next_step`, and the redirect
    chosen by `update`.
- **`SubmissionAdapters`** (`adapters.dfy`): the three adapter kinds and the
  name lookup that `constantize` performs.
- **`Wrappers`, `Text`, `Seqs`, `Params`** (`basics.dfy`): support modules.
  - `Option`.
  - Ruby's `blank?`/`present?` on strings.
  - `Where`, a filter over a sequence, with its lemmas.
  - Request parameter values.

Conventions:

- Timestamps are integers counting seconds. `n.hours` is `n * 3600`.
- `Time.now` is a parameter `now`.
- Nullable columns are `Option`.
- The reminder lead hours are parameters, not configuration reads.
- The adapter classes' own behaviour is a parameter `Classes`: whether an
  adapter is `valid?`, and whether its constructor raises.

In these places the model follows the code rather than its comments or the obvious reading:

- The doc comment above `status_key` names symbols the method never returns.
  The model returns the code's five values.
- The `submissions_open` scope looks only at the closing time. This differs from
  `open_for_submissions?`. `SubmissionsOpenScopeIgnoresOpeningTime` shows a row
  in the scope that is not open.
- Validation runs before `before_create`. A record created without an adapter
  name is therefore validated against the `None` adapter. The Email defaults are
  filled in afterwards, and only when the record is valid.
- `||=` replaces only `nil`. An empty contact name or email is kept.
- `filtered?` compares `status` with `'open'`, and a missing status is not
  `'open'`. So a filterer params hash without `status` counts as filtered.
  Whether the filterer fills in a default status is outside the model.
- When the step is not in the list, `next_step` computes `nil + 1`, which
  raises. `NextStep` returns `NoStepIndex` for this case, and `update` answers
  `StepError`.

## Model

| member | source | states |
|---|---|---|
| `Opportunities.New` | app/models/opportunity.rb:5-28 | definition of a fresh record: every nullable column nil, the boolean columns `false` |
| `Opportunities.Approved` | app/models/opportunity.rb:161-163 | definition of `approved?`: `approved_at` is present |
| `Opportunities.Published` | app/models/opportunity.rb:173-176 | definition of `published?`: no publish time, or one strictly before `now` |
| `Opportunities.Posted` | app/models/opportunity.rb:157-159 | definition of `posted?`: approved and published |
| `Opportunities.SubmittedForApproval` | app/models/opportunity.rb:210-212 | definition of `submitted_for_approval?`: `submitted_at` is present |
| `Opportunities.InWindow` | app/models/opportunity.rb:199-208 | the strict time window both `open_for_*?` predicates use; an absent bound is unbounded |
| `Opportunities.OpenForSubmissions` | app/models/opportunity.rb:199-202 | definition of `open_for_submissions?` |
| `Opportunities.OpenForQuestions` | app/models/opportunity.rb:204-208 | definition of `open_for_questions?`: questions enabled and inside the questions window |
| `Opportunities.WindowEdgesAreClosed` | app/models/opportunity.rb:199-208 | a window is closed when `now` equals its opening or its closing time; with both bounds absent it is open |
| `Opportunities.PostedAt` | app/models/opportunity.rb:178-183 | `posted_at` is nil exactly when both times are absent; otherwise it is one of the present times and is no earlier than each of them |
| `Opportunities.Status` | app/models/opportunity.rb:227-241 | `status_key` gives each of its five values under an exact condition: pending_approval (not approved, submitted), draft (not approved, not submitted), not_published (approved, not published), open (posted and open for submissions), closed (posted, not open) |
| `Opportunities.SubmissionAdapter` | app/models/opportunity.rb:189-197 | a blank name, an unknown name or a raising constructor yields the `None` adapter; any other result is the kind the stored name names |
| `Opportunities.ValidationErrors` | app/models/opportunity.rb:110-112 | a record is valid exactly when its title is present, its creator is present and its resolved adapter is valid; each failing check adds its own error |
| `Opportunities.CreateDefaults` | app/models/opportunity.rb:249-263 | a nil adapter name becomes `Email`; under `Email` the data is replaced by the creator's email and name; contact name and email are filled from the creator only when nil; no other modelled column changes |
| `Opportunities.CreateDefaultsIdempotent` | app/models/opportunity.rb:249-263 | applying the create defaults twice gives the same record as applying them once |
| `Opportunities.DefaultAdapterIsEmail` | app/models/opportunity.rb:189-197 | a record created without an adapter name resolves to the Email adapter, unless the Email constructor raises |
| `Opportunities.OpportunityRecord.Approve` | app/models/opportunity.rb:165-167 | `approve!` sets `approved_at` to `now` and no other modelled attribute, so the record is approved; `update` re-validates, so `errors` become the validation errors of the record, which equal the validation errors of the old record (see the adapter line under Left out); it saves exactly when there are none |
| `Opportunities.OpportunityRecord.Unapprove` | app/models/opportunity.rb:169-171 | `unapprove!` clears `approved_at` and no other modelled attribute, so the record is not approved; `errors` are re-validated as for `approve!`, and it saves exactly when there are none |
| `Opportunities.OpportunityRecord.SubmitForApproval` | app/models/opportunity.rb:214-216 | `submit_for_approval!` sets `submitted_at` to `now` and no other modelled attribute; `errors` are re-validated as for `approve!`, and it saves exactly when there are none |
| `Opportunities.ValidationIgnoresLifecycleTimes` | app/models/opportunity.rb:110-112 | with adapter validity depending only on the adapter kind and data (see Left out), the validations read neither `approved_at` nor `submitted_at`, so changing them leaves the validation errors as they were |
| `Opportunities.OpportunityRecord.Validate` | app/models/opportunity.rb:265-269 | `valid?` leaves the record's errors equal to `ValidationErrors` and reports whether that list is empty |
| `Opportunities.OpportunityRecord.SetDefaultSubmissionAdapterParams` | app/models/opportunity.rb:249-258 | changes only the adapter name and data, as `CreateDefaults` prescribes |
| `Opportunities.OpportunityRecord.SetDefaultContactInfo` | app/models/opportunity.rb:260-263 | changes only the contact name and email, as `CreateDefaults` prescribes |
| `Opportunities.OpportunityRecord.Create` | app/models/opportunity.rb:122-123 | saving validates first; the record is saved and given its create defaults exactly when it has no errors, and no other modelled attribute changes; otherwise it is left unchanged (the database-assigned id and timestamps are not modelled) |
| `SubmissionAdapters.KindName` | app/models/opportunity.rb:191 | definition of the class name under `SubmissionAdapters::` for each adapter kind |
| `SubmissionAdapters.Lookup` | app/models/opportunity.rb:191 | definition of `constantize` on `SubmissionAdapters::<name>`: one of the three class names, or a failure |
| `SubmissionAdapters.LookupInvertsKindName` | app/models/opportunity.rb:191 | a name resolves to an adapter kind exactly when it is that kind's class name |
| `OpportunityScopes.NotApprovedScope` | app/models/opportunity.rb:54 | `not_approved` selects exactly the rows that are not `approved?` |
| `OpportunityScopes.ApprovedScope` | app/models/opportunity.rb:55 | `approved` selects exactly the `approved?` rows |
| `OpportunityScopes.PublishedScope` | app/models/opportunity.rb:57-59 | `published` selects exactly the `published?` rows |
| `OpportunityScopes.NotPublishedScope` | app/models/opportunity.rb:61-63 | `not_published` selects exactly the rows that are not `published?` and whose publish time is not `now` |
| `OpportunityScopes.PublishScopesSplitAtNow` | app/models/opportunity.rb:57-63 | a row published exactly at `now` is in neither scope; every other row is in exactly one of them |
| `OpportunityScopes.PostedScope` | app/models/opportunity.rb:65 | `approved.published` yields the same rows, in the same order, as filtering by `posted?` |
| `OpportunityScopes.SubmissionsOpenScope` | app/models/opportunity.rb:79-81 | `submissions_open` selects exactly the rows that would be `open_for_submissions?` if their opening time were absent; so every row open for submissions is in it |
| `OpportunityScopes.SubmissionsOpenScopeIgnoresOpeningTime` | app/models/opportunity.rb:79-81 | a row whose submissions open after `now` is in `submissions_open` but not `open_for_submissions?` |
| `OpportunityScopes.SubmissionsClosedScope` | app/models/opportunity.rb:83-88 | `submissions_closed` selects exactly the rows with a closing time before `now`; these are not open for submissions and not in `submissions_open`; a row closing exactly at `now` is in neither |
| `OpportunityScopes.WithAnyCategory` | app/models/opportunity.rb:125-136 | selects exactly the rows whose categories meet the given ids; an empty id list selects nothing |
| `OpportunityScopes.NeedsQuestionDeadlineReminders` | app/models/opportunity.rb:138-146 | selects exactly the posted rows with questions enabled, question reminder not sent, and a questions closing time before `now` plus the lead hours |
| `OpportunityScopes.NeedsSubmissionDeadlineReminders` | app/models/opportunity.rb:148-155 | selects exactly the posted rows with submission reminder not sent and a submissions closing time before `now` plus the lead hours |
| `OpportunityScopes.ReminderLeadMonotone` | app/models/opportunity.rb:138-155 | a longer lead time selects every row a shorter one does, counting duplicates, for both reminder kinds |
| `OpportunitiesHelper.Filtered` | app/helpers/opportunities_helper.rb:2-6 | definition of `filtered?`: a present search text, a status other than `open`, or a present `category_id` |
| `OpportunitiesHelper.UnfilteredExactly` | app/helpers/opportunities_helper.rb:2-6 | the listing is unfiltered exactly when there is no search text, the status is `open`, and there is no `category_id` |
| `OpportunitiesHelper.FilteredIgnoresCategoryIds` | app/helpers/opportunities_helper.rb:2-6 | `filtered?` reads the singular `category_id`; the value of `category_ids` does not affect it |
| `OpportunitiesHelper.OpportunityStatusText` | app/helpers/opportunities_helper.rb:8-19 | not approved gives `not_approved`; `posted` is given exactly when `posted?` holds; waiting-for-publish is given exactly when approved and not published, and carries the publish time, which is present and not before `now` |
| `OpportunitiesHelper.StatusTextAgreesWithStatusKey` | app/helpers/opportunities_helper.rb:8-19 | the status text is `posted` exactly when `status_key` is `open` or `closed`, `not_approved` exactly when it is `pending_approval` or `draft`, and waiting-for-publish exactly when it is `not_published` |
| `OpportunitiesHelper.EditOpportunitySteps` | app/helpers/opportunities_helper.rb:21-28 | four distinct steps, the first `title` and the last `submissions` |
| `OpportunitiesHelper.AllSubmissionAdapters` | app/helpers/opportunities_helper.rb:30-36 | the registry lists every adapter kind, the `None` fallback included, each exactly once |
| `OpportunitiesController.NonBlank` | app/controllers/opportunities_controller.rb:180 | definition of `reject!(&:blank?)` on the category ids: the non-blank entries in order |
| `OpportunitiesController.RejectBlankInPlace` | app/controllers/opportunities_controller.rb:180 | in-place `reject!(&:blank?)`: the array's new prefix is the non-blank ids in their original order |
| `OpportunitiesController.MergeFilters` | app/controllers/opportunities_controller.rb:178 | with no `opportunity_filters` the params are unchanged; with a hash, the result has the keys of both and the nested values override the top-level ones; with anything else the merge fails |
| `OpportunitiesController.OpportunityFilterParams` | app/controllers/opportunities_controller.rb:177-182 | succeeds exactly when the merge succeeds and any `category_ids` is an array; then the result is the merged params with blank entries removed from `category_ids` and every other key unchanged; a no-op when `category_ids` is absent |
| `OpportunitiesController.NonBlankIdempotent` | app/controllers/opportunities_controller.rb:180 | cleaning blank ids a second time changes nothing |
| `OpportunitiesController.FeedFilterParams` | app/controllers/opportunities_controller.rb:11-19 | the feed always sorts by `updated_at`, `desc`, whatever the request asked; every other filter parameter is kept, and no key other than `sort` and `direction` is added |
| `OpportunitiesController.PendingApprovalList` | app/controllers/opportunities_controller.rb:24-25 | the pending-approval list is exactly the records that are not approved |
| `OpportunitiesController.PendingPublishList` | app/controllers/opportunities_controller.rb:27-29 | the pending-publish list is exactly the approved records whose publish time is present and after `now`; each has `status_key` `not_published` |
| `OpportunitiesController.ToggleApproval` | app/controllers/opportunities_controller.rb:104-111 | `approve` flips `approved?`; a newly approved record is approved at `now`; no other modelled column changes |
| `OpportunitiesController.ToggleApprovalTwice` | app/controllers/opportunities_controller.rb:104-111 | two `approve` requests restore `approved?`; an unapproved record comes back exactly as it was |
| `OpportunitiesController.ApprovalRequests` | app/controllers/opportunities_controller.rb:184-188 | one request per listed approver or admin, in order; every listed user receives a request for this opportunity, and every request goes to a listed user and names this opportunity |
| `OpportunitiesController.OneRequestPerApprover` | app/controllers/opportunities_controller.rb:184-188 | with distinct approvers, each receives exactly one request and nobody else receives any |
| `OpportunitiesController.ToggleSubscription` | app/controllers/opportunities_controller.rb:117-127 | `subscribe` flips whether the opportunity is in the user's list and leaves the count of every other entry unchanged |
| `OpportunitiesController.ToggleSubscriptionTwice` | app/controllers/opportunities_controller.rb:117-127 | subscribing and then unsubscribing restores the list exactly |
| `OpportunitiesController.DefaultStep` | app/controllers/opportunities_controller.rb:51-54 | a listed step is kept; a missing or unknown step becomes `title` |
| `OpportunitiesController.IndexOf` | app/controllers/opportunities_controller.rb:174 | `Array#index`: nil exactly when the value is absent, otherwise its first position |
| `OpportunitiesController.NextStep` | app/controllers/opportunities_controller.rb:173-175 | the successor of a listed step; none for `submissions`; an error for a missing or unknown step |
| `OpportunitiesController.UpdateResponseFor` | app/controllers/opportunities_controller.rb:67-81 | `update` re-renders exactly on failure, goes back exactly on rename, shows the record exactly after the last step, redirects to `next_step` when the step has a successor, and raises exactly when a saved non-rename update has a step outside the list |
| `OpportunitiesController.Controller.Edit` | app/controllers/opportunities_controller.rb:51-57 | `edit` replaces `params[:step]` with its default step |
| `OpportunitiesController.Controller.Approve` | app/controllers/opportunities_controller.rb:104-115 | the record becomes `ToggleApproval` of itself; its errors are re-validated, and `saved` reports whether there are none (the action redirects with success either way) |
| `OpportunitiesController.Controller.RequestApproval` | app/controllers/opportunities_controller.rb:59-65 | already submitted: denied, with the record, its errors and the outbox unchanged; otherwise `submitted_at` becomes `now`, the errors are re-validated, and exactly the approval requests are appended to the outbox, whether or not the save succeeded |
| `OpportunitiesController.Controller.Subscribe` | app/controllers/opportunities_controller.rb:117-128 | the user's list becomes `ToggleSubscription` of itself; the success flash is set only when the opportunity was added |

## Left out

- `full_text` (pg_search) is not modelled. Its matching rules live in the
  search library.
- The filterer behind `filter(...)` is not part of this model. It defines the
  status and sort meanings, so `index` and `feed` are modelled only up to the
  parameters they pass it.
- `order_by_recently_posted` and `order_by_recently_updated` are not modelled.
  SQL orders NULLs inside `GREATEST` in its own way.
- `not_posted` is not modelled. Its SQL string uses `||` and an unbound `?`.
- `contact_info?`, `to_param` and `submission_adapter_edit_partial` are not
  modelled. They format values and hold no lifecycle logic.
- The adapter classes are not part of this model: `valid?`, `submittable?`,
  `submission_page` and their other delegated methods. Validity and "the
  constructor raises" are parameters. Only the fallback is specified.
  Validity and "the constructor raises" are taken to depend only on the adapter
  kind and `submission_adapter_data`, although the constructor receives the
  whole record. `ValidationIgnoresLifecycleTimes`, and the clause of
  `Approve`/`Unapprove`/`SubmitForApproval` that their errors equal the old
  record's validation errors, rest on this.
- `SubmissionAdapter`: names are assumed to resolve only to the three adapter
  classes. The `None` adapter built as the fallback is assumed not to raise.
- `deny_access` is defined outside `OpportunitiesController`, which only
  inherits it. `RequestApproval` assumes it halts the action with no further
  state change. This matters because `!submitted_for_approval? || deny_access`
  does not `return`: a `deny_access` that only redirected would let
  `submit_for_approval!` and the mails run.
- `Controller.RequestApproval` takes the approvers and admins as a sequence. The
  user query and mail delivery (`deliver_later`) are outside the model; queued
  mails are kept in an outbox.
- Authorization, redirects other than `update`'s choice, rendering, flash
  messages other than the subscribe success, and i18n are framework code and
  are not modelled.
- `Opportunity` omits `created_at`, `updated_at` and the columns no modelled
  code reads (`description`, `department_id`, `contact_phone`,
  `approved_by_user_id`, `deleted_at`). A successful save also stamps
  `updated_at`, so approving or submitting an opportunity moves it up the feed,
  which sorts by `updated_at`. On create a save also sets `created_at` and the
  database-assigned id, which `Create` keeps as given.
- `trash!` (soft delete), ActiveRecord persistence and `serialize` are not
  modelled. `update` is modelled as assigning the attribute and re-running the
  validations; its result says whether the row would be written, but the
  database itself is not modelled.
- `opportunity_params` and the slug redirect in `set_opportunity` are not
  modelled.
- `DispatchConfiguration` reads the environment and a YAML file. The reminder
  lead hours are passed as parameters instead.
- `Text.Blank` treats only ASCII whitespace as blank. Ruby also counts the
  Unicode space characters.
- `OpportunityFilterParams` returns an error for a `category_ids` value that is
  not an array. In Ruby, an empty hash there would pass `reject!` unharmed.
- `OpportunityFilterParams` builds a new map. In the source, the merged hash
  shares its `category_ids` array with `params`, so `reject!` cleans `params`
  as well. The model does not capture this aliasing.
- `Controller.Subscribe` removes every occurrence of the id from the user's
  list. Unsubscribing a record that was listed before and subscribing it again
  moves it to the end.
