# invenio-circulation: the loan state machine in Dafny

This project models the circulation engine of invenio-circulation. The engine is a configurable
state machine that moves a library **loan** between states (CREATED, PENDING, ITEM_AT_DESK,
ITEM_ON_LOAN, ...) through guarded **transitions**. Properties of the model are proved.

What is modelled:

- **The engine** (`_Circulation`), in `engine.dfy`:
  - the transitions are built per source state from the configuration;
  - `trigger` tries the candidates of the loan's state in order;
  - `TransitionConditionsFailed` is a soft failure that moves on to the next candidate;
  - any other error aborts the call;
  - when every candidate soft-fails, the result is `NoValidTransitionAvailable`.
- **The base transition** (`base.py`), in `base.dfy` and `execution.dfy`:
  - the constructor's state validation;
  - the guard decorators, in their order: trigger, required parameters, item and patron, permission;
  - the merge of the parameters into the loan;
  - `execute` and `after`: state change, commit, `loan_state_changed`.
- **The eight concrete transitions** and their helpers (loan duration, extension, pickup,
  check-in, request, the cascade that hands a returned item to the pending requests of its
  document), in `transitions.dfy` and `execution.dfy`. Each hook is a function on loan values.
  A method updates a `Loan` object in place, and that method is proved equal to the function.
- **The queries of `api.py` and the `Loan` record**, in `api.dfy` and `loan.dfy`:
  - item availability;
  - the first available item of a document;
  - the active loan of an item;
  - the pending loans of an item or a document;
  - `Loan.__init__`, `create`, `update` and `update_item_ref`.
- **The searches of `search/api.py`** as filters over the indexed loans, in `search.dfy`.
- **The error kinds**, with their HTTP codes and descriptions, in `errors.dfy`.
- **The replace-item view** and the REST action list of `views.py`, in `views.dfy`.
- **The policy hooks** of the application configuration, as one `Policy` value, and the concrete
  policy of `tests/utils.py`, in `policy.dfy`. The transition graph the tests configure is the
  `Graph` module of `engine.dfy`.

The database and the search index are one store: a `Repository` object holding a sequence of
loan records, one per pid, plus the log of signals sent. A Python `KeyError` that escapes is
modelled as the error `KeyMissing(key)`. Dates are whole days.

## Model

| member | source | states |
|---|---|---|
| `Errors.Code` | invenio_circulation/errors.py:17-46 | 403 exactly for InvalidPermission, 400 for every other circulation error, 500 for an escaping KeyError |
| `Errors.InvalidLoanStateDescription` | invenio_circulation/errors.py:81-87 | a caller-supplied description replaces "Invalid loan state '<s>'"; without one, the message names the state |
| `Errors.ItemNotAvailableIgnoresDescription` | invenio_circulation/errors.py:90-99 | the description of ItemNotAvailable does not depend on the description the raiser passed |
| `Errors.ConditionsAndConstraintsDiffer` | invenio_circulation/errors.py:56-65 | the two transition failure kinds are distinct and have different default descriptions |
| `Errors.NoValidTransitionNamesPidThenState` | invenio_circulation/errors.py:68-77 | the message has the fixed prefix, then the loan pid, and ends with the quoted state |
| `Errors.LoanMaxExtensionNamesCountThenPid` | invenio_circulation/errors.py:117-126 | the message holds the max count in decimal, which reads back as the count, and ends with the loan pid |
| `Errors.NotImplementedDescription` | invenio_circulation/errors.py:134-145 | the fixed sentence followed by the quoted config variable |
| `Policy.DurationBoundary` | tests/utils.py:78-82 | 59 days is a valid loan; 60 days and 0 days are not |
| `Policy.TestPolicyValues` | tests/utils.py:63-75 | default duration 30 days, extension 30 days, max extension count `sys.maxsize` |
| `Policy.TestPolicyChecksPass` | tests/utils.py:15-60 | patron, item and document existence, circulation and request checks all pass; every item is at location "" |
| `Policy.TestPolicyValidators` | tests/utils.py:85-92 | the location validator accepts exactly "loc_pid"; the user validator accepts exactly "user_pid" |
| `Policy.TestPolicyRefs` | tests/utils.py:40-55 | each ref builder returns the pid it is given |
| `Loans.WithRefs` | invenio_circulation/api.py:43-51 | item, patron and document refs are built from the loan's own pid; every other key is kept |
| `Loans.Merge` | invenio_circulation/api.py:66-69 | each supplied parameter (the trigger included) overrides the loan's key, the rest are kept; pid, state and extension count are unchanged; the item, patron and document refs are rebuilt from the pid |
| `Loans.MergeIdempotent` | invenio_circulation/api.py:66-69 | merging the same parameters twice equals merging them once |
| `Loans.CreatedData` | invenio_circulation/api.py:53-64 | a non-empty item pid sets the document pid from the item; otherwise the document pid is kept |
| `Loans.Initialised` | invenio_circulation/api.py:36-41 | the state is the configured initial state unless the data names one; nothing else changes |
| `Loans.Loan.constructor` | invenio_circulation/api.py:36-41 | the new loan object holds the initialised data |
| `Loans.Loan.Update` | invenio_circulation/api.py:66-69 | the loan object's data becomes the merge of its old data with the parameters |
| `Loans.Loan.UpdateItemRef` | invenio_circulation/api.py:97-108 | an empty pid is refused with MissingRequiredParameter and the loan is unchanged; otherwise only the item pid changes |
| `Loans.Create` | invenio_circulation/api.py:53-64 | a fresh loan whose data is the created data, initialised |
| `Search.SearchByPid` | invenio_circulation/search/api.py:37-57 | refused with PropertyRequired iff neither pid is non-empty; otherwise exactly the loans matching the document (or else the item), restricted by filter_states, or else by exclude_states |
| `Search.DocumentWins` | invenio_circulation/search/api.py:42-45 | when a document is given, the item pid plays no part |
| `Search.FilterStatesOverrideExclude` | invenio_circulation/search/api.py:52-55 | when filter_states is given, exclude_states plays no part |
| `Search.SearchByPatronItem` | invenio_circulation/search/api.py:60-70 | a loan is found iff it has that patron and that item, and a state in filter_states when these are given |
| `Search.SearchByPatronPid` | invenio_circulation/search/api.py:73-77 | a loan is found iff it has that patron |
| `Api.IsItemAvailable` | invenio_circulation/api.py:111-132 | an item that may not circulate is unavailable without consulting loans; otherwise it is available iff no loan on it is active; an empty pid is PropertyRequired |
| `Api.FirstAvailable` | invenio_circulation/api.py:170-175 | a found item is one of the document's items; the only error is PropertyRequired |
| `Api.FirstAvailableIsFirst` | invenio_circulation/api.py:170-175 | None iff every item is unavailable; otherwise the result is available and every earlier item is unavailable |
| `Api.GetAvailableItemByDocPid` | invenio_circulation/api.py:170-182 | the loop over the document's items returns the first available item, as FirstAvailable |
| `Api.GetLoanForItem` | invenio_circulation/api.py:192-211 | an empty pid or no active loan gives None; a returned loan is an active loan on the item; the only error is MultipleLoansOnItem |
| `Api.GetLoanForItemCounts` | invenio_circulation/api.py:206-210 | two active loans on the item give MultipleLoansOnItem; a single one is the loan returned |
| `Api.GetPendingLoansByItemPid` | invenio_circulation/api.py:144-155 | refused iff the pid is empty; otherwise exactly the loans on the item in a request state |
| `Api.GetPendingLoansByDocPid` | invenio_circulation/api.py:158-167 | refused iff the pid is empty; otherwise exactly the loans on the document in a request state |
| `Conditions.SameLocationReadsOnlyRetriever` | invenio_circulation/transitions/conditions.py:14-23 | the answer is plain equality with the retriever's location and depends on nothing else |
| `Base.NewTransition` | invenio_circulation/transitions/base.py:95-122 | built iff source and destination are configured states; the defaults are trigger "next" and the policy's default permission; otherwise InvalidLoanState with a description |
| `Base.CheckTrigger` | invenio_circulation/transitions/base.py:70-77 | passes iff the supplied trigger, "next" when none is supplied, is the transition's; a failure is TransitionConditionsFailed |
| `Base.Missing` | invenio_circulation/transitions/base.py:57 | a name is reported missing iff it is required and was not passed |
| `Base.RequiredParamsCheck` | invenio_circulation/transitions/base.py:54-67 | passes iff the four required parameters and one of item or document are passed; a failure is TransitionConstraintsViolation |
| `Base.SameItemPatron` | invenio_circulation/transitions/base.py:26-51 | passes iff item and patron exist and neither differs from the loan's; an unknown item gives ItemNotAvailable, a changed item ItemDoNotMatch, a patron failure a constraints violation |
| `Base.PermissionCheck` | invenio_circulation/transitions/base.py:129-130 | fails iff a permission factory denies the loan, with InvalidPermission naming neither action nor permission |
| `Base.Guards` | invenio_circulation/transitions/base.py:124-130 | all guards pass iff each passes; a trigger mismatch wins over every other failure, then a missing parameter; the result is a soft failure iff the trigger mismatches |
| `Base.BaseBefore` | invenio_circulation/transitions/base.py:124-135 | fails iff a guard fails, leaving the loan untouched; otherwise the loan is the merge and carries every required parameter and the trigger |
| `Base.GuardOrder` | invenio_circulation/transitions/base.py:124-130 | a trigger mismatch is reported with its message; a denied permission is reported only after every parameter check passes |
| `Base.MissingPatronMessage` | invenio_circulation/transitions/base.py:57-61 | a missing patron pid is named in the violation message |
| `Base.MissingItemAndDocumentMessage` | invenio_circulation/transitions/base.py:62-65 | missing item and document print the empty list of missing required names |
| `Base.MessageTexts` | invenio_circulation/transitions/base.py:57-65 | the two messages as Python formats them, with the list inside an extra pair of brackets |
| `Base.MissingItemDescription` | invenio_circulation/transitions/base.py:32-34 | an unknown item fails with ItemNotAvailable whose text names neither item nor transition |
| `Transitions.LoanDuration` | invenio_circulation/transitions/transitions.py:25-42 | the start defaults to the transaction date and the end to start plus the default duration; only those two keys change; fails iff the policy rejects the duration, as a constraints violation |
| `Transitions.Extension` | invenio_circulation/transitions/transitions.py:62-90 | beyond the max count: LoanMaxExtension, nothing written; a missing end date is a KeyError after the count is written; otherwise the count goes up by one and the end moves by the extension from the end date (or the transaction date) |
| `Transitions.AvailabilityCheck` | invenio_circulation/transitions/base.py:105-114 | no item is a constraints violation; otherwise passes iff the item is available, and an unavailable item gives ItemNotAvailable naming item and destination |
| `Transitions.PickupBefore` | invenio_circulation/transitions/transitions.py:173-202 | no item is a soft failure; completes iff the item's location is the pickup location exactly for the desk transition; writes nothing |
| `Transitions.CheckinBefore` | invenio_circulation/transitions/transitions.py:214-248 | completes iff the transaction location is the item's location exactly for the return home, setting end date to the transaction date; a wrong location is a soft failure |
| `Transitions.RequestParams` | invenio_circulation/transitions/transitions.py:134-151 | only a request on a document alone is touched: refused if the loan may not be requested, otherwise given the first available item when there is one |
| `Transitions.RequestCheck` | invenio_circulation/transitions/transitions.py:154-170 | completes iff the loan can be requested; a missing pickup location defaults to the item's location when there is an item |
| `Transitions.KindCheck` | invenio_circulation/transitions/transitions.py:93-263 | every class hook keeps the loan's pid and state and never raises NoValidTransitionAvailable |
| `Transitions.Before` | invenio_circulation/transitions/transitions.py:93-263 | the full hook keeps pid and state and never raises NoValidTransitionAvailable |
| `Transitions.PickupExclusive` | invenio_circulation/transitions/transitions.py:173-202 | with item and pickup location, exactly one pickup transition completes, the desk one iff the item is at the pickup location; the other soft-fails; both leave the merged loan |
| `Transitions.PickupWithoutItem` | invenio_circulation/transitions/transitions.py:45-49 | a pending loan without item soft-fails both pickup transitions, keeping the merged loan |
| `Transitions.CheckinRouting` | invenio_circulation/transitions/transitions.py:214-248 | exactly one check-in completes, the return home iff the transaction is at the item's location; it ends the loan at the transaction date |
| `Transitions.CheckoutDates` | invenio_circulation/transitions/transitions.py:96-107 | a checkout without dates starts at the transaction date and ends after the default duration; it completes iff the duration is valid |
| `Transitions.CheckoutKeepsGivenDates` | invenio_circulation/transitions/transitions.py:96-128 | dates given with a checkout are kept; a failure is a constraints violation |
| `Transitions.CheckoutAvailability` | invenio_circulation/transitions/transitions.py:96-121 | an item out on another active loan refuses the checkout with ItemNotAvailable; the checkout at the desk ignores other loans |
| `Transitions.TestPolicyExtension` | invenio_circulation/transitions/transitions.py:62-90 | under the test policy an extension adds one to the count and 30 days to the end date |
| `Transitions.ExtensionCeiling` | invenio_circulation/transitions/transitions.py:68-75 | at the ceiling the extension fails with LoanMaxExtension naming pid and max count, the loan merged but not extended |
| `Transitions.RequestAssignsItem` | invenio_circulation/transitions/transitions.py:134-170 | a document request gets the first available item, and the pickup location defaults to that item's location |
| `Transitions.RequestWithoutAvailableItem` | invenio_circulation/transitions/transitions.py:134-170 | for a document request with no available item, the hook as written completes, keeping a given pickup location, and agrees with the corrected hook whenever the merged loan has a pickup location or an item pid; with neither it raises KeyError on item_pid while the corrected hook completes without item |
| `Transitions.RequestDecoratorBeforeTrigger` | invenio_circulation/transitions/transitions.py:134-154 | the request decorator runs before the trigger guard: a refused document request fails hard whatever the trigger |
| `Transitions.TriggerMismatchSoftFails` | invenio_circulation/transitions/base.py:70-77 | a trigger naming another transition soft-fails the hook before anything is checked or written |
| `Transitions.PermissionDenied` | invenio_circulation/transitions/base.py:129-130 | a denied permission fails with InvalidPermission and leaves the loan unchanged |
| `Transitions.RequestPickupKeyError` | invenio_circulation/transitions/transitions.py:166-170 | as written, a document request with no available item and no pickup location stops with a KeyError; the corrected hook completes with neither item nor pickup location |
| `Transitions.RequestPickupKeyErrorExample` | invenio_circulation/transitions/transitions.py:166-170 | a concrete loan and request under the test policy on which the hook as written raises the KeyError and the corrected one completes |
| `Transitions.EnsureValidLoanDuration` | invenio_circulation/transitions/transitions.py:25-42 | the in-place update of the loan object equals LoanDuration |
| `Transitions.EnsureValidExtension` | invenio_circulation/transitions/transitions.py:62-90 | the in-place update of the loan object equals Extension |
| `Transitions.EnsurePickup` | invenio_circulation/transitions/transitions.py:176-202 | the checks on the loan object equal PickupBefore |
| `Transitions.CheckIn` | invenio_circulation/transitions/transitions.py:217-248 | the in-place update of the loan object equals CheckinBefore |
| `Transitions.EnsureRequestable` | invenio_circulation/transitions/transitions.py:154-170 | the in-place update of the loan object equals the corrected RequestCheck |
| `Transitions.RunKindCheck` | invenio_circulation/transitions/transitions.py:93-263 | the class hook on the loan object equals KindCheck |
| `Transitions.RunBefore` | invenio_circulation/transitions/base.py:124-135 | decorator, guards, merge and class hook on the loan object equal Before |
| `Execution.Put` | invenio_circulation/transitions/base.py:143-148 | after the commit the store holds the loan, and nothing that was not there before |
| `Execution.PutReplaces` | invenio_circulation/transitions/base.py:143-148 | the commit keeps one record per pid; the loan is the only record with its pid; every other record stays |
| `Execution.AttachItemEffect` | invenio_circulation/transitions/transitions.py:52-59 | the cascade changes only item pids, exactly of the loans the pending search finds, and keeps one record per pid |
| `Execution.Cascade` | invenio_circulation/transitions/transitions.py:52-59 | a loan without item is a KeyError; an item without document makes the pending search refuse; otherwise the pending loans of the document get the item |
| `Execution.Attempt` | invenio_circulation/transitions/base.py:137-151 | a failed before stores and sends nothing and keeps the state; otherwise the state is dest and one loan_state_changed is sent with the loan before the merge; the stored loan is exactly the loan the hook produced, with state dest; a failed before returns its error and loan; the store keeps one record per pid |
| `Execution.Repository.Commit` | invenio_circulation/transitions/base.py:143-148 | the store becomes Put of the loan; signals unchanged |
| `Execution.Repository.Send` | invenio_circulation/transitions/base.py:150-151 | the signal is appended to the log; store unchanged |
| `Execution.Repository.UpdatePendingRequests` | invenio_circulation/transitions/transitions.py:52-59 | the loop over the stored loans equals Cascade, and on error leaves the store as it was |
| `Execution.Execute` | invenio_circulation/transitions/base.py:137-151 | execute on the loan object and the store equals Attempt |
| `Engine.RowUpToShape` | invenio_circulation/ext.py:101-104 | a state's row builds iff each entry does; then the row has one transition per entry, in order; an error is the error of some entry |
| `Engine.BuildUpToShape` | invenio_circulation/ext.py:96-104 | the dictionary builds iff every row does, and then holds exactly the configured states with their rows |
| `Engine.BuildShape` | invenio_circulation/ext.py:96-104 | a built engine has exactly the configured states, one transition per entry, and is well-formed: each transition is filed under its source and leads to a configured state |
| `Engine.BuildSucceeds` | invenio_circulation/transitions/base.py:116-122 | construction succeeds iff every entry's destination is a configured state |
| `Engine.Fire` | invenio_circulation/ext.py:116-126 | success leaves the loan in some candidate's destination; a soft failure is never surfaced; NoValidTransitionAvailable names loan pid and state and leaves store, signals and state unchanged |
| `Engine.FireAllSoft` | invenio_circulation/ext.py:116-126 | when every candidate, tried in declaration order, soft-fails, the result is NoValidTransitionAvailable naming pid and state, with store and signals untouched |
| `Engine.FireFirstNotSoft` | invenio_circulation/ext.py:116-126 | otherwise the result is exactly the attempt of the first candidate that did not soft-fail, each earlier one having run from what the previous left; a hard error there is returned and no later candidate runs |
| `Engine.TriggerSpec` | invenio_circulation/ext.py:106-126 | a missing, empty or unconfigured state is InvalidLoanState naming it, with nothing changed; success lands on a destination of the state's transitions |
| `Engine.TriggerInOrder` | invenio_circulation/ext.py:106-126 | on a configured state, trigger returns the first attempt, in declaration order, that does not soft-fail, and NoValidTransitionAvailable with nothing stored or sent when all soft-fail |
| `Engine.TriggerStaysInGraph` | invenio_circulation/ext.py:111-119 | in a well-formed engine a successful trigger leaves the loan in a configured state |
| `Engine.Circulation.New` | invenio_circulation/ext.py:96-104 | the nested loops build what Build builds, or fail with its error |
| `Engine.Circulation.BuildRow` | invenio_circulation/ext.py:101-104 | the inner loop builds what RowUpTo builds |
| `Engine.Circulation.Trigger` | invenio_circulation/ext.py:111-126 | the loop over the candidates on the loan object and store equals TriggerSpec |
| `Graph.TestConfigBuilds` | invenio_circulation/ext.py:96-104 | the test graph is a dictionary that builds into a well-formed engine |
| `Graph.TestCancelFromCreated` | tests/test_loan_transitions.py:154-159 | "cancel" on a CREATED loan ends in NoValidTransitionAvailable with nothing changed |
| `Graph.TestReturnedIsTerminal` | invenio_circulation/ext.py:124-126 | any trigger on a returned loan ends in NoValidTransitionAvailable with nothing changed |
| `Views.ActionsMembers` | invenio_circulation/views.py:28-35 | an action is listed iff some configured entry has it as trigger ("next" by default) |
| `Views.ExtractTransitions` | invenio_circulation/views.py:28-35 | the nested loops return exactly the distinct triggers of the configured entries |
| `Views.ActionsAreEngineTriggers` | invenio_circulation/views.py:28-35 | the listed actions are exactly the triggers of the engine built from the same configuration |
| `Views.ValidateReplaceItem` | invenio_circulation/views.py:199-214 | passes iff the loan is active, the new item pid is non-empty and the item exists; the checks run in that order, each with its own error |
| `Views.LoanUpdate` | invenio_circulation/views.py:217-223 | only the item pid and the item ref built from it change |
| `Views.ReplaceItem` | invenio_circulation/views.py:241-255 | a failure changes nothing; success replaces the item, keeps the state, stores the loan, and sends loan_replace_item iff the old item pid was non-empty |
| `Views.ReplaceItemAgain` | invenio_circulation/views.py:199-223 | after a replacement the loan still passes the validation for the same item |
| `Views.ReplaceItemRequest` | invenio_circulation/views.py:241-255 | the handler on the loan object and the store equals ReplaceItem |
| `GraphActions.TestActions` | invenio_circulation/views.py:28-35 | the test graph offers exactly request, checkout, next, extend and cancel |

## Left out

- `Views.LoanUpdate`: the item ref is modelled as the unary `itemRef` of the new item pid. The source calls the configured CIRCULATION_ITEM_REF_BUILDER with two arguments (the loan pid and the data) in `build_resolver_fields` (invenio_circulation/api.py:46) but with the item pid alone in `loan_update` (invenio_circulation/views.py:222). The default builder (invenio_circulation/utils.py:30) takes one argument and the tests' builder (tests/utils.py:41) takes two, so under either one of the two call sites raises TypeError. The model's single `itemRef` hides that mismatch.
- Flask and REST plumbing is left out: blueprints, resources, serializers, `init_app`, the cached properties of the extension, and the JSON loaders. Only the logic of `views.py` (the action list, the replace-item validation, the update and the signal rule) is modelled.
- Persistence, indexing and signal delivery are left out. The database and the index are one in-memory store, and signals are appended to a log. The cascade's missing re-index and the replace-item handler calling no `record.commit()` are therefore not visible.
- Dates are whole days. `parse_date`, `isoformat`, `str2datetime` and timezone handling are foreign calls. Date strings and their round trips are not modelled.
- Permissions are an abstract `permits(factory, loan)` of the policy. `permissions.py` and the current user are not part of this model.
- The loan's `id` (used by `NoValidTransitionAvailable` and the item-attached check) is one pid. So are `loan["pid"]` and `loan["loan_pid"]` (used by the extension). A missing `loan_pid` KeyError in the extension is therefore not modelled.
- A keyword argument passed as `None` is treated as not passed: parameters and record keys are `Option`s.
- `t.pop("transition", Transition)` removes the class key from the configuration while building. Only the deep copy it works on is affected, and the model does not represent the class key as part of the entry.
- Elasticsearch specifics are left out: the ES2 `exclude`, the `hits.total` version branch, and `scan`/`execute`. Searches are filters over the store in store order.
- Concurrency is left out: the read-then-act race between concurrent triggers.
- Error descriptions are kept as data. Only those whose text a caller sees are spelled out in lemmas.
- Several tests describe a newer version than the transition code. Examples are a default pickup location on checkout and a PENDING-to-checkout transition. The model follows the code, except for the corrected request hook named below.
- `transitions.py` imports `get_document_by_item_pid`, while `api.py` defines `get_document_pid_by_item_pid`; the model uses the policy's document-of-item hook for both. The test policy's durations are `timedelta`s, while the code adds them as day counts; the model uses day counts.
- `Transitions.KindCheck`, `Transitions.Before`: their own contracts state only that pid and state are kept and that no NoValidTransitionAvailable is raised. Each kind's behaviour is stated by the per-kind functions and lemmas.
- `Transitions.KindCheck`, `Transitions.Before`: the request transition runs the corrected hook `Transitions.RequestCheck` (see Findings), and so does every engine member built on them (`Execution.Attempt`, `Engine.Fire`, `Engine.TriggerSpec`, `Engine.Circulation.Trigger`). On a document request with no available item, no item pid and no pickup location, the engine therefore records the request as PENDING, where the code raises KeyError on item_pid. The code's behaviour is `Transitions.RequestBeforeAsWritten`, and `Transitions.RequestWithoutAvailableItem` states exactly where the two differ.
- `Engine.TriggerSpec`: for a configured state its own contract states only where success lands and that soft failures are absorbed. The candidate order, the first-non-soft-failure-wins rule and the all-soft-fail result are stated by `Engine.TriggerInOrder`, `Engine.FireAllSoft` and `Engine.FireFirstNotSoft`.
- The configured transition graph (CIRCULATION_LOAN_TRANSITIONS of a deployment) is not part of this model. The `Graph` module uses the one the tests exercise; ITEM_IN_TRANSIT_FOR_PICKUP, ITEM_RETURNED and CANCELLED are terminal in it.

## Findings

| source | as written | input that shows it | evidently intended | confidence | as-written member | corrected member |
|---|---|---|---|---|---|---|
| invenio_circulation/transitions/transitions.py:166-170 | when no pickup location is given, the request hook reads `loan['item_pid']` to default it, even when the loan has no item | loan "1" in CREATED; request on document "doc" whose items are all unavailable; no item pid and no pickup location (`Transitions.RequestPickupKeyErrorExample`) | the request is recorded as PENDING on the document, without item and without pickup location, as the test at tests/test_loan_transition_created_to_pending.py:79-103 expects when a pickup location is given | medium, not executed | `Transitions.RequestBeforeAsWritten` | `Transitions.RequestCheck` |
