/** The concrete transitions of invenio_circulation/transitions/transitions.py:
    what each `before` hook checks and writes, first as functions on loan
    values, then as methods that update a Loan object in place. */
module Transitions {
  import opened Wrappers
  import opened Text
  import opened Records
  import opened Errors
  import opened Policy
  import opened Loans
  import opened Api
  import opened Conditions
  import opened Base

  /** The outcome a hook that returns an optional error leaves behind. */
  function Of(err: Option<Error>, l: LoanRecord): Outcome {
    if err.Some? then Failed(err.value, l) else Done(l)
  }

  function DurationMessage(m: LoanRecord): string
    requires m.startDate.Some? && m.endDate.Some?
  {
    "The loan duration from '" + IntToString(m.startDate.value) + "' to '" + IntToString(m.endDate.value) + "' is not valid."
  }

  function ItemNotSetMessage(m: LoanRecord): string {
    "Item not set for loan with pid '" + m.pid + "'"
  }

  function NoItemMessage(m: LoanRecord): string {
    "No item attached in loan with pid '" + m.pid + "'."
  }

  function PickupMessage(t: Transition, atDesk: bool): string {
    if atDesk then "Pickup is not at the same library. Transition to " + t.dest + " has failed."
    else "Pickup is at the same library. Transition to '" + t.dest + "' has failed."
  }

  function CheckinMessage(t: Transition, home: bool): string {
    if home then "Item should be in transit to house. Transition to '" + t.dest + "' has failed."
    else "Item should be returned (already in house). Transition to '" + t.dest + "' has failed."
  }

  function DocumentRequestMessage(t: Transition, l: LoanRecord): string {
    "Transition to " + t.dest + " failed.Document " + Show(l.documentPid) + " can not be requested."
  }

  function ItemRequestMessage(t: Transition, m: LoanRecord): string {
    "Transition to " + t.dest + " failed. Item " + Show(m.itemPid) + " can not be requested."
  }

  /** The start date `_ensure_valid_loan_duration` settles on. */
  function StartOf(m: LoanRecord): Option<int> {
    if m.startDate.Some? then m.startDate else m.transactionDate
  }

  /** `_ensure_valid_loan_duration`: the start defaults to the transaction
      date, a missing end to the start plus the policy's default duration;
      both are written to the loan before the policy judges them. */
  function LoanDuration(m: LoanRecord, pol: Policy): (r: Outcome)
    requires m.transactionDate.Some?
    ensures r.loan.startDate == StartOf(m)
    ensures m.endDate.Some? ==> r.loan.endDate == m.endDate
    ensures m.endDate.None? ==>
      r.loan.endDate == Some(StartOf(m).value + pol.loanDurationDefault(m.(startDate := StartOf(m))))
    ensures r.loan == m.(startDate := r.loan.startDate, endDate := r.loan.endDate)
    ensures r.Failed? <==> !pol.loanDurationValid(r.loan)
    ensures r.Failed? ==> r.error.TransitionConstraintsViolation?
  {
    var m1 := m.(startDate := StartOf(m));
    var m2 := if m1.endDate.Some? then m1 else m1.(endDate := Some(m1.startDate.value + pol.loanDurationDefault(m1)));
    if pol.loanDurationValid(m2) then Done(m2)
    else
      Failed(TransitionConstraintsViolation(Some(DurationMessage(m2))), m2)
  }

  /** The count an extension would reach: the current one, 0 when absent,
      plus one. */
  function NextCount(m: LoanRecord): int {
    (if m.extensionCount.Some? then m.extensionCount.value else 0) + 1
  }

  /** `_ensure_valid_extension`: a count beyond the policy's maximum is
      refused before anything is written; otherwise the count is written,
      then the end date is moved by the policy's extension duration, from the
      old end date or, when the policy says so, from the transaction date.
      The old end date is read either way. */
  function Extension(m: LoanRecord, pol: Policy): (r: Outcome)
    requires m.transactionDate.Some?
    ensures NextCount(m) > pol.extensionMaxCount(m) ==>
      r == Failed(LoanMaxExtension(Some(m.pid), Some(pol.extensionMaxCount(m))), m)
    ensures NextCount(m) <= pol.extensionMaxCount(m) && m.endDate.None? ==>
      r == Failed(KeyMissing("end_date"), m.(extensionCount := Some(NextCount(m))))
    ensures r.Done? <==> NextCount(m) <= pol.extensionMaxCount(m) && m.endDate.Some?
    ensures r.Done? ==>
      var counted := m.(extensionCount := Some(NextCount(m)));
      var from := if pol.extensionFromEndDate then m.endDate.value else m.transactionDate.value;
      r.loan == counted.(endDate := Some(from + pol.extensionDurationDefault(counted)))
  {
    var max := pol.extensionMaxCount(m);
    var count := NextCount(m);
    if count > max then Failed(LoanMaxExtension(Some(m.pid), Some(max)), m)
    else
      var m1 := m.(extensionCount := Some(count));
      var days := pol.extensionDurationDefault(m1);
      if m1.endDate.None? then Failed(KeyMissing("end_date"), m1)
      else
        var end := if pol.extensionFromEndDate then m1.endDate.value else m1.transactionDate.value;
        Done(m1.(endDate := Some(end + days)))
  }

  /** `ensure_item_is_available` of the checkout: the loan must have an item
      and the item must be available for checkout. */
  function AvailabilityCheck(t: Transition, m: LoanRecord, pol: Policy, loans: seq<LoanRecord>): (r: Option<Error>)
    ensures m.itemPid.None? ==> r.Some? && r.value.TransitionConstraintsViolation?
    ensures m.itemPid.Some? ==>
      (r.None? <==> IsItemAvailable(pol, loans, m.itemPid.value) == Ok(true))
    ensures m.itemPid.Some? && IsItemAvailable(pol, loans, m.itemPid.value) == Ok(false) ==>
      r == Some(ItemNotAvailable(m.itemPid, Some(t.dest), None))
  {
    if m.itemPid.None? then
      Some(TransitionConstraintsViolation(Some(ItemNotSetMessage(m))))
    else
      match IsItemAvailable(pol, loans, m.itemPid.value)
      case Err(e) => Some(e)
      case Ok(available) => if available then None else Some(ItemNotAvailable(m.itemPid, Some(t.dest), None))
  }

  /** The two pickup transitions after the merge: a loan without an item
      soft-fails both; otherwise the desk transition needs the item's
      location to be the pickup location and the transit one needs it not
      to be. Neither writes to the loan. */
  function PickupBefore(t: Transition, m: LoanRecord, pol: Policy, atDesk: bool): (r: Outcome)
    ensures r.loan == m
    ensures !Truthy(m.itemPid) ==> r.Failed? && r.error.TransitionConditionsFailed?
    ensures r.Done? <==>
      Truthy(m.itemPid) && m.pickupLocationPid.Some? &&
      (IsSameLocation(pol, m.itemPid.value, m.pickupLocationPid.value) <==> atDesk)
    ensures Truthy(m.itemPid) && m.pickupLocationPid.Some? && r.Failed? ==> r.error.TransitionConditionsFailed?
  {
    if !Truthy(m.itemPid) then
      Failed(TransitionConditionsFailed(Some(NoItemMessage(m))), m)
    else if m.pickupLocationPid.None? then
      Failed(KeyMissing("pickup_location_pid"), m)
    else if IsSameLocation(pol, m.itemPid.value, m.pickupLocationPid.value) != atDesk then
      Failed(TransitionConditionsFailed(Some(PickupMessage(t, atDesk))), m)
    else Done(m)
  }

  /** The two check-in transitions from ITEM_ON_LOAN after the merge: the
      return home needs the transaction location to be the item's location,
      the transit home needs it not to be; either closes the loan at the
      transaction date. */
  function CheckinBefore(t: Transition, m: LoanRecord, pol: Policy, home: bool): (r: Outcome)
    ensures r.Done? <==>
      m.itemPid.Some? && m.transactionLocationPid.Some? &&
      (IsSameLocation(pol, m.itemPid.value, m.transactionLocationPid.value) <==> home)
    ensures r.Done? ==> r.loan == m.(endDate := m.transactionDate)
    ensures r.Failed? ==> r.loan == m
    ensures r.Failed? && m.itemPid.Some? && m.transactionLocationPid.Some? ==> r.error.TransitionConditionsFailed?
    ensures m.itemPid.None? ==> r == Failed(KeyMissing("item_pid"), m)
  {
    if m.itemPid.None? then Failed(KeyMissing("item_pid"), m)
    else if m.transactionLocationPid.None? then Failed(KeyMissing("transaction_location_pid"), m)
    else if IsSameLocation(pol, m.itemPid.value, m.transactionLocationPid.value) != home then
      Failed(TransitionConditionsFailed(Some(CheckinMessage(t, home))), m)
    else Done(m.(endDate := m.transactionDate))
  }

  /** Whether the request decorator treats the call as a request on a
      document: a document pid and no item pid. */
  predicate OnDocument(p: Params) {
    Truthy(p.documentPid) && !Truthy(p.itemPid)
  }

  /** `check_request_on_document`, run before any guard: a request on a
      document must be allowed for the loan as it stands, and then gets the
      document's first available item, if there is one. */
  function RequestParams(t: Transition, l: LoanRecord, p: Params, pol: Policy, loans: seq<LoanRecord>): (r: Result<Params, Error>)
    ensures !OnDocument(p) ==> r == Ok(p)
    ensures OnDocument(p) && !pol.canBeRequested(l) ==> r.Err? && r.error.RecordCannotBeRequested?
    ensures OnDocument(p) && pol.canBeRequested(l) ==>
      match FirstAvailable(pol, loans, pol.itemsOfDocument(p.documentPid.value))
      case Err(e) => r == Err(e)
      case Ok(found) => r == Ok(if Truthy(found) then p.(itemPid := found) else p)
  {
    if !OnDocument(p) then Ok(p)
    else if !pol.canBeRequested(l) then
      Err(RecordCannotBeRequested(Some(DocumentRequestMessage(t, l))))
    else
      match FirstAvailable(pol, loans, pol.itemsOfDocument(p.documentPid.value))
      case Err(e) => Err(e)
      case Ok(found) => Ok(if Truthy(found) then p.(itemPid := found) else p)
  }

  /** The request checks after the merge, as written: the merged loan must
      be requestable, and a missing pickup location is set to the item's
      location, reading the item pid even when the loan has none. */
  function RequestCheckAsWritten(t: Transition, m: LoanRecord, pol: Policy): (r: Outcome)
  {
    if !pol.canBeRequested(m) then
      Failed(RecordCannotBeRequested(Some(ItemRequestMessage(t, m))), m)
    else if Truthy(m.pickupLocationPid) then Done(m)
    else if m.itemPid.None? then Failed(KeyMissing("item_pid"), m)
    else Done(m.(pickupLocationPid := Some(pol.itemLocation(m.itemPid.value))))
  }

  /** The request checks after the merge, with the pickup default applied
      only when there is an item to take the location from. */
  function RequestCheck(t: Transition, m: LoanRecord, pol: Policy): (r: Outcome)
    ensures r.Done? <==> pol.canBeRequested(m)
    ensures r.Failed? ==> r.error.RecordCannotBeRequested? && r.loan == m
    ensures r.Done? && Truthy(m.pickupLocationPid) ==> r.loan == m
    ensures r.Done? && !Truthy(m.pickupLocationPid) && m.itemPid.Some? ==>
      r.loan == m.(pickupLocationPid := Some(pol.itemLocation(m.itemPid.value)))
    ensures r.Done? && !Truthy(m.pickupLocationPid) && m.itemPid.None? ==> r.loan == m
  {
    if !pol.canBeRequested(m) then
      Failed(RecordCannotBeRequested(Some(ItemRequestMessage(t, m))), m)
    else if Truthy(m.pickupLocationPid) || m.itemPid.None? then Done(m)
    else Done(m.(pickupLocationPid := Some(pol.itemLocation(m.itemPid.value))))
  }

  /** The part of each class's `before` hook that runs after the base
      `before` has merged the parameters into the loan `m`. */
  function KindCheck(t: Transition, m: LoanRecord, pol: Policy, loans: seq<LoanRecord>): (r: Outcome)
    requires m.transactionDate.Some?
    ensures r.loan.pid == m.pid && r.loan.state == m.state
    ensures r.Failed? ==> !r.error.NoValidTransitionAvailable?
  {
    match t.kind
    case Plain => Done(m)
    case ToItemOnLoan =>
      var err := AvailabilityCheck(t, m, pol, loans);
      if err.Some? then Failed(err.value, m) else LoanDuration(m, pol)
    case ItemAtDeskToItemOnLoan => LoanDuration(m, pol)
    case CreatedToPending => RequestCheck(t, m, pol)
    case PendingToItemAtDesk => PickupBefore(t, m, pol, true)
    case PendingToItemInTransitPickup => PickupBefore(t, m, pol, false)
    case ItemOnLoanToItemOnLoan => Extension(m, pol)
    case ItemOnLoanToItemInTransitHouse => CheckinBefore(t, m, pol, false)
    case ItemOnLoanToItemReturned => CheckinBefore(t, m, pol, true)
    case ItemInTransitHouseToItemReturned => Done(m)
  }

  /** The parameters the base `before` receives: the request decorator's for
      a request, the caller's otherwise. */
  function HookParams(t: Transition, l: LoanRecord, p: Params, pol: Policy, loans: seq<LoanRecord>): Result<Params, Error> {
    if t.kind.CreatedToPending? then RequestParams(t, l, p, pol, loans) else Ok(p)
  }

  /** The `before` hook of each transition class, on a loan value. `loans`
      are the indexed loans the availability queries search. */
  function Before(t: Transition, l: LoanRecord, p: Params, pol: Policy, loans: seq<LoanRecord>): (r: Outcome)
    ensures r.loan.pid == l.pid && r.loan.state == l.state
    ensures r.Failed? ==> !r.error.NoValidTransitionAvailable?
  {
    match HookParams(t, l, p, pol, loans)
    case Err(e) => Failed(e, l)
    case Ok(q) =>
      match BaseBefore(t, l, q, pol)
      case Failed(e, m) => Failed(e, m)
      case Done(m) => KindCheck(t, m, pol, loans)
  }

  /** `CreatedToPending.before` with the request checks as written. */
  function RequestBeforeAsWritten(t: Transition, l: LoanRecord, p: Params, pol: Policy, loans: seq<LoanRecord>): Outcome {
    match RequestParams(t, l, p, pol, loans)
    case Err(e) => Failed(e, l)
    case Ok(q) =>
      match BaseBefore(t, l, q, pol)
      case Failed(e, m) => Failed(e, m)
      case Done(m) => RequestCheckAsWritten(t, m, pol)
  }

  /** The two pickup transitions from PENDING: once the parameters pass the
      guards of both and the merged loan has an item and a pickup location,
      exactly one of them completes, the desk one precisely when the item is
      at the pickup location; the other soft-fails. */
  lemma PickupExclusive(desk: Transition, transit: Transition, l: LoanRecord, p: Params, pol: Policy, loans: seq<LoanRecord>)
    requires desk.kind == PendingToItemAtDesk && transit.kind == PendingToItemInTransitPickup
    requires Guards(desk, l, p, pol).None? && Guards(transit, l, p, pol).None?
    requires Truthy(Merge(l, p, pol).itemPid) && Merge(l, p, pol).pickupLocationPid.Some?
    ensures Before(desk, l, p, pol, loans).Done? <==>
      IsSameLocation(pol, Merge(l, p, pol).itemPid.value, Merge(l, p, pol).pickupLocationPid.value)
    ensures Before(desk, l, p, pol, loans).Done? != Before(transit, l, p, pol, loans).Done?
    ensures Before(desk, l, p, pol, loans).Failed? ==> Before(desk, l, p, pol, loans).error.TransitionConditionsFailed?
    ensures Before(transit, l, p, pol, loans).Failed? ==> Before(transit, l, p, pol, loans).error.TransitionConditionsFailed?
    ensures Before(desk, l, p, pol, loans).loan == Merge(l, p, pol) == Before(transit, l, p, pol, loans).loan
  {
  }

  /** A pending loan without an item soft-fails both pickup transitions,
      keeping the merged parameters. */
  lemma PickupWithoutItem(t: Transition, l: LoanRecord, p: Params, pol: Policy, loans: seq<LoanRecord>)
    requires t.kind == PendingToItemAtDesk || t.kind == PendingToItemInTransitPickup
    requires Guards(t, l, p, pol).None? && !Truthy(Merge(l, p, pol).itemPid)
    ensures Before(t, l, p, pol, loans) ==
      Failed(TransitionConditionsFailed(Some(NoItemMessage(Merge(l, p, pol)))), Merge(l, p, pol))
  {
  }

  /** Check-in from ITEM_ON_LOAN: with an item on the loan, the return home
      completes exactly when the transaction happens at the item's location
      and the transit home exactly when it does not; the one that completes
      ends the loan at the transaction date. */
  lemma CheckinRouting(home: Transition, away: Transition, l: LoanRecord, p: Params, pol: Policy, loans: seq<LoanRecord>)
    requires home.kind == ItemOnLoanToItemReturned && away.kind == ItemOnLoanToItemInTransitHouse
    requires Guards(home, l, p, pol).None? && Guards(away, l, p, pol).None?
    requires Merge(l, p, pol).itemPid.Some?
    ensures Before(home, l, p, pol, loans).Done? <==>
      IsSameLocation(pol, Merge(l, p, pol).itemPid.value, p.transactionLocationPid.value)
    ensures Before(home, l, p, pol, loans).Done? != Before(away, l, p, pol, loans).Done?
    ensures Before(home, l, p, pol, loans).Failed? ==> Before(home, l, p, pol, loans).error.TransitionConditionsFailed?
    ensures Before(away, l, p, pol, loans).Failed? ==> Before(away, l, p, pol, loans).error.TransitionConditionsFailed?
    ensures Before(home, l, p, pol, loans).Done? ==> Before(home, l, p, pol, loans).loan.endDate == p.transactionDate
    ensures Before(away, l, p, pol, loans).Done? ==> Before(away, l, p, pol, loans).loan.endDate == p.transactionDate
  {
  }

  /** A checkout from CREATED with an available item and no dates starts the
      loan at the transaction date and ends it after the default duration. */
  lemma CheckoutDates(t: Transition, l: LoanRecord, p: Params, pol: Policy, loans: seq<LoanRecord>)
    requires t.kind == ToItemOnLoan && Guards(t, l, p, pol).None?
    requires Merge(l, p, pol).itemPid.Some? && IsItemAvailable(pol, loans, Merge(l, p, pol).itemPid.value) == Ok(true)
    requires Merge(l, p, pol).startDate.None? && Merge(l, p, pol).endDate.None?
    ensures Before(t, l, p, pol, loans).loan.startDate == p.transactionDate
    ensures Before(t, l, p, pol, loans).loan.endDate ==
      Some(p.transactionDate.value + pol.loanDurationDefault(Merge(l, p, pol).(startDate := p.transactionDate)))
    ensures Before(t, l, p, pol, loans).Done? <==> pol.loanDurationValid(Before(t, l, p, pol, loans).loan)
  {
  }

  /** Dates given with a checkout are kept as given. */
  lemma CheckoutKeepsGivenDates(t: Transition, l: LoanRecord, p: Params, pol: Policy, loans: seq<LoanRecord>)
    requires t.kind == ToItemOnLoan || t.kind == ItemAtDeskToItemOnLoan
    requires Guards(t, l, p, pol).None? && p.startDate.Some? && p.endDate.Some?
    requires t.kind == ToItemOnLoan ==>
      Merge(l, p, pol).itemPid.Some? && IsItemAvailable(pol, loans, Merge(l, p, pol).itemPid.value) == Ok(true)
    ensures Before(t, l, p, pol, loans).loan.startDate == p.startDate
    ensures Before(t, l, p, pol, loans).loan.endDate == p.endDate
    ensures Before(t, l, p, pol, loans).Failed? ==> Before(t, l, p, pol, loans).error.TransitionConstraintsViolation?
  {
  }

  /** A checkout of an item that is out on another active loan is refused
      with ItemNotAvailable, which aborts the trigger; the checkout of an item
      waiting at the desk does not look at other loans at all. */
  lemma CheckoutAvailability(t: Transition, l: LoanRecord, p: Params, pol: Policy, loans: seq<LoanRecord>, other: LoanRecord)
    requires Guards(t, l, p, pol).None? && Merge(l, p, pol).itemPid.Some?
    requires pol.itemCanCirculate(Merge(l, p, pol).itemPid.value) && Merge(l, p, pol).itemPid.value != ""
    requires other in loans && BlocksItem(pol, other, Merge(l, p, pol).itemPid.value)
    ensures t.kind == ToItemOnLoan ==>
      Before(t, l, p, pol, loans) == Failed(ItemNotAvailable(Merge(l, p, pol).itemPid, Some(t.dest), None), Merge(l, p, pol))
    ensures t.kind == ItemAtDeskToItemOnLoan ==>
      Before(t, l, p, pol, loans) == Before(t, l, p, pol, [])
  {
  }

  /** An extension under the test policy: the count goes up by one and the
      end date moves 30 days on from the old end date. */
  lemma TestPolicyExtension(t: Transition, l: LoanRecord, p: Params, loans: seq<LoanRecord>)
    requires t.kind == ItemOnLoanToItemOnLoan && Guards(t, l, p, TestPolicy()).None?
    requires Merge(l, p, TestPolicy()).endDate.Some? && NextCount(Merge(l, p, TestPolicy())) <= MaxSize
    ensures Before(t, l, p, TestPolicy(), loans) ==
      Done(Merge(l, p, TestPolicy()).(extensionCount := Some(NextCount(Merge(l, p, TestPolicy()))),
                                      endDate := Some(Merge(l, p, TestPolicy()).endDate.value + 30)))
  {
  }

  /** Reaching the extension ceiling is refused and writes nothing past the
      merge. */
  lemma ExtensionCeiling(t: Transition, l: LoanRecord, p: Params, pol: Policy, loans: seq<LoanRecord>)
    requires t.kind == ItemOnLoanToItemOnLoan && Guards(t, l, p, pol).None?
    requires NextCount(Merge(l, p, pol)) > pol.extensionMaxCount(Merge(l, p, pol))
    ensures Before(t, l, p, pol, loans) ==
      Failed(LoanMaxExtension(Some(l.pid), Some(pol.extensionMaxCount(Merge(l, p, pol)))), Merge(l, p, pol))
  {
  }

  /** A request on a document alone gets the document's first available
      item, and the pickup location defaults to that item's location. */
  lemma RequestAssignsItem(t: Transition, l: LoanRecord, p: Params, pol: Policy, loans: seq<LoanRecord>, item: string)
    requires t.kind == CreatedToPending && OnDocument(p) && pol.canBeRequested(l)
    requires FirstAvailable(pol, loans, pol.itemsOfDocument(p.documentPid.value)) == Ok(Some(item)) && item != ""
    requires Guards(t, l, p.(itemPid := Some(item)), pol).None?
    requires pol.canBeRequested(Merge(l, p.(itemPid := Some(item)), pol))
    requires !Truthy(Merge(l, p, pol).pickupLocationPid)
    ensures Before(t, l, p, pol, loans).Done?
    ensures Before(t, l, p, pol, loans).loan.itemPid == Some(item)
    ensures Before(t, l, p, pol, loans).loan.pickupLocationPid == Some(pol.itemLocation(item))
  {
  }

  /** A request on a document none of whose items is available. The hook
      as written records it, keeping a given pickup location, whenever the
      merged loan has a pickup location or an item pid, and then agrees with
      the corrected hook; with neither it stops with a KeyError on the item
      pid, where the corrected hook records the request without an item. */
  lemma RequestWithoutAvailableItem(t: Transition, l: LoanRecord, p: Params, pol: Policy, loans: seq<LoanRecord>)
    requires t.kind == CreatedToPending && OnDocument(p) && pol.canBeRequested(l)
    requires FirstAvailable(pol, loans, pol.itemsOfDocument(p.documentPid.value)) == Ok(None)
    requires Guards(t, l, p, pol).None? && pol.canBeRequested(Merge(l, p, pol))
    ensures var m := Merge(l, p, pol);
      (m.itemPid.Some? || Truthy(m.pickupLocationPid)) ==>
        RequestBeforeAsWritten(t, l, p, pol, loans).Done? &&
        RequestBeforeAsWritten(t, l, p, pol, loans) == Before(t, l, p, pol, loans)
    ensures var m := Merge(l, p, pol);
      Truthy(m.pickupLocationPid) ==> RequestBeforeAsWritten(t, l, p, pol, loans) == Done(m)
    ensures var m := Merge(l, p, pol);
      (m.itemPid.None? && !Truthy(m.pickupLocationPid)) ==>
        RequestBeforeAsWritten(t, l, p, pol, loans) == Failed(KeyMissing("item_pid"), m)
    ensures Before(t, l, p, pol, loans).Done?
    ensures Before(t, l, p, pol, loans).loan.itemPid == Merge(l, p, pol).itemPid
  {
  }

  /** The request hook's decorator runs before the trigger guard: a
      document request that the policy refuses fails hard, with
      RecordCannotBeRequested, even when the trigger names another
      transition. */
  lemma RequestDecoratorBeforeTrigger(t: Transition, l: LoanRecord, p: Params, pol: Policy, loans: seq<LoanRecord>)
    requires t.kind == CreatedToPending && OnDocument(p) && !pol.canBeRequested(l)
    ensures Before(t, l, p, pol, loans).Failed?
    ensures Before(t, l, p, pol, loans).error.RecordCannotBeRequested?
    ensures Before(t, l, p, pol, loans).loan == l
  {
  }

  /** A trigger that names another transition makes every other hook
      soft-fail before anything is checked or written. */
  lemma TriggerMismatchSoftFails(t: Transition, l: LoanRecord, p: Params, pol: Policy, loans: seq<LoanRecord>)
    requires !t.kind.CreatedToPending? || !OnDocument(p)
    requires CheckTrigger(t, p).Some?
    ensures Before(t, l, p, pol, loans) == Failed(CheckTrigger(t, p).value, l)
    ensures Before(t, l, p, pol, loans).error.TransitionConditionsFailed?
  {
  }

  /** A permission factory that denies the loan stops every hook with
      InvalidPermission and leaves the loan as it was. */
  lemma PermissionDenied(t: Transition, l: LoanRecord, p: Params, pol: Policy, loans: seq<LoanRecord>)
    requires !t.kind.CreatedToPending? || !OnDocument(p)
    requires CheckTrigger(t, p).None? && RequiredParamsCheck(p).None? && SameItemPatron(l, p, pol).None?
    requires t.permission.Some? && !pol.permits(t.permission.value, l)
    ensures Before(t, l, p, pol, loans) == Failed(InvalidPermission(None, None), l)
  {
  }

  /** The hook as written stops with a KeyError on a document request that
      found no available item and names no pickup location, because the
      pickup default reads the loan's item pid; the corrected hook records
      the request without item and without pickup location. */
  lemma RequestPickupKeyError(t: Transition, l: LoanRecord, p: Params, pol: Policy, loans: seq<LoanRecord>)
    requires t.kind == CreatedToPending && OnDocument(p) && pol.canBeRequested(l)
    requires FirstAvailable(pol, loans, pol.itemsOfDocument(p.documentPid.value)) == Ok(None)
    requires Guards(t, l, p, pol).None? && pol.canBeRequested(Merge(l, p, pol))
    requires p.itemPid.None? && l.itemPid.None? && p.pickupLocationPid.None? && l.pickupLocationPid.None?
    ensures RequestBeforeAsWritten(t, l, p, pol, loans) == Failed(KeyMissing("item_pid"), Merge(l, p, pol))
    ensures Before(t, l, p, pol, loans) == Done(Merge(l, p, pol))
    ensures Before(t, l, p, pol, loans).loan.itemPid.None? && Before(t, l, p, pol, loans).loan.pickupLocationPid.None?
  {
  }

  /** An instance of the above under the test policy: the loan "1" in
      CREATED, requested for document "doc" whose item list is empty, with
      every required parameter and no pickup location. */
  lemma RequestPickupKeyErrorExample()
    ensures
      var t := Transition("CREATED", "PENDING", "request", CreatedToPending, None);
      var l := EmptyRecord("1").(state := Some("CREATED"));
      var p := Params(Some("request"), Some("user_pid"), Some("1"), Some("loc_pid"), Some(0),
                      None, Some("doc"), None, None, None, None);
      RequestBeforeAsWritten(t, l, p, TestPolicy(), []) == Failed(KeyMissing("item_pid"), Merge(l, p, TestPolicy())) &&
      Before(t, l, p, TestPolicy(), []).Done?
  {
    var t := Transition("CREATED", "PENDING", "request", CreatedToPending, None);
    var l := EmptyRecord("1").(state := Some("CREATED"));
    var p := Params(Some("request"), Some("user_pid"), Some("1"), Some("loc_pid"), Some(0),
                    None, Some("doc"), None, None, None, None);
    assert Guards(t, l, p, TestPolicy()).None?;
    RequestPickupKeyError(t, l, p, TestPolicy(), []);
  }

  /** `_ensure_valid_loan_duration` on the loan object: fills in the start
      and end dates, then asks the policy. */
  method EnsureValidLoanDuration(loan: Loan, pol: Policy) returns (err: Option<Error>)
    requires loan.data.transactionDate.Some?
    modifies loan
    ensures Of(err, loan.data) == LoanDuration(old(loan.data), pol)
  {
    if loan.data.startDate.None? {
      loan.data := loan.data.(startDate := loan.data.transactionDate);
    }
    if loan.data.endDate.None? {
      var days := pol.loanDurationDefault(loan.data);
      loan.data := loan.data.(endDate := Some(loan.data.startDate.value + days));
    }
    if !pol.loanDurationValid(loan.data) {
      return Some(TransitionConstraintsViolation(Some(DurationMessage(loan.data))));
    }
    return None;
  }

  /** `_ensure_valid_extension` on the loan object. */
  method EnsureValidExtension(loan: Loan, pol: Policy) returns (err: Option<Error>)
    requires loan.data.transactionDate.Some?
    modifies loan
    ensures Of(err, loan.data) == Extension(old(loan.data), pol)
  {
    var max := pol.extensionMaxCount(loan.data);
    var count := NextCount(loan.data);
    if count > max {
      return Some(LoanMaxExtension(Some(loan.data.pid), Some(max)));
    }
    loan.data := loan.data.(extensionCount := Some(count));
    var days := pol.extensionDurationDefault(loan.data);
    if loan.data.endDate.None? {
      return Some(KeyMissing("end_date"));
    }
    var end := loan.data.endDate.value;
    if !pol.extensionFromEndDate {
      end := loan.data.transactionDate.value;
    }
    loan.data := loan.data.(endDate := Some(end + days));
    return None;
  }

  /** `_ensure_item_attached_to_loan` and the location test of the pickup
      transitions; they only read the loan. */
  method EnsurePickup(t: Transition, loan: Loan, pol: Policy, atDesk: bool) returns (err: Option<Error>)
    ensures Of(err, loan.data) == PickupBefore(t, loan.data, pol, atDesk)
  {
    if !Truthy(loan.data.itemPid) {
      return Some(TransitionConditionsFailed(Some(NoItemMessage(loan.data))));
    }
    if loan.data.pickupLocationPid.None? {
      return Some(KeyMissing("pickup_location_pid"));
    }
    if IsSameLocation(pol, loan.data.itemPid.value, loan.data.pickupLocationPid.value) != atDesk {
      return Some(TransitionConditionsFailed(Some(PickupMessage(t, atDesk))));
    }
    return None;
  }

  /** The location test of the check-in transitions, then the end date. */
  method CheckIn(t: Transition, loan: Loan, pol: Policy, home: bool) returns (err: Option<Error>)
    modifies loan
    ensures Of(err, loan.data) == CheckinBefore(t, old(loan.data), pol, home)
  {
    if loan.data.itemPid.None? {
      return Some(KeyMissing("item_pid"));
    }
    if loan.data.transactionLocationPid.None? {
      return Some(KeyMissing("transaction_location_pid"));
    }
    if IsSameLocation(pol, loan.data.itemPid.value, loan.data.transactionLocationPid.value) != home {
      return Some(TransitionConditionsFailed(Some(CheckinMessage(t, home))));
    }
    loan.data := loan.data.(endDate := loan.data.transactionDate);
    return None;
  }

  /** The request checks after the merge, with the pickup default. */
  method EnsureRequestable(t: Transition, loan: Loan, pol: Policy) returns (err: Option<Error>)
    modifies loan
    ensures Of(err, loan.data) == RequestCheck(t, old(loan.data), pol)
  {
    if !pol.canBeRequested(loan.data) {
      return Some(RecordCannotBeRequested(Some(ItemRequestMessage(t, loan.data))));
    }
    if !Truthy(loan.data.pickupLocationPid) && loan.data.itemPid.Some? {
      loan.data := loan.data.(pickupLocationPid := Some(pol.itemLocation(loan.data.itemPid.value)));
    }
    return None;
  }

  /** What each class's `before` does once the base `before` has merged the
      parameters. */
  method RunKindCheck(t: Transition, loan: Loan, pol: Policy, loans: seq<LoanRecord>) returns (err: Option<Error>)
    requires loan.data.transactionDate.Some?
    modifies loan
    ensures Of(err, loan.data) == KindCheck(t, old(loan.data), pol, loans)
  {
    match t.kind
    case Plain => err := None;
    case ToItemOnLoan =>
      err := AvailabilityCheck(t, loan.data, pol, loans);
      if err.None? {
        err := EnsureValidLoanDuration(loan, pol);
      }
    case ItemAtDeskToItemOnLoan => err := EnsureValidLoanDuration(loan, pol);
    case CreatedToPending => err := EnsureRequestable(t, loan, pol);
    case PendingToItemAtDesk => err := EnsurePickup(t, loan, pol, true);
    case PendingToItemInTransitPickup => err := EnsurePickup(t, loan, pol, false);
    case ItemOnLoanToItemOnLoan => err := EnsureValidExtension(loan, pol);
    case ItemOnLoanToItemInTransitHouse => err := CheckIn(t, loan, pol, false);
    case ItemOnLoanToItemReturned => err := CheckIn(t, loan, pol, true);
    case ItemInTransitHouseToItemReturned => err := None;
  }

  /** The `before` hook of the transition on the loan object: the request
      decorator, the guards, the merge, then the class's own checks. */
  method RunBefore(t: Transition, loan: Loan, p: Params, pol: Policy, loans: seq<LoanRecord>) returns (err: Option<Error>)
    modifies loan
    ensures Of(err, loan.data) == Before(t, old(loan.data), p, pol, loans)
  {
    var q := p;
    if t.kind.CreatedToPending? && OnDocument(p) {
      if !pol.canBeRequested(loan.data) {
        return Some(RecordCannotBeRequested(Some(DocumentRequestMessage(t, loan.data))));
      }
      var found := GetAvailableItemByDocPid(pol, loans, p.documentPid.value);
      if found.Err? {
        return Some(found.error);
      }
      if Truthy(found.value) {
        q := p.(itemPid := found.value);
      }
    }
    assert HookParams(t, loan.data, p, pol, loans) == Ok(q);
    err := Guards(t, loan.data, q, pol);
    if err.Some? {
      return;
    }
    assert BaseBefore(t, loan.data, q, pol).Done?;
    loan.Update(q, pol);
    err := RunKindCheck(t, loan, pol, loans);
  }
}
