/** The base Transition of invenio_circulation/transitions/base.py: its
    construction, its guard decorators and the parameter merge of `before`. */
module Base {
  import opened Wrappers
  import opened Text
  import opened Records
  import opened Errors
  import opened Policy
  import opened Search
  import opened Loans

  /** The transition classes: the base class and its eight subclasses. */
  datatype Kind =
    | Plain
    | ToItemOnLoan
    | ItemAtDeskToItemOnLoan
    | CreatedToPending
    | PendingToItemAtDesk
    | PendingToItemInTransitPickup
    | ItemOnLoanToItemOnLoan
    | ItemOnLoanToItemInTransitHouse
    | ItemOnLoanToItemReturned
    | ItemInTransitHouseToItemReturned

  /** A constructed transition. `permission` names the permission factory in
      force, if any. */
  datatype Transition = Transition(src: string, dest: string, trigger: string, kind: Kind, permission: Option<string>)

  /** One entry of a source state's list in the transitions configuration:
      `dest`, and the optional `trigger`, `transition` class and
      `permission_factory`. */
  datatype TransitionSpec = TransitionSpec(dest: string, trigger: Option<string>, kind: Option<Kind>, permission: Option<string>)

  /** The outcome of a `before` hook: the loan as the hook left it, and the
      error it raised, if any. A hook that fails after the merge leaves the
      merged loan behind. */
  datatype Outcome = Done(loan: LoanRecord) | Failed(error: Error, loan: LoanRecord)

  /** `Transition.__init__` with `validate_transition_states`: the trigger
      defaults to "next", the permission factory to the configured default,
      and both states must be keys of the transitions configuration. */
  function NewTransition(src: string, spec: TransitionSpec, states: seq<string>, pol: Policy): (r: Result<Transition, Error>)
    ensures r.Ok? <==> src in states && spec.dest in states
    ensures r.Ok? ==> r.value.src == src && r.value.dest == spec.dest
    ensures r.Ok? ==> r.value.trigger == (if spec.trigger.Some? then spec.trigger.value else "next")
    ensures r.Ok? ==> r.value.kind == (if spec.kind.Some? then spec.kind.value else Plain)
    ensures r.Ok? && spec.permission.Some? ==> r.value.permission == spec.permission
    ensures r.Ok? && spec.permission.None? ==> r.value.permission == pol.defaultPermission
    ensures r.Err? ==> r.error.InvalidLoanState? && r.error.state.None?
  {
    if src in states && spec.dest in states then
      Ok(Transition(src, spec.dest, spec.trigger.GetOr("next"), spec.kind.GetOr(Plain),
                    if spec.permission.Some? then spec.permission else pol.defaultPermission))
    else
      Err(InvalidLoanState(None, Some("Source state '" + src + "' or destination state '" + spec.dest +
                                      "' not in [dict_keys(" + ListRepr(states) + ")]")))
  }

  /** `check_trigger`: the supplied trigger, "next" when none is given, must
      be the transition's own; otherwise the transition soft-fails. */
  function CheckTrigger(t: Transition, p: Params): (r: Option<Error>)
    ensures r.None? <==> (p.trigger.None? && t.trigger == "next") || p.trigger == Some(t.trigger)
    ensures r.Some? ==> r.value.TransitionConditionsFailed?
  {
    if p.trigger.GetOr("next") != t.trigger then
      Some(TransitionConditionsFailed(Some("No param 'trigger' with value '" + t.trigger + "'.")))
    else None
  }

  /** The keyword arguments the parameter guard looks for. */
  datatype ParamName = TransactionUserPid | PatronPid | TransactionLocationPid | TransactionDate | ItemPid | DocumentPid

  /** The keyword as spelled in the source. */
  function Name(n: ParamName): string {
    match n
    case TransactionUserPid => "transaction_user_pid"
    case PatronPid => "patron_pid"
    case TransactionLocationPid => "transaction_location_pid"
    case TransactionDate => "transaction_date"
    case ItemPid => "item_pid"
    case DocumentPid => "document_pid"
  }

  function Names(ns: seq<ParamName>): (r: seq<string>)
    ensures |r| == |ns|
  {
    seq(|ns|, i requires 0 <= i < |ns| => Name(ns[i]))
  }

  /** REQUIRED_PARAMS, in the order the source lists them. */
  const RequiredParams: seq<ParamName> := [TransactionUserPid, PatronPid, TransactionLocationPid, TransactionDate]

  /** Whether the keyword argument `n` was passed. */
  predicate Has(p: Params, n: ParamName) {
    match n
    case TransactionUserPid => p.transactionUserPid.Some?
    case PatronPid => p.patronPid.Some?
    case TransactionLocationPid => p.transactionLocationPid.Some?
    case TransactionDate => p.transactionDate.Some?
    case ItemPid => p.itemPid.Some?
    case DocumentPid => p.documentPid.Some?
  }

  /** The names among `names` that were not passed, in order. */
  function Missing(names: seq<ParamName>, p: Params): (r: seq<ParamName>)
    ensures forall n :: n in r <==> n in names && !Has(p, n)
    decreases |names|
  {
    if names == [] then []
    else (if Has(p, names[0]) then [] else [names[0]]) + Missing(names[1..], p)
  }

  function MissingMessage(names: seq<string>): string {
    "Required input parameters are missing '[" + ListRepr(names) + "]'"
  }

  function PartialMessage(names: seq<string>): string {
    "One of the parameters '[" + ListRepr(names) + "]' must be passed."
  }

  /** `ensure_required_params`: every one of REQUIRED_PARAMS, and one of
      `item_pid` and `document_pid`, must be passed. The message lists the
      missing names; when only the partial pair is missing the list it
      prints is the (empty) list of missing required names. */
  function RequiredParamsCheck(p: Params): (r: Option<Error>)
    ensures r.None? <==>
      p.transactionUserPid.Some? && p.patronPid.Some? && p.transactionLocationPid.Some? &&
      p.transactionDate.Some? && (p.itemPid.Some? || p.documentPid.Some?)
    ensures r.Some? ==> r.value.TransitionConstraintsViolation?
  {
    var missing := Missing(RequiredParams, p);
    if missing != [] then
      Some(TransitionConstraintsViolation(Some(MissingMessage(Names(missing)))))
    else if !Has(p, ItemPid) && !Has(p, DocumentPid) then
      Some(TransitionConstraintsViolation(Some(PartialMessage(Names(missing)))))
    else
      assert forall n :: n in RequiredParams ==> Has(p, n);
      None
  }

  /** `ensure_same_item_patron`: the supplied item and patron must exist, and
      neither may differ from the one the loan already has. */
  function SameItemPatron(l: LoanRecord, p: Params, pol: Policy): (r: Option<Error>)
    ensures r.None? <==>
      pol.itemExists(p.itemPid) && (!Truthy(l.itemPid) || p.itemPid == l.itemPid) &&
      pol.patronExists(p.patronPid) && (l.patronPid.None? || p.patronPid == l.patronPid)
    ensures !pol.itemExists(p.itemPid) ==> r.Some? && r.value.ItemNotAvailable?
    ensures pol.itemExists(p.itemPid) && Truthy(l.itemPid) && p.itemPid != l.itemPid ==>
      r.Some? && r.value.ItemDoNotMatch?
    ensures r.Some? && r.value.TransitionConstraintsViolation? <==>
      pol.itemExists(p.itemPid) && (!Truthy(l.itemPid) || p.itemPid == l.itemPid) &&
      (!pol.patronExists(p.patronPid) || (l.patronPid.Some? && p.patronPid != l.patronPid))
  {
    if !pol.itemExists(p.itemPid) then
      Some(ItemNotAvailable(None, None, Some("Item '" + Show(p.itemPid) + "' not found in the system")))
    else if Truthy(l.itemPid) && p.itemPid != l.itemPid then
      Some(ItemDoNotMatch(Some("Loan item is '" + Show(l.itemPid) + "' but transition is trying to set it to '" + Show(p.itemPid) + "'")))
    else if !pol.patronExists(p.patronPid) then
      Some(TransitionConstraintsViolation(Some("Patron '" + Show(p.patronPid) + "' not found in the system")))
    else if l.patronPid.Some? && p.patronPid != l.patronPid then
      Some(TransitionConstraintsViolation(Some("Loan patron is '" + Show(l.patronPid) + "' but transition is trying to set it to '" + Show(p.patronPid) + "'")))
    else None
  }

  /** The permission test at the head of `Transition.before`: a transition
      with a permission factory that denies the loan raises
      InvalidPermission with neither action nor permission named. */
  function PermissionCheck(t: Transition, l: LoanRecord, pol: Policy): (r: Option<Error>)
    ensures r.Some? <==> t.permission.Some? && !pol.permits(t.permission.value, l)
    ensures r.Some? ==> r.value == InvalidPermission(None, None)
  {
    if t.permission.Some? && !pol.permits(t.permission.value, l) then Some(InvalidPermission(None, None)) else None
  }

  /** The decorated `Transition.before` up to the merge: the guards in the
      order the decorators apply them, the first failure winning. */
  function Guards(t: Transition, l: LoanRecord, p: Params, pol: Policy): (r: Option<Error>)
    ensures CheckTrigger(t, p).Some? ==> r == CheckTrigger(t, p)
    ensures CheckTrigger(t, p).None? && RequiredParamsCheck(p).Some? ==> r == RequiredParamsCheck(p)
    ensures r.None? <==>
      CheckTrigger(t, p).None? && RequiredParamsCheck(p).None? &&
      SameItemPatron(l, p, pol).None? && PermissionCheck(t, l, pol).None?
    ensures r.Some? && r.value.TransitionConditionsFailed? <==> CheckTrigger(t, p).Some?
  {
    if CheckTrigger(t, p).Some? then CheckTrigger(t, p)
    else if RequiredParamsCheck(p).Some? then RequiredParamsCheck(p)
    else if SameItemPatron(l, p, pol).Some? then SameItemPatron(l, p, pol)
    else PermissionCheck(t, l, pol)
  }

  /** `Transition.before`: a failed guard leaves the loan untouched;
      otherwise every parameter is merged into the loan, which then carries
      all the required parameters. */
  function BaseBefore(t: Transition, l: LoanRecord, p: Params, pol: Policy): (r: Outcome)
    ensures r.Failed? <==> Guards(t, l, p, pol).Some?
    ensures r.Failed? ==> r.error == Guards(t, l, p, pol).value && r.loan == l
    ensures r.Done? ==> r.loan == Merge(l, p, pol)
    ensures r.Done? ==>
      r.loan.transactionDate.Some? && r.loan.transactionLocationPid.Some? &&
      r.loan.transactionUserPid.Some? && r.loan.patronPid.Some?
    ensures r.Done? ==> r.loan.trigger == p.trigger || (p.trigger.None? && r.loan.trigger == l.trigger)
  {
    match Guards(t, l, p, pol)
    case Some(e) => Failed(e, l)
    case None => Done(Merge(l, p, pol))
  }

  /** The order of the guards: a trigger mismatch is reported even when every
      other guard would fail too, and a denied permission only once all the
      parameter checks pass. */
  lemma GuardOrder(t: Transition, l: LoanRecord, p: Params, pol: Policy)
    ensures CheckTrigger(t, p).Some? ==>
      Guards(t, l, p, pol) == Some(TransitionConditionsFailed(Some("No param 'trigger' with value '" + t.trigger + "'.")))
    ensures Guards(t, l, p, pol) == Some(InvalidPermission(None, None)) ==>
      CheckTrigger(t, p).None? && RequiredParamsCheck(p).None? && SameItemPatron(l, p, pol).None?
  {
  }

  /** A missing required parameter is named in the message. */
  lemma MissingPatronMessage(p: Params)
    requires p.patronPid.None? && p.transactionUserPid.Some? && p.transactionLocationPid.Some? && p.transactionDate.Some?
    ensures RequiredParamsCheck(p) == Some(TransitionConstraintsViolation(Some(MissingMessage(["patron_pid"]))))
  {
    assert Missing(RequiredParams, p) == [PatronPid];
    assert Names([PatronPid]) == ["patron_pid"];
  }

  /** When only the item and the document are missing, the message prints
      the empty list of missing required names. */
  lemma MissingItemAndDocumentMessage(p: Params)
    requires p.transactionUserPid.Some? && p.patronPid.Some? && p.transactionLocationPid.Some? && p.transactionDate.Some?
    requires p.itemPid.None? && p.documentPid.None?
    ensures RequiredParamsCheck(p) == Some(TransitionConstraintsViolation(Some(PartialMessage([]))))
  {
    assert Missing(RequiredParams, p) == [];
    assert Names([]) == [];
  }

  /** The two messages as Python formats them: the list of missing names
      is printed inside an extra pair of brackets. */
  lemma MessageTexts()
    ensures MissingMessage(["patron_pid"]) == "Required input parameters are missing '[['patron_pid']]'"
    ensures PartialMessage([]) == "One of the parameters '[[]]' must be passed."
  {
    assert ListRepr(["patron_pid"]) == "['patron_pid']";
    assert ListRepr([]) == "[]";
  }

  /** ItemNotAvailable writes its own description after the base
      constructor, so the "not found in the system" text of the item guard
      is lost: the exception names neither item nor transition, whatever the
      guard passed. */
  lemma MissingItemDescription(l: LoanRecord, p: Params, pol: Policy)
    requires !pol.itemExists(p.itemPid)
    ensures SameItemPatron(l, p, pol).value.ItemNotAvailable?
    ensures Description(SameItemPatron(l, p, pol).value) == Description(ItemNotAvailable(None, None, None))
  {
    var e := SameItemPatron(l, p, pol).value;
    assert e == ItemNotAvailable(None, None, e.description);
    ItemNotAvailableIgnoresDescription(None, None, e.description, None);
  }
}
