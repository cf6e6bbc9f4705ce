/** The policy hooks and configuration values the core reads from the
    application configuration (`current_app.config`), gathered into one value,
    and the concrete policy of tests/utils.py. */
module Policy {
  import opened Wrappers
  import opened Records

  datatype Policy = Policy(
    patronExists: Option<string> -> bool,
    itemExists: Option<string> -> bool,
    documentExists: string -> bool,
    itemCanCirculate: string -> bool,
    canBeRequested: LoanRecord -> bool,
    itemLocation: string -> string,
    itemsOfDocument: string -> seq<string>,
    documentOfItem: string -> Option<string>,
    loanDurationDefault: LoanRecord -> int,
    loanDurationValid: LoanRecord -> bool,
    extensionDurationDefault: LoanRecord -> int,
    extensionMaxCount: LoanRecord -> int,
    extensionFromEndDate: bool,
    /** `permission_factory(loan).can()` for a named permission factory. */
    permits: (string, LoanRecord) -> bool,
    defaultPermission: Option<string>,
    itemRef: Option<string> -> string,
    patronRef: Option<string> -> string,
    documentRef: Option<string> -> string,
    transactionLocationValid: string -> bool,
    transactionUserValid: string -> bool,
    initialState: string,
    activeStates: seq<string>,
    requestStates: seq<string>)

  /** Python's `sys.maxsize` on a 64-bit build. */
  const MaxSize: int := 0x7fff_ffff_ffff_ffff

  /** The ref builders of tests/utils.py: `{"ref": "{}".format(pid)}`, kept as
      the string under "ref". */
  function RefOf(pid: Option<string>): string {
    match pid
    case Some(s) => s
    case None => "None"
  }

  /** `is_loan_duration_valid`: the end is after the start and less than 60
      days later. A loan without both dates is not valid. */
  predicate DurationValid(l: LoanRecord) {
    l.startDate.Some? && l.endDate.Some? &&
    l.endDate.value > l.startDate.value && l.endDate.value - l.startDate.value < 60
  }

  /** The states the tests count as active and as requests. */
  const ActiveStates: seq<string> :=
    ["ITEM_AT_DESK", "ITEM_ON_LOAN", "ITEM_IN_TRANSIT_FOR_PICKUP", "ITEM_IN_TRANSIT_TO_HOUSE"]
  const RequestStates: seq<string> := ["PENDING"]

  /** The policy the test-suite runs against. Every existence and circulation
      check passes, every item is at location "", loans last 30 days and are
      extended by 30 days from their end date, without limit. */
  function TestPolicy(): (p: Policy)
    ensures p.loanDurationValid == DurationValid
  {
    Policy(
      patronExists := _ => true,
      itemExists := _ => true,
      documentExists := _ => true,
      itemCanCirculate := _ => true,
      canBeRequested := _ => true,
      itemLocation := _ => "",
      itemsOfDocument := _ => [],
      documentOfItem := _ => None,
      loanDurationDefault := _ => 30,
      loanDurationValid := DurationValid,
      extensionDurationDefault := _ => 30,
      extensionMaxCount := _ => MaxSize,
      extensionFromEndDate := true,
      permits := (_, _) => true,
      defaultPermission := None,
      itemRef := RefOf,
      patronRef := RefOf,
      documentRef := RefOf,
      transactionLocationValid := loc => loc == "loc_pid",
      transactionUserValid := user => user == "user_pid",
      initialState := "CREATED",
      activeStates := ActiveStates,
      requestStates := RequestStates)
  }

  /** A loan of 59 days is valid and one of 60 days is not; the end must be
      strictly after the start. */
  lemma DurationBoundary(start: int)
    ensures DurationValid(EmptyRecord("").(startDate := Some(start), endDate := Some(start + 59)))
    ensures !DurationValid(EmptyRecord("").(startDate := Some(start), endDate := Some(start + 60)))
    ensures !DurationValid(EmptyRecord("").(startDate := Some(start), endDate := Some(start)))
  {
  }

  /** The test policy's durations and ceilings. */
  lemma TestPolicyValues(l: LoanRecord)
    ensures TestPolicy().loanDurationDefault(l) == 30
    ensures TestPolicy().extensionDurationDefault(l) == 30
    ensures TestPolicy().extensionMaxCount(l) == 9223372036854775807
    ensures TestPolicy().extensionFromEndDate
  {
  }

  /** Every existence, circulation and request check of the test policy
      passes, and every item is at location "". */
  lemma TestPolicyChecksPass(patron: Option<string>, item: Option<string>, i: string, l: LoanRecord)
    ensures TestPolicy().patronExists(patron) && TestPolicy().itemExists(item)
    ensures TestPolicy().documentExists(i) && TestPolicy().itemCanCirculate(i)
    ensures TestPolicy().canBeRequested(l)
    ensures TestPolicy().itemLocation(i) == ""
  {
  }

  /** The transaction validators accept exactly "loc_pid" and "user_pid". */
  lemma TestPolicyValidators(s: string)
    ensures TestPolicy().transactionLocationValid(s) <==> s == "loc_pid"
    ensures TestPolicy().transactionUserValid(s) <==> s == "user_pid"
  {
  }

  /** The ref builders return the pid they are given and ignore the loan. */
  lemma TestPolicyRefs(pid: string)
    ensures TestPolicy().itemRef(Some(pid)) == pid
    ensures TestPolicy().patronRef(Some(pid)) == pid
    ensures TestPolicy().documentRef(Some(pid)) == pid
  {
  }
}
