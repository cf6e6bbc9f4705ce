/** The loan record (a dictionary in invenio_circulation/api.py) and the
    keyword parameters a transition is triggered with. A key that is absent
    is `None`; dates are whole days. */
module Records {
  import opened Wrappers

  datatype LoanRecord = LoanRecord(
    pid: string,
    state: Option<string>,
    trigger: Option<string>,
    transactionUserPid: Option<string>,
    patronPid: Option<string>,
    transactionLocationPid: Option<string>,
    transactionDate: Option<int>,
    itemPid: Option<string>,
    documentPid: Option<string>,
    pickupLocationPid: Option<string>,
    startDate: Option<int>,
    endDate: Option<int>,
    extensionCount: Option<int>,
    cancelReason: Option<string>,
    item: Option<string>,
    patron: Option<string>,
    document: Option<string>)

  /** The `**kwargs` of `trigger` and `execute`. */
  datatype Params = Params(
    trigger: Option<string>,
    transactionUserPid: Option<string>,
    patronPid: Option<string>,
    transactionLocationPid: Option<string>,
    transactionDate: Option<int>,
    itemPid: Option<string>,
    documentPid: Option<string>,
    pickupLocationPid: Option<string>,
    startDate: Option<int>,
    endDate: Option<int>,
    cancelReason: Option<string>)

  /** A record with only its pid, as handed to `Loan.create`. */
  function EmptyRecord(pid: string): LoanRecord {
    LoanRecord(pid, None, None, None, None, None, None, None, None, None, None, None, None, None, None, None, None)
  }

  /** A loan is in one of `states` (a configured list). */
  predicate InStates(l: LoanRecord, states: seq<string>) {
    l.state.Some? && l.state.value in states
  }
}
