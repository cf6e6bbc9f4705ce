/** The Loan record class of invenio_circulation/api.py: a dictionary whose
    keys the transitions update in place. */
module Loans {
  import opened Wrappers
  import opened Records
  import opened Errors
  import opened Policy

  /** `new` replaces `old` exactly when it was supplied. */
  predicate Overrides<T(==)>(now: Option<T>, given: Option<T>, was: Option<T>) {
    (given.Some? ==> now == given) && (given.None? ==> now == was)
  }

  /** `build_resolver_fields`: the item, patron and document refs are built
      from the loan's own pid. */
  function WithRefs(l: LoanRecord, pol: Policy): (r: LoanRecord)
    ensures r.item == Some(pol.itemRef(Some(l.pid)))
    ensures r.patron == Some(pol.patronRef(Some(l.pid)))
    ensures r.document == Some(pol.documentRef(Some(l.pid)))
    ensures r.(item := l.item, patron := l.patron, document := l.document) == l
  {
    l.(item := Some(pol.itemRef(Some(l.pid))),
       patron := Some(pol.patronRef(Some(l.pid))),
       document := Some(pol.documentRef(Some(l.pid))))
  }

  /** The value a key has after `dict.update`: the supplied one, if any. */
  function Pick<T>(given: Option<T>, was: Option<T>): Option<T> {
    if given.Some? then given else was
  }

  /** `loan.update(kwargs)` (Loan.update): every supplied parameter, the
      trigger included, is copied onto the loan, then the refs are rebuilt.
      The pid, the state and the fields no parameter names are kept. */
  function Merge(l: LoanRecord, p: Params, pol: Policy): (r: LoanRecord)
    ensures r.pid == l.pid && r.state == l.state
    ensures r.extensionCount == l.extensionCount
    ensures Overrides(r.trigger, p.trigger, l.trigger)
    ensures Overrides(r.transactionUserPid, p.transactionUserPid, l.transactionUserPid)
    ensures Overrides(r.patronPid, p.patronPid, l.patronPid)
    ensures Overrides(r.transactionLocationPid, p.transactionLocationPid, l.transactionLocationPid)
    ensures Overrides(r.transactionDate, p.transactionDate, l.transactionDate)
    ensures Overrides(r.itemPid, p.itemPid, l.itemPid)
    ensures Overrides(r.documentPid, p.documentPid, l.documentPid)
    ensures Overrides(r.pickupLocationPid, p.pickupLocationPid, l.pickupLocationPid)
    ensures Overrides(r.startDate, p.startDate, l.startDate)
    ensures Overrides(r.endDate, p.endDate, l.endDate)
    ensures Overrides(r.cancelReason, p.cancelReason, l.cancelReason)
    ensures r.item == Some(pol.itemRef(Some(l.pid)))
    ensures r.patron == Some(pol.patronRef(Some(l.pid)))
    ensures r.document == Some(pol.documentRef(Some(l.pid)))
  {
    var m := l.(
      trigger := Pick(p.trigger, l.trigger),
      transactionUserPid := Pick(p.transactionUserPid, l.transactionUserPid),
      patronPid := Pick(p.patronPid, l.patronPid),
      transactionLocationPid := Pick(p.transactionLocationPid, l.transactionLocationPid),
      transactionDate := Pick(p.transactionDate, l.transactionDate),
      itemPid := Pick(p.itemPid, l.itemPid),
      documentPid := Pick(p.documentPid, l.documentPid),
      pickupLocationPid := Pick(p.pickupLocationPid, l.pickupLocationPid),
      startDate := Pick(p.startDate, l.startDate),
      endDate := Pick(p.endDate, l.endDate),
      cancelReason := Pick(p.cancelReason, l.cancelReason));
    WithRefs(m, pol)
  }

  /** Merging the same parameters twice changes nothing more. */
  lemma MergeIdempotent(l: LoanRecord, p: Params, pol: Policy)
    ensures Merge(Merge(l, p, pol), p, pol) == Merge(l, p, pol)
  {
  }

  /** The data `Loan.create` stores: refs built, and the document derived from
      the item whenever an item pid is given. */
  function CreatedData(data: LoanRecord, pol: Policy): (r: LoanRecord)
    ensures Truthy(data.itemPid) ==> r.documentPid == pol.documentOfItem(data.itemPid.value)
    ensures !Truthy(data.itemPid) ==> r.documentPid == data.documentPid
    ensures r.itemPid == data.itemPid && r.patronPid == data.patronPid && r.state == data.state
  {
    var d := WithRefs(data, pol);
    if Truthy(d.itemPid) then d.(documentPid := pol.documentOfItem(d.itemPid.value)) else d
  }

  /** `Loan.__init__`: the initial state is written first and the given data
      is laid over it, so a state in the data wins. */
  function Initialised(data: LoanRecord, pol: Policy): (r: LoanRecord)
    ensures data.state.None? ==> r.state == Some(pol.initialState)
    ensures data.state.Some? ==> r.state == data.state
    ensures r.(state := data.state) == data
  {
    if data.state.Some? then data else data.(state := Some(pol.initialState))
  }

  /** A loan record object: the dictionary the transitions update in place. */
  class Loan {
    var data: LoanRecord

    /** `Loan(data)`: a freshly constructed loan is in the configured initial
        state unless the data names one. */
    constructor (d: LoanRecord, pol: Policy)
      ensures data == Initialised(d, pol)
    {
      var init := d.(state := Some(pol.initialState));
      if d.state.Some? {
        init := init.(state := d.state);
      }
      data := init;
    }

    /** `Loan.update(kwargs)`: merges the parameters into the loan. */
    method Update(p: Params, pol: Policy)
      modifies this
      ensures data == Merge(old(data), p, pol)
    {
      data := Merge(data, p, pol);
    }

    /** `update_item_ref`: an empty pid is refused and leaves the loan as it
        was; otherwise only the item pid is replaced. */
    method UpdateItemRef(newItem: Option<string>) returns (err: Option<Error>)
      modifies this
      ensures err.Some? <==> !Truthy(newItem)
      ensures err.Some? ==> err.value.MissingRequiredParameter? && data == old(data)
      ensures err.None? ==> data == old(data).(itemPid := newItem)
    {
      if !Truthy(newItem) {
        return Some(MissingRequiredParameter(Some("Missing required arg 'item_pid' when updating loan '" + data.pid + "'")));
      }
      data := data.(itemPid := newItem);
      return None;
    }
  }

  /** `Loan.create(data)`: fills in the refs and the document, then builds the
      loan object from the data. */
  method Create(data: LoanRecord, pol: Policy) returns (loan: Loan)
    ensures fresh(loan)
    ensures loan.data == Initialised(CreatedData(data, pol), pol)
  {
    var d := WithRefs(data, pol);
    if Truthy(d.itemPid) {
      d := d.(documentPid := pol.documentOfItem(d.itemPid.value));
    }
    loan := new Loan(d, pol);
  }
}
