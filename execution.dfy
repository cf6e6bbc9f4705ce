/** `Transition.execute` and `after` (invenio_circulation/transitions/base.py
    and the `after` overrides of transitions.py): the state change, the
    commit, the `loan_state_changed` signal and the cascade that hands a
    returned item to the pending requests on its document. The database and
    the search index are one store of loan records, one per pid. */
module Execution {
  import opened Wrappers
  import opened Records
  import opened Errors
  import opened Policy
  import opened Search
  import opened Loans
  import opened Api
  import opened Base
  import opened Transitions

  /** The signals of invenio_circulation/signals.py, as sent. */
  datatype Signal =
    | LoanStateChanged(prevLoan: LoanRecord, loan: LoanRecord, trigger: string)
    | LoanReplaceItem(oldItemPid: Option<string>, newItemPid: Option<string>)

  /** The store holds one record per pid. */
  predicate UniquePids(loans: seq<LoanRecord>) {
    forall i, j :: 0 <= i < |loans| && 0 <= j < |loans| && loans[i].pid == loans[j].pid ==> i == j
  }

  /** `loan.commit()` and the indexing: the stored record with the loan's pid
      is replaced by the loan, or the loan is added when there is none. */
  function Put(loans: seq<LoanRecord>, l: LoanRecord): (r: seq<LoanRecord>)
    ensures l in r
    ensures forall x :: x in r ==> x == l || x in loans
    decreases |loans|
  {
    if loans == [] then [l]
    else if loans[0].pid == l.pid then [l] + loans[1..]
    else [loans[0]] + Put(loans[1..], l)
  }

  /** On a store with one record per pid, `Put` keeps it so, the loan is the
      only record with its pid afterwards, and every other record stays. */
  lemma {:induction false} PutReplaces(loans: seq<LoanRecord>, l: LoanRecord)
    ensures UniquePids(loans) ==> UniquePids(Put(loans, l))
    ensures UniquePids(loans) ==> forall x :: x in Put(loans, l) && x.pid == l.pid ==> x == l
    ensures forall x :: x in loans && x.pid != l.pid ==> x in Put(loans, l)
    decreases |loans|
  {
    if !UniquePids(loans) {
      PutKeepsOthers(loans, l);
    } else if loans == [] {
    } else if loans[0].pid == l.pid {
      var r := Put(loans, l);
      assert r[1..] == loans[1..];
    } else {
      var tail := loans[1..];
      assert UniquePids(tail) by {
        forall i, j | 0 <= i < |tail| && 0 <= j < |tail| && tail[i].pid == tail[j].pid ensures i == j {
          assert loans[i + 1].pid == loans[j + 1].pid;
        }
      }
      PutReplaces(tail, l);
      var rt := Put(tail, l);
      var r := Put(loans, l);
      assert r == [loans[0]] + rt;
      forall x | x in rt ensures x.pid != loans[0].pid {
        if x != l {
          var k :| 0 <= k < |tail| && tail[k] == x;
          assert loans[k + 1].pid == x.pid;
        }
      }
      forall i, j | 0 <= i < |r| && 0 <= j < |r| && r[i].pid == r[j].pid ensures i == j {
        if i > 0 && j > 0 {
          assert rt[i - 1].pid == rt[j - 1].pid;
        }
      }
    }
  }

  /** `Put` keeps every record with another pid. */
  lemma {:induction false} PutKeepsOthers(loans: seq<LoanRecord>, l: LoanRecord)
    ensures forall x :: x in loans && x.pid != l.pid ==> x in Put(loans, l)
    decreases |loans|
  {
    if loans != [] && loans[0].pid != l.pid {
      PutKeepsOthers(loans[1..], l);
    }
  }

  /** A loan the return cascade reassigns: a loan on the document in a
      request state (any loan on the document when no request state is
      configured). */
  predicate PendingOn(pol: Policy, l: LoanRecord, doc: Option<string>) {
    l.documentPid == doc && StateMatch(l, pol.requestStates, [])
  }

  /** The store after the cascade: every pending loan on the document now
      names the returned item. */
  function AttachItem(loans: seq<LoanRecord>, pol: Policy, doc: Option<string>, item: string): seq<LoanRecord> {
    seq(|loans|, j requires 0 <= j < |loans| =>
      if PendingOn(pol, loans[j], doc) then loans[j].(itemPid := Some(item)) else loans[j])
  }

  /** What the cascade changes: the item pid of exactly the loans the pending
      search on the document finds, and nothing else; in particular no state
      changes and the store keeps one record per pid. */
  lemma AttachItemEffect(loans: seq<LoanRecord>, pol: Policy, doc: Option<string>, item: string)
    requires Truthy(doc)
    ensures |AttachItem(loans, pol, doc, item)| == |loans|
    ensures forall j :: 0 <= j < |loans| ==>
      AttachItem(loans, pol, doc, item)[j].(itemPid := loans[j].itemPid) == loans[j]
    ensures forall j :: 0 <= j < |loans| ==>
      (AttachItem(loans, pol, doc, item)[j] != loans[j] ==> loans[j] in GetPendingLoansByDocPid(pol, loans, doc).value)
    ensures forall j :: 0 <= j < |loans| && loans[j] in GetPendingLoansByDocPid(pol, loans, doc).value ==>
      AttachItem(loans, pol, doc, item)[j].itemPid == Some(item)
    ensures UniquePids(loans) ==> UniquePids(AttachItem(loans, pol, doc, item))
  {
    var r := AttachItem(loans, pol, doc, item);
    forall j | 0 <= j < |loans| && r[j] != loans[j]
      ensures loans[j] in GetPendingLoansByDocPid(pol, loans, doc).value
    {
      assert PendingOn(pol, loans[j], doc);
      assert KeyMatch(loans[j], None, doc);
    }
  }

  /** `_update_document_pending_request_for_item` with the item pid read from
      the returned loan: a loan without item pid is a KeyError, an item
      without document makes the pending search refuse. */
  function Cascade(pol: Policy, loans: seq<LoanRecord>, item: Option<string>): (r: Result<seq<LoanRecord>, Error>)
    ensures item.None? ==> r == Err(KeyMissing("item_pid"))
    ensures item.Some? ==> (r.Err? <==> !Truthy(pol.documentOfItem(item.value)))
    ensures r.Err? ==> r.error.KeyMissing? || r.error.PropertyRequired?
    ensures r.Ok? ==> r.value == AttachItem(loans, pol, pol.documentOfItem(item.value), item.value)
  {
    if item.None? then Err(KeyMissing("item_pid"))
    else
      var doc := pol.documentOfItem(item.value);
      match GetPendingLoansByDocPid(pol, loans, doc)
      case Err(e) => Err(e)
      case Ok(_) => Ok(AttachItem(loans, pol, doc, item.value))
  }

  /** The classes whose `after` runs the cascade. */
  predicate Returns(k: Kind) {
    k == ItemOnLoanToItemReturned || k == ItemInTransitHouseToItemReturned
  }

  /** What one transition's `execute` leaves: the error it raised, if any,
      the loan object, the store and the signals sent. */
  datatype Attempted = Attempted(err: Option<Error>, loan: LoanRecord, loans: seq<LoanRecord>, signals: seq<Signal>)

  /** `Transition.execute`: `before`; then the state becomes `dest`, the loan
      is committed, `loan_state_changed` is sent with the loan as it was
      before the merge, and a return runs the cascade. A failed `before`
      stores and sends nothing. */
  function Attempt(t: Transition, l: LoanRecord, p: Params, pol: Policy,
                   loans: seq<LoanRecord>, signals: seq<Signal>): (r: Attempted)
    ensures r.loan.pid == l.pid
    ensures r.err.None? ==> r.loan.state == Some(t.dest)
    ensures Before(t, l, p, pol, loans).Failed? <==> r.loan.state == l.state && r.loans == loans && r.signals == signals && r.err.Some?
    ensures Before(t, l, p, pol, loans).Done? ==>
      r.loan.state == Some(t.dest) && r.signals == signals + [LoanStateChanged(l, r.loan, t.trigger)]
    ensures Before(t, l, p, pol, loans).Done? ==> r.loan == Before(t, l, p, pol, loans).loan.(state := Some(t.dest))
    ensures Before(t, l, p, pol, loans).Failed? ==>
      r == Attempted(Some(Before(t, l, p, pol, loans).error), Before(t, l, p, pol, loans).loan, loans, signals)
    ensures r.err.Some? ==> !r.err.value.NoValidTransitionAvailable?
    ensures r.err.Some? && r.err.value.TransitionConditionsFailed? ==> Before(t, l, p, pol, loans).Failed?
    ensures UniquePids(loans) ==> UniquePids(r.loans)
    ensures UniquePids(loans) && !Returns(t.kind) && r.err.None? ==>
      r.loan in r.loans && forall x :: x in r.loans && x.pid == l.pid ==> x == r.loan
  {
    match Before(t, l, p, pol, loans)
    case Failed(e, m) => Attempted(Some(e), m, loans, signals)
    case Done(m) =>
      var n := m.(state := Some(t.dest));
      var stored := Put(loans, n);
      PutReplaces(loans, n);
      var sent := signals + [LoanStateChanged(l, n, t.trigger)];
      if !Returns(t.kind) then Attempted(None, n, stored, sent)
      else
        match Cascade(pol, stored, n.itemPid)
        case Err(e) => Attempted(Some(e), n, stored, sent)
        case Ok(s) =>
          AttachItemEffect(stored, pol, pol.documentOfItem(n.itemPid.value), n.itemPid.value);
          Attempted(None, n, s, sent)
  }

  /** The loan store and the signal log. */
  class Repository {
    var loans: seq<LoanRecord>
    var signals: seq<Signal>

    constructor (initial: seq<LoanRecord>)
      ensures loans == initial && signals == []
    {
      loans := initial;
      signals := [];
    }

    /** `loan.commit()`, `db.session.commit()` and the indexing. */
    method Commit(l: LoanRecord)
      modifies this
      ensures loans == Put(old(loans), l) && signals == old(signals)
    {
      loans := Put(loans, l);
    }

    /** `signal.send(...)`. */
    method Send(s: Signal)
      modifies this
      ensures signals == old(signals) + [s] && loans == old(loans)
    {
      signals := signals + [s];
    }

    /** `_update_document_pending_request_for_item`: sets the item pid of
        every pending loan on the item's document, one stored loan at a
        time. */
    method UpdatePendingRequests(pol: Policy, item: Option<string>) returns (err: Option<Error>)
      modifies this
      ensures signals == old(signals)
      ensures Cascade(pol, old(loans), item).Err? ==> err == Some(Cascade(pol, old(loans), item).error) && loans == old(loans)
      ensures Cascade(pol, old(loans), item).Ok? ==> err.None? && loans == Cascade(pol, old(loans), item).value
    {
      if item.None? {
        return Some(KeyMissing("item_pid"));
      }
      var doc := pol.documentOfItem(item.value);
      var pending := GetPendingLoansByDocPid(pol, loans, doc);
      if pending.Err? {
        return Some(pending.error);
      }
      var i := 0;
      while i < |loans|
        invariant 0 <= i <= |loans| == |old(loans)|
        invariant loans[..i] == AttachItem(old(loans), pol, doc, item.value)[..i]
        invariant loans[i..] == old(loans)[i..]
        invariant signals == old(signals)
      {
        if PendingOn(pol, loans[i], doc) {
          loans := loans[i := loans[i].(itemPid := Some(item.value))];
        }
        assert loans[i] == AttachItem(old(loans), pol, doc, item.value)[i];
        i := i + 1;
      }
      assert loans == AttachItem(old(loans), pol, doc, item.value);
      return None;
    }
  }

  /** `Transition.execute` on the loan object and the store. */
  method Execute(t: Transition, loan: Loan, p: Params, pol: Policy, repo: Repository) returns (err: Option<Error>)
    modifies loan, repo
    ensures Attempted(err, loan.data, repo.loans, repo.signals) ==
      Attempt(t, old(loan.data), p, pol, old(repo.loans), old(repo.signals))
  {
    var prev := loan.data;
    err := RunBefore(t, loan, p, pol, repo.loans);
    if err.Some? {
      return;
    }
    loan.data := loan.data.(state := Some(t.dest));
    repo.Commit(loan.data);
    repo.Send(LoanStateChanged(prev, loan.data, t.trigger));
    if Returns(t.kind) {
      err := repo.UpdatePendingRequests(pol, loan.data.itemPid);
    }
  }
}
