/** The queries of invenio_circulation/api.py: item availability, the first
    available item of a document, the active loan of an item and the pending
    loans of a document or item. They read the indexed loans and change
    nothing. */
module Api {
  import opened Wrappers
  import opened Records
  import opened Errors
  import opened Policy
  import opened Search

  /** A loan on `item` that the availability search counts: one in an active
      state (every loan on the item when no active state is configured). */
  predicate BlocksItem(pol: Policy, l: LoanRecord, item: string) {
    l.itemPid == Some(item) && StateMatch(l, pol.activeStates, [])
  }

  /** `is_item_available_for_checkout`. An item that may not circulate is
      unavailable whatever the loans say; otherwise it is available exactly
      when no loan on it is active. An empty pid makes the search refuse. */
  function IsItemAvailable(pol: Policy, loans: seq<LoanRecord>, item: string): (r: Result<bool, Error>)
    ensures !pol.itemCanCirculate(item) ==> r == Ok(false)
    ensures pol.itemCanCirculate(item) && item == "" ==> r == Err(PropertyRequired(Some(PidRequiredMessage)))
    ensures pol.itemCanCirculate(item) && item != "" ==>
      r.Ok? && (r.value <==> forall l :: l in loans ==> !BlocksItem(pol, l, item))
    ensures r.Err? ==> r.error.PropertyRequired?
    ensures r.Ok? && r.value && |pol.activeStates| > 0 ==>
      forall l :: l in loans && l.itemPid == Some(item) ==> !InStates(l, pol.activeStates)
  {
    if !pol.itemCanCirculate(item) then Ok(false)
    else
      match SearchByPid(loans, Some(item), None, pol.activeStates, [])
      case Err(e) => Err(e)
      case Ok(hits) =>
        assert |hits| > 0 ==> hits[0] in hits;
        Ok(|hits| == 0)
  }

  /** The first item of `items` that is available, in list order; an error
      from the availability check stops the scan. */
  function FirstAvailable(pol: Policy, loans: seq<LoanRecord>, items: seq<string>): (r: Result<Option<string>, Error>)
    ensures r.Err? ==> r.error.PropertyRequired?
    ensures r.Ok? && r.value.Some? ==> r.value.value in items
    decreases |items|
  {
    if items == [] then Ok(None)
    else
      match IsItemAvailable(pol, loans, items[0])
      case Err(e) => Err(e)
      case Ok(available) =>
        if available then Ok(Some(items[0])) else FirstAvailable(pol, loans, items[1..])
  }

  /** What FirstAvailable finds: the item at some position k that is
      available, every earlier item being unavailable; or nothing, when every
      item is unavailable. */
  lemma {:induction false} FirstAvailableIsFirst(pol: Policy, loans: seq<LoanRecord>, items: seq<string>)
    ensures FirstAvailable(pol, loans, items) == Ok(None) <==>
      forall j :: 0 <= j < |items| ==> IsItemAvailable(pol, loans, items[j]) == Ok(false)
    ensures FirstAvailable(pol, loans, items).Ok? && FirstAvailable(pol, loans, items).value.Some? ==>
      exists k :: 0 <= k < |items| && items[k] == FirstAvailable(pol, loans, items).value.value &&
        IsItemAvailable(pol, loans, items[k]) == Ok(true) &&
        forall j :: 0 <= j < k ==> IsItemAvailable(pol, loans, items[j]) == Ok(false)
    decreases |items|
  {
    if items != [] {
      var tail := items[1..];
      FirstAvailableIsFirst(pol, loans, tail);
      assert forall j :: 0 < j < |items| ==> items[j] == tail[j - 1];
      if IsItemAvailable(pol, loans, items[0]) == Ok(false) {
        var r := FirstAvailable(pol, loans, tail);
        if r.Ok? && r.value.Some? {
          var k :| 0 <= k < |tail| && tail[k] == r.value.value &&
            IsItemAvailable(pol, loans, tail[k]) == Ok(true) &&
            forall j :: 0 <= j < k ==> IsItemAvailable(pol, loans, tail[j]) == Ok(false);
          assert items[k + 1] == r.value.value;
        }
      }
    }
  }

  /** `get_available_item_by_doc_pid`: walks the document's items in order
      and returns the first available one, or None. */
  method GetAvailableItemByDocPid(pol: Policy, loans: seq<LoanRecord>, doc: string)
    returns (r: Result<Option<string>, Error>)
    ensures r == FirstAvailable(pol, loans, pol.itemsOfDocument(doc))
  {
    var items := pol.itemsOfDocument(doc);
    var i := 0;
    while i < |items|
      invariant 0 <= i <= |items|
      invariant FirstAvailable(pol, loans, items) == FirstAvailable(pol, loans, items[i..])
    {
      var available := IsItemAvailable(pol, loans, items[i]);
      if available.Err? {
        return Err(available.error);
      }
      if available.value {
        return Ok(Some(items[i]));
      }
      assert items[i..][1..] == items[i + 1..];
      i := i + 1;
    }
    return Ok(None);
  }

  /** Two positions that pass a filter leave at least two elements. */
  lemma {:induction false} FilterKeepsTwo<T(!new)>(s: seq<T>, f: T -> bool, i: int, j: int)
    requires 0 <= i < j < |s| && f(s[i]) && f(s[j])
    ensures |Filter(s, f)| >= 2
    decreases |s|
  {
    if i == 0 {
      assert s[j] in s[1..] by { assert s[1..][j - 1] == s[j]; }
    } else {
      FilterKeepsTwo(s[1..], f, i - 1, j - 1);
    }
  }

  /** A filter that no element passes yields nothing. */
  lemma {:induction false} FilterDropsAll<T(!new)>(s: seq<T>, f: T -> bool)
    requires forall x :: x in s ==> !f(x)
    ensures Filter(s, f) == []
    decreases |s|
  {
    if s != [] {
      assert s[0] in s;
      FilterDropsAll(s[1..], f);
    }
  }

  /** When exactly one position passes a filter, the filter yields that
      element alone. */
  lemma {:induction false} FilterKeepsOne<T(!new)>(s: seq<T>, f: T -> bool, i: int)
    requires 0 <= i < |s| && f(s[i])
    requires forall j :: 0 <= j < |s| && j != i ==> !f(s[j])
    ensures Filter(s, f) == [s[i]]
    decreases |s|
  {
    if i == 0 {
      assert forall x :: x in s[1..] ==> !f(x) by {
        forall x | x in s[1..] ensures !f(x) {
          var k :| 0 <= k < |s[1..]| && s[1..][k] == x;
          assert s[k + 1] == x;
        }
      }
      FilterDropsAll(s[1..], f);
    } else {
      forall j | 0 <= j < |s[1..]| && j != i - 1 ensures !f(s[1..][j]) {
        assert s[1..][j] == s[j + 1];
      }
      FilterKeepsOne(s[1..], f, i - 1);
    }
  }

  /** `get_loan_for_item`: no pid or no active loan gives None, exactly one
      active loan gives that loan, more than one is an error. */
  function GetLoanForItem(pol: Policy, loans: seq<LoanRecord>, item: Option<string>): (r: Result<Option<LoanRecord>, Error>)
    ensures !Truthy(item) ==> r == Ok(None)
    ensures Truthy(item) && (forall l :: l in loans ==> !BlocksItem(pol, l, item.value)) ==> r == Ok(None)
    ensures r.Ok? && r.value.Some? ==> r.value.value in loans && BlocksItem(pol, r.value.value, item.value)
    ensures r.Err? ==> r.error == MultipleLoansOnItem(item)
  {
    if !Truthy(item) then Ok(None)
    else
      var hits := SearchByPid(loans, item, None, pol.activeStates, []).value;
      assert |hits| > 0 ==> hits[0] in hits;
      if |hits| > 1 then Err(MultipleLoansOnItem(item))
      else if |hits| == 1 then Ok(Some(hits[0]))
      else Ok(None)
  }

  /** Two active loans on an item make `get_loan_for_item` fail; a single
      one is what it returns. */
  lemma GetLoanForItemCounts(pol: Policy, loans: seq<LoanRecord>, item: string, i: int, j: int)
    requires item != "" && 0 <= i < |loans| && 0 <= j < |loans|
    requires BlocksItem(pol, loans[i], item) && BlocksItem(pol, loans[j], item)
    ensures i != j ==> GetLoanForItem(pol, loans, Some(item)) == Err(MultipleLoansOnItem(Some(item)))
    ensures (forall k :: 0 <= k < |loans| && k != i ==> !BlocksItem(pol, loans[k], item)) ==>
      GetLoanForItem(pol, loans, Some(item)) == Ok(Some(loans[i]))
  {
    var f := (l: LoanRecord) => KeyMatch(l, Some(item), None) && StateMatch(l, pol.activeStates, []);
    if i != j {
      if i < j { FilterKeepsTwo(loans, f, i, j); } else { FilterKeepsTwo(loans, f, j, i); }
    }
    if forall k :: 0 <= k < |loans| && k != i ==> !BlocksItem(pol, loans[k], item) {
      FilterKeepsOne(loans, f, i);
    }
  }

  /** `get_pending_loans_by_item_pid`: the loans on the item whose state is a
      request state. */
  function GetPendingLoansByItemPid(pol: Policy, loans: seq<LoanRecord>, item: Option<string>): (r: Result<seq<LoanRecord>, Error>)
    ensures r.Err? <==> !Truthy(item)
    ensures r.Ok? && |pol.requestStates| > 0 ==>
      forall l :: l in r.value <==> l in loans && l.itemPid == item && InStates(l, pol.requestStates)
  {
    SearchByPid(loans, item, None, pol.requestStates, [])
  }

  /** `get_pending_loans_by_doc_pid`: the loans on the document whose state
      is a request state. */
  function GetPendingLoansByDocPid(pol: Policy, loans: seq<LoanRecord>, doc: Option<string>): (r: Result<seq<LoanRecord>, Error>)
    ensures r.Err? <==> !Truthy(doc)
    ensures r.Ok? && |pol.requestStates| > 0 ==>
      forall l :: l in r.value <==> l in loans && l.documentPid == doc && InStates(l, pol.requestStates)
  {
    SearchByPid(loans, None, doc, pol.requestStates, [])
  }
}
