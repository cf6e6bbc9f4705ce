/** The loan searches of invenio_circulation/search/api.py, read as filters
    over the indexed loans (a sequence, in index order). */
module Search {
  import opened Wrappers
  import opened Records
  import opened Errors

  /** The elements of `s` that satisfy `f`, in order. */
  function Filter<T(!new)>(s: seq<T>, f: T -> bool): (r: seq<T>)
    ensures |r| <= |s|
    ensures forall x :: x in r <==> x in s && f(x)
    decreases |s|
  {
    if s == [] then [] else (if f(s[0]) then [s[0]] else []) + Filter(s[1..], f)
  }

  /** Two conditions that agree on every element select the same elements. */
  lemma {:induction false} FilterCongruent<T(!new)>(s: seq<T>, f: T -> bool, g: T -> bool)
    requires forall x :: x in s ==> f(x) == g(x)
    ensures Filter(s, f) == Filter(s, g)
    decreases |s|
  {
    if s != [] {
      FilterCongruent(s[1..], f, g);
    }
  }

  /** The pid term of `search_by_pid`: the document when one is given,
      otherwise the item. */
  predicate KeyMatch(l: LoanRecord, item: Option<string>, doc: Option<string>) {
    if Truthy(doc) then l.documentPid == doc else l.itemPid == item
  }

  /** The state terms of `search_by_pid`: `filter_states` when given,
      otherwise the exclusion of `exclude_states` when given. An empty list
      counts as not given. */
  predicate StateMatch(l: LoanRecord, filterStates: seq<string>, excludeStates: seq<string>) {
    if |filterStates| > 0 then InStates(l, filterStates)
    else if |excludeStates| > 0 then !InStates(l, excludeStates)
    else true
  }

  const PidRequiredMessage := "One of the properties 'item_pid' or 'document_pid' is required."

  /** `search_by_pid`: the loans of a document, or of an item, optionally
      restricted by state. Without either pid the search is refused. */
  function SearchByPid(loans: seq<LoanRecord>, item: Option<string>, doc: Option<string>,
                       filterStates: seq<string>, excludeStates: seq<string>): (r: Result<seq<LoanRecord>, Error>)
    ensures r.Err? <==> !Truthy(doc) && !Truthy(item)
    ensures r.Err? ==> r.error == PropertyRequired(Some(PidRequiredMessage))
    ensures r.Ok? ==> forall l :: l in r.value ==> l in loans
    ensures r.Ok? && Truthy(doc) ==> forall l :: l in r.value ==> l.documentPid == doc
    ensures r.Ok? && !Truthy(doc) ==> forall l :: l in r.value ==> l.itemPid == item
    ensures r.Ok? && |filterStates| > 0 ==> forall l :: l in r.value ==> InStates(l, filterStates)
    ensures r.Ok? && |filterStates| == 0 && |excludeStates| > 0 ==>
      forall l :: l in r.value ==> !InStates(l, excludeStates)
    ensures r.Ok? ==> forall l :: l in loans && KeyMatch(l, item, doc) && StateMatch(l, filterStates, excludeStates) ==> l in r.value
  {
    if Truthy(doc) || Truthy(item) then
      Ok(Filter(loans, (l: LoanRecord) => KeyMatch(l, item, doc) && StateMatch(l, filterStates, excludeStates)))
    else
      Err(PropertyRequired(Some(PidRequiredMessage)))
  }

  /** When a document is given the item plays no part. */
  lemma DocumentWins(loans: seq<LoanRecord>, item1: Option<string>, item2: Option<string>, doc: Option<string>,
                     filterStates: seq<string>, excludeStates: seq<string>)
    requires Truthy(doc)
    ensures SearchByPid(loans, item1, doc, filterStates, excludeStates) == SearchByPid(loans, item2, doc, filterStates, excludeStates)
  {
    FilterCongruent(loans,
      (l: LoanRecord) => KeyMatch(l, item1, doc) && StateMatch(l, filterStates, excludeStates),
      (l: LoanRecord) => KeyMatch(l, item2, doc) && StateMatch(l, filterStates, excludeStates));
  }

  /** When `filter_states` is given, `exclude_states` is ignored. */
  lemma FilterStatesOverrideExclude(loans: seq<LoanRecord>, item: Option<string>, doc: Option<string>,
                                    filterStates: seq<string>, exclude1: seq<string>, exclude2: seq<string>)
    requires |filterStates| > 0
    ensures SearchByPid(loans, item, doc, filterStates, exclude1) == SearchByPid(loans, item, doc, filterStates, exclude2)
  {
    FilterCongruent(loans,
      (l: LoanRecord) => KeyMatch(l, item, doc) && StateMatch(l, filterStates, exclude1),
      (l: LoanRecord) => KeyMatch(l, item, doc) && StateMatch(l, filterStates, exclude2));
  }

  /** `search_by_patron_item`: the loans of a patron on an item, optionally
      restricted to `filter_states`. */
  function SearchByPatronItem(loans: seq<LoanRecord>, patron: string, item: string,
                              filterStates: seq<string>): (r: seq<LoanRecord>)
    ensures forall l :: l in r <==>
      l in loans && l.patronPid == Some(patron) && l.itemPid == Some(item) &&
      (|filterStates| > 0 ==> InStates(l, filterStates))
  {
    Filter(loans, (l: LoanRecord) => l.patronPid == Some(patron) && l.itemPid == Some(item) &&
                       (|filterStates| > 0 ==> InStates(l, filterStates)))
  }

  /** `search_by_patron_pid`: exactly the loans of a patron. */
  function SearchByPatronPid(loans: seq<LoanRecord>, patron: string): (r: seq<LoanRecord>)
    ensures forall l :: l in r <==> l in loans && l.patronPid == Some(patron)
  {
    Filter(loans, (l: LoanRecord) => l.patronPid == Some(patron))
  }
}
