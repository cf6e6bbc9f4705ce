/** The parts of invenio_circulation/views.py with logic of their own: the
    action names offered over REST and the replacement of a loan's item. */
module Views {
  import opened Wrappers
  import opened Records
  import opened Errors
  import opened Policy
  import opened Loans
  import opened Base
  import opened Execution
  import opened Engine

  /** The action of one configured entry: its trigger, "next" when none. */
  function Action(spec: TransitionSpec): string {
    spec.trigger.GetOr("next")
  }

  /** The actions of the first `n` entries of one source state. */
  function RowActions(specs: seq<TransitionSpec>, n: nat): set<string>
    requires n <= |specs|
  {
    if n == 0 then {} else RowActions(specs, n - 1) + {Action(specs[n - 1])}
  }

  /** The actions of the first `n` source states. */
  function Actions(config: Config, n: nat): set<string>
    requires n <= |config|
  {
    if n == 0 then {} else Actions(config, n - 1) + RowActions(config[n - 1].1, |config[n - 1].1|)
  }

  lemma {:induction false} RowActionsMembers(specs: seq<TransitionSpec>, n: nat)
    requires n <= |specs|
    ensures forall a :: a in RowActions(specs, n) <==> exists j :: 0 <= j < n && a == Action(specs[j])
  {
    if n > 0 {
      RowActionsMembers(specs, n - 1);
    }
  }

  /** An action is offered exactly when some entry of the first `n` states
      has it as its trigger. */
  lemma {:induction false} ActionsMembers(config: Config, n: nat)
    requires n <= |config|
    ensures forall a :: a in Actions(config, n) <==>
      exists i, j :: 0 <= i < n && 0 <= j < |config[i].1| && a == Action(config[i].1[j])
  {
    if n > 0 {
      ActionsMembers(config, n - 1);
      RowActionsMembers(config[n - 1].1, |config[n - 1].1|);
      forall a | a in Actions(config, n)
        ensures exists i, j :: 0 <= i < n && 0 <= j < |config[i].1| && a == Action(config[i].1[j])
      {
        if a !in Actions(config, n - 1) {
          var j :| 0 <= j < |config[n - 1].1| && a == Action(config[n - 1].1[j]);
        }
      }
      forall a | exists i, j :: 0 <= i < n && 0 <= j < |config[i].1| && a == Action(config[i].1[j])
        ensures a in Actions(config, n)
      {
        var i, j :| 0 <= i < n && 0 <= j < |config[i].1| && a == Action(config[i].1[j]);
        if i < n - 1 {
          assert a in Actions(config, n - 1);
        } else {
          assert a in RowActions(config[n - 1].1, |config[n - 1].1|);
        }
      }
    }
  }

  /** `extract_transitions_from_app`: the distinct triggers of every
      configured entry, "next" for an entry without one. */
  method ExtractTransitions(config: Config) returns (actions: set<string>)
    ensures forall a :: a in actions <==>
      exists i, j :: 0 <= i < |config| && 0 <= j < |config[i].1| && a == Action(config[i].1[j])
  {
    actions := {};
    var i := 0;
    while i < |config|
      invariant 0 <= i <= |config|
      invariant actions == Actions(config, i)
    {
      var specs := config[i].1;
      var j := 0;
      while j < |specs|
        invariant 0 <= j <= |specs|
        invariant actions == Actions(config, i) + RowActions(specs, j)
      {
        actions := actions + {Action(specs[j])};
        j := j + 1;
      }
      i := i + 1;
    }
    ActionsMembers(config, |config|);
  }

  /** The actions offered are exactly the triggers of the transitions the
      engine builds from the same configuration. */
  lemma ActionsAreEngineTriggers(config: Config, pol: Policy)
    requires DistinctKeys(config) && Build(config, pol).Ok?
    ensures forall a :: a in Actions(config, |config|) <==>
      exists s, k :: s in Build(config, pol).value && 0 <= k < |Build(config, pol).value[s]| &&
        a == Build(config, pol).value[s][k].trigger
  {
    var m: map<string, seq<Transition>> := Build(config, pol).value;
    BuildShape(config, pol);
    ActionsMembers(config, |config|);
    forall a | a in Actions(config, |config|)
      ensures exists s, k :: s in m && 0 <= k < |m[s]| && a == m[s][k].trigger
    {
      var i, j :| 0 <= i < |config| && 0 <= j < |config[i].1| && a == Action(config[i].1[j]);
      assert Ok(m[config[i].0][j]) == NewTransition(config[i].0, config[i].1[j], Keys(config), pol);
    }
    forall a | exists s, k :: s in m && 0 <= k < |m[s]| && a == m[s][k].trigger
      ensures a in Actions(config, |config|)
    {
      var s, k :| s in m && 0 <= k < |m[s]| && a == m[s][k].trigger;
      var i :| 0 <= i < |config| && config[i].0 == s;
      assert Ok(m[config[i].0][k]) == NewTransition(config[i].0, config[i].1[k], Keys(config), pol);
    }
  }

  /** The message `validate_replace_item` gives for a loan outside the
      active states. */
  function InactiveMessage(state: string): string {
    "Cannot replace item in a loan that is not in active state. Current loan state '" + state + "'"
  }

  /** `validate_replace_item`: the loan must be in an active state (a loan
      without a state is a KeyError), the new item pid must be given and
      non-empty, and the item must exist; checked in that order. */
  function ValidateReplaceItem(pol: Policy, l: LoanRecord, item: Option<string>): (r: Option<Error>)
    ensures r.None? <==> InStates(l, pol.activeStates) && Truthy(item) && pol.itemExists(item)
    ensures l.state.None? ==> r == Some(KeyMissing("state"))
    ensures l.state.Some? && !InStates(l, pol.activeStates) ==>
      r == Some(InvalidLoanState(None, Some(InactiveMessage(l.state.value))))
    ensures InStates(l, pol.activeStates) && !Truthy(item) ==>
      r == Some(PropertyRequired(Some("Property item_pid is required.")))
    ensures InStates(l, pol.activeStates) && Truthy(item) && !pol.itemExists(item) ==>
      r == Some(ItemNotAvailable(item, None, None))
  {
    if l.state.None? then Some(KeyMissing("state"))
    else if l.state.value !in pol.activeStates then
      Some(InvalidLoanState(None, Some(InactiveMessage(l.state.value))))
    else if !Truthy(item) then Some(PropertyRequired(Some("Property item_pid is required.")))
    else if !pol.itemExists(item) then Some(ItemNotAvailable(item, None, None))
    else None
  }

  /** `loan_update`: the item pid and the item reference built from it. */
  method LoanUpdate(loan: Loan, item: Option<string>, pol: Policy)
    modifies loan
    ensures loan.data == old(loan.data).(itemPid := item, item := Some(pol.itemRef(item)))
  {
    loan.data := loan.data.(itemPid := item, item := Some(pol.itemRef(item)));
  }

  /** The replace-item request on a loan value: the loan's current item pid
      is read first (a KeyError when absent); after validation the updated
      loan is stored, and `loan_replace_item` is sent when the old item pid
      was non-empty. */
  function ReplaceItem(pol: Policy, l: LoanRecord, item: Option<string>,
                       loans: seq<LoanRecord>, signals: seq<Signal>): (r: Attempted)
    ensures r.err.Some? ==> r.loan == l && r.loans == loans && r.signals == signals
    ensures r.err.None? <==> l.itemPid.Some? && ValidateReplaceItem(pol, l, item).None?
    ensures r.err.None? ==> r.loan.itemPid == item && r.loan.state == l.state && r.loan.pid == l.pid
    ensures r.err.None? ==> r.loan in r.loans
    ensures r.err.None? ==> (r.signals == signals + [LoanReplaceItem(l.itemPid, item)] <==> Truthy(l.itemPid))
    ensures r.err.None? && !Truthy(l.itemPid) ==> r.signals == signals
    ensures UniquePids(loans) ==> UniquePids(r.loans)
  {
    if l.itemPid.None? then Attempted(Some(KeyMissing("item_pid")), l, loans, signals)
    else
      match ValidateReplaceItem(pol, l, item)
      case Some(e) => Attempted(Some(e), l, loans, signals)
      case None =>
        var n := l.(itemPid := item, item := Some(pol.itemRef(item)));
        PutReplaces(loans, n);
        var sent := if Truthy(l.itemPid) then signals + [LoanReplaceItem(l.itemPid, item)] else signals;
        Attempted(None, n, Put(loans, n), sent)
  }

  /** A replacement never moves the loan to another state, and a second
      replacement with the same item succeeds again. */
  lemma ReplaceItemAgain(pol: Policy, l: LoanRecord, item: Option<string>,
                         loans: seq<LoanRecord>, signals: seq<Signal>)
    requires ReplaceItem(pol, l, item, loans, signals).err.None?
    ensures ValidateReplaceItem(pol, ReplaceItem(pol, l, item, loans, signals).loan, item).None?
  {
  }

  /** `LoanReplaceItemResource.post` on the loan object and the store. */
  method ReplaceItemRequest(pol: Policy, loan: Loan, item: Option<string>, repo: Repository) returns (err: Option<Error>)
    modifies loan, repo
    ensures Attempted(err, loan.data, repo.loans, repo.signals) ==
      ReplaceItem(pol, old(loan.data), item, old(repo.loans), old(repo.signals))
  {
    var oldItem := loan.data.itemPid;
    if oldItem.None? {
      return Some(KeyMissing("item_pid"));
    }
    err := ValidateReplaceItem(pol, loan.data, item);
    if err.Some? {
      return;
    }
    LoanUpdate(loan, item, pol);
    repo.Commit(loan.data);
    if Truthy(oldItem) {
      repo.Send(LoanReplaceItem(oldItem, loan.data.itemPid));
    }
  }
}

/** The action names the test graph offers. */
module GraphActions {
  import opened Engine
  import opened Graph
  import opened Views

  lemma TestActions()
    ensures Actions(TestConfig(), |TestConfig()|) == {"request", "checkout", "next", "extend", "cancel"}
  {
    var c := TestConfig();
    assert RowActions(c[0].1, 2) == {"request", "checkout"};
    assert RowActions(c[1].1, 2) == {"next"};
    assert RowActions(c[2].1, 1) == {"next"};
    assert RowActions(c[3].1, 4) == {"extend", "next", "cancel"};
    assert RowActions(c[4].1, 0) == {};
    assert RowActions(c[5].1, 1) == {"next"};
    assert Actions(c, 1) == {"request", "checkout"};
    assert Actions(c, 2) == {"request", "checkout", "next"};
    assert Actions(c, 4) == {"request", "checkout", "next", "extend", "cancel"};
    assert Actions(c, 6) == Actions(c, 4);
    assert Actions(c, 8) == Actions(c, 6);
  }
}
