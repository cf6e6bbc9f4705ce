/** The circulation state machine `_Circulation` of invenio_circulation/ext.py:
    the transitions built from the configuration and `trigger`, which tries
    the transitions of the loan's state in order. */
module Engine {
  import opened Wrappers
  import opened Records
  import opened Errors
  import opened Policy
  import opened Loans
  import opened Base
  import opened Execution

  /** `CIRCULATION_LOAN_TRANSITIONS`: source states in dictionary order, each
      with its transition entries. */
  type Config = seq<(string, seq<TransitionSpec>)>

  /** A dictionary has each key once. */
  predicate DistinctKeys(config: Config) {
    forall i, j :: 0 <= i < |config| && 0 <= j < |config| && config[i].0 == config[j].0 ==> i == j
  }

  /** The configured states, `CIRCULATION_LOAN_TRANSITIONS.keys()`. */
  function Keys(config: Config): (r: seq<string>)
    ensures |r| == |config|
    ensures forall i :: 0 <= i < |config| ==> r[i] == config[i].0
  {
    seq(|config|, i requires 0 <= i < |config| => config[i].0)
  }

  /** The first `n` transitions of one source state, built in order; the
      first entry the constructor rejects is the error. */
  function RowUpTo(src: string, specs: seq<TransitionSpec>, n: nat, states: seq<string>, pol: Policy): Result<seq<Transition>, Error>
    requires n <= |specs|
  {
    if n == 0 then Ok([])
    else
      match RowUpTo(src, specs, n - 1, states, pol)
      case Err(e) => Err(e)
      case Ok(row) =>
        match NewTransition(src, specs[n - 1], states, pol)
        case Err(e) => Err(e)
        case Ok(t) => Ok(row + [t])
  }

  /** A row builds exactly when each of its entries does; it then holds
      one transition per entry, in order, and otherwise fails with the
      error of some entry. */
  lemma {:induction false} RowUpToShape(src: string, specs: seq<TransitionSpec>, n: nat, states: seq<string>, pol: Policy)
    requires n <= |specs|
    ensures var r := RowUpTo(src, specs, n, states, pol);
      (r.Ok? <==> forall j :: 0 <= j < n ==> NewTransition(src, specs[j], states, pol).Ok?) &&
      (r.Ok? ==> |r.value| == n && forall j :: 0 <= j < n ==> NewTransition(src, specs[j], states, pol) == Ok(r.value[j])) &&
      (r.Err? ==> exists j :: 0 <= j < n && NewTransition(src, specs[j], states, pol) == Err(r.error))
  {
    if n > 0 {
      RowUpToShape(src, specs, n - 1, states, pol);
      var prev := RowUpTo(src, specs, n - 1, states, pol);
      var t := NewTransition(src, specs[n - 1], states, pol);
      if prev.Err? {
        assert RowUpTo(src, specs, n, states, pol) == prev;
        var j :| 0 <= j < n - 1 && NewTransition(src, specs[j], states, pol) == Err(prev.error);
      } else if t.Err? {
        assert RowUpTo(src, specs, n, states, pol) == Err(t.error);
      } else {
        var row := prev.value + [t.value];
        assert RowUpTo(src, specs, n, states, pol) == Ok(row);
        forall j | 0 <= j < n ensures NewTransition(src, specs[j], states, pol) == Ok(row[j]) {
          if j < n - 1 {
            assert row[j] == prev.value[j];
          }
        }
      }
    }
  }

  /** The transitions of the first `n` source states. */
  function BuildUpTo(config: Config, n: nat, states: seq<string>, pol: Policy): Result<map<string, seq<Transition>>, Error>
    requires n <= |config|
  {
    if n == 0 then Ok(map[])
    else
      match BuildUpTo(config, n - 1, states, pol)
      case Err(e) => Err(e)
      case Ok(m) =>
        match RowUpTo(config[n - 1].0, config[n - 1].1, |config[n - 1].1|, states, pol)
        case Err(e) => Err(e)
        case Ok(row) => Ok(m[config[n - 1].0 := row])
  }

  /** The first `n` source states build exactly when each of their rows
      does, and then the dictionary holds those states with their rows. */
  lemma BuildUpToShape(config: Config, n: nat, states: seq<string>, pol: Policy)
    requires n <= |config| && DistinctKeys(config)
    ensures BuildUpTo(config, n, states, pol).Ok? <==>
      forall i :: 0 <= i < n ==> RowUpTo(config[i].0, config[i].1, |config[i].1|, states, pol).Ok?
    ensures BuildUpTo(config, n, states, pol).Ok? ==>
      BuildUpTo(config, n, states, pol).value.Keys == set i | 0 <= i < n :: config[i].0
    ensures BuildUpTo(config, n, states, pol).Ok? ==> forall i :: 0 <= i < n ==>
      config[i].0 in BuildUpTo(config, n, states, pol).value &&
      RowUpTo(config[i].0, config[i].1, |config[i].1|, states, pol) == Ok(BuildUpTo(config, n, states, pol).value[config[i].0])
  {
    BuildUpToOk(config, n, states, pol);
    if BuildUpTo(config, n, states, pol).Ok? {
      BuildUpToKeys(config, n, states, pol);
      BuildUpToRows(config, n, states, pol);
    }
  }

  /** Helper of `BuildUpToShape`: construction succeeds iff every row does. */
  lemma {:induction false} BuildUpToOk(config: Config, n: nat, states: seq<string>, pol: Policy)
    requires n <= |config|
    ensures BuildUpTo(config, n, states, pol).Ok? <==>
      forall i :: 0 <= i < n ==> RowUpTo(config[i].0, config[i].1, |config[i].1|, states, pol).Ok?
  {
    if n > 0 {
      BuildUpToOk(config, n - 1, states, pol);
    }
  }

  /** Helper of `BuildUpToShape`: the keys are the first `n` states. */
  lemma {:induction false} BuildUpToKeys(config: Config, n: nat, states: seq<string>, pol: Policy)
    requires n <= |config| && BuildUpTo(config, n, states, pol).Ok?
    ensures BuildUpTo(config, n, states, pol).value.Keys == set i | 0 <= i < n :: config[i].0
  {
    if n > 0 {
      var prev := BuildUpTo(config, n - 1, states, pol);
      assert prev.Ok?;
      BuildUpToKeys(config, n - 1, states, pol);
      assert (set i | 0 <= i < n :: config[i].0) == (set i | 0 <= i < n - 1 :: config[i].0) + {config[n - 1].0};
    }
  }

  /** Helper of `BuildUpToShape`: each of the first `n` states maps to its row. */
  lemma {:induction false} BuildUpToRows(config: Config, n: nat, states: seq<string>, pol: Policy)
    requires n <= |config| && DistinctKeys(config) && BuildUpTo(config, n, states, pol).Ok?
    ensures forall i :: 0 <= i < n ==>
      config[i].0 in BuildUpTo(config, n, states, pol).value &&
      RowUpTo(config[i].0, config[i].1, |config[i].1|, states, pol) == Ok(BuildUpTo(config, n, states, pol).value[config[i].0])
  {
    if n > 0 {
      var prev := BuildUpTo(config, n - 1, states, pol);
      assert prev.Ok?;
      BuildUpToRows(config, n - 1, states, pol);
      var src := config[n - 1].0;
      var row := RowUpTo(src, config[n - 1].1, |config[n - 1].1|, states, pol);
      var m := prev.value[src := row.value];
      assert BuildUpTo(config, n, states, pol) == Ok(m);
      forall i | 0 <= i < n
        ensures config[i].0 in m && RowUpTo(config[i].0, config[i].1, |config[i].1|, states, pol) == Ok(m[config[i].0])
      {
        if i < n - 1 {
          assert config[i].0 != src;
        }
      }
    }
  }

  /** `_Circulation.__init__`: every entry of every source state becomes a
      transition from that state, in order; an entry whose source or
      destination is not a configured state aborts construction. */
  function Build(config: Config, pol: Policy): Result<map<string, seq<Transition>>, Error>
    requires DistinctKeys(config)
  {
    BuildUpTo(config, |config|, Keys(config), pol)
  }

  /** Every transition is filed under its own source state and leads to a
      configured state. */
  predicate WellFormed(m: map<string, seq<Transition>>) {
    forall s, k :: s in m && 0 <= k < |m[s]| ==> m[s][k].src == s && m[s][k].dest in m
  }

  /** A successful construction yields exactly the configured states, each
      with one transition per entry carrying the entry's destination, and
      a well-formed graph. */
  lemma BuildShape(config: Config, pol: Policy)
    requires DistinctKeys(config) && Build(config, pol).Ok?
    ensures Build(config, pol).value.Keys == set i | 0 <= i < |config| :: config[i].0
    ensures forall i :: 0 <= i < |config| ==> |Build(config, pol).value[config[i].0]| == |config[i].1|
    ensures forall i, j :: 0 <= i < |config| && 0 <= j < |config[i].1| ==>
      Ok(Build(config, pol).value[config[i].0][j]) == NewTransition(config[i].0, config[i].1[j], Keys(config), pol)
    ensures WellFormed(Build(config, pol).value)
  {
    BuildUpToShape(config, |config|, Keys(config), pol);
    forall i | 0 <= i < |config| {
      RowUpToShape(config[i].0, config[i].1, |config[i].1|, Keys(config), pol);
    }
    BuildWellFormed(config, pol);
  }

  /** Helper of `BuildShape`: the built graph is well-formed. */
  lemma BuildWellFormed(config: Config, pol: Policy)
    requires DistinctKeys(config) && Build(config, pol).Ok?
    ensures WellFormed(Build(config, pol).value)
  {
    var m: map<string, seq<Transition>> := Build(config, pol).value;
    var states := Keys(config);
    BuildUpToShape(config, |config|, states, pol);
    forall s: string, k: int | s in m && 0 <= k < |m[s]| ensures m[s][k].src == s && m[s][k].dest in m {
      var i :| 0 <= i < |config| && config[i].0 == s;
      RowUpToShape(s, config[i].1, |config[i].1|, states, pol);
      assert RowUpTo(s, config[i].1, |config[i].1|, states, pol) == Ok(m[s]);
      assert NewTransition(s, config[i].1[k], states, pol) == Ok(m[s][k]);
      var d := m[s][k].dest;
      var h :| 0 <= h < |states| && states[h] == d;
      assert config[h].0 == d;
    }
  }

  /** Construction succeeds exactly when every entry's destination is a
      configured state. */
  lemma BuildSucceeds(config: Config, pol: Policy)
    requires DistinctKeys(config)
    ensures Build(config, pol).Ok? <==>
      forall i, j :: 0 <= i < |config| && 0 <= j < |config[i].1| ==> config[i].1[j].dest in Keys(config)
  {
    var states := Keys(config);
    BuildUpToShape(config, |config|, states, pol);
    forall i | 0 <= i < |config| ensures config[i].0 in states {
      assert states[i] == config[i].0;
    }
    forall i | 0 <= i < |config| {
      RowUpToShape(config[i].0, config[i].1, |config[i].1|, states, pol);
    }
  }

  /** The candidates of one state tried in order, from the loan as the
      previous candidate left it: a `TransitionConditionsFailed` moves on to
      the next candidate, anything else ends the call; when no candidate is
      left the result is `NoValidTransitionAvailable`. */
  function Fire(cands: seq<Transition>, l: LoanRecord, p: Params, pol: Policy,
                loans: seq<LoanRecord>, signals: seq<Signal>, state: string): (r: Attempted)
    requires l.state == Some(state)
    decreases |cands|
    ensures r.loan.pid == l.pid
    ensures r.err.None? ==> exists k :: 0 <= k < |cands| && r.loan.state == Some(cands[k].dest)
    ensures r.err.Some? ==> !r.err.value.TransitionConditionsFailed?
    ensures r.err.Some? && r.err.value.NoValidTransitionAvailable? ==>
      r.err.value == NoValidTransitionAvailable(Some(l.pid), Some(state)) &&
      r.loans == loans && r.signals == signals && r.loan.state == l.state
    ensures UniquePids(loans) ==> UniquePids(r.loans)
  {
    if cands == [] then Attempted(Some(NoValidTransitionAvailable(Some(l.pid), Some(state))), l, loans, signals)
    else
      var a := Attempt(cands[0], l, p, pol, loans, signals);
      if a.err.Some? && a.err.value.TransitionConditionsFailed? then
        Fire(cands[1..], a.loan, p, pol, a.loans, a.signals, state)
      else a
  }

  /** Whether an attempt ended in the soft failure that moves `trigger` on
      to the next candidate. */
  predicate SoftFailed(a: Attempted) {
    a.err.Some? && a.err.value.TransitionConditionsFailed?
  }

  /** The attempt of candidate `k`, each earlier candidate having been
      attempted in turn from the loan, store and signals the one before it
      left. */
  function AttemptAt(cands: seq<Transition>, l: LoanRecord, p: Params, pol: Policy,
                     loans: seq<LoanRecord>, signals: seq<Signal>, k: nat): Attempted
    requires k < |cands|
    decreases k
  {
    var a := Attempt(cands[0], l, p, pol, loans, signals);
    if k == 0 then a else AttemptAt(cands[1..], a.loan, p, pol, a.loans, a.signals, k - 1)
  }

  /** When every candidate, tried in declaration order, soft-fails, the
      result is `NoValidTransitionAvailable` naming the loan and its state,
      with store and signals untouched. */
  lemma {:induction false} FireAllSoft(cands: seq<Transition>, l: LoanRecord, p: Params, pol: Policy,
                                       loans: seq<LoanRecord>, signals: seq<Signal>, state: string)
    requires l.state == Some(state)
    requires forall k :: 0 <= k < |cands| ==> SoftFailed(AttemptAt(cands, l, p, pol, loans, signals, k))
    ensures Fire(cands, l, p, pol, loans, signals, state).err == Some(NoValidTransitionAvailable(Some(l.pid), Some(state)))
    ensures Fire(cands, l, p, pol, loans, signals, state).loans == loans
    ensures Fire(cands, l, p, pol, loans, signals, state).signals == signals
    decreases |cands|
  {
    if cands != [] {
      var a := Attempt(cands[0], l, p, pol, loans, signals);
      var rest := cands[1..];
      assert SoftFailed(AttemptAt(cands, l, p, pol, loans, signals, 0));
      SoftFailureKeeps(cands[0], l, p, pol, loans, signals);
      forall k | 0 <= k < |rest| ensures SoftFailed(AttemptAt(rest, a.loan, p, pol, a.loans, a.signals, k)) {
        assert SoftFailed(AttemptAt(cands, l, p, pol, loans, signals, k + 1));
      }
      FireAllSoft(rest, a.loan, p, pol, a.loans, a.signals, state);
    }
  }

  /** Otherwise the result is exactly the attempt of the first candidate
      that did not soft-fail, whether it completed or raised: a hard error
      ends the call and no later candidate runs. */
  lemma {:induction false} FireFirstNotSoft(cands: seq<Transition>, l: LoanRecord, p: Params, pol: Policy,
                                            loans: seq<LoanRecord>, signals: seq<Signal>, state: string, k: nat)
    requires l.state == Some(state) && k < |cands|
    requires forall j :: 0 <= j < k ==> SoftFailed(AttemptAt(cands, l, p, pol, loans, signals, j))
    requires !SoftFailed(AttemptAt(cands, l, p, pol, loans, signals, k))
    ensures Fire(cands, l, p, pol, loans, signals, state) == AttemptAt(cands, l, p, pol, loans, signals, k)
    decreases k
  {
    var a := Attempt(cands[0], l, p, pol, loans, signals);
    assert AttemptAt(cands, l, p, pol, loans, signals, 0) == a;
    if k > 0 {
      var rest := cands[1..];
      assert SoftFailed(a);
      SoftFailureKeeps(cands[0], l, p, pol, loans, signals);
      assert Fire(cands, l, p, pol, loans, signals, state) == Fire(rest, a.loan, p, pol, a.loans, a.signals, state);
      assert AttemptAt(cands, l, p, pol, loans, signals, k) == AttemptAt(rest, a.loan, p, pol, a.loans, a.signals, k - 1);
      forall j | 0 <= j < k - 1 ensures SoftFailed(AttemptAt(rest, a.loan, p, pol, a.loans, a.signals, j)) {
        assert SoftFailed(AttemptAt(cands, l, p, pol, loans, signals, j + 1));
      }
      FireFirstNotSoft(rest, a.loan, p, pol, a.loans, a.signals, state, k - 1);
    } else {
      assert Fire(cands, l, p, pol, loans, signals, state) == a;
    }
  }

  /** Helper: an attempt that soft-fails keeps the loan's state, the store
      and the signals. */
  lemma SoftFailureKeeps(t: Transition, l: LoanRecord, p: Params, pol: Policy,
                         loans: seq<LoanRecord>, signals: seq<Signal>)
    requires SoftFailed(Attempt(t, l, p, pol, loans, signals))
    ensures Attempt(t, l, p, pol, loans, signals).loan.state == l.state
    ensures Attempt(t, l, p, pol, loans, signals).loans == loans
    ensures Attempt(t, l, p, pol, loans, signals).signals == signals
  {
  }

  /** `_Circulation.trigger`: a loan without a state, with an empty state or
      with a state that has no configured transitions is an
      `InvalidLoanState` naming that state. */
  function TriggerSpec(m: map<string, seq<Transition>>, l: LoanRecord, p: Params, pol: Policy,
                       loans: seq<LoanRecord>, signals: seq<Signal>): (r: Attempted)
    ensures (l.state.None? || l.state == Some("") || l.state.value !in m) ==>
      r == Attempted(Some(InvalidLoanState(l.state, None)), l, loans, signals)
    ensures r.err.Some? ==> !r.err.value.TransitionConditionsFailed?
    ensures r.err.None? ==> exists k :: 0 <= k < |m[l.state.value]| && r.loan.state == Some(m[l.state.value][k].dest)
  {
    if l.state.None? || l.state.value == "" || l.state.value !in m then
      Attempted(Some(InvalidLoanState(l.state, None)), l, loans, signals)
    else Fire(m[l.state.value], l, p, pol, loans, signals, l.state.value)
  }

  /** `trigger` on a loan whose state has configured transitions tries them
      in declaration order: the first attempt that does not soft-fail is the
      result, and when all soft-fail the result is
      `NoValidTransitionAvailable` with store and signals untouched. */
  lemma TriggerInOrder(m: map<string, seq<Transition>>, l: LoanRecord, p: Params, pol: Policy,
                       loans: seq<LoanRecord>, signals: seq<Signal>, k: nat)
    requires l.state.Some? && l.state.value != "" && l.state.value in m
    ensures var c := m[l.state.value];
      (forall j :: 0 <= j < |c| ==> SoftFailed(AttemptAt(c, l, p, pol, loans, signals, j))) ==>
        TriggerSpec(m, l, p, pol, loans, signals).err == Some(NoValidTransitionAvailable(Some(l.pid), l.state)) &&
        TriggerSpec(m, l, p, pol, loans, signals).loans == loans &&
        TriggerSpec(m, l, p, pol, loans, signals).signals == signals
    ensures var c := m[l.state.value];
      (k < |c| && (forall j :: 0 <= j < k ==> SoftFailed(AttemptAt(c, l, p, pol, loans, signals, j))) &&
       !SoftFailed(AttemptAt(c, l, p, pol, loans, signals, k))) ==>
        TriggerSpec(m, l, p, pol, loans, signals) == AttemptAt(c, l, p, pol, loans, signals, k)
  {
    var s := l.state.value;
    var c := m[s];
    if forall j :: 0 <= j < |c| ==> SoftFailed(AttemptAt(c, l, p, pol, loans, signals, j)) {
      FireAllSoft(c, l, p, pol, loans, signals, s);
    }
    if k < |c| && (forall j :: 0 <= j < k ==> SoftFailed(AttemptAt(c, l, p, pol, loans, signals, j))) &&
       !SoftFailed(AttemptAt(c, l, p, pol, loans, signals, k)) {
      FireFirstNotSoft(c, l, p, pol, loans, signals, s, k);
    }
  }

  /** In a well-formed graph a successful trigger leaves the loan in a
      configured state reachable in one step from the state it had. */
  lemma TriggerStaysInGraph(m: map<string, seq<Transition>>, l: LoanRecord, p: Params, pol: Policy,
                            loans: seq<LoanRecord>, signals: seq<Signal>)
    requires WellFormed(m)
    requires TriggerSpec(m, l, p, pol, loans, signals).err.None?
    ensures l.state.Some? && l.state.value in m
    ensures TriggerSpec(m, l, p, pol, loans, signals).loan.state.value in m
  {
    var r := TriggerSpec(m, l, p, pol, loans, signals);
    var k :| 0 <= k < |m[l.state.value]| && r.loan.state == Some(m[l.state.value][k].dest);
  }

  /** `_Circulation`, holding the transitions per source state. */
  class Circulation {
    var transitions: map<string, seq<Transition>>

    constructor FromMap(m: map<string, seq<Transition>>)
      ensures transitions == m
    {
      transitions := m;
    }

    /** `_Circulation.__init__`: fills the dictionary of lists one entry at
        a time; the constructor's error ends construction. */
    static method New(config: Config, pol: Policy) returns (c: Circulation?, err: Option<Error>)
      requires DistinctKeys(config)
      ensures Build(config, pol).Ok? ==> err.None? && c != null && fresh(c) && c.transitions == Build(config, pol).value
      ensures Build(config, pol).Err? ==> c == null && err == Some(Build(config, pol).error)
    {
      var states := Keys(config);
      var m: map<string, seq<Transition>> := map[];
      var i := 0;
      while i < |config|
        invariant 0 <= i <= |config|
        invariant BuildUpTo(config, i, states, pol) == Ok(m)
      {
        var row := BuildRow(config[i].0, config[i].1, states, pol);
        if row.Err? {
          BuildErrSticks(config, i + 1, |config|, states, pol);
          return null, Some(row.error);
        }
        m := m[config[i].0 := row.value];
        i := i + 1;
      }
      c := new Circulation.FromMap(m);
      err := None;
    }

    /** The inner loop of `_Circulation.__init__`: the transitions of one
        source state, appended one by one. */
    static method BuildRow(src: string, specs: seq<TransitionSpec>, states: seq<string>, pol: Policy)
      returns (r: Result<seq<Transition>, Error>)
      ensures r == RowUpTo(src, specs, |specs|, states, pol)
    {
      var row: seq<Transition> := [];
      var j := 0;
      while j < |specs|
        invariant 0 <= j <= |specs|
        invariant RowUpTo(src, specs, j, states, pol) == Ok(row)
      {
        var t := NewTransition(src, specs[j], states, pol);
        if t.Err? {
          RowErrSticks(src, specs, j + 1, |specs|, states, pol);
          return Err(t.error);
        }
        row := row + [t.value];
        j := j + 1;
      }
      return Ok(row);
    }

    /** `_Circulation.trigger` on the loan object and the store. */
    method Trigger(loan: Loan, p: Params, pol: Policy, repo: Repository) returns (err: Option<Error>)
      modifies loan, repo
      ensures Attempted(err, loan.data, repo.loans, repo.signals) ==
        TriggerSpec(transitions, old(loan.data), p, pol, old(repo.loans), old(repo.signals))
    {
      var state := loan.data.state;
      if state.None? || state.value == "" || state.value !in transitions {
        return Some(InvalidLoanState(state, None));
      }
      var cands := transitions[state.value];
      var i := 0;
      while i < |cands|
        invariant 0 <= i <= |cands|
        invariant loan.data.state == state
        invariant Fire(cands[i..], loan.data, p, pol, repo.loans, repo.signals, state.value) ==
          Fire(cands, old(loan.data), p, pol, old(repo.loans), old(repo.signals), state.value)
      {
        assert cands[i..][1..] == cands[i + 1..];
        err := Execute(cands[i], loan, p, pol, repo);
        if err.None? || !err.value.TransitionConditionsFailed? {
          return;
        }
        i := i + 1;
      }
      return Some(NoValidTransitionAvailable(Some(loan.data.pid), Some(state.value)));
    }
  }

  /** Once an entry is rejected, every longer row is rejected too. */
  lemma {:induction false} RowErrSticks(src: string, specs: seq<TransitionSpec>, n: nat, n': nat, states: seq<string>, pol: Policy)
    requires n <= n' <= |specs|
    requires RowUpTo(src, specs, n, states, pol).Err?
    ensures RowUpTo(src, specs, n', states, pol) == RowUpTo(src, specs, n, states, pol)
    decreases n' - n
  {
    if n < n' {
      RowErrSticks(src, specs, n + 1, n', states, pol);
    }
  }

  /** Once a state's row is rejected, construction is rejected. */
  lemma {:induction false} BuildErrSticks(config: Config, n: nat, n': nat, states: seq<string>, pol: Policy)
    requires n <= n' <= |config|
    requires BuildUpTo(config, n, states, pol).Err?
    ensures BuildUpTo(config, n', states, pol) == BuildUpTo(config, n, states, pol)
    decreases n' - n
  {
    if n < n' {
      assert BuildUpTo(config, n + 1, states, pol) == BuildUpTo(config, n, states, pol);
      BuildErrSticks(config, n + 1, n', states, pol);
    }
  }
}

/** The transition graph the repository's tests configure. */
module Graph {
  import opened Wrappers
  import opened Records
  import opened Errors
  import opened Policy
  import opened Base
  import opened Transitions
  import opened Execution
  import opened Engine

  function Entry(dest: string, trigger: string, kind: Kind): TransitionSpec {
    TransitionSpec(dest, if trigger == "next" then None else Some(trigger), Some(kind), None)
  }

  /** CREATED requests or checks out; PENDING goes to the desk or in transit
      for pickup; ITEM_AT_DESK checks out; ITEM_ON_LOAN extends, returns,
      goes in transit to its house or is cancelled; ITEM_IN_TRANSIT_TO_HOUSE
      returns. The remaining states are terminal. */
  function TestConfig(): Config {
    [("CREATED", [Entry("PENDING", "request", CreatedToPending), Entry("ITEM_ON_LOAN", "checkout", ToItemOnLoan)]),
     ("PENDING", [Entry("ITEM_AT_DESK", "next", PendingToItemAtDesk),
                  Entry("ITEM_IN_TRANSIT_FOR_PICKUP", "next", PendingToItemInTransitPickup)]),
     ("ITEM_AT_DESK", [Entry("ITEM_ON_LOAN", "next", ItemAtDeskToItemOnLoan)]),
     ("ITEM_ON_LOAN", [Entry("ITEM_ON_LOAN", "extend", ItemOnLoanToItemOnLoan),
                       Entry("ITEM_RETURNED", "next", ItemOnLoanToItemReturned),
                       Entry("ITEM_IN_TRANSIT_TO_HOUSE", "next", ItemOnLoanToItemInTransitHouse),
                       Entry("CANCELLED", "cancel", Plain)]),
     ("ITEM_IN_TRANSIT_FOR_PICKUP", []),
     ("ITEM_IN_TRANSIT_TO_HOUSE", [Entry("ITEM_RETURNED", "next", ItemInTransitHouseToItemReturned)]),
     ("ITEM_RETURNED", []),
     ("CANCELLED", [])]
  }

  /** The test graph's states are distinct keys. */
  lemma TestKeysDistinct()
    ensures DistinctKeys(TestConfig())
  {
    var c := TestConfig();
    var ks := Keys(c);
    assert ks == ["CREATED", "PENDING", "ITEM_AT_DESK", "ITEM_ON_LOAN", "ITEM_IN_TRANSIT_FOR_PICKUP",
                  "ITEM_IN_TRANSIT_TO_HOUSE", "ITEM_RETURNED", "CANCELLED"];
  }

  /** Every destination of the test graph is one of its states. */
  lemma TestDestsConfigured()
    ensures forall i, j :: 0 <= i < |TestConfig()| && 0 <= j < |TestConfig()[i].1| ==>
      TestConfig()[i].1[j].dest in Keys(TestConfig())
  {
    var c := TestConfig();
    var ks := Keys(c);
    assert ks == ["CREATED", "PENDING", "ITEM_AT_DESK", "ITEM_ON_LOAN", "ITEM_IN_TRANSIT_FOR_PICKUP",
                  "ITEM_IN_TRANSIT_TO_HOUSE", "ITEM_RETURNED", "CANCELLED"];
    forall i, j | 0 <= i < |c| && 0 <= j < |c[i].1| ensures c[i].1[j].dest in ks {
      assert c[i].1[j].dest in ["PENDING", "ITEM_ON_LOAN", "ITEM_AT_DESK", "ITEM_IN_TRANSIT_FOR_PICKUP",
                                "ITEM_RETURNED", "ITEM_IN_TRANSIT_TO_HOUSE", "CANCELLED"];
    }
  }

  /** The test graph builds, into a well-formed graph with one transition
      per entry. */
  lemma TestConfigBuilds(pol: Policy)
    ensures DistinctKeys(TestConfig())
    ensures Build(TestConfig(), pol).Ok?
    ensures WellFormed(Build(TestConfig(), pol).value)
  {
    TestKeysDistinct();
    TestDestsConfigured();
    BuildSucceeds(TestConfig(), pol);
    BuildShape(TestConfig(), pol);
  }

  /** A trigger no transition of CREATED answers to, such as "cancel", soft-fails
      both and ends in `NoValidTransitionAvailable`, with nothing changed,
      when the parameters name an item. */
  lemma TestCancelFromCreated(pol: Policy, l: LoanRecord, p: Params, loans: seq<LoanRecord>, signals: seq<Signal>)
    requires l.state == Some("CREATED") && p.trigger == Some("cancel") && Truthy(p.itemPid)
    ensures Build(TestConfig(), pol).Ok?
    ensures TriggerSpec(Build(TestConfig(), pol).value, l, p, pol, loans, signals) ==
      Attempted(Some(NoValidTransitionAvailable(Some(l.pid), Some("CREATED"))), l, loans, signals)
  {
    TestConfigBuilds(pol);
    BuildShape(TestConfig(), pol);
    var m := Build(TestConfig(), pol).value;
    var c := TestConfig();
    assert c[0].0 == "CREATED";
    var cands := m["CREATED"];
    assert |cands| == 2;
    assert cands[0].trigger == "request" && cands[0].kind == CreatedToPending;
    assert cands[1].trigger == "checkout" && cands[1].kind == ToItemOnLoan;
    assert !OnDocument(p);
    assert HookParams(cands[0], l, p, pol, loans) == Ok(p);
    assert CheckTrigger(cands[0], p).Some?;
    assert BaseBefore(cands[0], l, p, pol) == Failed(CheckTrigger(cands[0], p).value, l);
    assert Before(cands[0], l, p, pol, loans) == Failed(CheckTrigger(cands[0], p).value, l);
    assert Attempt(cands[0], l, p, pol, loans, signals) ==
      Attempted(Some(CheckTrigger(cands[0], p).value), l, loans, signals);
    assert CheckTrigger(cands[1], p).Some?;
    assert Attempt(cands[1], l, p, pol, loans, signals) ==
      Attempted(Some(CheckTrigger(cands[1], p).value), l, loans, signals);
    assert cands[1..][1..] == [];
    assert Fire(cands[1..], l, p, pol, loans, signals, "CREATED") ==
      Fire([], l, p, pol, loans, signals, "CREATED");
    assert TriggerSpec(m, l, p, pol, loans, signals) == Fire(cands, l, p, pol, loans, signals, "CREATED");
  }

  /** A returned loan has no transitions in the test graph: any trigger ends
      in `NoValidTransitionAvailable` and changes nothing. */
  lemma TestReturnedIsTerminal(pol: Policy, l: LoanRecord, p: Params, loans: seq<LoanRecord>, signals: seq<Signal>)
    requires l.state == Some("ITEM_RETURNED")
    ensures Build(TestConfig(), pol).Ok?
    ensures TriggerSpec(Build(TestConfig(), pol).value, l, p, pol, loans, signals) ==
      Attempted(Some(NoValidTransitionAvailable(Some(l.pid), Some("ITEM_RETURNED"))), l, loans, signals)
  {
    TestConfigBuilds(pol);
    BuildShape(TestConfig(), pol);
    var c := TestConfig();
    assert c[6].0 == "ITEM_RETURNED" && |c[6].1| == 0;
  }
}
