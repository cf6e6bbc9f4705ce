/** The circulation error kinds of invenio_circulation/errors.py: each kind
    with the constructor arguments it is raised with, its HTTP status code and
    the description the exception ends up carrying. */
module Errors {
  import opened Wrappers
  import opened Text

  /** One constructor per exception class. `description` is the optional
      `description=` keyword the raiser passes to the base constructor.
      `KeyMissing` stands for a Python `KeyError` escaping the core (a
      dictionary read of a key the loan does not have); it is not a
      circulation exception. */
  datatype Error =
    | InvalidPermission(action: Option<string>, permission: Option<string>)
    | TransitionConstraintsViolation(description: Option<string>)
    | TransitionConditionsFailed(description: Option<string>)
    | NoValidTransitionAvailable(loanPid: Option<string>, state: Option<string>)
    | InvalidLoanState(state: Option<string>, description: Option<string>)
    | ItemNotAvailable(itemPid: Option<string>, transition: Option<string>, description: Option<string>)
    | ItemDoNotMatch(description: Option<string>)
    | MultipleLoansOnItem(itemPid: Option<string>)
    | LoanMaxExtension(loanPid: Option<string>, extensionCount: Option<int>)
    | RecordCannotBeRequested(description: Option<string>)
    | NotImplementedCirculation(configVariable: Option<string>, description: Option<string>)
    | PropertyRequired(description: Option<string>)
    | MissingRequiredParameter(description: Option<string>)
    | KeyMissing(key: string)

  predicate IsCirculationError(e: Error) {
    !e.KeyMissing?
  }

  /** The HTTP status of the exception: 400 for every circulation error,
      403 for a denied permission; an escaping `KeyError` is answered as an
      internal server error. */
  function Code(e: Error): (code: int)
    ensures code == 403 <==> e.InvalidPermission?
    ensures IsCirculationError(e) && !e.InvalidPermission? ==> code == 400
    ensures !IsCirculationError(e) ==> code == 500
  {
    match e
    case InvalidPermission(_, _) => 403
    case KeyMissing(_) => 500
    case _ => 400
  }

  const ConstraintsDefault := "Transition constraints have been wildly violated."
  const ConditionsDefault := "Transition conditions have failed."
  const NotImplementedDefault :=
    "Function is not implemented. Implement this function in your module and pass it to the config variable"

  /** The `description` attribute of the raised exception. The base
      constructor stores a caller-supplied description; classes whose own
      constructor writes the description after the base constructor
      overwrite it, while InvalidLoanState writes its text before and so is
      overwritten by the caller's. */
  function Description(e: Error): Option<string> {
    match e
    case InvalidPermission(a, p) =>
      Some("The action '" + Show(a) + "' is not permitted for your role '" + Show(p) + "'")
    case TransitionConstraintsViolation(d) => Some(d.GetOr(ConstraintsDefault))
    case TransitionConditionsFailed(d) => Some(d.GetOr(ConditionsDefault))
    case NoValidTransitionAvailable(pid, s) =>
      Some("For the loan with pid '" + Show(pid) + "' there are no valid transitions from its current state '" + Show(s) + "'")
    case InvalidLoanState(s, d) =>
      if d.Some? then d else Some("Invalid loan state '" + Show(s) + "'")
    case ItemNotAvailable(i, t, _) =>
      Some("The item requested with pid '" + Show(i) + "' is not available. Transition to '" + Show(t) + "' has failed.")
    case ItemDoNotMatch(d) => d
    case MultipleLoansOnItem(i) => Some("Multiple active loans on item with pid '" + Show(i) + "'")
    case LoanMaxExtension(pid, c) =>
      Some("You have reached the maximum amount of extesions '" + ShowInt(c) + "' for loan '" + Show(pid) + "'")
    case RecordCannotBeRequested(d) => d
    case NotImplementedCirculation(v, d) => Some(d.GetOr(NotImplementedDefault) + " '" + Show(v) + "'")
    case PropertyRequired(d) => d
    case MissingRequiredParameter(d) => d
    case KeyMissing(_) => None
  }

  function ShowInt(o: Option<int>): string {
    match o
    case Some(n) => IntToString(n)
    case None => "None"
  }

  /** InvalidLoanState formats its message before the base constructor runs,
      so a description given by the raiser replaces it; without one the
      message names the state. */
  lemma InvalidLoanStateDescription(s: Option<string>, d: Option<string>)
    ensures d.Some? ==> Description(InvalidLoanState(s, d)) == d
    ensures d.None? ==> Description(InvalidLoanState(s, d)) == Some("Invalid loan state '" + Show(s) + "'")
  {
  }

  /** ItemNotAvailable writes its description after the base constructor, so
      whatever description the raiser passed is lost. */
  lemma ItemNotAvailableIgnoresDescription(i: Option<string>, t: Option<string>, d1: Option<string>, d2: Option<string>)
    ensures Description(ItemNotAvailable(i, t, d1)) == Description(ItemNotAvailable(i, t, d2))
  {
  }

  /** The two transition failure kinds are distinct and each has its own
      default description. */
  lemma ConditionsAndConstraintsDiffer(d: Option<string>)
    ensures TransitionConditionsFailed(d) != TransitionConstraintsViolation(d)
    ensures Description(TransitionConditionsFailed(None)) != Description(TransitionConstraintsViolation(None))
  {
    assert ConditionsDefault[14] != ConstraintsDefault[14];
  }

  /** NoValidTransitionAvailable names the loan pid first and then the
      state, each between quotes, after a fixed prefix. */
  lemma NoValidTransitionNamesPidThenState(pid: string, s: string)
    ensures var m := Description(NoValidTransitionAvailable(Some(pid), Some(s))).value;
      var k := |"For the loan with pid '"|;
      && m[..k] == "For the loan with pid '"
      && m[k..k + |pid|] == pid
      && m[|m| - |s| - 1..|m| - 1] == s
  {
  }

  /** LoanMaxExtension names the maximum count first and then the loan pid;
      the count is written in decimal and reads back as itself. */
  lemma {:induction false} LoanMaxExtensionNamesCountThenPid(pid: string, count: nat)
    ensures var m := Description(LoanMaxExtension(Some(pid), Some(count))).value;
      var k := |"You have reached the maximum amount of extesions '"|;
      var c := NatToString(count);
      && m[k..k + |c|] == c
      && ParseNat(m[k..k + |c|]) == count
      && m[|m| - |pid| - 1..|m| - 1] == pid
  {
    NatToStringRoundTrip(count);
  }

  /** NotImplementedCirculation appends the quoted config variable to the
      fixed sentence (or to the description given by the raiser). */
  lemma NotImplementedDescription(v: string)
    ensures Description(NotImplementedCirculation(Some(v), None)) == Some(NotImplementedDefault + " '" + v + "'")
  {
  }
}
