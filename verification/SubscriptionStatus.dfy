/** The life cycle of a subscription: which status may follow which. */
module SubscriptionStatus {

  datatype Status = Trial | Active | PastDue | Suspended | Cancelled | Expired

  function AllowedTransitions(from: Status): seq<Status> {
    match from
    case Trial => [Active, Expired, Cancelled]
    case Active => [PastDue, Suspended, Cancelled]
    case PastDue => [Active, Suspended, Cancelled]
    case Suspended => [Active, Cancelled]
    case Cancelled => []
    case Expired => []
  }

  predicate CanTransition(from: Status, to: Status) {
    to in AllowedTransitions(from)
  }

  predicate Terminal(s: Status) {
    s == Cancelled || s == Expired
  }

  /** A status is a dead end exactly when the service calls it terminal, and nothing loops on itself. */
  lemma TerminalIsDeadEnd(from: Status)
    ensures Terminal(from) <==> forall to :: !CanTransition(from, to)
    ensures !CanTransition(from, from)
  {
    if !Terminal(from) {
      assert CanTransition(from, if from == Active then PastDue else Active);
    }
  }

  /** The permitted transitions, one by one. */
  lemma TransitionTable(from: Status, to: Status)
    ensures CanTransition(from, to) <==>
      || (to == Active && from in {Trial, PastDue, Suspended})
      || (to == PastDue && from == Active)
      || (to == Suspended && from in {Active, PastDue})
      || (to == Cancelled && from in {Trial, Active, PastDue, Suspended})
      || (to == Expired && from == Trial)
  {
    var row := AllowedTransitions(from);
    assert forall i | 0 <= i < |row| :: row[i] in row;
    if |row| > 0 { assert row[0] in row && row[1] in row; }
    if |row| > 2 { assert row[2] in row; }
  }

  /** A list of statuses in which each follows the previous one by a permitted transition. */
  ghost predicate Path(path: seq<Status>) {
    forall i | 0 <= i < |path| - 1 :: CanTransition(path[i], path[i + 1])
  }

  /** A subscription that leaves its trial never sees it again, and expiry is reached from trial only. */
  lemma {:induction false} TrialIsLeftOnce(path: seq<Status>, i: nat)
    requires Path(path) && 0 < i < |path|
    ensures path[i] != Trial
    ensures path[i] == Expired ==> i == 1 && path[0] == Trial
  {
    assert CanTransition(path[i - 1], path[i - 1 + 1]);
    if path[i] == Expired && i > 1 {
      TrialIsLeftOnce(path, i - 1);
    }
  }
}
