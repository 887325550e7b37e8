// The execution state machine.
module StateMachine {
  import opened Models

  type State = ExecutionState

  predicate Terminal(s: State) {
    s.Completed? || s.Blocked? || s.Failed? || s.TimedOut? || s.Cancelled?
  }

  // The adjacency table after the module has finished setting it up: the extended
  // vocabulary replaces the rows of Approved and ValidatingResult.
  function Allowed(from: State): set<State> {
    match from
    case Created => {State.Validating}
    case Validating => {State.ScopeCheck, State.Failed, State.Blocked}
    case ScopeCheck => {State.AuthorizationCheck, State.Failed, State.Blocked}
    case AuthorizationCheck => {State.RiskAssessment, State.Failed, State.Blocked}
    case RiskAssessment => {State.WaitingForApproval, State.Failed, State.Blocked}
    case WaitingForApproval => {State.Approved, State.Failed, State.Blocked}
    case Approved => {State.Executing, State.Planned, State.Failed, State.Blocked}
    case Planned => {State.Dispatched, State.Failed, State.Blocked}
    case Dispatched => {State.Running, State.Failed, State.Blocked}
    case Running => {State.CollectingEvidence, State.Failed, State.TimedOut}
    case Executing => {State.CollectingEvidence, State.Failed, State.TimedOut, State.Blocked}
    case CollectingEvidence => {State.ValidatingResult, State.Failed}
    case ValidatingResult => {State.Reporting, State.Completed, State.Failed}
    case Reporting => {State.Completed, State.Failed}
    case Completed => {}
    case Blocked => {}
    case Failed => {}
    case TimedOut => {}
    case Cancelled => {}
  }

  // validate_transition: terminal states are absorbing, any other state may fail
  // closed into a terminal one, and everything else follows the table.
  predicate ValidTransition(from: State, to: State) {
    !Terminal(from) && (Terminal(to) || to in Allowed(from))
  }

  // How many transitions at most can still follow.
  function Rank(s: State): nat {
    match s
    case Created => 13
    case Validating => 12
    case ScopeCheck => 11
    case AuthorizationCheck => 10
    case RiskAssessment => 9
    case WaitingForApproval => 8
    case Approved => 7
    case Planned => 6
    case Dispatched => 5
    case Running => 4
    case Executing => 4
    case CollectingEvidence => 3
    case ValidatingResult => 2
    case Reporting => 1
    case Completed => 0
    case Blocked => 0
    case Failed => 0
    case TimedOut => 0
    case Cancelled => 0
  }

  lemma TransitionDescends(from: State, to: State)
    requires ValidTransition(from, to)
    ensures Rank(to) < Rank(from)
  {
  }

  // A history: it starts at Created and every step is a valid transition.
  predicate History(states: seq<State>) {
    && |states| > 0
    && states[0] == State.Created
    && forall i | 0 <= i < |states| - 1 :: ValidTransition(states[i], states[i + 1])
  }

  lemma {:induction false} HistoryRank(states: seq<State>, i: nat)
    requires History(states) && i < |states|
    ensures Rank(states[i]) + i <= 13
  {
    if i > 0 {
      HistoryRank(states, i - 1);
      TransitionDescends(states[i - 1], states[i]);
    }
  }

  // Terminal states are absorbing, no state recurs, and no history is longer than 14.
  lemma HistoryShape(states: seq<State>)
    requires History(states)
    ensures |states| <= 14
    ensures forall i | 0 <= i < |states| - 1 :: !Terminal(states[i])
    ensures forall i, j | 0 <= i < j < |states| :: states[i] != states[j]
  {
    HistoryRank(states, |states| - 1);
    forall i | 0 <= i < |states| - 1 ensures !Terminal(states[i]) {
      assert ValidTransition(states[i], states[i + 1]);
    }
    forall i, j | 0 <= i < j < |states| ensures states[i] != states[j] {
      RankFalls(states, i, j);
    }
  }

  lemma {:induction false} RankFalls(states: seq<State>, i: nat, j: nat)
    requires History(states) && i < j < |states|
    ensures Rank(states[j]) < Rank(states[i])
    decreases j - i
  {
    TransitionDescends(states[j - 1], states[j]);
    if i < j - 1 {
      RankFalls(states, i, j - 1);
    }
  }

  lemma HistoryExtends(states: seq<State>, to: State)
    requires History(states) && ValidTransition(states[|states| - 1], to)
    ensures History(states + [to])
  {
  }
}
