/** The ten-state exchange lifecycle and its transition table. */
module StateMachine {

  datatype State =
    | Proposed | Contracted | Escrowed | Delivered | Verified
    | Settled | Rejected | ExpiredRefunded | Cancelled | Disputed

  function Targets(s: State): set<State> {
    match s
    case Proposed => {Contracted, Cancelled, ExpiredRefunded}
    case Contracted => {Escrowed, Cancelled, ExpiredRefunded}
    case Escrowed => {Delivered, ExpiredRefunded, Cancelled}
    case Delivered => {Verified, Rejected, ExpiredRefunded}
    case Verified => {Settled, Disputed, ExpiredRefunded}
    case Disputed => {Settled, Rejected}
    case _ => {}
  }

  predicate CanTransition(src: State, dst: State) {
    dst in Targets(src)
  }

  predicate Terminal(s: State) {
    s == Settled || s == Rejected || s == ExpiredRefunded || s == Cancelled
  }

  /** States in which no escrow handle exists yet. */
  predicate Early(s: State) {
    s == Proposed || s == Contracted
  }

  /** How many more state changes an exchange in state s can make at most. */
  function Rank(s: State): (r: nat)
    ensures r == 0 <==> Terminal(s)
  {
    match s
    case Proposed => 6
    case Contracted => 5
    case Escrowed => 4
    case Delivered => 3
    case Verified => 2
    case Disputed => 1
    case _ => 0
  }

  /** The table read backwards: where an exchange in each state can have come from. */
  lemma SourcesAre(s: State, d: State)
    ensures CanTransition(s, d) <==>
      || (d == Contracted && s == Proposed) || (d == Escrowed && s == Contracted) || (d == Delivered && s == Escrowed)
      || (d == Verified && s == Delivered) || (d == Disputed && s == Verified)
      || (d == Settled && (s == Verified || s == Disputed))
      || (d == Rejected && (s == Delivered || s == Disputed))
      || (d == Cancelled && (s == Proposed || s == Contracted || s == Escrowed))
      || (d == ExpiredRefunded && !Terminal(s) && s != Disputed)
  {
  }

  /** The table has no cycle: every allowed change lowers the rank. */
  lemma RankFalls(s: State, d: State)
    requires CanTransition(s, d)
    ensures Rank(d) < Rank(s) <= 6
  {
  }
}
