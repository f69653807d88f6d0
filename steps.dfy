/** The wizard's five steps and the two unconditional moves between them
    (handleNext and handleBack). Neither move checks anything: what may be
    entered on a step is decided by the buttons each step renders. */
module Steps {

  datatype Step = Services | Personal | DateTime | Review | Confirmation

  /** Position along the wizard, as in its progress dots. */
  function Position(s: Step): nat {
    match s
    case Services => 0
    case Personal => 1
    case DateTime => 2
    case Review => 3
    case Confirmation => 4
  }

  /** handleNext: one step forward from the three form steps, no move otherwise. */
  function NextStep(s: Step): (r: Step)
    ensures r != Confirmation || s == Confirmation
    ensures s != Confirmation ==> r != Confirmation
    ensures s in {Services, Personal, DateTime} ==> Position(r) == Position(s) + 1
    ensures s in {Review, Confirmation} ==> r == s
  {
    match s
    case Services => Personal
    case Personal => DateTime
    case DateTime => Review
    case _ => s
  }

  /** handleBack: one step back from personal, date-time and review, no move otherwise. */
  function BackStep(s: Step): (r: Step)
    ensures s != Confirmation ==> r != Confirmation
    ensures s in {Personal, DateTime, Review} ==> Position(r) + 1 == Position(s)
    ensures s in {Services, Confirmation} ==> r == s
  {
    match s
    case Personal => Services
    case DateTime => Personal
    case Review => DateTime
    case _ => s
  }

  /** Back after Next returns to where the visitor started. */
  lemma BackUndoesNext(s: Step)
    requires s in {Services, Personal, DateTime}
    ensures BackStep(NextStep(s)) == s
  {
  }

  /** Next after Back returns to where the visitor started. */
  lemma NextUndoesBack(s: Step)
    requires s in {Personal, DateTime, Review}
    ensures NextStep(BackStep(s)) == s
  {
  }

  /** No sequence of Next and Back moves ever arrives at the confirmation
      step from another step. */
  lemma {:induction false} MovesNeverConfirm(s: Step, moves: seq<bool>)
    requires s != Confirmation
    ensures Replay(s, moves) != Confirmation
    decreases |moves|
  {
    if moves != [] {
      MovesNeverConfirm(if moves[0] then NextStep(s) else BackStep(s), moves[1..]);
    }
  }

  /** The step reached by pressing Next (true) or Back (false) in turn. */
  function Replay(s: Step, moves: seq<bool>): Step
    decreases |moves|
  {
    if moves == [] then s
    else Replay(if moves[0] then NextStep(s) else BackStep(s), moves[1..])
  }
}
