/** Order statuses and the transition table that OrderManager enforces on every row write. */
module Orders {
  datatype Status =
    | Pending | AckUnknown | Placed | PartiallyFilled | Filled | Cancelled | Rejected | Flattening

  datatype Side = Buy | Sell

  function Opposite(side: Side): (r: Side)
    ensures r != side
  {
    if side == Buy then Sell else Buy
  }

  /** The successors listed for a status; FLATTENING has no entry in the table. */
  function Successors(status: Status): set<Status> {
    match status
    case Pending => {AckUnknown, Placed, PartiallyFilled, Filled, Cancelled, Rejected}
    case AckUnknown => {Placed, PartiallyFilled, Filled, Cancelled, Rejected}
    case Placed => {Filled, PartiallyFilled, Cancelled, Rejected}
    case PartiallyFilled => {Filled, Cancelled}
    case Filled => {}
    case Cancelled => {}
    case Rejected => {}
    case Flattening => {}
  }

  /** A write is legal when it repeats the status or moves to a listed successor. */
  predicate ValidTransition(previous: Status, next: Status) {
    previous == next || next in Successors(previous)
  }

  /** Every status a chain of legal writes passes through. */
  ghost predicate LegalChain(chain: seq<Status>) {
    forall i :: 0 < i < |chain| ==> ValidTransition(chain[i - 1], chain[i])
  }

  predicate Terminal(status: Status) {
    status in {Filled, Cancelled, Rejected}
  }

  function Rank(status: Status): nat {
    match status
    case Pending => 0
    case AckUnknown => 1
    case Placed => 2
    case PartiallyFilled => 3
    case Filled => 4
    case Cancelled => 5
    case Rejected => 6
    case Flattening => 7
  }

  /**
   * Along any chain of legal writes the rank never falls, so PENDING and ACK_UNKNOWN are
   * never re-entered, and a terminal status is kept for ever.
   */
  lemma {:induction false} ChainsOnlyAdvance(chain: seq<Status>, i: nat, j: nat)
    requires LegalChain(chain) && i <= j < |chain|
    ensures Rank(chain[i]) <= Rank(chain[j])
    ensures Terminal(chain[i]) ==> chain[j] == chain[i]
    ensures chain[i] != Pending ==> chain[j] != Pending
    ensures chain[j] == AckUnknown ==> chain[i] in {Pending, AckUnknown}
    ensures chain[j] != Flattening || chain[i] == Flattening
    decreases j - i
  {
    if i < j {
      ChainsOnlyAdvance(chain, i, j - 1);
      assert ValidTransition(chain[j - 1], chain[j]);
    }
  }

  /**
   * A status may move to any later one (PENDING, ACK_UNKNOWN, PLACED, PARTIALLY_FILLED, then the
   * terminal ones), except that a partly filled order cannot be rejected; and whatever several
   * legal writes can do, one can.
   */
  lemma LegalExactly(a: Status, b: Status, c: Status)
    ensures a != b ==>
              (ValidTransition(a, b) <==>
                 a !in {Filled, Cancelled, Rejected, Flattening} && b != Flattening && Rank(a) < Rank(b) &&
                     !(a == PartiallyFilled && b == Rejected))
    ensures ValidTransition(a, b) && ValidTransition(b, c) ==> ValidTransition(a, c)
  {
  }
}
