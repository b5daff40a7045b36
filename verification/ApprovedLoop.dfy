/** The consumer loop of the execution service over one partition of signals.approved. */
module ApprovedLoop {
  /** What became of a message. A stale drop leaves no trace but a log line. */
  datatype Outcome = Executed | Retried | DeadLettered | DroppedAsStale

  /** How the parse, the two expiry checks and the handler turn out. */
  datatype Course = Malformed | ExpiredAtPoll | ExpiredInHandler | Succeeds | ReportsFailure | Raises

  /**
   * One turn of the loop: the course of the message, whether the topics take it (`retryFirst`
   * in the try block, `retryAgain` in the except clause), and whether each commit raises.
   */
  datatype Turn = Turn(
    course: Course, dlq: bool, retryFirst: bool, retryAgain: bool, commitRaises: bool, lastCommitRaises: bool)

  /** The loop restarts from the committed offset after a crash or a rebalance. */
  datatype Event = Iterate(turn: Turn) | Restart

  /** `outcomes[o]` is what has become of offset `o` so far; commits are cumulative. */
  datatype State = State(position: nat, committed: nat, outcomes: map<nat, set<Outcome>>)

  /** What the try block does with the message, when it gets as far as committing. */
  function TryOutcome(turn: Turn): set<Outcome> {
    match turn.course
    case Malformed => if turn.dlq then {DeadLettered} else {}
    case ExpiredAtPoll => if turn.dlq then {DeadLettered} else {}
    case ExpiredInHandler => {DroppedAsStale}
    case Succeeds => {Executed}
    case ReportsFailure => if turn.retryFirst then {Retried} else {}
    case Raises => {}
  }

  /** The except clause runs after a raise, or when the first commit raises. */
  predicate Excepts(turn: Turn) {
    turn.course == Raises || (turn.course != Malformed && TryOutcome(turn) != {} && turn.commitRaises)
  }

  function TurnOutcome(turn: Turn): set<Outcome> {
    TryOutcome(turn) + if Excepts(turn) && turn.retryAgain then {Retried} else {}
  }

  predicate TurnCommits(turn: Turn) {
    if Excepts(turn) then turn.retryAgain && !turn.lastCommitRaises
    else TryOutcome(turn) != {} && !turn.commitRaises
  }

  function OutcomesAt(s: State, o: nat): set<Outcome> {
    if o in s.outcomes then s.outcomes[o] else {}
  }

  function Apply(s: State, event: Event): State {
    match event
    case Restart => s.(position := s.committed)
    case Iterate(turn) =>
      State(s.position + 1, if TurnCommits(turn) then s.position + 1 else s.committed,
            s.outcomes[s.position := OutcomesAt(s, s.position) + TurnOutcome(turn)])
  }

  class Consumer {
    var position: nat
    var committed: nat
    var outcomes: map<nat, set<Outcome>>

    function Abstract(): State
      reads this
    {
      State(position, committed, outcomes)
    }

    constructor ()
      ensures Abstract() == State(0, 0, map[])
    {
      position, committed, outcomes := 0, 0, map[];
    }

    method Note(o: nat, outcome: Outcome)
      modifies this`outcomes
      ensures outcomes == old(outcomes)[o := OutcomesAt(old(Abstract()), o) + {outcome}]
    {
      outcomes := outcomes[o := (if o in outcomes then outcomes[o] else {}) + {outcome}];
    }

    /** The inner try block; false means that it raised. */
    method TryTurn(o: nat, turn: Turn) returns (ok: bool)
      requires turn.course != Malformed
      modifies this`committed, this`outcomes
      ensures ok <==> !Excepts(turn)
      ensures committed == if ok && TryOutcome(turn) != {} then o + 1 else old(committed)
      ensures outcomes == if TryOutcome(turn) == {} then old(outcomes)
        else old(outcomes)[o := OutcomesAt(old(Abstract()), o) + TryOutcome(turn)]
    {
      match turn.course {
        case ExpiredAtPoll =>
          if !turn.dlq { return true; }
          Note(o, DeadLettered);
        case ExpiredInHandler => Note(o, DroppedAsStale);
        case Succeeds => Note(o, Executed);
        case ReportsFailure =>
          if !turn.retryFirst { return true; }
          Note(o, Retried);
        case _ => return false;
      }
      if turn.commitRaises { return false; }
      committed := o + 1;
      ok := true;
    }

    /** One pass of _kafka_processing_loop. */
    method Iterate(turn: Turn)
      modifies this
      ensures forall o :: OutcomesAt(Abstract(), o) == OutcomesAt(Apply(old(Abstract()), Event.Iterate(turn)), o)
      ensures position == old(position) + 1
      ensures committed == if TurnCommits(turn) then old(position) + 1 else old(committed)
    {
      var o := position;
      position := position + 1;
      if turn.course == Malformed {
        if turn.dlq {
          Note(o, DeadLettered);
          if !turn.commitRaises { committed := o + 1; }
        }
        return;
      }
      var ok := TryTurn(o, turn);
      if !ok && turn.retryAgain {
        Note(o, Retried);
        if !turn.lastCommitRaises { committed := o + 1; }
      }
    }

    /** A new consumer starts from the committed offset. */
    method Restart()
      modifies this`position
      ensures Abstract() == Apply(old(Abstract()), Event.Restart)
    {
      position := committed;
    }
  }

  // ---- what a commit means ----

  /** What a message may come to; a stale drop is not among it. */
  const TRACES := {Executed, Retried, DeadLettered}

  /** The message was executed, retried or dead-lettered. */
  predicate Traced(s: State, o: nat) {
    OutcomesAt(s, o) * TRACES != {}
  }

  /** The handler's own expiry check drops the message, and its first commit goes through. */
  predicate Drops(turn: Turn) {
    turn.course == ExpiredInHandler && !turn.commitRaises
  }

  /** A turn that commits has traced its message, except exactly when it drops it. */
  lemma CommittedWithoutTraceExactly(turn: Turn)
    ensures TurnCommits(turn) && TurnOutcome(turn) * TRACES == {} <==> Drops(turn)
  {
    if TurnCommits(turn) && turn.course != ExpiredInHandler {
      assert Retried in TurnOutcome(turn) || Executed in TurnOutcome(turn) || DeadLettered in TurnOutcome(turn);
    }
    if TurnCommits(turn) && turn.course == ExpiredInHandler && turn.commitRaises {
      assert Retried in TurnOutcome(turn);
    }
  }

  // ---- what a turn leaves behind, by cause ----

  /** The try block gets as far as its commit: what it had to do for the message is done. */
  predicate ReachesCommit(turn: Turn) {
    match turn.course
    case Malformed => turn.dlq
    case ExpiredAtPoll => turn.dlq
    case ExpiredInHandler => true
    case Succeeds => true
    case ReportsFailure => turn.retryFirst
    case Raises => false
  }

  /** The except clause offers the message to the retry topic, and the topic takes it. */
  predicate RetriedAgain(turn: Turn) {
    turn.retryAgain &&
    (turn.course == Raises || (turn.course != Malformed && ReachesCommit(turn) && turn.commitRaises))
  }

  /** Each trace has one kind of cause, and a turn with that cause leaves it. */
  lemma TracesByCause(turn: Turn)
    ensures Executed in TurnOutcome(turn) <==> turn.course == Succeeds
    ensures DroppedAsStale in TurnOutcome(turn) <==> turn.course == ExpiredInHandler
    ensures DeadLettered in TurnOutcome(turn) <==> turn.course in {Malformed, ExpiredAtPoll} && turn.dlq
    ensures Retried in TurnOutcome(turn) <==> (turn.course == ReportsFailure && turn.retryFirst) || RetriedAgain(turn)
  {
  }

  /**
   * When a turn moves the committed offset: a failed message only after a retry topic took it,
   * a malformed or expired one only after the dead-letter topic did, and after a commit that
   * raised only once the retry topic has taken the message as well.
   */
  lemma CommitsByCause(s: State, turn: Turn)
    requires s.committed <= s.position
    ensures Apply(s, Event.Iterate(turn)).committed ==
            if (ReachesCommit(turn) && !turn.commitRaises) || (RetriedAgain(turn) && !turn.lastCommitRaises)
            then s.position + 1 else s.committed
    ensures var moved := Apply(s, Event.Iterate(turn)).committed != s.committed;
            (moved && turn.course in {ReportsFailure, Raises} ==> Retried in TurnOutcome(turn)) &&
            (moved && turn.course in {Malformed, ExpiredAtPoll} ==> DeadLettered in TurnOutcome(turn)) &&
            (moved && turn.course == Succeeds ==> Executed in TurnOutcome(turn))
  {
    TracesByCause(turn);
  }

  function Run(s: State, run: seq<Event>): State
    decreases |run|
  {
    if run == [] then s else Run(Apply(s, run[0]), run[1..])
  }

  /** Some turn of the run handles offset `o` successfully. */
  predicate SucceedsAt(s: State, run: seq<Event>, o: nat)
    decreases |run|
  {
    run != [] &&
    ((run[0].Iterate? && s.position == o && run[0].turn.course == Succeeds) ||
     SucceedsAt(Apply(s, run[0]), run[1..], o))
  }

  /** Over every run, a message counts as executed exactly when some delivery of it succeeded. */
  lemma {:induction false} ExecutedExactly(s: State, run: seq<Event>, o: nat)
    ensures Executed in OutcomesAt(Run(s, run), o) <==> Executed in OutcomesAt(s, o) || SucceedsAt(s, run, o)
    decreases |run|
  {
    if run != [] {
      if run[0].Iterate? { TracesByCause(run[0].turn); }
      ExecutedExactly(Apply(s, run[0]), run[1..], o);
    }
  }

  // ---- runs ----

  ghost predicate NothingLost(s: State) {
    forall o :: 0 <= o < s.committed ==> Traced(s, o)
  }

  /** At every state of the run, the first included, each committed message is traced. */
  ghost predicate NeverLoses(s: State, run: seq<Event>)
    decreases |run|
  {
    NothingLost(s) && (run == [] || NeverLoses(Apply(s, run[0]), run[1..]))
  }

  /** A message polled since the last restart is neither traced nor committed yet. */
  ghost predicate Gap(s: State) {
    exists o :: s.committed <= o < s.position && !Traced(s, o)
  }

  /** The turn commits over a gap, or drops a message that no earlier delivery traced. */
  ghost predicate Loses(s: State, event: Event) {
    event.Iterate? && ((TurnCommits(event.turn) && Gap(s)) || (Drops(event.turn) && !Traced(s, s.position)))
  }

  ghost predicate NoLosingTurn(s: State, run: seq<Event>)
    decreases |run|
  {
    run == [] || (!Loses(s, run[0]) && NoLosingTurn(Apply(s, run[0]), run[1..]))
  }

  /** A turn changes what became of its own message only, and adds to it. */
  lemma TurnTraces(s: State, event: Event, o: nat)
    ensures var t := Apply(s, event);
            Traced(t, o) <==>
              Traced(s, o) || (event.Iterate? && o == s.position && TurnOutcome(event.turn) * TRACES != {})
  {
    var t := Apply(s, event);
    if event.Iterate? && o == s.position {
      assert OutcomesAt(t, o) * TRACES == OutcomesAt(s, o) * TRACES + TurnOutcome(event.turn) * TRACES;
    } else {
      assert OutcomesAt(t, o) == OutcomesAt(s, o);
    }
  }

  /** One turn loses a message exactly when it commits over a gap or drops an untraced one. */
  lemma LosesExactly(s: State, event: Event)
    requires s.committed <= s.position && NothingLost(s)
    ensures Apply(s, event).committed <= Apply(s, event).position
    ensures NothingLost(Apply(s, event)) <==> !Loses(s, event)
  {
    var t := Apply(s, event);
    forall o: nat ensures Traced(t, o) <==>
      Traced(s, o) || (event.Iterate? && o == s.position && TurnOutcome(event.turn) * TRACES != {})
    {
      TurnTraces(s, event, o);
    }
    if event.Iterate? && TurnCommits(event.turn) {
      CommittedWithoutTraceExactly(event.turn);
      if Gap(s) {
        var o :| s.committed <= o < s.position && !Traced(s, o);
        assert o < t.committed && !Traced(t, o);
      }
      if Drops(event.turn) && !Traced(s, s.position) {
        assert s.position < t.committed && !Traced(t, s.position);
      }
    } else if event.Iterate? {
      CommittedWithoutTraceExactly(event.turn);
    }
  }

  /**
   * At every point of a run each offset below the committed one was executed, retried or
   * dead-lettered, exactly when no turn commits over a message of the session that was not
   * (commits are cumulative, so it is skipped for good) or drops one as stale untraced.
   */
  lemma {:induction false} NeverLosesExactly(s: State, run: seq<Event>)
    requires s.committed <= s.position && NothingLost(s)
    ensures NeverLoses(s, run) <==> NoLosingTurn(s, run)
    decreases |run|
  {
    if run != [] {
      LosesExactly(s, run[0]);
      if NothingLost(Apply(s, run[0])) {
        NeverLosesExactly(Apply(s, run[0]), run[1..]);
      }
    }
  }

  predicate Routed(event: Event) {
    event.Iterate? ==> event.turn.dlq && event.turn.retryFirst && event.turn.retryAgain
  }

  /** No turn drops a message that no earlier delivery traced. */
  ghost predicate NoUntracedDrop(s: State, run: seq<Event>)
    decreases |run|
  {
    run == [] ||
    (!(run[0].Iterate? && Drops(run[0].turn) && !Traced(s, s.position)) && NoUntracedDrop(Apply(s, run[0]), run[1..]))
  }

  /** If the topics take everything, every turn traces its message or drops it. */
  lemma RoutedTurn(turn: Turn)
    requires Routed(Event.Iterate(turn)) && !Drops(turn)
    ensures TurnOutcome(turn) * TRACES != {}
  {
    assert Retried in TurnOutcome(turn) || Executed in TurnOutcome(turn) || DeadLettered in TurnOutcome(turn);
  }

  lemma RoutedLeavesNoGap(s: State, event: Event)
    requires s.committed <= s.position && !Gap(s) && Routed(event)
    requires !(event.Iterate? && Drops(event.turn) && !Traced(s, s.position))
    ensures !Gap(Apply(s, event))
  {
    var t := Apply(s, event);
    forall o: nat | t.committed <= o < t.position ensures Traced(t, o) {
      TurnTraces(s, event, o);
      if event.Iterate? && o == s.position && !Drops(event.turn) {
        RoutedTurn(event.turn);
      }
    }
  }

  /**
   * If the retry and dead-letter topics take everything, then at every point of the run each
   * offset below the committed one was executed, retried or dead-lettered, exactly when no
   * message that expires between the two expiry checks is dropped untraced.
   */
  lemma {:induction false} RoutingLosesDropsOnly(s: State, run: seq<Event>)
    requires s.committed <= s.position && NothingLost(s) && !Gap(s)
    requires forall event :: event in run ==> Routed(event)
    ensures NeverLoses(s, run) <==> NoUntracedDrop(s, run)
    decreases |run|
  {
    if run != [] {
      var t := Apply(s, run[0]);
      assert Routed(run[0]);
      LosesExactly(s, run[0]);
      if !Loses(s, run[0]) {
        RoutedLeavesNoGap(s, run[0]);
        RoutingLosesDropsOnly(t, run[1..]);
      }
    }
  }
}
