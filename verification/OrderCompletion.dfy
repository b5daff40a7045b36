/** What a handler achieves when nothing stands in its way, and what each failure leaves for the next one. */
module OrderCompletion {
  import opened Wrappers
  import opened Orders
  import opened OrderProtocol
  import opened OrderProtocolInvariant
  import opened OrderSafety

  /** The state with handler `w` added. */
  function With(s: State, w: WorkerId, worker: Worker): State {
    s.(workers := s.workers[w := worker])
  }

  lemma Moves(s: State, w: WorkerId, worker: Worker, pc: Pc)
    ensures MoveTo(With(s, w, worker), w, pc) == With(s, w, worker.(pc := pc))
  {
    assert s.workers[w := worker][w := worker.(pc := pc)] == s.workers[w := worker.(pc := pc)];
  }

  lemma Ends(s: State, w: WorkerId, worker: Worker)
    requires w !in s.workers
    ensures End(With(s, w, worker), w) == s
  {
    assert s.workers[w := worker] - {w} == s.workers;
  }

  lemma {:induction false} RunJoins(s: State, a: seq<Step>, b: seq<Step>)
    ensures Run(s, a + b) == Run(Run(s, a), b)
    decreases |a|
  {
    if a == [] {
      assert a + b == b;
    } else {
      assert (a + b)[1..] == a[1..] + b;
      RunJoins(Apply(s, a[0]), a[1..], b);
    }
  }

  lemma RunTwo(s: State, a: Step, b: Step)
    ensures Run(s, [a, b]) == Apply(Apply(s, a), b)
  {
    assert [a, b][1..] == [b] && [b][1..] == [];
    assert Run(Apply(Apply(s, a), b), []) == Apply(Apply(s, a), b);
  }

  lemma RunThree(s: State, a: Step, b: Step, c: Step)
    ensures Run(s, [a, b, c]) == Apply(Apply(Apply(s, a), b), c)
  {
    assert [a, b, c][1..] == [b, c];
    RunTwo(Apply(s, a), b, c);
  }

  // ---- how a handler comes to the gate ----

  /** A first delivery: no row is read, and row and reservation are written. */
  function FirstDelivery(p: ProcessId, signal: SignalId, decision: DecisionId, newId: OrderId, w: WorkerId): seq<Step> {
    [Deliver(p, signal, decision), Enter(w, None)] + [Read(w, None), Submit(w, newId)]
  }

  /** A later handler, by redelivery or by startup reconciliation, that reads PENDING. */
  function LaterHandler(start: Step, w: WorkerId): seq<Step> {
    [start, Enter(w, None), Read(w, Some(Pending))]
  }

  function Reserved(s: State, signal: SignalId, decision: DecisionId, newId: OrderId): State {
    s.(rows := s.rows[newId := Row(signal, decision, Pending, {Pending}, false, false)],
       locks := s.locks[signal := newId], spawned := s.spawned + 1)
  }

  lemma Enters(s: State, w: WorkerId, worker: Worker)
    requires worker.pc == Entered && worker.process !in s.halted
    ensures Apply(With(s, w, worker), Enter(w, None)) == With(s, w, worker.(pc := Reading))
  {
    Moves(s, w, worker, Reading);
  }

  lemma ReadsAndSubmits(s: State, w: WorkerId, worker: Worker, newId: OrderId)
    requires worker.pc == Reading && worker.signal !in s.locks && newId !in s.rows
    ensures Run(With(s, w, worker), [Read(w, None), Submit(w, newId)]) ==
            With(SubmitRow(s, worker.signal, worker.decision, newId, false), w, worker.(pc := AtGate(newId)))
  {
    RunTwo(With(s, w, worker), Read(w, None), Submit(w, newId));
    Moves(s, w, worker, Submitting);
    Moves(SubmitRow(s, worker.signal, worker.decision, newId, false), w, worker.(pc := Submitting), AtGate(newId));
  }

  lemma FirstArrives(s: State, p: ProcessId, signal: SignalId, decision: DecisionId, newId: OrderId)
    requires decision != "" && p !in s.halted && signal !in s.locks && newId !in s.rows
    ensures Run(s, FirstDelivery(p, signal, decision, newId, s.spawned)) ==
            With(Reserved(s, signal, decision, newId), s.spawned, Worker(p, signal, decision, AtGate(newId)))
  {
    var w, t := s.spawned, s.(spawned := s.spawned + 1);
    var entered := Worker(p, signal, decision, Entered);
    RunJoins(s, [Deliver(p, signal, decision), Enter(w, None)], [Read(w, None), Submit(w, newId)]);
    RunTwo(s, Deliver(p, signal, decision), Enter(w, None));
    assert Apply(s, Deliver(p, signal, decision)) == With(t, w, entered);
    Enters(t, w, entered);
    ReadsAndSubmits(t, w, entered.(pc := Reading), newId);
  }

  /** The step starts a handler for the order's signal in process `p`. */
  predicate StartsHandler(s: State, start: Step, p: ProcessId, o: OrderId)
    requires o in s.rows
  {
    (start.Deliver? && start.process == p && start.signal == s.rows[o].signal && start.decision != "") ||
    (start == Reconcile(p, o, Pending) && s.rows[o].signal != "" && s.rows[o].decision != "")
  }

  function DecisionOf(s: State, start: Step, o: OrderId): DecisionId
    requires o in s.rows
  {
    if start.Deliver? then start.decision else s.rows[o].decision
  }

  lemma ReadsPending(s: State, w: WorkerId, worker: Worker, o: OrderId)
    requires worker.pc == Reading && worker.signal in s.locks && s.locks[worker.signal] == o
    requires o in s.rows && Pending in s.rows[o].history
    ensures Apply(With(s, w, worker), Read(w, Some(Pending))) == With(s, w, worker.(pc := AtGate(o)))
  {
    Moves(s, w, worker, AtGate(o));
  }

  lemma LaterArrives(s: State, start: Step, p: ProcessId, o: OrderId)
    requires o in s.rows && s.rows[o].status == Pending && Pending in s.rows[o].history && p !in s.halted
    requires s.rows[o].signal in s.locks && s.locks[s.rows[o].signal] == o && StartsHandler(s, start, p, o)
    ensures Run(s, LaterHandler(start, s.spawned)) ==
            With(s.(spawned := s.spawned + 1), s.spawned,
                 Worker(p, s.rows[o].signal, DecisionOf(s, start, o), AtGate(o)))
  {
    var w, t := s.spawned, s.(spawned := s.spawned + 1);
    var entered := Worker(p, s.rows[o].signal, DecisionOf(s, start, o), Entered);
    RunThree(s, start, Enter(w, None), Read(w, Some(Pending)));
    assert Apply(s, start) == With(t, w, entered);
    Enters(t, w, entered);
    ReadsPending(t, w, entered.(pc := Reading), o);
  }

  // ---- from the gate to the broker's answer ----

  function Requested(worker: Worker, o: OrderId, w: WorkerId, accepted: bool): Request {
    Request(BrokerKey(o), worker.signal, worker.decision, worker.process, w, if accepted then Accepted else Lost)
  }

  /** The search misses, and the request is handed over and accepted or lost. */
  function HandsOver(w: WorkerId, i: nat, accepted: bool): seq<Step> {
    [Gate(w), Lookup(w, None)] + [Place(w), Resolve(i, accepted)]
  }

  lemma Misses(s: State, w: WorkerId, worker: Worker, o: OrderId)
    requires worker.pc == AtGate(o) && worker.process !in s.halted
    ensures Run(With(s, w, worker), [Gate(w), Lookup(w, None)]) == With(s, w, worker.(pc := Waiting(o)))
  {
    RunTwo(With(s, w, worker), Gate(w), Lookup(w, None));
    Moves(s, w, worker, LookingUp(o));
    Moves(s, w, worker.(pc := LookingUp(o)), Waiting(o));
  }

  lemma PlacesAndResolves(s: State, w: WorkerId, worker: Worker, o: OrderId, accepted: bool)
    requires worker.pc == Waiting(o)
    ensures Run(With(s, w, worker), [Place(w), Resolve(|s.requests|, accepted)]) ==
            With(s.(requests := s.requests + [Requested(worker, o, w, accepted)]), w,
                 worker.(pc := Calling(o, |s.requests|)))
  {
    var i := |s.requests|;
    RunTwo(With(s, w, worker), Place(w), Resolve(i, accepted));
    var request := Request(BrokerKey(o), worker.signal, worker.decision, worker.process, w, InFlight);
    var flying := s.(requests := s.requests + [request]);
    Moves(flying, w, worker, Calling(o, i));
    assert flying.requests[i := Requested(worker, o, w, accepted)] == s.requests + [Requested(worker, o, w, accepted)];
  }

  lemma HandedOver(s: State, w: WorkerId, worker: Worker, o: OrderId, accepted: bool)
    requires worker.pc == AtGate(o) && worker.process !in s.halted
    ensures Run(With(s, w, worker), HandsOver(w, |s.requests|, accepted)) ==
            With(s.(requests := s.requests + [Requested(worker, o, w, accepted)]), w,
                 worker.(pc := Calling(o, |s.requests|)))
  {
    var i := |s.requests|;
    RunJoins(With(s, w, worker), [Gate(w), Lookup(w, None)], [Place(w), Resolve(i, accepted)]);
    Misses(s, w, worker, o);
    PlacesAndResolves(s, w, worker.(pc := Waiting(o)), o, accepted);
  }

  /** The row once the broker's status and id are recorded on it. */
  function Recorded(row: Row, status: Status): Row {
    row.(status := status, history := row.history + {status}, hasBrokerId := true)
  }

  lemma RecordsStatus(s: State, w: WorkerId, worker: Worker, o: OrderId, status: Status)
    requires worker.pc == Recording(o, status) && w !in s.workers
    requires o in s.rows && ValidTransition(s.rows[o].status, status)
    ensures Apply(With(s, w, worker), Record(w, true)) == s.(rows := s.rows[o := Recorded(s.rows[o], status)])
  {
    Ends(s.(rows := s.rows[o := Recorded(s.rows[o], status)]), w, worker);
  }

  lemma PendingTakesAny(status: Status)
    requires BrokerStatus(status)
    ensures ValidTransition(Pending, status)
  {
  }

  lemma Acknowledged(s: State, w: WorkerId, worker: Worker, o: OrderId, i: nat, status: Status)
    requires worker.pc == Calling(o, i) && w !in s.workers && i < |s.requests| && s.requests[i].fate == Accepted
    requires o in s.rows && s.rows[o].status == Pending && BrokerStatus(status)
    ensures Run(With(s, w, worker), [Answer(w, Ack(status)), Record(w, true)]) ==
            s.(rows := s.rows[o := Recorded(s.rows[o], status)])
  {
    RunTwo(With(s, w, worker), Answer(w, Ack(status)), Record(w, true));
    Moves(s, w, worker, Recording(o, status));
    PendingTakesAny(status);
    RecordsStatus(s, w, worker.(pc := Recording(o, status)), o, status);
  }

  /** From the gate to a recorded order. */
  function Placed(s: State, w: WorkerId, status: Status): seq<Step> {
    HandsOver(w, |s.requests|, true) + [Answer(w, Ack(status)), Record(w, true)]
  }

  lemma PlacesFromGate(s: State, w: WorkerId, worker: Worker, o: OrderId, status: Status)
    requires worker.pc == AtGate(o) && worker.process !in s.halted && w !in s.workers
    requires o in s.rows && s.rows[o].status == Pending && BrokerStatus(status)
    ensures Run(With(s, w, worker), Placed(s, w, status)) ==
            s.(requests := s.requests + [Requested(worker, o, w, true)],
               rows := s.rows[o := Recorded(s.rows[o], status)])
  {
    RunJoins(With(s, w, worker), HandsOver(w, |s.requests|, true), [Answer(w, Ack(status)), Record(w, true)]);
    HandedOver(s, w, worker, o, true);
    Acknowledged(s.(requests := s.requests + [Requested(worker, o, w, true)]), w,
                 worker.(pc := Calling(o, |s.requests|)), o, |s.requests|, status);
  }

  // ---- completion ----

  /** What the table says of reachable states, as far as it is needed here. */
  lemma ReachableRow(s: State, o: OrderId)
    requires Reachable(s) && o in s.rows
    ensures s.spawned !in s.workers
    ensures s.rows[o].signal in s.locks && s.locks[s.rows[o].signal] == o && s.rows[o].status in s.rows[o].history
  {
    ReachableSound(s);
  }

  /** A first delivery without faults, the broker acknowledging with `status`. */
  function Completion(s: State, p: ProcessId, signal: SignalId, decision: DecisionId, newId: OrderId, status: Status)
    : seq<Step>
  {
    FirstDelivery(p, signal, decision, newId, s.spawned) + Placed(s, s.spawned, status)
  }

  /**
   * From any reachable state in which the signal has no reservation and the process is not
   * halted, one delivery without faults ends with exactly one accepted request under the new
   * order's key, and its row holding the acknowledged status and a broker id.
   */
  lemma FirstDeliveryCompletes(s: State, p: ProcessId, signal: SignalId, decision: DecisionId, newId: OrderId,
      status: Status)
    requires Reachable(s) && decision != "" && p !in s.halted && signal !in s.locks && newId !in s.rows
    requires BrokerStatus(status)
    ensures var t := Run(s, Completion(s, p, signal, decision, newId, status));
            t.rows == s.rows[newId := Row(signal, decision, status, {Pending, status}, true, false)] &&
            t.locks == s.locks[signal := newId] &&
            t.requests == s.requests + [Request(BrokerKey(newId), signal, decision, p, s.spawned, Accepted)] &&
            t.workers == s.workers && t.halted == s.halted
  {
    ReachableSound(s);
    var w, b := s.spawned, Reserved(s, signal, decision, newId);
    RunJoins(s, FirstDelivery(p, signal, decision, newId, w), Placed(s, w, status));
    FirstArrives(s, p, signal, decision, newId);
    PlacesFromGate(b, w, Worker(p, signal, decision, AtGate(newId)), newId, status);
    assert Recorded(b.rows[newId], status) == Row(signal, decision, status, {Pending, status}, true, false) by {
      assert {Pending} + {status} == {Pending, status};
    }
  }

  /** A later handler that finds nothing at the broker, places the order and has it acknowledged. */
  function Replacement(s: State, start: Step, status: Status): seq<Step> {
    LaterHandler(start, s.spawned) + Placed(s, s.spawned, status)
  }

  /**
   * A row that a crash left PENDING is completed by one more handler without faults, whether a
   * redelivery or startup reconciliation starts it: it places under the reserved order id.
   */
  lemma StrandedOrderIsPlaced(s: State, start: Step, p: ProcessId, o: OrderId, status: Status)
    requires Reachable(s) && o in s.rows && s.rows[o].status == Pending && p !in s.halted
    requires StartsHandler(s, start, p, o) && BrokerStatus(status)
    ensures var t, row := Run(s, Replacement(s, start, status)), s.rows[o];
            t.rows == s.rows[o := row.(status := status, history := row.history + {status}, hasBrokerId := true)] &&
            t.requests == s.requests +
              [Request(BrokerKey(o), row.signal, DecisionOf(s, start, o), p, s.spawned, Accepted)] &&
            t.locks == s.locks && t.workers == s.workers
  {
    ReachableRow(s, o);
    var w, b := s.spawned, s.(spawned := s.spawned + 1);
    RunJoins(s, LaterHandler(start, w), Placed(s, w, status));
    LaterArrives(s, start, p, o);
    PlacesFromGate(b, w, Worker(p, s.rows[o].signal, DecisionOf(s, start, o), AtGate(o)), o, status);
  }

  /** A later handler whose search finds the order. */
  function Discovery(s: State, start: Step, status: Status): seq<Step> {
    LaterHandler(start, s.spawned) + [Gate(s.spawned), Lookup(s.spawned, Some(status)), Record(s.spawned, true)]
  }

  /** If the broker has the order already, that handler records it and hands over nothing. */
  lemma StrandedOrderIsFound(s: State, start: Step, p: ProcessId, o: OrderId, status: Status)
    requires Reachable(s) && o in s.rows && s.rows[o].status == Pending && p !in s.halted
    requires StartsHandler(s, start, p, o) && BrokerStatus(status) && OnBroker(s.requests, o)
    ensures var t, row := Run(s, Discovery(s, start, status)), s.rows[o];
            t.rows == s.rows[o := row.(status := status, history := row.history + {status}, hasBrokerId := true)] &&
            t.requests == s.requests && t.locks == s.locks && t.workers == s.workers
  {
    ReachableRow(s, o);
    var w, b := s.spawned, s.(spawned := s.spawned + 1);
    var worker := Worker(p, s.rows[o].signal, DecisionOf(s, start, o), AtGate(o));
    RunJoins(s, LaterHandler(start, w), [Gate(w), Lookup(w, Some(status)), Record(w, true)]);
    LaterArrives(s, start, p, o);
    RunThree(With(b, w, worker), Gate(w), Lookup(w, Some(status)), Record(w, true));
    Moves(b, w, worker, LookingUp(o));
    Moves(b, w, worker.(pc := LookingUp(o)), Recording(o, status));
    PendingTakesAny(status);
    RecordsStatus(b, w, worker.(pc := Recording(o, status)), o, status);
  }

  // ---- a doubtful or refused placement ----

  /** The place call ends in a fault; the doubt is marked and the rescan misses. */
  function Doubt(s: State, w: WorkerId, accepted: bool): seq<Step> {
    HandsOver(w, |s.requests|, accepted) + [Answer(w, Fault), MarkUnknown(w, true), Rescan(w, None)]
  }

  lemma MarksDoubt(s: State, w: WorkerId, worker: Worker, o: OrderId, i: nat)
    requires worker.pc == Calling(o, i) && w !in s.workers && o in s.rows
    ensures Run(With(s, w, worker), [Answer(w, Fault), MarkUnknown(w, true), Rescan(w, None)]) ==
            WriteRow(s, o, AckUnknown)
  {
    RunThree(With(s, w, worker), Answer(w, Fault), MarkUnknown(w, true), Rescan(w, None));
    Moves(s, w, worker, Doubtful(o));
    var marked := WriteRow(s, o, AckUnknown);
    assert WriteRow(With(s, w, worker.(pc := Doubtful(o))), o, AckUnknown) ==
      With(marked, w, worker.(pc := Doubtful(o)));
    Moves(marked, w, worker.(pc := Doubtful(o)), Rescanning(o));
    Ends(marked, w, worker.(pc := Rescanning(o)));
  }

  /**
   * A placement that ends in a fault leaves the row ACK_UNKNOWN and no handler, whether the
   * broker has the order or not.
   */
  lemma DoubtIsMarked(s: State, w: WorkerId, worker: Worker, o: OrderId, accepted: bool)
    requires worker.pc == AtGate(o) && worker.process !in s.halted && w !in s.workers
    requires o in s.rows && s.rows[o].status == Pending
    ensures var t, row := Run(With(s, w, worker), Doubt(s, w, accepted)), s.rows[o];
            t.rows == s.rows[o := row.(status := AckUnknown, history := row.history + {AckUnknown})] &&
            t.requests == s.requests + [Requested(worker, o, w, accepted)] && t.workers == s.workers &&
            t.locks == s.locks
  {
    var i := |s.requests|;
    RunJoins(With(s, w, worker), HandsOver(w, i, accepted), [Answer(w, Fault), MarkUnknown(w, true), Rescan(w, None)]);
    HandedOver(s, w, worker, o, accepted);
    var b, calling := s.(requests := s.requests + [Requested(worker, o, w, accepted)]), worker.(pc := Calling(o, i));
    MarksDoubt(b, w, calling, o, i);
  }

  /** Startup reconciliation of a row listed as ACK_UNKNOWN whose search finds the order. */
  function Recovery(s: State, p: ProcessId, o: OrderId, status: Status): seq<Step> {
    [Reconcile(p, o, AckUnknown), Rescan(s.spawned, Some(status)), Record(s.spawned, true)]
  }

  /**
   * From any reachable state, an ACK_UNKNOWN order that the broker has is recorded by one
   * startup reconciliation whose search finds it; nothing is placed, also while halted.
   */
  lemma DoubtIsResolved(s: State, p: ProcessId, o: OrderId, status: Status)
    requires Reachable(s) && o in s.rows && s.rows[o].status == AckUnknown
    requires BrokerStatus(status) && status != Pending && OnBroker(s.requests, o)
    ensures var t, row := Run(s, Recovery(s, p, o, status)), s.rows[o];
            t.rows == s.rows[o := row.(status := status, history := row.history + {status}, hasBrokerId := true)] &&
            t.requests == s.requests && t.locks == s.locks && t.workers == s.workers
  {
    ReachableRow(s, o);
    var w, b, row := s.spawned, s.(spawned := s.spawned + 1), s.rows[o];
    var worker := Worker(p, row.signal, row.decision, Rescanning(o));
    RunThree(s, Reconcile(p, o, AckUnknown), Rescan(w, Some(status)), Record(w, true));
    assert Apply(s, Reconcile(p, o, AckUnknown)) == With(b, w, worker);
    Moves(b, w, worker, Recording(o, status));
    RecordsStatus(b, w, worker.(pc := Recording(o, status)), o, status);
  }

  function Refusal(s: State, w: WorkerId, accepted: bool): seq<Step> {
    HandsOver(w, |s.requests|, accepted) + [Answer(w, NonRetryable), MarkRejected(w, true)]
  }

  /** A refused placement leaves the row REJECTED for good and no handler. */
  lemma RefusalIsMarked(s: State, w: WorkerId, worker: Worker, o: OrderId, accepted: bool)
    requires worker.pc == AtGate(o) && worker.process !in s.halted && w !in s.workers
    requires o in s.rows && s.rows[o].status == Pending
    ensures var t, row := Run(With(s, w, worker), Refusal(s, w, accepted)), s.rows[o];
            t.rows == s.rows[o := row.(status := Rejected, history := row.history + {Rejected})] &&
            t.requests == s.requests + [Requested(worker, o, w, accepted)] && t.workers == s.workers &&
            t.locks == s.locks
  {
    var i := |s.requests|;
    RunJoins(With(s, w, worker), HandsOver(w, i, accepted), [Answer(w, NonRetryable), MarkRejected(w, true)]);
    HandedOver(s, w, worker, o, accepted);
    var b, calling := s.(requests := s.requests + [Requested(worker, o, w, accepted)]), worker.(pc := Calling(o, i));
    RunTwo(With(b, w, calling), Answer(w, NonRetryable), MarkRejected(w, true));
    Moves(b, w, calling, Refused(o));
    Ends(WriteRow(b, o, Rejected), w, calling.(pc := Refused(o)));
  }

  // ---- the other tasks ----

  /** A status that the broker reports reaches exactly the rows with a broker id, along the table. */
  lemma ReportsReachPlacedRows(s: State, o: OrderId, status: Status)
    requires o in s.rows && s.rows[o].status != status
    ensures Apply(s, Report(o, status)).rows[o].status == status <==>
            s.rows[o].hasBrokerId && BrokerStatus(status) && ValidTransition(s.rows[o].status, status)
  {
  }

  /** The kill-switch sweep leaves an order CANCELLED exactly when it was not FILLED or REJECTED before. */
  lemma SweepCancelsExactly(s: State, o: OrderId)
    requires o in s.rows && s.rows[o].status != Flattening
    ensures Apply(s, SweepPending(o)).rows[o].status == Cancelled <==> s.rows[o].status !in {Filled, Rejected}
    ensures s.rows[o].hasBrokerId ==> Apply(s, SweepPlaced(o)) == Apply(s, SweepPending(o))
    ensures !s.rows[o].hasBrokerId ==> Apply(s, SweepPlaced(o)) == s
  {
  }

  /** A paper order is reserved and its simulated fill recorded, without a request. */
  lemma PaperOrderCompletes(s: State, signal: SignalId, decision: DecisionId, newId: OrderId)
    requires signal !in s.locks && newId !in s.rows
    ensures Run(s, [PaperSubmit(signal, decision, newId), PaperRecord(newId, Filled)]) ==
            s.(rows := s.rows[newId := Row(signal, decision, Filled, {Pending, Filled}, true, true)],
               locks := s.locks[signal := newId])
  {
    RunTwo(s, PaperSubmit(signal, decision, newId), PaperRecord(newId, Filled));
    assert {Pending} + {Filled} == {Pending, Filled};
  }
}
