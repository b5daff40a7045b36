/**
 * The handler of one approved signal as the code runs it, from start to end, for a process
 * that handles one signal at a time. Every call is shown to be a run of the step machine, so
 * the machine's theorems hold of this code.
 */
module OrderHandler {
  import opened Wrappers
  import opened Orders
  import opened OrderProtocol
  import opened OrderProtocolInvariant
  import opened OrderSafety

  /** A broker search: it raises, or finds an order with some status, or finds none. */
  datatype Search = SearchRaises | Found(hit: Option<Status>)

  /**
   * What a call meets outside itself; `accepted` says what became of the place call.
   */
  datatype Course = Course(
    expired: bool, durable: Option<bool>, symbolApproved: bool, read: Option<Status>, newId: OrderId, search: Search,
    limiterRaises: bool, reply: Reply, accepted: bool, marked: bool, rescan: Search, recorded: bool)

  datatype Outcome = Returned(status: Status) | Duplicate | LostRace | Raised

  // ---- what a call does to the tables and at the broker ----

  datatype Books = Books(rows: map<OrderId, Row>, locks: map<SignalId, OrderId>, requests: seq<Request>)

  /** The order a handler is about, and who handles it. */
  datatype Task = Task(process: ProcessId, worker: WorkerId, signal: SignalId, decision: DecisionId)

  /** The broker's order list answers the search, and a hit is an order it has. */
  predicate Possible(requests: seq<Request>, orderId: OrderId, search: Search) {
    search.Found? && (search.hit.Some? ==> BrokerStatus(search.hit.value) && OnBroker(requests, orderId))
  }

  function Marked(rows: map<OrderId, Row>, orderId: OrderId, status: Status, written: bool): map<OrderId, Row> {
    if written && orderId in rows then rows[orderId := WriteStatus(rows[orderId], status)] else rows
  }

  function Handed(task: Task, orderId: OrderId, accepted: bool): Request {
    Request(BrokerKey(orderId), task.signal, task.decision, task.process, task.worker,
            if accepted then Accepted else Lost)
  }

  /** The place call and what follows from its answer; None stands for a raised exception. */
  function CallEffect(b: Books, task: Task, orderId: OrderId, c: Course): (Books, Option<Status>) {
    var after := b.(requests := b.requests + [Handed(task, orderId, c.accepted)]);
    match c.reply
    case Ack(status) => (after, if BrokerStatus(status) && c.accepted then Some(status) else None)
    case NonRetryable => (after.(rows := Marked(b.rows, orderId, Rejected, c.marked)), None)
    case Fault =>
      (after.(rows := Marked(b.rows, orderId, AckUnknown, c.marked)),
       if Possible(after.requests, orderId, c.rescan) then c.rescan.hit else None)
  }

  /** _place_order_with_broker_idempotency. */
  function PlaceEffect(b: Books, task: Task, orderId: OrderId, halted: bool, c: Course): (Books, Option<Status>) {
    if halted || !Possible(b.requests, orderId, c.search) then (b, None)
    else if c.search.hit.Some? then (b, c.search.hit)
    else if c.limiterRaises then (b, None)
    else CallEffect(b, task, orderId, c)
  }

  /** record_order, if there is something to record. */
  function RecordEffect(b: Books, orderId: OrderId, status: Option<Status>, written: bool): (Books, Outcome) {
    if status.Some? && written && orderId in b.rows && ValidTransition(b.rows[orderId].status, status.value)
    then (b.(rows := b.rows[orderId := WriteStatus(b.rows[orderId], status.value).(hasBrokerId := true)]),
          Returned(status.value))
    else (b, Raised)
  }

  /** Everything from the gate, or from the search of an ACK_UNKNOWN order, to the record. */
  function ConcludeEffect(b: Books, task: Task, orderId: OrderId, rescans: bool, halted: bool, c: Course)
    : (Books, Outcome)
  {
    if rescans then
      RecordEffect(b, orderId, if Possible(b.requests, orderId, c.search) then c.search.hit else None, c.recorded)
    else
      var placed := PlaceEffect(b, task, orderId, halted, c);
      RecordEffect(placed.0, orderId, placed.1, c.recorded)
  }

  /** The signal gets past every refusal at the head of the handler. */
  predicate Admits(decision: DecisionId, halted: bool, c: Course) {
    decision != "" && !c.expired && !halted && c.symbolApproved
  }

  /** An admitted signal, from the read of its row on. */
  function HandleEffect(b: Books, task: Task, c: Course): (Books, Outcome) {
    if c.read == None then
      if c.newId in b.rows || task.signal in b.locks then (b, LostRace)
      else
        var submitted := b.(
          rows := b.rows[c.newId := Row(task.signal, task.decision, Pending, {Pending}, false, false)],
          locks := b.locks[task.signal := c.newId]);
        ConcludeEffect(submitted, task, c.newId, false, false, c)
    else if task.signal in b.locks && c.read.value in {Pending, AckUnknown} then
      ConcludeEffect(b, task, b.locks[task.signal], c.read.value == AckUnknown, false, c)
    else (b, Duplicate)
  }

  /** execute_approved_signal. */
  function ExecuteEffect(b: Books, task: Task, halted: bool, c: Course): (Books, Outcome) {
    if Admits(task.decision, halted, c) then HandleEffect(b, task, c) else (b, Raised)
  }

  lemma ReturnedMeansRecorded(b: Books, task: Task, c: Course)
    ensures var (after, outcome) := HandleEffect(b, task, c);
            outcome.Returned? ==>
              task.signal in after.locks && after.locks[task.signal] in after.rows &&
              after.rows[after.locks[task.signal]].status == outcome.status &&
              after.rows[after.locks[task.signal]].hasBrokerId
  {
  }

  // ---- what the effect comes to ----

  /** The search misses and the place call is made. */
  predicate ReachesBroker(c: Course) {
    c.search == Found(None) && !c.limiterRaises
  }

  /** The order a course that is not refused works on: the reserved one, or the new one. */
  predicate WorksOn(b: Books, task: Task, c: Course, orderId: OrderId) {
    Admits(task.decision, false, c) &&
    if c.read == None then orderId == c.newId && c.newId !in b.rows && task.signal !in b.locks
    else
      c.read.value in {Pending, AckUnknown} && task.signal in b.locks && b.locks[task.signal] == orderId &&
      orderId in b.rows
  }

  /** The row as the handler finds it, or as it writes it first. */
  function Before(b: Books, task: Task, orderId: OrderId): Row {
    if orderId in b.rows then b.rows[orderId] else Row(task.signal, task.decision, Pending, {Pending}, false, false)
  }

  /** The tables when the order's row ends with this status, by its own write or by record_order. */
  function Ending(b: Books, task: Task, orderId: OrderId, status: Status, recorded: bool): map<OrderId, Row> {
    var row := Before(b, task, orderId);
    b.rows[orderId := row.(
      status := status, history := row.history + {status}, hasBrokerId := row.hasBrokerId || recorded)]
  }

  /** Duplicates and lost races, exactly. */
  lemma NothingToDoExactly(b: Books, task: Task, halted: bool, c: Course)
    requires c.read.Some? ==> task.signal in b.locks
    ensures var r := ExecuteEffect(b, task, halted, c);
            (r.1 == Duplicate <==>
               Admits(task.decision, halted, c) && c.read.Some? && c.read.value !in {Pending, AckUnknown}) &&
            (r.1 == LostRace <==>
               Admits(task.decision, halted, c) && c.read == None && (c.newId in b.rows || task.signal in b.locks)) &&
            (r.1 in {Duplicate, LostRace} ==> r.0 == b)
  {
  }

  /** Whether a call hands over a request, exactly: one at most, and none without a search that missed. */
  lemma HandsOverExactly(b: Books, task: Task, halted: bool, c: Course)
    requires c.read.Some? ==> task.signal in b.locks && b.locks[task.signal] in b.rows
    ensures var after := ExecuteEffect(b, task, halted, c).0;
            after.requests != b.requests <==>
            !halted && ReachesBroker(c) && c.read != Some(AckUnknown) && exists o :: WorksOn(b, task, c, o)
  {
    if WorksOn(b, task, c, c.newId) {
      assert exists o :: WorksOn(b, task, c, o);
    }
    if task.signal in b.locks && WorksOn(b, task, c, b.locks[task.signal]) {
      assert exists o :: WorksOn(b, task, c, o);
    }
  }

  /**
   * A first delivery, or a later one that reads PENDING, whose search misses and whose place
   * call is acknowledged: one accepted request, the row with the acknowledged status and a
   * broker id, and a normal return.
   */
  lemma AcknowledgedReturns(b: Books, task: Task, c: Course, orderId: OrderId, status: Status)
    requires WorksOn(b, task, c, orderId) && c.read != Some(AckUnknown) && ReachesBroker(c)
    requires c.accepted && c.reply == Ack(status) && BrokerStatus(status) && c.recorded
    requires Before(b, task, orderId).status == Pending
    ensures var (after, outcome) := ExecuteEffect(b, task, false, c);
            outcome == Returned(status) && after.rows == Ending(b, task, orderId, status, true) &&
            after.locks == b.locks[task.signal := orderId] &&
            after.requests == b.requests +
              [Request(BrokerKey(orderId), task.signal, task.decision, task.process, task.worker, Accepted)]
  {
  }

  /**
   * A row read as PENDING or ACK_UNKNOWN whose order the search finds: it is recorded and
   * returned, and nothing is handed over.
   */
  lemma FoundReturns(b: Books, task: Task, c: Course, orderId: OrderId, status: Status)
    requires WorksOn(b, task, c, orderId) && c.read.Some? && c.search == Found(Some(status)) && c.recorded
    requires OnBroker(b.requests, orderId) && BrokerStatus(status) && ValidTransition(b.rows[orderId].status, status)
    ensures ExecuteEffect(b, task, false, c) ==
            (b.(rows := Ending(b, task, orderId, status, true)), Returned(status))
  {
  }

  /** A refused place call raises and leaves the row REJECTED. */
  lemma RefusalRejects(b: Books, task: Task, c: Course, orderId: OrderId)
    requires WorksOn(b, task, c, orderId) && c.read != Some(AckUnknown) && ReachesBroker(c)
    requires c.reply == NonRetryable && c.marked && Before(b, task, orderId).status == Pending
    ensures var (after, outcome) := ExecuteEffect(b, task, false, c);
            outcome == Raised && after.rows == Ending(b, task, orderId, Rejected, false) &&
            |after.requests| == |b.requests| + 1
  {
  }

  /**
   * A place call that ends in a fault marks the row ACK_UNKNOWN. If the rescan finds the order
   * it is recorded and returned as usual; if not, the row stays ACK_UNKNOWN and the call raises.
   */
  lemma FaultIsMarkedAndRescanned(b: Books, task: Task, c: Course, orderId: OrderId)
    requires WorksOn(b, task, c, orderId) && c.read != Some(AckUnknown) && ReachesBroker(c)
    requires c.reply == Fault && c.marked && Before(b, task, orderId).status == Pending
    ensures var (after, outcome) := ExecuteEffect(b, task, false, c);
            |after.requests| == |b.requests| + 1 &&
            (c.rescan == Found(None) ==>
               outcome == Raised && after.rows == Ending(b, task, orderId, AckUnknown, false)) &&
            (c.accepted && c.recorded && c.rescan.Found? && c.rescan.hit.Some? && BrokerStatus(c.rescan.hit.value) &&
               c.rescan.hit.value != Pending ==>
               outcome == Returned(c.rescan.hit.value) && orderId in after.rows &&
               after.rows[orderId].status == c.rescan.hit.value && after.rows[orderId].hasBrokerId)
  {
    var request := Handed(task, orderId, c.accepted);
    assert (b.requests + [request])[|b.requests|] == request;
  }

  class Service {
    const process: ProcessId
    var rows: map<OrderId, Row>
    var locks: map<SignalId, OrderId>
    var requests: seq<Request>
    var spawned: nat
    var halted: bool
    /** The machine run so far, and whether every search in it saw what was outstanding. */
    ghost var trace: seq<Step>
    ghost var sees: bool

    /** The machine state with the handler at the given place, or with no handler. */
    ghost function Machine(worker: Option<Worker>): State
      reads this
      requires worker.Some? ==> spawned > 0
    {
      State(rows, locks, requests, if worker.Some? then map[spawned - 1 := worker.value] else map[], spawned,
            if halted then {process} else {})
    }

    ghost predicate Tracks(worker: Option<Worker>)
      reads this
    {
      (worker.Some? ==> spawned > 0 && worker.value.process == process) &&
      Run(EMPTY_STATE, trace) == Machine(worker) && Throughout(OneWorker, EMPTY_STATE, trace) &&
      (sees ==> Throughout(LookupSees, EMPTY_STATE, trace))
    }

    function Kept(): Books
      reads this
    {
      Books(rows, locks, requests)
    }

    /** The task of the handler that is live. */
    function TaskOf(signal: SignalId, decision: DecisionId): Task
      reads this
      requires spawned > 0
    {
      Task(process, spawned - 1, signal, decision)
    }

    constructor (process: ProcessId)
      ensures this.process == process && Tracks(None) && sees && requests == []
    {
      this.process := process;
      rows, locks, requests, spawned, halted := map[], map[], [], 0, false;
      trace, sees := [], true;
    }

    /** Books a step that leads the machine to where the fields now stand. */
    ghost method Book(step: Step, before: State, worker: Option<Worker>)
      requires Run(EMPTY_STATE, trace) == before && Throughout(OneWorker, EMPTY_STATE, trace)
      requires sees ==> Throughout(LookupSees, EMPTY_STATE, trace)
      requires worker.Some? ==> spawned > 0 && worker.value.process == process
      requires OneWorker(before, step) && Apply(before, step) == Machine(worker)
      modifies this`trace, this`sees
      ensures Tracks(worker) && trace == old(trace) + [step]
      ensures sees == (old(sees) && LookupSees(before, step))
    {
      Snoc(OneWorker, EMPTY_STATE, trace, step);
      if sees && LookupSees(before, step) {
        Snoc(LookupSees, EMPTY_STATE, trace, step);
      } else {
        sees := false;
      }
      trace := trace + [step];
    }

    ghost method Finish(worker: Worker)
      requires Tracks(Some(worker))
      modifies this`trace, this`sees
      ensures Tracks(None) && old(trace) <= trace && sees == old(sees)
    {
      var before := Machine(Some(worker));
      assert before.workers - {spawned - 1} == map[];
      Book(Stop(spawned - 1), before, None);
    }

    method Deliver(signal: SignalId, decision: DecisionId)
      requires Tracks(None) && decision != ""
      modifies this`spawned, this`trace, this`sees
      ensures Tracks(Some(Worker(process, signal, decision, Entered))) && spawned == old(spawned) + 1
      ensures old(trace) <= trace && sees == old(sees)
    {
      ghost var before := Machine(None);
      spawned := spawned + 1;
      ghost var worker := Worker(process, signal, decision, Entered);
      assert before.workers[before.spawned := worker] == map[spawned - 1 := worker];
      Book(Step.Deliver(process, signal, decision), before, Some(worker));
    }

    /** _refresh_durable_kill_switch_state and the refusal while halted. */
    method Enter(ghost worker: Worker, durable: Option<bool>) returns (go: bool)
      requires Tracks(Some(worker)) && worker.pc == Entered
      modifies this`halted, this`trace, this`sees
      ensures (go <==> !halted) && (halted <==> old(halted) || durable == Some(true))
      ensures Tracks(if go then Some(worker.(pc := Reading)) else None)
      ensures old(trace) <= trace && sees == old(sees)
    {
      ghost var before, w := Machine(Some(worker)), spawned - 1;
      if durable == Some(true) { halted := true; }
      go := !halted;
      ghost var after := if go then Some(worker.(pc := Reading)) else None;
      assert before.workers - {w} == map[] &&
          before.workers[w := worker.(pc := Reading)] == map[w := worker.(pc := Reading)];
      assert ReadDurable(before.halted, process, durable) == if halted then {process} else {};
      Book(Step.Enter(w, durable), before, after);
    }

    ghost predicate At(worker: Worker, pc: Pc)
      reads this
    {
      worker.pc == pc && Tracks(Some(worker))
    }

    lemma MovedWorkers(worker: Worker, pc: Pc)
      requires spawned > 0
      ensures Machine(Some(worker)).workers[spawned - 1 := worker.(pc := pc)] ==
          Machine(Some(worker.(pc := pc))).workers
      ensures Machine(Some(worker)).workers - {spawned - 1} == map[]
    {
    }

    /** get_order_by_signal and the three cases; None when the handler is done with a duplicate. */
    method ReadExisting(ghost worker: Worker, signal: SignalId, read: Option<Status>) returns (pc: Option<Pc>)
      requires At(worker, Reading) && worker.signal == signal && CanRead(Machine(Some(worker)), signal, read)
      modifies this`trace, this`sees
      ensures Tracks(if pc.Some? then Some(worker.(pc := pc.value)) else None)
      ensures old(trace) <= trace && sees == old(sees)
      ensures read == None ==> pc == Some(Submitting)
      ensures read.Some? ==> signal in locks && pc == match read.value
        case Pending => Some(AtGate(locks[signal]))
        case AckUnknown => Some(Rescanning(locks[signal]))
        case _ => None
    {
      pc := if read == None then Some(Submitting)
        else if read.value == Pending then Some(AtGate(locks[signal]))
        else if read.value == AckUnknown then Some(Rescanning(locks[signal])) else None;
      MovedWorkers(worker, if pc.Some? then pc.value else Reading);
      Book(Step.Read(spawned - 1, read), Machine(Some(worker)),
          if pc.Some? then Some(worker.(pc := pc.value)) else None);
    }

    /** submit_order: the order row and the reservation, or neither. */
    method SubmitOrder(ghost worker: Worker, signal: SignalId, decision: DecisionId, newId: OrderId) returns (won: bool)
      requires At(worker, Submitting) && worker.signal == signal && worker.decision == decision
      modifies this`rows, this`locks, this`trace, this`sees
      ensures won <==> newId !in old(rows) && signal !in old(locks)
      ensures Tracks(if won then Some(worker.(pc := AtGate(newId))) else None)
      ensures old(trace) <= trace && sees == old(sees)
      ensures won ==> locks == old(locks)[signal := newId]
      ensures won ==> rows == old(rows)[newId := Row(signal, decision, Pending, {Pending}, false, false)]
      ensures !won ==> rows == old(rows) && locks == old(locks)
    {
      ghost var before := Machine(Some(worker));
      MovedWorkers(worker, AtGate(newId));
      won := newId !in rows && signal !in locks;
      if won {
        rows := rows[newId := Row(signal, decision, Pending, {Pending}, false, false)];
        locks := locks[signal := newId];
      }
      Book(Step.Submit(spawned - 1, newId), before, if won then Some(worker.(pc := AtGate(newId))) else None);
    }

    /** The gate at the head of _place_order_with_broker_idempotency. */
    method PassGate(ghost worker: Worker, ghost orderId: OrderId) returns (open: bool)
      requires At(worker, AtGate(orderId))
      modifies this`trace, this`sees
      ensures open <==> !halted
      ensures Tracks(if open then Some(worker.(pc := LookingUp(orderId))) else None)
      ensures old(trace) <= trace && sees == old(sees)
    {
      MovedWorkers(worker, LookingUp(orderId));
      open := !halted;
      Book(Step.Gate(spawned - 1), Machine(Some(worker)),
          if open then Some(worker.(pc := LookingUp(orderId))) else None);
    }

    /** find_order_by_client_order_id before the place call. */
    method SearchFirst(ghost worker: Worker, orderId: OrderId, search: Search) returns (pc: Option<Pc>)
      requires At(worker, LookingUp(orderId))
      modifies this`trace, this`sees
      ensures Tracks(if pc.Some? then Some(worker.(pc := pc.value)) else None)
      ensures old(trace) <= trace
      ensures sees == (old(sees) && !(pc == Some(Waiting(orderId)) && Outstanding(requests, orderId)))
      ensures pc == if !Possible(requests, orderId, search) then None
        else if search.hit.Some? then Some(Recording(orderId, search.hit.value)) else Some(Waiting(orderId))
    {
      if !Possible(requests, orderId, search) {
        Finish(worker);
        return None;
      }
      pc := Some(if search.hit.Some? then Recording(orderId, search.hit.value) else Waiting(orderId));
      MovedWorkers(worker, pc.value);
      Book(Step.Lookup(spawned - 1, search.hit), Machine(Some(worker)), Some(worker.(pc := pc.value)));
    }

    /** The request leaves for the broker. */
    method Send(ghost worker: Worker, orderId: OrderId, signal: SignalId, decision: DecisionId)
      requires At(worker, Waiting(orderId)) && worker.signal == signal && worker.decision == decision
      modifies this`requests, this`trace, this`sees
      ensures requests == old(requests) +
        [Request(BrokerKey(orderId), signal, decision, process, spawned - 1, InFlight)]
      ensures Tracks(Some(worker.(pc := Calling(orderId, |old(requests)|))))
      ensures old(trace) <= trace && sees == old(sees)
    {
      ghost var before, after := Machine(Some(worker)), worker.(pc := Calling(orderId, |requests|));
      MovedWorkers(worker, after.pc);
      requests := requests + [Request(BrokerKey(orderId), signal, decision, process, spawned - 1, InFlight)];
      Book(Step.Place(spawned - 1), before, Some(after));
    }

    /** The request leaves; the broker accepts it or it is lost. */
    method HandOver(ghost worker: Worker, orderId: OrderId, signal: SignalId, decision: DecisionId, accepted: bool)
      requires At(worker, Waiting(orderId)) && worker.signal == signal && worker.decision == decision
      modifies this`requests, this`trace, this`sees
      ensures requests == old(requests) + [Handed(TaskOf(signal, decision), orderId, accepted)]
      ensures Tracks(Some(worker.(pc := Calling(orderId, |old(requests)|))))
      ensures old(trace) <= trace && sees == old(sees)
    {
      ghost var i, after := |requests|, worker.(pc := Calling(orderId, |requests|));
      Send(worker, orderId, signal, decision);
      ghost var before := Machine(Some(after));
      var request := requests[|requests| - 1].(fate := if accepted then Accepted else Lost);
      requests := requests[..|requests| - 1] + [request];
      assert requests == before.requests[i := request];
      Book(Step.Resolve(i, accepted), before, Some(after));
    }

    /** The answer to the place call; an acknowledgement of a lost request does not come. */
    method TakeReply(ghost worker: Worker, orderId: OrderId, reply: Reply) returns (pc: Option<Pc>)
      requires requests != [] && At(worker, Calling(orderId, |requests| - 1))
      modifies this`trace, this`sees
      ensures Tracks(if pc.Some? then Some(worker.(pc := pc.value)) else None)
      ensures old(trace) <= trace && sees == old(sees)
      ensures pc == match reply
        case NonRetryable => Some(Refused(orderId))
        case Fault => Some(Doubtful(orderId))
        case Ack(status) =>
          if BrokerStatus(status) && requests[|requests| - 1].fate == Accepted
          then Some(Recording(orderId, status)) else None
    {
      match reply {
        case NonRetryable => pc := Some(Refused(orderId));
        case Fault => pc := Some(Doubtful(orderId));
        case Ack(status) =>
          if !(BrokerStatus(status) && requests[|requests| - 1].fate == Accepted) {
            Finish(worker);
            return None;
          }
          pc := Some(Recording(orderId, status));
      }
      MovedWorkers(worker, pc.value);
      Book(Step.Answer(spawned - 1, reply), Machine(Some(worker)), Some(worker.(pc := pc.value)));
    }

    /** update_order_status and mark_order_ack_unknown: an illegal move leaves the row alone. */
    method WriteOrderStatus(orderId: OrderId, status: Status, written: bool)
      modifies this`rows
      ensures rows == Marked(old(rows), orderId, status, written)
    {
      if written && orderId in rows {
        var row := rows[orderId];
        if ValidTransition(row.status, status) {
          rows := rows[orderId := row.(status := status, history := row.history + {status})];
        } else {
          assert rows[orderId := row] == rows;
        }
      }
    }

    method RejectOrder(ghost worker: Worker, orderId: OrderId, written: bool)
      requires At(worker, Refused(orderId))
      modifies this`rows, this`trace, this`sees
      ensures Tracks(None) && old(trace) <= trace && sees == old(sees)
      ensures rows == Marked(old(rows), orderId, Rejected, written)
    {
      ghost var before := Machine(Some(worker));
      MovedWorkers(worker, worker.pc);
      WriteOrderStatus(orderId, Rejected, written);
      Book(Step.MarkRejected(spawned - 1, written), before, None);
    }

    method MarkAckUnknown(ghost worker: Worker, orderId: OrderId, written: bool)
      requires At(worker, Doubtful(orderId))
      modifies this`rows, this`trace, this`sees
      ensures Tracks(Some(worker.(pc := Rescanning(orderId)))) && old(trace) <= trace && sees == old(sees)
      ensures rows == Marked(old(rows), orderId, AckUnknown, written)
    {
      ghost var before := Machine(Some(worker));
      MovedWorkers(worker, Rescanning(orderId));
      WriteOrderStatus(orderId, AckUnknown, written);
      Book(Step.MarkUnknown(spawned - 1, written), before, Some(worker.(pc := Rescanning(orderId))));
    }

    /** _recover_ack_unknown_order: it searches and never places. */
    method RecoverAckUnknown(ghost worker: Worker, orderId: OrderId, search: Search) returns (status: Option<Status>)
      requires At(worker, Rescanning(orderId))
      modifies this`trace, this`sees
      ensures Tracks(if status.Some? then Some(worker.(pc := Recording(orderId, status.value))) else None)
      ensures old(trace) <= trace && sees == old(sees)
      ensures status == if Possible(requests, orderId, search) then search.hit else None
    {
      if !Possible(requests, orderId, search) {
        Finish(worker);
        return None;
      }
      status := search.hit;
      MovedWorkers(worker, if status.Some? then Recording(orderId, status.value) else worker.pc);
      Book(Step.Rescan(spawned - 1, search.hit), Machine(Some(worker)),
           if status.Some? then Some(worker.(pc := Recording(orderId, status.value))) else None);
    }

    /** The write of record_order: status and broker id together, or neither. */
    method WriteBrokerOrder(orderId: OrderId, status: Status, written: bool) returns (ok: bool)
      modifies this`rows
      ensures ok <==> written && orderId in old(rows) && ValidTransition(old(rows)[orderId].status, status)
      ensures rows == if ok
        then old(rows)[orderId := WriteStatus(old(rows)[orderId], status).(hasBrokerId := true)] else old(rows)
    {
      ok := false;
      if written && orderId in rows {
        var row := rows[orderId];
        if ValidTransition(row.status, status) {
          rows := rows[orderId :=
            row.(status := status, history := row.history + {status}, hasBrokerId := true)];
          ok := true;
        }
      }
    }

    /** record_order; false when it raises. */
    method RecordOrder(ghost worker: Worker, orderId: OrderId, status: Status, written: bool) returns (ok: bool)
      requires At(worker, Recording(orderId, status))
      modifies this`rows, this`trace, this`sees
      ensures Tracks(None) && old(trace) <= trace && sees == old(sees)
      ensures ok <==> written && orderId in old(rows) && ValidTransition(old(rows)[orderId].status, status)
      ensures ok ==> orderId in rows && rows[orderId].status == status && rows[orderId].hasBrokerId
      ensures (Kept(), if ok then Returned(status) else Raised) ==
          RecordEffect(old(Kept()), orderId, Some(status), written)
    {
      ghost var before := Machine(Some(worker));
      MovedWorkers(worker, worker.pc);
      ok := WriteBrokerOrder(orderId, status, written);
      Book(Step.Record(spawned - 1, written), before, None);
    }

    /** At most one request more, for the given order. */
    twostate predicate PlacesAtMostOnce(orderId: OrderId, signal: SignalId, decision: DecisionId)
      reads this
    {
      requests == old(requests) ||
      (|requests| == |old(requests)| + 1 && old(requests) <= requests &&
       requests[|old(requests)|].key == BrokerKey(orderId) &&
       requests[|old(requests)|].signal == signal && requests[|old(requests)|].decision == decision)
    }

    /** The place call and what follows from its answer. */
    method CallBroker(ghost worker: Worker, orderId: OrderId, signal: SignalId, decision: DecisionId, c: Course)
      returns (status: Option<Status>)
      requires At(worker, Waiting(orderId)) && worker.signal == signal && worker.decision == decision
      modifies this`rows, this`requests, this`trace, this`sees
      ensures Tracks(if status.Some? then Some(worker.(pc := Recording(orderId, status.value))) else None)
      ensures old(trace) <= trace && sees == old(sees)
      ensures (Kept(), status) == CallEffect(old(Kept()), TaskOf(signal, decision), orderId, c)
    {
      HandOver(worker, orderId, signal, decision, c.accepted);
      ghost var at := worker.(pc := Calling(orderId, |requests| - 1));
      var answered := TakeReply(at, orderId, c.reply);
      if answered == None { return None; }
      at := at.(pc := answered.value);
      if answered.value.Recording? {
        status := Some(answered.value.seen);
      } else if answered.value.Refused? {
        RejectOrder(at, orderId, c.marked);
        status := None;
      } else {
        MarkAckUnknown(at, orderId, c.marked);
        status := RecoverAckUnknown(at.(pc := Rescanning(orderId)), orderId, c.rescan);
      }
    }

    /** _place_order_with_broker_idempotency; None when it raises. */
    method PlaceWithIdempotency(ghost worker: Worker, orderId: OrderId, signal: SignalId, decision: DecisionId,
        c: Course)
      returns (status: Option<Status>)
      requires At(worker, AtGate(orderId)) && worker.signal == signal && worker.decision == decision
      modifies this`rows, this`requests, this`trace, this`sees
      ensures Tracks(if status.Some? then Some(worker.(pc := Recording(orderId, status.value))) else None)
      ensures old(trace) <= trace && (sees ==> old(sees))
      ensures old(sees) && !sees ==> Outstanding(old(requests), orderId)
      ensures PlacesAtMostOnce(orderId, signal, decision)
      ensures halted ==> status == None && requests == old(requests)
      ensures (Kept(), status) == PlaceEffect(old(Kept()), TaskOf(signal, decision), orderId, halted, c)
    {
      ghost var at := worker;
      var open := PassGate(at, orderId);
      if !open { return None; }
      at := at.(pc := LookingUp(orderId));
      var found := SearchFirst(at, orderId, c.search);
      if found == None { return None; }
      at := at.(pc := found.value);
      if found.value.Recording? { return Some(found.value.seen); }
      if c.limiterRaises {
        Finish(at);
        return None;
      }
      status := CallBroker(at, orderId, signal, decision, c);
    }

    /** Everything before the row is read; false when the signal is refused. */
    method Admit(signal: SignalId, decision: DecisionId, c: Course) returns (go: bool)
      requires Tracks(None)
      modifies this`spawned, this`halted, this`trace, this`sees
      ensures Tracks(if go then Some(Worker(process, signal, decision, Reading)) else None)
      ensures old(trace) <= trace && sees == old(sees) && (old(halted) ==> halted)
      ensures go <==> Admits(decision, old(halted) || c.durable == Some(true), c)
      ensures go ==> !halted && spawned == old(spawned) + 1
      ensures decision != "" && !c.expired ==> (halted <==> old(halted) || c.durable == Some(true))
    {
      if decision == "" || c.expired { return false; }
      Deliver(signal, decision);
      ghost var worker := Worker(process, signal, decision, Entered);
      go := Enter(worker, c.durable);
      if go && !c.symbolApproved {
        Finish(worker.(pc := Reading));
        go := false;
      }
    }

    /** Search or placement, and the record of what it yields. */
    method Conclude(ghost worker: Worker, orderId: OrderId, signal: SignalId, decision: DecisionId, rescans: bool,
        c: Course)
      returns (outcome: Outcome)
      requires At(worker, if rescans then Rescanning(orderId) else AtGate(orderId))
      requires worker.signal == signal && worker.decision == decision
      modifies this`rows, this`requests, this`trace, this`sees
      ensures Tracks(None) && old(trace) <= trace && (sees ==> old(sees))
      ensures PlacesAtMostOnce(orderId, signal, decision) && (rescans ==> requests == old(requests))
      ensures (Kept(), outcome) == ConcludeEffect(old(Kept()), TaskOf(signal, decision), orderId, rescans, halted, c)
    {
      var status;
      if rescans {
        status := RecoverAckUnknown(worker, orderId, c.search);
      } else {
        status := PlaceWithIdempotency(worker, orderId, signal, decision, c);
      }
      if status == None { return Raised; }
      var ok := RecordOrder(worker.(pc := Recording(orderId, status.value)), orderId, status.value, c.recorded);
      outcome := if ok then Returned(status.value) else Raised;
    }

    /** The row of the signal, read or written; `stop` when the handler is done with it. */
    method FindOrder(ghost worker: Worker, signal: SignalId, decision: DecisionId, c: Course)
      returns (stop: Option<Outcome>, rescans: bool, orderId: OrderId)
      requires At(worker, Reading) && worker.signal == signal && worker.decision == decision
      requires CanRead(Machine(Some(worker)), signal, c.read)
      modifies this`rows, this`locks, this`trace, this`sees
      ensures Tracks(if stop.Some? then None
                     else Some(worker.(pc := if rescans then Rescanning(orderId) else AtGate(orderId))))
      ensures old(trace) <= trace && sees == old(sees)
      ensures stop == match c.read
        case None => if c.newId in old(rows) || signal in old(locks) then Some(LostRace) else None
        case Some(status) => if status in {Pending, AckUnknown} then None else Some(Duplicate)
      ensures stop == None ==> signal in locks && orderId == locks[signal] && (rescans <==> c.read == Some(AckUnknown))
      ensures c.read == None && stop == None ==>
        rows == old(rows)[c.newId := Row(signal, decision, Pending, {Pending}, false, false)] &&
        locks == old(locks)[signal := c.newId]
      ensures c.read.Some? || stop.Some? ==> rows == old(rows) && locks == old(locks)
    {
      rescans, orderId := false, c.newId;
      var pc := ReadExisting(worker, signal, c.read);
      if pc == None { return Some(Duplicate), false, orderId; }
      if pc.value.Submitting? {
        var won := SubmitOrder(worker.(pc := pc.value), signal, decision, c.newId);
        return if won then None else Some(LostRace), false, orderId;
      }
      return None, pc.value.Rescanning?, locks[signal];
    }

    /** What happens under the signal's lock. */
    method HandleAdmitted(ghost worker: Worker, signal: SignalId, decision: DecisionId, c: Course)
      returns (outcome: Outcome)
      requires At(worker, Reading) && worker.signal == signal && worker.decision == decision && !halted
      requires CanRead(Machine(Some(worker)), signal, c.read)
      modifies this`rows, this`locks, this`requests, this`trace, this`sees
      ensures Tracks(None) && old(trace) <= trace && (sees ==> old(sees))
      ensures requests == old(requests) ||
              (signal in locks && PlacesAtMostOnce(locks[signal], signal, decision))
      ensures c.read.Some? && c.read.value != Pending ==> requests == old(requests)
      ensures (Kept(), outcome) == HandleEffect(old(Kept()), TaskOf(signal, decision), c)
      ensures outcome.Returned? ==>
                signal in locks && locks[signal] in rows &&
                rows[locks[signal]].status == outcome.status && rows[locks[signal]].hasBrokerId
    {
      ReturnedMeansRecorded(Kept(), TaskOf(signal, decision), c);
      var stop, rescans, orderId := FindOrder(worker, signal, decision, c);
      if stop.Some? { return stop.value; }
      outcome := Conclude(worker.(pc := if rescans then Rescanning(orderId) else AtGate(orderId)), orderId, signal,
        decision, rescans, c);
    }

    /**
     * execute_approved_signal. Whatever it meets, it is a run of the step machine with one
     * live handler, with the stated effect; it hands over at most one order, under the reserved
     * order id, and none while halted, without a decision id, or when the row it read was not
     * PENDING.
     */
    method ExecuteApprovedSignal(signal: SignalId, decision: DecisionId, c: Course) returns (outcome: Outcome)
      requires Tracks(None) && CanRead(Machine(None), signal, c.read)
      modifies this
      ensures Tracks(None) && old(trace) <= trace && (sees ==> old(sees))
      ensures requests == old(requests) ||
              (signal in locks && PlacesAtMostOnce(locks[signal], signal, decision))
      ensures halted || decision == "" || c.expired || !c.symbolApproved ==>
          requests == old(requests) && outcome == Raised
      ensures c.read.Some? && c.read.value != Pending ==> requests == old(requests)
      ensures outcome.Returned? ==>
                signal in locks && locks[signal] in rows &&
                rows[locks[signal]].status == outcome.status && rows[locks[signal]].hasBrokerId
      ensures old(halted) ==> halted
      ensures (Kept(), outcome) == ExecuteEffect(old(Kept()), Task(process, old(spawned), signal, decision),
          old(halted) || c.durable == Some(true), c)
    {
      var go := Admit(signal, decision, c);
      if !go { return Raised; }
      ghost var worker := Worker(process, signal, decision, Reading);
      outcome := HandleAdmitted(worker, signal, decision, c);
    }

    method Activate()
      requires Tracks(None)
      modifies this`halted, this`trace, this`sees
      ensures Tracks(None) && halted && old(trace) <= trace && sees == old(sees)
    {
      ghost var before := Machine(None);
      halted := true;
      assert before.halted + {process} == {process};
      Book(Step.Activate(process), before, None);
    }

    method Clear()
      requires Tracks(None)
      modifies this`halted, this`trace, this`sees
      ensures Tracks(None) && !halted && old(trace) <= trace && sees == old(sees)
    {
      ghost var before := Machine(None);
      halted := false;
      assert before.halted - {process} == {};
      Book(Step.Clear(process), before, None);
    }

    /** A crash between calls: only the durable kill switch is read back. */
    method Restart(durable: Option<bool>)
      requires Tracks(None)
      modifies this`halted, this`trace, this`sees
      ensures Tracks(None) && halted == (durable == Some(true)) && old(trace) <= trace && sees == old(sees)
    {
      ghost var before := Machine(None);
      halted := durable == Some(true);
      assert before.workers == map[];
      assert before.halted - {process} == {};
      Book(Step.Restart(process, durable), before, None);
    }

    /**
     * After any sequence of calls in which every search saw what was outstanding, no two
     * orders accepted by the broker belong to one signal.
     */
    lemma NoSignalTwiceAtBroker(i: nat, j: nat)
      requires Tracks(None) && sees && i < |requests| && j < |requests|
      requires requests[i].fate == Accepted && requests[j].fate == Accepted && requests[i].signal == requests[j].signal
      ensures i == j
    {
      assert Run(EMPTY_STATE, trace).requests == requests;
      AtMostOneEntryOrder(trace, i, j);
    }
  }
}
