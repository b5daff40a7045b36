/**
 * The entry-order protocol of the execution service as a step machine.
 *
 * Every `await` of the handler is a step boundary; any number of handlers in any number of
 * processes interleave; a handler may stop at any boundary (exception, expiry, universe
 * rejection, crash). Rows are read through an eventually consistent index, so a read may
 * fail or return an earlier status. A request sent to the broker stays in flight until the
 * broker accepts it or it is lost, whatever the caller saw meanwhile.
 */
module OrderProtocol {
  import opened Wrappers
  import opened Orders

  type SignalId = string
  type OrderId = string
  type DecisionId = string
  type WorkerId = nat
  type ProcessId = nat

  /** The broker's client key; the hash of the order id is taken to be injective. */
  datatype BrokerKey = BrokerKey(orderId: OrderId)

  /**
   * An ORDER# row. `history` holds every status the row has had (what a stale read may
   * return); `hasBrokerId` says that a broker order id was recorded on it.
   */
  datatype Row = Row(
    signal: SignalId, decision: DecisionId, status: Status, history: set<Status>,
    hasBrokerId: bool, paper: bool)

  datatype Fate = InFlight | Accepted | Lost

  /** One place call handed to the broker, with the handler that made it. */
  datatype Request = Request(
    key: BrokerKey, signal: SignalId, decision: DecisionId,
    process: ProcessId, worker: WorkerId, fate: Fate)

  /** Where a handler stands; the order id is the one its OrderRequest carries. */
  datatype Pc =
    | Entered                                 // head of execute_approved_signal
    | Reading                                 // about to query the signal index
    | Submitting                              // about to write the order row and reservation
    | AtGate(orderId: OrderId)                // kill-switch gate of the placement wrapper
    | LookingUp(orderId: OrderId)             // about to search the broker by key
    | Waiting(orderId: OrderId)               // at the rate limiter
    | Calling(orderId: OrderId, request: nat) // place call handed over, no answer yet
    | Doubtful(orderId: OrderId)              // about to mark the row ACK_UNKNOWN
    | Refused(orderId: OrderId)               // about to mark the row REJECTED
    | Rescanning(orderId: OrderId)            // about to search again without placing
    | Recording(orderId: OrderId, seen: Status)

  datatype Worker = Worker(process: ProcessId, signal: SignalId, decision: DecisionId, pc: Pc)

  datatype State = State(
    rows: map<OrderId, Row>,
    locks: map<SignalId, OrderId>,
    requests: seq<Request>,
    workers: map<WorkerId, Worker>,
    spawned: nat,
    halted: set<ProcessId>)

  const EMPTY_STATE := State(map[], map[], [], map[], 0, {})

  datatype Reply = Ack(status: Status) | NonRetryable | Fault

  datatype Step =
    // handler steps
    | Deliver(process: ProcessId, signal: SignalId, decision: DecisionId)
    | Reconcile(process: ProcessId, orderId: OrderId, listed: Status)
    | Enter(w: WorkerId, durable: Option<bool>)
    | Read(w: WorkerId, row: Option<Status>)
    | Submit(w: WorkerId, newId: OrderId)
    | Gate(w: WorkerId)
    | Lookup(w: WorkerId, hit: Option<Status>)
    | Place(w: WorkerId)
    | Answer(w: WorkerId, reply: Reply)
    | MarkUnknown(w: WorkerId, written: bool)
    | MarkRejected(w: WorkerId, written: bool)
    | Rescan(w: WorkerId, hit: Option<Status>)
    | Record(w: WorkerId, written: bool)
    | Stop(w: WorkerId)
    // broker, other tasks of the service, kill switch
    | Resolve(request: nat, accepted: bool)
    | Report(orderId: OrderId, status: Status)
    | PaperSubmit(signal: SignalId, decision: DecisionId, newId: OrderId)
    | PaperRecord(orderId: OrderId, status: Status)
    | SweepPending(orderId: OrderId)
    | SweepPlaced(orderId: OrderId)
    | PollDurable(process: ProcessId, durable: Option<bool>)
    | Activate(process: ProcessId)
    | Clear(process: ProcessId)
    | Restart(process: ProcessId, durable: Option<bool>)

  function MoveTo(s: State, w: WorkerId, pc: Pc): State
    requires w in s.workers
  {
    s.(workers := s.workers[w := s.workers[w].(pc := pc)])
  }

  function End(s: State, w: WorkerId): State {
    s.(workers := s.workers - {w})
  }

  function Spawn(s: State, worker: Worker): State {
    s.(workers := s.workers[s.spawned := worker], spawned := s.spawned + 1)
  }

  /** OrderManager._transition_order_status: an illegal move leaves the row alone. */
  function WriteStatus(row: Row, status: Status): Row {
    if ValidTransition(row.status, status)
    then row.(status := status, history := row.history + {status})
    else row
  }

  function WriteRow(s: State, orderId: OrderId, status: Status): State
    requires orderId in s.rows
  {
    s.(rows := s.rows[orderId := WriteStatus(s.rows[orderId], status)])
  }

  /** record_order: status and broker id are written together, or not at all. */
  function RecordRow(s: State, orderId: OrderId, status: Status): State
    requires orderId in s.rows
  {
    var row := s.rows[orderId];
    if ValidTransition(row.status, status)
    then s.(rows := s.rows[orderId := WriteStatus(row, status).(hasBrokerId := true)])
    else s
  }

  /** submit_order: both items are written, or neither when either key exists. */
  predicate CanSubmit(s: State, signal: SignalId, newId: OrderId) {
    newId !in s.rows && signal !in s.locks
  }

  function SubmitRow(s: State, signal: SignalId, decision: DecisionId, newId: OrderId, paper: bool): State {
    s.(rows := s.rows[newId := Row(signal, decision, Pending, {Pending}, false, paper)],
       locks := s.locks[signal := newId])
  }

  function ReadDurable(halted: set<ProcessId>, process: ProcessId, durable: Option<bool>): set<ProcessId> {
    if durable == Some(true) then halted + {process} else halted
  }

  /** What a broker search by key can find: an order the broker accepted. */
  predicate OnBroker(requests: seq<Request>, orderId: OrderId) {
    exists i :: 0 <= i < |requests| && requests[i].key == BrokerKey(orderId) && requests[i].fate == Accepted
  }

  /** A status a broker answer or search can carry. */
  predicate BrokerStatus(status: Status) {
    status !in {AckUnknown, Flattening}
  }

  // ---- handler steps; a step that is not enabled leaves the state alone ----

  /** A SIGNAL_APPROVED message reaches a handler; a missing decision id is refused at once. */
  function ApplyDeliver(s: State, process: ProcessId, signal: SignalId, decision: DecisionId): State {
    if decision == "" then s else Spawn(s, Worker(process, signal, decision, Entered))
  }

  /** One row of startup reconciliation, acting on the status it was listed with. */
  function ApplyReconcile(s: State, process: ProcessId, orderId: OrderId, listed: Status): State {
    if orderId !in s.rows || listed !in s.rows[orderId].history then s
    else
      var row := s.rows[orderId];
      match listed
      case AckUnknown => Spawn(s, Worker(process, row.signal, row.decision, Rescanning(orderId)))
      case Pending =>
        if row.signal == "" || row.decision == "" then WriteRow(s, orderId, Rejected)
        else Spawn(s, Worker(process, row.signal, row.decision, Entered))
      case _ => s
  }

  /** Durable kill-switch refresh, then the refusal at the head of execute_approved_signal. */
  function ApplyEnter(s: State, w: WorkerId, durable: Option<bool>): State {
    if !(w in s.workers && s.workers[w].pc == Entered) then s
    else
      var process := s.workers[w].process;
      var s := s.(halted := ReadDurable(s.halted, process, durable));
      if process in s.halted then End(s, w) else MoveTo(s, w, Reading)
  }

  /** get_order_by_signal: nothing (also on a failed query), or the row with some past status. */
  predicate CanRead(s: State, signal: SignalId, row: Option<Status>) {
    row.Some? ==>
      signal in s.locks && s.locks[signal] in s.rows && row.value in s.rows[s.locks[signal]].history
  }

  function ApplyRead(s: State, w: WorkerId, row: Option<Status>): State {
    if !(w in s.workers && s.workers[w].pc == Reading && CanRead(s, s.workers[w].signal, row)) then s
    else if row == None then MoveTo(s, w, Submitting)
    else
      var orderId := s.locks[s.workers[w].signal];
      match row.value
      case Pending => MoveTo(s, w, AtGate(orderId))
      case AckUnknown => MoveTo(s, w, Rescanning(orderId))
      case _ => End(s, w)
  }

  /** The transactional write; a lost race returns the winner's row and places nothing. */
  function ApplySubmit(s: State, w: WorkerId, newId: OrderId): State {
    if !(w in s.workers && s.workers[w].pc == Submitting) then s
    else if CanSubmit(s, s.workers[w].signal, newId) then
      MoveTo(SubmitRow(s, s.workers[w].signal, s.workers[w].decision, newId, false), w, AtGate(newId))
    else End(s, w)
  }

  function ApplyGate(s: State, w: WorkerId): State {
    if !(w in s.workers && s.workers[w].pc.AtGate?) then s
    else if s.workers[w].process in s.halted then End(s, w)
    else MoveTo(s, w, LookingUp(s.workers[w].pc.orderId))
  }

  predicate CanHit(s: State, orderId: OrderId, hit: Option<Status>) {
    hit.Some? ==> BrokerStatus(hit.value) && OnBroker(s.requests, orderId)
  }

  function ApplyLookup(s: State, w: WorkerId, hit: Option<Status>): State {
    if !(w in s.workers && s.workers[w].pc.LookingUp? && CanHit(s, s.workers[w].pc.orderId, hit)) then s
    else
      var orderId := s.workers[w].pc.orderId;
      match hit
      case Some(status) => MoveTo(s, w, Recording(orderId, status))
      case None => MoveTo(s, w, Waiting(orderId))
  }

  /** The rate limiter let the handler through: the request is handed to the broker. */
  function ApplyPlace(s: State, w: WorkerId): State {
    if !(w in s.workers && s.workers[w].pc.Waiting?) then s
    else
      var worker := s.workers[w];
      var request := Request(
        BrokerKey(worker.pc.orderId), worker.signal, worker.decision, worker.process, w, InFlight);
      MoveTo(s.(requests := s.requests + [request]), w, Calling(worker.pc.orderId, |s.requests|))
  }

  /** An acknowledgement needs an accepted order; a refusal or a fault may come at any time. */
  function ApplyAnswer(s: State, w: WorkerId, reply: Reply): State {
    if !(w in s.workers && s.workers[w].pc.Calling?) then s
    else
      var Calling(orderId, request) := s.workers[w].pc;
      match reply
      case Ack(status) =>
        if request < |s.requests| && s.requests[request].fate == Accepted && BrokerStatus(status)
        then MoveTo(s, w, Recording(orderId, status)) else s
      case NonRetryable => MoveTo(s, w, Refused(orderId))
      case Fault => MoveTo(s, w, Doubtful(orderId))
  }

  /** The result of mark_order_ack_unknown is ignored: the handler goes on either way. */
  function ApplyMarkUnknown(s: State, w: WorkerId, written: bool): State {
    if !(w in s.workers && s.workers[w].pc.Doubtful?) then s
    else
      var orderId := s.workers[w].pc.orderId;
      var s := if written && orderId in s.rows then WriteRow(s, orderId, AckUnknown) else s;
      MoveTo(s, w, Rescanning(orderId))
  }

  function ApplyMarkRejected(s: State, w: WorkerId, written: bool): State {
    if !(w in s.workers && s.workers[w].pc.Refused?) then s
    else
      var orderId := s.workers[w].pc.orderId;
      End(if written && orderId in s.rows then WriteRow(s, orderId, Rejected) else s, w)
  }

  /** _recover_ack_unknown_order: search only; no hit ends the handler with an error. */
  function ApplyRescan(s: State, w: WorkerId, hit: Option<Status>): State {
    if !(w in s.workers && s.workers[w].pc.Rescanning? && CanHit(s, s.workers[w].pc.orderId, hit)) then s
    else match hit
      case Some(status) => MoveTo(s, w, Recording(s.workers[w].pc.orderId, status))
      case None => End(s, w)
  }

  function ApplyRecord(s: State, w: WorkerId, written: bool): State {
    if !(w in s.workers && s.workers[w].pc.Recording?) then s
    else
      var Recording(orderId, status) := s.workers[w].pc;
      End(if written && orderId in s.rows then RecordRow(s, orderId, status) else s, w)
  }

  // ---- broker, other tasks, kill switch ----

  function ApplyResolve(s: State, i: nat, accepted: bool): State {
    if i < |s.requests| && s.requests[i].fate == InFlight then
      s.(requests := s.requests[i := s.requests[i].(fate := if accepted then Accepted else Lost)])
    else s
  }

  /** Fill polling and pass 2 of reconciliation: a status the broker reports for a placed order. */
  function ApplyReport(s: State, orderId: OrderId, status: Status): State {
    if orderId in s.rows && s.rows[orderId].hasBrokerId && BrokerStatus(status)
    then WriteRow(s, orderId, status) else s
  }

  function ApplyPaperSubmit(s: State, signal: SignalId, decision: DecisionId, newId: OrderId): State {
    if CanSubmit(s, signal, newId) then SubmitRow(s, signal, decision, newId, true) else s
  }

  function ApplyPaperRecord(s: State, orderId: OrderId, status: Status): State {
    if orderId in s.rows && s.rows[orderId].paper && status in {Filled, PartiallyFilled, Rejected}
    then RecordRow(s, orderId, status) else s
  }

  /** Kill-switch sweep of a row that was listed PENDING without a broker id. */
  function ApplySweepPending(s: State, orderId: OrderId): State {
    if orderId in s.rows then WriteRow(s, orderId, Cancelled) else s
  }

  function ApplySweepPlaced(s: State, orderId: OrderId): State {
    if orderId in s.rows && s.rows[orderId].hasBrokerId then WriteRow(s, orderId, Cancelled) else s
  }

  /** The process dies with its handlers; the new one only knows the durable state. */
  function ApplyRestart(s: State, process: ProcessId, durable: Option<bool>): State {
    s.(workers := s.workers - (set w | w in s.workers && s.workers[w].process == process),
       halted := ReadDurable(s.halted - {process}, process, durable))
  }

  function Apply(s: State, step: Step): State {
    match step
    case Deliver(p, signal, decision) => ApplyDeliver(s, p, signal, decision)
    case Reconcile(p, orderId, listed) => ApplyReconcile(s, p, orderId, listed)
    case Enter(w, durable) => ApplyEnter(s, w, durable)
    case Read(w, row) => ApplyRead(s, w, row)
    case Submit(w, newId) => ApplySubmit(s, w, newId)
    case Gate(w) => ApplyGate(s, w)
    case Lookup(w, hit) => ApplyLookup(s, w, hit)
    case Place(w) => ApplyPlace(s, w)
    case Answer(w, reply) => ApplyAnswer(s, w, reply)
    case MarkUnknown(w, written) => ApplyMarkUnknown(s, w, written)
    case MarkRejected(w, written) => ApplyMarkRejected(s, w, written)
    case Rescan(w, hit) => ApplyRescan(s, w, hit)
    case Record(w, written) => ApplyRecord(s, w, written)
    case Stop(w) => End(s, w)
    case Resolve(i, accepted) => ApplyResolve(s, i, accepted)
    case Report(orderId, status) => ApplyReport(s, orderId, status)
    case PaperSubmit(signal, decision, newId) => ApplyPaperSubmit(s, signal, decision, newId)
    case PaperRecord(orderId, status) => ApplyPaperRecord(s, orderId, status)
    case SweepPending(orderId) => ApplySweepPending(s, orderId)
    case SweepPlaced(orderId) => ApplySweepPlaced(s, orderId)
    case PollDurable(p, durable) => s.(halted := ReadDurable(s.halted, p, durable))
    case Activate(p) => s.(halted := s.halted + {p})
    case Clear(p) => s.(halted := s.halted - {p})
    case Restart(p, durable) => ApplyRestart(s, p, durable)
  }

  /** The state after a whole run. */
  function Run(s: State, run: seq<Step>): State
    decreases |run|
  {
    if run == [] then s else Run(Apply(s, run[0]), run[1..])
  }

  // ---- conditions a caller or operator can check, stated step by step ----

  type Condition = (State, Step) -> bool

  /** A condition holds of every step of a run, at the state the step starts from. */
  ghost predicate Throughout(c: Condition, s: State, run: seq<Step>)
    decreases |run|
  {
    run == [] || (c(s, run[0]) && Throughout(c, Apply(s, run[0]), run[1..]))
  }

  predicate Live(s: State, signal: SignalId) {
    exists w :: w in s.workers && s.workers[w].signal == signal
  }

  /** A handler starts only when none is live for its signal. */
  predicate OneWorker(s: State, step: Step) {
    match step
    case Deliver(_, signal, _) => !Live(s, signal)
    case Reconcile(_, orderId, _) => orderId in s.rows ==> !Live(s, s.rows[orderId].signal)
    case _ => true
  }

  /** A request that is at the broker or may still get there. */
  predicate Outstanding(requests: seq<Request>, orderId: OrderId) {
    exists i :: 0 <= i < |requests| && requests[i].key == BrokerKey(orderId) && requests[i].fate != Lost
  }

  /** A search misses only when nothing with that key is, or may yet be, at the broker. */
  predicate LookupSees(s: State, step: Step) {
    match step
    case Lookup(w, None) =>
      w in s.workers && s.workers[w].pc.LookingUp? ==> !Outstanding(s.requests, s.workers[w].pc.orderId)
    case _ => true
  }

  /** The signal index returns the row's current status. */
  predicate FreshRead(s: State, step: Step) {
    match step
    case Read(w, Some(status)) =>
      w in s.workers && s.workers[w].signal in s.locks && s.locks[s.workers[w].signal] in s.rows ==>
        s.rows[s.locks[s.workers[w].signal]].status == status
    case _ => true
  }

  /** A run and its condition extend by one step at the end. */
  lemma {:induction false} Snoc(c: Condition, s: State, run: seq<Step>, a: Step)
    requires Throughout(c, s, run) && c(Run(s, run), a)
    ensures Throughout(c, s, run + [a]) && Run(s, run + [a]) == Apply(Run(s, run), a)
    decreases |run|
  {
    var t := Apply(s, (run + [a])[0]);
    if run == [] {
      assert (run + [a])[1..] == [];
      assert Throughout(c, t, []) && Run(t, []) == t;
    } else {
      assert (run + [a])[1..] == run[1..] + [a];
      Snoc(c, t, run[1..], a);
    }
  }
}
