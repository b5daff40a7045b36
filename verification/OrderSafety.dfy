/** What one step can do, and the safety theorems of the entry-order protocol over whole runs. */
module OrderSafety {
  import opened Wrappers
  import opened Orders
  import opened OrderProtocol
  import opened OrderProtocolInvariant

  // ---- the shape of a step ----

  predicate Placing(pc: Pc) {
    pc.AtGate? || pc.LookingUp? || pc.Waiting?
  }

  /** The only ways for handler `w` to come nearer to the place call. */
  predicate Approach(s: State, step: Step, w: WorkerId, was: Worker, pc: Pc)
    requires Placing(pc)
  {
    match pc
    case AtGate(o) =>
      (step == Read(w, Some(Pending)) && was.signal in s.locks && s.locks[was.signal] == o) ||
      (step == Submit(w, o) && o !in s.rows)
    case LookingUp(o) => was.pc == AtGate(o) && was.process !in s.halted
    case Waiting(o) => was.pc == LookingUp(o) && step == Lookup(w, None)
  }

  predicate WorkerShape(s: State, step: Step, w: WorkerId, now: Worker) {
    if w in s.workers then
      var was := s.workers[w];
      now.process == was.process && now.signal == was.signal && now.decision == was.decision &&
      (Placing(now.pc) ==> now.pc == was.pc || Approach(s, step, w, was, now.pc)) &&
      ((now.pc.Calling? || now.pc.Doubtful? || now.pc.Refused?) ==>
         now.pc == was.pc || (was.pc == Waiting(now.pc.orderId) && step == Place(w)) ||
         (was.pc.Calling? && was.pc.orderId == now.pc.orderId)) &&
      (step.MarkUnknown? && step.w == w && was.pc.Doubtful? ==> now.pc.Rescanning?)
    else
      w == s.spawned && (now.pc == Entered || now.pc.Rescanning?) &&
      ((step.Deliver? && now.signal == step.signal && now.decision == step.decision) ||
       (step.Reconcile? && step.orderId in s.rows && now.signal == s.rows[step.orderId].signal &&
          now.decision == s.rows[step.orderId].decision))
  }

  /** Only the place call adds a request, and it leaves the handler's waiting point. */
  predicate RequestsShape(s: State, step: Step, t: State) {
    t.requests == s.requests ||
    (step.Place? && step.w in s.workers && s.workers[step.w].pc.Waiting? &&
       var worker := s.workers[step.w];
       t.requests == s.requests + [Request(BrokerKey(worker.pc.orderId), worker.signal, worker.decision,
                                           worker.process, step.w, InFlight)] &&
       (step.w in t.workers ==> t.workers[step.w].pc == Calling(worker.pc.orderId, |s.requests|))) ||
    (step.Resolve? && step.request < |s.requests| && s.requests[step.request].fate == InFlight &&
       t.requests == s.requests[step.request :=
         s.requests[step.request].(fate := if step.accepted then Accepted else Lost)])
  }

  /** Who may change the status of a row, and to what. */
  predicate Writes(s: State, step: Step, o: OrderId, row: Row)
    requires o in s.rows
  {
    match step
    case MarkUnknown(w, _) => w in s.workers && s.workers[w].pc == Doubtful(o) && row.status == AckUnknown
    case MarkRejected(w, _) => w in s.workers && s.workers[w].pc == Refused(o) && row.status == Rejected
    case Record(w, _) =>
      w in s.workers && s.workers[w].pc == Recording(o, row.status) && row.hasBrokerId
    case Report(o', _) => o' == o && s.rows[o].hasBrokerId && BrokerStatus(row.status)
    case PaperRecord(o', _) => o' == o && s.rows[o].paper && row.status in {Filled, PartiallyFilled, Rejected}
    case SweepPending(o') => o' == o && row.status == Cancelled
    case SweepPlaced(o') => o' == o && s.rows[o].hasBrokerId && row.status == Cancelled
    case Reconcile(_, o', listed) =>
      o' == o && listed == Pending && (s.rows[o].signal == "" || s.rows[o].decision == "") && row.status == Rejected
    case _ => false
  }

  predicate RowShape(s: State, step: Step, o: OrderId, row: Row)
    requires o in s.rows
  {
    var was := s.rows[o];
    && ValidTransition(was.status, row.status)
    && row.signal == was.signal && row.decision == was.decision && row.paper == was.paper
    && (row.status == was.status || Writes(s, step, o, row))
    && (row.hasBrokerId && !was.hasBrokerId && !row.paper ==> step.Record? && Writes(s, step, o, row))
  }

  ghost predicate WorkersShape(s: State, step: Step, t: State) {
    forall w :: w in t.workers ==> WorkerShape(s, step, w, t.workers[w])
  }

  ghost predicate RowsShape(s: State, step: Step, t: State) {
    && (forall o :: o in s.rows ==> o in t.rows && RowShape(s, step, o, t.rows[o]))
    && (forall o :: o in t.rows && o !in s.rows ==>
          t.rows[o].status == Pending && !t.rows[o].hasBrokerId &&
          ((step.PaperSubmit? && t.rows[o].paper &&
              t.rows[o].signal == step.signal && t.rows[o].decision == step.decision) ||
           (step.Submit? && step.w in s.workers && !t.rows[o].paper &&
              t.rows[o].signal == s.workers[step.w].signal && t.rows[o].decision == s.workers[step.w].decision)))
  }

  ghost predicate LocksKept(s: State, t: State) {
    forall signal :: signal in s.locks ==> signal in t.locks && t.locks[signal] == s.locks[signal]
  }

  /** Only a clear event, or a restart that does not read an active durable row, resumes a process. */
  predicate Resumes(step: Step, p: ProcessId) {
    step == Clear(p) || (step.Restart? && step.process == p && step.durable != Some(true))
  }

  ghost predicate HaltsShape(s: State, step: Step, t: State) {
    forall p :: p in s.halted ==> (p in t.halted <==> !Resumes(step, p))
  }

  predicate EntryStep(step: Step) { step.Enter? || step.Read? || step.Submit? }

  predicate PlaceStep(step: Step) { step.Gate? || step.Lookup? || step.Place? }

  predicate AnswerStep(step: Step) { step.Answer? || step.Rescan? || step.Stop? }

  predicate WriteStep(step: Step) { step.MarkUnknown? || step.MarkRejected? || step.Record? }

  lemma EntryWorkers(s: State, step: Step)
    requires Sound(s) && EntryStep(step)
    ensures WorkersShape(s, step, Apply(s, step))
  {
  }

  lemma PlaceWorkers(s: State, step: Step)
    requires Sound(s) && PlaceStep(step)
    ensures WorkersShape(s, step, Apply(s, step))
  {
  }

  lemma AnswerWorkers(s: State, step: Step)
    requires Sound(s) && AnswerStep(step)
    ensures WorkersShape(s, step, Apply(s, step))
  {
  }

  lemma WriteWorkers(s: State, step: Step)
    requires Sound(s) && WriteStep(step)
    ensures WorkersShape(s, step, Apply(s, step))
  {
  }

  lemma OtherWorkers(s: State, step: Step)
    requires Sound(s) && !EntryStep(step) && !PlaceStep(step) && !AnswerStep(step) && !WriteStep(step)
    ensures WorkersShape(s, step, Apply(s, step))
  {
  }

  lemma StepWorkers(s: State, step: Step)
    requires Sound(s)
    ensures WorkersShape(s, step, Apply(s, step))
  {
    if EntryStep(step) { EntryWorkers(s, step); }
    else if PlaceStep(step) { PlaceWorkers(s, step); }
    else if AnswerStep(step) { AnswerWorkers(s, step); }
    else if WriteStep(step) { WriteWorkers(s, step); }
    else { OtherWorkers(s, step); }
  }

  lemma SubmitRows(s: State, step: Step)
    requires Sound(s) && step.Submit?
    ensures RowsShape(s, step, Apply(s, step))
  {
  }

  lemma EntryRows(s: State, step: Step)
    requires Sound(s) && !step.Submit? && EntryStep(step)
    ensures RowsShape(s, step, Apply(s, step))
  {
  }

  lemma PlaceRows(s: State, step: Step)
    requires Sound(s) && PlaceStep(step)
    ensures RowsShape(s, step, Apply(s, step))
  {
  }

  lemma AnswerRows(s: State, step: Step)
    requires Sound(s) && AnswerStep(step)
    ensures RowsShape(s, step, Apply(s, step))
  {
  }

  lemma MarkUnknownRows(s: State, step: Step)
    requires Sound(s) && step.MarkUnknown?
    ensures RowsShape(s, step, Apply(s, step))
  {
  }

  lemma MarkRejectedRows(s: State, step: Step)
    requires Sound(s) && step.MarkRejected?
    ensures RowsShape(s, step, Apply(s, step))
  {
  }

  lemma RecordRows(s: State, step: Step)
    requires Sound(s) && step.Record?
    ensures RowsShape(s, step, Apply(s, step))
  {
  }

  predicate PaperStep(step: Step) {
    step.PaperSubmit? || step.PaperRecord?
  }

  predicate SweepStep(step: Step) {
    step.SweepPending? || step.SweepPlaced?
  }

  lemma ReportRows(s: State, step: Step)
    requires Sound(s) && step.Report?
    ensures RowsShape(s, step, Apply(s, step))
  {
  }

  lemma SweepRows(s: State, step: Step)
    requires Sound(s) && SweepStep(step)
    ensures RowsShape(s, step, Apply(s, step))
  {
  }

  lemma PaperRecordRows(s: State, step: Step)
    requires Sound(s) && step.PaperRecord?
    ensures RowsShape(s, step, Apply(s, step))
  {
  }

  lemma PaperSubmitRows(s: State, step: Step)
    requires Sound(s) && step.PaperSubmit?
    ensures RowsShape(s, step, Apply(s, step))
  {
  }

  lemma ReconcileRows(s: State, step: Step)
    requires Sound(s) && step.Reconcile?
    ensures RowsShape(s, step, Apply(s, step))
  {
  }

  lemma OtherRows(s: State, step: Step)
    requires Sound(s) && !step.Report? && !SweepStep(step) && !PaperStep(step) && !step.Reconcile?
    requires !EntryStep(step) && !PlaceStep(step) && !AnswerStep(step) && !WriteStep(step)
    ensures RowsShape(s, step, Apply(s, step))
  {
  }

  lemma StepRows(s: State, step: Step)
    requires Sound(s)
    ensures RowsShape(s, step, Apply(s, step))
  {
    if step.Submit? { SubmitRows(s, step); }
    else if step.Record? { RecordRows(s, step); }
    else if step.MarkUnknown? { MarkUnknownRows(s, step); }
    else if step.MarkRejected? { MarkRejectedRows(s, step); }
    else if step.PaperSubmit? { PaperSubmitRows(s, step); }
    else if step.Reconcile? { ReconcileRows(s, step); }
    else if step.PaperRecord? { PaperRecordRows(s, step); }
    else if step.Report? { ReportRows(s, step); }
    else if SweepStep(step) { SweepRows(s, step); }
    else if EntryStep(step) { EntryRows(s, step); }
    else if PlaceStep(step) { PlaceRows(s, step); }
    else if AnswerStep(step) { AnswerRows(s, step); }
    else { OtherRows(s, step); }
  }

  lemma StepRequests(s: State, step: Step)
    ensures RequestsShape(s, step, Apply(s, step))
  {
  }

  lemma StepLocks(s: State, step: Step)
    ensures LocksKept(s, Apply(s, step))
  {
  }

  lemma StepHalts(s: State, step: Step)
    ensures HaltsShape(s, step, Apply(s, step))
  {
  }

  /** All that the proofs below use of one step. */
  ghost predicate Shape(s: State, step: Step, t: State) {
    && Sound(s) && Sound(t)
    && WorkersShape(s, step, t) && RequestsShape(s, step, t) && RowsShape(s, step, t)
    && LocksKept(s, t) && HaltsShape(s, step, t)
  }

  lemma StepShape(s: State, step: Step)
    requires Sound(s)
    ensures Shape(s, step, Apply(s, step))
  {
    StepSound(s, step);
    StepWorkers(s, step);
    StepRequests(s, step);
    StepRows(s, step);
    StepLocks(s, step);
    StepHalts(s, step);
  }

  // ---- one key per signal, whatever interleaves ----

  ghost predicate Reachable(s: State) {
    exists run :: s == Run(EMPTY_STATE, run)
  }

  lemma ReachableSound(s: State)
    requires Reachable(s)
    ensures Sound(s)
  {
    var run :| s == Run(EMPTY_STATE, run);
    RunSound(EMPTY_STATE, run);
  }

  lemma {:induction false} RunKeepsLocks(s: State, run: seq<Step>)
    ensures LocksKept(s, Run(s, run))
    decreases |run|
  {
    if run != [] {
      StepLocks(s, run[0]);
      RunKeepsLocks(Apply(s, run[0]), run[1..]);
    }
  }

  /**
   * Any workers, any interleaving, stale or failed reads, any crash: every entry placement
   * ever issued for a signal carries the key of the order that won its reservation, and the
   * winner never changes afterwards.
   */
  lemma OneKeyPerSignal(s: State, run: seq<Step>, i: nat, signal: SignalId)
    requires Reachable(s) && signal in s.locks
    requires i < |Run(s, run).requests| && Run(s, run).requests[i].signal == signal
    ensures Run(s, run).requests[i].key == BrokerKey(s.locks[signal])
  {
    ReachableSound(s);
    RunSound(s, run);
    RunKeepsLocks(s, run);
  }

  /** The same for two placements of one signal, with no earlier state in view. */
  lemma PlacementsShareKey(s: State, i: nat, j: nat)
    requires Reachable(s) && i < |s.requests| && j < |s.requests|
    requires s.requests[i].signal == s.requests[j].signal
    ensures s.requests[i].key == s.requests[j].key
    ensures s.requests[i].signal in s.locks && s.requests[i].key == BrokerKey(s.locks[s.requests[i].signal])
  {
    ReachableSound(s);
    assert Keyed(s.rows, s.locks);
  }

  // ---- at most one accepted order ----

  ghost predicate Alone(s: State) {
    forall v, w :: v in s.workers && w in s.workers && s.workers[v].signal == s.workers[w].signal ==> v == w
  }

  ghost predicate WaitingIsFree(s: State) {
    forall w :: w in s.workers && s.workers[w].pc.Waiting? ==>
      !Outstanding(s.requests, s.workers[w].pc.orderId)
  }

  ghost predicate OneOutstanding(requests: seq<Request>) {
    forall i, j :: 0 <= i < j < |requests| && requests[i].key == requests[j].key ==>
      requests[i].fate == Lost || requests[j].fate == Lost
  }

  lemma AloneStep(s: State, step: Step, t: State)
    requires WorkersShape(s, step, t) && Alone(s) && OneWorker(s, step)
    ensures Alone(t)
  {
    forall v, w | v in t.workers && w in t.workers && t.workers[v].signal == t.workers[w].signal
      ensures v == w
    {
      assert WorkerShape(s, step, v, t.workers[v]) && WorkerShape(s, step, w, t.workers[w]);
    }
  }

  lemma OneOutstandingStep(s: State, step: Step, t: State)
    requires RequestsShape(s, step, t) && WaitingIsFree(s) && OneOutstanding(s.requests)
    ensures OneOutstanding(t.requests)
  {
    if step.Place? && step.w in s.workers && s.workers[step.w].pc.Waiting? {
      assert !Outstanding(s.requests, s.workers[step.w].pc.orderId);
    }
  }

  /** Another handler's place call is for another order. */
  lemma OthersPlaceElsewhere(s: State, v: WorkerId, w: WorkerId)
    requires WorkersOk(s) && Alone(s) && v in s.workers && w in s.workers && v != w
    requires HasOrder(s.workers[v].pc) && HasOrder(s.workers[w].pc)
    ensures s.workers[v].pc.orderId != s.workers[w].pc.orderId
  {
    assert WorkerOk(s.rows, s.requests, v, s.workers[v]);
    assert WorkerOk(s.rows, s.requests, w, s.workers[w]);
  }

  lemma WaitingIsFreeStep(s: State, step: Step, t: State)
    requires WorkersOk(s) && WorkersShape(s, step, t) && RequestsShape(s, step, t)
    requires Alone(s) && WaitingIsFree(s) && LookupSees(s, step)
    ensures WaitingIsFree(t)
  {
    forall w | w in t.workers && t.workers[w].pc.Waiting?
      ensures !Outstanding(t.requests, t.workers[w].pc.orderId)
    {
      var o := t.workers[w].pc.orderId;
      assert WorkerShape(s, step, w, t.workers[w]);
      assert !Outstanding(s.requests, o);
      if step.Place? && t.requests != s.requests {
        OthersPlaceElsewhere(s, step.w, w);
      }
    }
  }

  lemma {:induction false} SingleRun(s: State, run: seq<Step>)
    requires Sound(s) && Alone(s) && WaitingIsFree(s) && OneOutstanding(s.requests)
    requires Throughout(OneWorker, s, run) && Throughout(LookupSees, s, run)
    ensures OneOutstanding(Run(s, run).requests)
    decreases |run|
  {
    if run != [] {
      var t := Apply(s, run[0]);
      StepShape(s, run[0]);
      AloneStep(s, run[0], t);
      WaitingIsFreeStep(s, run[0], t);
      OneOutstandingStep(s, run[0], t);
      SingleRun(t, run[1..]);
    }
  }

  /**
   * With one live handler per signal and a search that misses only when nothing with the
   * key is or may still get to the broker, the broker accepts at most one entry order per
   * signal, under any crash, redelivery, lost acknowledgement, stale read or failed write.
   */
  lemma AtMostOneEntryOrder(run: seq<Step>, i: nat, j: nat)
    requires Throughout(OneWorker, EMPTY_STATE, run) && Throughout(LookupSees, EMPTY_STATE, run)
    requires i < |Run(EMPTY_STATE, run).requests| && j < |Run(EMPTY_STATE, run).requests|
    requires Run(EMPTY_STATE, run).requests[i].fate == Accepted && Run(EMPTY_STATE, run).requests[j].fate == Accepted
    requires Run(EMPTY_STATE, run).requests[i].signal == Run(EMPTY_STATE, run).requests[j].signal
    ensures i == j
  {
    SingleRun(EMPTY_STATE, run);
    PlacementsShareKey(Run(EMPTY_STATE, run), i, j);
  }

  // ---- who may still place: the handlers already past a point ----

  /** Handlers that have read the row and have not handed a request over. */
  function Armed(s: State, o: OrderId): set<WorkerId> {
    set w | w in s.workers && Placing(s.workers[w].pc) && s.workers[w].pc.orderId == o
  }

  ghost predicate OnlyArmedPlace(s: State, o: OrderId, from: nat, armed: set<WorkerId>) {
    && from <= |s.requests| && o in s.rows && s.rows[o].status != Pending
    && Armed(s, o) <= armed
    && (forall i :: from <= i < |s.requests| && s.requests[i].key == BrokerKey(o) ==> s.requests[i].worker in armed)
  }

  /** The handler that reads PENDING on the row although the row has left that status. */
  function LateReader(s: State, step: Step, o: OrderId): set<WorkerId> {
    match step
    case Read(w, Some(Pending)) =>
      if w in s.workers && s.workers[w].signal in s.locks && s.locks[s.workers[w].signal] == o &&
         o in s.rows && s.rows[o].status != Pending
      then {w} else {}
    case _ => {}
  }

  function LateReaders(s: State, run: seq<Step>, o: OrderId): set<WorkerId>
    decreases |run|
  {
    if run == [] then {} else LateReader(s, run[0], o) + LateReaders(Apply(s, run[0]), run[1..], o)
  }

  /** Only a late read arms a handler for a row that has left PENDING. */
  lemma ArmedBefore(s: State, step: Step, w: WorkerId, now: Worker, o: OrderId)
    requires Keyed(s.rows, s.locks) && o in s.rows && s.rows[o].status != Pending
    requires WorkerShape(s, step, w, now) && Placing(now.pc) && now.pc.orderId == o
    ensures w in Armed(s, o) + LateReader(s, step, o)
  {
  }

  lemma {:induction false} CurrentReadsAreNotLate(s: State, run: seq<Step>, o: OrderId)
    requires Throughout(FreshRead, s, run)
    ensures LateReaders(s, run, o) == {}
    decreases |run|
  {
    if run != [] {
      CurrentReadsAreNotLate(Apply(s, run[0]), run[1..], o);
    }
  }

  lemma NeverPendingAgain(s: State, step: Step, t: State, o: OrderId)
    requires RowsShape(s, step, t) && o in s.rows && s.rows[o].status != Pending
    ensures o in t.rows && t.rows[o].status != Pending
  {
    assert RowShape(s, step, o, t.rows[o]);
  }

  lemma OnlyArmedPlaceStep(s: State, step: Step, t: State, o: OrderId, from: nat, armed: set<WorkerId>)
    requires Keyed(s.rows, s.locks) && WorkersShape(s, step, t) && RequestsShape(s, step, t)
    requires o in t.rows && t.rows[o].status != Pending && OnlyArmedPlace(s, o, from, armed)
    ensures OnlyArmedPlace(t, o, from, armed + LateReader(s, step, o))
  {
    forall w | w in Armed(t, o) ensures w in armed + LateReader(s, step, o) {
      ArmedBefore(s, step, w, t.workers[w], o);
    }
    if step.Place? && t.requests != s.requests {
      assert s.workers[step.w].pc.orderId == o ==> step.w in Armed(s, o);
    }
  }

  lemma {:induction false} OnlyArmedPlaceRun(s: State, run: seq<Step>, o: OrderId, from: nat, armed: set<WorkerId>)
    requires Sound(s) && OnlyArmedPlace(s, o, from, armed)
    ensures OnlyArmedPlace(Run(s, run), o, from, armed + LateReaders(s, run, o))
    decreases |run|
  {
    if run == [] {
      assert armed + LateReaders(s, run, o) == armed;
    } else {
      var t, late := Apply(s, run[0]), LateReader(s, run[0], o);
      StepShape(s, run[0]);
      NeverPendingAgain(s, run[0], t, o);
      OnlyArmedPlaceStep(s, run[0], t, o, from, armed);
      OnlyArmedPlaceRun(t, run[1..], o, from, armed + late);
      assert (armed + late) + LateReaders(t, run[1..], o) == armed + LateReaders(s, run, o);
    }
  }

  /**
   * Once a row has left PENDING, each request its key can still see comes from a handler
   * that had already read the row, or from one whose read still shows PENDING; one each,
   * whatever the broker search shows and however many handlers there are.
   */
  lemma LaterRequestsNeedLateReads(s: State, run: seq<Step>, o: OrderId, i: nat)
    requires Reachable(s) && o in s.rows && s.rows[o].status != Pending
    requires |s.requests| <= i < |Run(s, run).requests| && Run(s, run).requests[i].key == BrokerKey(o)
    ensures Run(s, run).requests[i].worker in Armed(s, o) + LateReaders(s, run, o)
    ensures forall j :: 0 <= j < |Run(s, run).requests| && j != i ==>
      Run(s, run).requests[j].worker != Run(s, run).requests[i].worker
    ensures o in Run(s, run).rows && Run(s, run).rows[o].status != Pending
  {
    ReachableSound(s);
    OnlyArmedPlaceRun(s, run, o, |s.requests|, Armed(s, o));
    RunSound(s, run);
  }

  /**
   * With current reads, once a row has left PENDING, the only requests its key can still see
   * come from handlers that had already read the row, one each. No later handler or reconciliation places it,
   * whatever the broker search shows.
   */
  lemma LaterHandlersNeverPlace(s: State, run: seq<Step>, o: OrderId, i: nat)
    requires Reachable(s) && o in s.rows && s.rows[o].status != Pending
    requires Throughout(FreshRead, s, run)
    requires |s.requests| <= i < |Run(s, run).requests| && Run(s, run).requests[i].key == BrokerKey(o)
    ensures Run(s, run).requests[i].worker in Armed(s, o)
    ensures forall j :: 0 <= j < |Run(s, run).requests| && j != i ==>
      Run(s, run).requests[j].worker != Run(s, run).requests[i].worker
    ensures o in Run(s, run).rows && Run(s, run).rows[o].status != Pending
  {
    CurrentReadsAreNotLate(s, run, o);
    LaterRequestsNeedLateReads(s, run, o, i);
  }

  // ---- ACK_UNKNOWN ----

  /** A handler on its way to, or in doubt after, the place call of an order. */
  predicate Committed(pc: Pc) {
    Placing(pc) || pc.Calling? || pc.Doubtful? || pc.Refused?
  }

  ghost predicate Unambiguous(s: State) {
    forall w :: w in s.workers && Committed(s.workers[w].pc) && s.workers[w].pc.orderId in s.rows ==>
      s.rows[s.workers[w].pc.orderId].status != AckUnknown
  }

  lemma UnambiguousStep(s: State, step: Step, t: State)
    requires Keyed(s.rows, s.locks) && WorkersOk(s) && WorkersOk(t) && WorkersShape(s, step, t) && RowsShape(s, step, t)
    requires Alone(s) && Unambiguous(s) && FreshRead(s, step)
    ensures Unambiguous(t)
  {
    forall w | w in t.workers && Committed(t.workers[w].pc)
      ensures t.rows[t.workers[w].pc.orderId].status != AckUnknown
    {
      assert WorkerOk(t.rows, t.requests, w, t.workers[w]);
      StaysUnambiguous(s, step, t, w, t.workers[w].pc.orderId);
    }
  }

  lemma StaysUnambiguous(s: State, step: Step, t: State, w: WorkerId, o: OrderId)
    requires Keyed(s.rows, s.locks) && WorkersOk(s) && RowsShape(s, step, t)
    requires Alone(s) && Unambiguous(s) && FreshRead(s, step)
    requires w in t.workers && WorkerShape(s, step, w, t.workers[w])
    requires o in t.rows && Committed(t.workers[w].pc) && t.workers[w].pc.orderId == o
    requires t.rows[o].signal == t.workers[w].signal
    ensures t.rows[o].status != AckUnknown
  {
    if o in s.rows {
      assert RowShape(s, step, o, t.rows[o]);
      NotAmbiguousBefore(s, step, w, t.workers[w]);
      MarkingIsByTheHandlerItself(s, step, w, o);
    }
  }

  lemma NotAmbiguousBefore(s: State, step: Step, w: WorkerId, now: Worker)
    requires Keyed(s.rows, s.locks) && Unambiguous(s) && FreshRead(s, step)
    requires WorkerShape(s, step, w, now) && Committed(now.pc) && now.pc.orderId in s.rows
    ensures w in s.workers && s.rows[now.pc.orderId].status != AckUnknown
  {
  }

  /** Two handlers for one order are one: the marking handler is the only one that could place. */
  lemma MarkingIsByTheHandlerItself(s: State, step: Step, w: WorkerId, o: OrderId)
    requires WorkersOk(s) && Alone(s) && w in s.workers && o in s.rows && s.rows[o].signal == s.workers[w].signal
    ensures step.MarkUnknown? && step.w in s.workers && s.workers[step.w].pc == Doubtful(o) ==> step.w == w
  {
    if step.MarkUnknown? && step.w in s.workers && s.workers[step.w].pc == Doubtful(o) {
      assert WorkerOk(s.rows, s.requests, step.w, s.workers[step.w]);
    }
  }

  lemma {:induction false} UnambiguousRun(s: State, run: seq<Step>)
    requires Sound(s) && Alone(s) && Unambiguous(s)
    requires Throughout(OneWorker, s, run) && Throughout(FreshRead, s, run)
    ensures Unambiguous(Run(s, run)) && Alone(Run(s, run))
    decreases |run|
  {
    if run != [] {
      var t := Apply(s, run[0]);
      StepShape(s, run[0]);
      AloneStep(s, run[0], t);
      UnambiguousStep(s, run[0], t);
      UnambiguousRun(t, run[1..]);
    }
  }

  /**
   * An order that has become ACK_UNKNOWN with one handler per signal and current reads is
   * handed to the broker again only by a handler whose later read still shows PENDING.
   */
  lemma AckUnknownNeedsLateRead(before: seq<Step>, after: seq<Step>, o: OrderId, i: nat)
    requires Throughout(OneWorker, EMPTY_STATE, before) && Throughout(FreshRead, EMPTY_STATE, before)
    requires o in Run(EMPTY_STATE, before).rows && Run(EMPTY_STATE, before).rows[o].status == AckUnknown
    requires |Run(EMPTY_STATE, before).requests| <= i < |Run(Run(EMPTY_STATE, before), after).requests|
    requires Run(Run(EMPTY_STATE, before), after).requests[i].key == BrokerKey(o)
    ensures Run(Run(EMPTY_STATE, before), after).requests[i].worker in LateReaders(Run(EMPTY_STATE, before), after, o)
  {
    UnambiguousRun(EMPTY_STATE, before);
    LaterRequestsNeedLateReads(Run(EMPTY_STATE, before), after, o, i);
  }

  /**
   * With one handler per signal and current reads, an order that is ACK_UNKNOWN is never
   * handed to the broker again. Nothing is assumed of the broker search.
   */
  lemma AckUnknownIsNeverPlaced(before: seq<Step>, after: seq<Step>, o: OrderId, i: nat)
    requires Throughout(OneWorker, EMPTY_STATE, before) && Throughout(FreshRead, EMPTY_STATE, before)
    requires Throughout(FreshRead, Run(EMPTY_STATE, before), after)
    requires o in Run(EMPTY_STATE, before).rows && Run(EMPTY_STATE, before).rows[o].status == AckUnknown
    requires |Run(EMPTY_STATE, before).requests| <= i < |Run(Run(EMPTY_STATE, before), after).requests|
    ensures Run(Run(EMPTY_STATE, before), after).requests[i].key != BrokerKey(o)
  {
    CurrentReadsAreNotLate(Run(EMPTY_STATE, before), after, o);
    if Run(Run(EMPTY_STATE, before), after).requests[i].key == BrokerKey(o) {
      AckUnknownNeedsLateRead(before, after, o, i);
    }
  }

  /** A recorded broker id means that the order is at the broker, paper rows apart. */
  ghost predicate Brokered(s: State) {
    forall o :: o in s.rows && s.rows[o].hasBrokerId && !s.rows[o].paper ==> OnBroker(s.requests, o)
  }

  lemma BrokeredStep(s: State, step: Step, t: State)
    requires WorkersOk(s) && RequestsShape(s, step, t) && RowsShape(s, step, t) && Brokered(s)
    ensures Brokered(t)
  {
    assert RequestsKept(s.requests, t.requests);
    AcceptedKept(s.requests, t.requests);
    forall o | o in t.rows && t.rows[o].hasBrokerId && !t.rows[o].paper ensures OnBroker(t.requests, o) {
      if o in s.rows {
        assert RowShape(s, step, o, t.rows[o]);
        if !s.rows[o].hasBrokerId {
          assert WorkerOk(s.rows, s.requests, step.w, s.workers[step.w]);
        }
      }
    }
  }

  lemma {:induction false} BrokeredRun(s: State, run: seq<Step>)
    requires Sound(s) && Brokered(s)
    ensures Brokered(Run(s, run))
    decreases |run|
  {
    if run != [] {
      StepShape(s, run[0]);
      BrokeredStep(s, run[0], Apply(s, run[0]));
      BrokeredRun(Apply(s, run[0]), run[1..]);
    }
  }

  /** The step cancels, or rejects as corrupt, a row it was listed PENDING. */
  predicate StaleWrite(s: State, step: Step, o: OrderId)
    requires o in s.rows
  {
    step == SweepPending(o) ||
    (step.Reconcile? && step.orderId == o && step.listed == Pending &&
       (s.rows[o].signal == "" || s.rows[o].decision == ""))
  }

  /**
   * A live ACK_UNKNOWN row leaves that status with no broker order found exactly when a
   * kill-switch sweep, or the corrupt-row branch of reconciliation, writes on a listing
   * taken while the row still was PENDING.
   */
  lemma LeavesAckUnknownExactly(run: seq<Step>, step: Step, o: OrderId)
    requires Throughout(OneWorker, EMPTY_STATE, run) && Throughout(FreshRead, EMPTY_STATE, run)
    requires o in Run(EMPTY_STATE, run).rows && !Run(EMPTY_STATE, run).rows[o].paper
    requires Run(EMPTY_STATE, run).rows[o].status == AckUnknown && !OnBroker(Run(EMPTY_STATE, run).requests, o)
    ensures Apply(Run(EMPTY_STATE, run), step).rows[o].status != AckUnknown <==>
            StaleWrite(Run(EMPTY_STATE, run), step, o)
  {
    var s := Run(EMPTY_STATE, run);
    RunSound(EMPTY_STATE, run);
    UnambiguousRun(EMPTY_STATE, run);
    BrokeredRun(EMPTY_STATE, run);
    StepRows(s, step);
    NoOrdinaryWayOut(s, step, o, Apply(s, step).rows[o]);
  }

  lemma NoOrdinaryWayOut(s: State, step: Step, o: OrderId, row: Row)
    requires WorkersOk(s) && Unambiguous(s) && Brokered(s) && o in s.rows && RowShape(s, step, o, row)
    requires !s.rows[o].paper && s.rows[o].status == AckUnknown && !OnBroker(s.requests, o)
    ensures row.status != AckUnknown ==> StaleWrite(s, step, o)
  {
    if (step.Record? || step.MarkRejected?) && step.w in s.workers {
      assert WorkerOk(s.rows, s.requests, step.w, s.workers[step.w]);
    }
  }

  // ---- the kill switch ----

  /** Handlers of a process that have passed the gate and have not handed a request over. */
  function PastGate(s: State, p: ProcessId): set<WorkerId> {
    set w | w in s.workers && s.workers[w].process == p && (s.workers[w].pc.LookingUp? || s.workers[w].pc.Waiting?)
  }

  ghost predicate OnlyPastGatePlace(s: State, p: ProcessId, from: nat, passed: set<WorkerId>) {
    && p in s.halted && from <= |s.requests| && PastGate(s, p) <= passed
    && (forall i :: from <= i < |s.requests| && s.requests[i].process == p ==> s.requests[i].worker in passed)
  }

  lemma OnlyPastGatePlaceStep(s: State, step: Step, t: State, p: ProcessId, from: nat, passed: set<WorkerId>)
    requires WorkersShape(s, step, t) && RequestsShape(s, step, t) && HaltsShape(s, step, t)
    requires OnlyPastGatePlace(s, p, from, passed) && !Resumes(step, p)
    ensures OnlyPastGatePlace(t, p, from, passed)
  {
    forall w | w in PastGate(t, p) ensures w in passed {
      assert WorkerShape(s, step, w, t.workers[w]);
      assert w in PastGate(s, p);
    }
    if step.Place? && t.requests != s.requests {
      assert s.workers[step.w].process == p ==> step.w in PastGate(s, p);
    }
  }

  lemma {:induction false} OnlyPastGatePlaceRun(s: State, run: seq<Step>, p: ProcessId, from: nat,
      passed: set<WorkerId>)
    requires Sound(s) && OnlyPastGatePlace(s, p, from, passed)
    requires forall step :: step in run ==> !Resumes(step, p)
    ensures OnlyPastGatePlace(Run(s, run), p, from, passed)
    decreases |run|
  {
    if run != [] {
      StepShape(s, run[0]);
      OnlyPastGatePlaceStep(s, run[0], Apply(s, run[0]), p, from, passed);
      OnlyPastGatePlaceRun(Apply(s, run[0]), run[1..], p, from, passed);
    }
  }

  /** A halted process is resumed by a step exactly when it is a clear or such a restart. */
  lemma HaltEndsExactly(s: State, step: Step, p: ProcessId)
    requires p in s.halted
    ensures p in Apply(s, step).halted <==> !Resumes(step, p)
  {
    StepHalts(s, step);
  }

  /** A running process is halted by a step exactly when it activates, or reads an active durable row. */
  lemma HaltBeginsExactly(s: State, step: Step, p: ProcessId)
    requires p !in s.halted
    ensures p in Apply(s, step).halted <==>
            step in {Activate(p), PollDurable(p, Some(true)), Restart(p, Some(true))} ||
            (step.Enter? && step.durable == Some(true) && step.w in s.workers && s.workers[step.w].pc == Entered &&
             s.workers[step.w].process == p)
  {
  }

  /**
   * From any activation to the next clear or restart, the entry requests a process hands
   * over come from handlers whose gate check lay before the activation, one each. Durable
   * polls and failed reads never end the halt.
   */
  lemma HaltBoundsHandOvers(s: State, run: seq<Step>, p: ProcessId, i: nat)
    requires Reachable(s) && p in s.halted
    requires forall step :: step in run ==> !Resumes(step, p)
    requires |s.requests| <= i < |Run(s, run).requests| && Run(s, run).requests[i].process == p
    ensures p in Run(s, run).halted
    ensures Run(s, run).requests[i].worker in PastGate(s, p)
    ensures forall j :: 0 <= j < |Run(s, run).requests| && j != i ==>
      Run(s, run).requests[j].worker != Run(s, run).requests[i].worker
  {
    ReachableSound(s);
    OnlyPastGatePlaceRun(s, run, p, |s.requests|, PastGate(s, p));
    RunSound(s, run);
  }

  /** With one consumer loop per process, at most one entry order slips past an activation. */
  lemma AtMostOneAfterActivation(s: State, run: seq<Step>, p: ProcessId, i: nat, j: nat)
    requires Reachable(s) && p in s.halted
    requires forall v, w ::
      v in s.workers && w in s.workers && s.workers[v].process == p && s.workers[w].process == p ==> v == w
    requires forall step :: step in run ==> !Resumes(step, p)
    requires |s.requests| <= i < |Run(s, run).requests| && Run(s, run).requests[i].process == p
    requires |s.requests| <= j < |Run(s, run).requests| && Run(s, run).requests[j].process == p
    ensures i == j
  {
    HaltBoundsHandOvers(s, run, p, i);
    HaltBoundsHandOvers(s, run, p, j);
  }
}
