/** The invariant of the entry-order protocol: it holds after every run, with no condition. */
module OrderProtocolInvariant {
  import opened Wrappers
  import opened Orders
  import opened OrderProtocol

  type Rows = map<OrderId, Row>

  predicate BeforePlace(pc: Pc) {
    pc.Entered? || pc.Reading? || pc.Submitting? || pc.AtGate? || pc.LookingUp? || pc.Waiting?
  }

  predicate HasOrder(pc: Pc) {
    !(pc.Entered? || pc.Reading? || pc.Submitting?)
  }

  /**
   * What holds of one handler: it works on the row that carries its signal, it has handed
   * over nothing before the place call, its call is the request it made, and it records
   * only an order that is at the broker.
   */
  ghost predicate WorkerOk(rows: Rows, requests: seq<Request>, w: WorkerId, worker: Worker) {
    && (HasOrder(worker.pc) ==>
          worker.pc.orderId in rows && rows[worker.pc.orderId].signal == worker.signal)
    && (BeforePlace(worker.pc) ==> forall i :: 0 <= i < |requests| ==> requests[i].worker != w)
    && (worker.pc.Calling? ==>
          worker.pc.request < |requests| && requests[worker.pc.request].key == BrokerKey(worker.pc.orderId))
    && (worker.pc.Recording? ==> OnBroker(requests, worker.pc.orderId))
  }

  /** Rows and reservations point at each other. */
  ghost predicate Keyed(rows: Rows, locks: map<SignalId, OrderId>) {
    && (forall signal :: signal in locks ==>
          locks[signal] in rows && rows[locks[signal]].signal == signal)
    && (forall o :: o in rows ==>
          rows[o].signal in locks && locks[rows[o].signal] == o &&
          Pending in rows[o].history && rows[o].status in rows[o].history)
  }

  /** Requests belong to known rows, and no handler hands over two. */
  ghost predicate RequestsOk(rows: Rows, requests: seq<Request>, spawned: nat) {
    && (forall i :: 0 <= i < |requests| ==>
          requests[i].worker < spawned && requests[i].key.orderId in rows &&
          rows[requests[i].key.orderId].signal == requests[i].signal)
    && (forall i, j :: 0 <= i < j < |requests| ==> requests[i].worker != requests[j].worker)
  }

  ghost predicate WorkersOk(s: State) {
    forall w :: w in s.workers ==> w < s.spawned && WorkerOk(s.rows, s.requests, w, s.workers[w])
  }

  ghost predicate Sound(s: State) {
    Keyed(s.rows, s.locks) && RequestsOk(s.rows, s.requests, s.spawned) && WorkersOk(s)
  }

  // ---- the primitive changes ----

  ghost predicate SignalsKept(rows: Rows, rows': Rows) {
    forall o :: o in rows ==> o in rows' && rows'[o].signal == rows[o].signal
  }

  lemma MoveSound(s: State, w: WorkerId, pc: Pc)
    requires Sound(s) && w in s.workers && WorkerOk(s.rows, s.requests, w, s.workers[w].(pc := pc))
    ensures Sound(MoveTo(s, w, pc))
  {
  }

  lemma EndSound(s: State, w: WorkerId)
    requires Sound(s)
    ensures Sound(End(s, w))
  {
  }

  lemma SpawnSound(s: State, worker: Worker)
    requires Sound(s) && (worker.pc == Entered || worker.pc.Rescanning?)
    requires worker.pc.Rescanning? ==>
      worker.pc.orderId in s.rows && s.rows[worker.pc.orderId].signal == worker.signal
    ensures Sound(Spawn(s, worker))
  {
  }

  /** A status write keeps the rows' keys and signals, so everything else stands. */
  lemma WriteSound(s: State, o: OrderId, row: Row)
    requires Sound(s) && o in s.rows && row.signal == s.rows[o].signal
    requires Pending in row.history && row.status in row.history
    ensures Sound(s.(rows := s.rows[o := row]))
  {
    var t := s.(rows := s.rows[o := row]);
    assert SignalsKept(s.rows, t.rows);
    forall w | w in t.workers ensures WorkerOk(t.rows, t.requests, w, t.workers[w]) {
      assert WorkerOk(s.rows, s.requests, w, s.workers[w]);
    }
  }

  lemma SubmitSound(s: State, signal: SignalId, decision: DecisionId, newId: OrderId, paper: bool)
    requires Sound(s) && CanSubmit(s, signal, newId)
    ensures Sound(SubmitRow(s, signal, decision, newId, paper))
  {
    var t := SubmitRow(s, signal, decision, newId, paper);
    assert SignalsKept(s.rows, t.rows);
    forall w | w in t.workers ensures WorkerOk(t.rows, t.requests, w, t.workers[w]) {
      assert WorkerOk(s.rows, s.requests, w, s.workers[w]);
    }
  }

  lemma PlaceSound(s: State, w: WorkerId)
    requires Sound(s)
    ensures Sound(ApplyPlace(s, w))
  {
    var t := ApplyPlace(s, w);
    if w in s.workers && s.workers[w].pc.Waiting? {
      assert WorkerOk(s.rows, s.requests, w, s.workers[w]);
      assert t.requests[..|s.requests|] == s.requests;
      forall v | v in t.workers ensures WorkerOk(t.rows, t.requests, v, t.workers[v]) {
        assert WorkerOk(s.rows, s.requests, v, s.workers[v]);
        AcceptedKept(s.requests, t.requests);
      }
    }
  }

  /** Requests keep their key, signal and maker; an accepted one stays accepted. */
  ghost predicate RequestsKept(a: seq<Request>, b: seq<Request>) {
    |a| <= |b| &&
    forall i :: 0 <= i < |a| ==>
      b[i].key == a[i].key && b[i].signal == a[i].signal && b[i].worker == a[i].worker &&
      (a[i].fate == Accepted ==> b[i].fate == Accepted)
  }

  lemma AcceptedKept(a: seq<Request>, b: seq<Request>)
    requires RequestsKept(a, b)
    ensures forall o :: OnBroker(a, o) ==> OnBroker(b, o)
  {
    forall o | OnBroker(a, o) ensures OnBroker(b, o) {
      var i :| 0 <= i < |a| && a[i].key == BrokerKey(o) && a[i].fate == Accepted;
      assert b[i].key == BrokerKey(o) && b[i].fate == Accepted;
    }
  }

  lemma ResolveSound(s: State, i: nat, accepted: bool)
    requires Sound(s)
    ensures Sound(ApplyResolve(s, i, accepted))
  {
    var t := ApplyResolve(s, i, accepted);
    AcceptedKept(s.requests, t.requests);
    forall w | w in t.workers ensures WorkerOk(t.rows, t.requests, w, t.workers[w]) {
      assert WorkerOk(s.rows, s.requests, w, s.workers[w]);
    }
  }

  // ---- one step of each group ----

  lemma ReadAndSubmitSound(s: State, step: Step)
    requires Sound(s) && (step.Enter? || step.Read? || step.Submit?)
    ensures Sound(Apply(s, step))
  {
    var w := step.w;
    if w in s.workers {
      var worker := s.workers[w];
      assert WorkerOk(s.rows, s.requests, w, worker);
      match step {
        case Enter(_, durable) =>
          var s' := s.(halted := ReadDurable(s.halted, worker.process, durable));
          EndSound(s', w);
          if worker.pc == Entered { MoveSound(s', w, Reading); }
        case Read(_, row) =>
          EndSound(s, w);
          if worker.pc == Reading && CanRead(s, worker.signal, row) {
            if row == None { MoveSound(s, w, Submitting); }
            else if row.value == Pending { MoveSound(s, w, AtGate(s.locks[worker.signal])); }
            else if row.value == AckUnknown { MoveSound(s, w, Rescanning(s.locks[worker.signal])); }
          }
        case Submit(_, newId) =>
          EndSound(s, w);
          if worker.pc == Submitting && CanSubmit(s, worker.signal, newId) {
            SubmitSound(s, worker.signal, worker.decision, newId, false);
            MoveSound(SubmitRow(s, worker.signal, worker.decision, newId, false), w, AtGate(newId));
          }
      }
    }
  }

  lemma GateSound(s: State, w: WorkerId)
    requires Sound(s)
    ensures Sound(Apply(s, Gate(w)))
  {
    if w in s.workers && s.workers[w].pc.AtGate? {
      assert WorkerOk(s.rows, s.requests, w, s.workers[w]);
      EndSound(s, w);
      MoveSound(s, w, LookingUp(s.workers[w].pc.orderId));
    }
  }

  lemma LookupSound(s: State, w: WorkerId, hit: Option<Status>)
    requires Sound(s)
    ensures Sound(Apply(s, Lookup(w, hit)))
  {
    if w in s.workers && s.workers[w].pc.LookingUp? {
      var orderId := s.workers[w].pc.orderId;
      assert WorkerOk(s.rows, s.requests, w, s.workers[w]);
      if hit == None { MoveSound(s, w, Waiting(orderId)); }
      else if OnBroker(s.requests, orderId) { MoveSound(s, w, Recording(orderId, hit.value)); }
    }
  }

  lemma RescanSound(s: State, w: WorkerId, hit: Option<Status>)
    requires Sound(s)
    ensures Sound(Apply(s, Rescan(w, hit)))
  {
    if w in s.workers && s.workers[w].pc.Rescanning? {
      var orderId := s.workers[w].pc.orderId;
      assert WorkerOk(s.rows, s.requests, w, s.workers[w]);
      EndSound(s, w);
      if hit.Some? && OnBroker(s.requests, orderId) { MoveSound(s, w, Recording(orderId, hit.value)); }
    }
  }

  lemma AnswerSound(s: State, w: WorkerId, reply: Reply)
    requires Sound(s)
    ensures Sound(ApplyAnswer(s, w, reply))
  {
    if w in s.workers && s.workers[w].pc.Calling? {
      var Calling(orderId, request) := s.workers[w].pc;
      assert WorkerOk(s.rows, s.requests, w, s.workers[w]);
      match reply {
        case Ack(status) =>
          if s.requests[request].fate == Accepted {
            assert OnBroker(s.requests, orderId);
            MoveSound(s, w, Recording(orderId, status));
          }
        case NonRetryable => MoveSound(s, w, Refused(orderId));
        case Fault => MoveSound(s, w, Doubtful(orderId));
      }
    }
  }

  lemma MarkUnknownSound(s: State, w: WorkerId, written: bool)
    requires Sound(s)
    ensures Sound(ApplyMarkUnknown(s, w, written))
  {
    if w in s.workers && s.workers[w].pc.Doubtful? {
      var o := s.workers[w].pc.orderId;
      assert WorkerOk(s.rows, s.requests, w, s.workers[w]);
      WriteSound(s, o, WriteStatus(s.rows[o], AckUnknown));
      MoveSound(if written then WriteRow(s, o, AckUnknown) else s, w, Rescanning(o));
    }
  }

  lemma MarkRejectedSound(s: State, w: WorkerId, written: bool)
    requires Sound(s)
    ensures Sound(ApplyMarkRejected(s, w, written))
  {
    if w in s.workers && s.workers[w].pc.Refused? {
      var o := s.workers[w].pc.orderId;
      assert WorkerOk(s.rows, s.requests, w, s.workers[w]);
      WriteSound(s, o, WriteStatus(s.rows[o], Rejected));
      EndSound(if written then WriteRow(s, o, Rejected) else s, w);
    }
  }

  lemma RecordSound(s: State, w: WorkerId, written: bool)
    requires Sound(s)
    ensures Sound(ApplyRecord(s, w, written))
  {
    if w in s.workers && s.workers[w].pc.Recording? {
      var Recording(o, seen) := s.workers[w].pc;
      assert WorkerOk(s.rows, s.requests, w, s.workers[w]);
      WriteSound(s, o, WriteStatus(s.rows[o], seen).(hasBrokerId := true));
      EndSound(if written then RecordRow(s, o, seen) else s, w);
    }
  }

  lemma PaperSound(s: State, step: Step)
    requires Sound(s) && (step.PaperSubmit? || step.PaperRecord?)
    ensures Sound(Apply(s, step))
  {
    match step {
      case PaperSubmit(signal, decision, newId) =>
        if CanSubmit(s, signal, newId) { SubmitSound(s, signal, decision, newId, true); }
      case PaperRecord(o, status) =>
        if o in s.rows { WriteSound(s, o, WriteStatus(s.rows[o], status).(hasBrokerId := true)); }
    }
  }

  lemma ReportSound(s: State, o: OrderId, status: Status)
    requires Sound(s)
    ensures Sound(Apply(s, Report(o, status)))
  {
    if o in s.rows { WriteSound(s, o, WriteStatus(s.rows[o], status)); }
  }

  lemma SweepSound(s: State, step: Step)
    requires Sound(s) && (step.SweepPending? || step.SweepPlaced?)
    ensures Sound(Apply(s, step))
  {
    var o := step.orderId;
    if o in s.rows { WriteSound(s, o, WriteStatus(s.rows[o], Cancelled)); }
  }

  lemma SpawnStepSound(s: State, step: Step)
    requires Sound(s) && (step.Deliver? || step.Reconcile? || step.Restart?)
    ensures Sound(Apply(s, step))
  {
    match step {
      case Deliver(p, signal, decision) => SpawnSound(s, Worker(p, signal, decision, Entered));
      case Reconcile(p, o, listed) =>
        if o in s.rows {
          var row := s.rows[o];
          WriteSound(s, o, WriteStatus(row, Rejected));
          SpawnSound(s, Worker(p, row.signal, row.decision, Entered));
          SpawnSound(s, Worker(p, row.signal, row.decision, Rescanning(o)));
        }
      case Restart(p, durable) =>
    }
  }

  lemma StepSound(s: State, step: Step)
    requires Sound(s)
    ensures Sound(Apply(s, step))
  {
    match step {
      case Enter(_, _) => ReadAndSubmitSound(s, step);
      case Read(_, _) => ReadAndSubmitSound(s, step);
      case Submit(_, _) => ReadAndSubmitSound(s, step);
      case Gate(w) => GateSound(s, w);
      case Lookup(w, hit) => LookupSound(s, w, hit);
      case Answer(w, reply) => AnswerSound(s, w, reply);
      case Rescan(w, hit) => RescanSound(s, w, hit);
      case Place(w) => PlaceSound(s, w);
      case MarkUnknown(w, written) => MarkUnknownSound(s, w, written);
      case MarkRejected(w, written) => MarkRejectedSound(s, w, written);
      case Record(w, written) => RecordSound(s, w, written);
      case Stop(w) => EndSound(s, w);
      case Resolve(i, accepted) => ResolveSound(s, i, accepted);
      case Report(o, status) => ReportSound(s, o, status);
      case PaperSubmit(_, _, _) => PaperSound(s, step);
      case PaperRecord(_, _) => PaperSound(s, step);
      case SweepPending(_) => SweepSound(s, step);
      case SweepPlaced(_) => SweepSound(s, step);
      case Deliver(_, _, _) => SpawnStepSound(s, step);
      case Reconcile(_, _, _) => SpawnStepSound(s, step);
      case Restart(_, _) => SpawnStepSound(s, step);
      case PollDurable(_, _) =>
      case Activate(_) =>
      case Clear(_) =>
    }
  }

  lemma {:induction false} RunSound(s: State, run: seq<Step>)
    requires Sound(s)
    ensures Sound(Run(s, run))
    decreases |run|
  {
    if run != [] {
      StepSound(s, run[0]);
      RunSound(Apply(s, run[0]), run[1..]);
    }
  }
}
