/** When the order of a simulated trade can reach the real broker. */
module PaperIsolation {
  import opened Wrappers
  import opened Orders
  import opened OrderProtocol
  import opened OrderProtocolInvariant
  import opened OrderSafety

  /** The row a handler would read for its signal is a paper row. */
  predicate OnPaperRow(s: State, w: WorkerId) {
    w in s.workers && s.workers[w].signal in s.locks && s.locks[s.workers[w].signal] in s.rows &&
    s.rows[s.locks[s.workers[w].signal]].paper
  }

  /** A handler of the live path reads a paper row as PENDING. */
  predicate RetriesPaper(s: State, step: Step) {
    step.Read? && step.row == Some(Pending) && OnPaperRow(s, step.w)
  }

  predicate NoPaperRetry(s: State, step: Step) {
    !RetriesPaper(s, step)
  }

  /** No handler is on its way to placing a paper row. */
  ghost predicate PaperUnarmed(s: State) {
    forall w :: w in s.workers && Placing(s.workers[w].pc) && s.workers[w].pc.orderId in s.rows ==>
      !s.rows[s.workers[w].pc.orderId].paper
  }

  ghost predicate PaperUnplaced(s: State) {
    forall i :: 0 <= i < |s.requests| ==>
      s.requests[i].key.orderId in s.rows && !s.rows[s.requests[i].key.orderId].paper
  }

  /** A row written by submit_order for a handler is not a paper row. */
  lemma NewRowsAreLive(s: State, step: Step, t: State, w: WorkerId, o: OrderId)
    requires RowsShape(s, step, t) && step == Submit(w, o) && o !in s.rows && o in t.rows
    ensures !t.rows[o].paper
  {
  }

  lemma UnarmedStep(s: State, step: Step, t: State)
    requires WorkersShape(s, step, t) && RowsShape(s, step, t) && WorkersOk(s) && Keyed(s.rows, s.locks)
    requires PaperUnarmed(s) && NoPaperRetry(s, step)
    ensures PaperUnarmed(t)
  {
    forall w | w in t.workers && Placing(t.workers[w].pc) && t.workers[w].pc.orderId in t.rows
      ensures !t.rows[t.workers[w].pc.orderId].paper
    {
      var o := t.workers[w].pc.orderId;
      assert WorkerShape(s, step, w, t.workers[w]);
      if o in s.rows {
        assert RowShape(s, step, o, t.rows[o]);
      } else {
        assert WorkerOk(s.rows, s.requests, w, s.workers[w]);
        NewRowsAreLive(s, step, t, w, o);
      }
    }
  }

  lemma UnplacedStep(s: State, step: Step, t: State)
    requires RequestsShape(s, step, t) && RowsShape(s, step, t) && WorkersOk(s)
    requires PaperUnarmed(s) && PaperUnplaced(s)
    ensures PaperUnplaced(t)
  {
    forall i | 0 <= i < |t.requests|
      ensures t.requests[i].key.orderId in t.rows && !t.rows[t.requests[i].key.orderId].paper
    {
      var o := t.requests[i].key.orderId;
      if i < |s.requests| {
        assert o == s.requests[i].key.orderId;
      } else {
        assert WorkerOk(s.rows, s.requests, step.w, s.workers[step.w]);
      }
      assert RowShape(s, step, o, t.rows[o]);
    }
  }

  lemma {:induction false} IsolatedRun(s: State, run: seq<Step>)
    requires Sound(s) && PaperUnarmed(s) && PaperUnplaced(s) && Throughout(NoPaperRetry, s, run)
    ensures PaperUnarmed(Run(s, run)) && PaperUnplaced(Run(s, run))
    decreases |run|
  {
    if run != [] {
      var t := Apply(s, run[0]);
      StepShape(s, run[0]);
      UnarmedStep(s, run[0], t);
      UnplacedStep(s, run[0], t);
      IsolatedRun(t, run[1..]);
    }
  }

  /**
   * Over every run in which no handler of the live path, delivered or reconciling, reads a
   * paper row as PENDING, nothing handed to the broker carries a paper row's key.
   */
  lemma PaperStaysIsolated(run: seq<Step>, i: nat)
    requires Throughout(NoPaperRetry, EMPTY_STATE, run) && i < |Run(EMPTY_STATE, run).requests|
    ensures var s := Run(EMPTY_STATE, run);
            s.requests[i].key.orderId in s.rows && !s.rows[s.requests[i].key.orderId].paper
  {
    IsolatedRun(EMPTY_STATE, run);
  }

  /**
   * Isolation breaks at a step exactly when a handler that is about to read does read a
   * PENDING status of a paper row.
   */
  lemma BreaksExactly(s: State, step: Step)
    requires Sound(s) && PaperUnarmed(s)
    ensures PaperUnarmed(Apply(s, step)) <==>
            !(RetriesPaper(s, step) && s.workers[step.w].pc == Reading &&
                CanRead(s, s.workers[step.w].signal, Some(Pending)))
  {
    var t := Apply(s, step);
    StepShape(s, step);
    if RetriesPaper(s, step) {
      var w := step.w;
      var o := s.locks[s.workers[w].signal];
      if s.workers[w].pc == Reading && CanRead(s, s.workers[w].signal, Some(Pending)) {
        assert t == MoveTo(s, w, AtGate(o));
        assert t.workers[w].pc == AtGate(o) && t.rows[o].paper;
      } else {
        assert t == s;
      }
    } else {
      UnarmedStep(s, step, t);
    }
  }

  // ---- with current reads ----

  /** A live handler does not read a paper row before the simulated fill is recorded. */
  predicate PaperRecordedFirst(s: State, step: Step) {
    step.Read? && OnPaperRow(s, step.w) ==> s.rows[s.locks[s.workers[step.w].signal]].status != Pending
  }

  predicate CurrentAndRecorded(s: State, step: Step) {
    FreshRead(s, step) && PaperRecordedFirst(s, step)
  }

  lemma {:induction false} RecordedNeverRetries(s: State, run: seq<Step>)
    requires Throughout(CurrentAndRecorded, s, run)
    ensures Throughout(NoPaperRetry, s, run)
    decreases |run|
  {
    if run != [] {
      RecordedNeverRetries(Apply(s, run[0]), run[1..]);
    }
  }

  /**
   * With current reads, paper rows stay isolated whenever no handler reads them between
   * submit_order and record_order: startup reconciliation breaks isolation only for a row
   * that a crash left PENDING.
   */
  lemma RecordedPaperStaysIsolated(run: seq<Step>, i: nat)
    requires Throughout(CurrentAndRecorded, EMPTY_STATE, run) && i < |Run(EMPTY_STATE, run).requests|
    ensures var s := Run(EMPTY_STATE, run);
            s.requests[i].key.orderId in s.rows && !s.rows[s.requests[i].key.orderId].paper
  {
    RecordedNeverRetries(EMPTY_STATE, run);
    PaperStaysIsolated(run, i);
  }
}
