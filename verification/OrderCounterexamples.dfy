/** Runs showing that each condition of the order-safety theorems is needed. */
module OrderCounterexamples {
  import opened Wrappers
  import opened Orders
  import opened OrderProtocol

  /** Some run leads from `s` to `t` and meets the condition at every step. */
  ghost predicate Leads(c: Condition, s: State, t: State) {
    exists run :: Throughout(c, s, run) && Run(s, run) == t
  }

  lemma Here(c: Condition, s: State)
    ensures Leads(c, s, s)
  {
    assert Throughout(c, s, []) && Run(s, []) == s;
  }

  lemma Then(c: Condition, s: State, t: State, a: Step)
    requires Leads(c, s, t) && c(t, a)
    ensures Leads(c, s, Apply(t, a))
  {
    var run :| Throughout(c, s, run) && Run(s, run) == t;
    Snoc(c, s, run, a);
  }

  predicate OneWorkerFreshRead(s: State, step: Step) {
    OneWorker(s, step) && FreshRead(s, step)
  }

  const ROW := Row("sig", "dec", Pending, {Pending}, false, false)

  /** Handler `w`, in a process of its own. */
  function H(w: WorkerId, pc: Pc): Worker {
    Worker(w, "sig", "dec", pc)
  }

  /** The row and its reservation exist, and the given handlers are live. */
  function With(row: Row, requests: seq<Request>, workers: map<WorkerId, Worker>, spawned: nat): State {
    State(map["ord" := row], map["sig" := "ord"], requests, workers, spawned, {})
  }

  function Req(w: WorkerId, fate: Fate): Request {
    Request(BrokerKey("ord"), "sig", "dec", w, w, fate)
  }

  // ---- what the pieces of a handler do ----

  lemma FirstEntered(c: Condition)
    requires c(EMPTY_STATE, Deliver(0, "sig", "dec"))
    ensures Leads(c, EMPTY_STATE, EMPTY_STATE.(workers := map[0 := Worker(0, "sig", "dec", Entered)], spawned := 1))
  {
    Here(c, EMPTY_STATE);
    Then(c, EMPTY_STATE, EMPTY_STATE, Deliver(0, "sig", "dec"));
    assert Apply(EMPTY_STATE, Deliver(0, "sig", "dec")).workers == map[0 := Worker(0, "sig", "dec", Entered)];
  }

  lemma FirstReading(c: Condition)
    requires c(EMPTY_STATE, Deliver(0, "sig", "dec"))
    requires forall s: State, step: Step :: step.Enter? || step.Submit? || step == Read(0, None) ==> c(s, step)
    ensures Leads(c, EMPTY_STATE, EMPTY_STATE.(workers := map[0 := Worker(0, "sig", "dec", Submitting)], spawned := 1))
  {
    FirstEntered(c);
    var s1 := EMPTY_STATE.(workers := map[0 := Worker(0, "sig", "dec", Entered)], spawned := 1);
    var s2 := EMPTY_STATE.(workers := map[0 := Worker(0, "sig", "dec", Reading)], spawned := 1);
    Then(c, EMPTY_STATE, s1, Enter(0, None));
    assert Apply(s1, Enter(0, None)) == s2;
    Then(c, EMPTY_STATE, s2, Read(0, None));
  }

  lemma FirstDelivery(c: Condition)
    requires c(EMPTY_STATE, Deliver(0, "sig", "dec"))
    requires forall s: State, step: Step :: step.Enter? || step.Submit? || step == Read(0, None) ==> c(s, step)
    ensures Leads(c, EMPTY_STATE, With(ROW, [], map[0 := H(0, AtGate("ord"))], 1))
  {
    FirstReading(c);
    var s3 := EMPTY_STATE.(workers := map[0 := Worker(0, "sig", "dec", Submitting)], spawned := 1);
    Then(c, EMPTY_STATE, s3, Submit(0, "ord"));
    assert Apply(s3, Submit(0, "ord")).workers == map[0 := H(0, AtGate("ord"))];
  }

  /** Delivery, entry and an index read that shows PENDING. */
  lemma NextDelivery(c: Condition, row: Row, requests: seq<Request>, workers: map<WorkerId, Worker>, n: nat)
    requires Leads(c, EMPTY_STATE, With(row, requests, workers, n)) && n !in workers && Pending in row.history
    requires c(With(row, requests, workers, n), Deliver(n, "sig", "dec"))
    requires c(With(row, requests, workers[n := H(n, Entered)], n + 1), Enter(n, None))
    requires c(With(row, requests, workers[n := H(n, Reading)], n + 1), Read(n, Some(Pending)))
    ensures Leads(c, EMPTY_STATE, With(row, requests, workers[n := H(n, AtGate("ord"))], n + 1))
  {
    var s0 := With(row, requests, workers, n);
    Then(c, EMPTY_STATE, s0, Deliver(n, "sig", "dec"));
    assert Apply(s0, Deliver(n, "sig", "dec")).workers == workers[n := H(n, Entered)];
    EnterAndRead(c, row, requests, workers, n);
  }

  lemma EnterAndRead(c: Condition, row: Row, requests: seq<Request>, workers: map<WorkerId, Worker>, n: nat)
    requires Leads(c, EMPTY_STATE, With(row, requests, workers[n := H(n, Entered)], n + 1)) && Pending in row.history
    requires c(With(row, requests, workers[n := H(n, Entered)], n + 1), Enter(n, None))
    requires c(With(row, requests, workers[n := H(n, Reading)], n + 1), Read(n, Some(Pending)))
    ensures Leads(c, EMPTY_STATE, With(row, requests, workers[n := H(n, AtGate("ord"))], n + 1))
  {
    var s1 := With(row, requests, workers[n := H(n, Entered)], n + 1);
    var s2 := With(row, requests, workers[n := H(n, Reading)], n + 1);
    Then(c, EMPTY_STATE, s1, Enter(n, None));
    assert Apply(s1, Enter(n, None)).workers == s2.workers;
    Then(c, EMPTY_STATE, s2, Read(n, Some(Pending)));
    assert Apply(s2, Read(n, Some(Pending))).workers == workers[n := H(n, AtGate("ord"))];
  }

  /** Gate passed, search missed. */
  lemma PassAndMiss(c: Condition, row: Row, requests: seq<Request>, workers: map<WorkerId, Worker>, n: nat, w: WorkerId)
    requires Leads(c, EMPTY_STATE, With(row, requests, workers, n)) && w in workers && workers[w] == H(w, AtGate("ord"))
    requires forall s: State, step: Step :: step.Gate? ==> c(s, step)
    requires c(With(row, requests, workers[w := H(w, LookingUp("ord"))], n), Lookup(w, None))
    ensures Leads(c, EMPTY_STATE, With(row, requests, workers[w := H(w, Waiting("ord"))], n))
  {
    var s1 := With(row, requests, workers[w := H(w, LookingUp("ord"))], n);
    Then(c, EMPTY_STATE, With(row, requests, workers, n), Gate(w));
    assert Apply(With(row, requests, workers, n), Gate(w)).workers == s1.workers;
    Then(c, EMPTY_STATE, s1, Lookup(w, None));
    assert Apply(s1, Lookup(w, None)).workers == workers[w := H(w, Waiting("ord"))];
  }

  /** The request is handed over and the broker accepts it. */
  lemma PlaceAndAccept(c: Condition, row: Row, requests: seq<Request>, workers: map<WorkerId, Worker>, n: nat,
      w: WorkerId)
    requires Leads(c, EMPTY_STATE, With(row, requests, workers, n)) && w in workers &&
        workers[w] == H(w, Waiting("ord"))
    requires forall s: State, step: Step :: step.Place? || step.Resolve? ==> c(s, step)
    ensures Leads(c, EMPTY_STATE,
      With(row, requests + [Req(w, Accepted)], workers[w := H(w, Calling("ord", |requests|))], n))
  {
    var s1 := With(row, requests + [Req(w, InFlight)], workers[w := H(w, Calling("ord", |requests|))], n);
    Then(c, EMPTY_STATE, With(row, requests, workers, n), Place(w));
    assert Apply(With(row, requests, workers, n), Place(w)).workers == s1.workers;
    Then(c, EMPTY_STATE, s1, Resolve(|requests|, true));
    assert Apply(s1, Resolve(|requests|, true)).requests == requests + [Req(w, Accepted)];
  }

  /** The condition allows what every first handler does. */
  ghost predicate AllowsHandlers(c: Condition) {
    && (forall s: State, step: Step ::
          step.Enter? || step.Submit? || step == Read(0, None) || step.Gate? || step.Place? || step.Resolve? ==>
              c(s, step))
    && c(EMPTY_STATE, Deliver(0, "sig", "dec"))
    && c(With(ROW, [], map[0 := H(0, LookingUp("ord"))], 1), Lookup(0, None))
  }

  predicate NoClear(s: State, step: Step) { !step.Clear? }

  lemma ConditionsAllowHandlers()
    ensures AllowsHandlers(OneWorker) && AllowsHandlers(OneWorkerFreshRead) && AllowsHandlers(NoClear)
  {
  }

  lemma FirstWaiting(c: Condition)
    requires AllowsHandlers(c)
    ensures Leads(c, EMPTY_STATE, With(ROW, [], map[0 := H(0, Waiting("ord"))], 1))
  {
    FirstDelivery(c);
    var w := map[0 := H(0, AtGate("ord"))];
    assert w[0 := H(0, LookingUp("ord"))] == map[0 := H(0, LookingUp("ord"))];
    PassAndMiss(c, ROW, [], w, 1, 0);
    assert w[0 := H(0, Waiting("ord"))] == map[0 := H(0, Waiting("ord"))];
  }

  lemma FirstPlaced(c: Condition)
    requires AllowsHandlers(c)
    ensures Leads(c, EMPTY_STATE, With(ROW, [Req(0, Accepted)], map[0 := H(0, Calling("ord", 0))], 1))
  {
    FirstWaiting(c);
    var w := map[0 := H(0, Waiting("ord"))];
    PlaceAndAccept(c, ROW, [], w, 1, 0);
    assert [] + [Req(0, Accepted)] == [Req(0, Accepted)];
    assert w[0 := H(0, Calling("ord", 0))] == map[0 := H(0, Calling("ord", 0))];
  }

  ghost predicate PlacedTwice(s: State) {
    |s.requests| == 2 && s.requests[0].fate == Accepted && s.requests[1].fate == Accepted &&
    s.requests[0].signal == s.requests[1].signal
  }

  lemma TwoAtGate()
    ensures Leads(LookupSees, EMPTY_STATE, With(ROW, [], map[0 := H(0, AtGate("ord")), 1 := H(1, AtGate("ord"))], 2))
  {
    FirstDelivery(LookupSees);
    NextDelivery(LookupSees, ROW, [], map[0 := H(0, AtGate("ord"))], 1);
    assert map[0 := H(0, AtGate("ord"))][1 := H(1, AtGate("ord"))] ==
        map[0 := H(0, AtGate("ord")), 1 := H(1, AtGate("ord"))];
  }

  lemma TwoWaiting()
    ensures Leads(LookupSees, EMPTY_STATE, With(ROW, [], map[0 := H(0, Waiting("ord")), 1 := H(1, Waiting("ord"))], 2))
  {
    TwoAtGate();
    var w := map[0 := H(0, AtGate("ord")), 1 := H(1, AtGate("ord"))];
    PassAndMiss(LookupSees, ROW, [], w, 2, 0);
    PassAndMiss(LookupSees, ROW, [], w[0 := H(0, Waiting("ord"))], 2, 1);
    assert w[0 := H(0, Waiting("ord"))][1 := H(1, Waiting("ord"))] ==
        map[0 := H(0, Waiting("ord")), 1 := H(1, Waiting("ord"))];
  }

  /** Two live handlers of one signal: two orders accepted, although every search sees everything. */
  lemma TwoWorkersPlaceTwice()
    ensures exists s :: Leads(LookupSees, EMPTY_STATE, s) && PlacedTwice(s)
  {
    TwoWaiting();
    var w := map[0 := H(0, Waiting("ord")), 1 := H(1, Waiting("ord"))];
    PlaceAndAccept(LookupSees, ROW, [], w, 2, 0);
    assert [] + [Req(0, Accepted)] == [Req(0, Accepted)];
    PlaceAndAccept(LookupSees, ROW, [Req(0, Accepted)], w[0 := H(0, Calling("ord", 0))], 2, 1);
    var s := With(ROW, [Req(0, Accepted)] + [Req(1, Accepted)],
        w[0 := H(0, Calling("ord", 0))][1 := H(1, Calling("ord", 1))], 2);
    assert PlacedTwice(s);
  }

  // ---- a search that misses an accepted order ----

  lemma CrashAfterPlace()
    ensures Leads(OneWorkerFreshRead, EMPTY_STATE, With(ROW, [Req(0, Accepted)], map[], 1))
  {
    var c := OneWorkerFreshRead;
    ConditionsAllowHandlers();
    FirstPlaced(c);
    var s := With(ROW, [Req(0, Accepted)], map[0 := H(0, Calling("ord", 0))], 1);
    Then(c, EMPTY_STATE, s, Stop(0));
    assert Apply(s, Stop(0)).workers == map[];
  }

  lemma MissedAfterCrash()
    ensures Leads(OneWorkerFreshRead, EMPTY_STATE, With(ROW, [Req(0, Accepted)], map[1 := H(1, Waiting("ord"))], 2))
  {
    var c := OneWorkerFreshRead;
    CrashAfterPlace();
    NextDelivery(c, ROW, [Req(0, Accepted)], map[], 1);
    var w: map<WorkerId, Worker> := map[];
    assert w[1 := H(1, AtGate("ord"))] == map[1 := H(1, AtGate("ord"))];
    PassAndMiss(c, ROW, [Req(0, Accepted)], map[1 := H(1, AtGate("ord"))], 2, 1);
    assert map[1 := H(1, AtGate("ord"))][1 := H(1, Waiting("ord"))] == map[1 := H(1, Waiting("ord"))];
  }

  /** One handler at a time and current reads, but a broker search that misses: two orders accepted. */
  lemma UnseenOrderIsPlacedTwice()
    ensures exists s :: Leads(OneWorkerFreshRead, EMPTY_STATE, s) && PlacedTwice(s)
  {
    MissedAfterCrash();
    PlaceAndAccept(OneWorkerFreshRead, ROW, [Req(0, Accepted)], map[1 := H(1, Waiting("ord"))], 2, 1);
    var s := With(ROW, [Req(0, Accepted)] + [Req(1, Accepted)],
        map[1 := H(1, Waiting("ord"))][1 := H(1, Calling("ord", 1))], 2);
    assert PlacedTwice(s);
  }

  // ---- a request that reaches the broker after the search ----

  /** A search misses only when no accepted order carries the key; requests in flight do not count. */
  predicate LookupSeesAccepted(s: State, step: Step) {
    match step
    case Lookup(w, None) =>
      w in s.workers && s.workers[w].pc.LookingUp? ==> !OnBroker(s.requests, s.workers[w].pc.orderId)
    case _ => true
  }

  predicate OnlyInFlightUnseen(s: State, step: Step) {
    OneWorker(s, step) && FreshRead(s, step) && LookupSeesAccepted(s, step)
  }

  lemma InFlightAllowsHandlers()
    ensures AllowsHandlers(OnlyInFlightUnseen)
  {
  }

  lemma PlacedInFlight()
    ensures Leads(OnlyInFlightUnseen, EMPTY_STATE, With(ROW, [Req(0, InFlight)], map[0 := H(0, Calling("ord", 0))], 1))
  {
    InFlightAllowsHandlers();
    FirstWaiting(OnlyInFlightUnseen);
    var s := With(ROW, [], map[0 := H(0, Waiting("ord"))], 1);
    Then(OnlyInFlightUnseen, EMPTY_STATE, s, Place(0));
    assert ApplyPlace(s, 0).workers == map[0 := H(0, Calling("ord", 0))];
    assert ApplyPlace(s, 0).requests == [Req(0, InFlight)];
  }

  lemma CrashInFlight()
    ensures Leads(OnlyInFlightUnseen, EMPTY_STATE, With(ROW, [Req(0, InFlight)], map[], 1))
  {
    PlacedInFlight();
    var s := With(ROW, [Req(0, InFlight)], map[0 := H(0, Calling("ord", 0))], 1);
    Then(OnlyInFlightUnseen, EMPTY_STATE, s, Stop(0));
    assert End(s, 0).workers == map[];
  }

  lemma MissedInFlight()
    ensures Leads(OnlyInFlightUnseen, EMPTY_STATE, With(ROW, [Req(0, InFlight)], map[1 := H(1, Waiting("ord"))], 2))
  {
    var c := OnlyInFlightUnseen;
    CrashInFlight();
    NextDelivery(c, ROW, [Req(0, InFlight)], map[], 1);
    var w: map<WorkerId, Worker> := map[];
    assert w[1 := H(1, AtGate("ord"))] == map[1 := H(1, AtGate("ord"))];
    assert !OnBroker([Req(0, InFlight)], "ord");
    PassAndMiss(c, ROW, [Req(0, InFlight)], map[1 := H(1, AtGate("ord"))], 2, 1);
    assert map[1 := H(1, AtGate("ord"))][1 := H(1, Waiting("ord"))] == map[1 := H(1, Waiting("ord"))];
  }

  /**
   * One handler at a time, current reads, and a search that sees every accepted order: a
   * request that is accepted only after the search still makes two.
   */
  lemma LateArrivalIsPlacedTwice()
    ensures exists s :: Leads(OnlyInFlightUnseen, EMPTY_STATE, s) && PlacedTwice(s)
  {
    var c := OnlyInFlightUnseen;
    MissedInFlight();
    var w := map[1 := H(1, Waiting("ord"))];
    var s1 := With(ROW, [Req(0, InFlight)], w, 2);
    Then(c, EMPTY_STATE, s1, Resolve(0, true));
    assert Apply(s1, Resolve(0, true)).requests == [Req(0, Accepted)];
    PlaceAndAccept(c, ROW, [Req(0, Accepted)], w, 2, 1);
    var s := With(ROW, [Req(0, Accepted)] + [Req(1, Accepted)], w[1 := H(1, Calling("ord", 1))], 2);
    assert PlacedTwice(s);
  }

  // ---- a stale read of an ACK_UNKNOWN row ----

  const DOUBTED := ROW.(status := AckUnknown, history := {Pending, AckUnknown})

  lemma PlacedInDoubt()
    ensures Leads(OneWorker, EMPTY_STATE, With(ROW, [Req(0, Accepted)], map[0 := H(0, Doubtful("ord"))], 1))
  {
    ConditionsAllowHandlers();
    FirstPlaced(OneWorker);
    var s := With(ROW, [Req(0, Accepted)], map[0 := H(0, Calling("ord", 0))], 1);
    Then(OneWorker, EMPTY_STATE, s, Answer(0, Fault));
    assert Apply(s, Answer(0, Fault)).workers == map[0 := H(0, Doubtful("ord"))];
  }

  lemma MarkedInDoubt()
    ensures Leads(OneWorker, EMPTY_STATE, With(DOUBTED, [Req(0, Accepted)], map[], 1))
  {
    var c := OneWorker;
    PlacedInDoubt();
    var s1 := With(ROW, [Req(0, Accepted)], map[0 := H(0, Doubtful("ord"))], 1);
    var s2 := With(DOUBTED, [Req(0, Accepted)], map[0 := H(0, Rescanning("ord"))], 1);
    Then(c, EMPTY_STATE, s1, MarkUnknown(0, true));
    assert WriteStatus(ROW, AckUnknown).history == DOUBTED.history;
    assert Apply(s1, MarkUnknown(0, true)).workers == s2.workers;
    assert Apply(s1, MarkUnknown(0, true)).rows == s2.rows;
    Then(c, EMPTY_STATE, s2, Rescan(0, None));
    assert Apply(s2, Rescan(0, None)).workers == map[];
  }

  lemma StaleWaiting()
    ensures Leads(OneWorker, EMPTY_STATE, With(DOUBTED, [Req(0, Accepted)], map[1 := H(1, Waiting("ord"))], 2))
  {
    var c := OneWorker;
    MarkedInDoubt();
    NextDelivery(c, DOUBTED, [Req(0, Accepted)], map[], 1);
    var w: map<WorkerId, Worker> := map[];
    assert w[1 := H(1, AtGate("ord"))] == map[1 := H(1, AtGate("ord"))];
    PassAndMiss(c, DOUBTED, [Req(0, Accepted)], map[1 := H(1, AtGate("ord"))], 2, 1);
    assert map[1 := H(1, AtGate("ord"))][1 := H(1, Waiting("ord"))] == map[1 := H(1, Waiting("ord"))];
  }

  /** An index read that still shows PENDING lets an ACK_UNKNOWN order be placed again. */
  lemma StaleReadPlacesAckUnknown()
    ensures exists s ::
      (Leads(OneWorker, EMPTY_STATE, s) && PlacedTwice(s) && "ord" in s.rows && s.rows["ord"].status == AckUnknown)
  {
    StaleWaiting();
    PlaceAndAccept(OneWorker, DOUBTED, [Req(0, Accepted)], map[1 := H(1, Waiting("ord"))], 2, 1);
    var s := With(DOUBTED, [Req(0, Accepted)] + [Req(1, Accepted)],
        map[1 := H(1, Waiting("ord"))][1 := H(1, Calling("ord", 1))], 2);
    assert PlacedTwice(s) && s.rows["ord"].status == AckUnknown;
  }

  // ---- a halt that was only local, and a paper row ----

  lemma RestartThen(run: seq<Step>, s: State)
    requires Throughout(NoClear, EMPTY_STATE, run) && Run(EMPTY_STATE, run) == s
    ensures Leads(NoClear, Apply(EMPTY_STATE, Activate(0)), s)
  {
    var halted := Apply(EMPTY_STATE, Activate(0));
    assert Apply(halted, Restart(0, None)) == EMPTY_STATE;
    var whole := [Restart(0, None)] + run;
    assert whole[1..] == run;
    assert Throughout(NoClear, halted, whole) && Run(halted, whole) == s;
  }

  /** A halt kept only in memory does not survive a restart whose durable read fails or is inactive. */
  lemma RestartForgetsLocalHalt()
    ensures exists s ::
      (Leads(NoClear, Apply(EMPTY_STATE, Activate(0)), s) && |s.requests| == 1 && s.requests[0].process == 0)
  {
    var c := NoClear;
    ConditionsAllowHandlers();
    FirstPlaced(c);
    var s := With(ROW, [Req(0, Accepted)], map[0 := H(0, Calling("ord", 0))], 1);
    var run :| Throughout(c, EMPTY_STATE, run) && Run(EMPTY_STATE, run) == s;
    RestartThen(run, s);
  }

  const PAPER_ROW := ROW.(paper := true)

  lemma PaperReconciled()
    ensures Leads(OneWorkerFreshRead, EMPTY_STATE, With(PAPER_ROW, [], map[0 := H(0, Entered)], 1))
  {
    var c := OneWorkerFreshRead;
    var s := With(PAPER_ROW, [], map[], 0);
    Here(c, EMPTY_STATE);
    Then(c, EMPTY_STATE, EMPTY_STATE, PaperSubmit("sig", "dec", "ord"));
    assert Apply(EMPTY_STATE, PaperSubmit("sig", "dec", "ord")) == s;
    Then(c, EMPTY_STATE, s, Reconcile(0, "ord", Pending));
    assert Apply(s, Reconcile(0, "ord", Pending)).workers == map[0 := H(0, Entered)];
  }

  lemma PaperWaiting()
    ensures Leads(OneWorkerFreshRead, EMPTY_STATE, With(PAPER_ROW, [], map[0 := H(0, Waiting("ord"))], 1))
  {
    var c := OneWorkerFreshRead;
    PaperReconciled();
    var w: map<WorkerId, Worker> := map[];
    assert w[0 := H(0, Entered)] == map[0 := H(0, Entered)];
    EnterAndRead(c, PAPER_ROW, [], w, 0);
    var w' := w[0 := H(0, AtGate("ord"))];
    PassAndMiss(c, PAPER_ROW, [], w', 1, 0);
    assert w'[0 := H(0, Waiting("ord"))] == map[0 := H(0, Waiting("ord"))];
  }

  /** A paper row left PENDING by a crash is handed to the real broker by startup reconciliation. */
  lemma PendingPaperRowReachesBroker()
    ensures exists s ::
      (Leads(OneWorkerFreshRead, EMPTY_STATE, s) && "ord" in s.rows && s.rows["ord"].paper &&
          OnBroker(s.requests, "ord"))
  {
    PaperWaiting();
    PlaceAndAccept(OneWorkerFreshRead, PAPER_ROW, [], map[0 := H(0, Waiting("ord"))], 1, 0);
    var s := With(PAPER_ROW, [] + [Req(0, Accepted)], map[0 := H(0, Waiting("ord"))][0 := H(0, Calling("ord", 0))], 1);
    assert s.requests[0].key == BrokerKey("ord") && s.requests[0].fate == Accepted;
    assert OnBroker(s.requests, "ord") && s.rows["ord"].paper;
  }
}
