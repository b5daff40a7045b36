/** When the offset of a signal may be committed while its reservation is still PENDING. */
module RiskOffsets {
  import opened Wrappers
  import opened RiskPipeline
  import opened RiskOutbox
  import opened RiskOutboxSafety

  // ---- conditions, stated step by step ----

  type Condition = (State, Step) -> bool

  ghost predicate Throughout(c: Condition, s: State, run: seq<Step>)
    decreases |run|
  {
    run == [] || (c(s, run[0]) && Throughout(c, Apply(s, run[0]), run[1..]))
  }

  predicate Live(s: State, signal: SignalId) {
    exists w :: w in s.workers && s.workers[w].signal == signal
  }

  /** A message is polled only when no handler of any instance is live for its signal. */
  predicate OneHandler(s: State, step: Step) {
    step.Poll? ==> !Live(s, step.signal)
  }

  function Actual(s: State, signal: SignalId): Option<Reservation> {
    if signal in s.reservations then Some(s.reservations[signal]) else None
  }

  /** A read shows the reservation as it is, or that there is none. */
  predicate CurrentRead(s: State, step: Step) {
    step.Read? && step.w in s.workers ==> step.seen == Actual(s, s.workers[step.w].signal)
  }

  // ---- the invariant ----

  ghost predicate Alone(s: State) {
    (forall w :: w in s.workers ==> w < s.spawned) &&
    (forall v, w :: v in s.workers && w in s.workers && s.workers[v].signal == s.workers[w].signal ==> v == w)
  }

  /** A handler gets here only after it found no reservation, and before it writes one. */
  predicate FoundNone(pc: Pc) {
    pc.Unreserved? || pc.Reserving? || pc.Expired? || pc.Stale? ||
    (pc.Committing? && (pc.why.Refused? || pc.why.DeadLettered?))
  }

  ghost predicate NoneStays(s: State) {
    forall w :: w in s.workers && FoundNone(s.workers[w].pc) ==> s.workers[w].signal !in s.reservations
  }

  /** A handler after the step was there before, with its signal, or was just started by a poll. */
  ghost predicate Known(s: State, step: Step, w: WorkerId, now: Worker) {
    if w in s.workers then now.signal == s.workers[w].signal
    else step.Poll? && w == s.spawned && now.signal == step.signal && now.pc == Polled
  }

  lemma RoutedWorker(s: State, step: Step, w: WorkerId)
    requires RouteStep(step) && w in Apply(s, step).workers
    ensures Known(s, step, w, Apply(s, step).workers[w])
    ensures FoundNone(Apply(s, step).workers[w].pc) ==> FoundNone(s.workers[w].pc)
  {
  }

  lemma ReadWorker(s: State, step: Step, w: WorkerId)
    requires s.spawned !in s.workers && (step.Poll? || step.Read? || step.Validate?) && w in Apply(s, step).workers
    ensures Known(s, step, w, Apply(s, step).workers[w])
    ensures FoundNone(Apply(s, step).workers[w].pc) ==>
              w in s.workers && (FoundNone(s.workers[w].pc) || (s.workers[w].pc == Polled && step == Read(w, None)))
  {
  }

  lemma SendingWorker(s: State, step: Step, w: WorkerId)
    requires !RouteStep(step) && !step.Poll? && !step.Read? && !step.Validate? && w in Apply(s, step).workers
    ensures Known(s, step, w, Apply(s, step).workers[w])
    ensures FoundNone(Apply(s, step).workers[w].pc) ==> FoundNone(s.workers[w].pc)
  {
  }

  /** The only way into the region is the read that found nothing. */
  lemma EntersByRead(s: State, step: Step, w: WorkerId)
    requires s.spawned !in s.workers && w in Apply(s, step).workers
    ensures Known(s, step, w, Apply(s, step).workers[w])
    ensures FoundNone(Apply(s, step).workers[w].pc) ==>
              w in s.workers && (FoundNone(s.workers[w].pc) || (s.workers[w].pc == Polled && step == Read(w, None)))
  {
    if RouteStep(step) { RoutedWorker(s, step, w); }
    else if step.Poll? || step.Read? || step.Validate? { ReadWorker(s, step, w); }
    else { SendingWorker(s, step, w); }
  }

  lemma SpawnedCounts(s: State, step: Step)
    ensures Apply(s, step).spawned == s.spawned + if step.Poll? then 1 else 0
  {
  }

  lemma AloneStep(s: State, step: Step)
    requires Alone(s) && OneHandler(s, step)
    ensures Alone(Apply(s, step))
  {
    var t := Apply(s, step);
    SpawnedCounts(s, step);
    forall w | w in t.workers ensures Known(s, step, w, t.workers[w]) {
      EntersByRead(s, step, w);
    }
  }

  /** A new reservation comes from a handler that stood before its conditional put. */
  lemma NewReservation(s: State, step: Step, signal: SignalId)
    requires signal in Apply(s, step).reservations && signal !in s.reservations
    ensures step.Reserve? && step.w in s.workers && s.workers[step.w].signal == signal &&
        s.workers[step.w].pc.Reserving?
    ensures step.w in Apply(s, step).workers ==> !FoundNone(Apply(s, step).workers[step.w].pc)
    ensures forall w :: w in Apply(s, step).workers && w != step.w ==>
              w in s.workers && Apply(s, step).workers[w] == s.workers[w]
  {
  }

  lemma NoneStaysStep(s: State, step: Step)
    requires Alone(s) && NoneStays(s) && CurrentRead(s, step)
    ensures NoneStays(Apply(s, step))
  {
    var t := Apply(s, step);
    forall w | w in t.workers && FoundNone(t.workers[w].pc) ensures t.workers[w].signal !in t.reservations {
      EntersByRead(s, step, w);
      var signal := t.workers[w].signal;
      if signal in t.reservations && signal !in s.reservations {
        NewReservation(s, step, signal);
      }
    }
  }

  predicate Orderly(s: State, step: Step) {
    OneHandler(s, step) && CurrentRead(s, step)
  }

  lemma {:induction false} OrderlyRun(s: State, run: seq<Step>)
    requires Sound(s) && Alone(s) && NoneStays(s) && Throughout(Orderly, s, run)
    ensures Sound(Run(s, run)) && Alone(Run(s, run)) && NoneStays(Run(s, run))
    decreases |run|
  {
    if run != [] {
      StepSound(s, run[0]);
      AloneStep(s, run[0]);
      NoneStaysStep(s, run[0]);
      OrderlyRun(Apply(s, run[0]), run[1..]);
    }
  }

  /**
   * With one live handler per signal and current reads, an offset that is committed while
   * the signal's reservation is PENDING, by whichever delivery, was handed to retry: the
   * fallback loop commits only what retry took, the enriched loop whatever retry answered.
   */
  lemma PendingOffsetsWentToRetry(start: State, run: seq<Step>, w: WorkerId)
    requires Start(start) && Throughout(Orderly, start, run)
    requires var s := Run(start, run);
             w in s.workers && s.workers[w].pc.Committing? && s.workers[w].signal in s.reservations &&
             s.reservations[s.workers[w].signal].status == Pending
    ensures var s := Run(start, run);
            var why := s.workers[w].pc.why;
            why.Retried? && (s.workers[w].loop == Fallback ==> why.routed) &&
            Apply(s, CommitOffset(w)).committed ==
              s.committed + [Commit(s.workers[w].loop, s.workers[w].signal, s.workers[w].approved, why)]
  {
    StartSound(start);
    OrderlyRun(start, run);
    var s := Run(start, run);
    assert WorkerOk(s.reservations, s.events, s.passes, s.workers[w]);
  }

  // ---- without a condition ----

  predicate Misses(s: State, step: Step) {
    step.Read? && step.seen == None && step.w in s.workers && s.workers[step.w].pc == Polled
  }

  /** The handlers whose first read found no reservation. */
  ghost function Missed(s: State, run: seq<Step>): set<WorkerId>
    decreases |run|
  {
    if run == [] then {}
    else (if Misses(s, run[0]) then {run[0].w} else {}) + Missed(Apply(s, run[0]), run[1..])
  }

  lemma {:induction false} FoundNoneMissed(s: State, run: seq<Step>, w: WorkerId)
    requires Sound(s) && w in Run(s, run).workers && FoundNone(Run(s, run).workers[w].pc)
    ensures w in Missed(s, run) || (w in s.workers && FoundNone(s.workers[w].pc))
    decreases |run|
  {
    if run != [] {
      var t := Apply(s, run[0]);
      StepSound(s, run[0]);
      FoundNoneMissed(t, run[1..], w);
      if w in t.workers {
        EntersByRead(s, run[0], w);
      }
    }
  }

  /**
   * In every run, a handler of either loop comes to commit while the signal's reservation is
   * PENDING without having tried retry if and only if its first read had found none and its
   * own pass ended in a refusal or a dead letter.
   */
  lemma PendingWithoutRetryExactly(start: State, run: seq<Step>, w: WorkerId)
    requires Start(start)
    requires var s := Run(start, run);
             w in s.workers && s.workers[w].pc.Committing? && s.workers[w].signal in s.reservations &&
             s.reservations[s.workers[w].signal].status == Pending
    ensures var why := Run(start, run).workers[w].pc.why;
            !why.Retried? <==> w in Missed(start, run) && (why.Refused? || why.DeadLettered?)
  {
    StartSound(start);
    RunMoves(start, run);
    var s := Run(start, run);
    assert WorkerOk(s.reservations, s.events, s.passes, s.workers[w]);
    if FoundNone(s.workers[w].pc) { FoundNoneMissed(start, run, w); }
  }

  // ---- each condition is needed ----

  /** Some run from a start leads to `t` and meets the condition at every step. */
  ghost predicate Leads(c: Condition, t: State) {
    exists start, run :: Start(start) && Throughout(c, start, run) && Run(start, run) == t
  }

  lemma {:induction false} Snoc(c: Condition, s: State, run: seq<Step>, a: Step)
    requires Throughout(c, s, run) && c(Run(s, run), a)
    ensures Throughout(c, s, run + [a]) && Run(s, run + [a]) == Apply(Run(s, run), a)
    decreases |run|
  {
    var t := Apply(s, (run + [a])[0]);
    if run == [] {
      assert (run + [a])[1..] == [];
      assert Throughout(c, t, []) && Run(t, []) == t;
    } else {
      assert (run + [a])[1..] == run[1..] + [a];
      Snoc(c, t, run[1..], a);
    }
  }

  lemma Then(c: Condition, t: State, a: Step)
    requires Leads(c, t) && c(t, a)
    ensures Leads(c, Apply(t, a))
  {
    var start, run :| Start(start) && Throughout(c, start, run) && Run(start, run) == t;
    Snoc(c, start, run, a);
  }

  const ALL_PASS := Inputs(_ => true, false, false)

  /** A state of the one signal "sig": reserved and passed or not, with the given handlers. */
  function On(reserved: bool, workers: map<WorkerId, Worker>, spawned: nat): State {
    State(if reserved then map["sig" := Reservation("id", Pending)] else map[], [],
          if reserved then map["id" := Pass("sig", ALL_PASS)] else map[], workers, spawned, [])
  }

  function H(pc: Pc): Worker {
    Worker(Fallback, "sig", false, pc)
  }

  const VALIDATED: Step := Validate(0, "id", ALL_PASS, Approved(Trail(ALL_PASS, CHECKS)))

  /** Handler 0 after its approving pass, and after its conditional put. */
  function Passed(rest: map<WorkerId, Worker>, n: nat): State {
    On(true, rest[0 := Worker(Fallback, "sig", true, Reserving("id"))], n).(reservations := map[])
  }

  function Put(rest: map<WorkerId, Worker>, n: nat): State {
    On(true, rest[0 := Worker(Fallback, "sig", true, Publishing("id"))], n)
  }

  lemma PassStep(rest: map<WorkerId, Worker>, n: nat)
    ensures Apply(On(false, rest[0 := H(Unreserved)], n), VALIDATED) == Passed(rest, n)
  {
    assert Decides(ALL_PASS, VALIDATED.decision);
    var s := On(false, rest[0 := H(Unreserved)], n);
    var t := ApplyValidate(s, 0, "id", ALL_PASS, VALIDATED.decision);
    assert t.workers == Passed(rest, n).workers && t.passes == Passed(rest, n).passes;
  }

  lemma PutStep(rest: map<WorkerId, Worker>, n: nat)
    ensures Apply(Passed(rest, n), Reserve(0, Done)) == Put(rest, n)
  {
    var t := ApplyReserve(Passed(rest, n), 0, Done);
    assert t.workers == Put(rest, n).workers && t.reservations == Put(rest, n).reservations;
  }

  lemma StopStep(rest: map<WorkerId, Worker>, n: nat)
    requires 0 !in rest
    ensures Apply(Put(rest, n), Stop(0)) == On(true, rest, n)
  {
    assert End(Put(rest, n), 0).workers == rest;
  }

  /** A pass of handler 0 that approves and reserves and then dies, while `rest` stands by. */
  lemma ReservesFrom(c: Condition, rest: map<WorkerId, Worker>, n: nat)
    requires 0 !in rest && Leads(c, On(false, rest[0 := H(Unreserved)], n))
    requires forall s: State, step: Step :: step.Validate? || step.Reserve? || step.Stop? ==> c(s, step)
    ensures Leads(c, On(true, rest, n))
  {
    Then(c, On(false, rest[0 := H(Unreserved)], n), VALIDATED);
    PassStep(rest, n);
    Then(c, Passed(rest, n), Reserve(0, Done));
    PutStep(rest, n);
    Then(c, Put(rest, n), Stop(0));
    StopStep(rest, n);
  }

  /** Committed without any event and without retry, although the reservation is PENDING. */
  ghost predicate PendingDropped(t: State) {
    t.reservations == map["sig" := Reservation("id", Pending)] && t.events == [] &&
    t.committed == [Commit(Fallback, "sig", false, DeadLettered(true))]
  }

  function Late(pc: Pc): State {
    On(true, map[1 := H(pc)], 2)
  }

  lemma ExpireStep()
    ensures Apply(Late(Unreserved), Expire(1)) == Late(Expired)
  {
    assert ApplyExpire(Late(Unreserved), 1).workers == Late(Expired).workers;
  }

  lemma DeadLetterStep()
    ensures Apply(Late(Expired), DeadLetter(1, true)) == Late(Committing(DeadLettered(true)))
  {
    assert ApplyDeadLetter(Late(Expired), 1, true).workers == Late(Committing(DeadLettered(true))).workers;
  }

  lemma DroppedStep()
    ensures PendingDropped(Apply(Late(Committing(DeadLettered(true))), CommitOffset(1)))
  {
  }

  /** An expired handler dead-letters and commits. */
  lemma ExpiresFrom(c: Condition)
    requires Leads(c, Late(Unreserved))
    requires forall s: State, step: Step :: step.Expire? || step.DeadLetter? || step.CommitOffset? ==> c(s, step)
    ensures exists t :: Leads(c, t) && PendingDropped(t)
  {
    Then(c, Late(Unreserved), Expire(1));
    ExpireStep();
    Then(c, Late(Expired), DeadLetter(1, true));
    DeadLetterStep();
    Then(c, Late(Committing(DeadLettered(true))), CommitOffset(1));
    DroppedStep();
  }

  /** A poll starts handler `n`; its read finds nothing. */
  lemma PollStep(reserved: bool, workers: map<WorkerId, Worker>, n: nat)
    ensures Apply(On(reserved, workers, n), Poll(Fallback, "sig")) == On(reserved, workers[n := H(Polled)], n + 1)
  {
  }

  lemma MissStep(reserved: bool, workers: map<WorkerId, Worker>, n: nat, w: WorkerId)
    requires w in workers && workers[w] == H(Polled)
    ensures Apply(On(reserved, workers, n), Read(w, None)) == On(reserved, workers[w := H(Unreserved)], n)
  {
    assert ApplyRead(On(reserved, workers, n), w, None).workers == workers[w := H(Unreserved)];
  }

  lemma FirstPolled(c: Condition)
    requires c(On(false, map[], 0), Poll(Fallback, "sig"))
    ensures Leads(c, On(false, map[0 := H(Polled)], 1))
  {
    var s := On(false, map[], 0);
    assert Start(s) && Throughout(c, s, []) && Run(s, []) == s;
    Then(c, s, Poll(Fallback, "sig"));
    var none: map<WorkerId, Worker> := map[];
    PollStep(false, none, 0);
    assert none[0 := H(Polled)] == map[0 := H(Polled)];
  }

  lemma FirstDied()
    ensures Leads(OneHandler, On(true, map[], 1))
  {
    var c := OneHandler;
    var none: map<WorkerId, Worker> := map[];
    FirstPolled(c);
    Then(c, On(false, map[0 := H(Polled)], 1), Read(0, None));
    MissStep(false, map[0 := H(Polled)], 1, 0);
    assert map[0 := H(Polled)][0 := H(Unreserved)] == none[0 := H(Unreserved)];
    ReservesFrom(c, none, 1);
  }

  /**
   * Current reads are needed: the reservation is made by a handler that dies, a stale read
   * of the next delivery finds none, and the expired message is dead-lettered.
   */
  lemma StaleReadDropsPending()
    ensures exists t :: Leads(OneHandler, t) && PendingDropped(t)
  {
    var c := OneHandler;
    var none: map<WorkerId, Worker> := map[];
    FirstDied();
    Then(c, On(true, none, 1), Poll(Fallback, "sig"));
    PollStep(true, none, 1);
    Then(c, On(true, none[1 := H(Polled)], 2), Read(1, None));
    MissStep(true, none[1 := H(Polled)], 2, 1);
    assert none[1 := H(Polled)][1 := H(Unreserved)] == map[1 := H(Unreserved)];
    ExpiresFrom(c);
  }

  lemma BothMissed()
    ensures Leads(CurrentRead, On(false, map[1 := H(Unreserved)][0 := H(Unreserved)], 2))
  {
    var c := CurrentRead;
    var both := map[0 := H(Polled)][1 := H(Polled)];
    FirstPolled(c);
    Then(c, On(false, map[0 := H(Polled)], 1), Poll(Fallback, "sig"));
    PollStep(false, map[0 := H(Polled)], 1);
    Then(c, On(false, both, 2), Read(1, None));
    MissStep(false, both, 2, 1);
    Then(c, On(false, both[1 := H(Unreserved)], 2), Read(0, None));
    MissStep(false, both[1 := H(Unreserved)], 2, 0);
    assert both[1 := H(Unreserved)][0 := H(Unreserved)] == map[1 := H(Unreserved)][0 := H(Unreserved)];
  }

  /** One handler is needed: two instances read before either has reserved. */
  lemma TwoHandlersDropPending()
    ensures exists t :: Leads(CurrentRead, t) && PendingDropped(t)
  {
    BothMissed();
    ReservesFrom(CurrentRead, map[1 := H(Unreserved)], 2);
    ExpiresFrom(CurrentRead);
  }
}
