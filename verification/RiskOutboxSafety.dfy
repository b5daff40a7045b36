/** Safety of the approval outbox over every interleaving, and recovery after any crash. */
module RiskOutboxSafety {
  import opened Wrappers
  import opened RiskPipeline
  import opened RiskOutbox

  type Reservations = map<SignalId, Reservation>
  type Passes = map<DecisionId, Pass>

  /** The id stands for a pass over this signal in which every check let it through. */
  ghost predicate ApprovedId(passes: Passes, signal: SignalId, id: DecisionId) {
    id != "" && id in passes && passes[id].signal == signal && Approves(passes[id].inputs)
  }

  /** This code wrote the reservation, with this id. */
  predicate Held(reservations: Reservations, signal: SignalId, id: DecisionId) {
    signal in reservations && reservations[signal].id == id && reservations[signal].status in {Pending, Published}
  }

  ghost predicate AckedAt(events: seq<Event>, signal: SignalId, id: DecisionId) {
    exists i :: 0 <= i < |events| && events[i] == Event(signal, id, true)
  }

  /** What an approved handler may leave behind: nothing PENDING. */
  predicate Settled(reservations: Reservations, loop: Loop, signal: SignalId) {
    signal in reservations && reservations[signal].status != Pending &&
    (loop == Fallback ==> reservations[signal].status in {Published, Legacy})
  }

  /** A commit is for a settled reservation, a refusal, or a routed message (enriched: a try to route). */
  predicate CommitOk(reservations: Reservations, commit: Commit) {
    && (commit.why == Handled ==> Settled(reservations, commit.loop, commit.signal))
    && (commit.approved ==> commit.why == Handled || commit.why.Retried?)
    && (commit.loop == Fallback && (commit.why.Retried? || commit.why.DeadLettered?) ==> commit.why.routed)
  }

  ghost predicate WorkerOk(reservations: Reservations, events: seq<Event>, passes: Passes, worker: Worker) {
    match worker.pc
    case Polled => !worker.approved
    case Unreserved => !worker.approved
    case Expired => !worker.approved
    case Stale => !worker.approved
    case Reserving(id) => ApprovedId(passes, worker.signal, id)
    case RaceLost => true
    case Publishing(id) => Held(reservations, worker.signal, id)
    case Marking(id) => Held(reservations, worker.signal, id) && AckedAt(events, worker.signal, id)
    case Failing => true
    case Committing(why) => CommitOk(reservations, Commit(worker.loop, worker.signal, worker.approved, why))
  }

  ghost predicate ReservationOk(events: seq<Event>, passes: Passes, signal: SignalId, r: Reservation) {
    && (r.status in {Pending, Published} ==> ApprovedId(passes, signal, r.id))
    && (r.status == Published ==> AckedAt(events, signal, r.id))
  }

  ghost predicate Sound(s: State) {
    && (forall signal :: signal in s.reservations ==>
          ReservationOk(s.events, s.passes, signal, s.reservations[signal]))
    && (forall i :: 0 <= i < |s.events| ==> Held(s.reservations, s.events[i].signal, s.events[i].id))
    && (forall w :: w in s.workers ==> w < s.spawned && WorkerOk(s.reservations, s.events, s.passes, s.workers[w]))
    && (forall i :: 0 <= i < |s.committed| ==> CommitOk(s.reservations, s.committed[i]))
  }

  // ---- how the shared state may move ----

  /** One reservation: absent, PENDING, PUBLISHED, and never another id. */
  predicate Forward(a: Reservation, b: Reservation) {
    a == b || (a.status == Pending && b == Reservation(a.id, Published))
  }

  ghost predicate Advances(a: Reservations, b: Reservations) {
    && (forall signal :: signal in a ==> signal in b && Forward(a[signal], b[signal]))
    && (forall signal :: signal in b && signal !in a ==> b[signal].status in {Pending, Published})
  }

  ghost predicate Moves(s: State, t: State) {
    && Advances(s.reservations, t.reservations)
    && s.events <= t.events && s.committed <= t.committed
    && (forall id :: id in s.passes ==> id in t.passes && t.passes[id] == s.passes[id])
  }

  lemma AckedKept(a: seq<Event>, b: seq<Event>)
    requires a <= b
    ensures forall signal, id :: AckedAt(a, signal, id) ==> AckedAt(b, signal, id)
  {
    forall signal, id | AckedAt(a, signal, id) ensures AckedAt(b, signal, id) {
      var i :| 0 <= i < |a| && a[i] == Event(signal, id, true);
      assert b[i] == a[i];
    }
  }

  /** Other handlers and old commits keep what they rely on. */
  lemma KeptByOthers(s: State, t: State)
    requires Sound(s) && Moves(s, t)
    ensures forall w :: w in s.workers ==> WorkerOk(t.reservations, t.events, t.passes, s.workers[w])
    ensures forall i :: 0 <= i < |s.committed| ==> CommitOk(t.reservations, s.committed[i])
    ensures forall i :: 0 <= i < |s.events| ==> Held(t.reservations, s.events[i].signal, s.events[i].id)
  {
    AckedKept(s.events, t.events);
    forall w | w in s.workers ensures WorkerOk(t.reservations, t.events, t.passes, s.workers[w]) {
      assert WorkerOk(s.reservations, s.events, s.passes, s.workers[w]);
    }
  }

  lemma MoveSound(s: State, w: WorkerId, pc: Pc)
    requires Sound(s) && w in s.workers
    requires WorkerOk(s.reservations, s.events, s.passes, s.workers[w].(pc := pc))
    ensures Sound(MoveTo(s, w, pc))
  {
  }

  lemma EndSound(s: State, w: WorkerId)
    requires Sound(s)
    ensures Sound(End(s, w))
  {
  }

  // ---- the steps ----

  lemma ReadSound(s: State, w: WorkerId, seen: Option<Reservation>)
    requires Sound(s)
    ensures Sound(ApplyRead(s, w, seen))
  {
    if w in s.workers && CanSee(s.reservations, s.workers[w].signal, seen) {
      assert WorkerOk(s.reservations, s.events, s.passes, s.workers[w]);
      var worker := s.workers[w];
      MoveSound(s, w, Failing);
      if worker.pc == Polled && seen == None { MoveSound(s, w, Unreserved); }
      if (worker.pc == Polled || worker.pc == RaceLost) && seen.Some? {
        MoveSound(s, w, OnReservation(worker.loop, seen.value));
      }
    }
  }

  lemma PassSound(s: State, id: DecisionId, pass: Pass)
    requires Sound(s) && id !in s.passes
    ensures Sound(s.(passes := s.passes[id := pass])) && Moves(s, s.(passes := s.passes[id := pass]))
  {
    KeptByOthers(s, s.(passes := s.passes[id := pass]));
  }

  lemma ValidateSound(s: State, w: WorkerId, id: DecisionId, inputs: Inputs, decision: Decision)
    requires Sound(s)
    ensures Sound(ApplyValidate(s, w, id, inputs, decision)) && Moves(s, ApplyValidate(s, w, id, inputs, decision))
  {
    if Ready(s, w, Unreserved) && id != "" && id !in s.passes && Decides(inputs, decision) {
      var worker := s.workers[w];
      assert WorkerOk(s.reservations, s.events, s.passes, worker);
      ApprovedMeansEveryCheck(inputs, decision);
      if decision.Approved? {
        PassSound(s, id, Pass(worker.signal, inputs));
      }
    }
  }

  lemma ReserveSound(s: State, w: WorkerId, reply: Reply)
    requires Sound(s)
    ensures Sound(ApplyReserve(s, w, reply)) && Moves(s, ApplyReserve(s, w, reply))
  {
    if w in s.workers && s.workers[w].pc.Reserving? {
      var Worker(_, signal, _, Reserving(id)) := s.workers[w];
      assert WorkerOk(s.reservations, s.events, s.passes, s.workers[w]);
      MoveSound(s, w, Failing);
      var t := s.(reservations := PutReservation(s.reservations, signal, id));
      KeptByOthers(s, t);
      assert Sound(t);
      MoveSound(t, w, Failing);
      MoveSound(t, w, RaceLost);
      if signal !in s.reservations { MoveSound(t, w, Publishing(id)); }
    }
  }

  lemma PublishSound(s: State, w: WorkerId, reply: Reply)
    requires Sound(s)
    ensures Sound(ApplyPublish(s, w, reply)) && Moves(s, ApplyPublish(s, w, reply))
  {
    if w in s.workers && s.workers[w].pc.Publishing? {
      var Worker(_, signal, _, Publishing(id)) := s.workers[w];
      assert WorkerOk(s.reservations, s.events, s.passes, s.workers[w]);
      MoveSound(s, w, Failing);
      if reply != NotDone {
        var t := s.(events := s.events + [Event(signal, id, reply == Done)]);
        KeptByOthers(s, t);
        AckedKept(s.events, t.events);
        assert Sound(t);
        MoveSound(t, w, Failing);
        if reply == Done {
          assert t.events[|s.events|] == Event(signal, id, true);
          MoveSound(t, w, Marking(id));
        }
      }
    }
  }

  lemma MarkSound(s: State, w: WorkerId, reply: Reply)
    requires Sound(s)
    ensures Sound(ApplyMark(s, w, reply)) && Moves(s, ApplyMark(s, w, reply))
  {
    if w in s.workers && s.workers[w].pc.Marking? {
      var Worker(_, signal, _, Marking(id)) := s.workers[w];
      assert WorkerOk(s.reservations, s.events, s.passes, s.workers[w]);
      MoveSound(s, w, Failing);
      var t := s.(reservations := MarkPublished(s.reservations, signal, id));
      KeptByOthers(s, t);
      assert Sound(t);
      MoveSound(t, w, Failing);
      MoveSound(t, w, Committing(Handled));
    }
  }

  lemma RouteSound(s: State, step: Step)
    requires Sound(s) && RouteStep(step)
    ensures Sound(Apply(s, step))
  {
    var w := step.w;
    EndSound(s, w);
    if w in s.workers {
      var worker := s.workers[w];
      assert WorkerOk(s.reservations, s.events, s.passes, worker);
      MoveSound(s, w, Failing);
      if step.Expire? && worker.pc == Unreserved { MoveSound(s, w, Expired); }
      if step.DeadLetter? && (worker.pc == Expired || worker.pc == Stale) && (step.routed || worker.loop == Enriched) {
        MoveSound(s, w, Committing(DeadLettered(step.routed)));
      }
      if step.Retry? && (step.routed || worker.loop == Enriched) {
        MoveSound(s, w, Committing(Retried(step.routed)));
      }
    }
  }

  lemma CommitSound(s: State, w: WorkerId)
    requires Sound(s)
    ensures Sound(ApplyCommit(s, w)) && Moves(s, ApplyCommit(s, w))
  {
    if w in s.workers && s.workers[w].pc.Committing? {
      assert WorkerOk(s.reservations, s.events, s.passes, s.workers[w]);
    }
  }

  lemma PollSound(s: State, loop: Loop, signal: SignalId)
    requires Sound(s)
    ensures Sound(ApplyPoll(s, loop, signal)) && Moves(s, ApplyPoll(s, loop, signal))
  {
  }

  predicate RouteStep(step: Step) {
    step.Expire? || step.DeadLetter? || step.Retry? || step.Fail? || step.Stop?
  }

  lemma HandlerSound(s: State, step: Step)
    requires Sound(s) && !RouteStep(step)
    ensures Sound(Apply(s, step)) && Moves(s, Apply(s, step))
  {
    match step {
      case Poll(loop, signal) => PollSound(s, loop, signal);
      case Read(w, seen) => ReadSound(s, w, seen);
      case Validate(w, id, inputs, decision) => ValidateSound(s, w, id, inputs, decision);
      case Reserve(w, reply) => ReserveSound(s, w, reply);
      case Publish(w, reply) => PublishSound(s, w, reply);
      case Mark(w, reply) => MarkSound(s, w, reply);
      case CommitOffset(w) => CommitSound(s, w);
    }
  }

  lemma StepSound(s: State, step: Step)
    requires Sound(s)
    ensures Sound(Apply(s, step)) && Moves(s, Apply(s, step))
  {
    if RouteStep(step) { RouteSound(s, step); } else { HandlerSound(s, step); }
  }

  /**
   * Over any interleaving of both loops, any number of instances and any faults: a
   * reservation only moves absent, PENDING, PUBLISHED, its decision id never changes, and
   * what was published or committed stays.
   */
  lemma {:induction false} RunMoves(s: State, run: seq<Step>)
    requires Sound(s)
    ensures Sound(Run(s, run)) && Moves(s, Run(s, run))
    decreases |run|
  {
    if run != [] {
      var t := Apply(s, run[0]);
      StepSound(s, run[0]);
      RunMoves(t, run[1..]);
    }
  }

  lemma StartSound(s: State)
    requires Start(s)
    ensures Sound(s)
  {
  }

  /** All SIGNAL_APPROVED events of a signal carry one id, the reserved one, and its pass approved. */
  lemma EventsCarryTheReservedId(start: State, run: seq<Step>, i: nat)
    requires Start(start) && i < |Run(start, run).events|
    ensures var s := Run(start, run); var e := s.events[i];
      e.signal in s.reservations && s.reservations[e.signal].id == e.id && ApprovedId(s.passes, e.signal, e.id)
  {
    StartSound(start);
    RunMoves(start, run);
    var s := Run(start, run);
    assert ReservationOk(s.events, s.passes, s.events[i].signal, s.reservations[s.events[i].signal]);
  }

  /** A PUBLISHED reservation has at least one acknowledged event with its id in the topic. */
  lemma PublishedWasAcknowledged(start: State, run: seq<Step>, signal: SignalId)
    requires Start(start) && signal in Run(start, run).reservations
    requires Run(start, run).reservations[signal].status == Published
    ensures AckedAt(Run(start, run).events, signal, Run(start, run).reservations[signal].id)
  {
    StartSound(start);
    RunMoves(start, run);
    var s := Run(start, run);
    assert ReservationOk(s.events, s.passes, signal, s.reservations[signal]);
  }

  /**
   * The offset of a signal whose own pass was APPROVED is committed only when the
   * reservation is no longer PENDING or the message went to retry; the fallback loop
   * commits only what retry accepted, the enriched loop whatever retry answered.
   */
  lemma ApprovedOffsets(start: State, run: seq<Step>, i: nat)
    requires Start(start) && i < |Run(start, run).committed| && Run(start, run).committed[i].approved
    ensures var s := Run(start, run); var c := s.committed[i];
      (c.why == Handled && Settled(s.reservations, c.loop, c.signal)) ||
      (c.why.Retried? && (c.loop == Fallback ==> c.why.routed))
  {
    StartSound(start);
    RunMoves(start, run);
    assert CommitOk(Run(start, run).reservations, Run(start, run).committed[i]);
  }

  /** One redelivery without faults: poll, read, publish, mark, commit. */
  function Redelivery(s: State, loop: Loop, signal: SignalId): seq<Step>
    requires signal in s.reservations
  {
    var w := s.spawned;
    [Poll(loop, signal), Read(w, Some(s.reservations[signal])), Publish(w, Done), Mark(w, Done), CommitOffset(w)]
  }

  /** The redelivered message in hand: a new handler about to publish with the reserved id. */
  function InHand(s: State, loop: Loop, signal: SignalId, pc: Pc): State {
    s.(workers := s.workers[s.spawned := Worker(loop, signal, false, pc)], spawned := s.spawned + 1)
  }

  lemma PendingAtHand(start: State, run: seq<Step>, signal: SignalId)
    requires Start(start)
    requires signal in Run(start, run).reservations && Run(start, run).reservations[signal].status == Pending
    ensures var s := Run(start, run);
      s.reservations[signal] == Reservation(s.reservations[signal].id, Pending) &&
      s.reservations[signal].id != "" && s.spawned !in s.workers
  {
    StartSound(start);
    RunMoves(start, run);
    var s := Run(start, run);
    assert ReservationOk(s.events, s.passes, signal, s.reservations[signal]);
  }

  lemma PollAndRead(s: State, loop: Loop, signal: SignalId)
    requires signal in s.reservations && s.reservations[signal].status == Pending && s.reservations[signal].id != ""
    ensures ApplyRead(ApplyPoll(s, loop, signal), s.spawned, Some(s.reservations[signal])) ==
            InHand(s, loop, signal, Publishing(s.reservations[signal].id))
  {
  }

  lemma PublishAndMark(s: State, loop: Loop, signal: SignalId, id: DecisionId)
    requires s.spawned !in s.workers && signal in s.reservations && s.reservations[signal] == Reservation(id, Pending)
    ensures var s2 := InHand(s, loop, signal, Publishing(id));
      var t := ApplyCommit(ApplyMark(ApplyPublish(s2, s.spawned, Done), s.spawned, Done), s.spawned);
      t.reservations == s.reservations[signal := Reservation(id, Published)] &&
      t.events == s.events + [Event(signal, id, true)] &&
      t.committed == s.committed + [Commit(loop, signal, false, Handled)] && t.workers == s.workers
  {
    var w := s.spawned;
    var s2 := InHand(s, loop, signal, Publishing(id));
    var s3 := ApplyPublish(s2, w, Done);
    assert s3.workers[w] == Worker(loop, signal, false, Marking(id));
    var s4 := ApplyMark(s3, w, Done);
    assert s4.workers[w] == Worker(loop, signal, false, Committing(Handled));
    assert ApplyCommit(s4, w).workers == s.workers;
  }

  /**
   * From any reachable state with a PENDING reservation, wherever the earlier handlers
   * crashed, one fault-free redelivery to either loop ends PUBLISHED and committed with the
   * original id. The expiry of the message is never looked at.
   */
  lemma RedeliveryCompletes(start: State, run: seq<Step>, loop: Loop, signal: SignalId)
    requires Start(start)
    requires signal in Run(start, run).reservations && Run(start, run).reservations[signal].status == Pending
    ensures var s := Run(start, run); var id := s.reservations[signal].id;
      var t := Run(s, Redelivery(s, loop, signal));
      t.reservations == s.reservations[signal := Reservation(id, Published)] &&
      t.events == s.events + [Event(signal, id, true)] &&
      t.committed == s.committed + [Commit(loop, signal, false, Handled)] && t.workers == s.workers
  {
    var s := Run(start, run);
    PendingAtHand(start, run, signal);
    PollAndRead(s, loop, signal);
    PublishAndMark(s, loop, signal, s.reservations[signal].id);
    RunFive(s, Redelivery(s, loop, signal));
  }

  /** The same redelivery when neither the publish nor the routing to retry works. */
  function FaultyRedelivery(s: State, loop: Loop, signal: SignalId): seq<Step>
    requires signal in s.reservations
  {
    var w := s.spawned;
    [Poll(loop, signal), Read(w, Some(s.reservations[signal])), Publish(w, NotDone), Retry(w, false), CommitOffset(w)]
  }

  lemma PublishAndRetryFail(s: State, loop: Loop, signal: SignalId, id: DecisionId)
    requires s.spawned !in s.workers
    ensures var s2 := InHand(s, loop, signal, Publishing(id));
      var t := ApplyCommit(ApplyRetry(ApplyPublish(s2, s.spawned, NotDone), s.spawned, false), s.spawned);
      t.reservations == s.reservations && t.events == s.events &&
      t.committed == s.committed + if loop == Enriched then [Commit(loop, signal, false, Retried(false))] else []
  {
    var s2 := InHand(s, loop, signal, Publishing(id));
    var s3 := ApplyPublish(s2, s.spawned, NotDone);
    assert s3.workers[s.spawned] == Worker(loop, signal, false, Failing);
  }

  /**
   * Here the loops part: the enriched loop commits the offset of an approved signal that is
   * neither published nor routed, the fallback loop does not.
   */
  lemma EnrichedCommitsUnrouted(start: State, run: seq<Step>, loop: Loop, signal: SignalId)
    requires Start(start)
    requires signal in Run(start, run).reservations && Run(start, run).reservations[signal].status == Pending
    ensures var s := Run(start, run); var t := Run(s, FaultyRedelivery(s, loop, signal));
      t.reservations == s.reservations && t.events == s.events &&
      t.committed == s.committed + if loop == Enriched then [Commit(loop, signal, false, Retried(false))] else []
  {
    var s := Run(start, run);
    PendingAtHand(start, run, signal);
    PollAndRead(s, loop, signal);
    PublishAndRetryFail(s, loop, signal, s.reservations[signal].id);
    RunFive(s, FaultyRedelivery(s, loop, signal));
  }

  lemma RunFive(s: State, steps: seq<Step>)
    requires |steps| == 5
    ensures Run(s, steps) == Apply(Apply(Apply(Apply(Apply(s, steps[0]), steps[1]), steps[2]), steps[3]), steps[4])
  {
    var s1 := Apply(s, steps[0]);
    var s2 := Apply(s1, steps[1]);
    var s3 := Apply(s2, steps[2]);
    var s4 := Apply(s3, steps[3]);
    var s5 := Apply(s4, steps[4]);
    assert steps[1..][1..] == steps[2..] && steps[2..][1..] == steps[3..] && steps[3..][1..] == steps[4..];
    assert Run(s1, steps[1..]) == Run(s2, steps[2..]) && Run(s2, steps[2..]) == Run(s3, steps[3..]);
    assert Run(s3, steps[3..]) == Run(s4, steps[4..]) && Run(s4, steps[4..]) == Run(s5, []);
  }
}
