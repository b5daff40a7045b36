/** One message through either loop is a run of the outbox machine. */
module RiskLoopRuns {
  import opened Wrappers
  import opened RiskPipeline
  import opened RiskOutbox
  import opened RiskLoops

  /** The state with the handler `w` added. */
  function With(s: State, w: WorkerId, worker: Worker): State {
    s.(workers := s.workers[w := worker])
  }

  function EffectOf(s: State): Effect {
    Effect(s.reservations, s.events)
  }

  function Having(s: State, e: Effect): State {
    s.(reservations := e.reservations, events := e.events)
  }

  function Current(s: State, signal: SignalId): Option<Reservation> {
    if signal in s.reservations then Some(s.reservations[signal]) else None
  }

  lemma {:induction false} RunJoins(s: State, a: seq<Step>, b: seq<Step>)
    ensures Run(s, a + b) == Run(Run(s, a), b)
    decreases |a|
  {
    if a == [] {
      assert a + b == b;
    } else {
      assert (a + b)[1..] == a[1..] + b;
      RunJoins(Apply(s, a[0]), a[1..], b);
    }
  }

  lemma RunOne(s: State, a: Step)
    ensures Run(s, [a]) == Apply(s, a)
  {
    assert [a][1..] == [];
  }

  lemma RunTwo(s: State, a: Step, b: Step)
    ensures Run(s, [a, b]) == Apply(Apply(s, a), b)
  {
    assert [a, b][1..] == [b];
    RunOne(Apply(s, a), b);
  }

  // ---- publish and mark ----

  /** Where the handler stands after PublishApproved. */
  function SentPc(m: Message): Pc {
    if DeliveryFails(m) then Failing else Committing(Handled)
  }

  lemma PublishStep(s: State, w: WorkerId, worker: Worker, m: Message, id: DecisionId)
    requires worker.signal == m.signal && worker.pc == Publishing(id)
    ensures Apply(With(s, w, worker), Publish(w, m.publish)) ==
            With(if m.publish == NotDone then s else s.(events := s.events + [Event(m.signal, id, m.publish == Done)]),
                 w, worker.(pc := if m.publish == Done then Marking(id) else Failing))
  {
    assert s.workers[w := worker][w := worker.(pc := Failing)] == s.workers[w := worker.(pc := Failing)];
    assert s.workers[w := worker][w := worker.(pc := Marking(id))] == s.workers[w := worker.(pc := Marking(id))];
  }

  lemma MarkStep(s: State, w: WorkerId, worker: Worker, m: Message, id: DecisionId)
    requires worker.signal == m.signal && worker.pc == Marking(id)
    requires m.signal in s.reservations && s.reservations[m.signal].id == id
    ensures Apply(With(s, w, worker), Mark(w, m.mark)) ==
            With(if m.mark == NotDone then s else s.(reservations := MarkPublished(s.reservations, m.signal, id)),
                 w, worker.(pc := if m.mark == Done then Committing(Handled) else Failing))
  {
    assert s.workers[w := worker][w := worker.(pc := Failing)] == s.workers[w := worker.(pc := Failing)];
    assert s.workers[w := worker][w := worker.(pc := Committing(Handled))] ==
      s.workers[w := worker.(pc := Committing(Handled))];
  }

  lemma Sends(s: State, w: WorkerId, worker: Worker, m: Message, id: DecisionId)
    requires worker.signal == m.signal && worker.pc == Publishing(id)
    requires m.signal in s.reservations && s.reservations[m.signal].id == id
    ensures Run(With(s, w, worker), [Publish(w, m.publish), Mark(w, m.mark)]) ==
            With(Having(s, Sent(EffectOf(s), m, id)), w, worker.(pc := SentPc(m)))
  {
    RunTwo(With(s, w, worker), Publish(w, m.publish), Mark(w, m.mark));
    PublishStep(s, w, worker, m, id);
    if m.publish == Done {
      MarkStep(s.(events := s.events + [Event(m.signal, id, true)]), w, worker.(pc := Marking(id)), m, id);
    }
  }

  /** A handler elsewhere is not moved by the steps of publishing. */
  lemma SendsNothing(s: State, w: WorkerId, worker: Worker, m: Message)
    requires !worker.pc.Publishing? && !worker.pc.Marking?
    ensures Run(With(s, w, worker), [Publish(w, m.publish), Mark(w, m.mark)]) == With(s, w, worker)
  {
    RunTwo(With(s, w, worker), Publish(w, m.publish), Mark(w, m.mark));
  }

  // ---- a reservation that is found, and the reservation of one's own ----

  /** Where the handler stands after it has dealt with a reservation it found. */
  function FoundPc(loop: Loop, found: Reservation, m: Message): Pc {
    if Resendable(found) then SentPc(m) else OnReservation(loop, found)
  }

  lemma Finds(s: State, w: WorkerId, worker: Worker, m: Message)
    requires worker.signal == m.signal && m.signal in s.reservations
    requires worker.pc == OnReservation(worker.loop, s.reservations[m.signal])
    ensures var found := s.reservations[m.signal];
            Run(With(s, w, worker), [Publish(w, m.publish), Mark(w, m.mark)]) ==
            With(if Resendable(found) then Having(s, Sent(EffectOf(s), m, found.id)) else s, w,
                 worker.(pc := FoundPc(worker.loop, found, m)))
  {
    var found := s.reservations[m.signal];
    if Resendable(found) {
      Sends(s, w, worker, m, found.id);
    } else {
      SendsNothing(s, w, worker, m);
      assert worker.(pc := worker.pc) == worker;
    }
  }

  function Reserved(s: State, m: Message): State {
    if m.reserve == NotDone then s else s.(reservations := PutReservation(s.reservations, m.signal, m.id))
  }

  function ReservedPc(s: State, m: Message): Pc {
    if m.reserve != Done then Failing else if m.signal in s.reservations then RaceLost else Publishing(m.id)
  }

  lemma ReserveStep(s: State, w: WorkerId, worker: Worker, m: Message)
    requires worker.signal == m.signal && worker.pc == Reserving(m.id)
    ensures Apply(With(s, w, worker), Reserve(w, m.reserve)) ==
            With(Reserved(s, m), w, worker.(pc := ReservedPc(s, m)))
  {
    var t := Apply(With(s, w, worker), Reserve(w, m.reserve));
    assert t.workers == s.workers[w := worker.(pc := ReservedPc(s, m))];
  }

  /** The read of the winner after a lost race; elsewhere it does nothing. */
  lemma WinnerStep(s: State, w: WorkerId, worker: Worker, m: Message)
    requires worker.signal == m.signal && worker.pc != Polled && (worker.pc == RaceLost ==> m.signal in s.reservations)
    ensures Apply(With(s, w, worker), Read(w, Current(s, m.signal))) ==
            With(s, w, if worker.pc == RaceLost
                       then worker.(pc := OnReservation(worker.loop, s.reservations[m.signal])) else worker)
  {
    if worker.pc == RaceLost {
      var pc := OnReservation(worker.loop, s.reservations[m.signal]);
      assert s.workers[w := worker][w := worker.(pc := pc)] == s.workers[w := worker.(pc := pc)];
    }
  }

  /** What the body makes of a signal that its own pass approved. */
  function ReservingEffect(e: Effect, m: Message): Effect {
    if m.reserve == NotDone then e
    else
      var reserved := e.(reservations := PutReservation(e.reservations, m.signal, m.id));
      if m.reserve == DoneUnseen || !Resendable(reserved.reservations[m.signal]) then reserved
      else Sent(reserved, m, reserved.reservations[m.signal].id)
  }

  function ReservingPc(loop: Loop, e: Effect, m: Message): Pc {
    if m.reserve != Done then Failing
    else if m.signal in e.reservations then FoundPc(loop, e.reservations[m.signal], m)
    else SentPc(m)
  }

  function Body(s: State, w: WorkerId, m: Message): seq<Step> {
    [Reserve(w, m.reserve), Read(w, Current(Reserved(s, m), m.signal))] + [Publish(w, m.publish), Mark(w, m.mark)]
  }

  /** Where the handler stands once it knows who holds the reservation. */
  function KnownPc(s: State, loop: Loop, m: Message): Pc {
    if m.reserve != Done then Failing
    else if m.signal in s.reservations then OnReservation(loop, s.reservations[m.signal])
    else Publishing(m.id)
  }

  lemma Contends(s: State, w: WorkerId, worker: Worker, m: Message)
    requires worker.signal == m.signal && worker.pc == Reserving(m.id)
    ensures Run(With(s, w, worker), [Reserve(w, m.reserve), Read(w, Current(Reserved(s, m), m.signal))]) ==
            With(Reserved(s, m), w, worker.(pc := KnownPc(s, worker.loop, m)))
  {
    var t := Reserved(s, m);
    RunTwo(With(s, w, worker), Reserve(w, m.reserve), Read(w, Current(t, m.signal)));
    ReserveStep(s, w, worker, m);
    WinnerStep(t, w, worker.(pc := ReservedPc(s, m)), m);
  }

  lemma Delivers(s: State, w: WorkerId, worker: Worker, m: Message)
    requires worker.signal == m.signal && worker.pc == KnownPc(s, worker.loop, m) && m.id != ""
    ensures Run(With(Reserved(s, m), w, worker), [Publish(w, m.publish), Mark(w, m.mark)]) ==
            With(Having(s, ReservingEffect(EffectOf(s), m)), w,
                 worker.(pc := ReservingPc(worker.loop, EffectOf(s), m)))
  {
    var t := Reserved(s, m);
    if m.reserve != Done {
      SendsNothing(t, w, worker, m);
    } else if m.signal in s.reservations {
      Finds(t, w, worker, m);
    } else {
      Sends(t, w, worker, m, m.id);
    }
  }

  lemma Reserves(s: State, w: WorkerId, worker: Worker, m: Message)
    requires worker.signal == m.signal && worker.pc == Reserving(m.id) && m.id != ""
    ensures Run(With(s, w, worker), Body(s, w, m)) ==
            With(Having(s, ReservingEffect(EffectOf(s), m)), w,
                 worker.(pc := ReservingPc(worker.loop, EffectOf(s), m)))
  {
    RunJoins(With(s, w, worker), [Reserve(w, m.reserve), Read(w, Current(Reserved(s, m), m.signal))],
             [Publish(w, m.publish), Mark(w, m.mark)]);
    Contends(s, w, worker, m);
    Delivers(s, w, worker.(pc := KnownPc(s, worker.loop, m)), m);
  }

  /** Where the handler stands before the body, when it is not about to reserve. */
  predicate Past(pc: Pc) {
    pc == Failing || pc == Expired || pc == Stale || pc.Committing?
  }

  /** The body after a reservation that was found at once, or after the decision is already made. */
  lemma PassesOver(s: State, w: WorkerId, worker: Worker, m: Message)
    requires worker.signal == m.signal && (Past(worker.pc) || worker.pc.Publishing?)
    ensures Run(With(s, w, worker), Body(s, w, m)) ==
            Run(With(s, w, worker), [Publish(w, m.publish), Mark(w, m.mark)])
  {
    var read := Read(w, Current(Reserved(s, m), m.signal));
    RunJoins(With(s, w, worker), [Reserve(w, m.reserve), read], [Publish(w, m.publish), Mark(w, m.mark)]);
    RunTwo(With(s, w, worker), Reserve(w, m.reserve), read);
  }

  // ---- the head: read, expiry, validation ----

  function Head(s: State, w: WorkerId, m: Message, inputs: Inputs): seq<Step> {
    [if m.readFails then Fail(w) else Read(w, Current(s, m.signal)),
     if m.expired then Expire(w) else Validate(w, m.id, inputs, m.decision)]
  }

  function HeadPc(s: State, loop: Loop, m: Message): Pc {
    if m.readFails then Failing
    else if m.signal in s.reservations then OnReservation(loop, s.reservations[m.signal])
    else if m.expired then Expired
    else if m.decision.Approved? then Reserving(m.id)
    else if loop == Fallback && TakenForStale(m.decision) then Stale
    else Committing(Refused)
  }

  /** The handler's own pass approved. */
  predicate PassApproves(s: State, m: Message) {
    !m.readFails && m.signal !in s.reservations && !m.expired && m.decision.Approved?
  }

  function Judged(s: State, m: Message, inputs: Inputs): State {
    if PassApproves(s, m) then s.(passes := s.passes[m.id := Pass(m.signal, inputs)]) else s
  }

  lemma FirstStep(s: State, w: WorkerId, loop: Loop, m: Message)
    ensures Apply(With(s, w, Worker(loop, m.signal, false, Polled)),
                  if m.readFails then Fail(w) else Read(w, Current(s, m.signal))) ==
            With(s, w, Worker(loop, m.signal, false,
              if m.readFails then Failing
              else if m.signal in s.reservations then OnReservation(loop, s.reservations[m.signal]) else Unreserved))
  {
    var pc := if m.readFails then Failing
      else if m.signal in s.reservations then OnReservation(loop, s.reservations[m.signal]) else Unreserved;
    assert s.workers[w := Worker(loop, m.signal, false, Polled)][w := Worker(loop, m.signal, false, pc)] ==
      s.workers[w := Worker(loop, m.signal, false, pc)];
  }

  lemma JudgeStep(s: State, w: WorkerId, loop: Loop, m: Message, inputs: Inputs)
    requires m.id != "" && m.id !in s.passes && Decides(inputs, m.decision)
    requires !m.readFails && m.signal !in s.reservations
    ensures Apply(With(s, w, Worker(loop, m.signal, false, Unreserved)),
                  if m.expired then Expire(w) else Validate(w, m.id, inputs, m.decision)) ==
            With(Judged(s, m, inputs), w, Worker(loop, m.signal, PassApproves(s, m), HeadPc(s, loop, m)))
  {
    var now := Worker(loop, m.signal, PassApproves(s, m), HeadPc(s, loop, m));
    assert s.workers[w := Worker(loop, m.signal, false, Unreserved)][w := now] == s.workers[w := now];
  }

  lemma Heads(s: State, w: WorkerId, loop: Loop, m: Message, inputs: Inputs)
    requires m.id != "" && m.id !in s.passes && Decides(inputs, m.decision)
    ensures Run(With(s, w, Worker(loop, m.signal, false, Polled)), Head(s, w, m, inputs)) ==
            With(Judged(s, m, inputs), w, Worker(loop, m.signal, PassApproves(s, m), HeadPc(s, loop, m)))
  {
    var head := Head(s, w, m, inputs);
    RunTwo(With(s, w, Worker(loop, m.signal, false, Polled)), head[0], head[1]);
    FirstStep(s, w, loop, m);
    if !m.readFails && m.signal !in s.reservations {
      JudgeStep(s, w, loop, m, inputs);
    }
  }

  // ---- the tail: dead letter, retry, commit ----

  function Tail(w: WorkerId, m: Message): seq<Step> {
    [DeadLetter(w, m.dlqRouted), Retry(w, m.retryRouted)] + [CommitOffset(w), Stop(w)]
  }

  /** What the handler commits for, if it does. */
  function Reason(loop: Loop, pc: Pc, m: Message): Option<Why> {
    match pc
    case Committing(why) => Some(why)
    case Expired => if m.dlqRouted || loop == Enriched then Some(DeadLettered(m.dlqRouted)) else None
    case Stale =>
      if m.dlqRouted then Some(DeadLettered(true))
      else if m.retryRouted || loop == Enriched then Some(Retried(m.retryRouted)) else None
    case _ => if m.retryRouted || loop == Enriched then Some(Retried(m.retryRouted)) else None
  }

  function CommitOf(worker: Worker, m: Message): seq<Commit> {
    match Reason(worker.loop, worker.pc, m)
    case None => []
    case Some(why) => [Commit(worker.loop, worker.signal, worker.approved, why)]
  }

  lemma DeadLetterStep(s: State, w: WorkerId, worker: Worker, m: Message)
    requires Past(worker.pc) && w !in s.workers
    ensures Apply(With(s, w, worker), DeadLetter(w, m.dlqRouted)) ==
            if worker.pc == Expired && !m.dlqRouted && worker.loop == Fallback then s
            else With(s, w, if worker.pc == Expired || (worker.pc == Stale && m.dlqRouted)
                            then worker.(pc := Committing(DeadLettered(m.dlqRouted)))
                            else if worker.pc == Stale then worker.(pc := Failing) else worker)
  {
    assert s.workers[w := worker] - {w} == s.workers;
    assert forall pc :: s.workers[w := worker][w := worker.(pc := pc)] == s.workers[w := worker.(pc := pc)];
  }

  lemma RetryStep(s: State, w: WorkerId, worker: Worker, m: Message)
    requires w !in s.workers
    ensures Apply(With(s, w, worker), Retry(w, m.retryRouted)) ==
            if worker.pc != Failing then With(s, w, worker)
            else if m.retryRouted || worker.loop == Enriched
            then With(s, w, worker.(pc := Committing(Retried(m.retryRouted)))) else s
  {
    assert s.workers[w := worker] - {w} == s.workers;
    assert forall pc :: s.workers[w := worker][w := worker.(pc := pc)] == s.workers[w := worker.(pc := pc)];
  }

  lemma RetryOfNone(s: State, w: WorkerId, routed: bool)
    requires w !in s.workers
    ensures Apply(s, Retry(w, routed)) == s
  {
  }

  lemma Routes(s: State, w: WorkerId, worker: Worker, m: Message)
    requires Past(worker.pc) && w !in s.workers
    ensures Run(With(s, w, worker), [DeadLetter(w, m.dlqRouted), Retry(w, m.retryRouted)]) ==
            match Reason(worker.loop, worker.pc, m)
              case None => s
              case Some(why) => With(s, w, worker.(pc := Committing(why)))
  {
    RunTwo(With(s, w, worker), DeadLetter(w, m.dlqRouted), Retry(w, m.retryRouted));
    DeadLetterStep(s, w, worker, m);
    RetryOfNone(s, w, m.retryRouted);
    var dead := worker.(pc := Committing(DeadLettered(m.dlqRouted)));
    RetryStep(s, w, if worker.pc == Expired || (worker.pc == Stale && m.dlqRouted) then dead
                    else if worker.pc == Stale then worker.(pc := Failing) else worker, m);
  }

  lemma Commits(s: State, w: WorkerId, worker: Worker, why: Why)
    requires worker.pc == Committing(why) && w !in s.workers
    ensures Run(With(s, w, worker), [CommitOffset(w), Stop(w)]) ==
            s.(committed := s.committed + [Commit(worker.loop, worker.signal, worker.approved, why)])
  {
    RunTwo(With(s, w, worker), CommitOffset(w), Stop(w));
    assert s.workers[w := worker] - {w} == s.workers && s.workers - {w} == s.workers;
  }

  lemma Ends(s: State, w: WorkerId, worker: Worker, m: Message)
    requires Past(worker.pc) && w !in s.workers
    ensures Run(With(s, w, worker), Tail(w, m)) == s.(committed := s.committed + CommitOf(worker, m))
  {
    RunJoins(With(s, w, worker), [DeadLetter(w, m.dlqRouted), Retry(w, m.retryRouted)], [CommitOffset(w), Stop(w)]);
    Routes(s, w, worker, m);
    match Reason(worker.loop, worker.pc, m)
    case None =>
      RunTwo(s, CommitOffset(w), Stop(w));
      assert s.workers - {w} == s.workers;
      assert s.(committed := s.committed + []) == s;
    case Some(why) => Commits(s, w, worker.(pc := Committing(why)), why);
  }

  // ---- the whole message ----

  /** The reservation a rival instance may write while this handler validates. */
  function Met(s: State, m: Message): State {
    if PassApproves(s, m) && m.rival.Some? then s.(reservations := s.reservations[m.signal := m.rival.value]) else s
  }

  /** Where the handler stands before its tail. */
  function BodyPc(s: State, loop: Loop, m: Message): Pc {
    if PassApproves(s, m) then ReservingPc(loop, EffectOf(Met(s, m)), m)
    else if !m.readFails && m.signal in s.reservations then FoundPc(loop, s.reservations[m.signal], m)
    else HeadPc(s, loop, m)
  }

  lemma Bodies(s: State, w: WorkerId, loop: Loop, m: Message, judged: State)
    requires m.id != "" && EffectOf(judged) == EffectOf(Met(s, m))
    ensures var worker := Worker(loop, m.signal, PassApproves(s, m), HeadPc(s, loop, m));
            Run(With(judged, w, worker), Body(judged, w, m)) ==
            With(Having(judged, HandlerEffect(EffectOf(s), m)), w, worker.(pc := BodyPc(s, loop, m)))
  {
    var worker := Worker(loop, m.signal, PassApproves(s, m), HeadPc(s, loop, m));
    if PassApproves(s, m) {
      Reserves(judged, w, worker, m);
    } else {
      PassesOver(judged, w, worker, m);
      if !m.readFails && m.signal in s.reservations {
        Finds(judged, w, worker, m);
      } else {
        SendsNothing(judged, w, worker, m);
      }
    }
  }

  /** The run of a message up to the point where a rival may come in between, and from there. */
  function UpToRival(s: State, loop: Loop, m: Message, inputs: Inputs): seq<Step> {
    [Poll(loop, m.signal)] + Head(s, s.spawned, m, inputs)
  }

  function FromRival(s: State, w: WorkerId, m: Message): seq<Step> {
    Body(s, w, m) + Tail(w, m)
  }

  lemma Starts(s: State, loop: Loop, m: Message, inputs: Inputs)
    requires m.id != "" && m.id !in s.passes && Decides(inputs, m.decision)
    ensures Run(s, UpToRival(s, loop, m, inputs)) ==
            With(Judged(s, m, inputs).(spawned := s.spawned + 1), s.spawned,
                 Worker(loop, m.signal, PassApproves(s, m), HeadPc(s, loop, m)))
  {
    var w, p := s.spawned, s.(spawned := s.spawned + 1);
    RunJoins(s, [Poll(loop, m.signal)], Head(s, w, m, inputs));
    RunOne(s, Poll(loop, m.signal));
    assert Apply(s, Poll(loop, m.signal)) == With(p, w, Worker(loop, m.signal, false, Polled));
    Heads(p, w, loop, m, inputs);
  }

  /** The loop commits for its message. */
  predicate LoopCommits(loop: Loop, e: Effect, m: Message) {
    loop == Enriched || FallbackCommits(e, m)
  }

  lemma CommitsAsTheLoopDoes(s: State, loop: Loop, m: Message)
    requires m.id != ""
    ensures Past(BodyPc(s, loop, m))
    ensures Reason(loop, BodyPc(s, loop, m), m).Some? <==> LoopCommits(loop, EffectOf(s), m)
  {
  }

  lemma DeadLettersAsTheLoopDoes(s: State, loop: Loop, m: Message)
    requires m.id != ""
    ensures Reason(loop, BodyPc(s, loop, m), m) == Some(DeadLettered(true)) <==> DeadLetters(loop, EffectOf(s), m)
  {
  }

  lemma RetriesAsTheLoopDoes(s: State, loop: Loop, m: Message)
    requires m.id != ""
    ensures Reason(loop, BodyPc(s, loop, m), m) == Some(Retried(true)) <==> Retries(loop, EffectOf(s), m)
  {
  }

  /** The handler of the message in the machine, with the reason it commits for, if it does. */
  function Committed(s: State, loop: Loop, m: Message): seq<Commit> {
    match Reason(loop, BodyPc(s, loop, m), m)
    case None => []
    case Some(why) => [Commit(loop, m.signal, PassApproves(s, m), why)]
  }

  /** The run of a whole message: its effect, and what it adds to the committed offsets. */
  lemma HandlerRuns(s: State, loop: Loop, m: Message, inputs: Inputs)
    requires s.spawned !in s.workers && m.id != "" && m.id !in s.passes && Decides(inputs, m.decision)
    ensures var a := Run(s, UpToRival(s, loop, m, inputs));
            var b := a.(reservations := Met(s, m).reservations);
            var t := Run(b, FromRival(b, s.spawned, m));
            a.reservations == s.reservations && EffectOf(t) == HandlerEffect(EffectOf(s), m) &&
            t.workers == s.workers && t.committed == s.committed + Committed(s, loop, m)
  {
    var w := s.spawned;
    Starts(s, loop, m, inputs);
    var base := Judged(s, m, inputs).(spawned := s.spawned + 1, reservations := Met(s, m).reservations);
    var worker := Worker(loop, m.signal, PassApproves(s, m), HeadPc(s, loop, m));
    var b := With(base, w, worker);
    RunJoins(b, Body(b, w, m), Tail(w, m));
    assert Body(b, w, m) == Body(base, w, m);
    Bodies(s, w, loop, m, base);
    CommitsAsTheLoopDoes(s, loop, m);
    var before, done := Having(base, HandlerEffect(EffectOf(s), m)), worker.(pc := BodyPc(s, loop, m));
    Ends(before, w, done, m);
    assert CommitOf(done, m) == Committed(s, loop, m);
    assert Run(b, FromRival(b, w, m)) == before.(committed := s.committed + Committed(s, loop, m));
  }

  /**
   * The abstract handler that both loops are proved to implement is a run of the outbox
   * machine, cut where a rival instance may write its reservation: from any state the run
   * has the handler's effect on reservations and events, leaves the other handlers as they
   * were, and commits exactly when the loop does, for a dead letter or a retry exactly when
   * that topic took the message.
   */
  lemma HandlerIsARun(s: State, loop: Loop, m: Message, inputs: Inputs)
    requires s.spawned !in s.workers && m.id != "" && m.id !in s.passes && Decides(inputs, m.decision)
    ensures var a := Run(s, UpToRival(s, loop, m, inputs));
            var b := a.(reservations := Met(s, m).reservations);
            var t := Run(b, FromRival(b, s.spawned, m));
            a.reservations == s.reservations &&
            EffectOf(t) == HandlerEffect(EffectOf(s), m) && t.workers == s.workers &&
            s.committed <= t.committed &&
            (|t.committed| == |s.committed| + if LoopCommits(loop, EffectOf(s), m) then 1 else 0) &&
            (LoopCommits(loop, EffectOf(s), m) ==>
               var why := t.committed[|s.committed|].why;
               (why == DeadLettered(true) <==> DeadLetters(loop, EffectOf(s), m)) &&
               (why == Retried(true) <==> Retries(loop, EffectOf(s), m)))
  {
    HandlerRuns(s, loop, m, inputs);
    CommitsAsTheLoopDoes(s, loop, m);
    DeadLettersAsTheLoopDoes(s, loop, m);
    RetriesAsTheLoopDoes(s, loop, m);
  }

  /** The commit is for a message that neither the retry nor the dead-letter topic took. */
  predicate Unrouted(why: Why) {
    why == Retried(false) || why == DeadLettered(false)
  }

  /**
   * A message is committed although it failed or expired and no topic took it exactly when
   * it met the enriched loop and the topic it was offered to refused it.
   */
  lemma UnroutedCommitsExactly(s: State, loop: Loop, m: Message)
    requires m.id != ""
    ensures var e, reason := EffectOf(s), Reason(loop, BodyPc(s, loop, m), m);
            (reason.Some? && Unrouted(reason.value)) <==>
            (loop == Enriched &&
             ((Faults(loop, e, m) && !m.retryRouted) || (TimedOut(e, m) && !m.dlqRouted)))
  {
  }
}
