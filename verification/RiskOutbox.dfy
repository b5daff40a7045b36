/**
 * The approval outbox of the risk engine as a step machine: conditional-put reservation,
 * durable publish, mark PUBLISHED, commit. Enriched and fallback handlers of any number of
 * instances interleave at every `await`; a handler may fail or vanish at any of them, a
 * write or a publish may take effect although the caller sees an error, and reads of the
 * reservation may be stale.
 */
module RiskOutbox {
  import opened Wrappers
  import opened RiskPipeline

  type SignalId = string
  type DecisionId = string
  type WorkerId = nat

  /** Legacy rows carry no publish_status; Other is a value this code never writes. */
  datatype PublishStatus = Pending | Published | Legacy | Other

  datatype Reservation = Reservation(id: DecisionId, status: PublishStatus)

  /** A SIGNAL_APPROVED event in the topic, and whether its delivery was acknowledged. */
  datatype Event = Event(signal: SignalId, id: DecisionId, acked: bool)

  datatype Loop = Enriched | Fallback

  /** One approving pass through the pipeline. */
  datatype Pass = Pass(signal: SignalId, inputs: Inputs)

  datatype Why = Handled | Refused | DeadLettered(routed: bool) | Retried(routed: bool)

  datatype Commit = Commit(loop: Loop, signal: SignalId, approved: bool, why: Why)

  datatype Pc =
    | Polled                       // about to read the reservation
    | Unreserved                   // none seen: expiry check, then validation
    | Reserving(id: DecisionId)
    | RaceLost                     // about to read the winner's reservation
    | Publishing(id: DecisionId)
    | Marking(id: DecisionId)
    | Expired                      // about to dead-letter an expired message
    | Stale                        // about to dead-letter a rejection taken for a stale one
    | Failing                      // an exception reached the handler's except clause
    | Committing(why: Why)

  /** `approved` says that this handler's own pass was APPROVED. */
  datatype Worker = Worker(loop: Loop, signal: SignalId, approved: bool, pc: Pc)

  datatype State = State(
    reservations: map<SignalId, Reservation>,
    events: seq<Event>,
    passes: map<DecisionId, Pass>,
    workers: map<WorkerId, Worker>,
    spawned: nat,
    committed: seq<Commit>)

  /** How an external call ends: done, done although the caller sees an error, or not done. */
  datatype Reply = Done | DoneUnseen | NotDone

  datatype Step =
    | Poll(loop: Loop, signal: SignalId)
    | Read(w: WorkerId, seen: Option<Reservation>)
    | Expire(w: WorkerId)
    | Validate(w: WorkerId, id: DecisionId, inputs: Inputs, decision: Decision)
    | Reserve(w: WorkerId, reply: Reply)
    | Publish(w: WorkerId, reply: Reply)
    | Mark(w: WorkerId, reply: Reply)
    | DeadLetter(w: WorkerId, routed: bool)
    | Retry(w: WorkerId, routed: bool)
    | CommitOffset(w: WorkerId)
    | Fail(w: WorkerId)
    | Stop(w: WorkerId)

  predicate Ready(s: State, w: WorkerId, pc: Pc) {
    w in s.workers && s.workers[w].pc == pc
  }

  function MoveTo(s: State, w: WorkerId, pc: Pc): State
    requires w in s.workers
  {
    s.(workers := s.workers[w := s.workers[w].(pc := pc)])
  }

  function End(s: State, w: WorkerId): State {
    s.(workers := s.workers - {w})
  }

  // ---- the two loops' reactions to a reservation they find ----

  /** _handle_existing_approval_reservation, and the inline code of the enriched loop. */
  function OnReservation(loop: Loop, found: Reservation): Pc {
    match loop
    case Fallback =>
      if found.id == "" || found.status == Other then Failing
      else if found.status == Pending then Publishing(found.id)
      else Committing(Handled)
    case Enriched =>
      if found.status == Pending && found.id != "" then Publishing(found.id)
      else Committing(Handled)
  }

  /** A read may miss the row or show it as it was before it was marked. */
  predicate CanSee(reservations: map<SignalId, Reservation>, signal: SignalId, seen: Option<Reservation>) {
    match seen
    case None => true
    case Some(found) =>
      signal in reservations && found.id == reservations[signal].id &&
      (found.status == reservations[signal].status ||
       (found.status == Pending && reservations[signal].status == Published))
  }

  // ---- the conditional writes ----

  function PutReservation(reservations: map<SignalId, Reservation>, signal: SignalId, id: DecisionId)
    : map<SignalId, Reservation>
  {
    if signal in reservations then reservations else reservations[signal := Reservation(id, Pending)]
  }

  function MarkPublished(reservations: map<SignalId, Reservation>, signal: SignalId, id: DecisionId)
    : map<SignalId, Reservation>
  {
    if signal in reservations && reservations[signal].id == id
    then reservations[signal := Reservation(id, Published)] else reservations
  }

  // ---- steps; one that is not enabled leaves the state alone ----

  function ApplyPoll(s: State, loop: Loop, signal: SignalId): State {
    s.(workers := s.workers[s.spawned := Worker(loop, signal, false, Polled)], spawned := s.spawned + 1)
  }

  /** The read at the head of the handler, and the one after a lost race. */
  function ApplyRead(s: State, w: WorkerId, seen: Option<Reservation>): State {
    if !(w in s.workers && CanSee(s.reservations, s.workers[w].signal, seen)) then s
    else
      match (s.workers[w].pc, seen)
      case (Polled, None) => MoveTo(s, w, Unreserved)
      case (Polled, Some(found)) => MoveTo(s, w, OnReservation(s.workers[w].loop, found))
      case (RaceLost, None) => MoveTo(s, w, Failing)
      case (RaceLost, Some(found)) => MoveTo(s, w, OnReservation(s.workers[w].loop, found))
      case _ => s
  }

  function ApplyExpire(s: State, w: WorkerId): State {
    if Ready(s, w, Unreserved) then MoveTo(s, w, Expired) else s
  }

  /** validate_signal with a new decision id; approvals go on to the reservation. */
  ghost function ApplyValidate(s: State, w: WorkerId, id: DecisionId, inputs: Inputs, decision: Decision): State {
    if !(Ready(s, w, Unreserved) && id != "" && id !in s.passes && Decides(inputs, decision)) then s
    else
      var worker := s.workers[w];
      match decision
      case Approved(_) =>
        s.(passes := s.passes[id := Pass(worker.signal, inputs)],
           workers := s.workers[w := worker.(approved := true, pc := Reserving(id))])
      case Rejected(_, _) =>
        MoveTo(s, w, if worker.loop == Fallback && TakenForStale(decision) then Stale else Committing(Refused))
  }

  function ApplyReserve(s: State, w: WorkerId, reply: Reply): State {
    if !(w in s.workers && s.workers[w].pc.Reserving?) then s
    else if reply == NotDone then MoveTo(s, w, Failing)
    else
      var Worker(_, signal, _, Reserving(id)) := s.workers[w];
      var t := s.(reservations := PutReservation(s.reservations, signal, id));
      MoveTo(t, w,
          if reply == DoneUnseen then Failing else if signal in s.reservations then RaceLost else Publishing(id))
  }

  function ApplyPublish(s: State, w: WorkerId, reply: Reply): State {
    if !(w in s.workers && s.workers[w].pc.Publishing?) then s
    else
      var Worker(_, signal, _, Publishing(id)) := s.workers[w];
      match reply
      case Done => MoveTo(s.(events := s.events + [Event(signal, id, true)]), w, Marking(id))
      case DoneUnseen => MoveTo(s.(events := s.events + [Event(signal, id, false)]), w, Failing)
      case NotDone => MoveTo(s, w, Failing)
  }

  function ApplyMark(s: State, w: WorkerId, reply: Reply): State {
    if !(w in s.workers && s.workers[w].pc.Marking?) then s
    else if reply == NotDone then MoveTo(s, w, Failing)
    else
      var Worker(_, signal, _, Marking(id)) := s.workers[w];
      var held := signal in s.reservations && s.reservations[signal].id == id;
      MoveTo(s.(reservations := MarkPublished(s.reservations, signal, id)), w,
             if held && reply == Done then Committing(Handled) else Failing)
  }

  /** Dead-lettering: only the enriched loop commits an expired message that was not routed. */
  function ApplyDeadLetter(s: State, w: WorkerId, routed: bool): State {
    if w !in s.workers then s
    else match s.workers[w].pc
      case Expired =>
        if routed || s.workers[w].loop == Enriched then MoveTo(s, w, Committing(DeadLettered(routed))) else End(s, w)
      case Stale => MoveTo(s, w, if routed then Committing(DeadLettered(true)) else Failing)
      case _ => s
  }

  /** The except clause: the enriched loop commits whether or not the retry was routed. */
  function ApplyRetry(s: State, w: WorkerId, routed: bool): State {
    if !Ready(s, w, Failing) then s
    else if routed || s.workers[w].loop == Enriched then MoveTo(s, w, Committing(Retried(routed)))
    else End(s, w)
  }

  function ApplyCommit(s: State, w: WorkerId): State {
    if !(w in s.workers && s.workers[w].pc.Committing?) then s
    else
      var worker := s.workers[w];
      End(s.(committed := s.committed + [Commit(worker.loop, worker.signal, worker.approved, worker.pc.why)]), w)
  }

  function ApplyFail(s: State, w: WorkerId): State {
    if w in s.workers then MoveTo(s, w, Failing) else s
  }

  ghost function Apply(s: State, step: Step): State {
    match step
    case Poll(loop, signal) => ApplyPoll(s, loop, signal)
    case Read(w, seen) => ApplyRead(s, w, seen)
    case Expire(w) => ApplyExpire(s, w)
    case Validate(w, id, inputs, decision) => ApplyValidate(s, w, id, inputs, decision)
    case Reserve(w, reply) => ApplyReserve(s, w, reply)
    case Publish(w, reply) => ApplyPublish(s, w, reply)
    case Mark(w, reply) => ApplyMark(s, w, reply)
    case DeadLetter(w, routed) => ApplyDeadLetter(s, w, routed)
    case Retry(w, routed) => ApplyRetry(s, w, routed)
    case CommitOffset(w) => ApplyCommit(s, w)
    case Fail(w) => ApplyFail(s, w)
    case Stop(w) => End(s, w)
  }

  ghost function Run(s: State, run: seq<Step>): State
    decreases |run|
  {
    if run == [] then s else Run(Apply(s, run[0]), run[1..])
  }

  /** A start with nothing but reservations this code has not written. */
  ghost predicate Start(s: State) {
    && (forall signal :: signal in s.reservations ==> s.reservations[signal].status in {Legacy, Other})
    && s.events == [] && s.workers == map[] && s.committed == [] && s.passes == map[]
  }
}
