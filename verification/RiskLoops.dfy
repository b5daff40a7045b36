/**
 * One message through the risk engine's two loops, as the code runs it: the fallback loop
 * with its helper methods, the enriched loop with the same decisions written inline.
 */
module RiskLoops {
  import opened Wrappers
  import opened RiskPipeline
  import opened RiskOutbox

  /**
   * What the handler meets outside itself: the message, the pipeline's decision and the
   * new decision id, a rival instance's reservation written after the first read, and how
   * each external call ends.
   */
  datatype Message = Message(
    signal: SignalId, expired: bool, id: DecisionId, decision: Decision,
    readFails: bool, rival: Option<Reservation>, reserve: Reply, publish: Reply, mark: Reply,
    retryRouted: bool, dlqRouted: bool)

  /** Reservations and published events: what other services can see of a handler. */
  datatype Effect = Effect(reservations: map<SignalId, Reservation>, events: seq<Event>)

  predicate Resendable(r: Reservation) {
    r.status == Pending && r.id != ""
  }

  /** Publish, then mark: the only way an event gets out. */
  function Sent(e: Effect, m: Message, id: DecisionId): Effect {
    if m.publish == NotDone then e
    else
      var events := e.events + [Event(m.signal, id, m.publish == Done)];
      Effect(if m.publish == Done && m.mark != NotDone
             then MarkPublished(e.reservations, m.signal, id) else e.reservations,
             events)
  }

  /** The one handler that both loops implement. */
  function HandlerEffect(e: Effect, m: Message): Effect {
    if m.readFails then e
    else if m.signal in e.reservations then
      if Resendable(e.reservations[m.signal]) then Sent(e, m, e.reservations[m.signal].id) else e
    else if m.expired || m.decision.Rejected? then e
    else
      var found := if m.rival.Some? then e.(reservations := e.reservations[m.signal := m.rival.value]) else e;
      if m.reserve == NotDone then found
      else
        var reserved := found.(reservations := PutReservation(found.reservations, m.signal, m.id));
        if m.reserve == DoneUnseen || !Resendable(reserved.reservations[m.signal]) then reserved
        else Sent(reserved, m, reserved.reservations[m.signal].id)
  }

  /** No reservation was there to read, so the message itself decides. */
  predicate Unreserved(e: Effect, m: Message) {
    !m.readFails && m.signal !in e.reservations
  }

  predicate TimedOut(e: Effect, m: Message) {
    Unreserved(e, m) && m.expired
  }

  /** A rejection that the fallback loop dead-letters. */
  predicate DroppedAsStale(e: Effect, m: Message) {
    Unreserved(e, m) && !m.expired && m.decision.Rejected? && TakenForStale(m.decision)
  }

  /** A row the fallback loop refuses to handle and the enriched loop passes over. */
  predicate Malformed(r: Reservation) {
    r.id == "" || r.status == Other
  }

  predicate DeliveryFails(m: Message) {
    !(m.publish == Done && m.mark == Done)
  }

  predicate ReservationFails(loop: Loop, m: Message, r: Reservation) {
    if Resendable(r) then DeliveryFails(m) else loop == Fallback && Malformed(r)
  }

  /** The handler's try block raises. */
  predicate Faults(loop: Loop, e: Effect, m: Message) {
    if m.readFails then true
    else if m.signal in e.reservations then ReservationFails(loop, m, e.reservations[m.signal])
    else if m.expired then false
    else if m.decision.Rejected? then loop == Fallback && TakenForStale(m.decision) && !m.dlqRouted
    else
      m.reserve != Done ||
      match m.rival
      case None => DeliveryFails(m)
      case Some(winner) => ReservationFails(loop, m, winner)
  }

  /** The fallback loop commits only what was handled or what another topic took. */
  predicate FallbackCommits(e: Effect, m: Message) {
    if Faults(Fallback, e, m) then m.retryRouted else TimedOut(e, m) ==> m.dlqRouted
  }

  /** The retry topic takes the message. */
  predicate Retries(loop: Loop, e: Effect, m: Message) {
    Faults(loop, e, m) && m.retryRouted
  }

  /** The dead-letter topic takes the message. */
  predicate DeadLetters(loop: Loop, e: Effect, m: Message) {
    (TimedOut(e, m) || (loop == Fallback && DroppedAsStale(e, m))) && m.dlqRouted
  }

  function If(condition: bool, signal: SignalId): seq<SignalId> {
    if condition then [signal] else []
  }

  class RiskEngine {
    var effect: Effect
    /** Signals whose source offset was committed, and those the retry and dead-letter topics took. */
    var committed: seq<SignalId>
    var retried: seq<SignalId>
    var deadLettered: seq<SignalId>

    constructor (effect: Effect)
      ensures this.effect == effect && committed == [] && retried == [] && deadLettered == []
    {
      this.effect := effect;
      committed, retried, deadLettered := [], [], [];
    }

    /** _publish_approved_signal and _publish_approved_enriched; false stands for a raised exception. */
    method PublishApproved(m: Message, id: DecisionId) returns (ok: bool)
      requires m.signal in effect.reservations && effect.reservations[m.signal].id == id
      modifies this`effect
      ensures effect == Sent(old(effect), m, id)
      ensures ok <==> !DeliveryFails(m)
    {
      if m.publish == NotDone { return false; }
      effect := effect.(events := effect.events + [Event(m.signal, id, m.publish == Done)]);
      if m.publish == DoneUnseen || m.mark == NotDone { return false; }
      effect := effect.(reservations := MarkPublished(effect.reservations, m.signal, id));
      ok := m.mark == Done;
    }

    /** _handle_existing_approval_reservation. */
    method HandleExisting(m: Message) returns (ok: bool)
      requires m.signal in effect.reservations
      modifies this`effect
      ensures var found := old(effect).reservations[m.signal];
        effect == (if Resendable(found) then Sent(old(effect), m, found.id) else old(effect)) &&
        (ok <==> !ReservationFails(Fallback, m, found))
    {
      var found := effect.reservations[m.signal];
      if found.id == "" { return false; }
      if found.status == Pending {
        ok := PublishApproved(m, found.id);
        return;
      }
      ok := found.status in {Legacy, Published};
    }

    /** _reserve_risk_decision; `ok` is false when it raises. */
    method Reserve(m: Message) returns (won: bool, ok: bool)
      modifies this`effect
      ensures effect == if m.reserve == NotDone then old(effect)
        else old(effect).(reservations := PutReservation(old(effect).reservations, m.signal, m.id))
      ensures ok <==> m.reserve == Done
      ensures ok ==> (won <==> m.signal !in old(effect).reservations)
    {
      won, ok := false, m.reserve == Done;
      if m.reserve != NotDone {
        won := m.signal !in effect.reservations;
        effect := effect.(reservations := PutReservation(effect.reservations, m.signal, m.id));
      }
    }

    /** A rival instance writes its reservation between our read and our conditional put. */
    method MeetRival(m: Message)
      modifies this`effect
      ensures effect == if m.rival.Some?
        then old(effect).(reservations := old(effect).reservations[m.signal := m.rival.value]) else old(effect)
    {
      if m.rival.Some? {
        effect := effect.(reservations := effect.reservations[m.signal := m.rival.value]);
      }
    }

    /** The fallback loop's inner try block; `ok` is false when it raises, `commit` when it skips the commit. */
    method TryFallback(m: Message) returns (ok: bool, commit: bool)
      requires m.id != ""
      modifies this`effect, this`deadLettered
      ensures effect == HandlerEffect(old(effect), m)
      ensures ok <==> !Faults(Fallback, old(effect), m)
      ensures ok ==> (commit <==> (TimedOut(old(effect), m) ==> m.dlqRouted))
      ensures deadLettered == old(deadLettered) + If(DeadLetters(Fallback, old(effect), m), m.signal)
    {
      ok, commit := true, true;
      if m.readFails { return false, false; }
      if m.signal in effect.reservations {
        ok := HandleExisting(m);
        return;
      }
      if m.expired {
        if m.dlqRouted { deadLettered := deadLettered + [m.signal]; }
        return true, m.dlqRouted;
      }
      if m.decision.Approved? {
        MeetRival(m);
        var won;
        won, ok := Reserve(m);
        if !ok { return; }
        if won { ok := PublishApproved(m, m.id); } else { ok := HandleExisting(m); }
      } else if TakenForStale(m.decision) {
        ok := m.dlqRouted;
        if ok { deadLettered := deadLettered + [m.signal]; }
      }
    }

    /** One message through _kafka_processing_loop. */
    method HandleFallback(m: Message)
      requires m.id != ""
      modifies this
      ensures effect == HandlerEffect(old(effect), m)
      ensures committed == old(committed) + If(FallbackCommits(old(effect), m), m.signal)
      ensures retried == old(retried) + If(Retries(Fallback, old(effect), m), m.signal)
      ensures deadLettered == old(deadLettered) + If(DeadLetters(Fallback, old(effect), m), m.signal)
    {
      var ok, commit := TryFallback(m);
      if !ok {
        commit := m.retryRouted;
        if m.retryRouted { retried := retried + [m.signal]; }
      }
      if commit { committed := committed + [m.signal]; }
    }

    /** The enriched loop's inner try block, with the replay decisions inline. */
    method TryEnriched(m: Message) returns (ok: bool)
      requires m.id != ""
      modifies this`effect, this`deadLettered
      ensures effect == HandlerEffect(old(effect), m)
      ensures ok <==> !Faults(Enriched, old(effect), m)
      ensures deadLettered == old(deadLettered) + If(DeadLetters(Enriched, old(effect), m), m.signal)
    {
      ok := true;
      if m.readFails { return false; }
      if m.signal in effect.reservations {
        var found := effect.reservations[m.signal];
        if found.status == Pending && found.id != "" { ok := PublishApproved(m, found.id); }
        return;
      }
      if m.expired {
        if m.dlqRouted { deadLettered := deadLettered + [m.signal]; }
        return;
      }
      if m.decision.Approved? {
        MeetRival(m);
        var won;
        won, ok := Reserve(m);
        if !ok { return; }
        if won {
          ok := PublishApproved(m, m.id);
        } else {
          var winner := effect.reservations[m.signal];
          if winner.status == Pending && winner.id != "" { ok := PublishApproved(m, winner.id); }
        }
      }
    }

    /** One message through _enriched_processing_loop: whatever happens, the offset is committed. */
    method HandleEnriched(m: Message)
      requires m.id != ""
      modifies this
      ensures effect == HandlerEffect(old(effect), m)
      ensures committed == old(committed) + [m.signal]
      ensures retried == old(retried) + If(Retries(Enriched, old(effect), m), m.signal)
      ensures deadLettered == old(deadLettered) + If(DeadLetters(Enriched, old(effect), m), m.signal)
    {
      var ok := TryEnriched(m);
      if !ok && m.retryRouted { retried := retried + [m.signal]; }
      committed := committed + [m.signal];
    }
  }

  /** A malformed row met while nothing else goes wrong, or a stale rejection that no topic takes. */
  predicate OnlyFallbackObjects(e: Effect, m: Message) {
    if m.signal in e.reservations then Overlooked(e.reservations[m.signal])
    else if m.expired then false
    else if m.decision.Rejected? then TakenForStale(m.decision) && !m.dlqRouted
    else m.reserve == Done && m.rival.Some? && Overlooked(m.rival.value)
  }

  predicate Overlooked(r: Reservation) {
    Malformed(r) && !Resendable(r)
  }

  /**
   * The loops have one effect on reservations and events (both methods ensure it). Whatever
   * faults the enriched loop faults the fallback loop, and the fallback loop alone objects
   * exactly to malformed rows and to stale rejections that cannot be dead-lettered.
   */
  lemma LoopsFaultAlike(e: Effect, m: Message)
    ensures Faults(Enriched, e, m) ==> Faults(Fallback, e, m)
    ensures Faults(Fallback, e, m) && !Faults(Enriched, e, m) <==> !m.readFails && OnlyFallbackObjects(e, m)
  {
  }

  /** The signal was refused where the fallback loop passes on in silence. */
  predicate SilentlyRefused(e: Effect, m: Message) {
    !m.readFails && m.signal !in e.reservations && !m.expired &&
    m.decision.Rejected? && m.decision.check in {KillSwitch, EntryBlock}
  }

  predicate SettledIn(e: Effect, m: Message) {
    m.signal in e.reservations && e.reservations[m.signal].status != PublishStatus.Pending
  }

  /**
   * What a commit of the fallback loop means: the reservation is there and no longer PENDING,
   * or the retry or the dead-letter topic has the message, or the kill switch or the entry
   * block refused the signal. Each of the last three is always followed by the commit.
   */
  lemma FallbackCommitsExactly(e: Effect, m: Message, inputs: Inputs)
    requires m.id != "" && Decides(inputs, m.decision)
    ensures FallbackCommits(e, m) <==>
            (SettledIn(HandlerEffect(e, m), m) && !Faults(Fallback, e, m)) || Retries(Fallback, e, m) ||
            DeadLetters(Fallback, e, m) || SilentlyRefused(e, m)
  {
    if m.decision.Rejected? { TakenForStaleExactly(inputs, m.decision); }
  }

  /** No external call fails, and a rival's row, if there is one, is well formed. */
  predicate FaultFree(e: Effect, m: Message) {
    !m.readFails && m.reserve == Done && m.publish == Done && m.mark == Done && m.id != "" &&
    (m.signal in e.reservations ==> !Malformed(e.reservations[m.signal])) &&
    (m.rival.Some? ==> !Malformed(m.rival.value))
  }

  /** The reservation that stands once the handler is past its own put. */
  function Holder(e: Effect, m: Message): Reservation {
    if m.signal in e.reservations then e.reservations[m.signal]
    else if m.rival.Some? then m.rival.value else Reservation(m.id, PublishStatus.Pending)
  }

  /**
   * Without faults either loop ends with a signal that was reserved before, or that its own
   * pass approved, in the hands of the reservation that came first: if that was PENDING, it is
   * PUBLISHED under its own id and one acknowledged event with that id is out; if not, nothing
   * is sent. A signal that is refused or expired leaves everything as it was.
   */
  lemma FaultFreeDelivers(loop: Loop, e: Effect, m: Message)
    requires FaultFree(e, m)
    ensures var t, first := HandlerEffect(e, m), Holder(e, m);
            if m.signal !in e.reservations && (m.expired || m.decision.Rejected?) then t == e
            else
              !Faults(loop, e, m) &&
              (first.status == PublishStatus.Pending ==>
                 t.reservations == e.reservations[m.signal := Reservation(first.id, Published)] &&
                 t.events == e.events + [Event(m.signal, first.id, true)]) &&
              (first.status != PublishStatus.Pending ==>
                 t.reservations == e.reservations[m.signal := first] && t.events == e.events)
  {
  }
}
