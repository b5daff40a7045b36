/** How a protective call ends, and what it, recovery and updates leave of the child rows. */
module ProtectionOutcomes {
  import opened Wrappers
  import opened Orders
  import opened ProtectiveStops
  import opened ProtectionSafety

  // ---- what one call leaves of its two rows ----

  /**
   * The order of a new row may take the status of the broker's answer: the table has no way
   * to FLATTENING, and none back to PENDING once a doubtful placement was marked.
   */
  predicate Takes(how: Placement, status: Status) {
    status != Flattening && (how.Doubtful? && how.marked ==> status != Status.Pending)
  }

  lemma NewRowTakesExactly(s: State, id: OrderId, side: Side, quantity: real, how: Placement)
    requires id in s.rows && s.rows[id] == NewChild(side, quantity)
    ensures var p := Place(s, id, side, quantity, how);
            forall status :: p.answer == Response(status) ==> (CanRecord(p.state, id, status) <==> Takes(how, status))
  {
  }

  /** A call that creates its stop row. */
  predicate Opens(s: State, order: Order, quantity: real, filled: real, script: Script) {
    NeedsStop(order, quantity) && script.put == Done && Stop(order.id, FillKey(order.id, filled)) !in s.rows
  }

  /** The process dies while it places the flatten order. */
  predicate DiesInFlatten(rows: map<OrderId, Child>, id: OrderId, r: Rescue) {
    r.put == Done && !(id in rows && rows[id].hasBrokerId) && r.place.Dies?
  }

  lemma FlattenSurvives(s: State, order: Order, key: FillKey, quantity: real, r: Rescue)
    ensures FlattenEffect(s, order, key, quantity, r).1 <==> !DiesInFlatten(s.rows, Flatten(order.id, key), r)
  {
  }

  lemma FailureReturnsExactly(s: State, order: Order, key: FillKey, quantity: real, r: Rescue)
    ensures FailureEffect(s, order, key, quantity, r).1 <==>
            !r.sweepRaises && r.marked == Done && !DiesInFlatten(s.rows, Flatten(order.id, key), r)
  {
    FlattenSurvives(SetStatus(s.(halted := true), Stop(order.id, key), Rejected, r.rejectWritten), order, key,
                    quantity, r);
  }

  lemma ConfirmEnds(s: State, parent: OrderId, id: OrderId, quantity: real, status: Status, script: Script)
    ensures ConfirmEffect(s, parent, id, quantity, status, script).outcome ==
            if script.recorded == Done && CanRecord(s, id, status) && script.linked == Done then Protected else Raised
  {
  }

  /** The outcome of a call that creates its stop row. */
  lemma OpenedEnds(s: State, order: Order, quantity: real, filled: real, script: Script)
    requires Opens(s, order, quantity, filled, script)
    ensures var key, answer := FillKey(order.id, filled), StopAnswer(s, order, quantity, filled, script);
            ProtectEffect(s, order, quantity, filled, script).outcome ==
            match answer
              case Dead => Raised
              case Error =>
                if !script.rescue.sweepRaises && script.rescue.marked == Done &&
                   !DiesInFlatten(s.rows, Flatten(order.id, key), script.rescue) then FailedClosed else Raised
              case Response(status) =>
                if Takes(script.place, status) && script.recorded == Done && script.linked == Done
                then Protected else Raised
  {
    var key := FillKey(order.id, filled);
    var id, side := Stop(order.id, key), Opposite(order.side);
    var t := PutChild(s, id, side, quantity, Done);
    var p := Place(t, id, side, quantity, script.place);
    PlacementAdds(t, id, side, quantity, script.place);
    match p.answer
    case Dead =>
    case Error => FailureReturnsExactly(p.state, order, key, quantity, script.rescue);
    case Response(status) =>
      NewRowTakesExactly(t, id, side, quantity, script.place);
      ConfirmEnds(p.state, order.id, id, quantity, status, script);
  }

  /** When each outcome comes about. A caller that sees none of the others sees an exception. */
  lemma OutcomesExactly(s: State, order: Order, quantity: real, filled: real, script: Script)
    ensures var outcome := ProtectEffect(s, order, quantity, filled, script).outcome;
            var id, answer := Stop(order.id, FillKey(order.id, filled)), StopAnswer(s, order, quantity, filled, script);
            var opens := Opens(s, order, quantity, filled, script);
            (outcome == NotNeeded <==>
               order.protectiveMark || order.id.Stop? || order.stopPrice == None || order.stopPrice.value <= 0.0 ||
                   quantity <= 0.0) &&
            (outcome == AlreadyThere <==> NeedsStop(order, quantity) && script.put == Done && id in s.rows) &&
            (outcome == Protected <==>
               opens && answer.Response? && Takes(script.place, answer.status) &&
                   script.recorded == Done && script.linked == Done) &&
            (outcome == FailedClosed <==>
               opens && answer == Error && !script.rescue.sweepRaises && script.rescue.marked == Done &&
                   !DiesInFlatten(s.rows, Flatten(order.id, FillKey(order.id, filled)), script.rescue))
  {
    if Opens(s, order, quantity, filled, script) {
      OpenedEnds(s, order, quantity, filled, script);
    }
  }

  /** The failure handler comes to its flatten order. */
  predicate Rescues(s: State, order: Order, quantity: real, filled: real, script: Script) {
    Opens(s, order, quantity, filled, script) && StopAnswer(s, order, quantity, filled, script) == Error &&
    !script.rescue.sweepRaises
  }

  /** The broker's answer to the placement of a new flatten order, which knows nothing of it yet. */
  function FlattenAnswer(how: Placement): Answer {
    match how
    case Acked(status) => Response(status)
    case Doubtful(true, _, Some(status)) => Response(status)
    case Dies(_, _) => Dead
    case _ => Error
  }

  lemma NewPlacementAnswers(s: State, id: OrderId, side: Side, quantity: real, how: Placement)
    requires !OnBroker(s.requests, id)
    ensures Place(s, id, side, quantity, how).answer == FlattenAnswer(how)
  {
    match how
    case Doubtful(accepted, _, _) =>
      var request := Request(id, side, quantity, accepted);
      var after := s.requests + [request];
      assert after[|s.requests|] == request;
      assert !accepted ==> !OnBroker(after, id);
    case _ =>
  }

  /**
   * The row of a flatten order that did not exist before, at the end of the call: there
   * exactly when the handler came to it and its put took effect, with the broker's status and
   * a broker id exactly when the broker answered and the answer was recorded.
   */
  lemma FlattenRowExactly(s: State, order: Order, quantity: real, filled: real, script: Script)
    requires Flatten(order.id, FillKey(order.id, filled)) !in s.rows
    requires !OnBroker(s.requests, Flatten(order.id, FillKey(order.id, filled)))
    ensures var key, r := FillKey(order.id, filled), script.rescue;
            var id, rows := Flatten(order.id, key), ProtectEffect(s, order, quantity, filled, script).state.rows;
            (id in rows <==> Rescues(s, order, quantity, filled, script) && Took(r.put)) &&
            (id in rows ==>
               rows[id].side != order.side && rows[id].quantity == quantity &&
               (rows[id].hasBrokerId <==>
                  r.put == Done && FlattenAnswer(r.place).Response? && Takes(r.place, FlattenAnswer(r.place).status) &&
                      Took(r.recorded)) &&
               (rows[id].hasBrokerId ==> FlattenAnswer(r.place) == Response(rows[id].status)))
  {
    var key, r := FillKey(order.id, filled), script.rescue;
    var stop, side := Stop(order.id, key), Opposite(order.side);
    var t := PutChild(s, stop, side, quantity, script.put);
    var p := Place(t, stop, side, quantity, script.place);
    PlacementAdds(t, stop, side, quantity, script.place);
    if Rescues(s, order, quantity, filled, script) {
      var u := SetStatus(p.state.(halted := true), stop, Rejected, r.rejectWritten);
      FlattenEnds(u, order, key, quantity, r);
    } else if p.answer.Response? {
      ConfirmLinks(p.state, order.id, stop, quantity, p.answer.status, script);
    }
  }

  lemma FlattenEnds(s: State, order: Order, key: FillKey, quantity: real, r: Rescue)
    requires Flatten(order.id, key) !in s.rows && !OnBroker(s.requests, Flatten(order.id, key))
    ensures var id, rows := Flatten(order.id, key), FlattenEffect(s, order, key, quantity, r).0.rows;
            (id in rows <==> Took(r.put)) &&
            (id in rows ==>
               rows[id].side != order.side && rows[id].quantity == quantity &&
               (rows[id].hasBrokerId <==>
                  r.put == Done && FlattenAnswer(r.place).Response? && Takes(r.place, FlattenAnswer(r.place).status) &&
                      Took(r.recorded)) &&
               (rows[id].hasBrokerId ==> FlattenAnswer(r.place) == Response(rows[id].status)))
  {
    var id, side := Flatten(order.id, key), Opposite(order.side);
    var t := PutChild(s, id, side, quantity, r.put);
    if Took(r.put) {
      NewPlacementAnswers(t, id, side, quantity, r.place);
      NewRowTakesExactly(t, id, side, quantity, r.place);
      PlacementAdds(t, id, side, quantity, r.place);
      NoBrokerIdYet(t, id, side, quantity, r.place);
      if FlattenAnswer(r.place).Response? {
        RecordKeeps(Place(t, id, side, quantity, r.place).state, id, FlattenAnswer(r.place).status, r.recorded);
      }
    }
  }

  /** A placement alone writes no broker id. */
  lemma NoBrokerIdYet(s: State, id: OrderId, side: Side, quantity: real, how: Placement)
    requires id in s.rows
    ensures id in Place(s, id, side, quantity, how).state.rows
    ensures Place(s, id, side, quantity, how).state.rows[id].hasBrokerId == s.rows[id].hasBrokerId
  {
  }

  /** The status a stop row is left with when its placement fails and the handler goes on. */
  function FailedStatus(how: Placement, rejectWritten: bool): Status {
    if rejectWritten || (how.Refused? && how.marked) then Rejected
    else if how.Doubtful? && how.marked then AckUnknown else Status.Pending
  }

  lemma FailedMark(s: State, id: OrderId, side: Side, quantity: real, how: Placement, rejectWritten: bool)
    requires id in s.rows && s.rows[id] == NewChild(side, quantity) && Place(s, id, side, quantity, how).answer == Error
    ensures var u := SetStatus(Place(s, id, side, quantity, how).state.(halted := true), id, Rejected, rejectWritten);
            id in u.rows && !u.rows[id].hasBrokerId && u.rows[id].status == FailedStatus(how, rejectWritten)
  {
  }

  /**
   * The stop row after a failed placement: REJECTED if either rejection was written, otherwise
   * ACK_UNKNOWN if the doubt was, otherwise still PENDING; it never has a broker id.
   */
  lemma FailedStopRow(s: State, order: Order, quantity: real, filled: real, script: Script)
    requires Rescues(s, order, quantity, filled, script)
    ensures var key := FillKey(order.id, filled);
            var id, rows := Stop(order.id, key), ProtectEffect(s, order, quantity, filled, script).state.rows;
            id in rows && !rows[id].hasBrokerId &&
            rows[id].status == FailedStatus(script.place, script.rescue.rejectWritten)
  {
    var key, r := FillKey(order.id, filled), script.rescue;
    var id, side := Stop(order.id, key), Opposite(order.side);
    var t := PutChild(s, id, side, quantity, Done);
    var p := Place(t, id, side, quantity, script.place);
    FailedMark(t, id, side, quantity, script.place, r.rejectWritten);
    var u := SetStatus(p.state.(halted := true), id, Rejected, r.rejectWritten);
    FlattenLeaves(u, order, key, quantity, r, id);
  }

  lemma FlattenLeaves(s: State, order: Order, key: FillKey, quantity: real, r: Rescue, x: OrderId)
    requires x in s.rows && x != Flatten(order.id, key)
    ensures x in FlattenEffect(s, order, key, quantity, r).0.rows
    ensures FlattenEffect(s, order, key, quantity, r).0.rows[x] == s.rows[x]
  {
    var id, side := Flatten(order.id, key), Opposite(order.side);
    PlacementAdds(PutChild(s, id, side, quantity, r.put), id, side, quantity, r.place);
  }

  // ---- what recovery and updates write ----

  /** Recovery places a stop it listed as PENDING with the row's own terms, records and links it. */
  lemma RecoveryPlacesStop(s: State, id: OrderId, status: Status, script: Script)
    requires CanList(s, id, Status.Pending) && id.Stop? && script.place == Acked(status)
    requires CanRecord(s, id, status) && script.recorded == Done && script.linked == Done
    ensures var t, row := PendingEffect(s, id, script), s.rows[id];
            t.requests == s.requests + [Request(id, row.side, row.quantity, true)] &&
            t.rows == s.rows[id := Moved(row, status).(hasBrokerId := true)] &&
            LinkedTo(s.parents, t.parents, id.parent, id, row.quantity)
  {
  }

  /**
   * Startup recovery of a row listed as ACK_UNKNOWN records the order it finds, and only then
   * changes anything; it neither places nor links.
   */
  lemma RecoveryRecordsFound(s: State, id: OrderId, hit: Option<Status>, recorded: Write)
    ensures var t := RecoverEffect(s, id, hit, recorded);
            t.requests == s.requests && t.parents == s.parents && t.halted == s.halted &&
            (CanList(s, id, AckUnknown) && hit.Some? && OnBroker(s.requests, id) && Took(recorded) &&
               CanRecord(s, id, hit.value) ==>
               t.rows == s.rows[id := Moved(s.rows[id], hit.value).(hasBrokerId := true)]) &&
            (t.rows != s.rows ==>
               CanList(s, id, AckUnknown) && hit.Some? && OnBroker(s.requests, id) && Took(recorded))
  {
  }

  /** A reported status reaches exactly the rows with a broker id, along the transition table. */
  lemma UpdatesMoveKnownRows(s: State, id: OrderId, status: Status)
    requires id in s.rows && s.rows[id].status != status
    ensures UpdateEffect(s, id, status, true).rows[id].status == status <==>
            s.rows[id].hasBrokerId && ValidTransition(s.rows[id].status, status)
  {
  }
}
