/**
 * Protective stops and emergency flattens: the child orders of one service process, the
 * rows that reserve them and what reaches the broker. One call runs at a time; a call may
 * break off at any await (a raised exception, or the death of the process).
 */
module ProtectiveStops {
  import opened Wrappers
  import opened Orders

  /** The ids the service builds; they are taken to be distinct for distinct arguments. */
  datatype OrderId =
    | Entry(name: string)
    | Stop(parent: OrderId, fill: FillKey)
    | Flatten(parent: OrderId, fill: FillKey)

  /** Hash of the parent id and the cumulative filled quantity, taken to be injective. */
  datatype FillKey = FillKey(orderId: OrderId, filled: real)

  /** A parent order as the caller holds it; `protectiveMark` is its flag or protective type. */
  datatype Order = Order(id: OrderId, side: Side, stopPrice: Option<real>, protectiveMark: bool)

  /** A child row. `history` holds every status it has had: what an index listing may still show. */
  datatype Child = Child(side: Side, quantity: real, status: Status, history: set<Status>, hasBrokerId: bool)

  datatype Parent = Parent(protectedQuantity: real, linked: Option<OrderId>, failed: bool)

  /** One place call handed to the broker, tagged with the key of its order. */
  datatype Request = Request(id: OrderId, side: Side, quantity: real, accepted: bool)

  datatype State = State(
    rows: map<OrderId, Child>, parents: map<OrderId, Parent>, requests: seq<Request>, halted: bool)

  /**
   * How the dialogue of one placement goes. A place call that ends in a refusal or in any
   * other exception may have been accepted all the same.
   */
  datatype Placement =
    | LookupFails
    | Hit(status: Status)
    | LimiterFails
    | Acked(status: Status)
    | Refused(accepted: bool, marked: bool)
    | Doubtful(accepted: bool, marked: bool, rescan: Option<Status>)
    | Dies(handed: bool, accepted: bool)

  datatype Answer = Response(status: Status) | Error | Dead

  /** A write that succeeds, that fails, or that takes effect while the caller sees an error. */
  datatype Write = Done | Failed | Unseen

  predicate Took(w: Write) {
    w != Failed
  }

  /** How the failure handler goes. */
  datatype Rescue = Rescue(
    sweepRaises: bool, rejectWritten: bool, put: Write, place: Placement, recorded: Write, marked: Write)

  datatype Script = Script(put: Write, place: Placement, recorded: Write, linked: Write, rescue: Rescue)

  datatype Outcome = NotNeeded | Raised | AlreadyThere | Protected | FailedClosed

  predicate OnBroker(requests: seq<Request>, id: OrderId) {
    exists i :: 0 <= i < |requests| && requests[i].id == id && requests[i].accepted
  }

  predicate IsProtective(order: Order) {
    order.protectiveMark || order.id.Stop?
  }

  predicate NeedsStop(order: Order, quantity: real) {
    !IsProtective(order) && order.stopPrice.Some? && order.stopPrice.value > 0.0 && quantity > 0.0
  }

  // ---- effects on the state ----

  function Moved(row: Child, status: Status): Child {
    row.(status := status, history := row.history + {status})
  }

  function SetStatus(s: State, id: OrderId, status: Status, written: bool): State {
    if written && id in s.rows && ValidTransition(s.rows[id].status, status)
    then s.(rows := s.rows[id := Moved(s.rows[id], status)])
    else s
  }

  function Hand(s: State, id: OrderId, side: Side, quantity: real, accepted: bool): State {
    s.(requests := s.requests + [Request(id, side, quantity, accepted)])
  }

  datatype Placing = Placing(state: State, answer: Answer)

  /** _place_order_with_broker_idempotency with the kill switch overridden. */
  function Place(s: State, id: OrderId, side: Side, quantity: real, how: Placement): Placing {
    match how
    case LookupFails => Placing(s, Error)
    case LimiterFails => Placing(s, Error)
    case Hit(status) => Placing(s, if OnBroker(s.requests, id) then Response(status) else Error)
    case Acked(status) => Placing(Hand(s, id, side, quantity, true), Response(status))
    case Refused(accepted, marked) =>
      Placing(SetStatus(Hand(s, id, side, quantity, accepted), id, Rejected, marked), Error)
    case Doubtful(accepted, marked, rescan) =>
      var t := SetStatus(Hand(s, id, side, quantity, accepted), id, AckUnknown, marked);
      Placing(t, if rescan.Some? && OnBroker(t.requests, id) then Response(rescan.value) else Error)
    case Dies(handed, accepted) => Placing(if handed then Hand(s, id, side, quantity, accepted) else s, Dead)
  }

  predicate CanRecord(s: State, id: OrderId, status: Status) {
    id in s.rows && ValidTransition(s.rows[id].status, status)
  }

  /** record_order; the caller goes on only if it saw a legal write succeed. */
  function Record(s: State, id: OrderId, status: Status, w: Write): State {
    if Took(w) && CanRecord(s, id, status)
    then s.(rows := s.rows[id := Moved(s.rows[id], status).(hasBrokerId := true)])
    else s
  }

  function ParentOf(parents: map<OrderId, Parent>, id: OrderId): Parent {
    if id in parents then parents[id] else Parent(0.0, None, false)
  }

  /** link_protective_child. */
  function Link(s: State, parent: OrderId, child: OrderId, quantity: real, w: Write): State {
    var p := ParentOf(s.parents, parent);
    if Took(w)
    then s.(parents := s.parents[parent := p.(protectedQuantity := p.protectedQuantity + quantity,
        linked := Some(child))])
    else s
  }

  /** mark_protection_failed. */
  function MarkFailed(s: State, parent: OrderId, w: Write): State {
    if Took(w) then s.(parents := s.parents[parent := ParentOf(s.parents, parent).(failed := true)]) else s
  }

  function NewChild(side: Side, quantity: real): Child {
    Child(side, quantity, Pending, {Pending}, false)
  }

  /** submit_child_order: nothing is overwritten. */
  function PutChild(s: State, id: OrderId, side: Side, quantity: real, w: Write): State {
    if Took(w) && id !in s.rows then s.(rows := s.rows[id := NewChild(side, quantity)]) else s
  }

  /** _place_emergency_flatten_order; false when the process died. Errors end in its caller. */
  function FlattenEffect(s: State, order: Order, key: FillKey, quantity: real, r: Rescue): (State, bool) {
    var id, side := Flatten(order.id, key), Opposite(order.side);
    var t := PutChild(s, id, side, quantity, r.put);
    if r.put != Done || (id in s.rows && s.rows[id].hasBrokerId) then (t, true)
    else
      var p := Place(t, id, side, quantity, r.place);
      match p.answer
      case Dead => (p.state, false)
      case Error => (p.state, true)
      case Response(status) => (Record(p.state, id, status, r.recorded), true)
  }

  /** _handle_protective_stop_failure; true when it returns normally. */
  function FailureEffect(s: State, order: Order, key: FillKey, quantity: real, r: Rescue): (State, bool) {
    var s := s.(halted := true);
    if r.sweepRaises then (s, false)
    else
      var f := FlattenEffect(SetStatus(s, Stop(order.id, key), Rejected, r.rejectWritten), order, key, quantity, r);
      if f.1 then (MarkFailed(f.0, order.id, r.marked), r.marked == Done) else (f.0, false)
  }

  datatype Result = Result(state: State, outcome: Outcome)

  /** record_order and link_protective_child after the broker's answer. */
  function ConfirmEffect(s: State, parent: OrderId, id: OrderId, quantity: real, status: Status,
      script: Script): Result {
    var t := Record(s, id, status, script.recorded);
    if script.recorded != Done || !CanRecord(s, id, status) then Result(t, Raised)
    else Result(Link(t, parent, id, quantity, script.linked), if script.linked == Done then Protected else Raised)
  }

  /** _maybe_place_protective_stop for a fill of `quantity` at the cumulative quantity `filled`. */
  function ProtectEffect(s: State, order: Order, quantity: real, filled: real, script: Script): Result {
    var key := FillKey(order.id, filled);
    var id, side := Stop(order.id, key), Opposite(order.side);
    var t := PutChild(s, id, side, quantity, script.put);
    if !NeedsStop(order, quantity) then Result(s, NotNeeded)
    else if script.put != Done then Result(t, Raised)
    else if id in s.rows then Result(s, AlreadyThere)
    else
      var p := Place(t, id, side, quantity, script.place);
      match p.answer
      case Dead => Result(p.state, Raised)
      case Error =>
        var f := FailureEffect(p.state, order, key, quantity, script.rescue);
        Result(f.0, if f.1 then FailedClosed else Raised)
      case Response(status) => ConfirmEffect(p.state, order.id, id, quantity, status, script)
  }

  /** The index may list the row with this status: one it has, or has had. */
  predicate CanList(s: State, id: OrderId, listed: Status) {
    id in s.rows && listed in s.rows[id].history
  }

  /**
   * _place_pending_protective_order for a row listed as PENDING; the row is not read again.
   * A flatten row has no stop price, so it is refused; a stop row is looked up and placed
   * under its own id.
   */
  function PendingEffect(s: State, id: OrderId, script: Script): State {
    if !(CanList(s, id, Pending) && id.Stop?) then s
    else
      var row := s.rows[id];
      var p := Place(s, id, row.side, row.quantity, script.place);
      match p.answer
      case Response(status) => ConfirmEffect(p.state, id.parent, id, row.quantity, status, script).state
      case _ => p.state
  }

  /** Startup recovery of a row listed as ACK_UNKNOWN: it searches and records, and never links. */
  function RecoverEffect(s: State, id: OrderId, hit: Option<Status>, recorded: Write): State {
    if CanList(s, id, AckUnknown) && hit.Some? && OnBroker(s.requests, id)
    then Record(s, id, hit.value, recorded) else s
  }

  /** A status the broker reports for a child it has acknowledged. */
  function UpdateEffect(s: State, id: OrderId, status: Status, written: bool): State {
    SetStatus(s, id, status, written && id in s.rows && s.rows[id].hasBrokerId)
  }

  // ---- the service's own methods ----

  class Desk {
    var rows: map<OrderId, Child>
    var parents: map<OrderId, Parent>
    var requests: seq<Request>
    var halted: bool

    function Abstract(): State
      reads this
    {
      State(rows, parents, requests, halted)
    }

    constructor ()
      ensures Abstract() == State(map[], map[], [], false)
    {
      rows, parents, requests, halted := map[], map[], [], false;
    }

    method UpdateStatus(id: OrderId, status: Status, written: bool)
      modifies this`rows
      ensures Abstract() == SetStatus(old(Abstract()), id, status, written)
    {
      if written && id in rows {
        if ValidTransition(rows[id].status, status) {
          rows := rows[id := Moved(rows[id], status)];
        }
      }
    }

    /** find_order_by_client_order_id, then place_order unless it found something. */
    method PlaceWithIdempotency(id: OrderId, side: Side, quantity: real, how: Placement) returns (answer: Answer)
      modifies this`rows, this`requests
      ensures Placing(Abstract(), answer) == Place(old(Abstract()), id, side, quantity, how)
    {
      match how {
        case LookupFails => return Error;
        case Hit(status) =>
          if OnBroker(requests, id) { return Response(status); }
          return Error;
        case LimiterFails => return Error;
        case _ =>
      }
      if how.Dies? && !how.handed { return Dead; }
      var accepted := how.Acked? || how.accepted;
      requests := requests + [Request(id, side, quantity, accepted)];
      match how {
        case Acked(status) => answer := Response(status);
        case Refused(_, marked) =>
          UpdateStatus(id, Rejected, marked);
          answer := Error;
        case Doubtful(_, marked, rescan) =>
          UpdateStatus(id, AckUnknown, marked);
          answer := if rescan.Some? && OnBroker(requests, id) then Response(rescan.value) else Error;
        case _ => answer := Dead;
      }
    }

    /** record_order; false means that it raised. */
    method RecordOrder(id: OrderId, status: Status, w: Write) returns (ok: bool)
      modifies this`rows
      ensures Abstract() == Record(old(Abstract()), id, status, w)
      ensures ok <==> w == Done && CanRecord(old(Abstract()), id, status)
    {
      if id !in rows || !ValidTransition(rows[id].status, status) { return false; }
      if Took(w) {
        rows := rows[id := Moved(rows[id], status).(hasBrokerId := true)];
      }
      ok := w == Done;
    }

    method LinkChild(parent: OrderId, child: OrderId, quantity: real, w: Write) returns (ok: bool)
      modifies this`parents
      ensures Abstract() == Link(old(Abstract()), parent, child, quantity, w)
      ensures ok <==> w == Done
    {
      if Took(w) {
        var p := ParentOf(parents, parent);
        parents := parents[parent :=
          p.(protectedQuantity := p.protectedQuantity + quantity, linked := Some(child))];
      }
      ok := w == Done;
    }

    /** submit_child_order: None when it raised, otherwise whether the row was created. */
    method SubmitChild(id: OrderId, side: Side, quantity: real, w: Write) returns (created: Option<bool>)
      modifies this`rows
      ensures Abstract() == PutChild(old(Abstract()), id, side, quantity, w)
      ensures created == if w == Done then Some(id !in old(rows)) else None
    {
      created := if w == Done then Some(id !in rows) else None;
      if Took(w) && id !in rows {
        rows := rows[id := NewChild(side, quantity)];
      }
    }

    /** The body of the try block of the failure handler; false when the process died. */
    method PlaceFlatten(order: Order, key: FillKey, quantity: real, r: Rescue) returns (alive: bool)
      modifies this`rows, this`requests
      ensures (Abstract(), alive) == FlattenEffect(old(Abstract()), order, key, quantity, r)
    {
      var id, side := Flatten(order.id, key), Opposite(order.side);
      var created := SubmitChild(id, side, quantity, r.put);
      if created == None { return true; }
      if !created.value {
        if rows[id].hasBrokerId { return true; }
      }
      var answer := PlaceWithIdempotency(id, side, quantity, r.place);
      match answer {
        case Dead => alive := false;
        case Error => alive := true;
        case Response(status) =>
          var _ := RecordOrder(id, status, r.recorded);
          alive := true;
      }
    }

    /** Halts first, flattens, and marks the parent whatever became of the flatten order. */
    method HandleStopFailure(order: Order, key: FillKey, quantity: real, r: Rescue) returns (ok: bool)
      modifies this
      ensures (Abstract(), ok) == FailureEffect(old(Abstract()), order, key, quantity, r)
    {
      halted := true;
      if r.sweepRaises { return false; }
      UpdateStatus(Stop(order.id, key), Rejected, r.rejectWritten);
      var alive := PlaceFlatten(order, key, quantity, r);
      if !alive { return false; }
      if Took(r.marked) {
        parents := parents[order.id := ParentOf(parents, order.id).(failed := true)];
      }
      ok := r.marked == Done;
    }

    method Confirm(parent: OrderId, id: OrderId, quantity: real, status: Status, script: Script)
      returns (outcome: Outcome)
      modifies this`rows, this`parents
      ensures Result(Abstract(), outcome) == ConfirmEffect(old(Abstract()), parent, id, quantity, status, script)
    {
      var recorded := RecordOrder(id, status, script.recorded);
      if !recorded { return Raised; }
      var linked := LinkChild(parent, id, quantity, script.linked);
      outcome := if linked then Protected else Raised;
    }

    method MaybePlaceProtectiveStop(order: Order, quantity: real, filled: real, script: Script)
      returns (outcome: Outcome)
      modifies this
      ensures Result(Abstract(), outcome) == ProtectEffect(old(Abstract()), order, quantity, filled, script)
    {
      if IsProtective(order) { return NotNeeded; }
      if order.stopPrice == None || order.stopPrice.value <= 0.0 || quantity <= 0.0 { return NotNeeded; }
      var key := FillKey(order.id, filled);
      var id, side := Stop(order.id, key), Opposite(order.side);
      var created := SubmitChild(id, side, quantity, script.put);
      if created == None { return Raised; }
      if !created.value { return AlreadyThere; }
      var answer := PlaceWithIdempotency(id, side, quantity, script.place);
      match answer {
        case Dead => return Raised;
        case Error =>
          var ok := HandleStopFailure(order, key, quantity, script.rescue);
          outcome := if ok then FailedClosed else Raised;
        case Response(status) => outcome := Confirm(order.id, id, quantity, status, script);
      }
    }

    /** One protective row of startup reconciliation, listed as PENDING. */
    method PlacePendingProtective(id: OrderId, script: Script)
      modifies this
      ensures Abstract() == PendingEffect(old(Abstract()), id, script)
    {
      if id !in rows || !id.Stop? { return; }
      if Pending !in rows[id].history { return; }
      var row := rows[id];
      var answer := PlaceWithIdempotency(id, row.side, row.quantity, script.place);
      if answer.Response? {
        var _ := Confirm(id.parent, id, row.quantity, answer.status, script);
      }
    }
  }
}
