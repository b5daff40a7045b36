/** What holds of every protective call, and over every run of calls, replays and crashes. */
module ProtectionSafety {
  import opened Wrappers
  import opened Orders
  import opened ProtectiveStops
  import FP = FillProtection

  // ---- one call ----

  /** The requests a placement adds: at most one, for the order it was given. */
  ghost predicate Adds(before: seq<Request>, after: seq<Request>, id: OrderId, side: Side, quantity: real) {
    after == before || (exists accepted :: after == before + [Request(id, side, quantity, accepted)])
  }

  lemma PlacementAdds(s: State, id: OrderId, side: Side, quantity: real, how: Placement)
    ensures var p := Place(s, id, side, quantity, how);
            Adds(s.requests, p.state.requests, id, side, quantity) &&
            p.state.parents == s.parents && p.state.halted == s.halted &&
            RowsKept(s.rows, p.state.rows, id) &&
            (p.answer.Response? ==> OnBroker(p.state.requests, id))
  {
    var p := Place(s, id, side, quantity, how);
    var handed := how.Acked? || how.Refused? || how.Doubtful? || (how.Dies? && how.handed);
    var accepted := how.Acked? || ((how.Refused? || how.Doubtful? || how.Dies?) && how.accepted);
    if handed {
      var request := Request(id, side, quantity, accepted);
      assert p.state.requests == s.requests + [request];
      assert p.state.requests[|s.requests|] == request;
    }
  }

  ghost predicate SameOrder(a: Child, b: Child) {
    a.side == b.side && a.quantity == b.quantity
  }

  lemma FailureHaltsAndMarks(s: State, order: Order, key: FillKey, quantity: real, r: Rescue)
    ensures var f := FailureEffect(s, order, key, quantity, r);
            f.0.halted && (f.1 ==> ParentOf(f.0.parents, order.id).failed)
  {
    var t := SetStatus(s.(halted := true), Stop(order.id, key), Rejected, r.rejectWritten);
    var id, side := Flatten(order.id, key), Opposite(order.side);
    PlacementAdds(PutChild(t, id, side, quantity, r.put), id, side, quantity, r.place);
  }

  /** No row appears or disappears, orders keep their terms, and only `id` may change. */
  ghost predicate RowsKept(before: map<OrderId, Child>, after: map<OrderId, Child>, id: OrderId) {
    after.Keys == before.Keys &&
    (forall k :: k in before ==> SameOrder(before[k], after[k]) && (k != id ==> after[k] == before[k]))
  }

  ghost predicate LinkedTo(before: map<OrderId, Parent>, after: map<OrderId, Parent>, parent: OrderId, id: OrderId,
      quantity: real) {
    var p := ParentOf(before, parent);
    ParentOf(after, parent) == p.(linked := Some(id), protectedQuantity := p.protectedQuantity + quantity)
  }

  lemma RecordKeeps(s: State, id: OrderId, status: Status, w: Write)
    ensures var t := Record(s, id, status, w);
            RowsKept(s.rows, t.rows, id) && t == s.(rows := t.rows) &&
            (Took(w) && CanRecord(s, id, status) ==> t.rows[id].hasBrokerId && t.rows[id].status == status)
  {
  }

  lemma ConfirmLinks(s: State, parent: OrderId, id: OrderId, quantity: real, status: Status, script: Script)
    ensures var r := ConfirmEffect(s, parent, id, quantity, status, script);
            r.state.requests == s.requests && r.state.halted == s.halted && RowsKept(s.rows, r.state.rows, id) &&
            r.outcome in {Protected, Raised} &&
            (r.outcome == Protected ==>
               id in s.rows && r.state.rows[id].hasBrokerId && r.state.rows[id].status == status &&
                   LinkedTo(s.parents, r.state.parents, parent, id, quantity))
  {
    RecordKeeps(s, id, status, script.recorded);
  }

  /** The broker's answer to the placement of a new stop. */
  function StopAnswer(s: State, order: Order, quantity: real, filled: real, script: Script): Answer {
    var id, side := Stop(order.id, FillKey(order.id, filled)), Opposite(order.side);
    Place(PutChild(s, id, side, quantity, script.put), id, side, quantity, script.place).answer
  }

  /** What a caller may conclude from each normal return. */
  ghost predicate Kept(s: State, order: Order, quantity: real, filled: real, script: Script, r: Result) {
    var id := Stop(order.id, FillKey(order.id, filled));
    match r.outcome
    case Raised => true
    case NotNeeded => !NeedsStop(order, quantity) && r.state == s
    case AlreadyThere => id in s.rows && r.state == s
    case FailedClosed => id !in s.rows && r.state.halted && ParentOf(r.state.parents, order.id).failed
    case Protected =>
      id !in s.rows && id in r.state.rows && r.state.rows[id].hasBrokerId &&
      StopAnswer(s, order, quantity, filled, script) == Response(r.state.rows[id].status) &&
      r.state.rows[id].side != order.side && r.state.rows[id].quantity == quantity &&
      OnBroker(r.state.requests, id) &&
      LinkedTo(s.parents, r.state.parents, order.id, id, quantity)
  }

  /**
   * On every normal return for a fill that needs a stop, either the stop was accepted by the
   * broker, its row has the answer's status and it is linked for exactly that quantity, or
   * its row was there before and nothing changed, or the service is halted and the parent
   * marked as unprotected.
   */
  lemma ProtectsOrFailsClosed(s: State, order: Order, quantity: real, filled: real, script: Script)
    ensures var r := ProtectEffect(s, order, quantity, filled, script);
            Kept(s, order, quantity, filled, script, r) && (NeedsStop(order, quantity) ==> r.outcome != NotNeeded)
  {
    var key := FillKey(order.id, filled);
    var id, side := Stop(order.id, key), Opposite(order.side);
    var t := PutChild(s, id, side, quantity, script.put);
    PlacementAdds(t, id, side, quantity, script.place);
    var p := Place(t, id, side, quantity, script.place);
    match p.answer
    case Dead =>
    case Error => FailureHaltsAndMarks(p.state, order, key, quantity, script.rescue);
    case Response(status) => ConfirmLinks(p.state, order.id, id, quantity, status, script);
  }

  /** A stop that will never trigger. */
  predicate IsDead(rows: map<OrderId, Child>, id: OrderId) {
    id in rows && rows[id].status in {Rejected, Cancelled}
  }

  /**
   * When protection does not fail closed: a call returns normally with a dead stop and without
   * a halt exactly when the service was running and the row was there before and dead already,
   * or the stop is new, its answer is recorded and linked, and that answer is REJECTED or
   * CANCELLED.
   */
  lemma DeadStopExactly(s: State, order: Order, quantity: real, filled: real, script: Script)
    requires NeedsStop(order, quantity)
    ensures var r := ProtectEffect(s, order, quantity, filled, script);
            var id, answer := Stop(order.id, FillKey(order.id, filled)), StopAnswer(s, order, quantity, filled, script);
            (r.outcome != Raised && !r.state.halted && IsDead(r.state.rows, id)) <==>
            (!s.halted && script.put == Done &&
             (IsDead(s.rows, id) ||
              (id !in s.rows && script.recorded == Done && script.linked == Done &&
               (answer == Response(Rejected) || answer == Response(Cancelled)))))
  {
    ProtectsOrFailsClosed(s, order, quantity, filled, script);
    var id, side := Stop(order.id, FillKey(order.id, filled)), Opposite(order.side);
    var t := PutChild(s, id, side, quantity, script.put);
    PlacementAdds(t, id, side, quantity, script.place);
    if script.put == Done && id !in s.rows {
      NewRowTakesAnswer(t, id, side, quantity, script.place);
    }
  }

  /** The row of a new child can take a dead answer. */
  lemma NewRowTakesAnswer(s: State, id: OrderId, side: Side, quantity: real, how: Placement)
    requires id in s.rows && s.rows[id] == NewChild(side, quantity)
    ensures var p := Place(s, id, side, quantity, how);
            forall status :: p.answer == Response(status) && status in {Rejected, Cancelled} ==>
              CanRecord(p.state, id, status)
  {
  }

  // ---- runs ----

  datatype Event =
    | Fill(order: Order, quantity: real, filled: real, script: Script)
    | Pending(id: OrderId, script: Script)
    | Recover(id: OrderId, hit: Option<Status>, recorded: Write)
    | Update(id: OrderId, status: Status, written: bool)
    | SetHalt(halted: bool)

  function Apply(s: State, e: Event): State {
    match e
    case Fill(order, quantity, filled, script) => ProtectEffect(s, order, quantity, filled, script).state
    case Pending(id, script) => PendingEffect(s, id, script)
    case Recover(id, hit, recorded) => RecoverEffect(s, id, hit, recorded)
    case Update(id, status, written) => UpdateEffect(s, id, status, written)
    case SetHalt(halted) => s.(halted := halted)
  }

  function Run(s: State, run: seq<Event>): State
    decreases |run|
  {
    if run == [] then s else Run(Apply(s, run[0]), run[1..])
  }

  const EMPTY := State(map[], map[], [], false)

  /** Place calls for an id; with `accepted`, only those the broker accepted. */
  function Count(requests: seq<Request>, id: OrderId, accepted: bool): nat {
    if requests == [] then 0
    else
      var last := requests[|requests| - 1];
      Count(requests[..|requests| - 1], id, accepted) + if last.id == id && (accepted ==> last.accepted) then 1 else 0
  }

  lemma CountAdds(before: seq<Request>, after: seq<Request>, id: OrderId, side: Side, quantity: real, x: OrderId,
      accepted: bool)
    requires Adds(before, after, id, side, quantity)
    ensures Count(after, x, accepted) <= Count(before, x, accepted) + if x == id then 1 else 0
  {
    if after != before {
      assert after[..|after| - 1] == before;
    }
  }

  lemma {:induction false} AbsentCountsZero(requests: seq<Request>, id: OrderId, accepted: bool)
    requires forall i :: 0 <= i < |requests| ==> requests[i].id != id
    ensures Count(requests, id, accepted) == 0
  {
    if requests != [] {
      AbsentCountsZero(requests[..|requests| - 1], id, accepted);
    }
  }

  /** Children belong to entry orders only. */
  ghost predicate ChildrenOfEntries(s: State) {
    forall id :: id in s.rows ==> !id.Entry? && id.parent.Entry?
  }

  /** Whatever reached out to the broker has a row with the same side and quantity. */
  ghost predicate RequestsReserved(s: State) {
    forall i :: 0 <= i < |s.requests| ==>
      s.requests[i].id in s.rows && s.rows[s.requests[i].id].side == s.requests[i].side &&
      s.rows[s.requests[i].id].quantity == s.requests[i].quantity
  }

  /** A flatten row stands beside the stop row it replaces, with the same side and quantity. */
  ghost predicate FlattensReplaceStops(s: State) {
    forall id :: id in s.rows && id.Flatten? ==>
      Stop(id.parent, id.fill) in s.rows && SameOrder(s.rows[id], s.rows[Stop(id.parent, id.fill)])
  }

  ghost predicate Sound(s: State) {
    ChildrenOfEntries(s) && RequestsReserved(s) && FlattensReplaceStops(s)
  }

  lemma RowWritesSound(s: State, t: State, id: OrderId)
    requires Sound(s) && RowsKept(s.rows, t.rows, id) && t.requests == s.requests
    ensures Sound(t)
  {
  }

  lemma PutSound(s: State, id: OrderId, side: Side, quantity: real, w: Write)
    requires Sound(s) && !id.Entry? && id.parent.Entry?
    requires id.Flatten? && id !in s.rows ==>
               Stop(id.parent, id.fill) in s.rows &&
                   SameOrder(s.rows[Stop(id.parent, id.fill)], NewChild(side, quantity))
    ensures Sound(PutChild(s, id, side, quantity, w))
  {
  }

  lemma PlaceSound(s: State, id: OrderId, side: Side, quantity: real, how: Placement)
    requires Sound(s) && id in s.rows && s.rows[id].side == side && s.rows[id].quantity == quantity
    ensures Sound(Place(s, id, side, quantity, how).state)
  {
    PlacementAdds(s, id, side, quantity, how);
    var t := Place(s, id, side, quantity, how).state;
    RowWritesSound(s, s.(rows := t.rows), id);
  }

  /** At most one place call (or accepted one) for an id, and none before its row exists. */
  ghost predicate Fits(s: State, x: OrderId, accepted: bool) {
    Count(s.requests, x, accepted) <= if x in s.rows then 1 else 0
  }

  lemma FreshCount(s: State, t: State, id: OrderId, side: Side, quantity: real, x: OrderId, accepted: bool)
    requires RequestsReserved(s) && id !in s.rows && Fits(s, x, accepted)
    requires Adds(s.requests, t.requests, id, side, quantity) && t.rows.Keys == s.rows.Keys + {id}
    ensures Fits(t, x, accepted)
  {
    CountAdds(s.requests, t.requests, id, side, quantity, x, accepted);
    if x == id {
      AbsentCountsZero(s.requests, id, accepted);
    }
  }

  /** Placing for a row that was just created keeps the bound. */
  lemma FreshPlaceFits(s: State, id: OrderId, side: Side, quantity: real, how: Placement, x: OrderId, accepted: bool)
    requires Sound(s) && id !in s.rows && !id.Entry? && id.parent.Entry?
    requires id.Flatten? ==>
               Stop(id.parent, id.fill) in s.rows &&
               SameOrder(s.rows[Stop(id.parent, id.fill)], NewChild(side, quantity))
    requires Fits(s, x, accepted)
    ensures var t := Place(PutChild(s, id, side, quantity, Done), id, side, quantity, how).state;
            Sound(t) && Fits(t, x, accepted) && t.rows.Keys == s.rows.Keys + {id} &&
            SameOrder(t.rows[id], NewChild(side, quantity))
  {
    var u := PutChild(s, id, side, quantity, Done);
    PutSound(s, id, side, quantity, Done);
    PlaceSound(u, id, side, quantity, how);
    PlacementAdds(u, id, side, quantity, how);
    FreshCount(s, Place(u, id, side, quantity, how).state, id, side, quantity, x, accepted);
  }

  lemma FlattenFits(s: State, order: Order, key: FillKey, quantity: real, r: Rescue, x: OrderId, accepted: bool)
    requires Sound(s) && Fits(s, x, accepted) && order.id.Entry? && Flatten(order.id, key) !in s.rows
    requires Stop(order.id, key) in s.rows &&
             SameOrder(s.rows[Stop(order.id, key)], NewChild(Opposite(order.side), quantity))
    ensures var t := FlattenEffect(s, order, key, quantity, r).0;
            Sound(t) && Fits(t, x, accepted)
  {
    var id, side := Flatten(order.id, key), Opposite(order.side);
    PutSound(s, id, side, quantity, r.put);
    if r.put == Done {
      FreshPlaceFits(s, id, side, quantity, r.place, x, accepted);
      var p := Place(PutChild(s, id, side, quantity, Done), id, side, quantity, r.place);
      if p.answer.Response? {
        RecordKeeps(p.state, id, p.answer.status, r.recorded);
        RowWritesSound(p.state, Record(p.state, id, p.answer.status, r.recorded), id);
      }
    }
  }

  lemma FailureFits(s: State, order: Order, key: FillKey, quantity: real, r: Rescue, x: OrderId, accepted: bool)
    requires Sound(s) && Fits(s, x, accepted) && order.id.Entry? && Flatten(order.id, key) !in s.rows
    requires Stop(order.id, key) in s.rows &&
             SameOrder(s.rows[Stop(order.id, key)], NewChild(Opposite(order.side), quantity))
    ensures var t := FailureEffect(s, order, key, quantity, r).0;
            Sound(t) && Fits(t, x, accepted)
  {
    var u := SetStatus(s.(halted := true), Stop(order.id, key), Rejected, r.rejectWritten);
    RowWritesSound(s, u, Stop(order.id, key));
    FlattenFits(u, order, key, quantity, r, x, accepted);
  }

  lemma FillFits(s: State, order: Order, quantity: real, filled: real, script: Script, x: OrderId, accepted: bool)
    requires Sound(s) && Fits(s, x, accepted)
    requires order.id.Flatten? ==> order.protectiveMark
    ensures var t := ProtectEffect(s, order, quantity, filled, script).state;
            Sound(t) && Fits(t, x, accepted)
  {
    var key := FillKey(order.id, filled);
    var id, side := Stop(order.id, key), Opposite(order.side);
    if NeedsStop(order, quantity) && id !in s.rows {
      PutSound(s, id, side, quantity, script.put);
      if script.put == Done {
        FreshPlaceFits(s, id, side, quantity, script.place, x, accepted);
        var p := Place(PutChild(s, id, side, quantity, Done), id, side, quantity, script.place);
        match p.answer
        case Dead =>
        case Error => FailureFits(p.state, order, key, quantity, script.rescue, x, accepted);
        case Response(status) =>
          ConfirmLinks(p.state, order.id, id, quantity, status, script);
          RowWritesSound(p.state, ConfirmEffect(p.state, order.id, id, quantity, status, script).state, id);
      }
    }
  }

  lemma PendingSound(s: State, id: OrderId, script: Script, x: OrderId, accepted: bool)
    requires Sound(s)
    ensures var t := PendingEffect(s, id, script);
            Sound(t) && t.rows.Keys == s.rows.Keys &&
            Count(t.requests, x, accepted) <= Count(s.requests, x, accepted) + (if x == id && id.Stop? then 1 else 0)
  {
    if CanList(s, id, Status.Pending) && id.Stop? {
      var row := s.rows[id];
      PlaceSound(s, id, row.side, row.quantity, script.place);
      PlacementAdds(s, id, row.side, row.quantity, script.place);
      var p := Place(s, id, row.side, row.quantity, script.place);
      CountAdds(s.requests, p.state.requests, id, row.side, row.quantity, x, accepted);
      if p.answer.Response? {
        ConfirmLinks(p.state, id.parent, id, row.quantity, p.answer.status, script);
        RowWritesSound(p.state, ConfirmEffect(p.state, id.parent, id, row.quantity, p.answer.status, script).state, id);
      }
    }
  }

  lemma RecoverSound(s: State, id: OrderId, hit: Option<Status>, recorded: Write)
    requires Sound(s)
    ensures Sound(RecoverEffect(s, id, hit, recorded))
    ensures RecoverEffect(s, id, hit, recorded) == s.(rows := RecoverEffect(s, id, hit, recorded).rows)
    ensures RecoverEffect(s, id, hit, recorded).rows.Keys == s.rows.Keys
  {
    if hit.Some? {
      RecordKeeps(s, id, hit.value, recorded);
      RowWritesSound(s, Record(s, id, hit.value, recorded), id);
    }
  }

  ghost predicate Honest(e: Event) {
    e.Fill? && e.order.id.Flatten? ==> e.order.protectiveMark
  }

  /** Soundness is kept by every event, and the bound by every one but a renewed placement of `x`. */
  lemma StepFits(s: State, e: Event, x: OrderId, accepted: bool)
    requires Sound(s) && Honest(e)
    ensures Sound(Apply(s, e))
    ensures Fits(s, x, accepted) && !(e.Pending? && e.id == x && x.Stop?) ==> Fits(Apply(s, e), x, accepted)
  {
    match e
    case Fill(order, quantity, filled, script) =>
      if Fits(s, x, accepted) {
        FillFits(s, order, quantity, filled, script, x, accepted);
      } else {
        // no request carries an entry order's id, so the bound holds of it
        AbsentCountsZero(s.requests, Entry(""), accepted);
        FillFits(s, order, quantity, filled, script, Entry(""), accepted);
      }
    case Pending(id, script) => PendingSound(s, id, script, x, accepted);
    case Recover(id, hit, recorded) => RecoverSound(s, id, hit, recorded);
    case Update(id, status, written) => RowWritesSound(s, UpdateEffect(s, id, status, written), id);
    case SetHalt(_) =>
  }

  /** Over every run: children never get children, and what reaches the broker is what was reserved. */
  lemma {:induction false} RunSound(s: State, run: seq<Event>)
    requires Sound(s) && forall e :: e in run ==> Honest(e)
    ensures Sound(Run(s, run))
    decreases |run|
  {
    if run != [] {
      StepFits(s, run[0], Entry(""), false);
      RunSound(Apply(s, run[0]), run[1..]);
    }
  }

  /**
   * Over every run of fills, replays, retries, recoveries and crashes, at most one emergency
   * flatten is handed to the broker per parent and cumulative fill, whatever lookups see.
   */
  lemma FlattenHandedAtMostOnce(run: seq<Event>, parent: OrderId, key: FillKey)
    requires forall e :: e in run ==> Honest(e)
    ensures Count(Run(EMPTY, run).requests, Flatten(parent, key), false) <= 1
  {
    RunFits(EMPTY, run, Flatten(parent, key), false);
  }

  /** While startup recovery does not place it again, a stop is handed over at most once. */
  lemma StopHandedAtMostOnce(run: seq<Event>, parent: OrderId, key: FillKey)
    requires forall e :: e in run ==> Honest(e) && !(e.Pending? && e.id == Stop(parent, key))
    ensures Count(Run(EMPTY, run).requests, Stop(parent, key), false) <= 1
  {
    RunFits(EMPTY, run, Stop(parent, key), false);
  }

  lemma {:induction false} RunFits(s: State, run: seq<Event>, x: OrderId, accepted: bool)
    requires Sound(s) && Fits(s, x, accepted)
    requires forall e :: e in run ==> Honest(e) && !(e.Pending? && e.id == x && x.Stop?)
    ensures Sound(Run(s, run)) && Fits(Run(s, run), x, accepted)
    decreases |run|
  {
    if run != [] {
      StepFits(s, run[0], x, accepted);
      RunFits(Apply(s, run[0]), run[1..], x, accepted);
    }
  }

  /** The dialogue gets as far as handing a place call to the broker. */
  predicate Hands(how: Placement) {
    how.Acked? || how.Refused? || how.Doubtful? || (how.Dies? && how.handed)
  }

  /** The search before a renewed placement finds an order that the broker accepted. */
  ghost predicate Sees(s: State, e: Event) {
    e.Pending? && OnBroker(s.requests, e.id) ==> !Hands(e.script.place)
  }

  type Condition = (State, Event) -> bool

  ghost predicate Throughout(c: Condition, s: State, run: seq<Event>)
    decreases |run|
  {
    run == [] || (c(s, run[0]) && Throughout(c, Apply(s, run[0]), run[1..]))
  }

  lemma {:induction false} CountedIsOnBroker(requests: seq<Request>, id: OrderId)
    ensures Count(requests, id, true) > 0 ==> OnBroker(requests, id)
  {
    if requests != [] {
      var rest := requests[..|requests| - 1];
      CountedIsOnBroker(rest, id);
      if OnBroker(rest, id) {
        var i :| 0 <= i < |rest| && rest[i].id == id && rest[i].accepted;
        assert requests[i] == rest[i];
      }
    }
  }

  lemma RetryFits(s: State, id: OrderId, script: Script)
    requires Sound(s) && Fits(s, id, true) && Sees(s, Event.Pending(id, script))
    ensures Fits(PendingEffect(s, id, script), id, true)
  {
    PendingSound(s, id, script, id, true);
    CountedIsOnBroker(s.requests, id);
    if id in s.rows && OnBroker(s.requests, id) {
      var row := s.rows[id];
      assert Place(s, id, row.side, row.quantity, script.place).state == s;
    }
  }

  lemma {:induction false} RunAcceptsOnce(s: State, run: seq<Event>, id: OrderId)
    requires Sound(s) && Fits(s, id, true) && Throughout(Sees, s, run)
    requires forall e :: e in run ==> Honest(e)
    ensures Fits(Run(s, run), id, true)
    decreases |run|
  {
    if run != [] {
      StepFits(s, run[0], id, true);
      if run[0].Pending? && run[0].id == id {
        RetryFits(s, id, run[0].script);
      }
      RunAcceptsOnce(Apply(s, run[0]), run[1..], id);
    }
  }

  /** If the tag lookup sees accepted orders, the broker accepts at most one stop per fill. */
  lemma StopAcceptedAtMostOnce(run: seq<Event>, parent: OrderId, key: FillKey)
    requires Throughout(Sees, EMPTY, run) && forall e :: e in run ==> Honest(e)
    ensures Count(Run(EMPTY, run).requests, Stop(parent, key), true) <= 1
  {
    RunAcceptsOnce(EMPTY, run, Stop(parent, key));
  }

  // ---- one call and the fills of one entry order ----

  /** No stop row is lost, none but `id` is new, and none changes its terms. */
  ghost predicate StopRowsKept(before: map<OrderId, Child>, after: map<OrderId, Child>, id: OrderId) {
    (forall k :: k in before ==> k in after && SameOrder(before[k], after[k])) &&
    (forall k: OrderId :: k in after && k.Stop? && k != id ==> k in before)
  }

  lemma FlattenRows(s: State, order: Order, key: FillKey, quantity: real, r: Rescue)
    ensures StopRowsKept(s.rows, FlattenEffect(s, order, key, quantity, r).0.rows, Flatten(order.id, key))
  {
    var id, side := Flatten(order.id, key), Opposite(order.side);
    var t := PutChild(s, id, side, quantity, r.put);
    assert StopRowsKept(s.rows, t.rows, id);
    PlacementAdds(t, id, side, quantity, r.place);
    var p := Place(t, id, side, quantity, r.place);
    if p.answer.Response? {
      RecordKeeps(p.state, id, p.answer.status, r.recorded);
    }
  }

  lemma FailureRows(s: State, order: Order, key: FillKey, quantity: real, r: Rescue)
    ensures StopRowsKept(s.rows, FailureEffect(s, order, key, quantity, r).0.rows, Flatten(order.id, key))
  {
    var u := SetStatus(s.(halted := true), Stop(order.id, key), Rejected, r.rejectWritten);
    FlattenRows(u, order, key, quantity, r);
    var f := FlattenEffect(u, order, key, quantity, r);
    assert MarkFailed(f.0, order.id, r.marked).rows == f.0.rows;
  }

  lemma ProtectRows(s: State, order: Order, quantity: real, filled: real, script: Script)
    requires NeedsStop(order, quantity) && Took(script.put)
    ensures var id := Stop(order.id, FillKey(order.id, filled));
            var after := ProtectEffect(s, order, quantity, filled, script).state.rows;
            StopRowsKept(s.rows, after, id) && id in after &&
            (id !in s.rows ==> after[id].side != order.side && after[id].quantity == quantity)
  {
    var key := FillKey(order.id, filled);
    var id, side := Stop(order.id, key), Opposite(order.side);
    var t := PutChild(s, id, side, quantity, script.put);
    if script.put == Done && id !in s.rows {
      PlacementAdds(t, id, side, quantity, script.place);
      var p := Place(t, id, side, quantity, script.place);
      match p.answer
      case Dead =>
      case Error => FailureRows(p.state, order, key, quantity, script.rescue);
      case Response(status) => ConfirmLinks(p.state, order.id, id, quantity, status, script);
    }
  }

  /** The stop rows of an entry order are the stops its fills call for, one for one. */
  ghost predicate Agrees(rows: map<OrderId, Child>, id: OrderId, stops: seq<FP.Stop>) {
    (forall filled: real :: Stop(id, FillKey(id, filled)) in rows <==> FP.Exists(stops, filled)) &&
    (forall i :: 0 <= i < |stops| ==>
       Stop(id, FillKey(id, stops[i].fill)) in rows &&
           rows[Stop(id, FillKey(id, stops[i].fill))].quantity == stops[i].quantity)
  }

  /** Each call that gets as far as the child row moves the fill accounting by one event. */
  lemma CallsFollowFills(s: State, order: Order, fills: FP.State, e: FP.Event, script: Script)
    requires Agrees(s.rows, order.id, fills.stops) && FP.Protects(fills, e) && Took(script.put)
    requires !IsProtective(order) && order.stopPrice.Some? && order.stopPrice.value > 0.0
    ensures var t := ProtectEffect(s, order, FP.Target(e).filled - FP.Base(e), FP.Target(e).filled, script).state;
            Agrees(t.rows, order.id, FP.Apply(fills, e).stops)
  {
    var filled, quantity := FP.Target(e).filled, FP.Target(e).filled - FP.Base(e);
    ProtectRows(s, order, quantity, filled, script);
    var t := ProtectEffect(s, order, quantity, filled, script).state;
    var after := FP.Apply(fills, e).stops;
    if FP.Exists(fills.stops, filled) {
      assert after == fills.stops;
    } else {
      assert after == fills.stops + [FP.Stop(filled, quantity)];
      assert after[|fills.stops|].fill == filled;
    }
    forall f: real ensures Stop(order.id, FillKey(order.id, f)) in t.rows <==> FP.Exists(after, f) {
      if FP.Exists(fills.stops, f) {
        var i :| 0 <= i < |fills.stops| && fills.stops[i].fill == f;
        assert after[i].fill == f;
      }
    }
  }
}
