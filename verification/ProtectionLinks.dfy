/** How often a stop is counted in its parent's protected quantity. */
module ProtectionLinks {
  import opened Wrappers
  import opened Orders
  import opened ProtectiveStops
  import opened ProtectionSafety
  import opened ProtectionConflicts

  datatype Counted = Counted(id: OrderId, quantity: real)

  /** The answer is recorded and the link is written. */
  predicate Confirms(p: Placing, id: OrderId, script: Script) {
    p.answer.Response? && script.recorded == Done && CanRecord(p.state, id, p.answer.status) && Took(script.linked)
  }

  /** The stop an event adds to its parent's protected quantity, if it adds one. */
  function Links(s: State, e: Event): Option<Counted> {
    match e
    case Fill(order, quantity, filled, script) =>
      var id, side := Stop(order.id, FillKey(order.id, filled)), Opposite(order.side);
      var p := Place(PutChild(s, id, side, quantity, script.put), id, side, quantity, script.place);
      if Starts(s, order, quantity, filled, script) && Confirms(p, id, script)
      then Some(Counted(id, quantity)) else None
    case Pending(id, script) =>
      if CanList(s, id, Status.Pending) && id.Stop? &&
         Confirms(Place(s, id, s.rows[id].side, s.rows[id].quantity, script.place), id, script)
      then Some(Counted(id, s.rows[id].quantity)) else None
    case _ => None
  }

  function QuantityFor(linked: Option<Counted>, parent: OrderId): real {
    if linked.Some? && (linked.value.id.Stop? && linked.value.id.parent == parent) then linked.value.quantity else 0.0
  }

  function Protected(parents: map<OrderId, Parent>, parent: OrderId): real {
    ParentOf(parents, parent).protectedQuantity
  }

  lemma ConfirmCounts(p: Placing, parent: OrderId, id: OrderId, quantity: real, script: Script, x: OrderId)
    requires p.answer.Response?
    ensures Protected(ConfirmEffect(p.state, parent, id, quantity, p.answer.status, script).state.parents, x) ==
            Protected(p.state.parents, x) + if Confirms(p, id, script) && x == parent then quantity else 0.0
  {
  }

  lemma FlattenLinksNothing(s: State, order: Order, key: FillKey, quantity: real, r: Rescue)
    ensures FlattenEffect(s, order, key, quantity, r).0.parents == s.parents
  {
    var id, side := Flatten(order.id, key), Opposite(order.side);
    PlacementAdds(PutChild(s, id, side, quantity, r.put), id, side, quantity, r.place);
  }

  lemma FailureCounts(s: State, order: Order, key: FillKey, quantity: real, r: Rescue, x: OrderId)
    ensures Protected(FailureEffect(s, order, key, quantity, r).0.parents, x) == Protected(s.parents, x)
  {
    var t := SetStatus(s.(halted := true), Stop(order.id, key), Rejected, r.rejectWritten);
    FlattenLinksNothing(t, order, key, quantity, r);
  }

  lemma FillCounts(s: State, order: Order, quantity: real, filled: real, script: Script, x: OrderId)
    ensures Protected(ProtectEffect(s, order, quantity, filled, script).state.parents, x) ==
            Protected(s.parents, x) + QuantityFor(Links(s, Fill(order, quantity, filled, script)), x)
  {
    if Starts(s, order, quantity, filled, script) {
      var key := FillKey(order.id, filled);
      var id, side := Stop(order.id, key), Opposite(order.side);
      var t := PutChild(s, id, side, quantity, Done);
      var p := Place(t, id, side, quantity, script.place);
      PlacementAdds(t, id, side, quantity, script.place);
      match p.answer
      case Dead =>
      case Error => FailureCounts(p.state, order, key, quantity, script.rescue, x);
      case Response(_) => ConfirmCounts(p, order.id, id, quantity, script, x);
    }
  }

  lemma PendingCounts(s: State, id: OrderId, script: Script, x: OrderId)
    ensures Protected(PendingEffect(s, id, script).parents, x) ==
            Protected(s.parents, x) + QuantityFor(Links(s, Event.Pending(id, script)), x)
  {
    if CanList(s, id, Status.Pending) && id.Stop? {
      var row := s.rows[id];
      var p := Place(s, id, row.side, row.quantity, script.place);
      PlacementAdds(s, id, row.side, row.quantity, script.place);
      if p.answer.Response? {
        ConfirmCounts(p, id.parent, id, row.quantity, script, x);
      }
    }
  }

  lemma StepCounts(s: State, e: Event, x: OrderId)
    ensures Protected(Apply(s, e).parents, x) == Protected(s.parents, x) + QuantityFor(Links(s, e), x)
  {
    match e
    case Fill(order, quantity, filled, script) => FillCounts(s, order, quantity, filled, script, x);
    case Pending(id, script) => PendingCounts(s, id, script, x);
    case Recover(_, _, _) =>
    case Update(_, _, _) =>
    case SetHalt(_) =>
  }

  function TotalLinked(s: State, run: seq<Event>, parent: OrderId): real
    decreases |run|
  {
    if run == [] then 0.0 else QuantityFor(Links(s, run[0]), parent) + TotalLinked(Apply(s, run[0]), run[1..], parent)
  }

  lemma {:induction false} CountedFrom(s: State, run: seq<Event>, parent: OrderId)
    ensures Protected(Run(s, run).parents, parent) == Protected(s.parents, parent) + TotalLinked(s, run, parent)
    decreases |run|
  {
    if run != [] {
      StepCounts(s, run[0], parent);
      CountedFrom(Apply(s, run[0]), run[1..], parent);
    }
  }

  /** Over every run a parent's protected quantity is the sum of what was linked to it, once per linking. */
  lemma ProtectedQuantityAccounted(run: seq<Event>, parent: OrderId)
    ensures Protected(Run(EMPTY, run).parents, parent) == TotalLinked(EMPTY, run, parent)
  {
    CountedFrom(EMPTY, run, parent);
  }

  // ---- each stop once ----

  function Times(s: State, run: seq<Event>, id: OrderId): nat
    decreases |run|
  {
    if run == [] then 0
    else
      (if Links(s, run[0]).Some? && Links(s, run[0]).value.id == id then 1 else 0) +
      Times(Apply(s, run[0]), run[1..], id)
  }

  /** The broker does not answer a placement or a search for a stop with PENDING. */
  predicate NoPendingAnswer(s: State, e: Event) {
    e.Fill? || e.Pending? ==>
      match e.script.place
      case Hit(status) => status != Status.Pending
      case Acked(status) => status != Status.Pending
      case Doubtful(_, _, rescan) => rescan != Some(Status.Pending)
      case _ => true
  }

  predicate LinksOnce(s: State, e: Event) {
    CurrentListing(s, e) && NoPendingAnswer(s, e)
  }

  /** The row exists and has left PENDING. */
  predicate Left(rows: map<OrderId, Child>, id: OrderId) {
    id in rows && rows[id].status != Status.Pending
  }

  lemma LeftStays(s: State, e: Event, id: OrderId)
    requires Left(s.rows, id) && Sound(s) && id.Stop?
    ensures Left(Apply(s, e).rows, id)
  {
    match e
    case Fill(order, quantity, filled, script) =>
      FillOnly(s, order, quantity, filled, script);
      if NeedsStop(order, quantity) && Took(script.put) {
        ProtectRows(s, order, quantity, filled, script);
      }
    case Pending(x, script) => PendingStaysOff(s, x, script);
    case Recover(x, hit, recorded) => if hit.Some? { RecordStaysOff(s, x, hit.value, recorded); }
    case Update(_, _, _) =>
    case SetHalt(_) =>
  }

  /** A stop that is linked has left PENDING, unless the broker answered PENDING. */
  lemma LinkingLeaves(s: State, e: Event)
    requires Links(s, e).Some? && NoPendingAnswer(s, e)
    ensures Left(Apply(s, e).rows, Links(s, e).value.id)
  {
    match e
    case Fill(order, quantity, filled, script) =>
      var id, side := Stop(order.id, FillKey(order.id, filled)), Opposite(order.side);
      var p := Place(PutChild(s, id, side, quantity, Done), id, side, quantity, script.place);
      ConfirmLinks(p.state, order.id, id, quantity, p.answer.status, script);
      RecordKeeps(p.state, id, p.answer.status, script.recorded);
    case Pending(id, script) =>
      var p := Place(s, id, s.rows[id].side, s.rows[id].quantity, script.place);
      RecordKeeps(p.state, id, p.answer.status, script.recorded);
    case _ =>
  }

  lemma {:induction false} NeverLinkedAgain(s: State, run: seq<Event>, id: OrderId)
    requires Sound(s) && Left(s.rows, id) && id.Stop? && Throughout(LinksOnce, s, run)
    requires forall e :: e in run ==> Honest(e)
    ensures Times(s, run, id) == 0
    decreases |run|
  {
    if run != [] {
      StepFits(s, run[0], Entry(""), false);
      LeftStays(s, run[0], id);
      NeverLinkedAgain(Apply(s, run[0]), run[1..], id);
    }
  }

  lemma {:induction false} LinkedOnceFrom(s: State, run: seq<Event>, id: OrderId)
    requires Sound(s) && id.Stop? && Throughout(LinksOnce, s, run) && forall e :: e in run ==> Honest(e)
    ensures Times(s, run, id) <= 1
    decreases |run|
  {
    if run != [] {
      StepFits(s, run[0], Entry(""), false);
      if Links(s, run[0]).Some? && Links(s, run[0]).value.id == id {
        LinkingLeaves(s, run[0]);
        NeverLinkedAgain(Apply(s, run[0]), run[1..], id);
      } else {
        LinkedOnceFrom(Apply(s, run[0]), run[1..], id);
      }
    }
  }

  /**
   * With current listings and no PENDING answers, each stop is counted at most once in its
   * parent's protected quantity, over every run of fills, replays, recoveries and crashes.
   */
  lemma LinkedAtMostOnce(run: seq<Event>, id: OrderId)
    requires id.Stop? && Throughout(LinksOnce, EMPTY, run) && forall e :: e in run ==> Honest(e)
    ensures Times(EMPTY, run, id) <= 1
  {
    LinkedOnceFrom(EMPTY, run, id);
  }

  /**
   * Each condition is needed: a stop that is found at the broker by a recovery that listed it
   * as PENDING is counted again, because the listing is old or because the broker's answer was
   * PENDING. One stop is at the broker, and twice its quantity counts as protected.
   */
  lemma FoundStopIsCountedAgain(order: Order, quantity: real, filled: real, status: Status)
    requires NeedsStop(order, quantity) && order.id.Entry? && status in {Status.Pending, Status.Placed}
    ensures var done := Flattens(true);
            var id := Stop(order.id, FillKey(order.id, filled));
            var run := [Fill(order, quantity, filled, Script(Done, Acked(status), Done, Done, done)),
                        Event.Pending(id, Script(Done, Hit(status), Done, Done, done))];
            Protected(Run(EMPTY, run).parents, order.id) == quantity + quantity &&
            Run(EMPTY, run).requests == [Request(id, Opposite(order.side), quantity, true)] &&
            Throughout(if status == Status.Pending then CurrentListing else NoPendingAnswer, EMPTY, run)
  {
    var done := Flattens(true);
    var id := Stop(order.id, FillKey(order.id, filled));
    var first := Fill(order, quantity, filled, Script(Done, Acked(status), Done, Done, done));
    var second := Event.Pending(id, Script(Done, Hit(status), Done, Done, done));
    var s := Apply(EMPTY, first);
    assert s.requests == [Request(id, Opposite(order.side), quantity, true)];
    assert s.requests[0].id == id && OnBroker(s.requests, id);
    assert s.rows[id].status == status && CanList(s, id, Status.Pending);
    StepCounts(EMPTY, first, order.id);
    StepCounts(s, second, order.id);
    TwoSteps(if status == Status.Pending then CurrentListing else NoPendingAnswer, EMPTY, first, second);
  }
}
