/** When a stop and the flatten that replaces it can both be accepted by the broker. */
module ProtectionConflicts {
  import opened Wrappers
  import opened Orders
  import opened ProtectiveStops
  import opened ProtectionSafety

  /** The dialogue hands over a place call that the broker accepts. */
  predicate Accepts(how: Placement) {
    how.Acked? || ((how.Refused? || how.Doubtful?) && how.accepted) || (how.Dies? && how.handed && how.accepted)
  }

  predicate Both(requests: seq<Request>, parent: OrderId, key: FillKey) {
    OnBroker(requests, Stop(parent, key)) && OnBroker(requests, Flatten(parent, key))
  }

  // ---- what one call makes the broker accept ----

  lemma HandAccepts(requests: seq<Request>, request: Request, x: OrderId)
    ensures OnBroker(requests + [request], x) <==> OnBroker(requests, x) || (request.id == x && request.accepted)
  {
    var after := requests + [request];
    if OnBroker(requests, x) {
      var i :| 0 <= i < |requests| && requests[i].id == x && requests[i].accepted;
      assert after[i].id == x;
    }
    assert after[|requests|] == request;
  }

  lemma PlaceAccepts(s: State, id: OrderId, side: Side, quantity: real, how: Placement, x: OrderId)
    ensures OnBroker(Place(s, id, side, quantity, how).state.requests, x) <==>
            OnBroker(s.requests, x) || (x == id && Accepts(how))
  {
    if Hands(how) {
      var request := Request(id, side, quantity, Accepts(how));
      assert Place(s, id, side, quantity, how).state.requests == s.requests + [request];
      HandAccepts(s.requests, request, x);
    }
  }

  /** The failure handler gets a flatten order accepted. */
  predicate FlattenGoesOut(r: Rescue) {
    !r.sweepRaises && r.put == Done && Accepts(r.place)
  }

  lemma FailureAccepts(s: State, order: Order, key: FillKey, quantity: real, r: Rescue, x: OrderId)
    requires Flatten(order.id, key) !in s.rows
    ensures OnBroker(FailureEffect(s, order, key, quantity, r).0.requests, x) <==>
            OnBroker(s.requests, x) || (x == Flatten(order.id, key) && FlattenGoesOut(r))
  {
    var id, side := Flatten(order.id, key), Opposite(order.side);
    var t := SetStatus(s.(halted := true), Stop(order.id, key), Rejected, r.rejectWritten);
    PlaceAccepts(PutChild(t, id, side, quantity, r.put), id, side, quantity, r.place, x);
  }

  /** The stop is accepted, and the handler still takes it for failed. */
  predicate LosesStop(how: Placement) {
    (how.Doubtful? && how.accepted && how.rescan == None) || (how.Refused? && how.accepted)
  }

  /** A call for a fill whose stop row does not exist yet and is created. */
  predicate Starts(s: State, order: Order, quantity: real, filled: real, script: Script) {
    NeedsStop(order, quantity) && script.put == Done && Stop(order.id, FillKey(order.id, filled)) !in s.rows
  }

  lemma FillAccepts(s: State, order: Order, quantity: real, filled: real, script: Script, x: OrderId)
    requires Sound(s)
    ensures var key := FillKey(order.id, filled);
            OnBroker(ProtectEffect(s, order, quantity, filled, script).state.requests, x) <==>
            OnBroker(s.requests, x) ||
            (Starts(s, order, quantity, filled, script) &&
             ((x == Stop(order.id, key) && Accepts(script.place)) ||
              (x == Flatten(order.id, key) && FlattenGoesOut(script.rescue) &&
               Place(PutChild(s, Stop(order.id, key), Opposite(order.side), quantity, Done),
                     Stop(order.id, key), Opposite(order.side), quantity, script.place).answer.Error?)))
  {
    if Starts(s, order, quantity, filled, script) {
      var key := FillKey(order.id, filled);
      var id, side := Stop(order.id, key), Opposite(order.side);
      var t := PutChild(s, id, side, quantity, Done);
      var p := Place(t, id, side, quantity, script.place);
      assert Flatten(order.id, key) !in s.rows;
      PlaceAccepts(t, id, side, quantity, script.place, x);
      PlacementAdds(t, id, side, quantity, script.place);
      match p.answer
      case Dead =>
      case Error => FailureAccepts(p.state, order, key, quantity, script.rescue, x);
      case Response(status) => ConfirmLinks(p.state, order.id, id, quantity, status, script);
    }
  }

  lemma UnreservedNotOnBroker(s: State, id: OrderId)
    requires RequestsReserved(s) && id !in s.rows
    ensures !OnBroker(s.requests, id)
  {
  }

  /** An accepted new order answers with an error only by a refusal or when the rescan misses it. */
  lemma AcceptedButFailed(s: State, id: OrderId, side: Side, quantity: real, how: Placement)
    requires !OnBroker(s.requests, id)
    ensures Accepts(how) && Place(s, id, side, quantity, how).answer.Error? <==> LosesStop(how)
  {
    PlaceAccepts(s, id, side, quantity, how, id);
  }

  /** What makes both orders accepted in one protective call. */
  predicate DoublesAtOnce(s: State, order: Order, quantity: real, filled: real, script: Script) {
    Starts(s, order, quantity, filled, script) && LosesStop(script.place) && FlattenGoesOut(script.rescue)
  }

  /**
   * One protective call leaves a stop and its flatten both accepted exactly when the stop is
   * accepted but answered with a refusal, or with a fault after which the rescan misses it,
   * and the flatten goes out.
   */
  lemma BothByCallExactly(s: State, order: Order, quantity: real, filled: real, script: Script)
    requires Sound(s)
    ensures var key := FillKey(order.id, filled);
            Both(ProtectEffect(s, order, quantity, filled, script).state.requests, order.id, key) <==>
            Both(s.requests, order.id, key) || DoublesAtOnce(s, order, quantity, filled, script)
  {
    var key := FillKey(order.id, filled);
    var id, side := Stop(order.id, key), Opposite(order.side);
    FillAccepts(s, order, quantity, filled, script, id);
    FillAccepts(s, order, quantity, filled, script, Flatten(order.id, key));
    if Starts(s, order, quantity, filled, script) {
      UnreservedNotOnBroker(s, id);
      UnreservedNotOnBroker(s, Flatten(order.id, key));
      AcceptedButFailed(PutChild(s, id, side, quantity, Done), id, side, quantity, script.place);
    }
  }

  // ---- over whole runs ----

  /** Startup recovery places a stop that it found listed as PENDING, although its flatten was accepted. */
  predicate Revives(s: State, id: OrderId, script: Script) {
    CanList(s, id, Status.Pending) && id.Stop? &&
    OnBroker(s.requests, Flatten(id.parent, id.fill)) && Accepts(script.place)
  }

  ghost predicate Doubles(s: State, e: Event, parent: OrderId, key: FillKey) {
    match e
    case Fill(order, quantity, filled, script) =>
      order.id == parent && FillKey(parent, filled) == key && DoublesAtOnce(s, order, quantity, filled, script)
    case Pending(id, script) => id == Stop(parent, key) && Revives(s, id, script)
    case _ => false
  }

  lemma PendingAccepts(s: State, id: OrderId, script: Script, x: OrderId)
    ensures OnBroker(PendingEffect(s, id, script).requests, x) <==>
            OnBroker(s.requests, x) ||
            (x == id && CanList(s, id, Status.Pending) && id.Stop? && Accepts(script.place))
  {
    if CanList(s, id, Status.Pending) && id.Stop? {
      var row := s.rows[id];
      PlaceAccepts(s, id, row.side, row.quantity, script.place, x);
      var p := Place(s, id, row.side, row.quantity, script.place);
      if p.answer.Response? {
        ConfirmLinks(p.state, id.parent, id, row.quantity, p.answer.status, script);
      }
    }
  }

  lemma StepDoubles(s: State, e: Event, parent: OrderId, key: FillKey)
    requires Sound(s)
    ensures Both(Apply(s, e).requests, parent, key) <==> Both(s.requests, parent, key) || Doubles(s, e, parent, key)
  {
    match e
    case Fill(order, quantity, filled, script) =>
      if order.id == parent && FillKey(parent, filled) == key {
        BothByCallExactly(s, order, quantity, filled, script);
      } else {
        FillAccepts(s, order, quantity, filled, script, Stop(parent, key));
        FillAccepts(s, order, quantity, filled, script, Flatten(parent, key));
      }
    case Pending(id, script) =>
      PendingAccepts(s, id, script, Stop(parent, key));
      PendingAccepts(s, id, script, Flatten(parent, key));
    case Recover(id, hit, recorded) => RecoverSound(s, id, hit, recorded);
    case Update(_, _, _) =>
    case SetHalt(_) =>
  }

  ghost predicate SomeStepDoubles(s: State, run: seq<Event>, parent: OrderId, key: FillKey)
    decreases |run|
  {
    run != [] && (Doubles(s, run[0], parent, key) || SomeStepDoubles(Apply(s, run[0]), run[1..], parent, key))
  }

  lemma {:induction false} BothFrom(s: State, run: seq<Event>, parent: OrderId, key: FillKey)
    requires Sound(s) && forall e :: e in run ==> Honest(e)
    ensures Both(Run(s, run).requests, parent, key) <==>
            Both(s.requests, parent, key) || SomeStepDoubles(s, run, parent, key)
    decreases |run|
  {
    if run != [] {
      StepDoubles(s, run[0], parent, key);
      StepFits(s, run[0], Entry(""), false);
      BothFrom(Apply(s, run[0]), run[1..], parent, key);
    }
  }

  /**
   * Over every run of fills, replays, recoveries and crashes, one call at a time, the broker
   * has accepted both a stop and its flatten if and only if some call flattened a stop whose
   * acceptance it did not see, or recovery placed a stop that had been flattened but was
   * listed as PENDING.
   */
  lemma BothAcceptedExactly(run: seq<Event>, parent: OrderId, key: FillKey)
    requires forall e :: e in run ==> Honest(e)
    ensures Both(Run(EMPTY, run).requests, parent, key) <==> SomeStepDoubles(EMPTY, run, parent, key)
  {
    BothFrom(EMPTY, run, parent, key);
  }

  // ---- conditions on single steps ----

  /** The rescan after a doubtful place call of a stop finds an order that the broker accepted. */
  predicate RescanFinds(s: State, e: Event) {
    e.Fill? && e.script.place.Doubtful? && e.script.place.accepted ==> e.script.place.rescan.Some?
  }

  /** A stop whose place call is refused was not accepted. */
  predicate RefusalsHold(s: State, e: Event) {
    e.Fill? && e.script.place.Refused? ==> !e.script.place.accepted
  }

  /** The failure handler's REJECTED write on the stop row takes effect. */
  predicate RejectsStick(s: State, e: Event) {
    e.Fill? ==> e.script.rescue.rejectWritten
  }

  /** A row that recovery finds listed as PENDING is PENDING. */
  predicate CurrentListing(s: State, e: Event) {
    e.Pending? && e.id in s.rows ==> s.rows[e.id].status == Status.Pending
  }

  /** Recovery leaves a stop alone when its flatten row exists. */
  predicate NoRevival(s: State, e: Event) {
    e.Pending? && e.id.Stop? ==> Flatten(e.id.parent, e.id.fill) !in s.rows
  }

  predicate FindsAndLeaves(s: State, e: Event) {
    RescanFinds(s, e) && RefusalsHold(s, e) && NoRevival(s, e)
  }

  lemma {:induction false} LeavesNeverDoubles(s: State, run: seq<Event>, parent: OrderId, key: FillKey)
    requires Sound(s) && (forall e :: e in run ==> Honest(e)) && Throughout(FindsAndLeaves, s, run)
    ensures !SomeStepDoubles(s, run, parent, key)
    decreases |run|
  {
    if run != [] {
      if run[0].Pending? && run[0].id.Stop? {
        UnreservedNotOnBroker(s, Flatten(run[0].id.parent, run[0].id.fill));
      }
      StepFits(s, run[0], Entry(""), false);
      LeavesNeverDoubles(Apply(s, run[0]), run[1..], parent, key);
    }
  }

  /** No stop with a flatten row is PENDING, so recovery will not place it. */
  ghost predicate Retired(s: State) {
    forall id :: id in s.rows && id.Flatten? && Stop(id.parent, id.fill) in s.rows ==>
      s.rows[Stop(id.parent, id.fill)].status != Status.Pending
  }

  /** A row other than a call's own two is untouched. */
  ghost predicate OnlyOwnRows(before: map<OrderId, Child>, after: map<OrderId, Child>, stop: OrderId,
      flatten: OrderId) {
    forall k :: k in after && k != stop && k != flatten ==> k in before && after[k] == before[k]
  }

  lemma FlattenOnly(s: State, order: Order, key: FillKey, quantity: real, r: Rescue)
    ensures var id := Flatten(order.id, key);
            OnlyOwnRows(s.rows, FlattenEffect(s, order, key, quantity, r).0.rows, id, id)
  {
    var id, side := Flatten(order.id, key), Opposite(order.side);
    var t := PutChild(s, id, side, quantity, r.put);
    PlacementAdds(t, id, side, quantity, r.place);
    var p := Place(t, id, side, quantity, r.place);
    if p.answer.Response? {
      RecordKeeps(p.state, id, p.answer.status, r.recorded);
    }
  }

  /** A stop row whose placement just failed. */
  predicate JustFailed(rows: map<OrderId, Child>, id: OrderId) {
    id in rows && rows[id].status in {Status.Pending, AckUnknown, Rejected}
  }

  lemma FailureRetires(s: State, order: Order, key: FillKey, quantity: real, r: Rescue)
    requires JustFailed(s.rows, Stop(order.id, key)) && Flatten(order.id, key) !in s.rows && r.rejectWritten
    ensures var stop, flatten := Stop(order.id, key), Flatten(order.id, key);
            var after := FailureEffect(s, order, key, quantity, r).0.rows;
            OnlyOwnRows(s.rows, after, stop, flatten) &&
            (flatten in after ==> stop in after && after[stop].status == Rejected)
  {
    var t := SetStatus(s.(halted := true), Stop(order.id, key), Rejected, true);
    FlattenOnly(t, order, key, quantity, r);
    FlattenRows(t, order, key, quantity, r);
  }

  lemma PlaceFails(s: State, id: OrderId, side: Side, quantity: real, how: Placement)
    requires id !in s.rows
    ensures var p := Place(PutChild(s, id, side, quantity, Done), id, side, quantity, how);
            p.answer.Error? ==> JustFailed(p.state.rows, id)
  {
  }

  lemma FillRetires(s: State, order: Order, quantity: real, filled: real, script: Script)
    requires Sound(s) && Retired(s) && script.rescue.rejectWritten
    ensures Retired(ProtectEffect(s, order, quantity, filled, script).state)
  {
    if NeedsStop(order, quantity) && Stop(order.id, FillKey(order.id, filled)) !in s.rows && script.put == Done {
      var key := FillKey(order.id, filled);
      var id, side := Stop(order.id, key), Opposite(order.side);
      var t := PutChild(s, id, side, quantity, Done);
      var p := Place(t, id, side, quantity, script.place);
      assert Flatten(order.id, key) !in s.rows;
      PlacementAdds(t, id, side, quantity, script.place);
      PlaceFails(s, id, side, quantity, script.place);
      match p.answer
      case Dead =>
      case Error => FailureRetires(p.state, order, key, quantity, script.rescue);
      case Response(status) => ConfirmLinks(p.state, order.id, id, quantity, status, script);
    }
  }

  /** No write brings a row back to PENDING. */
  ghost predicate StaysOff(before: map<OrderId, Child>, after: map<OrderId, Child>) {
    after.Keys == before.Keys &&
    (forall k :: k in before && before[k].status != Status.Pending ==> after[k].status != Status.Pending)
  }

  lemma PlaceStaysOff(s: State, id: OrderId, side: Side, quantity: real, how: Placement)
    ensures StaysOff(s.rows, Place(s, id, side, quantity, how).state.rows)
  {
  }

  lemma RecordStaysOff(s: State, id: OrderId, status: Status, w: Write)
    ensures StaysOff(s.rows, Record(s, id, status, w).rows)
  {
  }

  lemma PendingStaysOff(s: State, id: OrderId, script: Script)
    ensures StaysOff(s.rows, PendingEffect(s, id, script).rows)
  {
    if CanList(s, id, Status.Pending) && id.Stop? {
      var row := s.rows[id];
      var p := Place(s, id, row.side, row.quantity, script.place);
      PlaceStaysOff(s, id, row.side, row.quantity, script.place);
      if p.answer.Response? {
        RecordStaysOff(p.state, id, p.answer.status, script.recorded);
        var r := ConfirmEffect(p.state, id.parent, id, row.quantity, p.answer.status, script);
        assert r.state.rows == Record(p.state, id, p.answer.status, script.recorded).rows;
      }
    }
  }

  lemma RetiredStep(s: State, e: Event)
    requires Sound(s) && Retired(s) && RejectsStick(s, e)
    ensures Retired(Apply(s, e))
  {
    match e
    case Fill(order, quantity, filled, script) => FillRetires(s, order, quantity, filled, script);
    case Pending(id, script) => PendingStaysOff(s, id, script);
    case Recover(id, hit, recorded) => if hit.Some? { RecordStaysOff(s, id, hit.value, recorded); }
    case Update(_, _, _) => assert StaysOff(s.rows, Apply(s, e).rows);
    case SetHalt(_) =>
  }

  predicate FindsAndRejects(s: State, e: Event) {
    RescanFinds(s, e) && RefusalsHold(s, e) && RejectsStick(s, e) && CurrentListing(s, e)
  }

  lemma {:induction false} RejectsNeverDouble(s: State, run: seq<Event>, parent: OrderId, key: FillKey)
    requires Sound(s) && Retired(s) && (forall e :: e in run ==> Honest(e)) && Throughout(FindsAndRejects, s, run)
    ensures !SomeStepDoubles(s, run, parent, key)
    decreases |run|
  {
    if run != [] {
      if run[0].Pending? && run[0].id.Stop? && Flatten(run[0].id.parent, run[0].id.fill) !in s.rows {
        UnreservedNotOnBroker(s, Flatten(run[0].id.parent, run[0].id.fill));
      }
      StepFits(s, run[0], Entry(""), false);
      RetiredStep(s, run[0]);
      RejectsNeverDouble(Apply(s, run[0]), run[1..], parent, key);
    }
  }

  /**
   * If every rescan finds what the broker accepted and refused stops were not accepted, and if
   * recovery leaves flattened stops alone, or the REJECTED write on them takes effect and
   * listings are current, the broker never accepts both.
   */
  lemma NeverBothAccepted(run: seq<Event>, parent: OrderId, key: FillKey)
    requires forall e :: e in run ==> Honest(e)
    requires Throughout(FindsAndLeaves, EMPTY, run) || Throughout(FindsAndRejects, EMPTY, run)
    ensures !Both(Run(EMPTY, run).requests, parent, key)
  {
    if Throughout(FindsAndLeaves, EMPTY, run) {
      LeavesNeverDoubles(EMPTY, run, parent, key);
    } else {
      RejectsNeverDouble(EMPTY, run, parent, key);
    }
    BothAcceptedExactly(run, parent, key);
  }

  // ---- each condition is needed ----

  /** A failure handler that gets its flatten accepted. */
  function Flattens(rejectWritten: bool): Rescue {
    Rescue(false, rejectWritten, Done, Acked(Status.Filled), Done, Done)
  }

  lemma OneStep(c: Condition, s: State, e: Event)
    requires c(s, e)
    ensures Throughout(c, s, [e]) && Run(s, [e]) == Apply(s, e)
  {
    assert [e][1..] == [];
  }

  /**
   * An accepted stop that is refused or lost is taken for a failed one: the flatten goes out
   * too, and both end up at the broker, whatever else holds of the call.
   */
  lemma LostStopIsFlattened(order: Order, quantity: real, filled: real, how: Placement)
    requires NeedsStop(order, quantity) && order.id.Entry? && LosesStop(how)
    ensures var run := [Fill(order, quantity, filled, Script(Done, how, Done, Done, Flattens(true)))];
            Both(Run(EMPTY, run).requests, order.id, FillKey(order.id, filled)) && Honest(run[0]) &&
            Throughout(NoRevival, EMPTY, run) && Throughout(RejectsStick, EMPTY, run) &&
            Throughout(CurrentListing, EMPTY, run) &&
            Throughout(if how.Refused? then RescanFinds else RefusalsHold, EMPTY, run)
  {
    var e := Fill(order, quantity, filled, Script(Done, how, Done, Done, Flattens(true)));
    BothByCallExactly(EMPTY, order, quantity, filled, e.script);
    OneStep(NoRevival, EMPTY, e);
    OneStep(RejectsStick, EMPTY, e);
    OneStep(CurrentListing, EMPTY, e);
    OneStep(if how.Refused? then RescanFinds else RefusalsHold, EMPTY, e);
  }

  /** The search before the stop raises, and the flatten goes out. */
  function Flattened(order: Order, quantity: real, filled: real, rejectWritten: bool): Event {
    Fill(order, quantity, filled, Script(Done, LookupFails, Done, Done, Flattens(rejectWritten)))
  }

  /** Startup recovery finds the stop listed as PENDING, misses it at the broker and places it. */
  function Revival(order: Order, filled: real): Event {
    var script := Script(Done, Acked(Status.Placed), Done, Done, Flattens(true));
    Event.Pending(Stop(order.id, FillKey(order.id, filled)), script)
  }

  lemma FlattenedState(order: Order, quantity: real, filled: real, rejectWritten: bool)
    requires NeedsStop(order, quantity)
    ensures var s := Apply(EMPTY, Flattened(order, quantity, filled, rejectWritten));
            var stop := Stop(order.id, FillKey(order.id, filled));
            var flatten := Flatten(order.id, FillKey(order.id, filled));
            s.requests == [Request(flatten, Opposite(order.side), quantity, true)] &&
            CanList(s, stop, Status.Pending) && (s.rows[stop].status == Status.Pending <==> !rejectWritten)
  {
  }

  lemma TwoSteps(c: Condition, s: State, a: Event, b: Event)
    requires c(s, a) && c(Apply(s, a), b)
    ensures Throughout(c, s, [a, b]) && Run(s, [a, b]) == Apply(Apply(s, a), b)
  {
    assert [a, b][1..] == [b];
    OneStep(c, Apply(s, a), b);
  }

  lemma RevivedBoth(order: Order, quantity: real, filled: real, rejectWritten: bool)
    requires NeedsStop(order, quantity)
    ensures var s := Apply(EMPTY, Flattened(order, quantity, filled, rejectWritten));
            !OnBroker(s.requests, Stop(order.id, FillKey(order.id, filled))) &&
            Both(Apply(s, Revival(order, filled)).requests, order.id, FillKey(order.id, filled))
  {
    var s := Apply(EMPTY, Flattened(order, quantity, filled, rejectWritten));
    var stop, flatten := Stop(order.id, FillKey(order.id, filled)), Flatten(order.id, FillKey(order.id, filled));
    FlattenedState(order, quantity, filled, rejectWritten);
    assert s.requests[0].id == flatten;
    PendingAccepts(s, stop, Revival(order, filled).script, stop);
    PendingAccepts(s, stop, Revival(order, filled).script, flatten);
  }

  lemma RevivedConditions(order: Order, quantity: real, filled: real, rejectWritten: bool)
    requires NeedsStop(order, quantity)
    ensures var run := [Flattened(order, quantity, filled, rejectWritten), Revival(order, filled)];
            Throughout(RescanFinds, EMPTY, run) && Throughout(RefusalsHold, EMPTY, run) &&
            Throughout(if rejectWritten then RejectsStick else CurrentListing, EMPTY, run)
  {
    var first, second := Flattened(order, quantity, filled, rejectWritten), Revival(order, filled);
    FlattenedState(order, quantity, filled, rejectWritten);
    TwoSteps(RescanFinds, EMPTY, first, second);
    TwoSteps(RefusalsHold, EMPTY, first, second);
    TwoSteps(if rejectWritten then RejectsStick else CurrentListing, EMPTY, first, second);
  }

  /**
   * The same end with every acknowledgement and every search honest: startup recovery places
   * the stop of a position that has been flattened, because the REJECTED write on it was lost,
   * or because it acts on a listing from before that write.
   */
  lemma RevivedStopIsAcceptedToo(order: Order, quantity: real, filled: real, rejectWritten: bool)
    requires NeedsStop(order, quantity) && order.id.Entry?
    ensures var run := [Flattened(order, quantity, filled, rejectWritten), Revival(order, filled)];
            Both(Run(EMPTY, run).requests, order.id, FillKey(order.id, filled)) &&
            Honest(run[0]) && Honest(run[1]) && Throughout(Sees, EMPTY, run) &&
            Throughout(RescanFinds, EMPTY, run) && Throughout(RefusalsHold, EMPTY, run) &&
            Throughout(if rejectWritten then RejectsStick else CurrentListing, EMPTY, run)
  {
    var first, second := Flattened(order, quantity, filled, rejectWritten), Revival(order, filled);
    RevivedBoth(order, quantity, filled, rejectWritten);
    RevivedConditions(order, quantity, filled, rejectWritten);
    TwoSteps(Sees, EMPTY, first, second);
  }

  // ---- which way the orders go ----

  lemma FailureOnly(s: State, order: Order, key: FillKey, quantity: real, r: Rescue)
    ensures OnlyOwnRows(s.rows, FailureEffect(s, order, key, quantity, r).0.rows, Stop(order.id, key),
        Flatten(order.id, key))
  {
    FlattenOnly(SetStatus(s.(halted := true), Stop(order.id, key), Rejected, r.rejectWritten), order, key, quantity, r);
  }

  lemma FillOnly(s: State, order: Order, quantity: real, filled: real, script: Script)
    ensures var key := FillKey(order.id, filled);
            OnlyOwnRows(s.rows, ProtectEffect(s, order, quantity, filled, script).state.rows,
                        Stop(order.id, key), Flatten(order.id, key))
  {
    var key := FillKey(order.id, filled);
    var id, side := Stop(order.id, key), Opposite(order.side);
    var t := PutChild(s, id, side, quantity, script.put);
    if script.put == Done && id !in s.rows {
      PlacementAdds(t, id, side, quantity, script.place);
      var p := Place(t, id, side, quantity, script.place);
      match p.answer
      case Dead =>
      case Error => FailureOnly(p.state, order, key, quantity, script.rescue);
      case Response(status) => ConfirmLinks(p.state, order.id, id, quantity, status, script);
    }
  }

  type Sides = OrderId -> Side

  /** Every child row is on the side opposite to its parent's. */
  ghost predicate Opposed(rows: map<OrderId, Child>, sides: Sides) {
    forall id :: id in rows && !id.Entry? ==> rows[id].side == Opposite(sides(id.parent))
  }

  lemma FillOpposed(s: State, order: Order, quantity: real, filled: real, script: Script, sides: Sides)
    requires Sound(s) && Sound(ProtectEffect(s, order, quantity, filled, script).state)
    requires Opposed(s.rows, sides) && sides(order.id) == order.side
    ensures Opposed(ProtectEffect(s, order, quantity, filled, script).state.rows, sides)
  {
    if NeedsStop(order, quantity) && Took(script.put) {
      var key := FillKey(order.id, filled);
      var stop, flatten := Stop(order.id, key), Flatten(order.id, key);
      var after := ProtectEffect(s, order, quantity, filled, script).state.rows;
      FillOnly(s, order, quantity, filled, script);
      ProtectRows(s, order, quantity, filled, script);
      assert after[stop].side == Opposite(order.side);
      if flatten in after {
        assert SameOrder(after[flatten], after[stop]);
      }
    }
  }

  lemma StepOpposed(s: State, e: Event, sides: Sides)
    requires Sound(s) && Opposed(s.rows, sides) && Honest(e) && (e.Fill? ==> sides(e.order.id) == e.order.side)
    ensures Opposed(Apply(s, e).rows, sides)
  {
    StepFits(s, e, Entry(""), false);
    match e
    case Fill(order, quantity, filled, script) => FillOpposed(s, order, quantity, filled, script, sides);
    case Pending(id, script) =>
      if CanList(s, id, Status.Pending) && id.Stop? {
        var row := s.rows[id];
        PlacementAdds(s, id, row.side, row.quantity, script.place);
        var p := Place(s, id, row.side, row.quantity, script.place);
        if p.answer.Response? {
          ConfirmLinks(p.state, id.parent, id, row.quantity, p.answer.status, script);
        }
      }
    case Recover(id, hit, recorded) =>
    case Update(_, _, _) =>
    case SetHalt(_) =>
  }

  lemma {:induction false} RunOpposed(s: State, run: seq<Event>, sides: Sides)
    requires Sound(s) && Opposed(s.rows, sides) && (forall e :: e in run ==> Honest(e))
    requires forall e: Event :: e in run && e.Fill? ==> sides(e.order.id) == e.order.side
    ensures Sound(Run(s, run)) && Opposed(Run(s, run).rows, sides)
    decreases |run|
  {
    if run != [] {
      StepFits(s, run[0], Entry(""), false);
      StepOpposed(s, run[0], sides);
      RunOpposed(Apply(s, run[0]), run[1..], sides);
    }
  }

  /** Over every run, each stop and each flatten handed over is on the side opposite to its parent's. */
  lemma ChildrenCloseTheParent(run: seq<Event>, sides: Sides, i: nat)
    requires forall e :: e in run ==> Honest(e)
    requires forall e: Event :: e in run && e.Fill? ==> sides(e.order.id) == e.order.side
    requires i < |Run(EMPTY, run).requests|
    ensures var request := Run(EMPTY, run).requests[i];
            !request.id.Entry? && request.id.parent.Entry? && request.side == Opposite(sides(request.id.parent))
  {
    RunOpposed(EMPTY, run, sides);
  }
}
