/**
 * Both services together: the execution engine's handlers are fed by the events the risk
 * engine put into the topic, each delivered any number of times, in any order.
 */
module SignalPath {
  import opened Wrappers
  import Risk = RiskOutbox
  import RiskSafety = RiskOutboxSafety
  import Orders = OrderProtocol
  import OrdersInvariant = OrderProtocolInvariant
  import OrdersSafety = OrderSafety

  datatype State = State(risk: Risk.State, orders: Orders.State)

  datatype Step = RiskStep(risk: Risk.Step) | OrderStep(order: Orders.Step)

  ghost predicate InTopic(risk: Risk.State, signal: string, decision: string) {
    exists i :: 0 <= i < |risk.events| && risk.events[i].signal == signal && risk.events[i].id == decision
  }

  /** Messages and paper orders come from the topic only. */
  ghost predicate Fed(s: State, step: Orders.Step) {
    match step
    case Deliver(_, signal, decision) => InTopic(s.risk, signal, decision)
    case PaperSubmit(signal, decision, _) => InTopic(s.risk, signal, decision)
    case _ => true
  }

  ghost function Apply(s: State, step: Step): State {
    match step
    case RiskStep(r) => s.(risk := Risk.Apply(s.risk, r))
    case OrderStep(o) => if Fed(s, o) then s.(orders := Orders.Apply(s.orders, o)) else s
  }

  ghost function Run(s: State, run: seq<Step>): State
    decreases |run|
  {
    if run == [] then s else Run(Apply(s, run[0]), run[1..])
  }

  ghost predicate Start(s: State) {
    Risk.Start(s.risk) && s.orders == Orders.EMPTY_STATE
  }

  /** The id is the one reserved for the signal, and its pass let the signal through every check. */
  ghost predicate Backed(risk: Risk.State, signal: string, decision: string) {
    signal in risk.reservations && risk.reservations[signal].id == decision &&
    RiskSafety.ApprovedId(risk.passes, signal, decision)
  }

  ghost predicate AllBacked(risk: Risk.State, orders: Orders.State) {
    && (forall o :: o in orders.rows ==> Backed(risk, orders.rows[o].signal, orders.rows[o].decision))
    && (forall w :: w in orders.workers ==> Backed(risk, orders.workers[w].signal, orders.workers[w].decision))
    && (forall i :: 0 <= i < |orders.requests| ==> Backed(risk, orders.requests[i].signal, orders.requests[i].decision))
  }

  ghost predicate Sound(s: State) {
    RiskSafety.Sound(s.risk) && OrdersInvariant.Sound(s.orders) && AllBacked(s.risk, s.orders)
  }

  lemma TopicIsBacked(risk: Risk.State, signal: string, decision: string)
    requires RiskSafety.Sound(risk) && InTopic(risk, signal, decision)
    ensures Backed(risk, signal, decision)
  {
    assert RiskSafety.ReservationOk(risk.events, risk.passes, signal, risk.reservations[signal]);
  }

  /** Reservations keep their id and passes stay, so what is backed stays backed. */
  lemma BackedKept(a: Risk.State, b: Risk.State, orders: Orders.State)
    requires RiskSafety.Moves(a, b) && AllBacked(a, orders)
    ensures AllBacked(b, orders)
  {
  }

  lemma OrderStepBacked(risk: Risk.State, s: Orders.State, step: Orders.Step, t: Orders.State)
    requires AllBacked(risk, s)
    requires OrdersSafety.WorkersShape(s, step, t) && OrdersSafety.RequestsShape(s, step, t) &&
        OrdersSafety.RowsShape(s, step, t)
    requires step.Deliver? || step.PaperSubmit? ==> Backed(risk, step.signal, step.decision)
    ensures AllBacked(risk, t)
  {
    forall o | o in t.rows ensures Backed(risk, t.rows[o].signal, t.rows[o].decision) {
      if o in s.rows { assert OrdersSafety.RowShape(s, step, o, t.rows[o]); }
    }
    forall w | w in t.workers ensures Backed(risk, t.workers[w].signal, t.workers[w].decision) {
      assert OrdersSafety.WorkerShape(s, step, w, t.workers[w]);
    }
  }

  lemma StepSound(s: State, step: Step)
    requires Sound(s)
    ensures Sound(Apply(s, step))
  {
    match step {
      case RiskStep(r) =>
        RiskSafety.StepSound(s.risk, r);
        BackedKept(s.risk, Risk.Apply(s.risk, r), s.orders);
      case OrderStep(o) =>
        if Fed(s, o) {
          OrdersSafety.StepShape(s.orders, o);
          if o.Deliver? || o.PaperSubmit? { TopicIsBacked(s.risk, o.signal, o.decision); }
          OrderStepBacked(s.risk, s.orders, o, Orders.Apply(s.orders, o));
        }
    }
  }

  lemma {:induction false} RunSound(s: State, run: seq<Step>)
    requires Sound(s)
    ensures Sound(Run(s, run))
    decreases |run|
  {
    if run != [] {
      StepSound(s, run[0]);
      RunSound(Apply(s, run[0]), run[1..]);
    }
  }

  /**
   * Every entry order ever handed to the broker carries the decision id reserved for its
   * signal, and that id stands for a pass over this very signal in which each of the
   * thirteen checks let it through.
   */
  lemma EveryOrderWasApproved(start: State, run: seq<Step>, i: nat)
    requires Start(start) && i < |Run(start, run).orders.requests|
    ensures var s := Run(start, run); var r := s.orders.requests[i];
      r.signal in s.risk.reservations && s.risk.reservations[r.signal].id == r.decision &&
      RiskSafety.ApprovedId(s.risk.passes, r.signal, r.decision)
  {
    RiskSafety.StartSound(start.risk);
    RunSound(start, run);
  }

  /** Two placements of one signal carry one decision and one broker key, across both services. */
  lemma OneDecisionOneKey(start: State, run: seq<Step>, i: nat, j: nat)
    requires Start(start)
    requires i < |Run(start, run).orders.requests| && j < |Run(start, run).orders.requests|
    requires Run(start, run).orders.requests[i].signal == Run(start, run).orders.requests[j].signal
    ensures Run(start, run).orders.requests[i].decision == Run(start, run).orders.requests[j].decision
    ensures Run(start, run).orders.requests[i].key == Run(start, run).orders.requests[j].key
  {
    RiskSafety.StartSound(start.risk);
    RunSound(start, run);
    var s := Run(start, run);
    assert Backed(s.risk, s.orders.requests[i].signal, s.orders.requests[i].decision);
    assert OrdersInvariant.Keyed(s.orders.rows, s.orders.locks);
  }
}
