/**
 * How the fills of one entry order turn into protective stops: the broker's cumulative
 * reports, the listed row they are compared with, and the child rows they create.
 */
module FillProtection {
  import opened Orders

  datatype Row = Row(status: Status, filled: real)

  /** A child row; its id is a function of the parent and the cumulative fill. */
  datatype Stop = Stop(fill: real, quantity: real)

  /**
   * `past` holds every value the entry row has had: what a listing may still show. The child
   * rows are kept in the order of their creation; `reported` is the largest cumulative
   * quantity that the broker has reported so far.
   */
  datatype State = State(row: Row, past: set<Row>, stops: seq<Stop>, reported: real)

  /**
   * The writers of the row. An answer to a placement or a rescan is recorded before a stop is
   * made, and counts from zero; a report is measured against the row as it was listed, and
   * its write may fail unnoticed; startup recovery of an ACK_UNKNOWN row records a fill and
   * makes no stop, and neither do the ACK_UNKNOWN and REJECTED marks and the kill-switch
   * sweep. `reached` says that the handler got as far as a write of the child row.
   */
  datatype Event =
    | Answer(status: Status, filled: real, written: bool, reached: bool)
    | Report(listed: Row, status: Status, filled: real, written: bool, reached: bool)
    | Recover(status: Status, filled: real, written: bool)
    | Doubt(written: bool)
    | Refuse(written: bool)
    | Sweep(listed: Row, written: bool)

  function Max(a: real, b: real): real {
    if a >= b then a else b
  }

  predicate Exists(stops: seq<Stop>, fill: real) {
    exists i :: 0 <= i < |stops| && stops[i].fill == fill
  }

  /** The conditional put of the child row. */
  function Put(stops: seq<Stop>, stop: Stop): seq<Stop> {
    if Exists(stops, stop.fill) then stops else stops + [stop]
  }

  /** A listing shows the row as it is or was; a recovery has found it ACK_UNKNOWN. */
  predicate Enabled(s: State, e: Event) {
    match e
    case Report(listed, _, _, _, _) => listed in s.past
    case Recover(_, _, _) => exists row :: row in s.past && row.status == AckUnknown
    case Sweep(listed, _) => listed in s.past && listed.status in {Pending, Placed, PartiallyFilled}
    case _ => true
  }

  predicate FromBroker(e: Event) {
    e.Answer? || e.Report? || e.Recover?
  }

  /** What the event writes: marks reset the quantity, a sweep keeps the listed one. */
  function Target(e: Event): Row {
    match e
    case Answer(status, filled, _, _) => Row(status, filled)
    case Report(_, status, filled, _, _) => Row(status, filled)
    case Recover(status, filled, _) => Row(status, filled)
    case Doubt(_) => Row(AckUnknown, 0.0)
    case Refuse(_) => Row(Rejected, 0.0)
    case Sweep(listed, _) => Row(Cancelled, listed.filled)
  }

  /** A report acts only when it differs from the listed status. */
  predicate Acts(s: State, e: Event) {
    Enabled(s, e) && (e.Report? ==> e.status != e.listed.status)
  }

  predicate Writes(s: State, e: Event) {
    Acts(s, e) && e.written && ValidTransition(s.row.status, Target(e).status)
  }

  /** The prior quantity a fill is measured against. */
  function Base(e: Event): real {
    if e.Report? then e.listed.filled else 0.0
  }

  /** The guards that lead to a protective stop. */
  predicate Protects(s: State, e: Event) {
    match e
    case Answer(_, filled, _, reached) => Writes(s, e) && filled > 0.0 && reached
    case Report(listed, status, filled, _, reached) =>
      Acts(s, e) && status in {Filled, PartiallyFilled} && filled > listed.filled && reached
    case _ => false
  }

  function NextRow(s: State, e: Event): Row {
    if Writes(s, e) then Target(e) else s.row
  }

  function Apply(s: State, e: Event): State {
    State(
      NextRow(s, e),
      s.past + {NextRow(s, e)},
      if Protects(s, e) then Put(s.stops, Stop(Target(e).filled, Target(e).filled - Base(e))) else s.stops,
      if FromBroker(e) && Enabled(s, e) then Max(s.reported, Target(e).filled) else s.reported)
  }

  function Run(s: State, run: seq<Event>): State
    decreases |run|
  {
    if run == [] then s else Run(Apply(s, run[0]), run[1..])
  }

  const FRESH := State(Row(Pending, 0.0), {Row(Pending, 0.0)}, [], 0.0)

  // ---- accounting, over every run ----

  function Total(stops: seq<Stop>): real {
    if stops == [] then 0.0 else Total(stops[..|stops| - 1]) + stops[|stops| - 1].quantity
  }

  /** The largest cumulative fill a stop has been made for. */
  function High(stops: seq<Stop>): (h: real)
    ensures h >= 0.0
  {
    if stops == [] then 0.0 else Max(High(stops[..|stops| - 1]), stops[|stops| - 1].fill)
  }

  /** The event makes a child row that did not exist. */
  predicate Creates(s: State, e: Event) {
    Protects(s, e) && !Exists(s.stops, Target(e).filled)
  }

  /** What the event protects although stops for it had been made before. */
  function Lag(s: State, e: Event): real {
    if !Creates(s, e) then 0.0
    else (if High(s.stops) <= Target(e).filled then High(s.stops) else Target(e).filled) - Base(e)
  }

  function TotalLag(s: State, run: seq<Event>): real
    decreases |run|
  {
    if run == [] then 0.0 else Lag(s, run[0]) + TotalLag(Apply(s, run[0]), run[1..])
  }

  lemma StepTotals(s: State, e: Event)
    ensures var t := Apply(s, e);
            Total(t.stops) == Total(s.stops) + (if Creates(s, e) then Target(e).filled - Base(e) else 0.0) &&
            High(t.stops) == if Creates(s, e) then Max(High(s.stops), Target(e).filled) else High(s.stops)
  {
    if Creates(s, e) {
      var stop := Stop(Target(e).filled, Target(e).filled - Base(e));
      assert Apply(s, e).stops == s.stops + [stop];
      assert (s.stops + [stop])[..|s.stops|] == s.stops;
    }
  }

  lemma StepAccounts(s: State, e: Event)
    ensures var t := Apply(s, e);
            Total(t.stops) - High(t.stops) == Total(s.stops) - High(s.stops) + Lag(s, e) &&
            (High(s.stops) <= s.reported ==> High(t.stops) <= t.reported)
  {
    StepTotals(s, e);
  }

  /**
   * Exact accounting over every run, whatever fails, is listed late or arrives out of order:
   * the stops together exceed the largest covered fill by the sum of the lags.
   */
  lemma {:induction false} ProtectionAccounted(s: State, run: seq<Event>)
    ensures Total(Run(s, run).stops) - High(Run(s, run).stops) ==
            Total(s.stops) - High(s.stops) + TotalLag(s, run)
    decreases |run|
  {
    if run != [] {
      StepAccounts(s, run[0]);
      ProtectionAccounted(Apply(s, run[0]), run[1..]);
    }
  }

  /** At most one child row per cumulative fill, over every run from a fresh order. */
  lemma {:induction false} AtMostOneStopPerFill(s: State, run: seq<Event>)
    requires Unique(s.stops)
    ensures Unique(Run(s, run).stops)
    ensures s.stops <= Run(s, run).stops
    decreases |run|
  {
    if run != [] {
      AtMostOneStopPerFill(Apply(s, run[0]), run[1..]);
    }
  }

  ghost predicate Unique(stops: seq<Stop>) {
    forall i, j :: 0 <= i < j < |stops| ==> stops[i].fill != stops[j].fill
  }

  // ---- over-protection ----

  type Condition = (State, Event) -> bool

  ghost predicate Throughout(c: Condition, s: State, run: seq<Event>)
    decreases |run|
  {
    run == [] || (c(s, run[0]) && Throughout(c, Apply(s, run[0]), run[1..]))
  }

  /** At some point of the run the stops protect more than the broker had reported as filled. */
  ghost predicate EverOver(s: State, run: seq<Event>)
    decreases |run|
  {
    Total(s.stops) > s.reported || (run != [] && EverOver(Apply(s, run[0]), run[1..]))
  }

  /** At some point the lags, summed up from `lag`, exceed what is reported but not covered. */
  ghost predicate LagShows(s: State, lag: real, run: seq<Event>)
    decreases |run|
  {
    lag > s.reported - High(s.stops) || (run != [] && LagShows(Apply(s, run[0]), lag + Lag(s, run[0]), run[1..]))
  }

  lemma {:induction false} OverIsLag(s: State, lag: real, run: seq<Event>)
    requires lag == Total(s.stops) - High(s.stops)
    ensures EverOver(s, run) <==> LagShows(s, lag, run)
    decreases |run|
  {
    if run != [] {
      StepAccounts(s, run[0]);
      OverIsLag(Apply(s, run[0]), lag + Lag(s, run[0]), run[1..]);
    }
  }

  /** Quantities reach the handlers in the order in which they grew. */
  predicate InOrder(s: State, e: Event) {
    FromBroker(e) && Enabled(s, e) ==> Target(e).filled >= s.reported
  }

  /** No stop is made from a listing that is behind the stops that exist. */
  predicate NotBehind(s: State, e: Event) {
    Creates(s, e) ==> Base(e) >= High(s.stops)
  }

  /** No stop is made from a listing that is ahead of the stops that exist. */
  predicate NotAhead(s: State, e: Event) {
    Creates(s, e) ==> Base(e) <= High(s.stops)
  }

  lemma {:induction false} NeverBehindNeverOver(s: State, run: seq<Event>)
    requires Total(s.stops) <= High(s.stops) <= s.reported
    requires Throughout(NotBehind, s, run)
    ensures !EverOver(s, run)
    decreases |run|
  {
    if run != [] {
      StepAccounts(s, run[0]);
      NeverBehindNeverOver(Apply(s, run[0]), run[1..]);
    }
  }

  lemma {:induction false} BehindShows(s: State, run: seq<Event>)
    requires Total(s.stops) == High(s.stops) <= s.reported
    requires Throughout(InOrder, s, run) && Throughout(NotAhead, s, run) && !Throughout(NotBehind, s, run)
    ensures EverOver(s, run)
    decreases |run|
  {
    StepAccounts(s, run[0]);
    StepTotals(s, run[0]);
    if NotBehind(s, run[0]) {
      BehindShows(Apply(s, run[0]), run[1..]);
    }
  }

  /**
   * Over-protection, exactly. Over every run, at some point more is protected than the broker
   * reported filled if and only if the lags show. A stop made from a listing behind the stops
   * that exist is always the cause, and when quantities arrive in order and no stop follows a
   * fill that was stored without one, it is always over-protection.
   */
  lemma OverprotectedExactly(run: seq<Event>)
    ensures EverOver(FRESH, run) <==> LagShows(FRESH, 0.0, run)
    ensures EverOver(FRESH, run) ==> !Throughout(NotBehind, FRESH, run)
    ensures Throughout(InOrder, FRESH, run) && Throughout(NotAhead, FRESH, run) ==>
              (EverOver(FRESH, run) <==> !Throughout(NotBehind, FRESH, run))
  {
    OverIsLag(FRESH, 0.0, run);
    if Throughout(NotBehind, FRESH, run) {
      NeverBehindNeverOver(FRESH, run);
    } else if Throughout(InOrder, FRESH, run) && Throughout(NotAhead, FRESH, run) {
      BehindShows(FRESH, run);
    }
  }

  // ---- what is stored and what is protected ----

  /** How much more the event stores than it protects. */
  function Short(s: State, e: Event): real {
    NextRow(s, e).filled - s.row.filled - if Creates(s, e) then Target(e).filled - Base(e) else 0.0
  }

  function TotalShort(s: State, run: seq<Event>): real
    decreases |run|
  {
    if run == [] then 0.0 else Short(s, run[0]) + TotalShort(Apply(s, run[0]), run[1..])
  }

  /** Exact accounting of the stored quantity against the stops, over every run. */
  lemma {:induction false} StoredAccounted(s: State, run: seq<Event>)
    ensures Run(s, run).row.filled - Total(Run(s, run).stops) == s.row.filled - Total(s.stops) + TotalShort(s, run)
    decreases |run|
  {
    if run != [] {
      StepTotals(s, run[0]);
      StoredAccounted(Apply(s, run[0]), run[1..]);
    }
  }

  /** A report that differs from its listing is written. */
  predicate WritesStick(s: State, e: Event) {
    e.Report? && Acts(s, e) ==> Writes(s, e)
  }

  /** An answer is recorded only before any fill is stored or protected. */
  predicate AnswersFirst(s: State, e: Event) {
    e.Answer? && Writes(s, e) ==> s.stops == [] && s.row.filled == 0.0
  }

  /** Reports and sweeps act on the row as it is. */
  predicate CurrentListing(s: State, e: Event) {
    (e.Report? || e.Sweep?) && Enabled(s, e) ==> e.listed == s.row
  }

  /** No write lowers the stored quantity. */
  predicate NeverLowers(s: State, e: Event) {
    NextRow(s, e).filled >= s.row.filled
  }

  predicate Orderly(s: State, e: Event) {
    WritesStick(s, e) && AnswersFirst(s, e) && CurrentListing(s, e) && NeverLowers(s, e)
  }

  /** The row is at or past the stops that exist, and not past what was reported. */
  ghost predicate CaughtUp(s: State) {
    High(s.stops) <= s.row.filled <= s.reported && (forall i :: 0 <= i < |s.stops| ==> s.stops[i].fill <= High(s.stops))
  }

  /** The event raises the stored quantity. */
  predicate Raises(s: State, e: Event) {
    Writes(s, e) && Target(e).filled > s.row.filled
  }

  /**
   * The event raises the stored quantity on a path that makes no stop: startup recovery of an
   * ACK_UNKNOWN row, a report that is not a fill, or a handler that breaks off before the stop.
   */
  predicate Skips(s: State, e: Event) {
    Raises(s, e) &&
    (e.Recover? || (e.Report? && e.status !in {Filled, PartiallyFilled}) || ((e.Report? || e.Answer?) && !e.reached))
  }

  lemma HighBounds(stops: seq<Stop>, stop: Stop)
    requires forall i :: 0 <= i < |stops| ==> stops[i].fill <= High(stops)
    ensures forall i :: 0 <= i < |stops + [stop]| ==> (stops + [stop])[i].fill <= High(stops + [stop])
  {
    assert (stops + [stop])[..|stops|] == stops;
  }

  lemma OrderlyStep(s: State, e: Event)
    requires CaughtUp(s) && Orderly(s, e)
    ensures CaughtUp(Apply(s, e))
    ensures Short(s, e) >= 0.0 && (Short(s, e) == 0.0 <==> !Skips(s, e))
  {
    StepTotals(s, e);
    HighBounds(s.stops, Stop(Target(e).filled, Target(e).filled - Base(e)));
  }

  lemma {:induction false} OrderlyRun(s: State, run: seq<Event>)
    requires CaughtUp(s) && Throughout(Orderly, s, run)
    ensures CaughtUp(Run(s, run)) && TotalShort(s, run) >= 0.0
    ensures TotalShort(s, run) == 0.0 <==> Throughout(NoSkip, s, run)
    decreases |run|
  {
    if run != [] {
      OrderlyStep(s, run[0]);
      OrderlyRun(Apply(s, run[0]), run[1..]);
    }
  }

  predicate NoSkip(s: State, e: Event) {
    !Skips(s, e)
  }

  /**
   * When reports are written and act on current listings, answers come first and no write
   * lowers the stored quantity, the stops never protect more than the stored quantity, nor
   * that more than the broker has reported.
   */
  lemma NeverMoreThanFilled(run: seq<Event>)
    requires Throughout(Orderly, FRESH, run)
    ensures Total(Run(FRESH, run).stops) <= Run(FRESH, run).row.filled <= Run(FRESH, run).reported
  {
    OrderlyRun(FRESH, run);
    StoredAccounted(FRESH, run);
  }

  /**
   * Under-protection, exactly, under the same conditions: the stored quantity and the stops
   * agree if and only if no event raises the stored quantity on a path that makes no stop.
   */
  lemma UnderprotectedExactly(run: seq<Event>)
    requires Throughout(Orderly, FRESH, run)
    ensures var t := Run(FRESH, run);
            t.row.filled - Total(t.stops) == TotalShort(FRESH, run) &&
            (Total(t.stops) == t.row.filled <==> Throughout(NoSkip, FRESH, run))
  {
    OrderlyRun(FRESH, run);
    StoredAccounted(FRESH, run);
  }

  predicate Clean(s: State, e: Event) {
    Orderly(s, e) && NoSkip(s, e)
  }

  lemma {:induction false} CleanIsOrderly(s: State, run: seq<Event>)
    requires Throughout(Clean, s, run)
    ensures Throughout(Orderly, s, run) && Throughout(NoSkip, s, run)
    decreases |run|
  {
    if run != [] {
      CleanIsOrderly(Apply(s, run[0]), run[1..]);
    }
  }

  lemma {:induction false} RunEnds(s: State, run: seq<Event>, e: Event)
    ensures Run(s, run + [e]) == Apply(Run(s, run), e)
    decreases |run|
  {
    if run == [] {
      assert run + [e] == [e] && [e][1..] == [];
      assert Run(Apply(s, e), []) == Apply(s, e);
    } else {
      assert (run + [e])[1..] == run[1..] + [e];
      RunEnds(Apply(s, run[0]), run[1..], e);
    }
  }

  /**
   * Clean runs protect exactly the stored quantity; and after a write that came from the
   * broker, exactly the cumulative quantity of that report.
   */
  lemma CleanRunsProtectExactly(run: seq<Event>, e: Event)
    requires Throughout(Clean, FRESH, run + [e])
    ensures Total(Run(FRESH, run + [e]).stops) == Run(FRESH, run + [e]).row.filled
    ensures FromBroker(e) && Writes(Run(FRESH, run), e) ==> Total(Run(FRESH, run + [e]).stops) == e.filled
  {
    CleanIsOrderly(FRESH, run + [e]);
    UnderprotectedExactly(run + [e]);
    RunEnds(FRESH, run, e);
  }

  // ---- the conditions are needed ----

  lemma Two(c: Condition, s: State, a: Event, b: Event)
    ensures Run(s, [a, b]) == Apply(Apply(s, a), b)
    ensures Throughout(c, s, [a, b]) <==> c(s, a) && c(Apply(s, a), b)
  {
    assert [a, b][1..] == [b] && [b][1..] == [];
    var t := Apply(Apply(s, a), b);
    assert Run(t, []) == t && Run(Apply(s, a), [b]) == t;
    assert Throughout(c, t, []) && Throughout(c, Apply(s, a), [b]) == c(Apply(s, a), b);
  }

  lemma Three(c: Condition, s: State, x: Event, a: Event, b: Event)
    ensures Run(s, [x, a, b]) == Apply(Apply(Apply(s, x), a), b)
    ensures Throughout(c, s, [x, a, b]) <==> c(s, x) && c(Apply(s, x), a) && c(Apply(Apply(s, x), a), b)
  {
    assert [x, a, b][1..] == [a, b];
    Two(c, Apply(s, x), a, b);
  }

  lemma TwoTotals(a: Stop, b: Stop)
    ensures Total([a, b]) == a.quantity + b.quantity
  {
    assert [a, b][..1] == [a] && [a][..0] == [];
    assert Total([a]) == a.quantity;
  }

  const PLACED_ROW := Row(Placed, 0.0)
  const PLACED_STATE := State(PLACED_ROW, {Row(Pending, 0.0), PLACED_ROW}, [], 0.0)

  lemma FirstPlaced()
    ensures Apply(FRESH, Answer(Placed, 0.0, true, true)) == PLACED_STATE
  {
  }

  /** After PLACED, a report of 60 whose write takes effect or not; its stop is made. */
  function AfterSixty(written: bool): State {
    var row := if written then Row(PartiallyFilled, 60.0) else PLACED_ROW;
    State(row, PLACED_STATE.past + {row}, [Stop(60.0, 60.0)], 60.0)
  }

  lemma SixtyReported(written: bool)
    ensures Apply(PLACED_STATE, Report(PLACED_ROW, PartiallyFilled, 60.0, written, true)) == AfterSixty(written)
  {
  }

  /**
   * A fill of 60 and then the full fill of 100, both measured against the row as it was when
   * the order was placed: stops for 160. The first write was lost, or a second instance still
   * holds the earlier listing; each time every other condition holds.
   */
  lemma EarlierRowOverprotects(lost: bool)
    ensures var run := [Answer(Placed, 0.0, true, true), Report(PLACED_ROW, PartiallyFilled, 60.0, !lost, true),
                        Report(PLACED_ROW, Filled, 100.0, true, true)];
            Total(Run(FRESH, run).stops) == 160.0 && Run(FRESH, run).row == Row(Filled, 100.0) &&
            EverOver(FRESH, run) && Throughout(AnswersFirst, FRESH, run) && Throughout(NeverLowers, FRESH, run) &&
            Throughout(InOrder, FRESH, run) && Throughout(NotAhead, FRESH, run) &&
            Throughout(if lost then CurrentListing else WritesStick, FRESH, run)
  {
    var a, b, c := Answer(Placed, 0.0, true, true), Report(PLACED_ROW, PartiallyFilled, 60.0, !lost, true),
      Report(PLACED_ROW, Filled, 100.0, true, true);
    FirstPlaced();
    SixtyReported(!lost);
    EarlierRowState(lost);
    EarlierRowConditions(lost);
    Three(AnswersFirst, FRESH, a, b, c);
    Three(NeverLowers, FRESH, a, b, c);
    Three(InOrder, FRESH, a, b, c);
    Three(NotAhead, FRESH, a, b, c);
    Three(if lost then CurrentListing else WritesStick, FRESH, a, b, c);
    EndOver(FRESH, [a, b, c]);
  }

  lemma EarlierRowState(lost: bool)
    ensures var t := Apply(AfterSixty(!lost), Report(PLACED_ROW, Filled, 100.0, true, true));
            t.row == Row(Filled, 100.0) && Total(t.stops) == 160.0 && t.reported == 100.0
  {
    var s := AfterSixty(!lost);
    assert s.stops[0].fill == 60.0;
    var t := Apply(s, Report(PLACED_ROW, Filled, 100.0, true, true));
    assert t.stops == [Stop(60.0, 60.0), Stop(100.0, 100.0)];
    TwoTotals(Stop(60.0, 60.0), Stop(100.0, 100.0));
  }

  lemma EarlierRowConditions(lost: bool)
    ensures var e := Report(PLACED_ROW, Filled, 100.0, true, true);
            var s := AfterSixty(!lost);
            AnswersFirst(s, e) && NeverLowers(s, e) && InOrder(s, e) && NotAhead(s, e) &&
            WritesStick(s, e) && (lost ==> CurrentListing(s, e))
  {
    assert High(AfterSixty(!lost).stops) == Max(High([]), 60.0) by {
      assert [Stop(60.0, 60.0)][..0] == [];
    }
  }

  lemma {:induction false} EndOver(s: State, run: seq<Event>)
    requires Total(Run(s, run).stops) > Run(s, run).reported
    ensures EverOver(s, run)
    decreases |run|
  {
    if run != [] {
      EndOver(Apply(s, run[0]), run[1..]);
    }
  }

  /** Two answers to one placement, the second after more was filled: stops for 160. */
  lemma SecondAnswerOverprotects()
    ensures var run := [Answer(PartiallyFilled, 60.0, true, true), Answer(PartiallyFilled, 100.0, true, true)];
            Total(Run(FRESH, run).stops) == 160.0 && Run(FRESH, run).reported == 100.0 &&
            Throughout(WritesStick, FRESH, run) && Throughout(CurrentListing, FRESH, run) &&
            Throughout(NeverLowers, FRESH, run)
  {
    var a, b := Answer(PartiallyFilled, 60.0, true, true), Answer(PartiallyFilled, 100.0, true, true);
    var s := Apply(FRESH, a);
    assert s.stops == [Stop(60.0, 60.0)] && s.stops[0].fill == 60.0;
    assert Apply(s, b).stops == [Stop(60.0, 60.0), Stop(100.0, 100.0)];
    TwoTotals(Stop(60.0, 60.0), Stop(100.0, 100.0));
    Two(WritesStick, FRESH, a, b);
    Two(CurrentListing, FRESH, a, b);
    Two(NeverLowers, FRESH, a, b);
  }

  /** A report that arrives late lowers the stored quantity, and the next one counts from there. */
  lemma LoweredRowOverprotects()
    ensures var run := [Answer(Placed, 50.0, true, true), Report(Row(Placed, 50.0), PartiallyFilled, 30.0, true, true),
                        Report(Row(PartiallyFilled, 30.0), Filled, 100.0, true, true)];
            Total(Run(FRESH, run).stops) == 120.0 && Run(FRESH, run).reported == 100.0 &&
            Throughout(WritesStick, FRESH, run) && Throughout(CurrentListing, FRESH, run) &&
            Throughout(AnswersFirst, FRESH, run)
  {
    var a, b, c := Answer(Placed, 50.0, true, true), Report(Row(Placed, 50.0), PartiallyFilled, 30.0, true, true),
      Report(Row(PartiallyFilled, 30.0), Filled, 100.0, true, true);
    var s := Apply(FRESH, a);
    assert s.row == Row(Placed, 50.0) && s.stops == [Stop(50.0, 50.0)];
    var t := Apply(s, b);
    assert t.row == Row(PartiallyFilled, 30.0) && t.stops == s.stops && t.stops[0].fill == 50.0;
    assert Apply(t, c).stops == [Stop(50.0, 50.0), Stop(100.0, 70.0)];
    TwoTotals(Stop(50.0, 50.0), Stop(100.0, 70.0));
    Three(WritesStick, FRESH, a, b, c);
    Three(CurrentListing, FRESH, a, b, c);
    Three(AnswersFirst, FRESH, a, b, c);
  }

  /**
   * A fill that startup recovery finds for an ACK_UNKNOWN order is stored without a stop,
   * although nothing fails; a later delivery of the signal finds the row FILLED and returns.
   */
  lemma RecoveredFillUnprotected(filled: real)
    requires filled > 0.0
    ensures var run := [Doubt(true), Recover(Filled, filled, true)];
            Run(FRESH, run).row == Row(Filled, filled) && Run(FRESH, run).stops == [] && Throughout(Orderly, FRESH, run)
  {
    var s := Apply(FRESH, Doubt(true));
    assert Row(AckUnknown, 0.0) in s.past;
    Two(Orderly, FRESH, Doubt(true), Recover(Filled, filled, true));
  }

  /** A partly filled order that is reported as CANCELLED never gets a stop for its fill. */
  lemma CancelledFillUnprotected(filled: real)
    requires filled > 0.0
    ensures var run := [Answer(Placed, 0.0, true, true), Report(PLACED_ROW, Cancelled, filled, true, true)];
            Run(FRESH, run).row == Row(Cancelled, filled) && Run(FRESH, run).stops == [] &&
            Throughout(Orderly, FRESH, run)
  {
    FirstPlaced();
    Two(Orderly, FRESH, Answer(Placed, 0.0, true, true), Report(PLACED_ROW, Cancelled, filled, true, true));
  }

  // ---- what a write leaves of the stored quantity ----

  /** A partial fill that grows while the status stays is not acted on: neither stored nor protected. */
  lemma SameStatusIsPassedOver(s: State, listed: Row, filled: real, written: bool, reached: bool)
    ensures var t := Apply(s, Report(listed, listed.status, filled, written, reached));
            t.row == s.row && t.stops == s.stops
  {
  }

  /** Of a PLACED order, a rejection forgets the stored quantity and a sweep keeps it; stops stay either way. */
  lemma RejectionForgetsSweepKeeps(s: State)
    requires s.row.status == Placed && s.row in s.past
    ensures Apply(s, Refuse(true)).row == Row(Rejected, 0.0) && Apply(s, Refuse(true)).stops == s.stops
    ensures Apply(s, Sweep(s.row, true)).row == Row(Cancelled, s.row.filled)
    ensures Apply(s, Sweep(s.row, true)).stops == s.stops
  {
  }
}
