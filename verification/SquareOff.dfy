/** Closing every open MIS position before the broker does, and escalating when one stays open. */
module SquareOff {
  import opened Wrappers
  import opened Orders

  // ---- choosing the positions ----

  /** A row of the positions table; attributes may be absent. */
  datatype Item = Item(symbol: Option<string>, product: string, quantity: Option<real>, exitOrderId: Option<string>)

  /** The order lookup for an exit order id. */
  datatype Lookup = LookupFails | NoOrder | Found(status: Status)

  datatype Position = Position(symbol: string, quantity: real, closeSide: Side, closeQuantity: real)

  const ZERO_TOLERANCE := 0.000000001

  function Abs(x: real): (r: real)
    ensures r >= 0.0 && (r == x || r == -x)
  {
    if x < 0.0 then -x else x
  }

  /** An exit order is in flight when it was found and may still fill. */
  predicate StillOpen(answer: Lookup) {
    answer.Found? && answer.status !in {Filled, Cancelled, Rejected}
  }

  function ExitId(item: Item): Option<string> {
    if item.exitOrderId == Some("") then None else item.exitOrderId
  }

  /** An empty exit id counts as absent. */
  function Resolve(item: Item, inFlight: set<string>): Option<Position> {
    if ExitId(item).Some? && ExitId(item).value in inFlight then None
    else if item.quantity == None then None
    else
      var q := item.quantity.value;
      if Abs(q) < ZERO_TOLERANCE then None
      else
        var symbol := if item.symbol.Some? then item.symbol.value else "UNKNOWN";
        Some(Position(symbol, q, if q > 0.0 then Sell else Buy, Abs(q)))
  }

  /** The scan filter. */
  predicate Scanned(item: Item) {
    item.product == "MIS" && item.quantity != Some(0.0)
  }

  function Scan(table: seq<Item>): seq<Item> {
    if table == [] then [] else (if Scanned(table[0]) then [table[0]] else []) + Scan(table[1..])
  }

  function Chosen(items: seq<Item>, inFlight: set<string>): seq<Position> {
    if items == [] then []
    else
      var rest := Chosen(items[..|items| - 1], inFlight);
      var p := Resolve(items[|items| - 1], inFlight);
      if p.Some? then rest + [p.value] else rest
  }

  /** The exit ids that hold a position back; without an order manager there are none. */
  ghost predicate IsExitIdSet(ids: set<string>, items: seq<Item>, answers: seq<Lookup>, managed: bool)
    requires |answers| == |items|
  {
    forall id :: id in ids <==>
        managed && id != "" &&
        exists i :: 0 <= i < |items| && items[i].exitOrderId == Some(id) && StillOpen(answers[i])
  }

  method BuildValidExitIds(items: seq<Item>, answers: seq<Lookup>, managed: bool) returns (ids: set<string>)
    requires |answers| == |items|
    ensures IsExitIdSet(ids, items, answers, managed)
  {
    ids := {};
    if !managed { return; }
    for n := 0 to |items|
      invariant forall id :: id in ids <==>
          id != "" && exists i :: 0 <= i < n && items[i].exitOrderId == Some(id) && StillOpen(answers[i])
    {
      var id := ExitId(items[n]);
      if id == None { continue; }
      match answers[n] {
        case Found(status) =>
          if !Terminal(status) { ids := ids + {id.value}; }
        case _ =>
      }
    }
  }

  method ResolveAll(items: seq<Item>, inFlight: set<string>) returns (positions: seq<Position>)
    ensures positions == Chosen(items, inFlight)
  {
    positions := [];
    for n := 0 to |items|
      invariant positions == Chosen(items[..n], inFlight)
    {
      assert items[..n + 1][..n] == items[..n];
      var p := Resolve(items[n], inFlight);
      if p.Some? { positions := positions + [p.value]; }
    }
    assert items[..|items|] == items;
  }

  /** A row that must be closed: MIS, at or above the tolerance, no exit order in flight. */
  predicate MustClose(item: Item, inFlight: set<string>) {
    item.product == "MIS" && item.quantity.Some? && Abs(item.quantity.value) >= ZERO_TOLERANCE &&
    !(item.exitOrderId.Some? && item.exitOrderId.value != "" && item.exitOrderId.value in inFlight)
  }

  lemma {:induction false} ScanKeeps(table: seq<Item>, item: Item)
    ensures item in Scan(table) <==> item in table && Scanned(item)
  {
    if table != [] {
      ScanKeeps(table[1..], item);
      assert table == [table[0]] + table[1..];
    }
  }

  lemma {:induction false} ChosenAreResolved(items: seq<Item>, inFlight: set<string>, p: Position)
    ensures p in Chosen(items, inFlight) <==> exists item :: item in items && Resolve(item, inFlight) == Some(p)
  {
    if items != [] {
      var rest, last := items[..|items| - 1], items[|items| - 1];
      ChosenAreResolved(rest, inFlight, p);
      assert items == rest + [last];
    }
  }

  /** The position is the row's: its name, its signed quantity, and the order that takes it to zero. */
  predicate Closes(p: Position, item: Item) {
    item.quantity == Some(p.quantity) &&
    p.symbol == (if item.symbol.Some? then item.symbol.value else "UNKNOWN") &&
    (p.closeSide == Sell <==> p.quantity > 0.0) &&
    p.closeQuantity >= 0.0 && (p.closeQuantity == p.quantity || p.closeQuantity == -p.quantity)
  }

  lemma ResolvesExactly(item: Item, inFlight: set<string>, p: Position)
    requires Scanned(item)
    ensures Resolve(item, inFlight) == Some(p) <==> MustClose(item, inFlight) && Closes(p, item)
  {
  }

  /** A position is chosen exactly for each row that must be closed, with that row's name and quantity. */
  lemma ChosenExactly(table: seq<Item>, inFlight: set<string>, p: Position)
    ensures p in Chosen(Scan(table), inFlight) <==>
            exists item :: item in table && MustClose(item, inFlight) && Closes(p, item)
  {
    ChosenAreResolved(Scan(table), inFlight, p);
    if item :| item in table && MustClose(item, inFlight) && Closes(p, item) {
      ScanKeeps(table, item);
      ResolvesExactly(item, inFlight, p);
    }
    if item :| item in Scan(table) && Resolve(item, inFlight) == Some(p) {
      ScanKeeps(table, item);
      ResolvesExactly(item, inFlight, p);
    }
  }

  function RowsToClose(table: seq<Item>, inFlight: set<string>): seq<Item> {
    if table == [] then []
    else
      RowsToClose(table[..|table| - 1], inFlight) +
      if MustClose(table[|table| - 1], inFlight) then [table[|table| - 1]] else []
  }

  lemma {:induction false} ScanEnds(table: seq<Item>, item: Item)
    ensures Scan(table + [item]) == Scan(table) + if Scanned(item) then [item] else []
    decreases |table|
  {
    if table == [] {
      assert table + [item] == [item] && [item][1..] == [];
    } else {
      var head, tail := if Scanned(table[0]) then [table[0]] else [], if Scanned(item) then [item] else [];
      assert (table + [item])[1..] == table[1..] + [item];
      ScanEnds(table[1..], item);
      assert head + (Scan(table[1..]) + tail) == (head + Scan(table[1..])) + tail;
    }
  }

  ghost predicate ClosesEach(positions: seq<Position>, rows: seq<Item>) {
    |positions| == |rows| && forall i :: 0 <= i < |rows| ==> Closes(positions[i], rows[i])
  }

  /** The positions are, one for one and in order, those of the rows that must be closed. */
  lemma {:induction false} EachRowOnce(table: seq<Item>, inFlight: set<string>)
    ensures ClosesEach(Chosen(Scan(table), inFlight), RowsToClose(table, inFlight))
    decreases |table|
  {
    if table != [] {
      var rest, last := table[..|table| - 1], table[|table| - 1];
      EachRowOnce(rest, inFlight);
      assert table == rest + [last];
      ScanEnds(rest, last);
      if Scanned(last) {
        assert Scan(table)[..|Scan(table)| - 1] == Scan(rest);
        var p := Resolve(last, inFlight);
        if p.Some? {
          ResolvesExactly(last, inFlight, p.value);
        }
      } else {
        assert Scan(table) == Scan(rest);
      }
    }
  }

  /** _get_open_mis_positions, with the exit ids it found in flight. */
  method GetOpenPositions(table: seq<Item>, lookups: seq<Lookup>, managed: bool)
    returns (positions: seq<Position>, ghost ids: set<string>)
    requires |lookups| == |Scan(table)|
    ensures IsExitIdSet(ids, Scan(table), lookups, managed)
    ensures positions == Chosen(Scan(table), ids) && ClosesEach(positions, RowsToClose(table, ids))
  {
    var items := Scan(table);
    var inFlight := BuildValidExitIds(items, lookups, managed);
    positions := ResolveAll(items, inFlight);
    ids := inFlight;
    EachRowOnce(table, ids);
  }

  /** What is left of a quantity once `filled` of an order on that side is done. */
  function AfterClose(quantity: real, side: Side, filled: real): real {
    if side == Sell then quantity - filled else quantity + filled
  }

  lemma CloseShrinks(p: Position, filled: real)
    requires p.closeSide == Sell <==> p.quantity > 0.0
    requires p.closeQuantity == Abs(p.quantity) && 0.0 <= filled <= p.closeQuantity
    ensures var left := AfterClose(p.quantity, p.closeSide, filled);
            Abs(left) == Abs(p.quantity) - filled && left * p.quantity >= 0.0 &&
            (left == 0.0 <==> filled == p.closeQuantity)
  {
    var left := AfterClose(p.quantity, p.closeSide, filled);
    if p.quantity > 0.0 {
      assert left >= 0.0;
    } else {
      assert left <= 0.0 && left * p.quantity == (-left) * (-p.quantity);
    }
  }

  /**
   * However much of the close order for a row fills, the row's quantity shrinks towards zero
   * without crossing it, and it reaches zero exactly when the order is completely filled.
   */
  lemma CloseEndsAtZero(table: seq<Item>, inFlight: set<string>, i: nat, filled: real)
    requires i < |Chosen(Scan(table), inFlight)| && 0.0 <= filled <= Chosen(Scan(table), inFlight)[i].closeQuantity
    ensures i < |RowsToClose(table, inFlight)| && RowsToClose(table, inFlight)[i].quantity.Some?
    ensures var p, q := Chosen(Scan(table), inFlight)[i], RowsToClose(table, inFlight)[i].quantity.value;
            var left := AfterClose(q, p.closeSide, filled);
            Abs(left) == Abs(q) - filled && left * q >= 0.0 && (left == 0.0 <==> filled == p.closeQuantity)
  {
    EachRowOnce(table, inFlight);
    assert Closes(Chosen(Scan(table), inFlight)[i], RowsToClose(table, inFlight)[i]);
    CloseShrinks(Chosen(Scan(table), inFlight)[i], filled);
  }

  // ---- placing the close orders ----

  /**
   * What the close call does. A reply that has no `success` attribute makes the caller raise;
   * in paper mode the call always raises, for its `market` keyword is not taken.
   */
  datatype Reply = Raises | NoReply | Reply(success: Option<bool>)

  predicate CountsAsPlaced(reply: Reply) {
    reply == Reply(Some(true))
  }

  function PlacedCount(replies: seq<Reply>): (n: nat)
    ensures n <= |replies|
  {
    if replies == [] then 0
    else PlacedCount(replies[..|replies| - 1]) + if CountsAsPlaced(replies[|replies| - 1]) then 1 else 0
  }

  /** The indices of the replies that say success. */
  function Successes(replies: seq<Reply>): set<nat> {
    set i | 0 <= i < |replies| && replies[i] == Reply(Some(true))
  }

  /** The counter is the number of replies that say success; all others count as rejected. */
  lemma {:induction false} PlacedExactly(replies: seq<Reply>)
    ensures PlacedCount(replies) == |Successes(replies)|
  {
    if replies != [] {
      var n := |replies| - 1;
      PlacedExactly(replies[..n]);
      if replies[n] == Reply(Some(true)) {
        assert Successes(replies) == Successes(replies[..n]) + {n};
      } else {
        assert Successes(replies) == Successes(replies[..n]);
      }
    }
  }

  /** What is handed to place_order, or in paper mode simulated. */
  datatype CloseOrder = CloseOrder(symbol: string, side: Side, quantity: real)

  /** One order per row, in order, under its name, for its whole quantity on the side that reduces it. */
  ghost predicate OrdersClose(orders: seq<CloseOrder>, rows: seq<Item>) {
    |orders| == |rows| &&
    forall i :: 0 <= i < |rows| ==>
      rows[i].quantity.Some? &&
      orders[i].symbol == (if rows[i].symbol.Some? then rows[i].symbol.value else "UNKNOWN") &&
      orders[i].quantity > 0.0 && AfterClose(rows[i].quantity.value, orders[i].side, orders[i].quantity) == 0.0
  }

  /** The positions are those of the rows that must be closed, and so are the orders, if there are any. */
  ghost predicate Settles(table: seq<Item>, inFlight: set<string>, positions: seq<Position>, orders: seq<CloseOrder>) {
    positions == Chosen(Scan(table), inFlight) && ClosesEach(positions, RowsToClose(table, inFlight)) &&
    (positions != [] ==> OrdersClose(orders, RowsToClose(table, inFlight)))
  }

  lemma OrdersCloseRows(table: seq<Item>, inFlight: set<string>, orders: seq<CloseOrder>)
    requires ClosesAll(orders, Chosen(Scan(table), inFlight))
    ensures OrdersClose(orders, RowsToClose(table, inFlight))
  {
    EachRowOnce(table, inFlight);
    RowsMustClose(table, inFlight);
    var positions, rows := Chosen(Scan(table), inFlight), RowsToClose(table, inFlight);
    forall i | 0 <= i < |rows|
      ensures orders[i].quantity > 0.0 && rows[i].quantity.Some? &&
              orders[i].symbol == (if rows[i].symbol.Some? then rows[i].symbol.value else "UNKNOWN") &&
              AfterClose(rows[i].quantity.value, orders[i].side, orders[i].quantity) == 0.0
    {
      assert Closes(positions[i], rows[i]) && rows[i] in rows;
    }
  }

  lemma {:induction false} RowsMustClose(table: seq<Item>, inFlight: set<string>)
    ensures forall item :: item in RowsToClose(table, inFlight) ==> MustClose(item, inFlight)
  {
    if table != [] {
      RowsMustClose(table[..|table| - 1], inFlight);
    }
  }

  /** One order per position, in order, for its whole quantity on its closing side. */
  ghost predicate ClosesAll(orders: seq<CloseOrder>, positions: seq<Position>) {
    |orders| == |positions| &&
    forall i :: 0 <= i < |orders| ==>
      orders[i] == CloseOrder(positions[i].symbol, positions[i].closeSide, positions[i].closeQuantity)
  }

  function Answered(replies: nat -> Reply, n: nat): (answered: seq<Reply>)
    ensures |answered| == n
  {
    seq(n, i requires 0 <= i < n => replies(i))
  }

  function Longs(positions: seq<Position>): (n: nat)
    ensures n <= |positions|
  {
    if positions == [] then 0
    else Longs(positions[..|positions| - 1]) + if positions[|positions| - 1].quantity > 0.0 then 1 else 0
  }

  /** The long counter is the number of positions with a positive quantity. */
  lemma {:induction false} LongsExactly(positions: seq<Position>)
    ensures Longs(positions) == |set i: nat | i < |positions| && positions[i].quantity > 0.0|
  {
    var longs := set i: nat | i < |positions| && positions[i].quantity > 0.0;
    if positions != [] {
      var n := |positions| - 1;
      LongsExactly(positions[..n]);
      var before := set i: nat | i < n && positions[..n][i].quantity > 0.0;
      assert longs == before + if positions[n].quantity > 0.0 then {n} else {};
    }
  }

  /**
   * The broker client's placement reply carries no `success` attribute, so an order it has
   * just accepted is counted as rejected.
   */
  lemma {:induction false} ClientRepliesCountAsRejected(replies: seq<Reply>)
    requires forall i :: 0 <= i < |replies| ==> replies[i] in {Raises, Reply(None)}
    ensures PlacedCount(replies) == 0
  {
    if replies != [] {
      ClientRepliesCountAsRejected(replies[..|replies| - 1]);
    }
  }

  // ---- waiting for the fills ----

  /** A row of the broker's position list, which may or may not be keyed by `tradingsymbol`. */
  datatype BrokerRow = BrokerRow(tradingsymbol: Option<string>, product: string, quantity: real)

  datatype Read = ReadFails | Rows(rows: seq<BrokerRow>)

  /** The size of the first MIS row of that name, or zero. */
  function BrokerQuantity(rows: seq<BrokerRow>, symbol: string): real {
    if rows == [] then 0.0
    else if rows[0].tradingsymbol == Some(symbol) && rows[0].product == "MIS" then Abs(rows[0].quantity)
    else BrokerQuantity(rows[1..], symbol)
  }

  predicate Confirms(read: Read, symbol: string) {
    read.Rows? && BrokerQuantity(read.rows, symbol) == 0.0
  }

  /** What the broker answers in a round when asked about a symbol. */
  type Answers = (nat, string) -> Read

  ghost predicate NeverConfirmed(answers: Answers, symbol: string, rounds: nat) {
    forall k: nat :: k < rounds ==> !Confirms(answers(k, symbol), symbol)
  }

  /** The symbols left open after a number of rounds. */
  ghost predicate IsLeftOpen(left: set<string>, symbols: set<string>, answers: Answers, rounds: nat) {
    forall symbol :: symbol in left <==> symbol in symbols && NeverConfirmed(answers, symbol, rounds)
  }

  function Symbols(positions: seq<Position>): set<string> {
    set i | 0 <= i < |positions| :: positions[i].symbol
  }

  /** Asking longer can only close more, and only symbols of chosen positions are ever open. */
  lemma LeftOpenShrinks(left: set<string>, later: set<string>, symbols: set<string>, answers: Answers, m: nat, n: nat)
    requires IsLeftOpen(left, symbols, answers, m) && IsLeftOpen(later, symbols, answers, n) && m <= n
    ensures later <= left <= symbols
  {
  }

  /** The number of positions whose symbol is left open. */
  function OpenPositions(positions: seq<Position>, left: set<string>): (n: nat) {
    if positions == [] then 0
    else
      OpenPositions(positions[..|positions| - 1], left) +
      if positions[|positions| - 1].symbol in left then 1 else 0
  }

  ghost predicate DistinctSymbols(positions: seq<Position>) {
    forall i, j :: 0 <= i < j < |positions| ==> positions[i].symbol != positions[j].symbol
  }

  lemma LastSymbol(positions: seq<Position>)
    requires positions != []
    ensures var rest, symbol := positions[..|positions| - 1], positions[|positions| - 1].symbol;
            Symbols(positions) == Symbols(rest) + {symbol} &&
            (DistinctSymbols(positions) ==> DistinctSymbols(rest) && symbol !in Symbols(rest))
  {
    var n := |positions| - 1;
    var rest := positions[..n];
    assert forall i :: 0 <= i < n ==> rest[i] == positions[i];
    forall symbol | symbol in Symbols(positions) ensures symbol in Symbols(rest) + {positions[n].symbol} {
      var i :| 0 <= i < |positions| && positions[i].symbol == symbol;
      if i < n { assert rest[i].symbol == symbol; }
    }
    forall symbol | symbol in Symbols(rest) ensures symbol in Symbols(positions) {
      var i :| 0 <= i < n && rest[i].symbol == symbol;
      assert positions[i].symbol == symbol;
    }
  }

  lemma {:induction false} OpenSymbolsCounted(positions: seq<Position>, left: set<string>)
    ensures |left * Symbols(positions)| <= OpenPositions(positions, left)
    ensures DistinctSymbols(positions) ==> |left * Symbols(positions)| == OpenPositions(positions, left)
    decreases |positions|
  {
    if positions != [] {
      var n := |positions| - 1;
      var rest, symbol := positions[..n], positions[n].symbol;
      OpenSymbolsCounted(rest, left);
      LastSymbol(positions);
      var open := left * Symbols(rest);
      assert left * Symbols(positions) == if symbol in left then open + {symbol} else open;
    }
  }

  /**
   * The flat counter (positions minus open symbols) never reports fewer closed positions
   * than there are, and is right when no symbol has two MIS rows.
   */
  lemma FlatCounter(positions: seq<Position>, left: set<string>)
    requires left <= Symbols(positions)
    ensures |positions| - |left| >= |positions| - OpenPositions(positions, left)
    ensures DistinctSymbols(positions) ==> |left| == OpenPositions(positions, left)
  {
    OpenSymbolsCounted(positions, left);
    assert left * Symbols(positions) == left;
  }

  /** The rows as the broker client returns them: keyed by `symbol`, without `tradingsymbol`. */
  ghost predicate ClientRows(rows: seq<BrokerRow>) {
    forall row :: row in rows ==> row.tradingsymbol == None
  }

  lemma {:induction false} ClientRowsLookFlat(rows: seq<BrokerRow>, symbol: string)
    requires ClientRows(rows)
    ensures BrokerQuantity(rows, symbol) == 0.0
  {
    if rows != [] {
      ClientRowsLookFlat(rows[1..], symbol);
    }
  }

  /**
   * With the rows the broker client returns, a symbol stays open exactly when every read
   * failed: the first read that succeeds confirms it, whatever the position is.
   */
  lemma AnyClientReadConfirms(answers: Answers, symbol: string, rounds: nat)
    requires forall k: nat :: answers(k, symbol).Rows? ==> ClientRows(answers(k, symbol).rows)
    ensures NeverConfirmed(answers, symbol, rounds) <==> forall k: nat :: k < rounds ==> answers(k, symbol) == ReadFails
  {
    forall k: nat | k < rounds && answers(k, symbol).Rows? ensures Confirms(answers(k, symbol), symbol) {
      ClientRowsLookFlat(answers(k, symbol).rows, symbol);
    }
  }

  /** With rows keyed by trading symbol, one per symbol, a confirmation means a flat position. */
  lemma {:induction false} KeyedReadsAreRight(rows: seq<BrokerRow>, symbol: string, i: nat)
    requires i < |rows| && rows[i].tradingsymbol == Some(symbol) && rows[i].product == "MIS"
    requires forall j :: 0 <= j < i ==> rows[j].tradingsymbol != Some(symbol) || rows[j].product != "MIS"
    ensures Confirms(Rows(rows), symbol) <==> rows[i].quantity == 0.0
  {
    if i > 0 {
      KeyedReadsAreRight(rows[1..], symbol, i - 1);
    }
  }

  class Manager {
    const interval: nat
    var now: nat
    var orders: seq<CloseOrder>
    var discovered: nat
    var longs: nat
    var shorts: nat
    var placed: nat
    var rejected: nat
    var flat: int
    var atDeadline: bool
    var killRequested: bool
    var killActivated: bool

    constructor (interval: nat, now: nat)
      requires interval > 0
      ensures this.interval == interval && this.now == now && !killRequested && !killActivated
    {
      this.interval, this.now, orders := interval, now, [];
      discovered, longs, shorts, placed, rejected, flat := 0, 0, 0, 0, 0, 0;
      atDeadline, killRequested, killActivated := false, false, false;
    }

    /** The close orders, one per position; a refusal or an exception never stops the loop. */
    method PlaceCloseOrders(positions: seq<Position>, replies: seq<Reply>)
      requires |replies| == |positions|
      modifies this`orders, this`placed, this`rejected
      ensures ClosesAll(orders, positions)
      ensures placed == PlacedCount(replies) && placed + rejected == |positions|
    {
      orders, placed, rejected := [], 0, 0;
      for n := 0 to |positions|
        invariant ClosesAll(orders, positions[..n])
        invariant placed == PlacedCount(replies[..n]) && placed + rejected == n
      {
        assert replies[..n + 1][..n] == replies[..n];
        var p := positions[n];
        orders := orders + [CloseOrder(p.symbol, p.closeSide, p.closeQuantity)];
        if replies[n] == Reply(Some(true)) { placed := placed + 1; } else { rejected := rejected + 1; }
      }
      assert replies[..|replies|] == replies && positions[..|positions|] == positions;
    }

    method CountDirections(positions: seq<Position>)
      modifies this`discovered, this`longs, this`shorts
      ensures discovered == |positions| && longs == Longs(positions) && longs + shorts == discovered
    {
      discovered, longs, shorts := |positions|, 0, 0;
      for n := 0 to |positions|
        invariant longs == Longs(positions[..n]) && longs + shorts == n && discovered == |positions|
      {
        assert positions[..n + 1][..n] == positions[..n];
        if positions[n].quantity > 0.0 { longs := longs + 1; } else { shorts := shorts + 1; }
      }
      assert positions[..|positions|] == positions;
    }

    /** The counters, and the close orders for the rows that must be closed. */
    method CloseAll(positions: seq<Position>, replies: seq<Reply>, ghost table: seq<Item>, ghost ids: set<string>)
      requires |replies| == |positions| && positions == Chosen(Scan(table), ids)
      modifies this`discovered, this`longs, this`shorts, this`orders, this`placed, this`rejected
      ensures Settles(table, ids, positions, orders)
      ensures discovered == |positions| && longs == Longs(positions) && longs + shorts == discovered
      ensures placed == PlacedCount(replies) && placed + rejected == discovered
    {
      CountDirections(positions);
      PlaceCloseOrders(positions, replies);
      EachRowOnce(table, ids);
      OrdersCloseRows(table, ids, orders);
    }

    method ResetCounters()
      modifies this`discovered, this`longs, this`shorts, this`placed, this`rejected, this`flat, this`atDeadline
      ensures discovered == longs == shorts == placed == rejected == 0 && flat == 0 && !atDeadline
    {
      discovered, longs, shorts, placed, rejected, flat, atDeadline := 0, 0, 0, 0, 0, 0, false;
    }

    /** One round of reads over the pending symbols. */
    method ConfirmRound(pending: set<string>, round: nat, answers: Answers) returns (filled: set<string>)
      ensures forall s :: s in filled <==> s in pending && Confirms(answers(round, s), s)
    {
      filled := {};
      var rest := pending;
      while rest != {}
        invariant rest <= pending
        invariant forall s :: s in filled <==> s in pending - rest && Confirms(answers(round, s), s)
        decreases |rest|
      {
        var symbol :| symbol in rest;
        rest := rest - {symbol};
        var read := answers(round, symbol);
        if read.Rows? {
          if BrokerQuantity(read.rows, symbol) == 0.0 { filled := filled + {symbol}; }
        }
      }
    }

    /**
     * Polls until every symbol is confirmed flat or the deadline has come; `delays` is what a
     * round takes beyond the sleep. The kill switch is requested exactly when a symbol was
     * never confirmed, whether or not its close order was placed.
     */
    method AwaitFillsOrEscalate(
        positions: seq<Position>, deadline: nat, answers: Answers, delays: nat -> nat, killWritten: bool)
      returns (left: set<string>, rounds: nat)
      requires interval > 0
      modifies this`now, this`flat, this`atDeadline, this`killRequested, this`killActivated
      ensures IsLeftOpen(left, Symbols(positions), answers, rounds)
      ensures left != {} ==> now >= deadline
      ensures now >= old(now) + rounds * interval
      ensures rounds > 0 ==> old(now) + (rounds - 1) * interval < deadline
      ensures flat == |positions| - |left|
      ensures atDeadline == (left != {})
      ensures killRequested <==> old(killRequested) || left != {}
      ensures killActivated <==> old(killActivated) || (left != {} && killWritten)
    {
      left, rounds := Symbols(positions), 0;
      while left != {} && now < deadline
        invariant IsLeftOpen(left, Symbols(positions), answers, rounds)
        invariant killRequested == old(killRequested) && killActivated == old(killActivated)
        invariant now >= old(now) + rounds * interval
        invariant rounds > 0 ==> old(now) + (rounds - 1) * interval < deadline
        decreases deadline - now
      {
        now := now + interval;
        var filled := ConfirmRound(left, rounds, answers);
        left := left - filled;
        rounds := rounds + 1;
        now := now + delays(rounds);
      }
      flat := |positions| - |left|;
      atDeadline := left != {};
      if left != {} {
        killRequested := true;
        if killWritten { killActivated := true; }
      }
    }

    /** _execute_mis_square_off; `table` is None when the scan fails. */
    method Execute(
        table: Option<seq<Item>>, lookups: seq<Lookup>, managed: bool, replies: nat -> Reply,
        deadline: nat, answers: Answers, delays: nat -> nat, killWritten: bool)
      returns (positions: seq<Position>, left: set<string>, rounds: nat)
      requires interval > 0 && (table.Some? ==> |lookups| == |Scan(table.value)|)
      modifies this
      ensures table == None ==> positions == [] && unchanged(this)
      ensures table.Some? ==>
                exists ids :: IsExitIdSet(ids, Scan(table.value), lookups, managed) &&
                    Settles(table.value, ids, positions, orders)
      ensures table.Some? ==>
                discovered == |positions| && longs == Longs(positions) && longs + shorts == discovered &&
                placed == PlacedCount(Answered(replies, |positions|)) && placed + rejected == discovered
      ensures IsLeftOpen(left, Symbols(positions), answers, rounds) && (left != {} ==> now >= deadline)
      ensures killRequested <==> old(killRequested) || left != {}
      ensures table.Some? ==> atDeadline == (left != {}) && flat == |positions| - |left|
    {
      positions, left, rounds := [], {}, 0;
      if table == None { return; }
      ghost var ids;
      positions, ids := GetOpenPositions(table.value, lookups, managed);
      if positions == [] {
        ResetCounters();
        assert Settles(table.value, ids, positions, orders);
        return;
      }
      CloseAll(positions, Answered(replies, |positions|), table.value, ids);
      left, rounds := AwaitFillsOrEscalate(positions, deadline, answers, delays, killWritten);
    }
  }
}
