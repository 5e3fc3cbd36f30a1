/**
  Bookkeeping of the vn.py gateway: local order ids, the ping counter, the
  oid-to-local-id table, trade-id de-duplication, order status rules and the
  spot symbol/name tables built from the contract query.  Network calls are
  replaced by their arguments (a log) and their answers (parameters).
 */
module Gateway {
  import opened Text
  import opened Subscriptions

  datatype Exchange = Hype | HypeSpot
  datatype Direction = Long | Short
  datatype Offset = NoOffset | Open | Close
  datatype Status = Submitting | NotTraded | PartTraded | AllTraded | Cancelled | Rejected

  /** An order id as the gateway reports it: a local id string, or the exchange's oid. */
  datatype OrderRef = Local(id: string) | System(oid: int)

  /** The exceptions the bookkeeping can raise (all are Python `KeyError`/`IndexError`/`UnboundLocalError`). */
  datatype GwError =
    | UnknownSpotName(coin: string)
    | UnknownSpotSymbol(symbol: string)
    | UnknownSide(side: string)
    | UnknownStatus(status: string)
    | UnknownTradeDirection(dir: string)
    | UnboundStatus
    | MissingResting
    | EmptyTokenList(pair: string)

  datatype Result<T> = Ok(value: T) | Err(error: GwError)

  /** The state reached by a loop over records and the exception that ended it, if any. */
  datatype Outcome<S> = Outcome(state: S, error: Option<GwError>)

  datatype OrderRequest = OrderRequest(symbol: string, exchange: Exchange, direction: Direction,
                                       offset: Offset, price: real, volume: real)
  datatype OrderEvent = OrderEvent(orderid: OrderRef, symbol: string, exchange: Exchange,
                                   direction: Direction, offset: Offset, status: Status,
                                   volume: real, traded: real)
  /** The arguments of one `exchange_info.order` call. */
  datatype PlacedOrder = PlacedOrder(coin: string, isBuy: bool, volume: real, price: real,
                                     reduceOnly: bool, cloid: string)
  /** `statuses[0]` of an order response: its "error", "filled" oid and "resting" oid keys. */
  datatype SendStatus = SendStatus(error: Option<string>, filled: Option<int>, resting: Option<int>)
  datatype RawOrder = RawOrder(coin: string, side: string, origSz: real, sz: real, oid: int,
                               cloid: Option<string>, reduceOnly: bool)
  datatype OrderUpdate = OrderUpdate(order: RawOrder, status: string)
  datatype Fill = Fill(tid: int, oid: int, cloid: Option<string>, coin: string, dir: string,
                       px: real, sz: real)
  datatype TradeEvent = TradeEvent(tradeId: int, orderid: OrderRef, symbol: string, exchange: Exchange,
                                   direction: Direction, offset: Offset, price: real, volume: real)
  datatype SpotPair = SpotPair(name: string, tokens: seq<int>)
  datatype SpotToken = SpotToken(name: string, index: int, szDecimals: int, evmContract: bool)
  datatype PerpEntry = PerpEntry(name: string, szDecimals: int)
  datatype Contract = Contract(symbol: string, exchange: Exchange, name: string,
                               priceDecimals: int, volumeDecimals: int)
  datatype SubscribeRequest = SubscribeRequest(symbol: string, exchange: Exchange)

  function ExchangeValue(e: Exchange): string {
    match e
    case Hype => "HYPE"
    case HypeSpot => "HYPESPOT"
  }

  // ---------------------------------------------------------------------
  // Fixed tables of the gateway

  /** The side code the exchange uses for a direction. */
  function SideCode(d: Direction): string {
    match d
    case Long => "B"
    case Short => "A"
  }

  /** The inverted side table; any other code raises. */
  function SideDirection(side: string): (r: Result<Direction>)
    ensures r.Ok? ==> SideCode(r.value) == side
    ensures r.Err? ==> r.error == UnknownSide(side)
  {
    if side == "B" then Ok(Long) else if side == "A" then Ok(Short) else Err(UnknownSide(side))
  }

  /** Inverting the side table loses nothing. */
  lemma SideRoundTrip(d: Direction)
    ensures SideDirection(SideCode(d)) == Ok(d)
  {
  }

  function TradeDirection(dir: string): Result<(Direction, Offset)> {
    if dir == "Open Long" then Ok((Long, Open))
    else if dir == "Close Long" then Ok((Short, Close))
    else if dir == "Open Short" then Ok((Short, Open))
    else if dir == "Close Short" then Ok((Long, Close))
    else if dir == "Buy" then Ok((Long, NoOffset))
    else if dir == "Sell" then Ok((Short, NoOffset))
    else Err(UnknownTradeDirection(dir))
  }

  /** A closing fill trades against the position it closes; an opening one with it. */
  lemma TradeDirectionCloses(dir: string)
    requires TradeDirection(dir).Ok?
    ensures var (d, o) := TradeDirection(dir).value;
      (o == Close <==> dir in {"Close Long", "Close Short"})
      && (o == Open <==> dir in {"Open Long", "Open Short"})
      && (d == Long <==> dir in {"Open Long", "Close Short", "Buy"})
  {
  }

  /** STATUS_MAP: the three order states the exchange reports. */
  function StatusOf(status: string): Result<Status> {
    if status == "open" then Ok(NotTraded)
    else if status == "filled" then Ok(AllTraded)
    else if status == "canceled" then Ok(Cancelled)
    else Err(UnknownStatus(status))
  }

  /** A "filled" report with size still remaining is a partial fill. */
  function UpdatedStatus(s: Status, remain: real): Status {
    if s == AllTraded && remain != 0.0 then PartTraded else s
  }

  /** An update ends up ALLTRADED exactly when it says "filled" and nothing remains. */
  lemma UpdatedStatusAllTraded(status: string, remain: real)
    requires StatusOf(status).Ok?
    ensures UpdatedStatus(StatusOf(status).value, remain) == AllTraded <==> status == "filled" && remain == 0.0
    ensures UpdatedStatus(StatusOf(status).value, remain) == PartTraded <==> status == "filled" && remain != 0.0
  {
  }

  /** The status of a queried order; an order whose size grew keeps the previous one. */
  function QueryStatus(origSz: real, sz: real, previous: Option<Status>): Option<Status> {
    if origSz == sz then Some(NotTraded) else if origSz > sz then Some(PartTraded) else previous
  }

  const SpotMaxDecimal: int := 8
  const PerpMaxDecimal: int := 6

  /** `min(5, maxDecimal - szDecimals)`: the decimals of a price tick. */
  function PriceDecimals(maxDecimal: int, szDecimals: int): (r: int)
    ensures r <= 5 && r <= maxDecimal - szDecimals
    ensures r == 5 || r == maxDecimal - szDecimals
  {
    if maxDecimal - szDecimals < 5 then maxDecimal - szDecimals else 5
  }

  // ---------------------------------------------------------------------
  // Order ids

  const OrderNumberWidth: nat := 18

  /** The local order id: "0x", the connect time, the order number padded to 18 digits. */
  function OrderIdString(connectTime: nat, n: nat): string {
    "0x" + Decimal(connectTime) + PadLeft(Decimal(n), OrderNumberWidth, '0')
  }

  /** Reads the order number back out of a local order id. */
  function OrderNumberOf(connectTime: nat, orderid: string): nat {
    var k := |"0x" + Decimal(connectTime)|;
    if |orderid| < k then 0 else ParseDecimal(orderid[k..])
  }

  lemma OrderNumberRoundTrip(connectTime: nat, n: nat)
    ensures OrderNumberOf(connectTime, OrderIdString(connectTime, n)) == n
  {
    var p := "0x" + Decimal(connectTime);
    var s := OrderIdString(connectTime, n);
    assert s[|p|..] == PadLeft(Decimal(n), OrderNumberWidth, '0');
    ParseDecimalOfPadded(n, OrderNumberWidth);
  }

  /** Different order numbers of one connection give different order ids. */
  lemma OrderIdsDistinct(connectTime: nat, n: nat, m: nat)
    requires n != m
    ensures OrderIdString(connectTime, n) != OrderIdString(connectTime, m)
  {
    OrderNumberRoundTrip(connectTime, n);
    OrderNumberRoundTrip(connectTime, m);
  }

  /** Below 10^18 the order number occupies exactly 18 characters after the connect time. */
  lemma OrderIdShape(connectTime: nat, n: nat)
    requires n < Pow10(OrderNumberWidth)
    ensures |OrderIdString(connectTime, n)| == 2 + |Decimal(connectTime)| + OrderNumberWidth
    ensures OrderIdString(connectTime, n)[..2] == "0x"
  {
    DecimalFits(n, OrderNumberWidth);
    var s := OrderIdString(connectTime, n);
    assert s[..2] == ("0x" + Decimal(connectTime) + PadLeft(Decimal(n), OrderNumberWidth, '0'))[..2];
  }

  /** An order request as the gateway first reports it. */
  function SubmittedOrder(req: OrderRequest, orderid: string): OrderEvent {
    OrderEvent(Local(orderid), req.symbol, req.exchange, req.direction, req.offset, Submitting,
               req.volume, 0.0)
  }

  // ---------------------------------------------------------------------
  // Symbols and order-id resolution

  predicate IsSpotCoin(coin: string) {
    |coin| > 0 && coin[0] == '@'
  }

  /** The symbol and exchange of a coin as the exchange reports it: "@n" coins are spot pairs. */
  function ResolveCoin(nameSymbol: map<string, string>, coin: string): (r: Result<(string, Exchange)>)
    ensures r.Ok? ==> (r.value.1 == HypeSpot <==> IsSpotCoin(coin))
    ensures r.Err? <==> IsSpotCoin(coin) && coin !in nameSymbol
  {
    if IsSpotCoin(coin) then
      if coin in nameSymbol then Ok((nameSymbol[coin], HypeSpot)) else Err(UnknownSpotName(coin))
    else Ok((coin, Hype))
  }

  /** The coin an order or subscription names on the exchange: spot symbols are translated. */
  function CoinOf(symbolName: map<string, string>, symbol: string, exchange: Exchange): (r: Result<string>)
    ensures exchange == Hype ==> r == Ok(symbol)
    ensures exchange == HypeSpot ==> (r.Ok? <==> symbol in symbolName)
  {
    if exchange == HypeSpot then
      if symbol in symbolName then Ok(symbolName[symbol]) else Err(UnknownSpotSymbol(symbol))
    else Ok(symbol)
  }

  /**
    The id an order report carries: its cloid, which is then recorded for the oid;
    without one, the local id recorded for the oid, or the oid itself.
   */
  function ResolveOrderId(localIds: map<int, string>, oid: int, cloid: Option<string>): (OrderRef, map<int, string>) {
    match cloid
    case Some(c) => (Local(c), localIds[oid := c])
    case None => (if oid in localIds then Local(localIds[oid]) else System(oid), localIds)
  }

  /** Once a report with a cloid was seen, later reports of that oid without one carry the cloid. */
  lemma CloidRemembered(localIds: map<int, string>, oid: int, c: string, oid2: int, cloid2: Option<string>)
    ensures var (r, m) := ResolveOrderId(localIds, oid, Some(c));
      r == Local(c) && oid in m && m[oid] == c
      && ResolveOrderId(m, oid, None).0 == Local(c)
      && (oid2 != oid ==> ResolveOrderId(m, oid2, cloid2).0 == ResolveOrderId(localIds, oid2, cloid2).0)
  {
  }

  /** Without a cloid nothing is recorded, and a known oid reports its local id. */
  lemma NoCloidKeepsTable(localIds: map<int, string>, oid: int)
    ensures ResolveOrderId(localIds, oid, None).1 == localIds
    ensures oid in localIds <==> ResolveOrderId(localIds, oid, None).0.Local?
    ensures oid !in localIds ==> ResolveOrderId(localIds, oid, None).0 == System(oid)
  {
  }

  // ---------------------------------------------------------------------
  // Loops over records that stop at the first exception

  function Fold<S, X>(step: (S, X) -> Outcome<S>, s: S, xs: seq<X>): Outcome<S>
    decreases |xs|
  {
    if xs == [] then Outcome(s, None)
    else
      var o := Fold(step, s, xs[..|xs| - 1]);
      if o.error.Some? then o else step(o.state, xs[|xs| - 1])
  }

  lemma FoldStep<S, X>(step: (S, X) -> Outcome<S>, s: S, xs: seq<X>, i: nat)
    requires i < |xs|
    ensures Fold(step, s, xs[..i + 1])
         == (var o := Fold(step, s, xs[..i]); if o.error.Some? then o else step(o.state, xs[i]))
  {
    assert xs[..i + 1][..i] == xs[..i];
  }

  /** Once an exception ends the loop, the remaining records change nothing. */
  lemma {:induction false} FoldErrStays<S, X>(step: (S, X) -> Outcome<S>, s: S, xs: seq<X>, i: nat)
    requires i <= |xs| && Fold(step, s, xs[..i]).error.Some?
    ensures Fold(step, s, xs) == Fold(step, s, xs[..i])
    decreases |xs| - i
  {
    if i < |xs| {
      FoldStep(step, s, xs, i);
      FoldErrStays(step, s, xs, i + 1);
    } else {
      assert xs[..i] == xs;
    }
  }

  // ---------------------------------------------------------------------
  // Order reports (query answers and websocket updates)

  datatype OrderBook = OrderBook(localIds: map<int, string>, events: seq<OrderEvent>, status: Option<Status>)

  /** Every step that raises nothing appends exactly one event. */
  ghost predicate AppendsOne<X(!new)>(step: (OrderBook, X) -> Outcome<OrderBook>) {
    forall b: OrderBook, x: X :: step(b, x).error.None? ==>
      |step(b, x).state.events| == |b.events| + 1 && step(b, x).state.events[..|b.events|] == b.events
  }

  /** In a loop that raises nothing and appends one event per record, every prefix ran cleanly and its events stay in place. */
  lemma {:induction false} EventsKept<X(!new)>(step: (OrderBook, X) -> Outcome<OrderBook>, b: OrderBook, data: seq<X>, j: nat)
    requires AppendsOne(step) && Fold(step, b, data).error.None? && j <= |data|
    ensures var p := Fold(step, b, data[..j]);
      var es := Fold(step, b, data).state.events;
      && p.error.None?
      && |es| == |p.state.events| + |data| - j && es[..|p.state.events|] == p.state.events
    decreases |data|
  {
    if j < |data| {
      var n := |data| - 1;
      var o := Fold(step, b, data[..n]);
      assert o.error.None?;
      assert Fold(step, b, data) == step(o.state, data[n]);
      EventsKept(step, b, data[..n], j);
      assert data[..n][..j] == data[..j];
      var p := Fold(step, b, data[..j]).state.events;
      var es := Fold(step, b, data).state.events;
      assert es[..|o.state.events|] == o.state.events;
      assert es[..|p|] == es[..|o.state.events|][..|p|];
    } else {
      assert data[..j] == data;
    }
  }

  /**
    What an order report says about one raw order, whatever its status, given the spot
    name table and the oid-to-local-id table as they stood before the report.
   */
  predicate ReportedAs(nameSymbol: map<string, string>, localIds: map<int, string>, raw: RawOrder, e: OrderEvent) {
    && e.volume == raw.origSz
    && e.traded == raw.origSz - raw.sz
    && SideDirection(raw.side) == Ok(e.direction)
    && e.offset == (if raw.reduceOnly then Close else NoOffset)
    && (raw.cloid.Some? ==> e.orderid == Local(raw.cloid.value))
    && (raw.cloid.None? && raw.oid in localIds ==> e.orderid == Local(localIds[raw.oid]))
    && (raw.cloid.None? && raw.oid !in localIds ==> e.orderid == System(raw.oid))
    && (IsSpotCoin(raw.coin) ==> raw.coin in nameSymbol && e.symbol == nameSymbol[raw.coin])
    && (!IsSpotCoin(raw.coin) ==> e.symbol == raw.coin)
    && (IsSpotCoin(raw.coin) <==> e.exchange == HypeSpot)
  }

  /** One iteration of the order query loop; `status` carries over from the previous one. */
  function QueryStep(nameSymbol: map<string, string>, b: OrderBook, raw: RawOrder): Outcome<OrderBook>
  {
    match ResolveCoin(nameSymbol, raw.coin)
    case Err(e) => Outcome(b, Some(e))
    case Ok((symbol, exchange)) =>
      var status := QueryStatus(raw.origSz, raw.sz, b.status);
      var (orderid, localIds) := ResolveOrderId(b.localIds, raw.oid, raw.cloid);
      var b1 := OrderBook(localIds, b.events, status);
      match SideDirection(raw.side)
      case Err(e) => Outcome(b1, Some(e))
      case Ok(direction) =>
        if status.None? then Outcome(b1, Some(UnboundStatus))
        else
          var e := OrderEvent(orderid, symbol, exchange, direction,
                              if raw.reduceOnly then Close else NoOffset, status.value,
                              raw.origSz, raw.origSz - raw.sz);
          Outcome(b1.(events := b.events + [e]), None)
  }

  /** A queried order processed without exception adds one event by the status rule; a cloid is recorded for its oid. */
  lemma QueryStepReports(nameSymbol: map<string, string>, b: OrderBook, raw: RawOrder)
    ensures var o := QueryStep(nameSymbol, b, raw);
      o.error.None? ==>
      && |o.state.events| == |b.events| + 1 && o.state.events[..|b.events|] == b.events
      && ReportedAs(nameSymbol, b.localIds, raw, o.state.events[|b.events|])
      && (raw.origSz == raw.sz ==> o.state.events[|b.events|].status == NotTraded)
      && (raw.origSz > raw.sz ==> o.state.events[|b.events|].status == PartTraded)
    ensures var o := QueryStep(nameSymbol, b, raw);
      raw.cloid.Some? && ResolveCoin(nameSymbol, raw.coin).Ok? ==>
      raw.oid in o.state.localIds && o.state.localIds[raw.oid] == raw.cloid.value
  {
  }

  function QueryStepper(nameSymbol: map<string, string>): (OrderBook, RawOrder) -> Outcome<OrderBook> {
    (b, raw) => QueryStep(nameSymbol, b, raw)
  }

  /** Each iteration of the loop that raises nothing emits exactly one event. */
  lemma QueryAppendsOne(nameSymbol: map<string, string>)
    ensures AppendsOne(QueryStepper(nameSymbol))
  {
    forall b: OrderBook, raw: RawOrder | QueryStepper(nameSymbol)(b, raw).error.None?
      ensures |QueryStepper(nameSymbol)(b, raw).state.events| == |b.events| + 1
      ensures QueryStepper(nameSymbol)(b, raw).state.events[..|b.events|] == b.events
    {
      QueryStepReports(nameSymbol, b, raw);
    }
  }

  /** In a loop that raises nothing, the order of a query answer at position `i` is reported at position `i`. */
  lemma QueryReportedAt(nameSymbol: map<string, string>, b: OrderBook, data: seq<RawOrder>, i: nat)
    requires Fold(QueryStepper(nameSymbol), b, data).error.None? && i < |data|
    ensures var es := Fold(QueryStepper(nameSymbol), b, data).state.events;
        && |es| == |b.events| + |data|
        && ReportedAs(nameSymbol, Fold(QueryStepper(nameSymbol), b, data[..i]).state.localIds, data[i], es[|b.events| + i])
        && (data[i].origSz == data[i].sz ==> es[|b.events| + i].status == NotTraded)
        && (data[i].origSz > data[i].sz ==> es[|b.events| + i].status == PartTraded)
  {
    var step := QueryStepper(nameSymbol);
    QueryAppendsOne(nameSymbol);
    var es := Fold(step, b, data).state.events;
    var p := Fold(step, b, data[..i]);
    var q := Fold(step, b, data[..i + 1]);
    EventsKept(step, b, data, 0);
    assert data[..0] == [];
    EventsKept(step, b, data, i);
    EventsKept(step, b, data, i + 1);
    assert |p.state.events| == |b.events| + i;
    FoldStep(step, b, data, i);
    assert q == QueryStep(nameSymbol, p.state, data[i]);
    QueryStepReports(nameSymbol, p.state, data[i]);
    assert es[|b.events| + i] == q.state.events[|b.events| + i];
  }

  /** A query answer processed without exception reports each order once, in order, by the status rule. */
  lemma QueryReportsEachOrder(nameSymbol: map<string, string>, b: OrderBook, data: seq<RawOrder>)
    requires Fold(QueryStepper(nameSymbol), b, data).error.None?
    ensures var es := Fold(QueryStepper(nameSymbol), b, data).state.events;
      && |es| == |b.events| + |data| && es[..|b.events|] == b.events
      && forall i :: 0 <= i < |data| ==>
           && ReportedAs(nameSymbol, Fold(QueryStepper(nameSymbol), b, data[..i]).state.localIds, data[i], es[|b.events| + i])
           && (data[i].origSz == data[i].sz ==> es[|b.events| + i].status == NotTraded)
           && (data[i].origSz > data[i].sz ==> es[|b.events| + i].status == PartTraded)
  {
    var step := QueryStepper(nameSymbol);
    QueryAppendsOne(nameSymbol);
    EventsKept(step, b, data, 0);
    assert data[..0] == [];
    forall i | 0 <= i < |data|
      ensures var es := Fold(step, b, data).state.events;
        && ReportedAs(nameSymbol, Fold(step, b, data[..i]).state.localIds, data[i], es[|b.events| + i])
        && (data[i].origSz == data[i].sz ==> es[|b.events| + i].status == NotTraded)
        && (data[i].origSz > data[i].sz ==> es[|b.events| + i].status == PartTraded)
    {
      QueryReportedAt(nameSymbol, b, data, i);
    }
  }

  /** One iteration of the websocket order-update loop. */
  function UpdateStep(nameSymbol: map<string, string>, b: OrderBook, u: OrderUpdate): Outcome<OrderBook>
  {
    var raw := u.order;
    match ResolveCoin(nameSymbol, raw.coin)
    case Err(e) => Outcome(b, Some(e))
    case Ok((symbol, exchange)) =>
      var (orderid, localIds) := ResolveOrderId(b.localIds, raw.oid, raw.cloid);
      var b1 := b.(localIds := localIds);
      match SideDirection(raw.side)
      case Err(e) => Outcome(b1, Some(e))
      case Ok(direction) =>
        match StatusOf(u.status)
        case Err(e) => Outcome(b1, Some(e))
        case Ok(status) =>
          var e := OrderEvent(orderid, symbol, exchange, direction,
                              if raw.reduceOnly then Close else NoOffset,
                              UpdatedStatus(status, raw.sz), raw.origSz, raw.origSz - raw.sz);
          Outcome(b1.(events := b.events + [e]), None)
  }

  /** An update processed without exception adds one event with its mapped status; a cloid is recorded for its oid. */
  lemma UpdateStepReports(nameSymbol: map<string, string>, b: OrderBook, u: OrderUpdate)
    ensures var o := UpdateStep(nameSymbol, b, u);
      o.error.None? ==>
      && |o.state.events| == |b.events| + 1 && o.state.events[..|b.events|] == b.events
      && ReportedAs(nameSymbol, b.localIds, u.order, o.state.events[|b.events|])
      && StatusOf(u.status).Ok?
      && o.state.events[|b.events|].status == UpdatedStatus(StatusOf(u.status).value, u.order.sz)
    ensures var o := UpdateStep(nameSymbol, b, u);
      u.order.cloid.Some? && ResolveCoin(nameSymbol, u.order.coin).Ok? ==>
      u.order.oid in o.state.localIds && o.state.localIds[u.order.oid] == u.order.cloid.value
  {
  }

  function UpdateStepper(nameSymbol: map<string, string>): (OrderBook, OrderUpdate) -> Outcome<OrderBook> {
    (b, u) => UpdateStep(nameSymbol, b, u)
  }

  /** Each iteration of the loop that raises nothing emits exactly one event. */
  lemma UpdateAppendsOne(nameSymbol: map<string, string>)
    ensures AppendsOne(UpdateStepper(nameSymbol))
  {
    forall b: OrderBook, u: OrderUpdate | UpdateStepper(nameSymbol)(b, u).error.None?
      ensures |UpdateStepper(nameSymbol)(b, u).state.events| == |b.events| + 1
      ensures UpdateStepper(nameSymbol)(b, u).state.events[..|b.events|] == b.events
    {
      UpdateStepReports(nameSymbol, b, u);
    }
  }

  /** In a loop that raises nothing, the update of a batch at position `i` is reported at position `i`. */
  lemma UpdateReportedAt(nameSymbol: map<string, string>, b: OrderBook, data: seq<OrderUpdate>, i: nat)
    requires Fold(UpdateStepper(nameSymbol), b, data).error.None? && i < |data|
    ensures var es := Fold(UpdateStepper(nameSymbol), b, data).state.events;
        && |es| == |b.events| + |data|
        && ReportedAs(nameSymbol, Fold(UpdateStepper(nameSymbol), b, data[..i]).state.localIds, data[i].order, es[|b.events| + i])
        && StatusOf(data[i].status).Ok?
        && es[|b.events| + i].status == UpdatedStatus(StatusOf(data[i].status).value, data[i].order.sz)
  {
    var step := UpdateStepper(nameSymbol);
    UpdateAppendsOne(nameSymbol);
    var es := Fold(step, b, data).state.events;
    var p := Fold(step, b, data[..i]);
    var q := Fold(step, b, data[..i + 1]);
    EventsKept(step, b, data, 0);
    assert data[..0] == [];
    EventsKept(step, b, data, i);
    EventsKept(step, b, data, i + 1);
    assert |p.state.events| == |b.events| + i;
    FoldStep(step, b, data, i);
    assert q == UpdateStep(nameSymbol, p.state, data[i]);
    UpdateStepReports(nameSymbol, p.state, data[i]);
    assert es[|b.events| + i] == q.state.events[|b.events| + i];
  }

  /** An update batch processed without exception reports each update once, in order. */
  lemma UpdatesReportEachOrder(nameSymbol: map<string, string>, b: OrderBook, data: seq<OrderUpdate>)
    requires Fold(UpdateStepper(nameSymbol), b, data).error.None?
    ensures var es := Fold(UpdateStepper(nameSymbol), b, data).state.events;
      && |es| == |b.events| + |data| && es[..|b.events|] == b.events
      && forall i :: 0 <= i < |data| ==>
           && ReportedAs(nameSymbol, Fold(UpdateStepper(nameSymbol), b, data[..i]).state.localIds, data[i].order, es[|b.events| + i])
           && StatusOf(data[i].status).Ok?
           && es[|b.events| + i].status == UpdatedStatus(StatusOf(data[i].status).value, data[i].order.sz)
  {
    var step := UpdateStepper(nameSymbol);
    UpdateAppendsOne(nameSymbol);
    EventsKept(step, b, data, 0);
    assert data[..0] == [];
    forall i | 0 <= i < |data|
      ensures var es := Fold(step, b, data).state.events;
        && ReportedAs(nameSymbol, Fold(step, b, data[..i]).state.localIds, data[i].order, es[|b.events| + i])
        && StatusOf(data[i].status).Ok?
        && es[|b.events| + i].status == UpdatedStatus(StatusOf(data[i].status).value, data[i].order.sz)
    {
      UpdateReportedAt(nameSymbol, b, data, i);
    }
  }

  // ---------------------------------------------------------------------
  // Fills

  datatype TradeBook = TradeBook(tradeIds: seq<int>, localIds: map<int, string>, trades: seq<TradeEvent>)

  predicate NoDup<T(==)>(s: seq<T>) {
    forall i, j :: 0 <= i < j < |s| ==> s[i] != s[j]
  }

  /** Every trade event has a recorded trade id, and no trade id has two events. */
  predicate UniqueTrades(tradeIds: seq<int>, trades: seq<TradeEvent>) {
    && NoDup(tradeIds)
    && (forall i :: 0 <= i < |trades| ==> trades[i].tradeId in tradeIds)
    && (forall i, j :: 0 <= i < j < |trades| ==> trades[i].tradeId != trades[j].tradeId)
  }

  /** One iteration of the fill loop: a trade id already seen is skipped. */
  function TradeStep(nameSymbol: map<string, string>, b: TradeBook, f: Fill): (o: Outcome<TradeBook>)
    ensures f.tid in b.tradeIds ==> o == Outcome(b, None)
    ensures f.tid !in b.tradeIds ==> o.state.tradeIds == b.tradeIds + [f.tid]
    ensures o.state.trades == b.trades
         || (&& o.error.None? && f.tid !in b.tradeIds
             && |o.state.trades| == |b.trades| + 1 && o.state.trades[..|b.trades|] == b.trades
             && o.state.trades[|b.trades|].tradeId == f.tid)
  {
    if f.tid in b.tradeIds then Outcome(b, None)
    else
      var tradeIds := b.tradeIds + [f.tid];
      var (orderid, localIds) :=
        match f.cloid
        case Some(c) => (Local(c), b.localIds[f.oid := c])
        case None => (System(f.oid), b.localIds);
      var b1 := TradeBook(tradeIds, localIds, b.trades);
      match ResolveCoin(nameSymbol, f.coin)
      case Err(e) => Outcome(b1, Some(e))
      case Ok((symbol, exchange)) =>
        match TradeDirection(f.dir)
        case Err(e) => Outcome(b1, Some(e))
        case Ok((direction, offset)) =>
          var t := TradeEvent(f.tid, orderid, symbol, exchange, direction, offset, f.px, f.sz);
          Outcome(b1.(trades := b.trades + [t]), None)
  }

  function TradeStepper(nameSymbol: map<string, string>): (TradeBook, Fill) -> Outcome<TradeBook> {
    (b, f) => TradeStep(nameSymbol, b, f)
  }

  lemma TradeStepKeepsUnique(nameSymbol: map<string, string>, b: TradeBook, f: Fill)
    requires UniqueTrades(b.tradeIds, b.trades)
    ensures var s := TradeStep(nameSymbol, b, f).state; UniqueTrades(s.tradeIds, s.trades)
  {
    var o := TradeStep(nameSymbol, b, f);
    if f.tid !in b.tradeIds {
      var s := o.state;
      assert forall i :: 0 <= i < |b.trades| ==> s.trades[i] == b.trades[i];
      assert forall i :: 0 <= i < |b.tradeIds| ==> s.tradeIds[i] == b.tradeIds[i];
      assert s.tradeIds[|b.tradeIds|] == f.tid;
    }
  }

  /** However fills are redelivered, each trade id produces at most one trade event. */
  lemma {:induction false} TradesStayUnique(nameSymbol: map<string, string>, b: TradeBook, fills: seq<Fill>)
    requires UniqueTrades(b.tradeIds, b.trades)
    ensures var s := Fold(TradeStepper(nameSymbol), b, fills).state; UniqueTrades(s.tradeIds, s.trades)
    decreases |fills|
  {
    if fills != [] {
      var n := |fills| - 1;
      TradesStayUnique(nameSymbol, b, fills[..n]);
      var o := Fold(TradeStepper(nameSymbol), b, fills[..n]);
      if o.error.None? {
        TradeStepKeepsUnique(nameSymbol, o.state, fills[n]);
      }
    }
  }

  // ---------------------------------------------------------------------
  // Spot contracts: the index table, the symbol table and its inverse

  /** First loop of the spot query: the pair's base token index names the pair. */
  function IndexStep(indexName: map<int, string>, pair: SpotPair): (o: Outcome<map<int, string>>)
    ensures o.error.None? <==> |pair.tokens| > 0
    ensures o.error.None? ==> o.state == indexName[pair.tokens[0] := pair.name]
    ensures o.error.Some? ==> o.state == indexName
  {
    if |pair.tokens| == 0 then Outcome(indexName, Some(EmptyTokenList(pair.name)))
    else Outcome(indexName[pair.tokens[0] := pair.name], None)
  }

  /** A dict with its keys in insertion order. */
  ghost predicate KeyOrder<K(!new), V>(keys: seq<K>, m: map<K, V>) {
    NoDup(keys) && (forall k :: k in m <==> k in keys)
  }

  /** `d[k] = v` on an insertion-ordered dict: a new key goes last, an old one keeps its place. */
  function Put<K(!new), V>(keys: seq<K>, m: map<K, V>, k: K, v: V): (r: (seq<K>, map<K, V>))
    requires KeyOrder(keys, m)
    ensures KeyOrder(r.0, r.1)
    ensures r.1 == m[k := v]
  {
    if k in m then (keys, m[k := v])
    else
      var keys' := keys + [k];
      assert forall i :: 0 <= i < |keys| ==> keys'[i] == keys[i];
      (keys', m[k := v])
  }

  datatype SpotTables = SpotTables(keys: seq<string>, symbolName: map<string, string>, contracts: seq<Contract>)

  predicate Listed(t: SpotToken, indexName: map<int, string>) {
    t.evmContract && t.index in indexName && indexName[t.index] != ""
  }

  /** The contract of some listed token of the answer. */
  ghost predicate FromListed(c: Contract, tokens: seq<SpotToken>, indexName: map<int, string>) {
    exists t :: t in tokens && Listed(t, indexName) && c == SpotContract(t, indexName[t.index])
  }

  function SpotContract(t: SpotToken, name: string): Contract {
    Contract(t.name, HypeSpot, name, PriceDecimals(SpotMaxDecimal, t.szDecimals), t.szDecimals)
  }

  /** Second loop of the spot query: tokens without an EVM contract or an index name are skipped. */
  function TokenStep(indexName: map<int, string>, s: SpotTables, t: SpotToken): SpotTables
    requires KeyOrder(s.keys, s.symbolName)
  {
    if !t.evmContract then s
    else if t.index !in indexName || indexName[t.index] == "" then s
    else
      var name := indexName[t.index];
      var (keys, symbolName) := Put(s.keys, s.symbolName, t.name, name);
      SpotTables(keys, symbolName, s.contracts + [SpotContract(t, name)])
  }

  function SpotTokens(indexName: map<int, string>, s: SpotTables, tokens: seq<SpotToken>): (r: SpotTables)
    requires KeyOrder(s.keys, s.symbolName)
    ensures KeyOrder(r.keys, r.symbolName)
    decreases |tokens|
  {
    if tokens == [] then s
    else TokenStep(indexName, SpotTokens(indexName, s, tokens[..|tokens| - 1]), tokens[|tokens| - 1])
  }

  /**
    The contracts the loop adds come from listed tokens and come after the old
    ones; every listed token's symbol ends up in the symbol table, and no
    symbol is lost.
   */
  lemma {:induction false} SpotTokensListed(indexName: map<int, string>, s: SpotTables, tokens: seq<SpotToken>)
    requires KeyOrder(s.keys, s.symbolName)
    ensures var r := SpotTokens(indexName, s, tokens);
      && |s.contracts| <= |r.contracts| <= |s.contracts| + |tokens|
      && r.contracts[..|s.contracts|] == s.contracts
      && (forall i :: |s.contracts| <= i < |r.contracts| ==>
            FromListed(r.contracts[i], tokens, indexName))
      && (forall t :: t in tokens && Listed(t, indexName) ==> t.name in r.symbolName)
      && (forall k :: k in s.symbolName ==> k in r.symbolName)
    decreases |tokens|
  {
    if tokens != [] {
      var n := |tokens| - 1;
      var p := SpotTokens(indexName, s, tokens[..n]);
      SpotTokensListed(indexName, s, tokens[..n]);
      var r := TokenStep(indexName, p, tokens[n]);
      assert SpotTokens(indexName, s, tokens) == r;
      assert r.contracts[..|p.contracts|] == p.contracts;
      assert r.contracts[..|s.contracts|] == s.contracts by {
        assert r.contracts[..|s.contracts|] == p.contracts[..|s.contracts|];
      }
      forall i | |s.contracts| <= i < |r.contracts|
        ensures FromListed(r.contracts[i], tokens, indexName)
      {
        if i < |p.contracts| {
          assert r.contracts[i] == p.contracts[i];
          assert FromListed(p.contracts[i], tokens[..n], indexName);
          var t :| t in tokens[..n] && Listed(t, indexName) && p.contracts[i] == SpotContract(t, indexName[t.index]);
          assert t in tokens;
        } else {
          var t := tokens[n];
          assert t in tokens;
          assert Listed(t, indexName) && r.contracts[i] == SpotContract(t, indexName[t.index]);
        }
      }
      forall t | t in tokens && Listed(t, indexName)
        ensures t.name in r.symbolName
      {
        if t != tokens[n] {
          assert t in tokens[..n];
        }
      }
    }
  }

  /** The listed tokens of an answer, in answer order. */
  function ListedTokens(indexName: map<int, string>, tokens: seq<SpotToken>): (r: seq<SpotToken>)
    ensures forall t :: t in r <==> t in tokens && Listed(t, indexName)
    ensures forall i :: 0 <= i < |r| ==> Listed(r[i], indexName)
    ensures |r| <= |tokens|
    decreases |tokens|
  {
    if tokens == [] then []
    else
      var t := tokens[|tokens| - 1];
      var init := tokens[..|tokens| - 1];
      assert forall u :: u in tokens <==> u in init || u == t;
      ListedTokens(indexName, init) + (if Listed(t, indexName) then [t] else [])
  }

  /**
    The contracts the spot query pushes are exactly one per listed token, in
    answer order, each named by the token's index name.
   */
  lemma {:induction false} SpotTokensContracts(indexName: map<int, string>, s: SpotTables, tokens: seq<SpotToken>)
    requires KeyOrder(s.keys, s.symbolName)
    ensures var l := ListedTokens(indexName, tokens);
      && |SpotTokens(indexName, s, tokens).contracts| == |s.contracts| + |l|
      && SpotTokens(indexName, s, tokens).contracts[..|s.contracts|] == s.contracts
      && forall i :: 0 <= i < |l| ==>
           SpotTokens(indexName, s, tokens).contracts[|s.contracts| + i] == SpotContract(l[i], indexName[l[i].index])
    decreases |tokens|
  {
    if tokens != [] {
      var n := |tokens| - 1;
      var t := tokens[n];
      var p := SpotTokens(indexName, s, tokens[..n]);
      var r := SpotTokens(indexName, s, tokens);
      var lp := ListedTokens(indexName, tokens[..n]);
      var l := ListedTokens(indexName, tokens);
      SpotTokensContracts(indexName, s, tokens[..n]);
      assert r == TokenStep(indexName, p, t);
      if Listed(t, indexName) {
        assert l == lp + [t];
        assert r.contracts == p.contracts + [SpotContract(t, indexName[t.index])];
        forall i | 0 <= i < |l|
          ensures r.contracts[|s.contracts| + i] == SpotContract(l[i], indexName[l[i].index])
        {
          if i < |lp| {
            assert l[i] == lp[i];
          }
        }
      } else {
        assert l == lp;
      }
    }
  }

  /** No listed token after position `i` has the same symbol as the one at `i`. */
  predicate LastListedOfName(indexName: map<int, string>, tokens: seq<SpotToken>, i: int)
    requires 0 <= i < |tokens|
  {
    forall j :: i < j < |tokens| && Listed(tokens[j], indexName) ==> tokens[j].name != tokens[i].name
  }

  /** Some listed token of the answer has symbol `k`. */
  predicate ListsSymbol(indexName: map<int, string>, tokens: seq<SpotToken>, k: string) {
    exists t :: t in tokens && Listed(t, indexName) && t.name == k
  }

  /** The symbol table after the spot query holds the old symbols and those of the listed tokens, and no others. */
  lemma {:induction false} SpotTokensSymbolKeys(indexName: map<int, string>, s: SpotTables, tokens: seq<SpotToken>)
    requires KeyOrder(s.keys, s.symbolName)
    ensures forall k :: k in SpotTokens(indexName, s, tokens).symbolName <==>
      k in s.symbolName || ListsSymbol(indexName, tokens, k)
    decreases |tokens|
  {
    if tokens != [] {
      var n := |tokens| - 1;
      var t, init := tokens[n], tokens[..n];
      var p := SpotTokens(indexName, s, init);
      SpotTokensSymbolKeys(indexName, s, init);
      assert SpotTokens(indexName, s, tokens) == TokenStep(indexName, p, t);
      forall k ensures ListsSymbol(indexName, tokens, k) <==>
        ListsSymbol(indexName, init, k) || (Listed(t, indexName) && t.name == k)
      {
        if ListsSymbol(indexName, tokens, k) {
          var u :| u in tokens && Listed(u, indexName) && u.name == k;
          if u != t {
            assert u in init;
          }
        }
        if ListsSymbol(indexName, init, k) {
          var u :| u in init && Listed(u, indexName) && u.name == k;
          assert u in tokens;
        }
        assert t in tokens;
      }
    }
  }

  /** A listed symbol maps to the index name of its last listed token. */
  lemma {:induction false} SpotTokensSymbolValue(indexName: map<int, string>, s: SpotTables, tokens: seq<SpotToken>, i: nat)
    requires KeyOrder(s.keys, s.symbolName)
    requires i < |tokens| && Listed(tokens[i], indexName) && LastListedOfName(indexName, tokens, i)
    ensures var m := SpotTokens(indexName, s, tokens).symbolName;
      tokens[i].name in m && m[tokens[i].name] == indexName[tokens[i].index]
    decreases |tokens|
  {
    var n := |tokens| - 1;
    var t, init := tokens[n], tokens[..n];
    var p := SpotTokens(indexName, s, init);
    assert SpotTokens(indexName, s, tokens) == TokenStep(indexName, p, t);
    if i < n {
      assert init[i] == tokens[i];
      assert LastListedOfName(indexName, init, i) by {
        forall j | i < j < |init| && Listed(init[j], indexName) ensures init[j].name != init[i].name {
          assert init[j] == tokens[j];
        }
      }
      SpotTokensSymbolValue(indexName, s, init, i);
    }
  }

  /** A symbol no listed token carries keeps its old name. */
  lemma {:induction false} SpotTokensSymbolKept(indexName: map<int, string>, s: SpotTables, tokens: seq<SpotToken>, k: string)
    requires KeyOrder(s.keys, s.symbolName)
    requires k in s.symbolName && !ListsSymbol(indexName, tokens, k)
    ensures var m := SpotTokens(indexName, s, tokens).symbolName;
      k in m && m[k] == s.symbolName[k]
    decreases |tokens|
  {
    if tokens != [] {
      var n := |tokens| - 1;
      var t, init := tokens[n], tokens[..n];
      var p := SpotTokens(indexName, s, init);
      assert SpotTokens(indexName, s, tokens) == TokenStep(indexName, p, t);
      forall u | u in init && Listed(u, indexName) ensures u.name != k {
        assert u in tokens;
      }
      assert t in tokens;
      SpotTokensSymbolKept(indexName, s, init, k);
    }
  }

  /** `{v: k for k, v in d.items()}`: later keys overwrite earlier ones with the same value. */
  function Invert(m: map<string, string>, keys: seq<string>): map<string, string>
    requires forall k :: k in keys ==> k in m
    decreases |keys|
  {
    if keys == [] then map[]
    else
      var k := keys[|keys| - 1];
      Invert(m, keys[..|keys| - 1])[m[k] := k]
  }

  /** The inverse sends each value back to a key that maps to it, and covers every value. */
  lemma {:induction false} InvertIsInverse(m: map<string, string>, keys: seq<string>)
    requires forall k :: k in keys ==> k in m
    ensures forall v :: v in Invert(m, keys) ==> Invert(m, keys)[v] in keys && m[Invert(m, keys)[v]] == v
    ensures forall k :: k in keys ==> m[k] in Invert(m, keys)
    decreases |keys|
  {
    if keys != [] {
      var n := |keys| - 1;
      InvertIsInverse(m, keys[..n]);
      forall k | k in keys ensures m[k] in Invert(m, keys) {
        if k != keys[n] {
          assert k in keys[..n];
        }
      }
      forall v | v in Invert(m, keys)
        ensures Invert(m, keys)[v] in keys && m[Invert(m, keys)[v]] == v
      {
        if v != m[keys[n]] {
          assert Invert(m, keys)[v] in keys[..n];
        }
      }
    }
  }

  /** The last key with a given value is the one the inverse keeps. */
  lemma {:induction false} InvertLastWins(m: map<string, string>, keys: seq<string>, i: nat)
    requires forall k :: k in keys ==> k in m
    requires i < |keys|
    requires forall j :: i < j < |keys| ==> m[keys[j]] != m[keys[i]]
    ensures m[keys[i]] in Invert(m, keys) && Invert(m, keys)[m[keys[i]]] == keys[i]
    decreases |keys|
  {
    var n := |keys| - 1;
    if i < n {
      forall j | i < j < n ensures m[keys[..n][j]] != m[keys[..n][i]] {
        assert keys[..n][j] == keys[j];
      }
      InvertLastWins(m, keys[..n], i);
      assert keys[..n][i] == keys[i];
    }
  }

  /** With distinct names, the name table and the symbol table undo each other. */
  lemma InvertOfInjective(m: map<string, string>, keys: seq<string>)
    requires KeyOrder(keys, m)
    requires forall a, b :: a in m && b in m && a != b ==> m[a] != m[b]
    ensures forall k :: k in m ==> m[k] in Invert(m, keys) && Invert(m, keys)[m[k]] == k
    ensures forall v :: v in Invert(m, keys) ==> Invert(m, keys)[v] in m && m[Invert(m, keys)[v]] == v
  {
    InvertIsInverse(m, keys);
    forall k | k in m ensures m[k] in Invert(m, keys) && Invert(m, keys)[m[k]] == k {
      var i :| 0 <= i < |keys| && keys[i] == k;
      InvertLastWins(m, keys, i);
    }
  }

  /** A spot coin reported by the exchange resolves to a symbol whose name is that coin. */
  lemma ResolveSpotCoin(m: map<string, string>, keys: seq<string>, coin: string)
    requires KeyOrder(keys, m)
    requires IsSpotCoin(coin)
    ensures var r := ResolveCoin(Invert(m, keys), coin);
      (r.Ok? <==> exists k :: k in m && m[k] == coin)
      && (r.Ok? ==> r.value.1 == HypeSpot && r.value.0 in m && m[r.value.0] == coin)
  {
    InvertIsInverse(m, keys);
  }

  function PerpContract(e: PerpEntry): Contract {
    Contract(e.name, Hype, e.name, PriceDecimals(PerpMaxDecimal, e.szDecimals), e.szDecimals)
  }

  /**
    One contract per perpetual, in order: symbol and name are the coin, the
    size decimals are the coin's, and the price decimals are
    `min(5, 6 - szDecimals)`.
   */
  function PerpContracts(universe: seq<PerpEntry>): (r: seq<Contract>)
    ensures |r| == |universe|
    ensures forall i :: 0 <= i < |universe| ==>
      && r[i].symbol == universe[i].name && r[i].name == universe[i].name && r[i].exchange == Hype
      && r[i].volumeDecimals == universe[i].szDecimals
      && r[i].priceDecimals <= 5 && r[i].priceDecimals <= PerpMaxDecimal - universe[i].szDecimals
      && (r[i].priceDecimals == 5 || r[i].priceDecimals == PerpMaxDecimal - universe[i].szDecimals)
  {
    seq(|universe|, i requires 0 <= i < |universe| => PerpContract(universe[i]))
  }

  // ---------------------------------------------------------------------
  // Pings and subscriptions

  const PingEvery: nat := 10

  /** One timer event: the counter, and whether a ping frame goes out. */
  function PingStep(count: int): (int, bool) {
    if count + 1 < PingEvery then (count + 1, false) else (0, true)
  }

  /** Counter and pings sent after `n` timer events on a fresh client. */
  function PingsAfter(n: nat): (int, nat) {
    if n == 0 then (0, 0)
    else
      var (c, p) := PingsAfter(n - 1);
      var (c', sent) := PingStep(c);
      (c', if sent then p + 1 else p)
  }

  /** A ping goes out on every tenth timer event and on no other. */
  lemma {:induction false} PingSchedule(n: nat)
    ensures PingsAfter(n) == (n % PingEvery, n / PingEvery)
  {
    if n > 0 {
      PingSchedule(n - 1);
    }
  }

  /** The key of a subscription request: symbol and exchange value. */
  function SubscriptionKey(req: SubscribeRequest): string {
    req.symbol + "_" + ExchangeValue(req.exchange)
  }

  /** The descriptors one market subscription registers with the info client. */
  function MarketSubscriptions(coin: string, user: string, withBbo: bool): (r: seq<Subscription>)
    ensures |r| == if withBbo then 5 else 4
  {
    [L2Book(coin), Trades(coin), UserFills(user), OrderUpdates(user)] + (if withBbo then [Bbo(coin)] else [])
  }

  /** The descriptors of one market subscription land on pairwise different topics. */
  lemma MarketTopicsDistinct(coin: string, user: string, withBbo: bool)
    ensures var r := MarketSubscriptions(coin, user, withBbo);
      forall i, j :: 0 <= i < j < |r| ==> Identifier(r[i]) != Identifier(r[j])
  {
    var r := MarketSubscriptions(coin, user, withBbo);
    forall i, j | 0 <= i < j < |r| ensures Identifier(r[i]) != Identifier(r[j]) {
      assert Identifier(r[i])[0] != Identifier(r[j])[0];
    }
  }

  /** The descriptors one subscription registers, or the exception its symbol raises. */
  function SubscribeStep(symbolName: map<string, string>, user: string, withBbo: bool,
                      sent: seq<Subscription>, req: SubscribeRequest): Outcome<seq<Subscription>>
  {
    match CoinOf(symbolName, req.symbol, req.exchange)
    case Err(e) => Outcome(sent, Some(e))
    case Ok(coin) => Outcome(sent + MarketSubscriptions(coin, user, withBbo), None)
  }

  function SubscribeStepper(symbolName: map<string, string>, user: string, withBbo: bool)
    : (seq<Subscription>, SubscribeRequest) -> Outcome<seq<Subscription>>
  {
    (sent, req) => SubscribeStep(symbolName, user, withBbo, sent, req)
  }

  function ValuesInOrder<K, V>(m: map<K, V>, keys: seq<K>): (r: seq<V>)
    requires forall k :: k in keys ==> k in m
    ensures |r| == |keys|
  {
    seq(|keys|, i requires 0 <= i < |keys| => m[keys[i]])
  }

  /** The descriptors of each request's market, with its symbol as the coin, one request after another. */
  function MarketsOf(user: string, withBbo: bool, reqs: seq<SubscribeRequest>): (r: seq<Subscription>)
    ensures |r| == |reqs| * (if withBbo then 5 else 4)
    decreases |reqs|
  {
    if reqs == [] then []
    else MarketsOf(user, withBbo, reqs[..|reqs| - 1]) + MarketSubscriptions(reqs[|reqs| - 1].symbol, user, withBbo)
  }

  /**
    Replaying only perpetual requests never raises and issues each request's
    market descriptors, in request order.
   */
  lemma {:induction false} ReplayOfPerps(symbolName: map<string, string>, user: string, withBbo: bool,
                                         sent: seq<Subscription>, reqs: seq<SubscribeRequest>)
    requires forall i :: 0 <= i < |reqs| ==> reqs[i].exchange == Hype
    ensures var o := Fold(SubscribeStepper(symbolName, user, withBbo), sent, reqs);
      && o.error.None? && o.state == sent + MarketsOf(user, withBbo, reqs)
      && |o.state| == |sent| + |reqs| * (if withBbo then 5 else 4)
    decreases |reqs|
  {
    if reqs != [] {
      var n := |reqs| - 1;
      ReplayOfPerps(symbolName, user, withBbo, sent, reqs[..n]);
      assert reqs[n].exchange == Hype;
    }
  }

  // ---------------------------------------------------------------------
  // The REST client

  class RestApi {
    const gatewayName: string
    var orderCount: nat
    var connectTime: nat
    var localIds: map<int, string>
    var spotInited: bool
    var spotSymbolName: map<string, string>
    /** The keys of `spotSymbolName` in insertion order. */
    var spotSymbolOrder: seq<string>
    var spotNameSymbol: map<string, string>
    /** The module-wide spot index table, kept by the one REST client. */
    var spotIndexName: map<int, string>
    /** Orders pushed to the gateway. */
    var orders: seq<OrderEvent>
    /** Calls made to place orders on the exchange. */
    var placed: seq<PlacedOrder>
    /** Contracts pushed to the gateway. */
    var contracts: seq<Contract>

    ghost predicate Valid()
      reads this
    {
      KeyOrder(spotSymbolOrder, spotSymbolName)
    }

    constructor(gatewayName: string)
      ensures Valid()
      ensures this.gatewayName == gatewayName && orderCount == 0 && connectTime == 0
      ensures localIds == map[] && !spotInited && spotSymbolName == map[] && spotNameSymbol == map[]
      ensures spotIndexName == map[] && orders == [] && placed == [] && contracts == []
    {
      this.gatewayName := gatewayName;
      orderCount := 0;
      connectTime := 0;
      localIds := map[];
      spotInited := false;
      spotSymbolName := map[];
      spotSymbolOrder := [];
      spotNameSymbol := map[];
      spotIndexName := map[];
      orders := [];
      placed := [];
      contracts := [];
    }

    /** The connect time comes from the clock, as a `%Y%m%d%H%M%S` number. */
    method Connect(now: nat)
      modifies this`connectTime
      ensures connectTime == now
    {
      connectTime := now;
    }

    method NewOrderId() returns (id: nat)
      modifies this`orderCount
      ensures id == old(orderCount) + 1 && orderCount == id
    {
      orderCount := orderCount + 1;
      id := orderCount;
    }

    method SendOrder(req: OrderRequest, response: SendStatus) returns (r: Result<string>)
      requires Valid()
      modifies this`orderCount, this`orders, this`placed, this`localIds
      ensures Valid()
      ensures orderCount == old(orderCount) + 1
      ensures var orderid := OrderIdString(connectTime, orderCount);
        var order := SubmittedOrder(req, orderid);
        var coin := CoinOf(spotSymbolName, req.symbol, req.exchange);
        && (coin.Err? ==> r == Err(coin.error) && orders == old(orders) + [order]
                          && placed == old(placed) && localIds == old(localIds))
        && (coin.Ok? ==>
              && placed == old(placed) + [PlacedOrder(coin.value, req.direction == Long, req.volume, req.price,
                                                      req.offset == Close && req.exchange == Hype, orderid)]
              && SendOutcome(response, order, old(orders) + [order], old(localIds), orderid)
                 == (orders, localIds, r.Err?)
              && (r.Ok? ==> r.value == gatewayName + "." + orderid)
              && (r.Err? ==> r.error == MissingResting))
    {
      var n := NewOrderId();
      var orderid := OrderIdString(connectTime, n);
      var order := SubmittedOrder(req, orderid);
      orders := orders + [order];
      var coin := CoinOf(spotSymbolName, req.symbol, req.exchange);
      if coin.Err? {
        return Err(coin.error);
      }
      var reduceOnly := req.offset == Close && req.exchange == Hype;
      placed := placed + [PlacedOrder(coin.value, req.direction == Long, req.volume, req.price, reduceOnly, orderid)];
      var sent := OnSendOrder(response, order, orderid);
      if sent.Err? {
        return Err(sent.error);
      }
      r := Ok(gatewayName + "." + orderid);
    }

    /** The answer to an order: an error rejects it, otherwise its oid is mapped to the local id. */
    method OnSendOrder(response: SendStatus, order: OrderEvent, orderid: string) returns (r: Result<()>)
      modifies this`orders, this`localIds
      ensures SendOutcome(response, order, old(orders), old(localIds), orderid) == (orders, localIds, r.Err?)
      ensures r.Err? ==> r.error == MissingResting
    {
      if response.error.Some? {
        orders := orders + [order.(status := Rejected)];
        r := Ok(());
      } else if response.filled.Some? {
        localIds := localIds[response.filled.value := orderid];
        r := Ok(());
      } else if response.resting.Some? {
        localIds := localIds[response.resting.value := orderid];
        r := Ok(());
      } else {
        r := Err(MissingResting);
      }
    }

    method OnQueryOrder(data: seq<RawOrder>) returns (err: Option<GwError>)
      modifies this`localIds, this`orders
      ensures var o := Fold(QueryStepper(spotNameSymbol), OrderBook(old(localIds), old(orders), None), data);
        localIds == o.state.localIds && orders == o.state.events && err == o.error
    {
      var step := QueryStepper(spotNameSymbol);
      var init := OrderBook(localIds, orders, None);
      var b := init;
      var i := 0;
      err := None;
      while i < |data| && err.None?
        invariant 0 <= i <= |data|
        invariant Fold(step, init, data[..i]) == Outcome(b, err)
        decreases |data| - i
      {
        FoldStep(step, init, data, i);
        var o := QueryStep(spotNameSymbol, b, data[i]);
        b, err := o.state, o.error;
        i := i + 1;
      }
      if err.Some? {
        FoldErrStays(step, init, data, i);
      } else {
        assert data[..i] == data;
      }
      localIds, orders := b.localIds, b.events;
    }

    method OnQuerySpotContract(universe: seq<SpotPair>, tokens: seq<SpotToken>) returns (err: Option<GwError>)
      requires Valid()
      modifies this`spotIndexName, this`spotSymbolName, this`spotSymbolOrder, this`contracts,
               this`spotNameSymbol, this`spotInited
      ensures Valid()
      ensures var o := Fold(IndexStep, old(spotIndexName), universe);
        spotIndexName == o.state && err == o.error
        && (o.error.Some? ==>
              spotSymbolName == old(spotSymbolName) && spotSymbolOrder == old(spotSymbolOrder)
              && contracts == old(contracts) && spotNameSymbol == old(spotNameSymbol)
              && spotInited == old(spotInited))
        && (o.error.None? ==>
              SpotTables(spotSymbolOrder, spotSymbolName, contracts)
                == SpotTokens(o.state, SpotTables(old(spotSymbolOrder), old(spotSymbolName), old(contracts)), tokens)
              && spotNameSymbol == Invert(spotSymbolName, spotSymbolOrder) && spotInited)
    {
      var m := spotIndexName;
      var i := 0;
      err := None;
      while i < |universe| && err.None?
        invariant 0 <= i <= |universe|
        invariant Fold(IndexStep, old(spotIndexName), universe[..i]) == Outcome(m, err)
        invariant unchanged(this)
        decreases |universe| - i
      {
        FoldStep(IndexStep, old(spotIndexName), universe, i);
        var o := IndexStep(m, universe[i]);
        m, err := o.state, o.error;
        i := i + 1;
      }
      if err.Some? {
        FoldErrStays(IndexStep, old(spotIndexName), universe, i);
      } else {
        assert universe[..i] == universe;
      }
      if err.Some? {
        spotIndexName := m;
        return;
      }
      var init := SpotTables(spotSymbolOrder, spotSymbolName, contracts);
      var s := init;
      var j := 0;
      while j < |tokens|
        invariant 0 <= j <= |tokens|
        invariant KeyOrder(s.keys, s.symbolName)
        invariant s == SpotTokens(m, init, tokens[..j])
        invariant unchanged(this)
      {
        assert tokens[..j + 1][..j] == tokens[..j];
        s := TokenStep(m, s, tokens[j]);
        j := j + 1;
      }
      assert tokens[..j] == tokens;
      spotIndexName := m;
      spotSymbolOrder, spotSymbolName, contracts := s.keys, s.symbolName, s.contracts;
      spotNameSymbol := Invert(spotSymbolName, spotSymbolOrder);
      spotInited := true;
    }

    method OnQueryPerpContract(universe: seq<PerpEntry>)
      modifies this`contracts
      ensures contracts == old(contracts) + PerpContracts(universe)
    {
      var i := 0;
      while i < |universe|
        invariant 0 <= i <= |universe|
        invariant contracts == old(contracts) + PerpContracts(universe[..i])
      {
        assert PerpContracts(universe[..i + 1]) == PerpContracts(universe[..i]) + [PerpContract(universe[i])];
        contracts := contracts + [PerpContract(universe[i])];
        i := i + 1;
      }
      assert universe[..i] == universe;
    }
  }

  // ---------------------------------------------------------------------
  // The websocket client

  class WebsocketApi {
    const rest: RestApi
    /** The wallet address user channels are subscribed for. */
    const user: string
    /** Whether best-bid-offer channels are subscribed as well. */
    const withBbo: bool
    var wsConnected: bool
    var pingCount: int
    /** Ping frames sent. */
    var pings: nat
    /** The keys of the tick table. */
    var ticks: set<string>
    var subscribed: map<string, SubscribeRequest>
    /** The keys of `subscribed` in insertion order. */
    var subscribedOrder: seq<string>
    /** Descriptors handed to the info client's `subscribe`. */
    var requests: seq<Subscription>
    var tradeIds: seq<int>
    /** Trades and orders pushed to the gateway. */
    var trades: seq<TradeEvent>
    var orders: seq<OrderEvent>

    ghost predicate Valid()
      reads this
    {
      && 0 <= pingCount < PingEvery
      && KeyOrder(subscribedOrder, subscribed)
      && (forall k :: k in subscribed ==> k == SubscriptionKey(subscribed[k]) && k in ticks)
      && UniqueTrades(tradeIds, trades)
    }

    constructor(rest: RestApi, user: string, withBbo: bool)
      ensures Valid()
      ensures this.rest == rest && this.user == user && this.withBbo == withBbo
      ensures !wsConnected && pingCount == 0 && pings == 0 && ticks == {} && subscribed == map[]
      ensures requests == [] && tradeIds == [] && trades == [] && orders == []
    {
      this.rest := rest;
      this.user := user;
      this.withBbo := withBbo;
      wsConnected := false;
      pingCount := 0;
      pings := 0;
      ticks := {};
      subscribed := map[];
      subscribedOrder := [];
      requests := [];
      tradeIds := [];
      trades := [];
      orders := [];
    }

    /** One timer event; see `PingSchedule` for the resulting rhythm. */
    method SendPing()
      requires Valid()
      modifies this`pingCount, this`pings
      ensures Valid()
      ensures (pingCount, pings) == (PingStep(old(pingCount)).0,
                                     if PingStep(old(pingCount)).1 then old(pings) + 1 else old(pings))
    {
      pingCount := pingCount + 1;
      if pingCount < PingEvery {
        return;
      }
      pingCount := 0;
      pings := pings + 1;
    }

    /** Subscribes one market; modelled from the moment both readiness flags hold. */
    method Subscribe(req: SubscribeRequest) returns (r: Result<()>)
      requires Valid() && wsConnected && rest.spotInited
      modifies this`ticks, this`subscribed, this`subscribedOrder, this`requests
      ensures Valid()
      ensures var key := SubscriptionKey(req);
        && ticks == old(ticks) + {key}
        && (subscribedOrder, subscribed) == Put(old(subscribedOrder), old(subscribed), key, req)
      ensures SubscribeStep(rest.spotSymbolName, user, withBbo, old(requests), req)
           == Outcome(requests, if r.Err? then Some(r.error) else None)
    {
      var key := SubscriptionKey(req);
      ticks := ticks + {key};
      subscribedOrder, subscribed := Put(subscribedOrder, subscribed, key, req).0, subscribed[key := req];
      var coin := CoinOf(rest.spotSymbolName, req.symbol, req.exchange);
      if coin.Err? {
        return Err(coin.error);
      }
      requests := requests + MarketSubscriptions(coin.value, user, withBbo);
      r := Ok(());
    }

    /** Re-subscribes every stored request, in insertion order, once connected. */
    method OnConnected() returns (err: Option<GwError>)
      requires Valid() && (rest.spotInited || subscribed == map[])
      modifies this`wsConnected, this`ticks, this`subscribed, this`subscribedOrder, this`requests
      ensures Valid() && wsConnected
      ensures ticks == old(ticks) && subscribed == old(subscribed) && subscribedOrder == old(subscribedOrder)
      ensures var o := Fold(SubscribeStepper(rest.spotSymbolName, user, withBbo), old(requests),
                            ValuesInOrder(old(subscribed), old(subscribedOrder)));
        requests == o.state && err == o.error
    {
      wsConnected := true;
      var reqs := ValuesInOrder(subscribed, subscribedOrder);
      var step := SubscribeStepper(rest.spotSymbolName, user, withBbo);
      var i := 0;
      err := None;
      while i < |reqs| && err.None?
        invariant 0 <= i <= |reqs|
        invariant Valid() && wsConnected
        invariant ticks == old(ticks) && subscribed == old(subscribed) && subscribedOrder == old(subscribedOrder)
        invariant Fold(step, old(requests), reqs[..i]) == Outcome(requests, err)
        decreases |reqs| - i
      {
        FoldStep(step, old(requests), reqs, i);
        var key := subscribedOrder[i];
        assert key in subscribed;
        assert reqs[i] == subscribed[key] && SubscriptionKey(reqs[i]) == key;
        assert subscribed[key := reqs[i]] == subscribed;
        var r := Subscribe(reqs[i]);
        err := if r.Err? then Some(r.error) else None;
        i := i + 1;
      }
      if err.Some? {
        FoldErrStays(step, old(requests), reqs, i);
      } else {
        assert reqs[..i] == reqs;
      }
    }

    method OnTrade(fills: seq<Fill>) returns (err: Option<GwError>)
      requires Valid()
      modifies this`tradeIds, this`trades, rest`localIds
      ensures Valid()
      ensures var o := Fold(TradeStepper(rest.spotNameSymbol),
                            TradeBook(old(tradeIds), old(rest.localIds), old(trades)), fills);
        tradeIds == o.state.tradeIds && rest.localIds == o.state.localIds && trades == o.state.trades
        && err == o.error
    {
      var step := TradeStepper(rest.spotNameSymbol);
      var init := TradeBook(tradeIds, rest.localIds, trades);
      var b := init;
      var i := 0;
      err := None;
      while i < |fills| && err.None?
        invariant 0 <= i <= |fills|
        invariant Fold(step, init, fills[..i]) == Outcome(b, err)
        decreases |fills| - i
      {
        FoldStep(step, init, fills, i);
        var o := TradeStep(rest.spotNameSymbol, b, fills[i]);
        b, err := o.state, o.error;
        i := i + 1;
      }
      if err.Some? {
        FoldErrStays(step, init, fills, i);
      } else {
        assert fills[..i] == fills;
      }
      TradesStayUnique(rest.spotNameSymbol, init, fills);
      tradeIds, trades := b.tradeIds, b.trades;
      rest.localIds := b.localIds;
    }

    method OnOrder(data: seq<OrderUpdate>) returns (err: Option<GwError>)
      modifies this`orders, rest`localIds
      ensures var o := Fold(UpdateStepper(rest.spotNameSymbol), OrderBook(old(rest.localIds), old(orders), None), data);
        rest.localIds == o.state.localIds && orders == o.state.events && err == o.error
    {
      var step := UpdateStepper(rest.spotNameSymbol);
      var init := OrderBook(rest.localIds, orders, None);
      var b := init;
      var i := 0;
      err := None;
      while i < |data| && err.None?
        invariant 0 <= i <= |data|
        invariant Fold(step, init, data[..i]) == Outcome(b, err)
        decreases |data| - i
      {
        FoldStep(step, init, data, i);
        var o := UpdateStep(rest.spotNameSymbol, b, data[i]);
        b, err := o.state, o.error;
        i := i + 1;
      }
      if err.Some? {
        FoldErrStays(step, init, data, i);
      } else {
        assert data[..i] == data;
      }
      rest.localIds, orders := b.localIds, b.events;
    }
  }

  /** Orders, oid table and whether it raised, after the answer to a placed order. */
  function SendOutcome(response: SendStatus, order: OrderEvent, orders: seq<OrderEvent>,
                       localIds: map<int, string>, orderid: string): (seq<OrderEvent>, map<int, string>, bool)
  {
    if response.error.Some? then (orders + [order.(status := Rejected)], localIds, false)
    else if response.filled.Some? then (orders, localIds[response.filled.value := orderid], false)
    else if response.resting.Some? then (orders, localIds[response.resting.value := orderid], false)
    else (orders, localIds, true)
  }

  /**
    An accepted order's oid is known afterwards: later reports of it without a cloid
    carry the local id; a rejected one leaves the table alone and reports REJECTED.
   */
  lemma AnsweredOrderIsKnown(response: SendStatus, order: OrderEvent, orders: seq<OrderEvent>,
                             localIds: map<int, string>, orderid: string)
    ensures var (orders', localIds', raised) := SendOutcome(response, order, orders, localIds, orderid);
      && (raised <==> response.error.None? && response.filled.None? && response.resting.None?)
      && (response.error.Some? ==>
            localIds' == localIds && orders' == orders + [order.(status := Rejected)])
      && (response.error.None? && response.filled.Some? ==>
            ResolveOrderId(localIds', response.filled.value, None).0 == Local(orderid))
      && (response.error.None? && response.filled.None? && response.resting.Some? ==>
            ResolveOrderId(localIds', response.resting.value, None).0 == Local(orderid))
      && (response.error.None? ==> orders' == orders)
  {
  }
}
