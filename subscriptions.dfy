/**
  Routing keys of the websocket multiplexer: the identifier computed from an
  outbound subscription descriptor (`subscription_to_identifier`) and the one
  computed from an inbound envelope (`ws_msg_to_identifier`).  Coins and users
  are lower-cased in both, so a topic is case-insensitive.
 */
module Subscriptions {
  import opened Text

  datatype Option<T> = None | Some(value: T)

  /** The subscription descriptors the identifier function knows about. */
  datatype Subscription =
    | AllMids
    | L2Book(coin: string)
    | Trades(coin: string)
    | UserEvents(user: string)
    | UserFills(user: string)
    | Candle(coin: string, interval: string)
    | OrderUpdates(user: string)
    | UserFundings(user: string)
    | UserNonFundingLedgerUpdates(user: string)
    | WebData2(user: string)
    | Bbo(coin: string)
    | ActiveAssetCtx(coin: string)
    | ActiveAssetData(user: string, coin: string)

  /** The routing key of a subscription. */
  function Identifier(s: Subscription): string {
    match s
    case AllMids => "allMids"
    case L2Book(coin) => "l2Book:" + Lower(coin)
    case Trades(coin) => "trades:" + Lower(coin)
    case UserEvents(_) => "userEvents"
    case UserFills(user) => "userFills:" + Lower(user)
    case Candle(coin, interval) => "candle:" + Lower(coin) + "," + interval
    case OrderUpdates(_) => "orderUpdates"
    case UserFundings(user) => "userFundings:" + Lower(user)
    case UserNonFundingLedgerUpdates(user) => "userNonFundingLedgerUpdates:" + Lower(user)
    case WebData2(user) => "webData2:" + Lower(user)
    case Bbo(coin) => "bbo:" + Lower(coin)
    case ActiveAssetCtx(coin) => "activeAssetCtx:" + Lower(coin)
    case ActiveAssetData(user, coin) => "activeAssetData:" + Lower(coin) + "," + Lower(user)
  }

  /** The same descriptor with every coin and user lower-cased (the interval is kept). */
  function Normalized(s: Subscription): Subscription {
    match s
    case AllMids => AllMids
    case L2Book(coin) => L2Book(Lower(coin))
    case Trades(coin) => Trades(Lower(coin))
    case UserEvents(user) => UserEvents(Lower(user))
    case UserFills(user) => UserFills(Lower(user))
    case Candle(coin, interval) => Candle(Lower(coin), interval)
    case OrderUpdates(user) => OrderUpdates(Lower(user))
    case UserFundings(user) => UserFundings(Lower(user))
    case UserNonFundingLedgerUpdates(user) => UserNonFundingLedgerUpdates(Lower(user))
    case WebData2(user) => WebData2(Lower(user))
    case Bbo(coin) => Bbo(Lower(coin))
    case ActiveAssetCtx(coin) => ActiveAssetCtx(Lower(coin))
    case ActiveAssetData(user, coin) => ActiveAssetData(Lower(user), Lower(coin))
  }

  /** Routing keys are case-insensitive: lower-casing coin and user does not change the topic. */
  lemma IdentifierIgnoresCase(s: Subscription)
    ensures Identifier(Normalized(s)) == Identifier(s)
  {
    match s
    case AllMids =>
    case L2Book(coin) => LowerIdempotent(coin);
    case Trades(coin) => LowerIdempotent(coin);
    case UserEvents(_) =>
    case UserFills(user) => LowerIdempotent(user);
    case Candle(coin, _) => LowerIdempotent(coin);
    case OrderUpdates(_) =>
    case UserFundings(user) => LowerIdempotent(user);
    case UserNonFundingLedgerUpdates(user) => LowerIdempotent(user);
    case WebData2(user) => LowerIdempotent(user);
    case Bbo(coin) => LowerIdempotent(coin);
    case ActiveAssetCtx(coin) => LowerIdempotent(coin);
    case ActiveAssetData(user, coin) => LowerIdempotent(user); LowerIdempotent(coin);
  }

  /** The descriptors whose topic is keyed by one coin or one user. */
  predicate SingleKeyed(s: Subscription) {
    s.L2Book? || s.Trades? || s.Bbo? || s.ActiveAssetCtx? || s.UserFills?
    || s.UserFundings? || s.UserNonFundingLedgerUpdates? || s.WebData2?
  }

  function Key(s: Subscription): string
    requires SingleKeyed(s)
  {
    if s.L2Book? || s.Trades? || s.Bbo? || s.ActiveAssetCtx? then s.coin else s.user
  }

  function Prefix(s: Subscription): string
    requires SingleKeyed(s)
  {
    match s
    case L2Book(_) => "l2Book:"
    case Trades(_) => "trades:"
    case Bbo(_) => "bbo:"
    case ActiveAssetCtx(_) => "activeAssetCtx:"
    case UserFills(_) => "userFills:"
    case UserFundings(_) => "userFundings:"
    case UserNonFundingLedgerUpdates(_) => "userNonFundingLedgerUpdates:"
    case WebData2(_) => "webData2:"
  }

  /**
    Two single-keyed descriptors of the same type share a topic exactly when
    their keys are equal up to letter case.
   */
  lemma SameTopicIffEqualIgnoringCase(a: Subscription, b: Subscription)
    requires SingleKeyed(a) && SingleKeyed(b) && Prefix(a) == Prefix(b)
    ensures Identifier(a) == Identifier(b) <==> EqualIgnoringCase(Key(a), Key(b))
  {
    assert Identifier(a) == Prefix(a) + Lower(Key(a));
    assert Identifier(b) == Prefix(b) + Lower(Key(b));
    if Identifier(a) == Identifier(b) {
      PrefixCancel(Prefix(a), Lower(Key(a)), Lower(Key(b)));
    }
  }

  /**
    An inbound payload as decoded JSON: an object whose fields are given as
    strings, or a list of such objects.
   */
  datatype Payload = Obj(fields: map<string, string>) | Arr(items: seq<map<string, string>>)

  datatype WsMsg = WsMsg(channel: string, data: Payload)

  /**
    What `ws_msg_to_identifier` yields: an identifier, `None` (an unknown
    channel, or an empty trades list), or an exception because the payload
    lacks a key it indexes or has the wrong shape.
   */
  datatype Route = Topic(id: string) | NoTopic | Malformed

  /** `ws_msg["data"][key]`, or `None` where Python would raise. */
  function Field(p: Payload, key: string): Option<string> {
    if p.Obj? && key in p.fields then Some(p.fields[key]) else None
  }

  function KeyedTopic(prefix: string, p: Payload, key: string): Route {
    match Field(p, key)
    case Some(v) => Topic(prefix + Lower(v))
    case None => Malformed
  }

  /** The identifier of an inbound message. */
  function MsgToIdentifier(m: WsMsg): Route {
    var p := m.data;
    if m.channel == "pong" then Topic("pong")
    else if m.channel == "allMids" then Topic("allMids")
    else if m.channel == "l2Book" then KeyedTopic("l2Book:", p, "coin")
    else if m.channel == "trades" then
      (match p
       case Arr(items) =>
         if |items| == 0 then NoTopic
         else if "coin" in items[0] then Topic("trades:" + Lower(items[0]["coin"]))
         else Malformed
       case Obj(fields) =>
         // `len(trades) == 0` holds for an empty object; `trades[0]` fails on any other
         if |fields| == 0 then NoTopic else Malformed)
    else if m.channel == "user" then Topic("userEvents")
    else if m.channel == "userFills" then KeyedTopic("userFills:", p, "user")
    else if m.channel == "candle" then
      (match (Field(p, "s"), Field(p, "i"))
       case (Some(s), Some(i)) => Topic("candle:" + Lower(s) + "," + i)
       case _ => Malformed)
    else if m.channel == "orderUpdates" then Topic("orderUpdates")
    else if m.channel == "userFundings" then KeyedTopic("userFundings:", p, "user")
    else if m.channel == "userNonFundingLedgerUpdates" then
      KeyedTopic("userNonFundingLedgerUpdates:", p, "user")
    else if m.channel == "webData2" then KeyedTopic("webData2:", p, "user")
    else if m.channel == "bbo" then KeyedTopic("bbo:", p, "coin")
    else if m.channel == "activeAssetCtx" || m.channel == "activeSpotAssetCtx" then
      KeyedTopic("activeAssetCtx:", p, "coin")
    else if m.channel == "activeAssetData" then
      (match (Field(p, "coin"), Field(p, "user"))
       case (Some(c), Some(u)) => Topic("activeAssetData:" + Lower(c) + "," + Lower(u))
       case _ => Malformed)
    else NoTopic
  }

  /** The channels a subscription's messages arrive on. */
  function Channels(s: Subscription): set<string> {
    match s
    case AllMids => {"allMids"}
    case L2Book(_) => {"l2Book"}
    case Trades(_) => {"trades"}
    case UserEvents(_) => {"user"}
    case UserFills(_) => {"userFills"}
    case Candle(_, _) => {"candle"}
    case OrderUpdates(_) => {"orderUpdates"}
    case UserFundings(_) => {"userFundings"}
    case UserNonFundingLedgerUpdates(_) => {"userNonFundingLedgerUpdates"}
    case WebData2(_) => {"webData2"}
    case Bbo(_) => {"bbo"}
    case ActiveAssetCtx(_) => {"activeAssetCtx", "activeSpotAssetCtx"}
    case ActiveAssetData(_, _) => {"activeAssetData"}
  }

  predicate FieldMatches(p: Payload, key: string, v: string) {
    p.Obj? && key in p.fields && EqualIgnoringCase(p.fields[key], v)
  }

  /**
    `m` is a message the server sends for subscription `s`: it arrives on one
    of the subscription's channels and its key fields equal the
    subscription's up to letter case (the candle interval exactly).
   */
  predicate AddressedTo(m: WsMsg, s: Subscription) {
    m.channel in Channels(s) &&
    match s
    case AllMids => true
    case L2Book(coin) => FieldMatches(m.data, "coin", coin)
    case Trades(coin) =>
      m.data.Arr? && |m.data.items| > 0 && "coin" in m.data.items[0]
      && EqualIgnoringCase(m.data.items[0]["coin"], coin)
    case UserEvents(_) => true
    case UserFills(user) => FieldMatches(m.data, "user", user)
    case Candle(coin, interval) =>
      FieldMatches(m.data, "s", coin) && "i" in m.data.fields && m.data.fields["i"] == interval
    case OrderUpdates(_) => true
    case UserFundings(user) => FieldMatches(m.data, "user", user)
    case UserNonFundingLedgerUpdates(user) => FieldMatches(m.data, "user", user)
    case WebData2(user) => FieldMatches(m.data, "user", user)
    case Bbo(coin) => FieldMatches(m.data, "coin", coin)
    case ActiveAssetCtx(coin) => FieldMatches(m.data, "coin", coin)
    case ActiveAssetData(user, coin) =>
      FieldMatches(m.data, "coin", coin) && FieldMatches(m.data, "user", user)
  }

  /**
    Every message addressed to a subscription is routed to that
    subscription's topic, whatever the letter case of its coin or user; in
    particular channel `user` goes to `userEvents` and `activeSpotAssetCtx`
    to `activeAssetCtx`.
   */
  lemma AddressedMessageRoutesToTopic(m: WsMsg, s: Subscription)
    requires AddressedTo(m, s)
    ensures MsgToIdentifier(m) == Topic(Identifier(s))
  {
    if s.AllMids? || s.L2Book? || s.Trades? || s.Candle? || s.Bbo? || s.ActiveAssetCtx? || s.ActiveAssetData? {
      CoinMessageRoutesToTopic(m, s);
    } else {
      UserMessageRoutesToTopic(m, s);
    }
  }

  lemma CoinMessageRoutesToTopic(m: WsMsg, s: Subscription)
    requires AddressedTo(m, s)
    requires s.AllMids? || s.L2Book? || s.Trades? || s.Candle? || s.Bbo? || s.ActiveAssetCtx? || s.ActiveAssetData?
    ensures MsgToIdentifier(m) == Topic(Identifier(s))
  {
    match s
    case AllMids =>
    case L2Book(_) =>
    case Trades(_) =>
    case Candle(_, _) =>
    case Bbo(_) =>
    case ActiveAssetCtx(_) =>
    case ActiveAssetData(_, _) =>
  }

  lemma UserMessageRoutesToTopic(m: WsMsg, s: Subscription)
    requires AddressedTo(m, s)
    requires s.UserEvents? || s.UserFills? || s.OrderUpdates? || s.UserFundings?
             || s.UserNonFundingLedgerUpdates? || s.WebData2?
    ensures MsgToIdentifier(m) == Topic(Identifier(s))
  {
    match s
    case UserEvents(_) =>
    case UserFills(_) =>
    case OrderUpdates(_) =>
    case UserFundings(_) =>
    case UserNonFundingLedgerUpdates(_) =>
    case WebData2(_) =>
  }

  /** A heartbeat answer carries the identifier "pong", which no subscription has. */
  lemma PongIsNotATopic(m: WsMsg, s: Subscription)
    requires m.channel == "pong"
    ensures MsgToIdentifier(m) == Topic("pong")
    ensures Identifier(s) != "pong"
  {
    var id := Identifier(s);
    assert id[0] != 'p';
  }

  /** An empty batch of trades carries no topic. */
  lemma EmptyTradesHaveNoTopic(m: WsMsg)
    requires m.channel == "trades" && m.data == Arr([])
    ensures MsgToIdentifier(m) == NoTopic
  {
  }
}
