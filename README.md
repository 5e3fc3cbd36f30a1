# vnpy_hyperliquid: subscription multiplexer, symbol tables and gateway bookkeeping

This project models three layers of the vn.py gateway for the Hyperliquid exchange.

The first layer is the SDK's `WebsocketManager`. It is one websocket that carries
many subscriptions. Each subscription descriptor and each inbound envelope is reduced
to a routing key, the *identifier*: coins and users are lower-cased, so every topic
is case-insensitive. The manager keeps three collections:

- a queue of subscriptions made while the socket was not ready;
- the active registrations grouped by identifier;
- a replay list that is re-sent after every reconnect.

It also runs a reconnect state machine: close codes, error classes, and a linear
back-off capped at 30 seconds over at most 5 attempts.

The second layer is the name and asset tables of the SDK's `Info` client:

- spot assets take ids `10000 + index`;
- each spot pair has a `BASE/QUOTE` alias that never overwrites an earlier name;
- perpetuals of the default dex take ids from 0;
- builder dexes take ids from `110000 + i * 10000`.

It also covers `name_to_asset` and the coin remapping that `subscribe` and
`unsubscribe` apply.

The third layer is the gateway's own bookkeeping:

- local order ids `"0x" + connect time + 18-digit order number`;
- the table from exchange order ids (oids) to local ids;
- the order status rules of the query answer and of the order-update stream;
- trade-id de-duplication;
- the spot symbol/name tables and their inverse;
- contract decimals;
- the ping counter;
- the subscriptions issued per market.

Files:

- `text.dfy` (module `Text`): the ASCII part of `str.lower`, `str(n)` for naturals,
  `str.rjust` and their read-back lemmas.
- `subscriptions.dfy` (module `Subscriptions`): the descriptors and both identifier
  functions.
- `ws_manager.dfy` (module `WsManager`): the registry as values and the class
  `Manager` with the manager's fields and callbacks.
- `info.dfy` (module `InfoTables`): the table folds and the class `Info`.
- `gateway.dfy` (module `Gateway`): the fixed tables, the record loops as folds
  that stop at the first exception, and the classes `RestApi` and `WebsocketApi`.

A loop that walks exchange records and stops at the first Python exception is a
`method` with a `while` loop. It is proved equal to `Fold` of a one-record step
function. The record-level promises are lemmas about that fold, for example:

- every order is reported once, in order, by the status rule;
- no trade id is ever reported twice.

The network, the clock and the socket are parameters of the operations:

- an exchange answer is an argument;
- "the socket accepts `k` frames" and "this send raises" are arguments;
- frames sent, callbacks invoked, orders and trades pushed to the host are logs.

## Model

| member | source | states |
|---|---|---|
| Text.LowerIdempotent | hyperliquid-python-sdk-master/hyperliquid/websocket_manager.py:16-42 | lower-casing an identifier key a second time changes nothing |
| Text.ParseDecimalOfDecimal | hyperliquid/hyperliquid_gateway.py:355 | `str(n)` of a natural reads back to `n` |
| Text.ParseDecimalOfPadded | hyperliquid/hyperliquid_gateway.py:355 | an `rjust`-zero-padded `str(n)` still reads back to `n` |
| Text.DecimalFits | hyperliquid/hyperliquid_gateway.py:355 | a number below 10^k has at most k digits, so `rjust(18, '0')` does not overflow 18 characters |
| Subscriptions.IdentifierIgnoresCase | hyperliquid-python-sdk-master/hyperliquid/websocket_manager.py:16-42 | lower-casing every coin and user of a descriptor leaves its identifier unchanged |
| Subscriptions.SameTopicIffEqualIgnoringCase | hyperliquid-python-sdk-master/hyperliquid/websocket_manager.py:16-42 | two single-keyed descriptors of one type share a topic if and only if their keys are equal up to ASCII case |
| Subscriptions.AddressedMessageRoutesToTopic | hyperliquid-python-sdk-master/hyperliquid/websocket_manager.py:45-77 | every envelope the server sends for a subscription gets that subscription's outbound identifier. This includes channel `user` → `userEvents`, `activeSpotAssetCtx` → `activeAssetCtx`, candles keyed by `s` and `i`, trades keyed by the first element's coin |
| Subscriptions.PongIsNotATopic | hyperliquid-python-sdk-master/hyperliquid/websocket_manager.py:46-47 | a `pong` envelope yields identifier `pong`, and no subscription has that identifier |
| Subscriptions.EmptyTradesHaveNoTopic | hyperliquid-python-sdk-master/hyperliquid/websocket_manager.py:52-55 | an empty trades batch yields no identifier |
| WsManager.GroupedSelectsTopic | hyperliquid-python-sdk-master/hyperliquid/websocket_manager.py:323-340 | rebuilding the active map from an entry list gives each topic exactly that topic's registrations, in list order |
| WsManager.GroupedOmitsAbsentId | hyperliquid-python-sdk-master/hyperliquid/websocket_manager.py:323-340 | an id absent from the entry list is absent from every rebuilt topic |
| WsManager.SubscribeFramesAt | hyperliquid-python-sdk-master/hyperliquid/websocket_manager.py:327-335 | one subscribe frame per entry, the i-th for the i-th entry |
| WsManager.WithoutId | hyperliquid-python-sdk-master/hyperliquid/websocket_manager.py:385 | the filtered list holds exactly the registrations whose id differs. It keeps its length iff the id was absent |
| WsManager.EntriesWithoutId | hyperliquid-python-sdk-master/hyperliquid/websocket_manager.py:388-393 | the filtered queue or replay list holds exactly the entries whose id differs |
| WsManager.EntriesWithoutIdOfAbsent | hyperliquid-python-sdk-master/hyperliquid/websocket_manager.py:388-393 | filtering out an absent id leaves the list, order included, unchanged |
| WsManager.WithoutIdIdempotent | hyperliquid-python-sdk-master/hyperliquid/websocket_manager.py:381-402 | a second unsubscribe of the same id removes nothing |
| WsManager.UnsubscribeUndoesSubscribe | hyperliquid-python-sdk-master/hyperliquid/websocket_manager.py:350-402 | unsubscribing the id a subscription just registered leaves its topic as the other registrations had it |
| WsManager.ReconnectWait | hyperliquid-python-sdk-master/hyperliquid/websocket_manager.py:132-156 | a wait exists iff auto-reconnect is on, no stop was requested and fewer than 5 attempts were made. The wait is `attempts + 1` seconds, between 1 and 30 |
| WsManager.FailureScheduleShape | hyperliquid-python-sdk-master/hyperliquid/websocket_manager.py:132-156 | from any attempt count, the remaining waits are `min(delay * (attempts + k + 1), 30)`, exactly `5 - attempts` of them |
| WsManager.DefaultFailureSchedule | hyperliquid-python-sdk-master/hyperliquid/websocket_manager.py:97-99 | with the default settings the back-off is 1, 2, 3, 4, 5 seconds, then give up |
| WsManager.Branch | hyperliquid-python-sdk-master/hyperliquid/websocket_manager.py:214-268 | only an unclassified error is fatal. A `gaierror` is caught by the reconnect tuple first, because it is an `OSError` |
| WsManager.Resubscribe | hyperliquid-python-sdk-master/hyperliquid/websocket_manager.py:320-348 | the loop of `on_open` computes `ResubscribePass`. The replay list and then the queue are registered and sent up to the failing send. Queued entries whose frame went out join the replay list |
| WsManager.PassEnd | hyperliquid-python-sdk-master/hyperliquid/websocket_manager.py:320-348 | where the loop stops, its state is the closed form `ResubscribePass` |
| WsManager.CompletePassRegistersEveryTopic | hyperliquid-python-sdk-master/hyperliquid/websocket_manager.py:320-348 | after a pass the socket lets through, each topic holds exactly its registrations from the replay list and then the queue |
| WsManager.Manager.constructor | hyperliquid-python-sdk-master/hyperliquid/websocket_manager.py:81-103 | counter 0, all flags clear, empty queue, registry and replay list, one socket created |
| WsManager.Manager.Subscribe | hyperliquid-python-sdk-master/hyperliquid/websocket_manager.py:350-379 | fresh id from the counter unless one is given; queued while not ready. Otherwise: registered under its topic, one frame sent, added to the replay list unless its id is there; a failed send queues it |
| WsManager.Manager.Unsubscribe | hyperliquid-python-sdk-master/hyperliquid/websocket_manager.py:381-402 | the id leaves the topic, the queue and the replay list. The frame is sent only when the topic is left empty while connected and ready. The result is true iff a registration was removed from the topic |
| WsManager.Manager.OnOpen | hyperliquid-python-sdk-master/hyperliquid/websocket_manager.py:312-348 | sets ready and connected, clears the reconnect flag and the attempt count, and replaces the registry, frames and replay list by `ResubscribePass`. The queue is emptied only when no send raised |
| WsManager.Manager.OnMessage | hyperliquid-python-sdk-master/hyperliquid/websocket_manager.py:295-310 | banner, pong and topic-less messages are ignored. Text that is not JSON, or JSON without `channel`, raises (`MalformedMessage`), as does a payload missing a key the topic needs. A topic with no registration is only logged. Otherwise the topic's callbacks are invoked once each, in registration order, up to and including the first that raises; the result says how many were invoked and whether one raised |
| WsManager.Manager.OnClose | hyperliquid-python-sdk-master/hyperliquid/websocket_manager.py:270-293 | clears both flags; asks for a reconnect iff the code is not 1000/1001 and no stop was requested. Reports the loss iff no reconnect is pending |
| WsManager.Manager.OnError | hyperliquid-python-sdk-master/hyperliquid/websocket_manager.py:214-268 | clears `is_connected`. Every non-fatal error asks for a reconnect and closes a running socket. A fatal one is only reported |
| WsManager.Manager.Stop | hyperliquid-python-sdk-master/hyperliquid/websocket_manager.py:199-212 | stop requested, connection flags cleared, one close call |
| WsManager.Manager.HandleReconnect | hyperliquid-python-sdk-master/hyperliquid/websocket_manager.py:132-156 | gives up exactly when `ReconnectWait` does, reporting the loss iff the attempts were exhausted. Otherwise counts the attempt and logs its wait. An interrupted wait stops the manager; an uninterrupted one creates a fresh socket and clears the ready and reconnect flags. The new flags are `HandleReconnectOf` of the old ones |
| WsManager.Manager.RunStep | hyperliquid-python-sdk-master/hyperliquid/websocket_manager.py:132-184 | the new flags, the loop's continuation and the number of loss reports are `RunStepOf` of the old flags, for every stop state. The wait is logged, and a fresh socket follows a granted wait and a close an interrupted one |
| WsManager.StopEndsRun | hyperliquid-python-sdk-master/hyperliquid/websocket_manager.py:132-184 | once a stop was requested, a pass of `run` ends the loop without waiting or counting an attempt. Only a raise reports the loss, once |
| WsManager.RunStepContinues | hyperliquid-python-sdk-master/hyperliquid/websocket_manager.py:158-184 | a reconnect is tried iff the pass raised, or no stop was requested and a reconnect is needed or the connection is down. Then the loop goes on iff `ReconnectWait` grants a wait that is not interrupted; otherwise nothing changes and the loop goes on iff no stop was requested |
| WsManager.RaisingRunGivesUp | hyperliquid-python-sdk-master/hyperliquid/websocket_manager.py:132-184 | if `run_forever` raises on every pass, `run` waits out the whole failure schedule, then gives up and reports the loss twice: for the exhausted attempts and in the exception handler |
| InfoTables.AddSpot | hyperliquid-python-sdk-master/hyperliquid/info.py:46-56 | raises iff the token pair is malformed or out of range. Otherwise: the coin gets id `index + 10000`, the base token's size decimals, and names itself; the alias `BASE/QUOTE` names it only if free; nothing else changes |
| InfoTables.SpotFoldKeepsCanonical | hyperliquid-python-sdk-master/hyperliquid/info.py:46-56 | the spot loop keeps the name invariant: each name's coin names itself and has an asset id |
| InfoTables.SpotFoldEntries | hyperliquid-python-sdk-master/hyperliquid/info.py:46-56 | after the loop each spot coin names itself, and one that no later entry repeats has id `index + 10000` |
| InfoTables.BuildSpotTables | hyperliquid-python-sdk-master/hyperliquid/info.py:46-56 | the loop computes `SpotFold`, the first exception included |
| InfoTables.SpotFoldErrStays | hyperliquid-python-sdk-master/hyperliquid/info.py:46-56 | once an entry raised, later entries change nothing |
| InfoTables.AddPerp | hyperliquid-python-sdk-master/hyperliquid/info.py:81-85 | one perpetual: its name maps to its id and to itself, and its id to its decimals |
| InfoTables.PerpFoldKeepsCanonical | hyperliquid-python-sdk-master/hyperliquid/info.py:78-85 | `set_perp_meta` keeps the name invariant |
| InfoTables.PerpFoldEntries | hyperliquid-python-sdk-master/hyperliquid/info.py:78-85 | entry i names itself and id `i + offset` has its decimals. Its coin has that id unless a later entry repeats the name |
| InfoTables.PerpFoldKeepsOthers | hyperliquid-python-sdk-master/hyperliquid/info.py:78-85 | names outside the universe keep coin and id |
| InfoTables.BuildPerpTables | hyperliquid-python-sdk-master/hyperliquid/info.py:78-85 | the loop computes `PerpFold` |
| InfoTables.DexOffsetsEntries | hyperliquid-python-sdk-master/hyperliquid/info.py:58-65 | builder dex i gets offset `110000 + i * 10000` when the entries before it have names and no later entry repeats it |
| InfoTables.DexOffsetsDefault | hyperliquid-python-sdk-master/hyperliquid/info.py:58 | the default dex `""` keeps offset 0 unless a builder is named `""` |
| InfoTables.DexOffsetsStop | hyperliquid-python-sdk-master/hyperliquid/info.py:62-68 | an entry without a name ends the loop; the offsets assigned before it stay |
| InfoTables.BuildDexOffsets | hyperliquid-python-sdk-master/hyperliquid/info.py:58-68 | the loop computes `DexOffsets` |
| InfoTables.PerpLoadKeepsCanonical | hyperliquid-python-sdk-master/hyperliquid/info.py:70-76 | the dex loop keeps the name invariant |
| InfoTables.PerpLoadUnknownDex | hyperliquid-python-sdk-master/hyperliquid/info.py:71 | a dex without an offset makes the load raise |
| InfoTables.BuildPerpLoad | hyperliquid-python-sdk-master/hyperliquid/info.py:70-76 | the loop computes `PerpLoad` |
| InfoTables.PerpLoadErrStays | hyperliquid-python-sdk-master/hyperliquid/info.py:70-76 | once a dex raised, later dexes change nothing |
| InfoTables.LoadTablesCanonical | hyperliquid-python-sdk-master/hyperliquid/info.py:18-76 | whatever the metas, tables that get built satisfy the name invariant |
| InfoTables.DefaultDexOnly | hyperliquid-python-sdk-master/hyperliquid/info.py:59-76 | without `perp_dexs` only the default dex is loaded at offset 0: the given meta, or the fetched one. A failed fetch (`None`) raises |
| InfoTables.NameToAssetTotal | hyperliquid-python-sdk-master/hyperliquid/info.py:775-778 | on invariant tables `name_to_asset` never raises. It yields an id exactly for known names, that of the name's coin, and the error dictionary otherwise |
| InfoTables.RemapChangesOnlyCoin | hyperliquid-python-sdk-master/hyperliquid/info.py:750-759 | remapping keeps the type and every field but the coin. It rewrites only the five types, and only to the coin the name maps to |
| InfoTables.RemapIdempotent | hyperliquid-python-sdk-master/hyperliquid/info.py:750-759 | on invariant tables, remapping twice is remapping once |
| InfoTables.Info.constructor | hyperliquid-python-sdk-master/hyperliquid/info.py:18-76 | a manager exists iff not `skip_ws`. The tables exist iff the spot meta is truthy, and they equal `LoadTables` when nothing raised. `raised` holds the exception iff loading raised, in which case Python creates no object. Existing tables keep the name invariant (`Valid`) |
| InfoTables.Info.Load | hyperliquid-python-sdk-master/hyperliquid/info.py:37-76 | the table-building code computes `LoadTables`, exceptions included |
| InfoTables.Info.SetPerpMeta | hyperliquid-python-sdk-master/hyperliquid/info.py:78-85 | no universe or an empty one: no change. A non-empty universe without tables: `AttributeError`. Otherwise the tables become `SetPerpMetaTables`. The name invariant is kept |
| InfoTables.Info.NameToAssetOf | hyperliquid-python-sdk-master/hyperliquid/info.py:775-778 | `AttributeError` without tables and the error dictionary for an unknown name. A known name gives its coin's id, or `KeyError` (`MissingAsset`) when that coin has none. On tables keeping the name invariant the lookup never raises, and it gives an id exactly for known names |
| InfoTables.Info.RemapOf | hyperliquid-python-sdk-master/hyperliquid/info.py:750-759 | raises only for the five remapped types when there are no tables, otherwise the remapped descriptor |
| InfoTables.Info.Subscribe | hyperliquid-python-sdk-master/hyperliquid/info.py:761-766 | remaps, then fails without a manager, or subscribes the remapped descriptor under a fresh id with the manager's full `subscribe` effect. Not ready: queued only. Ready: registered, and then either sent and added to the replay list or, when the send fails, queued as well. The manager's other state is kept |
| InfoTables.Info.Unsubscribe | hyperliquid-python-sdk-master/hyperliquid/info.py:768-773 | remaps, then fails without a manager, or has the manager's full `unsubscribe` effect: the topic's list without the id, the queue and replay list filtered, the frame rule, and the rest of its state kept. It tells whether the topic held the id |
| Gateway.SideDirection | hyperliquid/hyperliquid_gateway.py:72-77 | the inverted side table sends a code back to the direction it came from; any other code raises |
| Gateway.SideRoundTrip | hyperliquid/hyperliquid_gateway.py:72-77 | inverting the side table loses nothing |
| Gateway.TradeDirectionCloses | hyperliquid/hyperliquid_gateway.py:78-85 | a fill's offset is CLOSE iff a close, OPEN iff an open. It is LONG iff it opens a long, closes a short, or buys |
| Gateway.UpdatedStatusAllTraded | hyperliquid/hyperliquid_gateway.py:86-90 | an update is ALLTRADED iff it says `filled` with nothing left, and PARTTRADED iff `filled` with size left |
| Gateway.PriceDecimals | hyperliquid/hyperliquid_gateway.py:645-648 | price decimals are `min(5, max - szDecimals)` |
| Gateway.OrderNumberRoundTrip | hyperliquid/hyperliquid_gateway.py:355-356 | the order number can be read back out of the local order id |
| Gateway.OrderIdsDistinct | hyperliquid/hyperliquid_gateway.py:341-356 | different order numbers of one connection give different order ids |
| Gateway.OrderIdShape | hyperliquid/hyperliquid_gateway.py:355-356 | below 10^18 an id is `0x`, the connect time and exactly 18 digits |
| Gateway.ResolveCoin | hyperliquid/hyperliquid_gateway.py:593-597 | a coin resolves to the spot exchange iff it starts with `@`; that lookup raises iff the coin is unknown |
| Gateway.CoinOf | hyperliquid/hyperliquid_gateway.py:363-366 | perpetual symbols pass through; a spot symbol resolves iff it is in the symbol table |
| Gateway.CloidRemembered | hyperliquid/hyperliquid_gateway.py:605-609 | after a report with a cloid, later reports of that oid without one carry the cloid; other oids are unaffected |
| Gateway.NoCloidKeepsTable | hyperliquid/hyperliquid_gateway.py:605-606 | a report without a cloid records nothing. It carries the local id iff the oid is known, and the oid otherwise |
| Gateway.FoldErrStays | hyperliquid/hyperliquid_gateway.py:591 | once a record raised, the remaining records change nothing |
| Gateway.QueryStepReports | hyperliquid/hyperliquid_gateway.py:591-624 | a queried order that raises nothing adds one event with its volumes, side and CLOSE iff reduce-only. Its symbol is the spot name table's entry for an `@` coin and the coin otherwise, and its exchange is HYPESPOT iff the coin is spot. Its order id is the cloid, else the local id recorded for the oid, else the oid. It is NOTTRADED when untouched and PARTTRADED when partly filled, and its cloid is recorded for the oid |
| Gateway.QueryAppendsOne | hyperliquid/hyperliquid_gateway.py:591-624 | every iteration of the query loop that raises nothing hands exactly one order to the gateway and keeps the earlier ones |
| Gateway.QueryReportedAt | hyperliquid/hyperliquid_gateway.py:587-624 | in a query answer processed without exception, order `i` is reported at position `i` by the rules above, its id resolved against the oid table the first `i` orders left |
| Gateway.QueryReportsEachOrder | hyperliquid/hyperliquid_gateway.py:587-624 | a query answer processed without exception reports every order once, in order, by those rules. Each order's id is resolved against the oid table as the earlier orders of the batch left it |
| Gateway.UpdateStepReports | hyperliquid/hyperliquid_gateway.py:963-998 | an update that raises nothing adds one event with the same volumes, side, offset, symbol, exchange and order id as a queried order. Its status is the mapped status, with PARTTRADED for a `filled` update that still has size. Its cloid is recorded for the oid |
| Gateway.UpdateAppendsOne | hyperliquid/hyperliquid_gateway.py:963-998 | every iteration of the update loop that raises nothing hands exactly one order to the gateway and keeps the earlier ones |
| Gateway.UpdateReportedAt | hyperliquid/hyperliquid_gateway.py:959-998 | in an update batch processed without exception, update `i` is reported at position `i` by the rules above, its id resolved against the oid table the first `i` updates left |
| Gateway.UpdatesReportEachOrder | hyperliquid/hyperliquid_gateway.py:959-998 | an update batch processed without exception reports each update once, in order, by those rules. Each update's id is resolved against the oid table as the earlier updates of the batch left it |
| Gateway.TradeStep | hyperliquid/hyperliquid_gateway.py:926-958 | a seen trade id is skipped; a new one is recorded. At most one trade event is added, and it carries that id |
| Gateway.TradeStepKeepsUnique | hyperliquid/hyperliquid_gateway.py:928-958 | one fill keeps the recorded ids distinct and every trade id recorded and unique |
| Gateway.TradesStayUnique | hyperliquid/hyperliquid_gateway.py:922-958 | however fills are redelivered, no trade id yields two trade events |
| Gateway.IndexStep | hyperliquid/hyperliquid_gateway.py:631-633 | a pair names its first token's index; an empty token list raises |
| Gateway.Put | hyperliquid/hyperliquid_gateway.py:644 | a dict store keeps the insertion order: a new key goes last, an old key keeps its place |
| Gateway.SpotTokens | hyperliquid/hyperliquid_gateway.py:634-661 | the token loop keeps the symbol table's key order |
| Gateway.SpotTokensListed | hyperliquid/hyperliquid_gateway.py:634-661 | the contracts the loop adds come after the old ones, and each comes from a token with an EVM contract and a non-empty index name. Every such token's symbol enters the table, and no symbol is lost |
| Gateway.ListedTokens | hyperliquid/hyperliquid_gateway.py:634-661 | the listed tokens, in answer order: exactly the tokens with an EVM contract and a non-empty index name |
| Gateway.SpotTokensContracts | hyperliquid/hyperliquid_gateway.py:634-661 | the loop pushes exactly one contract per listed token, in answer order, named by the token's index name, with price decimals `min(5, 8 - sz)` |
| Gateway.SpotTokensSymbolKeys | hyperliquid/hyperliquid_gateway.py:634-661 | the symbol table ends up with the old symbols and those of the listed tokens, and no others |
| Gateway.SpotTokensSymbolValue | hyperliquid/hyperliquid_gateway.py:634-661 | a listed symbol maps to the index name of its last listed token |
| Gateway.SpotTokensSymbolKept | hyperliquid/hyperliquid_gateway.py:634-661 | a symbol that no listed token carries keeps its old name |
| Gateway.InvertIsInverse | hyperliquid/hyperliquid_gateway.py:662 | the inverted table sends every value back to a key mapping to it, and covers every value |
| Gateway.InvertLastWins | hyperliquid/hyperliquid_gateway.py:662 | of the keys sharing a value, the last inserted is kept |
| Gateway.InvertOfInjective | hyperliquid/hyperliquid_gateway.py:662 | with distinct names, the symbol table and the name table undo each other |
| Gateway.ResolveSpotCoin | hyperliquid/hyperliquid_gateway.py:593-597 | a reported spot coin resolves iff some symbol has it as name, and to such a symbol |
| Gateway.PerpContracts | hyperliquid/hyperliquid_gateway.py:670-688 | one perpetual contract per universe entry, in order. Symbol and name are the coin, the exchange is HYPE, the size decimals are the coin's, and the price decimals are `min(5, 6 - sz)` |
| Gateway.PingSchedule | hyperliquid/hyperliquid_gateway.py:801-809 | after n timer events the counter is `n % 10` and `n / 10` pings went out |
| Gateway.MarketSubscriptions | hyperliquid/hyperliquid_gateway.py:847-852 | four descriptors per market, five with the best-bid-offer channel |
| Gateway.MarketTopicsDistinct | hyperliquid/hyperliquid_gateway.py:847-852 | the descriptors of one market land on pairwise different topics |
| Gateway.MarketsOf | hyperliquid/hyperliquid_gateway.py:811-819 | the markets' descriptors, concatenated in request order: four or five per request |
| Gateway.ReplayOfPerps | hyperliquid/hyperliquid_gateway.py:811-819 | replaying perpetual requests never raises. It issues exactly each request's market descriptors (`MarketsOf`), with its symbol as the coin, in request order |
| Gateway.AnsweredOrderIsKnown | hyperliquid/hyperliquid_gateway.py:691-705 | the answer raises iff it has neither error, filled nor resting. An error pushes REJECTED and leaves the oid table alone; otherwise later oid-only reports carry the local id |
| Gateway.RestApi.constructor | hyperliquid/hyperliquid_gateway.py:246-267 | counter and connect time 0, empty tables, spot not initialised |
| Gateway.RestApi.Connect | hyperliquid/hyperliquid_gateway.py:293 | the connect time is set from the clock |
| Gateway.RestApi.NewOrderId | hyperliquid/hyperliquid_gateway.py:341-347 | the counter is incremented and its new value returned |
| Gateway.RestApi.SendOrder | hyperliquid/hyperliquid_gateway.py:349-369 | takes a new local id and pushes SUBMITTING. An unknown spot symbol raises; otherwise one order is placed (reduce-only only for a perpetual close) and the answer handled `SendOutcome`'s way. An answer with no error, no filled and no resting order raises `MissingResting`. The result is `gateway.orderid` |
| Gateway.RestApi.OnSendOrder | hyperliquid/hyperliquid_gateway.py:691-705 | the order state after an answer is `SendOutcome`; a missing `resting` raises |
| Gateway.RestApi.OnQueryOrder | hyperliquid/hyperliquid_gateway.py:587-624 | the loop computes the query fold |
| Gateway.RestApi.OnQuerySpotContract | hyperliquid/hyperliquid_gateway.py:626-664 | the index loop updates the global index table. On success the token loop fills the ordered symbol table and contracts, the name table becomes its inverse, and spot is initialised. On an exception nothing else changes |
| Gateway.RestApi.OnQueryPerpContract | hyperliquid/hyperliquid_gateway.py:666-689 | the pushed contracts grow by `PerpContracts` of the universe |
| Gateway.WebsocketApi.constructor | hyperliquid/hyperliquid_gateway.py:774-788 | empty tick, subscription and trade-id tables; not connected; counter 0 |
| Gateway.WebsocketApi.SendPing | hyperliquid/hyperliquid_gateway.py:801-809 | one timer event steps the counter and sends a ping on the tenth, keeping the counter in 0..9 |
| Gateway.WebsocketApi.Subscribe | hyperliquid/hyperliquid_gateway.py:828-853 | the request is stored under `symbol_exchange`, in insertion order, with a tick entry. Then the market's descriptors are issued, or the unknown spot symbol raises |
| Gateway.WebsocketApi.OnConnected | hyperliquid/hyperliquid_gateway.py:811-819 | sets connected and re-subscribes the stored requests in insertion order, leaving the tables unchanged. With no stored request it does not need `spot_inited` |
| Gateway.WebsocketApi.OnTrade | hyperliquid/hyperliquid_gateway.py:922-958 | the loop computes the fill fold, and the trade ids stay unique |
| Gateway.WebsocketApi.OnOrder | hyperliquid/hyperliquid_gateway.py:959-998 | the loop computes the update fold |

## Left out

- Threads, `sleep`, the ping thread of the manager and its 30-second timer: the model is sequential. A `stop()` from another thread during a back-off wait is the `interrupted` argument of `HandleReconnect`. A `stop()` during `run_forever` is a `Stop` call before `RunStep`.
- Gateway.WebsocketApi.Subscribe: the busy-wait on `ws_connected` and `spot_inited` is its precondition, not a loop. So `OnConnected` needs `spot_inited` whenever a request is stored.
- JSON encoding and decoding: an inbound frame carries its decoded envelope (`WsMsg`) or `None`. `None` stands for text that is not JSON and for JSON without `channel`. These, and a payload missing a key the topic needs, all give the single outcome `MalformedMessage`. The exception's type and message are not modelled.
- The socket library: sends, `close()`, `run_forever` and socket creation are logs and counters. Whether a send raises is an argument.
- Logging and `write_log`: left out, because they change only the host's log. The `save_connection_status` calls of the manager are modelled: `reported` of `OnClose`, `OnError` and `HandleReconnect`, and the count `reports` of `RunStep`. Those of `Info` and `api.py` are not.
- WsManager.Manager.OnMessage: a callback's own effect is not modelled; each invocation is one `Delivery` in a log. Whether a callback raises is the `raisesAt` argument. What websocket-client then does with the exception is not modelled.
- WsManager.Manager.Unsubscribe: the code sends the unsubscribe frame whenever the topic ends up empty, even when nothing was removed, and the model does the same. Also, reading `active_subscriptions[identifier]` on a `defaultdict` also inserts an empty list. The model treats a missing key as empty instead.
- The HTTP requests of `Info` (`spot_meta()`, `perp_dexs()`, `meta(dex)`) are inputs (`dexList`, `fetch`). A failing `perp_dexs()` has `dexList = None`. A failing `meta(dex)` has `fetch(dex) = None`, as the swallowed exception in `API.post` returns. A failing `spot_meta()` is a falsy spot meta.
- Float sizes and prices are `real`, a simplification. `float()` parsing, `limitPx`, timestamps and `datetime` are left out, and so are the tick prices (only the tick keys are modelled).
- Queries the spot tables do not feed into are left out, because they do not touch this state: account, position, history, `on_bbo`, `on_depth`, `on_public_trade`, leverage and cancel.
- The calls to `exchange_info.order` are appended to the log `placed`, and their answer is the `response` argument.
- The clock is the argument of `Connect`.
- The host's `on_order`, `on_trade` and `on_contract` sinks are the logs `orders`, `trades` and `contracts` of each client.
- `ws_info.subscribe` calls are the log `requests` of descriptors rather than calls into an `InfoTables.Info` object, so remapping and callbacks are not modelled there.
- Gateway.RestApi.OnQueryOrder: the source keeps `status` from the previous iteration when an order's `sz` exceeds `origSz`. The first such record raises `UnboundLocalError`, modelled as `UnboundStatus`.
- Gateway.TradeStep: as in the source, a fill's trade id is recorded before its symbol lookup. So a fill whose spot coin is unknown raises, and it is dropped on redelivery.
- WsManager.Manager.OnOpen: one `try` block around the whole pass means the first failed send ends the pass. The entries after it are neither registered nor sent, and the queue is kept. The model follows this code, not a design in which one failing entry would leave the others subscribed.
- The order-id number is a Python `int`; the model uses `nat`, and `OrderIdShape` needs the number below 10^18. Past that bound `rjust` no longer pads, which `OrderNumberRoundTrip` still covers.
- InfoTables.Remap: the source rewrites the caller's subscription dict in place. The model returns the rewritten descriptor, so the change visible to the caller after `subscribe` or `unsubscribe` is not modelled.
- Text.Lower: identifiers are lower-cased with the ASCII letters only. Python's `str.lower` also folds non-ASCII letters, so two coins that differ only in non-ASCII case share a topic in the source but not in the model.
- Subscriptions.Identifier: the descriptor is a closed datatype of the thirteen types `subscription_to_identifier` knows. A descriptor of any other type, for which the source returns `None`, cannot be expressed.
- `hyperliquid-python-sdk-master/hyperliquid/api.py` is not part of this model: it is an HTTP POST wrapper with error logging.
- The one-line REST query wrappers of `Info` (`user_state`, `meta`, `candles_snapshot` and the like) are not part of this model, because they only forward a request.
- The locks around `order_count` and `SPOT_INDEX_NAME_MAP` as a module global shared by clients: one `RestApi` object holds the index table, and calls are sequential.
