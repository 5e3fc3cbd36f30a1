/**
  The subscription registry and reconnect state machine of the SDK's
  `WebsocketManager`.  The socket is a log of the frames it accepted; whether
  a send raises is an input of each operation.  Callbacks are identities and
  invoking one appends a delivery to a log.
 */
module WsManager {
  import opened Subscriptions

  /** Identity of a registered callback. */
  type Callback = nat

  datatype ActiveSubscription = ActiveSubscription(callback: Callback, subscriptionId: int)

  /** One element of `queued_subscriptions` or `all_subscriptions`. */
  datatype Entry = Entry(subscription: Subscription, active: ActiveSubscription)

  datatype Frame = SubscribeFrame(subscription: Subscription) | UnsubscribeFrame(subscription: Subscription)

  datatype Delivery = Delivery(callback: Callback, msg: WsMsg)

  /**
    A text frame from the socket, with what `json.loads` makes of it:
    `None` when the text is not JSON or the object it decodes to has no
    `channel`, both of which raise inside `on_message`.
   */
  datatype Inbound = Inbound(raw: string, parsed: Option<WsMsg>)

  /** How `on_message` disposed of a frame. */
  datatype Dispatch =
    | BannerIgnored
    | PongIgnored
    | NoTopicIgnored
    | MalformedMessage
    | Unexpected(id: string)
    | Dispatched(id: string, count: nat, raised: bool)

  /**
    The exception classes `on_error` distinguishes.  `AddressInfo` is
    `socket.gaierror`, a subclass of `OSError`; `Errno11001` is any other
    error whose `errno` is 11001.
   */
  datatype ErrorKind =
    | ConnectionClosed | BadStatus | Timeout | ConnectionReset | ConnectionAborted
    | BrokenPipe | OsError | AddressInfo | Errno11001 | Unclassified

  /** The branches of `on_error`. */
  datatype ErrorBranch = ReconnectableError | DnsRetry | FatalError

  const BannerText: string := "Websocket connection established."
  const MaxReconnectAttempts: nat := 5
  const ReconnectDelay: nat := 1
  const MaxWait: nat := 30
  const NormalCloseCodes: set<int> := {1000, 1001}

  // ---------------------------------------------------------------------------
  // The registry as values

  /** `active_subscriptions[id]` of a `defaultdict(list)`. */
  function Lookup(m: map<string, seq<ActiveSubscription>>, id: string): seq<ActiveSubscription> {
    if id in m then m[id] else []
  }

  /** `active_subscriptions[id].append(a)`. */
  function Append(m: map<string, seq<ActiveSubscription>>, id: string, a: ActiveSubscription)
    : map<string, seq<ActiveSubscription>>
  {
    m[id := Lookup(m, id) + [a]]
  }

  /** The active map built by appending the entries one by one, as `on_open` does. */
  function Grouped(es: seq<Entry>): map<string, seq<ActiveSubscription>> {
    if es == [] then map[]
    else
      var last := es[|es| - 1];
      Append(Grouped(es[..|es| - 1]), Identifier(last.subscription), last.active)
  }

  /** The registrations among `es` whose subscription has topic `id`, in order. */
  function TopicEntries(es: seq<Entry>, id: string): seq<ActiveSubscription> {
    if es == [] then []
    else (if Identifier(es[0].subscription) == id then [es[0].active] else []) + TopicEntries(es[1..], id)
  }

  lemma {:induction false} TopicEntriesSnoc(es: seq<Entry>, e: Entry, id: string)
    ensures TopicEntries(es + [e], id)
         == TopicEntries(es, id) + (if Identifier(e.subscription) == id then [e.active] else [])
  {
    var tail := if Identifier(e.subscription) == id then [e.active] else [];
    if es == [] {
      assert es + [e] == [e];
      assert TopicEntries([e], id) == tail + TopicEntries([], id);
    } else {
      var head := if Identifier(es[0].subscription) == id then [es[0].active] else [];
      assert (es + [e])[0] == es[0];
      assert (es + [e])[1..] == es[1..] + [e];
      assert TopicEntries(es + [e], id) == head + TopicEntries(es[1..] + [e], id);
      TopicEntriesSnoc(es[1..], e, id);
      assert TopicEntries(es, id) == head + TopicEntries(es[1..], id);
    }
  }

  /**
    Rebuilding the active map from a list of entries gives, for every topic,
    exactly the entries of that topic in list order.
   */
  lemma {:induction false} GroupedSelectsTopic(es: seq<Entry>, id: string)
    ensures Lookup(Grouped(es), id) == TopicEntries(es, id)
  {
    if es != [] {
      var init, last := es[..|es| - 1], es[|es| - 1];
      assert es == init + [last];
      GroupedSelectsTopic(init, id);
      TopicEntriesSnoc(init, last, id);
      var m := Grouped(init);
      assert Grouped(es) == Append(m, Identifier(last.subscription), last.active);
      if Identifier(last.subscription) == id {
        assert Lookup(Grouped(es), id) == Lookup(m, id) + [last.active];
      } else {
        assert Lookup(Grouped(es), id) == Lookup(m, id);
      }
    }
  }

  /** A subscription id that is not in the list is not in any topic after a rebuild. */
  lemma GroupedOmitsAbsentId(es: seq<Entry>, sid: int, id: string)
    requires forall e :: e in es ==> e.active.subscriptionId != sid
    ensures forall a :: a in Lookup(Grouped(es), id) ==> a.subscriptionId != sid
  {
    GroupedSelectsTopic(es, id);
    TopicEntriesOmit(es, sid, id);
  }

  lemma {:induction false} TopicEntriesOmit(es: seq<Entry>, sid: int, id: string)
    requires forall e :: e in es ==> e.active.subscriptionId != sid
    ensures forall a :: a in TopicEntries(es, id) ==> a.subscriptionId != sid
  {
    if es != [] {
      assert es[0] in es;
      assert forall e :: e in es[1..] ==> e in es;
      TopicEntriesOmit(es[1..], sid, id);
    }
  }

  /** The subscribe frames for a list of entries, in order. */
  function SubscribeFrames(es: seq<Entry>): seq<Frame> {
    if es == [] then [] else SubscribeFrames(es[..|es| - 1]) + [SubscribeFrame(es[|es| - 1].subscription)]
  }

  /** One subscribe frame per entry, in the entries' order. */
  lemma {:induction false} SubscribeFramesAt(es: seq<Entry>)
    ensures |SubscribeFrames(es)| == |es|
    ensures forall i :: 0 <= i < |es| ==> SubscribeFrames(es)[i] == SubscribeFrame(es[i].subscription)
  {
    if es != [] {
      SubscribeFramesAt(es[..|es| - 1]);
    }
  }

  predicate HasId(es: seq<Entry>, sid: int) {
    exists e :: e in es && e.active.subscriptionId == sid
  }

  /** `[x for x in l if x.subscription_id != sid]`. */
  function WithoutId(l: seq<ActiveSubscription>, sid: int): (r: seq<ActiveSubscription>)
    ensures forall a :: a in r <==> a in l && a.subscriptionId != sid
    ensures |r| <= |l|
    ensures |r| == |l| <==> forall a :: a in l ==> a.subscriptionId != sid
  {
    if l == [] then []
    else
      var rest := WithoutId(l[1..], sid);
      assert forall a :: a in l <==> a == l[0] || a in l[1..];
      if l[0].subscriptionId == sid then rest else [l[0]] + rest
  }

  /** `[(s, a) for s, a in es if a.subscription_id != sid]`. */
  function EntriesWithoutId(es: seq<Entry>, sid: int): (r: seq<Entry>)
    ensures forall e :: e in r <==> e in es && e.active.subscriptionId != sid
  {
    if es == [] then []
    else
      var rest := EntriesWithoutId(es[1..], sid);
      assert forall e :: e in es <==> e == es[0] || e in es[1..];
      if es[0].active.subscriptionId == sid then rest else [es[0]] + rest
  }

  /** Removal keeps the order of the entries that stay. */
  lemma {:induction false} EntriesWithoutIdOfAbsent(es: seq<Entry>, sid: int)
    requires !HasId(es, sid)
    ensures EntriesWithoutId(es, sid) == es
  {
    if es != [] {
      assert es[0] in es;
      assert !HasId(es[1..], sid) by {
        forall e | e in es[1..] ensures e.active.subscriptionId != sid {
          assert e in es;
        }
      }
      EntriesWithoutIdOfAbsent(es[1..], sid);
      assert es == [es[0]] + es[1..];
    }
  }

  /** A second removal of the same id removes nothing. */
  lemma WithoutIdIdempotent(l: seq<ActiveSubscription>, sid: int)
    ensures WithoutId(WithoutId(l, sid), sid) == WithoutId(l, sid)
    ensures |WithoutId(WithoutId(l, sid), sid)| == |WithoutId(l, sid)|
  {
    WithoutIdOfAbsent(WithoutId(l, sid), sid);
  }

  lemma {:induction false} WithoutIdOfAbsent(l: seq<ActiveSubscription>, sid: int)
    requires forall a :: a in l ==> a.subscriptionId != sid
    ensures WithoutId(l, sid) == l
  {
    if l != [] {
      assert l[0] in l;
      assert forall a :: a in l[1..] ==> a in l;
      WithoutIdOfAbsent(l[1..], sid);
      assert l == [l[0]] + l[1..];
    }
  }

  lemma {:induction false} WithoutIdSnoc(l: seq<ActiveSubscription>, a: ActiveSubscription, sid: int)
    ensures WithoutId(l + [a], sid) == WithoutId(l, sid) + (if a.subscriptionId == sid then [] else [a])
  {
    if l == [] {
      assert l + [a] == [a];
    } else {
      assert (l + [a])[0] == l[0];
      assert (l + [a])[1..] == l[1..] + [a];
      WithoutIdSnoc(l[1..], a, sid);
    }
  }

  /**
    Unsubscribing the id a subscription just registered leaves its topic as
    the other registrations had it.
   */
  lemma UnsubscribeUndoesSubscribe(m: map<string, seq<ActiveSubscription>>, id: string, a: ActiveSubscription)
    ensures WithoutId(Lookup(Append(m, id, a), id), a.subscriptionId) == WithoutId(Lookup(m, id), a.subscriptionId)
  {
    WithoutIdSnoc(Lookup(m, id), a, a.subscriptionId);
  }

  // ---------------------------------------------------------------------------
  // Reconnect policy as values

  /**
    The wait `_handle_reconnect` performs before the next attempt, or `None`
    when it gives up: auto-reconnect off, stop requested, or the attempts
    exhausted.  The attempt counter is the one before the call.
   */
  function ReconnectWait(autoReconnect: bool, stopped: bool, attempts: nat): (r: Option<nat>)
    ensures r.Some? <==> autoReconnect && !stopped && attempts < MaxReconnectAttempts
    ensures r.Some? ==> 1 <= r.value <= MaxWait && r.value == attempts + 1
  {
    if !autoReconnect || stopped || attempts >= MaxReconnectAttempts then None
    else Some(Min(ReconnectDelay * (attempts + 1), MaxWait))
  }

  function Min(a: int, b: int): int {
    if a <= b then a else b
  }

  function Max(a: int, b: int): int {
    if a <= b then b else a
  }

  /** The waits seen over consecutive failed attempts starting from `attempts`. */
  function FailureSchedule(attempts: nat): seq<nat>
    decreases MaxReconnectAttempts - attempts
  {
    match ReconnectWait(true, false, attempts)
    case None => []
    case Some(w) => [w] + FailureSchedule(attempts + 1)
  }

  /** From any attempt count, the remaining waits grow linearly by the delay, capped. */
  lemma {:induction false} FailureScheduleShape(attempts: nat)
    requires attempts <= MaxReconnectAttempts
    ensures |FailureSchedule(attempts)| == MaxReconnectAttempts - attempts
    ensures forall k :: 0 <= k < |FailureSchedule(attempts)| ==>
      FailureSchedule(attempts)[k] == Min(ReconnectDelay * (attempts + k + 1), MaxWait)
    decreases MaxReconnectAttempts - attempts
  {
    if attempts < MaxReconnectAttempts {
      FailureScheduleShape(attempts + 1);
    }
  }

  /** With the default settings the backoff sequence is 1, 2, 3, 4, 5 seconds, then give up. */
  lemma DefaultFailureSchedule()
    ensures FailureSchedule(0) == [1, 2, 3, 4, 5]
  {
    FailureScheduleShape(0);
  }

  /** `on_close` asks for a reconnect exactly on an abnormal close while not stopped. */
  predicate CloseNeedsReconnect(code: Option<int>, stopped: bool) {
    (code.None? || code.value !in NormalCloseCodes) && !stopped
  }

  /** Whether the error is an instance of the reconnect tuple of `on_error`. */
  predicate InReconnectTuple(kind: ErrorKind) {
    !(kind.Errno11001? || kind.Unclassified?)
  }

  /** The branch of `on_error` an error takes, in the order the source tests them. */
  function Branch(kind: ErrorKind): (b: ErrorBranch)
    ensures b == FatalError <==> kind == Unclassified
    ensures kind == AddressInfo ==> b == ReconnectableError
  {
    if InReconnectTuple(kind) then ReconnectableError
    else if kind == AddressInfo || kind == Errno11001 then DnsRetry
    else FatalError
  }

  /** The flags of the connection state machine. */
  datatype Flags = Flags(wsReady: bool, isConnected: bool, needReconnect: bool,
                         stopRequested: bool, reconnectAttempts: nat)

  /**
    What `_handle_reconnect` or one pass of `run` leaves behind: the flags,
    whether the loop goes on, the wait performed, and how many times the
    connection loss was reported to the host.
   */
  datatype RunOutcome = RunOutcome(flags: Flags, keepRunning: bool, wait: Option<nat>, reports: nat)

  /**
    `_handle_reconnect` on flag values: it gives up, reporting it only when
    the attempts are exhausted; otherwise it counts the attempt and waits,
    and a `stop()` during the wait (`interrupted`) stops the manager, while an
    uninterrupted wait leads to a fresh socket with the ready and reconnect
    flags cleared.
   */
  function HandleReconnectOf(f: Flags, autoReconnect: bool, interrupted: bool): RunOutcome {
    match ReconnectWait(autoReconnect, f.stopRequested, f.reconnectAttempts)
    case None => RunOutcome(f, false, None, if autoReconnect && !f.stopRequested then 1 else 0)
    case Some(w) =>
      var counted := f.(reconnectAttempts := f.reconnectAttempts + 1);
      if interrupted then
        RunOutcome(counted.(stopRequested := true, isConnected := false, needReconnect := false), false, Some(w), 0)
      else RunOutcome(counted.(wsReady := false, needReconnect := false), true, Some(w), 0)
  }

  /**
    One pass of the `run` loop after `run_forever` returned or raised
    (`raised`): a raise marks the connection lost and always tries a
    reconnect, reporting once more when that fails; a normal return tries
    one only when not stopped and a reconnect is needed or the connection is
    down, and otherwise the loop goes on exactly when no stop was requested.
   */
  function RunStepOf(f: Flags, autoReconnect: bool, raised: bool, interrupted: bool): RunOutcome {
    if raised then
      var h := HandleReconnectOf(f.(isConnected := false, needReconnect := true), autoReconnect, interrupted);
      h.(reports := h.reports + if h.keepRunning then 0 else 1)
    else if !f.stopRequested && (f.needReconnect || !f.isConnected) then
      HandleReconnectOf(f, autoReconnect, interrupted)
    else RunOutcome(f, !f.stopRequested, None, 0)
  }

  /**
    Once a stop was requested, a pass of `run` ends the loop without waiting
    or counting an attempt; only a raise reports the loss, once.
   */
  lemma StopEndsRun(f: Flags, autoReconnect: bool, raised: bool, interrupted: bool)
    requires f.stopRequested
    ensures var o := RunStepOf(f, autoReconnect, raised, interrupted);
      && !o.keepRunning && o.wait.None?
      && o.flags.reconnectAttempts == f.reconnectAttempts && o.flags.stopRequested
      && o.reports == (if raised then 1 else 0)
  {
  }

  /**
    A pass goes on exactly when no stop was requested and, if a reconnect was
    tried, the wait was granted and not interrupted; a pass that goes on has
    stop still unset.
   */
  lemma RunStepContinues(f: Flags, autoReconnect: bool, raised: bool, interrupted: bool)
    ensures var o := RunStepOf(f, autoReconnect, raised, interrupted);
      var attempted := raised || (!f.stopRequested && (f.needReconnect || !f.isConnected));
      var w := ReconnectWait(autoReconnect, f.stopRequested, f.reconnectAttempts);
      && (attempted ==> o.keepRunning == (w.Some? && !interrupted) && o.wait == w)
      && (!attempted ==> o == RunOutcome(f, !f.stopRequested, None, 0))
      && (o.keepRunning ==> !o.flags.stopRequested)
  {
  }

  /** Waits and reports of a `run` loop whose `run_forever` raises on every pass, until it gives up. */
  function RaisingRun(f: Flags, autoReconnect: bool): (seq<nat>, nat)
    decreases MaxReconnectAttempts - f.reconnectAttempts
  {
    var o := RunStepOf(f, autoReconnect, true, false);
    var w := if o.wait.Some? then [o.wait.value] else [];
    if o.keepRunning then
      var (ws, n) := RaisingRun(o.flags, autoReconnect);
      (w + ws, o.reports + n)
    else (w, o.reports)
  }

  /**
    A `run_forever` that keeps raising makes `run` wait out the whole failure
    schedule and then give up, reporting the loss twice: once for the
    exhausted attempts and once in the exception handler.
   */
  lemma {:induction false} RaisingRunGivesUp(f: Flags)
    requires !f.stopRequested && f.reconnectAttempts <= MaxReconnectAttempts
    ensures RaisingRun(f, true) == (FailureSchedule(f.reconnectAttempts), 2)
    decreases MaxReconnectAttempts - f.reconnectAttempts
  {
    if f.reconnectAttempts < MaxReconnectAttempts {
      var o := RunStepOf(f, true, true, false);
      RaisingRunGivesUp(o.flags);
    }
  }

  lemma TakeSnoc<T>(s: seq<T>, n: nat)
    requires n < |s|
    ensures s[..n + 1] == s[..n] + [s[n]]
  {
  }

  lemma GroupedStep(es: seq<Entry>, p: nat)
    requires p < |es|
    ensures Grouped(es[..p + 1]) == Append(Grouped(es[..p]), Identifier(es[p].subscription), es[p].active)
  {
    assert es[..p + 1][..p] == es[..p];
  }

  lemma SubscribeFramesStep(es: seq<Entry>, p: nat)
    requires p < |es|
    ensures SubscribeFrames(es[..p + 1]) == SubscribeFrames(es[..p]) + [SubscribeFrame(es[p].subscription)]
  {
    assert es[..p + 1][..p] == es[..p];
  }

  /** How many frames of the pass went out after `p` entries were registered. */
  function SentSoFar(accepts: nat, p: nat, failed: bool): nat {
    if failed then accepts else p
  }

  /**
    The state of the resubscription pass over `es`, whose first `r` entries
    are the replay list, after `p` entries were registered; `failed` tells
    that the last send raised.
   */
  ghost predicate PassState(es: seq<Entry>, r: nat, accepts: nat, p: nat, failed: bool,
                            active: map<string, seq<ActiveSubscription>>, frames: seq<Frame>,
                            replayed: seq<Entry>)
  {
    var n := SentSoFar(accepts, p, failed);
    && r <= |es| && p <= |es|
    && (if failed then p == accepts + 1 else p <= accepts)
    && active == Grouped(es[..p])
    && frames == SubscribeFrames(es[..n])
    && replayed == es[..Max(r, n)]
  }

  lemma PassStart(es: seq<Entry>, r: nat, accepts: nat)
    requires r <= |es|
    ensures PassState(es, r, accepts, 0, false, map[], [], es[..r])
  {
    assert es[..0] == [];
  }

  /** One entry of the pass whose frame the socket accepts. */
  lemma PassSend(es: seq<Entry>, r: nat, accepts: nat, p: nat,
                 active: map<string, seq<ActiveSubscription>>, frames: seq<Frame>, replayed: seq<Entry>)
    requires PassState(es, r, accepts, p, false, active, frames, replayed) && p < |es| && p < accepts
    ensures var e := es[p];
      PassState(es, r, accepts, p + 1, false, Append(active, Identifier(e.subscription), e.active),
                frames + [SubscribeFrame(e.subscription)], if p >= r then replayed + [e] else replayed)
  {
    var e := es[p];
    assert replayed == es[..Max(r, p)];
    GroupedStep(es, p);
    SubscribeFramesStep(es, p);
    if p >= r {
      TakeSnoc(es, p);
    } else {
      assert Max(r, p + 1) == Max(r, p);
    }
  }

  /** The entry whose send raises: it is registered, nothing else changes. */
  lemma PassFail(es: seq<Entry>, r: nat, accepts: nat, p: nat,
                 active: map<string, seq<ActiveSubscription>>, frames: seq<Frame>, replayed: seq<Entry>)
    requires PassState(es, r, accepts, p, false, active, frames, replayed) && p < |es| && p == accepts
    ensures var e := es[p];
      PassState(es, r, accepts, p + 1, true, Append(active, Identifier(e.subscription), e.active),
                frames, replayed)
  {
    GroupedStep(es, p);
  }

  /**
    The outcome of the resubscription pass of `on_open` over the replay list
    `replay` followed by the queue `pending`, when the socket accepts
    `accepts` frames and the next send raises: the entries up to and
    including the one whose send raised are registered, the frames of the
    first `k` entries went out, the queued entries among those joined the
    replay list, and the queue is cleared only if nothing raised.
   */
  datatype Pass = Pass(active: map<string, seq<ActiveSubscription>>, frames: seq<Frame>,
                       replayed: seq<Entry>, flushed: bool)

  function ResubscribePass(replay: seq<Entry>, pending: seq<Entry>, accepts: nat): Pass {
    var es := replay + pending;
    var k := Min(accepts, |es|);
    Pass(Grouped(es[..Min(accepts + 1, |es|)]), SubscribeFrames(es[..k]), es[..Max(|replay|, k)],
         accepts >= |es|)
  }

  /** Where the pass stops, its state is `ResubscribePass`. */
  lemma PassEnd(replay: seq<Entry>, pending: seq<Entry>, accepts: nat, p: nat, failed: bool,
                active: map<string, seq<ActiveSubscription>>, frames: seq<Frame>, replayed: seq<Entry>)
    requires PassState(replay + pending, |replay|, accepts, p, failed, active, frames, replayed)
    requires p == |replay + pending| || failed
    ensures ResubscribePass(replay, pending, accepts) == Pass(active, frames, replayed, !failed)
  {
  }

  /**
    The resubscription pass of `on_open`: every entry of the replay list and
    then of the queue is registered under its topic and its subscribe frame
    sent; each queued entry whose frame was sent joins the replay list.  The
    socket accepts `accepts` frames and the next send raises, which ends the
    pass after registering the entry it was for.
   */
  method Resubscribe(replay: seq<Entry>, pending: seq<Entry>, accepts: nat) returns (pass: Pass)
    ensures pass == ResubscribePass(replay, pending, accepts)
  {
    var es := replay + pending;
    assert es[..|replay|] == replay;
    PassStart(es, |replay|, accepts);
    var active, frames, replayed := map[], [], replay;
    var processed := 0;
    var failed := false;
    while processed < |es| && !failed
      invariant PassState(es, |replay|, accepts, processed, failed, active, frames, replayed)
      decreases |es| - processed
    {
      var e := es[processed];
      if processed < accepts {
        PassSend(es, |replay|, accepts, processed, active, frames, replayed);
      } else {
        PassFail(es, |replay|, accepts, processed, active, frames, replayed);
      }
      active := Append(active, Identifier(e.subscription), e.active);
      if processed < accepts {
        frames := frames + [SubscribeFrame(e.subscription)];
        if processed >= |replay| {
          // a queued entry whose frame went out joins the replay list
          replayed := replayed + [e];
        }
      } else {
        failed := true;
      }
      processed := processed + 1;
    }
    PassEnd(replay, pending, accepts, processed, failed, active, frames, replayed);
    pass := Pass(active, frames, replayed, !failed);
  }

  /**
    A pass the socket lets through completely leaves every topic with
    exactly the registrations of that topic from the replay list and then
    the queue, in order.
   */
  lemma CompletePassRegistersEveryTopic(es: seq<Entry>, accepts: nat, id: string)
    requires accepts >= |es|
    ensures Lookup(Grouped(es[..Min(accepts + 1, |es|)]), id) == TopicEntries(es, id)
  {
    assert es[..Min(accepts + 1, |es|)] == es;
    GroupedSelectsTopic(es, id);
  }

  // ---------------------------------------------------------------------------
  // The manager

  class Manager {
    var subscriptionIdCounter: int
    var wsReady: bool
    var isConnected: bool
    var needReconnect: bool
    /** `stop_event.is_set()`. */
    var stopRequested: bool
    var reconnectAttempts: nat
    var queued: seq<Entry>
    var active: map<string, seq<ActiveSubscription>>
    var all: seq<Entry>
    const autoReconnect: bool
    /** Frames the socket accepted, oldest first. */
    var sent: seq<Frame>
    /** Callback invocations, oldest first. */
    var delivered: seq<Delivery>
    /** Backoff waits performed by `_handle_reconnect`. */
    var waits: seq<nat>
    /** Number of `WebSocketApp` instances created. */
    var sockets: nat
    /** Calls of `ws.close()`. */
    var closeRequests: nat

    ghost function FlagsOf(): Flags
      reads this
    {
      Flags(wsReady, isConnected, needReconnect, stopRequested, reconnectAttempts)
    }

    constructor (autoReconnect: bool)
      ensures this.autoReconnect == autoReconnect
      ensures subscriptionIdCounter == 0
      ensures FlagsOf() == Flags(false, false, false, false, 0)
      ensures queued == [] && active == map[] && all == []
      ensures sent == [] && delivered == [] && waits == []
      ensures sockets == 1 && closeRequests == 0
    {
      this.autoReconnect := autoReconnect;
      subscriptionIdCounter := 0;
      wsReady, isConnected, needReconnect, stopRequested := false, false, false, false;
      reconnectAttempts := 0;
      queued, active, all := [], map[], [];
      sent, delivered, waits := [], [], [];
      sockets, closeRequests := 1, 0;
    }

    /**
      `subscribe`: a fresh id comes from the counter unless one is supplied.
      While not ready the entry is only queued.  Otherwise it is registered
      under its topic and one subscribe frame is sent; it joins the replay
      list unless its id is already there, and a failed send queues it.
     */
    method Subscribe(subscription: Subscription, callback: Callback, subscriptionId: Option<int>, sendOk: bool)
      returns (id: int)
      modifies this
      ensures subscriptionId.None? ==> id == old(subscriptionIdCounter) + 1 && subscriptionIdCounter == id
      ensures subscriptionId.Some? ==> id == subscriptionId.value && subscriptionIdCounter == old(subscriptionIdCounter)
      ensures var e := Entry(subscription, ActiveSubscription(callback, id));
        if !old(wsReady) || !old(isConnected) then
          queued == old(queued) + [e] && active == old(active) && all == old(all) && sent == old(sent)
        else
          && active == Append(old(active), Identifier(subscription), e.active)
          && (sendOk ==>
                && sent == old(sent) + [SubscribeFrame(subscription)]
                && queued == old(queued)
                && all == (if HasId(old(all), id) then old(all) else old(all) + [e]))
          && (!sendOk ==> sent == old(sent) && queued == old(queued) + [e] && all == old(all))
      ensures FlagsOf() == old(FlagsOf())
      ensures delivered == old(delivered) && waits == old(waits)
      ensures sockets == old(sockets) && closeRequests == old(closeRequests)
    {
      id := 0;
      if subscriptionId.None? {
        subscriptionIdCounter := subscriptionIdCounter + 1;
        id := subscriptionIdCounter;
      } else {
        id := subscriptionId.value;
      }
      var activeSub := ActiveSubscription(callback, id);
      if !wsReady || !isConnected {
        queued := queued + [Entry(subscription, activeSub)];
      } else {
        var identifier := Identifier(subscription);
        active := Append(active, identifier, activeSub);
        if sendOk {
          sent := sent + [SubscribeFrame(subscription)];
          if !HasId(all, id) {
            all := all + [Entry(subscription, activeSub)];
          }
        } else {
          queued := queued + [Entry(subscription, activeSub)];
        }
      }
    }

    /**
      `unsubscribe`: drops every registration with the id from the topic, the
      queue and the replay list; sends an unsubscribe frame only when the
      topic is left empty while connected and ready.  The result tells whether
      a registration was removed from the topic.
     */
    method Unsubscribe(subscription: Subscription, subscriptionId: int, sendOk: bool)
      returns (removed: bool)
      modifies this
      ensures var ident := Identifier(subscription);
        var before := Lookup(old(active), ident);
        var after := WithoutId(before, subscriptionId);
        && (removed <==> exists a :: a in before && a.subscriptionId == subscriptionId)
        && active == old(active)[ident := after]
        && (forall a :: a in Lookup(active, ident) ==> a.subscriptionId != subscriptionId)
        && sent == (if |after| == 0 && old(isConnected) && old(wsReady) && sendOk
                    then old(sent) + [UnsubscribeFrame(subscription)] else old(sent))
      ensures queued == EntriesWithoutId(old(queued), subscriptionId)
      ensures all == EntriesWithoutId(old(all), subscriptionId)
      ensures !HasId(queued, subscriptionId) && !HasId(all, subscriptionId)
      ensures FlagsOf() == old(FlagsOf()) && subscriptionIdCounter == old(subscriptionIdCounter)
      ensures delivered == old(delivered) && waits == old(waits)
      ensures sockets == old(sockets) && closeRequests == old(closeRequests)
    {
      var identifier := Identifier(subscription);
      var activeSubs := Lookup(active, identifier);
      var newActiveSubs := WithoutId(activeSubs, subscriptionId);
      queued := EntriesWithoutId(queued, subscriptionId);
      all := EntriesWithoutId(all, subscriptionId);
      if |newActiveSubs| == 0 && isConnected && wsReady && sendOk {
        sent := sent + [UnsubscribeFrame(subscription)];
      }
      active := active[identifier := newActiveSubs];
      removed := |activeSubs| != |newActiveSubs|;
    }

    /**
      `on_open`: marks the connection ready, then rebuilds the active map
      from scratch from the replay list followed by the queue, sending one
      subscribe frame per entry in that order; the queued entries join the
      replay list and the queue is emptied.  The socket accepts `accepts`
      frames; the send after those raises, which ends the whole pass (the
      entry it was for is already registered).
     */
    method OnOpen(accepts: nat)
      modifies this
      ensures var pass := ResubscribePass(old(all), old(queued), accepts);
        && active == pass.active && sent == old(sent) + pass.frames && all == pass.replayed
        && queued == (if pass.flushed then [] else old(queued))
      ensures wsReady && isConnected && !needReconnect && reconnectAttempts == 0
      ensures stopRequested == old(stopRequested)
      ensures subscriptionIdCounter == old(subscriptionIdCounter)
      ensures delivered == old(delivered) && waits == old(waits)
      ensures sockets == old(sockets) && closeRequests == old(closeRequests)
    {
      // the pass reads only the replay list and the queue, so it may be
      // computed before the flags are set
      var pass := Resubscribe(all, queued, accepts);
      wsReady := true;
      isConnected := true;
      needReconnect := false;
      reconnectAttempts := 0;
      active, sent, all := pass.active, sent + pass.frames, pass.replayed;
      if pass.flushed {
        queued := [];
      }
    }

    /**
      `on_message`: ignores the banner, heartbeat answers and messages
      without a topic; otherwise invokes the callbacks registered under the
      message's topic, in registration order, or only logs when there is
      none.  `raisesAt` is the position of the first callback that raises,
      if any: it is invoked, and its exception ends the fan-out.
     */
    method OnMessage(m: Inbound, raisesAt: Option<nat>) returns (d: Dispatch)
      modifies this`delivered
      ensures m.raw == BannerText ==> d == BannerIgnored
      ensures m.raw != BannerText && m.parsed.None? ==> d == MalformedMessage
      ensures m.raw != BannerText && m.parsed.Some? ==>
        match MsgToIdentifier(m.parsed.value)
        case NoTopic => d == NoTopicIgnored
        case Malformed => d == MalformedMessage
        case Topic(id) =>
          var n := |Lookup(active, id)|;
          if id == "pong" then d == PongIgnored
          else if n == 0 then d == Unexpected(id)
          else if raisesAt.Some? && raisesAt.value < n then d == Dispatched(id, raisesAt.value + 1, true)
          else d == Dispatched(id, n, false)
      ensures d.Dispatched? ==>
        && m.parsed.Some?
        && |delivered| == |old(delivered)| + d.count
        && delivered[..|old(delivered)|] == old(delivered)
        && forall i :: 0 <= i < d.count ==>
             delivered[|old(delivered)| + i] == Delivery(Lookup(active, d.id)[i].callback, m.parsed.value)
      ensures !d.Dispatched? ==> delivered == old(delivered)
    {
      if m.raw == BannerText {
        return BannerIgnored;
      }
      if m.parsed.None? {
        return MalformedMessage;
      }
      var msg := m.parsed.value;
      var route := MsgToIdentifier(msg);
      if route.NoTopic? {
        return NoTopicIgnored;
      }
      if route.Malformed? {
        return MalformedMessage;
      }
      var identifier := route.id;
      if identifier == "pong" {
        return PongIgnored;
      }
      var subs := Lookup(active, identifier);
      if |subs| == 0 {
        return Unexpected(identifier);
      }
      var i := 0;
      var raised := false;
      while i < |subs| && !raised
        invariant 0 <= i <= |subs|
        invariant raised <==> raisesAt.Some? && raisesAt.value < i
        invariant raised ==> i == raisesAt.value + 1
        invariant |delivered| == |old(delivered)| + i
        invariant delivered[..|old(delivered)|] == old(delivered)
        invariant forall k :: 0 <= k < i ==>
          delivered[|old(delivered)| + k] == Delivery(subs[k].callback, msg)
      {
        delivered := delivered + [Delivery(subs[i].callback, msg)];
        raised := raisesAt == Some(i);
        i := i + 1;
      }
      d := Dispatched(identifier, i, raised);
    }

    /**
      `on_close`: always clears `is_connected` and `ws_ready`; asks for a
      reconnect on an abnormal close code while not stopped.  The result
      tells whether the connection loss is reported to the host.
     */
    method OnClose(code: Option<int>) returns (reported: bool)
      modifies this
      ensures !isConnected && !wsReady
      ensures needReconnect == (old(needReconnect) || CloseNeedsReconnect(code, stopRequested))
      ensures reported == !needReconnect
      ensures stopRequested == old(stopRequested) && reconnectAttempts == old(reconnectAttempts)
      ensures subscriptionIdCounter == old(subscriptionIdCounter)
      ensures queued == old(queued) && active == old(active) && all == old(all)
      ensures sent == old(sent) && delivered == old(delivered) && waits == old(waits)
      ensures sockets == old(sockets) && closeRequests == old(closeRequests)
    {
      isConnected := false;
      wsReady := false;
      if (code.None? || code.value !in NormalCloseCodes) && !stopRequested {
        needReconnect := true;
      }
      reported := !needReconnect;
    }

    /**
      `on_error`: always clears `is_connected`.  Transport errors and DNS
      failures ask for a reconnect and close a socket that is still running;
      any other error is only reported.
     */
    method OnError(kind: ErrorKind, keepRunning: bool) returns (reported: bool)
      modifies this
      ensures !isConnected
      ensures needReconnect == (old(needReconnect) || Branch(kind) != FatalError)
      ensures closeRequests == old(closeRequests) + (if Branch(kind) != FatalError && keepRunning then 1 else 0)
      ensures reported == (Branch(kind) == FatalError)
      ensures wsReady == old(wsReady) && stopRequested == old(stopRequested)
      ensures reconnectAttempts == old(reconnectAttempts)
      ensures subscriptionIdCounter == old(subscriptionIdCounter)
      ensures queued == old(queued) && active == old(active) && all == old(all)
      ensures sent == old(sent) && delivered == old(delivered) && waits == old(waits)
      ensures sockets == old(sockets)
    {
      isConnected := false;
      reported := false;
      if InReconnectTuple(kind) {
        needReconnect := true;
        if keepRunning {
          closeRequests := closeRequests + 1;
        }
      } else if kind == AddressInfo || kind == Errno11001 {
        needReconnect := true;
        if keepRunning {
          closeRequests := closeRequests + 1;
        }
      } else {
        reported := true;
      }
    }

    /** `stop`: sets the stop event, clears the connection flags and closes the socket. */
    method Stop()
      modifies this
      ensures stopRequested && !isConnected && !needReconnect
      ensures closeRequests == old(closeRequests) + 1
      ensures wsReady == old(wsReady) && reconnectAttempts == old(reconnectAttempts)
      ensures subscriptionIdCounter == old(subscriptionIdCounter)
      ensures queued == old(queued) && active == old(active) && all == old(all)
      ensures sent == old(sent) && delivered == old(delivered) && waits == old(waits)
      ensures sockets == old(sockets)
    {
      stopRequested := true;
      isConnected := false;
      needReconnect := false;
      closeRequests := closeRequests + 1;
    }

    /**
      `_handle_reconnect`: gives up when auto-reconnect is off, a stop was
      requested or the attempts are exhausted, reporting the loss only in
      the last case; otherwise counts the attempt and waits
      `min(delay * attempts, 30)`.  `interrupted` says whether a `stop()`
      from another thread ended that wait; if not, a fresh socket is created
      and the ready and reconnect flags are cleared.
     */
    method HandleReconnect(interrupted: bool) returns (ok: bool, reported: bool)
      modifies this
      ensures var w := ReconnectWait(autoReconnect, old(stopRequested), old(reconnectAttempts));
        && waits == (if w.Some? then old(waits) + [w.value] else old(waits))
        && reconnectAttempts == (if w.Some? then old(reconnectAttempts) + 1 else old(reconnectAttempts))
        && ok == (w.Some? && !interrupted)
        && reported == (autoReconnect && !old(stopRequested) && old(reconnectAttempts) >= MaxReconnectAttempts)
        && (w.Some? && interrupted ==>
              stopRequested && !isConnected && !needReconnect && closeRequests == old(closeRequests) + 1)
        && (ok ==> !wsReady && !needReconnect && sockets == old(sockets) + 1)
        && (!ok ==> sockets == old(sockets))
        && (!(w.Some? && interrupted) ==> stopRequested == old(stopRequested) && closeRequests == old(closeRequests))
        && (w.None? ==> FlagsOf() == old(FlagsOf()))
        && (ok ==> isConnected == old(isConnected))
      ensures var h := HandleReconnectOf(old(FlagsOf()), autoReconnect, interrupted);
        FlagsOf() == h.flags && ok == h.keepRunning && (if reported then 1 else 0) == h.reports
      ensures subscriptionIdCounter == old(subscriptionIdCounter)
      ensures queued == old(queued) && active == old(active) && all == old(all)
      ensures sent == old(sent) && delivered == old(delivered)
    {
      reported := false;
      if !autoReconnect || stopRequested {
        return false, false;
      }
      if reconnectAttempts >= MaxReconnectAttempts {
        return false, true;
      }
      reconnectAttempts := reconnectAttempts + 1;
      var waitTime := Min(ReconnectDelay * reconnectAttempts, MaxWait);
      waits := waits + [waitTime];
      if interrupted {
        Stop();
        return false, false;
      }
      sockets := sockets + 1;
      wsReady := false;
      needReconnect := false;
      ok := true;
    }

    /**
      One pass of the `run` loop after `run_forever` returned (`raised`
      says whether it raised), as `RunStepOf` describes it: the new flags,
      whether the loop goes on, the wait, a fresh socket after a granted
      wait, a close after an interrupted one, and the number of loss
      reports.
     */
    method RunStep(raised: bool, interrupted: bool) returns (keepRunning: bool, reports: nat)
      modifies this
      ensures var o := RunStepOf(old(FlagsOf()), autoReconnect, raised, interrupted);
        && FlagsOf() == o.flags && keepRunning == o.keepRunning && reports == o.reports
        && waits == old(waits) + (if o.wait.Some? then [o.wait.value] else [])
        && sockets == old(sockets) + (if o.wait.Some? && o.keepRunning then 1 else 0)
        && closeRequests == old(closeRequests) + (if o.wait.Some? && !o.keepRunning then 1 else 0)
      ensures subscriptionIdCounter == old(subscriptionIdCounter)
      ensures queued == old(queued) && active == old(active) && all == old(all)
      ensures sent == old(sent) && delivered == old(delivered)
    {
      reports := 0;
      if raised {
        isConnected := false;
        needReconnect := true;
        var ok, reported := HandleReconnect(interrupted);
        if reported {
          reports := 1;
        }
        if !ok {
          // the handler reports the loss itself before leaving the loop
          return false, reports + 1;
        }
      } else if !stopRequested && (needReconnect || !isConnected) {
        var ok, reported := HandleReconnect(interrupted);
        if reported {
          reports := 1;
        }
        if !ok {
          return false, reports;
        }
      }
      keepRunning := !stopRequested;
    }
  }
}
