/** The streaming session of src/services/DeltaWebSocketService.ts: one
    WebSocket connection to the exchange, the reconnect state machine around
    it, the retained subscription set, and the caches that incoming messages
    are routed into.

    The socket, the timers and the event emitter are not modelled as code:
    each socket or timer event is a method of `Session` (the event handled
    atomically, as JavaScript's event loop does), every frame the session
    sends is appended to `sent`, and every event it emits is appended to
    `emitted`. */
module StreamingSession {
  import opened Text
  import OrderBook
  import Crc32

  /** `wsMaxReconnectAttempts` */
  const MaxReconnectAttempts: nat := 5

  /** `ws.readyState`, with `NoSocket` for `ws === null`. */
  datatype SocketState = NoSocket | Connecting | Open | Closing | Closed

  /** A JSON object: field name to the field's JSON text. */
  type Record = map<string, string>

  /** An `orderbookCache` entry: the `{asks, bids}` book an `l2_updates`
      snapshot stores, or an `l2_orderbook` message stored as received (its
      levels are in `buy`/`sell`, so it has no `asks` or `bids`). */
  datatype BookEntry =
    | Book(asks: seq<OrderBook.Level>, bids: seq<OrderBook.Level>)
    | RawOrderbook(record: Record)

  /** The six caches, each keyed by the text of the message's key field. */
  datatype Caches = Caches(
    tickers: map<string, Record>,
    orderbooks: map<string, BookEntry>,
    positions: map<string, Record>,
    orders: map<string, Record>,
    margins: map<string, Record>,
    portfolioMargins: map<string, Record>)

  const NoCaches := Caches(map[], map[], map[], map[], map[], map[])

  /** A frame the session sends. */
  datatype Outbound =
    | SubscribeFrame(channel: string, symbols: seq<string>)
    | UnsubscribeFrame(channel: string)
    | AuthFrame(apiKey: string, signature: string, timestamp: nat)
    | PingFrame

  /** An event the session emits: `emit(type, message)`, or the `'error'`
      event carrying an `Error` with this text. */
  datatype Emitted = MessageEvent(name: string) | ErrorEvent(text: string)

  /** A parsed inbound frame. Texts the source tests for truthiness are `""`
      when the field is absent. */
  datatype Message =
    | Ticker(symbol: string, record: Record)
    | L2Orderbook(symbol: string, record: Record)
    | L2Updates(symbol: string, action: string, asks: seq<OrderBook.Level>, bids: seq<OrderBook.Level>, cs: int)
    | MarkPrice(symbol: string, markPrice: string)
    | SpotPrice(v2: bool, symbol: string, spotPrice: string)
    | Positions(positionId: string, record: Record)
    | Orders(clientOrderId: string, orderId: string, record: Record)
    | Margins(accountId: string, record: Record)
    | PortfolioMargins(accountId: string, record: Record)
    | AuthAck(success: bool)
    | Error(payloadMessage: string)
    /** Every other type: candlesticks, spot_30mtwap_price, funding_rate,
        product_updates, announcements, v2/user_trades, mmp_trigger and
        unknown types, none of which touches a cache. */
    | Other(kind: string)

  /** The `type` names that `handleMessage` gives a case with an effect of
      its own. */
  const RoutedTypes: set<string> := {
    "ticker", "l2_orderbook", "l2_updates", "mark_price", "spot_price", "v2/spot_price",
    "positions", "orders", "margins", "portfolio_margins", "auth_ack", "error"}

  /** An `Other` message is one whose type has no such case: a routed type
      is always carried by its own constructor. */
  predicate WellFormed(m: Message)
  {
    m.Other? ==> m.kind !in RoutedTypes
  }

  /** The message's `type` field. */
  function TypeOf(m: Message): string
  {
    match m
    case Ticker(_, _) => "ticker"
    case L2Orderbook(_, _) => "l2_orderbook"
    case L2Updates(_, _, _, _, _) => "l2_updates"
    case MarkPrice(_, _) => "mark_price"
    case SpotPrice(v2, _, _) => if v2 then "v2/spot_price" else "spot_price"
    case Positions(_, _) => "positions"
    case Orders(_, _, _) => "orders"
    case Margins(_, _) => "margins"
    case PortfolioMargins(_, _) => "portfolio_margins"
    case AuthAck(_) => "auth_ack"
    case Error(_) => "error"
    case Other(kind) => kind
  }

  // ---------------------------------------------------------------------------
  // Channels

  /** The channels the session can subscribe to. */
  datatype Channel =
    | TickerChannel | OrderbookChannel | PositionsChannel | OrdersChannel
    | PortfolioMarginsChannel | L2UpdatesChannel | CandlesticksChannel(interval: string)
    | MarkPriceChannel | SpotPriceChannel | V2SpotPriceChannel | Spot30mTwapPriceChannel
    | FundingRateChannel | ProductUpdatesChannel | AnnouncementsChannel | MarginsChannel
    | UserTradesChannel | MmpTriggerChannel

  /** The name recorded in the subscription set. */
  function Key(c: Channel): string
  {
    match c
    case TickerChannel => "v2/ticker"
    case OrderbookChannel => "l2_orderbook"
    case PositionsChannel => "positions"
    case OrdersChannel => "orders"
    case PortfolioMarginsChannel => "portfolio_margins"
    case L2UpdatesChannel => "l2_updates"
    case CandlesticksChannel(interval) => "candlesticks_" + interval
    case MarkPriceChannel => "mark_price"
    case SpotPriceChannel => "spot_price"
    case V2SpotPriceChannel => "v2/spot_price"
    case Spot30mTwapPriceChannel => "spot_30mtwap_price"
    case FundingRateChannel => "funding_rate"
    case ProductUpdatesChannel => "product_updates"
    case AnnouncementsChannel => "announcements"
    case MarginsChannel => "margins"
    case UserTradesChannel => "v2/user_trades"
    case MmpTriggerChannel => "mmp_trigger"
  }

  /** The channel name sent on the wire: every interval of candlesticks is
      the one channel `candlesticks`. */
  function WireName(c: Channel): string
  {
    if c.CandlesticksChannel? then "candlesticks" else Key(c)
  }

  /** The subscribe methods that take a symbol list; the others always send
      the default `['all']`. */
  predicate TakesSymbols(c: Channel)
  {
    c.TickerChannel? || c.OrderbookChannel? || c.L2UpdatesChannel? || c.CandlesticksChannel?
    || c.MarkPriceChannel? || c.SpotPriceChannel? || c.V2SpotPriceChannel?
    || c.Spot30mTwapPriceChannel? || c.FundingRateChannel?
  }

  /** `symbols.map(s => `${s}_${interval}`)` */
  function WithSuffix(symbols: seq<string>, suffix: string): (r: seq<string>)
    ensures |r| == |symbols|
    ensures forall i :: 0 <= i < |r| ==> r[i] == symbols[i] + suffix
  {
    if symbols == [] then [] else [symbols[0] + suffix] + WithSuffix(symbols[1..], suffix)
  }

  /** The symbols sent when subscribing to `c`: the argument, `['all']` when
      it is omitted, each suffixed with `_<interval>` for candlesticks. */
  function WireSymbols(c: Channel, symbols: Option<seq<string>>): (r: seq<string>)
    ensures !TakesSymbols(c) ==> r == ["all"]
    ensures TakesSymbols(c) && !c.CandlesticksChannel? && symbols.Some? ==> r == symbols.value
    ensures TakesSymbols(c) && !c.CandlesticksChannel? && symbols.None? ==> r == ["all"]
    ensures c.CandlesticksChannel? ==> r == WithSuffix(if symbols.Some? then symbols.value else ["all"], "_" + c.interval)
    ensures c.CandlesticksChannel? ==> |r| == (if symbols.Some? then |symbols.value| else 1)
    ensures c.CandlesticksChannel? ==> forall i :: 0 <= i < |r| ==> EndsWith(r[i], "_" + c.interval)
  {
    var given := if TakesSymbols(c) && symbols.Some? then symbols.value else ["all"];
    if c.CandlesticksChannel? then WithSuffix(given, "_" + c.interval) else given
  }

  /** Every fixed key differs from `candlesticks_<interval>` in its first
      thirteen characters. */
  lemma FixedKeyNotCandlesticks(c: Channel, interval: string)
    requires !c.CandlesticksChannel?
    ensures Key(c) != Key(CandlesticksChannel(interval))
  {
    var k := Key(CandlesticksChannel(interval));
    assert k[..13] == "candlesticks_";
    assert k[0] == 'c' && k[1] == 'a' && k[2] == 'n';
  }

  /** Distinct channels have distinct keys, so each subscription method adds
      and removes its own entry of the set. */
  lemma KeyInjective(a: Channel, b: Channel)
    requires Key(a) == Key(b)
    ensures a == b
  {
    if a.CandlesticksChannel? && b.CandlesticksChannel? {
      assert a.interval == Key(a)[13..];
    } else if a.CandlesticksChannel? {
      FixedKeyNotCandlesticks(b, a.interval);
    } else if b.CandlesticksChannel? {
      FixedKeyNotCandlesticks(a, b.interval);
    }
  }

  // ---------------------------------------------------------------------------
  // The subscription set: a JavaScript `Set`, which keeps insertion order

  predicate Distinct(s: seq<string>)
  {
    forall i, j :: 0 <= i < j < |s| ==> s[i] != s[j]
  }

  /** `set.add(x)`: appended when new, else the set is unchanged. */
  function Added(s: seq<string>, x: string): (r: seq<string>)
    ensures forall y :: y in r <==> y in s || y == x
    ensures Distinct(s) ==> Distinct(r)
    ensures s <= r && |r| <= |s| + 1
  {
    if x in s then s else s + [x]
  }

  /** `set.delete(x)`: the other elements keep their order. */
  function Removed(s: seq<string>, x: string): (r: seq<string>)
    ensures forall y :: y in r <==> y in s && y != x
    ensures Distinct(s) ==> Distinct(r)
    ensures x !in s ==> r == s
    ensures |r| <= |s|
  {
    if s == [] then []
    else if s[0] == x then Removed(s[1..], x)
    else
      var rest := Removed(s[1..], x);
      assert Distinct(s) ==> s[0] !in s[1..];
      [s[0]] + rest
  }

  /** `Array.from(subscriptions)` after an add lists the new key last. */
  lemma AddedLast(s: seq<string>, x: string)
    requires x !in s
    ensures Added(s, x)[|s|] == x && |Added(s, x)| == |s| + 1
  {
  }

  // ---------------------------------------------------------------------------
  // Routing into the caches

  /** `message.client_order_id || message.order_id` */
  function OrderKey(clientOrderId: string, orderId: string): (k: string)
    ensures clientOrderId != "" ==> k == clientOrderId
    ensures clientOrderId == "" ==> k == orderId
  {
    if clientOrderId != "" then clientOrderId else orderId
  }

  /** `{ ...existing, [field]: value }`, with `existing` possibly undefined. */
  function Merged(existing: Option<Record>, field: string, value: string): (r: Record)
    ensures field in r && r[field] == value
    ensures forall g :: g != field ==> (g in r <==> existing.Some? && g in existing.value)
    ensures forall g :: g != field && g in r ==> r[g] == existing.value[g]
  {
    (if existing.Some? then existing.value else map[])[field := value]
  }

  function Get(m: map<string, Record>, k: string): Option<Record>
  {
    if k in m then Some(m[k]) else None
  }

  /** The two maps agree at every key other than `k`. */
  ghost predicate AgreeOutside<V>(a: map<string, V>, b: map<string, V>, k: string)
  {
    forall x :: x != k ==> (x in a <==> x in b) && (x in a ==> a[x] == b[x])
  }

  /** The caches after the plain routes of `handleMessage`: one entry of one
      cache is set, every other entry of every cache is kept. */
  function Route(c: Caches, m: Message): (r: Caches)
    ensures m.Ticker? ==> r == c.(tickers := r.tickers) && r.tickers == c.tickers[m.symbol := m.record]
    ensures m.L2Orderbook? ==> r == c.(orderbooks := r.orderbooks) && r.orderbooks == c.orderbooks[m.symbol := RawOrderbook(m.record)]
    ensures m.MarkPrice? ==>
      r == c.(tickers := r.tickers) && AgreeOutside(r.tickers, c.tickers, m.symbol)
      && m.symbol in r.tickers && r.tickers[m.symbol] == Merged(Get(c.tickers, m.symbol), "mark_price", m.markPrice)
    ensures m.SpotPrice? ==>
      r == c.(tickers := r.tickers) && AgreeOutside(r.tickers, c.tickers, m.symbol)
      && m.symbol in r.tickers && r.tickers[m.symbol] == Merged(Get(c.tickers, m.symbol), "spot_price", m.spotPrice)
    ensures m.Positions? ==> r == c.(positions := r.positions) && r.positions == c.positions[m.positionId := m.record]
    ensures m.Orders? ==> r == c.(orders := r.orders) && r.orders == c.orders[OrderKey(m.clientOrderId, m.orderId) := m.record]
    ensures m.Margins? ==> r == c.(margins := r.margins) && r.margins == c.margins[m.accountId := m.record]
    ensures m.PortfolioMargins? ==> r == c.(portfolioMargins := r.portfolioMargins) && r.portfolioMargins == c.portfolioMargins[m.accountId := m.record]
    ensures m.L2Updates? || m.AuthAck? || m.Error? || m.Other? ==> r == c
  {
    match m
    case Ticker(symbol, record) => c.(tickers := c.tickers[symbol := record])
    case L2Orderbook(symbol, record) => c.(orderbooks := c.orderbooks[symbol := RawOrderbook(record)])
    case MarkPrice(symbol, price) => c.(tickers := c.tickers[symbol := Merged(Get(c.tickers, symbol), "mark_price", price)])
    case SpotPrice(_, symbol, price) => c.(tickers := c.tickers[symbol := Merged(Get(c.tickers, symbol), "spot_price", price)])
    case Positions(id, record) => c.(positions := c.positions[id := record])
    case Orders(client, id, record) => c.(orders := c.orders[OrderKey(client, id) := record])
    case Margins(id, record) => c.(margins := c.margins[id := record])
    case PortfolioMargins(id, record) => c.(portfolioMargins := c.portfolioMargins[id := record])
    case _ => c
  }

  /** A price message keeps every other field of the cached ticker. */
  lemma PriceMergeKeepsTicker(c: Caches, m: Message, field: string)
    requires m.MarkPrice? || m.SpotPrice?
    requires m.symbol in c.tickers && field in c.tickers[m.symbol]
    requires field != (if m.MarkPrice? then "mark_price" else "spot_price")
    ensures field in Route(c, m).tickers[m.symbol]
    ensures Route(c, m).tickers[m.symbol][field] == c.tickers[m.symbol][field]
  {
    var r := Route(c, m);
    if m.MarkPrice? {
      assert r.tickers[m.symbol] == Merged(Some(c.tickers[m.symbol]), "mark_price", m.markPrice);
    } else {
      assert r.tickers[m.symbol] == Merged(Some(c.tickers[m.symbol]), "spot_price", m.spotPrice);
    }
  }

  /** `message.payload?.message || 'Unknown WebSocket error'` */
  function ErrorText(payloadMessage: string): (t: string)
    ensures t != ""
    ensures payloadMessage != "" ==> t == payloadMessage
    ensures payloadMessage == "" ==> t == "Unknown WebSocket error"
  {
    if payloadMessage != "" then payloadMessage else "Unknown WebSocket error"
  }

  /** `GET/realtime${timestamp}`, the text the auth signature covers. */
  function SignaturePayload(timestamp: nat): string
  {
    "GET" + "/realtime" + NatToDecimal(timestamp)
  }

  /** The signed text names the second it was made in: different seconds
      sign different texts. */
  lemma SignaturePayloadInjective(s: nat, t: nat)
    requires SignaturePayload(s) == SignaturePayload(t)
    ensures s == t
  {
    var p := "GET" + "/realtime";
    assert SignaturePayload(s)[|p|..] == NatToDecimal(s);
    assert SignaturePayload(t)[|p|..] == NatToDecimal(t);
    NatToDecimalInjective(s, t);
  }

  /** `this.ws.send(...)` behind `ws && ws.readyState === OPEN`. */
  function Gated(socket: SocketState, frames: seq<Outbound>): seq<Outbound>
  {
    if socket == Open then frames else []
  }

  lemma GatedConcat(socket: SocketState, x: seq<Outbound>, y: seq<Outbound>)
    ensures Gated(socket, x + y) == Gated(socket, x) + Gated(socket, y)
  {
  }

  lemma GatedThree(socket: SocketState, prefix: seq<Outbound>, a: Outbound, b: Outbound, c: Outbound)
    ensures prefix + Gated(socket, [a]) + Gated(socket, [b]) + Gated(socket, [c]) == prefix + Gated(socket, [a, b, c])
  {
    if socket == Open {
      assert prefix + [a] + [b] + [c] == prefix + [a, b, c];
    }
  }

  // ---------------------------------------------------------------------------
  // The session

  class Session {
    const apiKey: string
    const apiSecret: string
    /** The current socket, `ws`. */
    var socket: SocketState
    var isConnected: bool
    var reconnectAttempts: nat
    /** `reconnectTimeout !== null` */
    var reconnectPending: bool
    /** `heartbeatInterval !== null` */
    var heartbeat: bool
    /** `Array.from(subscriptions)` */
    var subscriptions: seq<string>
    var caches: Caches
    var sent: seq<Outbound>
    var emitted: seq<Emitted>

    /** The attempt counter never passes the maximum, and the subscription
        set has no duplicates. */
    ghost predicate Valid()
      reads this`reconnectAttempts, this`subscriptions
    {
      reconnectAttempts <= MaxReconnectAttempts && Distinct(subscriptions)
    }

    /** A missing key or secret is the empty string. */
    constructor (apiKey: string, apiSecret: string)
      ensures Valid()
      ensures this.apiKey == apiKey && this.apiSecret == apiSecret
      ensures socket == NoSocket && !isConnected && reconnectAttempts == 0 && !reconnectPending && !heartbeat
      ensures subscriptions == [] && caches == NoCaches && sent == [] && emitted == []
    {
      this.apiKey := apiKey;
      this.apiSecret := apiSecret;
      socket := NoSocket;
      isConnected := false;
      reconnectAttempts := 0;
      reconnectPending := false;
      heartbeat := false;
      subscriptions := [];
      caches := NoCaches;
      sent := [];
      emitted := [];
    }

    // -------------------------------------------------------------------------
    // Connection lifecycle

    /** `connect()`: a new socket, still connecting. */
    method Connect()
      modifies this`socket
      ensures socket == Connecting
    {
      socket := Connecting;
    }

    /** `reconnect()`: at the maximum, or with a reconnect already pending,
        nothing happens; otherwise one more attempt is counted and a timer is
        set. */
    method Reconnect()
      requires Valid()
      modifies this`reconnectAttempts, this`reconnectPending
      ensures Valid()
      ensures old(reconnectAttempts) >= MaxReconnectAttempts || old(reconnectPending) ==>
        reconnectAttempts == old(reconnectAttempts) && reconnectPending == old(reconnectPending)
      ensures old(reconnectAttempts) < MaxReconnectAttempts && !old(reconnectPending) ==>
        reconnectAttempts == old(reconnectAttempts) + 1 && reconnectPending
    {
      if reconnectAttempts >= MaxReconnectAttempts {
        return;
      }
      if reconnectPending {
        return;
      }
      reconnectAttempts := reconnectAttempts + 1;
      reconnectPending := true;
    }

    /** The reconnect timer fires: the pending flag is cleared, then a new
        socket is opened. */
    method ReconnectTimerFires()
      requires reconnectPending
      modifies this`reconnectPending, this`socket
      ensures !reconnectPending && socket == Connecting
    {
      reconnectPending := false;
      Connect();
    }

    /** `sendSubscription(channel, symbols)` */
    method SendSubscription(channel: string, symbols: seq<string>)
      modifies this`sent
      ensures sent == old(sent) + Gated(socket, [SubscribeFrame(channel, symbols)])
    {
      if socket == Open {
        sent := sent + [SubscribeFrame(channel, symbols)];
      }
    }

    /** `sendUnsubscription(channel)` */
    method SendUnsubscription(channel: string)
      modifies this`sent
      ensures sent == old(sent) + Gated(socket, [UnsubscribeFrame(channel)])
    {
      if socket == Open {
        sent := sent + [UnsubscribeFrame(channel)];
      }
    }

    /** The `subscribe*` methods: the key is added whether or not the socket
        is open; only the frame is gated. `None` is the omitted argument. */
    method Subscribe(c: Channel, symbols: Option<seq<string>>)
      requires Valid()
      modifies this`subscriptions, this`sent
      ensures Valid()
      ensures subscriptions == Added(old(subscriptions), Key(c))
      ensures sent == old(sent) + Gated(socket, [SubscribeFrame(WireName(c), WireSymbols(c, symbols))])
    {
      subscriptions := Added(subscriptions, Key(c));
      SendSubscription(WireName(c), WireSymbols(c, symbols));
    }

    /** The `unsubscribe*` methods: the key is removed whether or not the
        socket is open. */
    method Unsubscribe(c: Channel)
      requires Valid()
      modifies this`subscriptions, this`sent
      ensures Valid()
      ensures subscriptions == Removed(old(subscriptions), Key(c))
      ensures sent == old(sent) + Gated(socket, [UnsubscribeFrame(WireName(c))])
    {
      subscriptions := Removed(subscriptions, Key(c));
      SendUnsubscription(WireName(c));
    }

    /** `authenticateAndSubscribe()`, run from the open handler: the auth
        frame goes out only when both key and secret are non-empty, and
        `v2/ticker` and `l2_orderbook` are subscribed for all symbols in any
        case. `hmac(secret, text)` stands for the hex HMAC-SHA256 digest. */
    method AuthenticateAndSubscribe(nowMillis: nat, hmac: (string, string) -> string)
      requires Valid() && socket == Open
      modifies this`subscriptions, this`sent
      ensures Valid()
      ensures subscriptions == Added(Added(old(subscriptions), "v2/ticker"), "l2_orderbook")
      ensures sent == old(sent)
          + (if apiKey != "" && apiSecret != ""
             then [AuthFrame(apiKey, hmac(apiSecret, SignaturePayload(nowMillis / 1000)), nowMillis / 1000)]
             else [])
          + [SubscribeFrame("v2/ticker", ["all"]), SubscribeFrame("l2_orderbook", ["all"])]
    {
      if apiKey != "" && apiSecret != "" {
        var timestamp := nowMillis / 1000;
        var signature := hmac(apiSecret, SignaturePayload(timestamp));
        sent := sent + [AuthFrame(apiKey, signature, timestamp)];
      }
      ghost var before := sent;
      Subscribe(TickerChannel, Some(["all"]));
      Subscribe(OrderbookChannel, Some(["all"]));
      assert sent == before + [SubscribeFrame("v2/ticker", ["all"])] + [SubscribeFrame("l2_orderbook", ["all"])];
    }

    /** The open event of the connecting socket: connected, attempts reset,
        auth and initial subscriptions sent, heartbeat started. */
    method OnOpen(nowMillis: nat, hmac: (string, string) -> string)
      requires Valid() && socket == Connecting
      modifies this`socket, this`isConnected, this`reconnectAttempts, this`heartbeat, this`subscriptions, this`sent
      ensures Valid()
      ensures socket == Open && isConnected && reconnectAttempts == 0 && heartbeat
      ensures subscriptions == Added(Added(old(subscriptions), "v2/ticker"), "l2_orderbook")
      ensures sent == old(sent)
          + (if apiKey != "" && apiSecret != ""
             then [AuthFrame(apiKey, hmac(apiSecret, SignaturePayload(nowMillis / 1000)), nowMillis / 1000)]
             else [])
          + [SubscribeFrame("v2/ticker", ["all"]), SubscribeFrame("l2_orderbook", ["all"])]
    {
      socket := Open;
      isConnected := true;
      reconnectAttempts := 0;
      AuthenticateAndSubscribe(nowMillis, hmac);
      heartbeat := true;
    }

    /** The error event: not connected, and a reconnect is attempted. */
    method OnError()
      requires Valid()
      modifies this`isConnected, this`reconnectAttempts, this`reconnectPending
      ensures Valid()
      ensures !isConnected
      ensures old(reconnectAttempts) >= MaxReconnectAttempts || old(reconnectPending) ==>
        reconnectAttempts == old(reconnectAttempts) && reconnectPending == old(reconnectPending)
      ensures old(reconnectAttempts) < MaxReconnectAttempts && !old(reconnectPending) ==>
        reconnectAttempts == old(reconnectAttempts) + 1 && reconnectPending
    {
      isConnected := false;
      Reconnect();
    }

    /** The close event: not connected, heartbeat stopped, and a reconnect is
        attempted. The handler stays attached to a socket `disconnect` has
        dropped, so closing that one schedules a reconnect too. */
    method OnClose()
      requires Valid()
      modifies this`socket, this`isConnected, this`heartbeat, this`reconnectAttempts, this`reconnectPending
      ensures Valid()
      ensures socket == (if old(socket) == NoSocket then NoSocket else Closed)
      ensures !isConnected && !heartbeat
      ensures old(reconnectAttempts) >= MaxReconnectAttempts || old(reconnectPending) ==>
        reconnectAttempts == old(reconnectAttempts) && reconnectPending == old(reconnectPending)
      ensures old(reconnectAttempts) < MaxReconnectAttempts && !old(reconnectPending) ==>
        reconnectAttempts == old(reconnectAttempts) + 1 && reconnectPending
    {
      if socket != NoSocket {
        socket := Closed;
      }
      isConnected := false;
      heartbeat := false;
      Reconnect();
    }

    /** The close event as evidently intended: the close of a socket that
        `disconnect` has already dropped changes nothing, so a session that
        was stopped stays stopped. The close of the current socket is
        handled as `OnClose` handles it. */
    method OnCloseCorrected()
      requires Valid()
      modifies this`socket, this`isConnected, this`heartbeat, this`reconnectAttempts, this`reconnectPending
      ensures Valid()
      ensures old(socket) == NoSocket ==>
        unchanged(this`socket, this`isConnected, this`heartbeat, this`reconnectAttempts, this`reconnectPending)
      ensures old(socket) != NoSocket ==> socket == Closed && !isConnected && !heartbeat
      ensures old(socket) != NoSocket && (old(reconnectAttempts) >= MaxReconnectAttempts || old(reconnectPending)) ==>
        reconnectAttempts == old(reconnectAttempts) && reconnectPending == old(reconnectPending)
      ensures old(socket) != NoSocket && old(reconnectAttempts) < MaxReconnectAttempts && !old(reconnectPending) ==>
        reconnectAttempts == old(reconnectAttempts) + 1 && reconnectPending
    {
      if socket != NoSocket {
        OnClose();
      }
    }

    /** As written, a failed `auth_ack` does not stop the session: the
        dropped socket's close event schedules a reconnect, and when the
        timer fires a new socket is connecting. `stop()` disconnects the same
        way. */
    method AuthFailureThenClose()
      requires Valid() && socket != NoSocket && reconnectAttempts < MaxReconnectAttempts
      modifies this`subscriptions, this`sent, this`socket, this`isConnected, this`heartbeat,
               this`reconnectAttempts, this`reconnectPending
      ensures Valid()
      ensures socket == Connecting && reconnectAttempts == old(reconnectAttempts) + 1
      ensures sent == old(sent) && subscriptions == old(subscriptions)
    {
      HandleAuthAck(false);
      OnClose();
      ReconnectTimerFires();
    }

    /** A failed `auth_ack` never ends: after the reconnect, the new socket
        opens with the attempt counter back at 0 and authenticates again, so
        a rejected key is retried without limit and the bound of five
        attempts is never reached. */
    method AuthFailureLoops(nowMillis: nat, hmac: (string, string) -> string)
      requires Valid() && socket != NoSocket && reconnectAttempts < MaxReconnectAttempts
      modifies this`subscriptions, this`sent, this`socket, this`isConnected, this`heartbeat,
               this`reconnectAttempts, this`reconnectPending
      ensures Valid()
      ensures socket == Open && isConnected && reconnectAttempts == 0 && old(reconnectAttempts) < MaxReconnectAttempts
      ensures sent == old(sent)
          + (if apiKey != "" && apiSecret != ""
             then [AuthFrame(apiKey, hmac(apiSecret, SignaturePayload(nowMillis / 1000)), nowMillis / 1000)]
             else [])
          + [SubscribeFrame("v2/ticker", ["all"]), SubscribeFrame("l2_orderbook", ["all"])]
    {
      AuthFailureThenClose();
      OnOpen(nowMillis, hmac);
    }

    /** With the corrected close handler, a failed `auth_ack` leaves the
        session without a socket and with no reconnect pending. */
    method AuthFailureThenCloseCorrected()
      requires Valid() && socket != NoSocket
      modifies this`subscriptions, this`sent, this`socket, this`isConnected, this`heartbeat,
               this`reconnectAttempts, this`reconnectPending
      ensures Valid()
      ensures socket == NoSocket && !reconnectPending && !isConnected && !heartbeat
      ensures reconnectAttempts == old(reconnectAttempts)
    {
      HandleAuthAck(false);
      OnCloseCorrected();
    }

    /** `disconnect()`: with a socket, it is closed and dropped, the
        heartbeat stopped and a pending reconnect cancelled; the attempt
        counter is kept. Without one nothing happens. */
    method Disconnect()
      modifies this`socket, this`isConnected, this`heartbeat, this`reconnectPending
      ensures old(socket) == NoSocket ==> unchanged(this`isConnected, this`heartbeat, this`reconnectPending)
      ensures socket == NoSocket
      ensures old(socket) != NoSocket ==> !isConnected && !heartbeat && !reconnectPending
    {
      if socket != NoSocket {
        socket := NoSocket;
        isConnected := false;
        heartbeat := false;
        reconnectPending := false;
      }
    }

    /** A tick of the heartbeat interval: a ping when the socket is open. */
    method HeartbeatTick()
      requires heartbeat
      modifies this`sent
      ensures sent == old(sent) + Gated(socket, [PingFrame])
    {
      if socket == Open {
        sent := sent + [PingFrame];
      }
    }

    // -------------------------------------------------------------------------
    // Inbound messages

    /** `updateOrderbookCache(message)`: a snapshot replaces the symbol's
        book; an update of a cached book applies the deltas to both sides
        and, when the checksum is non-zero and does not match, asks for the
        symbol again without undoing the deltas; an update of an
        `l2_orderbook` entry throws, changing nothing; anything else is
        ignored. `key` is the numeric value of a price. */
    method UpdateOrderbookCache(symbol: string, action: string, asks: seq<OrderBook.Level>,
                                bids: seq<OrderBook.Level>, cs: int, key: string -> int)
      returns (thrown: bool)
      modifies this`caches, this`sent
      ensures thrown <==> action == "update" && symbol in old(caches).orderbooks
                          && old(caches).orderbooks[symbol].RawOrderbook?
      ensures action == "snapshot" ==>
        caches == old(caches).(orderbooks := old(caches).orderbooks[symbol := Book(asks, bids)]) && sent == old(sent)
      ensures action != "snapshot" && (action != "update" || symbol !in old(caches).orderbooks || thrown) ==>
        caches == old(caches) && sent == old(sent)
      ensures action == "update" && symbol in old(caches).orderbooks && !thrown ==>
        var book := old(caches).orderbooks[symbol];
        var newAsks := OrderBook.UpdatedSide(book.asks, asks, key);
        var newBids := OrderBook.UpdatedSide(book.bids, bids, key);
        caches == old(caches).(orderbooks := old(caches).orderbooks[symbol := Book(newAsks, newBids)])
        && sent == old(sent) +
          (if cs != 0 && !OrderBook.ChecksumMatches(newAsks, newBids, cs)
           then Gated(socket, [UnsubscribeFrame("l2_updates"), SubscribeFrame("l2_updates", [symbol])])
           else [])
    {
      thrown := false;
      if action == "snapshot" {
        caches := caches.(orderbooks := caches.orderbooks[symbol := Book(asks, bids)]);
      } else if action == "update" && symbol in caches.orderbooks {
        match caches.orderbooks[symbol]
        case RawOrderbook(_) =>
          thrown := true;
        case Book(currentAsks, currentBids) =>
          var newAsks := OrderBook.ApplyOrderbookUpdate(currentAsks, asks, key);
          var newBids := OrderBook.ApplyOrderbookUpdate(currentBids, bids, key);
          caches := caches.(orderbooks := caches.orderbooks[symbol := Book(newAsks, newBids)]);
          CheckBook(symbol, newAsks, newBids, cs);
      }
    }

    /** The checksum step of `updateOrderbookCache`: with a non-zero checksum
        that does not match the updated book, the symbol's `l2_updates`
        channel is unsubscribed and subscribed again. */
    method CheckBook(symbol: string, asks: seq<OrderBook.Level>, bids: seq<OrderBook.Level>, cs: int)
      modifies this`sent
      ensures sent == old(sent) +
        (if cs != 0 && !OrderBook.ChecksumMatches(asks, bids, cs)
         then Gated(socket, [UnsubscribeFrame("l2_updates"), SubscribeFrame("l2_updates", [symbol])])
         else [])
    {
      if cs != 0 {
        var ok := OrderBook.VerifyChecksum(asks, bids, cs);
        if !ok {
          SendUnsubscription("l2_updates");
          SendSubscription("l2_updates", [symbol]);
          GatedConcat(socket, [UnsubscribeFrame("l2_updates")], [SubscribeFrame("l2_updates", [symbol])]);
        }
      }
    }

    /** `subscribeToPrivateChannels()` */
    method SubscribeToPrivateChannels()
      requires Valid()
      modifies this`subscriptions, this`sent
      ensures Valid()
      ensures subscriptions == Added(Added(Added(old(subscriptions), "positions"), "orders"), "portfolio_margins")
      ensures sent == old(sent) + Gated(socket, [SubscribeFrame("positions", ["all"]),
                                                SubscribeFrame("orders", ["all"]),
                                                SubscribeFrame("portfolio_margins", ["all"])])
    {
      ghost var before := sent;
      assert WireName(PositionsChannel) == "positions" && WireSymbols(PositionsChannel, None) == ["all"];
      assert WireName(OrdersChannel) == "orders" && WireSymbols(OrdersChannel, None) == ["all"];
      assert WireName(PortfolioMarginsChannel) == "portfolio_margins" && WireSymbols(PortfolioMarginsChannel, None) == ["all"];
      Subscribe(PositionsChannel, None);
      Subscribe(OrdersChannel, None);
      Subscribe(PortfolioMarginsChannel, None);
      GatedThree(socket, before, SubscribeFrame("positions", ["all"]), SubscribeFrame("orders", ["all"]),
                 SubscribeFrame("portfolio_margins", ["all"]));
    }

    /** The `auth_ack` case of `handleMessage`: on success the private
        channels are subscribed, otherwise the session disconnects. */
    method HandleAuthAck(success: bool)
      requires Valid()
      modifies this`subscriptions, this`sent, this`socket, this`isConnected, this`heartbeat, this`reconnectPending
      ensures Valid()
      ensures success ==>
        subscriptions == Added(Added(Added(old(subscriptions), "positions"), "orders"), "portfolio_margins")
        && sent == old(sent) + Gated(socket, [SubscribeFrame("positions", ["all"]),
                                              SubscribeFrame("orders", ["all"]),
                                              SubscribeFrame("portfolio_margins", ["all"])])
        && unchanged(this`socket, this`isConnected, this`heartbeat, this`reconnectPending)
      ensures !success ==>
        socket == NoSocket && subscriptions == old(subscriptions) && sent == old(sent)
        && (old(socket) != NoSocket ==> !isConnected && !heartbeat && !reconnectPending)
        && (old(socket) == NoSocket ==> unchanged(this`isConnected, this`heartbeat, this`reconnectPending))
    {
      if success {
        SubscribeToPrivateChannels();
      } else {
        Disconnect();
      }
    }

    /** `handleMessage(message)`: the message is emitted under its type, then
        routed. `thrown` is set when the handler throws (an update of an
        `l2_orderbook` entry). */
    method HandleMessage(m: Message, key: string -> int) returns (thrown: bool)
      requires Valid() && WellFormed(m)
      modifies this`emitted, this`caches, this`sent, this`subscriptions,
               this`socket, this`isConnected, this`heartbeat, this`reconnectPending
      ensures Valid()
      ensures !m.Error? ==> emitted == old(emitted) + [MessageEvent(TypeOf(m))]
      ensures m.Error? ==> emitted == old(emitted) + [MessageEvent("error"), ErrorEvent(ErrorText(m.payloadMessage))]
      ensures thrown ==> m.L2Updates?
      ensures m.L2Updates? ==>
        (thrown <==> m.action == "update" && m.symbol in old(caches).orderbooks
                     && old(caches).orderbooks[m.symbol].RawOrderbook?)
      ensures m.L2Updates? && m.action == "snapshot" ==>
        caches == old(caches).(orderbooks := old(caches).orderbooks[m.symbol := Book(m.asks, m.bids)])
        && sent == old(sent)
      ensures m.L2Updates? && m.action != "snapshot"
              && (m.action != "update" || m.symbol !in old(caches).orderbooks || thrown) ==>
        caches == old(caches) && sent == old(sent)
      ensures m.L2Updates? && m.action == "update" && m.symbol in old(caches).orderbooks && !thrown ==>
        var book := old(caches).orderbooks[m.symbol];
        var newAsks := OrderBook.UpdatedSide(book.asks, m.asks, key);
        var newBids := OrderBook.UpdatedSide(book.bids, m.bids, key);
        caches == old(caches).(orderbooks := old(caches).orderbooks[m.symbol := Book(newAsks, newBids)])
        && sent == old(sent) +
          (if m.cs != 0 && !OrderBook.ChecksumMatches(newAsks, newBids, m.cs)
           then Gated(socket, [UnsubscribeFrame("l2_updates"), SubscribeFrame("l2_updates", [m.symbol])])
           else [])
      ensures !m.L2Updates? ==> caches == Route(old(caches), m)
      ensures !m.AuthAck? ==> unchanged(this`subscriptions, this`socket, this`isConnected, this`heartbeat, this`reconnectPending)
      ensures !m.AuthAck? && !m.L2Updates? ==> sent == old(sent)
      ensures m.AuthAck? && m.success ==>
        subscriptions == Added(Added(Added(old(subscriptions), "positions"), "orders"), "portfolio_margins")
        && sent == old(sent) + Gated(socket, [SubscribeFrame("positions", ["all"]),
                                              SubscribeFrame("orders", ["all"]),
                                              SubscribeFrame("portfolio_margins", ["all"])])
        && unchanged(this`socket, this`isConnected, this`heartbeat, this`reconnectPending)
      ensures m.AuthAck? && !m.success ==>
        socket == NoSocket && subscriptions == old(subscriptions) && sent == old(sent)
        && (old(socket) != NoSocket ==> !isConnected && !heartbeat && !reconnectPending)
        && (old(socket) == NoSocket ==> unchanged(this`isConnected, this`heartbeat, this`reconnectPending))
    {
      emitted := emitted + [MessageEvent(TypeOf(m))];
      thrown := false;
      if m.L2Updates? {
        thrown := UpdateOrderbookCache(m.symbol, m.action, m.asks, m.bids, m.cs, key);
        return;
      }
      if m.AuthAck? {
        HandleAuthAck(m.success);
      } else if m.Error? {
        emitted := emitted + [ErrorEvent(ErrorText(m.payloadMessage))];
        assert emitted == old(emitted) + [MessageEvent("error"), ErrorEvent(ErrorText(m.payloadMessage))];
      } else {
        caches := Route(caches, m);
      }
    }
  }
}
