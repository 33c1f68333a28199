/**
 * The TradeExecution client: one method per operation, each proved to do what
 * the pure model in ClientModel says, on the client's own fields, the shared
 * request-id counter and the transport.
 */
module TradeExecution {
  import opened Json
  import opened Outcomes
  import opened Envelope
  import opened ClientModel
  import opened RequestIds
  import opened Transport

  class TradeExecution {
    const websocket: WebSocket
    /** The process-wide counter: every client is handed the same one. */
    const requestIds: Counter
    var subscribers: map<string, Subscriber>
    var isAuthenticated: bool
    /** The callbacks invoked so far, each with the payload it was given. */
    var delivered: seq<Delivery>

    ghost predicate Valid()
      reads this, requestIds
    {
      requestIds.Valid()
    }

    /** The client's state as the pure model sees it. */
    function Abstract(): State
      reads this, requestIds, websocket
    {
      State(requestIds.value, isAuthenticated, subscribers, websocket.sent, websocket.inbound, delivered)
    }

    /** A new client starts unauthenticated and with no subscribers. */
    constructor (websocket: WebSocket, requestIds: Counter)
      requires requestIds.Valid()
      ensures Valid()
      ensures this.websocket == websocket && this.requestIds == requestIds
      ensures !isAuthenticated && subscribers == map[] && delivered == []
    {
      this.websocket := websocket;
      this.requestIds := requestIds;
      subscribers := map[];
      isAuthenticated := false;
      delivered := [];
    }

    /** A fresh id from the shared counter: never one handed out before, to any client. */
    method GetNextRequestId() returns (id: int)
      requires Valid()
      modifies requestIds
      ensures Valid()
      ensures id == old(requestIds.value) && requestIds.value == id + 1
      ensures id !in old(requestIds.issued) && requestIds.issued == old(requestIds.issued) + {id}
    {
      id := requestIds.FetchAndIncrement();
    }

    /** Succeeds exactly when the client is authenticated. */
    method EnsureAuthenticated() returns (r: Result<()>)
      ensures r.Ok? <==> isAuthenticated
      ensures r.Err? ==> r.error == AuthRequired
    {
      if !isAuthenticated {
        return Err(AuthRequired);
      }
      r := Ok(());
    }

    /** Build the envelope under a fresh id, send it, read the next message. */
    method SendAndRead(req: Request) returns (r: Result<Json>)
      requires Valid()
      modifies requestIds, websocket
      ensures Valid()
      ensures (Abstract(), r) == Exchange(old(Abstract()), req)
    {
      var id := GetNextRequestId();
      websocket.SendMessage(Build(id, req));
      r := websocket.ReadMessage();
    }

    /** A private request: the gate first, then the exchange. */
    method PrivateCall(req: Request) returns (r: Result<Json>)
      requires Valid() && IsPrivate(req)
      modifies requestIds, websocket
      ensures Valid()
      ensures (Abstract(), r) == Call(old(Abstract()), req)
    {
      var gate := EnsureAuthenticated();
      if gate.Err? {
        return Err(gate.error);
      }
      r := SendAndRead(req);
    }

    method Authenticate(clientId: string, clientSecret: string) returns (r: Result<Json>)
      requires Valid()
      modifies this, requestIds, websocket
      ensures Valid()
      ensures (Abstract(), r) == Call(old(Abstract()), Request.Authenticate(clientId, clientSecret))
    {
      var reply := SendAndRead(Request.Authenticate(clientId, clientSecret));
      if reply.Err? {
        return reply;
      }
      if Contains(reply.value, "result") {
        isAuthenticated := true;
        r := Ok(Member(reply.value, "result"));
      } else {
        r := Err(AuthenticationFailed(reply.value));
      }
    }

    method GetInstruments(currency: string, kind: string, expired: bool) returns (r: Result<Json>)
      requires Valid()
      modifies requestIds, websocket
      ensures Valid()
      ensures (Abstract(), r) == Call(old(Abstract()), Request.GetInstruments(currency, kind, expired))
    {
      r := SendAndRead(Request.GetInstruments(currency, kind, expired));
    }

    method GetTicker(instrument: string) returns (r: Result<Json>)
      requires Valid()
      modifies requestIds, websocket
      ensures Valid()
      ensures (Abstract(), r) == Call(old(Abstract()), Request.GetTicker(instrument))
    {
      r := SendAndRead(Request.GetTicker(instrument));
    }

    method GetOrderBook(instrument: string) returns (r: Result<Json>)
      requires Valid()
      modifies requestIds, websocket
      ensures Valid()
      ensures (Abstract(), r) == Call(old(Abstract()), Request.GetOrderBook(instrument))
    {
      r := SendAndRead(Request.GetOrderBook(instrument));
    }

    method PlaceBuyOrder(instrument: string, amount: Double, price: Double) returns (r: Result<Json>)
      requires Valid()
      modifies requestIds, websocket
      ensures Valid()
      ensures (Abstract(), r) == Call(old(Abstract()), PlaceBuy(instrument, amount, price))
    {
      r := PrivateCall(PlaceBuy(instrument, amount, price));
    }

    method PlaceSellOrder(instrument: string, amount: Double, price: Double) returns (r: Result<Json>)
      requires Valid()
      modifies requestIds, websocket
      ensures Valid()
      ensures (Abstract(), r) == Call(old(Abstract()), PlaceSell(instrument, amount, price))
    {
      r := PrivateCall(PlaceSell(instrument, amount, price));
    }

    method CancelOrder(orderId: string) returns (r: Result<Json>)
      requires Valid()
      modifies requestIds, websocket
      ensures Valid()
      ensures (Abstract(), r) == Call(old(Abstract()), Cancel(orderId))
    {
      r := PrivateCall(Cancel(orderId));
    }

    method ModifyOrder(orderId: string, newPrice: Double, newAmount: Double) returns (r: Result<Json>)
      requires Valid()
      modifies requestIds, websocket
      ensures Valid()
      ensures (Abstract(), r) == Call(old(Abstract()), Modify(orderId, newPrice, newAmount))
    {
      r := PrivateCall(Modify(orderId, newPrice, newAmount));
    }

    method GetPositions() returns (r: Result<Json>)
      requires Valid()
      modifies requestIds, websocket
      ensures Valid()
      ensures (Abstract(), r) == Call(old(Abstract()), Request.GetPositions)
    {
      r := PrivateCall(Request.GetPositions);
    }

    method ViewOpenOrders(currency: string) returns (r: Result<Json>)
      requires Valid()
      modifies requestIds, websocket
      ensures Valid()
      ensures (Abstract(), r) == Call(old(Abstract()), Request.ViewOpenOrders(currency))
    {
      r := PrivateCall(Request.ViewOpenOrders(currency));
    }

    method HandleMarketData(data: Json) returns (r: Result<()>)
      modifies this
      ensures (Abstract(), r) == Dispatch(old(Abstract()), data)
    {
      if !Contains(data, "symbol") {
        return Ok(());  // logged as invalid market data
      }
      var symbol := Member(data, "symbol");
      if !symbol.Str? {
        return Err(SymbolTypeError(symbol));
      }
      if symbol.s in subscribers {
        delivered := delivered + [Delivery(subscribers[symbol.s], data)];
      }
      // otherwise logged as having no subscriber
      r := Ok(());
    }

    /** `handleMarketData` inside a latency measurement, which has no other effect. */
    method OnMarketDataReceived(data: Json) returns (r: Result<()>)
      modifies this
      ensures (Abstract(), r) == Dispatch(old(Abstract()), data)
    {
      r := HandleMarketData(data);
    }

    method AddMarketDataSubscriber(symbol: string, sub: Subscriber)
      modifies this
      ensures Abstract() == Subscribe(old(Abstract()), symbol, sub)
    {
      subscribers := subscribers[symbol := sub];
    }
  }

  /** The command surface's choice of operation from the order side. */
  function SelectOrder(side: string, instrument: string, amount: Double, price: Double): (r: Result<Request>)
    ensures side == "buy" <==> r.Ok? && r.value.PlaceBuy?
    ensures side == "sell" <==> r.Ok? && r.value.PlaceSell?
    ensures r.Ok? ==> r.value.PlaceBuy? || r.value.PlaceSell?
    ensures r.Ok? ==> r.value.instrument == instrument && r.value.amount == amount && r.value.price == price
    ensures r.Err? ==> r.error == InvalidArgument(side)
  {
    if side == "buy" then Ok(PlaceBuy(instrument, amount, price))
    else if side == "sell" then Ok(PlaceSell(instrument, amount, price))
    else Err(InvalidArgument(side))
  }

  /** Place an order by side: an unknown side fails before anything is sent. */
  method PlaceOrder(trade: TradeExecution, side: string, instrument: string, amount: Double, price: Double)
    returns (r: Result<Json>)
    requires trade.Valid()
    modifies trade.requestIds, trade.websocket
    ensures trade.Valid()
    ensures SelectOrder(side, instrument, amount, price).Err? ==>
      r == Err(InvalidArgument(side)) && trade.Abstract() == old(trade.Abstract())
    ensures SelectOrder(side, instrument, amount, price).Ok? ==>
      (trade.Abstract(), r) == Call(old(trade.Abstract()), SelectOrder(side, instrument, amount, price).value)
  {
    if side == "buy" {
      r := trade.PlaceBuyOrder(instrument, amount, price);
    } else if side == "sell" {
      r := trade.PlaceSellOrder(instrument, amount, price);
    } else {
      r := Err(InvalidArgument(side));
    }
  }

  /** Two clients sharing the process-wide counter never send the same id. */
  method ClientsShareTheCounter(a: TradeExecution, b: TradeExecution, instrument: string)
    returns (ra: Result<Json>, rb: Result<Json>)
    requires a.Valid() && b.requestIds == a.requestIds && a.websocket != b.websocket
    modifies a.requestIds, a.websocket, b.websocket
    ensures a.websocket.sent == old(a.websocket.sent) + [Build(old(a.requestIds.value), GetTicker(instrument))]
    ensures b.websocket.sent == old(b.websocket.sent) + [Build(old(a.requestIds.value) + 1, GetTicker(instrument))]
    ensures ra == Call(old(a.Abstract()), GetTicker(instrument)).1
    // b's call runs on the counter value that a's call left behind
    ensures (b.Abstract(), rb) == Call(old(b.Abstract()).(nextId := old(a.requestIds.value) + 1), GetTicker(instrument))
    ensures a.requestIds.value == old(a.requestIds.value) + 2
  {
    ra := a.GetTicker(instrument);
    rb := b.GetTicker(instrument);
  }
}
