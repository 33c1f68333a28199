/**
 * The protocol client as a state machine over values: the specification that
 * the TradeExecution class is proved against, and the lemmas about whole runs.
 */
module ClientModel {
  import opened Json
  import opened Outcomes
  import opened Envelope
  import Transport

  /** A registered market-data callback, as an opaque token. */
  datatype Subscriber = Subscriber(token: nat)

  /** One invocation of a subscriber callback with a payload. */
  datatype Delivery = Delivery(subscriber: Subscriber, payload: Json)

  datatype State = State(
    nextId: int,                           // the shared request-id counter
    authenticated: bool,                   // is_authenticated_
    subscribers: map<string, Subscriber>,  // market_data_subscribers_
    sent: seq<Json>,                       // everything written to the transport
    inbound: seq<Json>,                    // what the transport will deliver next
    delivered: seq<Delivery>)              // every callback invocation so far

  /** A new client in a new process: counter at 1, not authenticated, no subscribers. */
  function Init(inbound: seq<Json>): State {
    State(1, false, map[], [], inbound, [])
  }

  // ----- Requests -----

  /** Take a fresh id, send the envelope, read the next message. */
  function Exchange(s: State, req: Request): (State, Result<Json>) {
    var (reply, rest) := Transport.Receive(s.inbound);
    (s.(nextId := s.nextId + 1, sent := s.sent + [Build(s.nextId, req)], inbound := rest), reply)
  }

  /** `authenticate` after the exchange: a reply with "result" sets the flag. */
  function AcceptAuthReply(s: State, reply: Json): (State, Result<Json>) {
    if Contains(reply, "result") then (s.(authenticated := true), Ok(Member(reply, "result")))
    else (s, Err(AuthenticationFailed(reply)))
  }

  /** One request operation of the client. */
  function Call(s: State, req: Request): (out: (State, Result<Json>))
    // the gate: the only refusal, and it happens exactly for private requests before authentication
    ensures out.1 == Err(AuthRequired) <==> IsPrivate(req) && !s.authenticated
    // a refused request leaves everything as it was: nothing sent, no id used
    ensures out.1 == Err(AuthRequired) ==> out.0 == s
    // otherwise exactly one envelope goes out, carrying the next id
    ensures out.1 != Err(AuthRequired) ==>
      out.0.sent == s.sent + [Build(s.nextId, req)] && out.0.nextId == s.nextId + 1
    // the flag is only ever set, and only by a successful authenticate
    ensures out.0.authenticated == (s.authenticated || (req.Authenticate? && out.1.Ok?))
    ensures out.0.subscribers == s.subscribers && out.0.delivered == s.delivered
  {
    if IsPrivate(req) && !s.authenticated then (s, Err(AuthRequired))
    else
      var (s', reply) := Exchange(s, req);
      if req.Authenticate? && reply.Ok? then AcceptAuthReply(s', reply.value) else (s', reply)
  }

  /** `authenticate` sends its envelope and reads one reply. A reply with "result"
    * yields that member and sets the flag; any other reply fails and leaves the
    * flag as it was, so a failed re-authentication keeps an earlier success. */
  lemma AuthenticateOutcome(s: State, clientId: string, clientSecret: string)
    requires s.inbound != []
    ensures var out := Call(s, Authenticate(clientId, clientSecret));
      var reply := s.inbound[0];
      && out.0.sent == s.sent + [Build(s.nextId, Authenticate(clientId, clientSecret))]
      && out.0.inbound == s.inbound[1..]
      && (Contains(reply, "result") ==> out.1 == Ok(Member(reply, "result")) && out.0.authenticated)
      && (!Contains(reply, "result") ==>
            out.1 == Err(AuthenticationFailed(reply)) && out.0.authenticated == s.authenticated)
  {
  }

  /** Every request other than `authenticate` that passes the gate returns the
    * next message read, verbatim, whatever it holds. */
  lemma RepliesVerbatim(s: State, req: Request)
    requires !req.Authenticate? && (!IsPrivate(req) || s.authenticated)
    requires s.inbound != []
    ensures Call(s, req).1 == Ok(s.inbound[0]) && Call(s, req).0.inbound == s.inbound[1..]
  {
  }

  /** A read that finds nothing fails after the envelope has gone out: the id is used up. */
  lemma ReadFailureAfterSend(s: State, req: Request)
    requires !IsPrivate(req) || s.authenticated
    requires s.inbound == []
    ensures Call(s, req).1 == Err(TransportError)
    ensures Call(s, req).0 == s.(nextId := s.nextId + 1, sent := s.sent + [Build(s.nextId, req)])
  {
  }

  // ----- Market data -----

  /** Which branch of `handleMarketData` a payload takes. */
  datatype Route =
    | Deliver(subscriber: Subscriber)
    | NoSubscriber(symbol: string)   // logged, not raised
    | MissingSymbol                  // logged, not raised
    | SymbolNotString(value: Json)   // the conversion to std::string throws

  function RouteOf(subscribers: map<string, Subscriber>, data: Json): (r: Route)
    ensures r.Deliver? <==>
      Contains(data, "symbol") && Member(data, "symbol").Str? && Member(data, "symbol").s in subscribers
    ensures r.Deliver? ==> r.subscriber == subscribers[Member(data, "symbol").s]
    ensures r.MissingSymbol? <==> !Contains(data, "symbol")
    ensures r.SymbolNotString? <==> Contains(data, "symbol") && !Member(data, "symbol").Str?
  {
    if !Contains(data, "symbol") then MissingSymbol
    else
      var symbol := Member(data, "symbol");
      if !symbol.Str? then SymbolNotString(symbol)
      else if symbol.s in subscribers then Deliver(subscribers[symbol.s])
      else NoSubscriber(symbol.s)
  }

  /** `handleMarketData`: call the subscriber registered for the payload's symbol. */
  function Dispatch(s: State, data: Json): (out: (State, Result<()>))
    // only the record of callback invocations can change
    ensures out.0 == s.(delivered := out.0.delivered)
    // the registered subscriber gets the whole payload, once
    ensures Contains(data, "symbol") && Member(data, "symbol").Str? && Member(data, "symbol").s in s.subscribers ==>
      out.0.delivered == s.delivered + [Delivery(s.subscribers[Member(data, "symbol").s], data)]
    // any other push (no symbol, unregistered symbol, non-string symbol) invokes nothing
    ensures !(Contains(data, "symbol") && Member(data, "symbol").Str? && Member(data, "symbol").s in s.subscribers) ==>
      out.0 == s
    // it fails only for a symbol that is not a string
    ensures out.1.Err? <==> Contains(data, "symbol") && !Member(data, "symbol").Str?
  {
    match RouteOf(s.subscribers, data)
    case Deliver(sub) => (s.(delivered := s.delivered + [Delivery(sub, data)]), Ok(()))
    case NoSubscriber(_) => (s, Ok(()))
    case MissingSymbol => (s, Ok(()))
    case SymbolNotString(symbol) => (s, Err(SymbolTypeError(symbol)))
  }

  /** `addMarketDataSubscriber`: the entry for `symbol` becomes `sub`. */
  function Subscribe(s: State, symbol: string, sub: Subscriber): (out: State)
    ensures out.subscribers.Keys == s.subscribers.Keys + {symbol}
    ensures out.subscribers[symbol] == sub
    ensures forall k :: k in s.subscribers && k != symbol ==> out.subscribers[k] == s.subscribers[k]
    ensures out == s.(subscribers := out.subscribers)
  {
    s.(subscribers := s.subscribers[symbol := sub])
  }

  /** Registering twice for one symbol: the second registration wins. */
  lemma SubscribeLastWriteWins(s: State, symbol: string, first: Subscriber, second: Subscriber)
    ensures Subscribe(Subscribe(s, symbol, first), symbol, second) == Subscribe(s, symbol, second)
  {
  }

  /** A push for a symbol reaches the subscriber registered last for it, once. */
  lemma PushReachesLatestSubscriber(s: State, symbol: string, sub: Subscriber, data: Json)
    requires Contains(data, "symbol") && Member(data, "symbol") == Str(symbol)
    ensures Dispatch(Subscribe(s, symbol, sub), data)
         == (Subscribe(s, symbol, sub).(delivered := s.delivered + [Delivery(sub, data)]), Ok(()))
  {
  }

  /** A push for a symbol nobody registered, or with no symbol, changes nothing and does not fail. */
  lemma UnroutablePushIsHarmless(s: State, data: Json)
    requires !Contains(data, "symbol") || (Member(data, "symbol").Str? && Member(data, "symbol").s !in s.subscribers)
    ensures Dispatch(s, data) == (s, Ok(()))
  {
  }

  // ----- Runs of operations -----

  datatype Event =
    | Rpc(req: Request)
    | MarketData(data: Json)
    | AddSubscriber(symbol: string, subscriber: Subscriber)

  function Step(s: State, e: Event): State {
    match e
    case Rpc(req) => Call(s, req).0
    case MarketData(data) => Dispatch(s, data).0
    case AddSubscriber(symbol, sub) => Subscribe(s, symbol, sub)
  }

  function Run(s: State, events: seq<Event>): State
    decreases |events|
  {
    if events == [] then s else Run(Step(s, events[0]), events[1..])
  }

  predicate IsAuthenticate(e: Event) {
    e.Rpc? && e.req.Authenticate?
  }

  /** Once authenticated, a client stays authenticated: there is no way back. */
  lemma {:induction false} AuthenticationIsPermanent(s: State, events: seq<Event>)
    requires s.authenticated
    ensures Run(s, events).authenticated
    decreases |events|
  {
    if events != [] {
      AuthenticationIsPermanent(Step(s, events[0]), events[1..]);
    }
  }

  /** Only `authenticate` changes the flag: a run without one keeps it as it was. */
  lemma {:induction false} OnlyAuthenticateSetsFlag(s: State, events: seq<Event>)
    requires forall i :: 0 <= i < |events| ==> !IsAuthenticate(events[i])
    ensures Run(s, events).authenticated == s.authenticated
    decreases |events|
  {
    if events != [] {
      assert !IsAuthenticate(events[0]);
      OnlyAuthenticateSetsFlag(Step(s, events[0]), events[1..]);
    }
  }

  predicate IsPrivateRpc(e: Event) {
    e.Rpc? && IsPrivate(e.req)
  }

  /** An unauthenticated client refuses every private request: any number of them
    * send nothing, use no id and change nothing. */
  lemma {:induction false} LockedClientIsInert(s: State, events: seq<Event>)
    requires !s.authenticated
    requires forall i :: 0 <= i < |events| ==> IsPrivateRpc(events[i])
    ensures Run(s, events) == s
    decreases |events|
  {
    if events != [] {
      assert IsPrivateRpc(events[0]);
      assert Step(s, events[0]) == s;
      LockedClientIsInert(s, events[1..]);
    }
  }

  /** The envelopes sent so far carry the ids first, first + 1, ... in order,
    * and the counter stands just past the last of them. */
  ghost predicate NumberedFrom(s: State, first: int) {
    && s.nextId == first + |s.sent|
    && forall i :: 0 <= i < |s.sent| ==> EnvelopeId(s.sent[i]) == Some(first + i)
  }

  lemma StepKeepsNumbering(s: State, e: Event, first: int)
    requires NumberedFrom(s, first)
    ensures NumberedFrom(Step(s, e), first)
  {
  }

  lemma {:induction false} RunKeepsNumbering(s: State, events: seq<Event>, first: int)
    requires NumberedFrom(s, first)
    ensures NumberedFrom(Run(s, events), first)
    decreases |events|
  {
    if events != [] {
      StepKeepsNumbering(s, events[0], first);
      RunKeepsNumbering(Step(s, events[0]), events[1..], first);
    }
  }

  /** From a fresh start, the k-th envelope ever sent carries id k: ids run 1, 2, 3, ...
    * with no gaps and no repeats, and the largest equals the number of requests sent. */
  lemma FreshClientIds(inbound: seq<Json>, events: seq<Event>)
    ensures var t := Run(Init(inbound), events);
      && t.nextId == |t.sent| + 1
      && (forall i :: 0 <= i < |t.sent| ==> EnvelopeId(t.sent[i]) == Some(i + 1))
      && (forall i, j :: 0 <= i < j < |t.sent| ==> EnvelopeId(t.sent[i]) != EnvelopeId(t.sent[j]))
  {
    RunKeepsNumbering(Init(inbound), events, 1);
  }
}
