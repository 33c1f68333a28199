/**
 * JSON-RPC 2.0 request envelopes: what each TradeExecution operation sends.
 * `Build` constructs an envelope; `Decode` reads one back, and the two are
 * proved inverse to each other in both directions.
 */
module Envelope {
  import opened Json
  import opened Outcomes

  const JsonRpcVersion: string := "2.0"

  /** One request per operation of the client, with the arguments it copies. */
  datatype Request =
    | Authenticate(clientId: string, clientSecret: string)
    | GetInstruments(currency: string, kind: string, expired: bool)
    | GetTicker(instrument: string)
    | GetOrderBook(instrument: string)
    | PlaceBuy(instrument: string, amount: Double, price: Double)
    | PlaceSell(instrument: string, amount: Double, price: Double)
    | Cancel(orderId: string)
    | Modify(orderId: string, newPrice: Double, newAmount: Double)
    | GetPositions
    | ViewOpenOrders(currency: string)

  /** The operations that call `ensureAuthenticated` first. */
  predicate IsPrivate(req: Request) {
    req.PlaceBuy? || req.PlaceSell? || req.Cancel? || req.Modify? || req.GetPositions? || req.ViewOpenOrders?
  }

  function MethodName(req: Request): string {
    match req
    case Authenticate(_, _) => "public/auth"
    case GetInstruments(_, _, _) => "public/get_instruments"
    case GetTicker(_) => "public/ticker"
    case GetOrderBook(_) => "public/get_order_book"
    case PlaceBuy(_, _, _) => "private/buy"
    case PlaceSell(_, _, _) => "private/sell"
    case Cancel(_) => "private/cancel"
    case Modify(_, _, _) => "private/edit"
    case GetPositions => "private/get_positions"
    case ViewOpenOrders(_) => "private/get_open_orders_by_currency"
  }

  /** The "params" member. For get_positions the source writes `{}` inside an
    * initializer list, which nlohmann turns into JSON null. */
  function Params(req: Request): Json {
    match req
    case Authenticate(id, secret) =>
      Obj(map["grant_type" := Str("client_credentials"), "client_id" := Str(id), "client_secret" := Str(secret)])
    case GetInstruments(currency, kind, expired) =>
      Obj(map["currency" := Str(currency), "kind" := Str(kind), "expired" := Bool(expired)])
    case GetTicker(instrument) => Obj(map["instrument_name" := Str(instrument)])
    case GetOrderBook(instrument) => Obj(map["instrument_name" := Str(instrument)])
    case PlaceBuy(instrument, amount, price) => OrderParams(instrument, amount, price)
    case PlaceSell(instrument, amount, price) => OrderParams(instrument, amount, price)
    case Cancel(orderId) => Obj(map["order_id" := Str(orderId)])
    case Modify(orderId, newPrice, newAmount) =>
      Obj(map["order_id" := Str(orderId), "new_price" := Num(newPrice),
              "new_amount" := Num(newAmount), "contracts" := Num(newAmount)])
    case GetPositions => Null
    case ViewOpenOrders(currency) => Obj(map["currency" := Str(currency)])
  }

  /** Limit-order parameters, shared by buy and sell. */
  function OrderParams(instrument: string, amount: Double, price: Double): Json {
    Obj(map["instrument_name" := Str(instrument), "amount" := Num(amount),
            "type" := Str("limit"), "price" := Num(price)])
  }

  /** The envelope `{jsonrpc, id, method, params}` sent for `req` under `id`. */
  function Build(id: int, req: Request): (env: Json)
    ensures env.Obj? && EnvelopeId(env) == Some(id)
  {
    Obj(map["jsonrpc" := Str(JsonRpcVersion), "id" := Int(id),
            "method" := Str(MethodName(req)), "params" := Params(req)])
  }

  /** The integer "id" of an envelope, if it has one. */
  function EnvelopeId(env: Json): Option<int> {
    if Contains(env, "id") && Member(env, "id").Int? then Some(Member(env, "id").i) else None
  }

  // ----- Reading an envelope back -----

  predicate HasKeys(j: Json, keys: set<string>) {
    j.Obj? && j.fields.Keys == keys
  }

  function StrAt(j: Json, key: string): Option<string> {
    if Contains(j, key) && Member(j, key).Str? then Some(Member(j, key).s) else None
  }

  function NumAt(j: Json, key: string): Option<Double> {
    if Contains(j, key) && Member(j, key).Num? then Some(Member(j, key).d) else None
  }

  function BoolAt(j: Json, key: string): Option<bool> {
    if Contains(j, key) && Member(j, key).Bool? then Some(Member(j, key).b) else None
  }

  /** The request a method name and its params stand for, if they have
    * exactly the shape the client sends. */
  function DecodeParams(name: string, p: Json): Option<Request> {
    if name == "public/auth" then
      if HasKeys(p, {"grant_type", "client_id", "client_secret"}) && Member(p, "grant_type") == Str("client_credentials")
         && StrAt(p, "client_id").Some? && StrAt(p, "client_secret").Some?
      then Some(Authenticate(StrAt(p, "client_id").value, StrAt(p, "client_secret").value))
      else None
    else if name == "public/get_instruments" then
      if HasKeys(p, {"currency", "kind", "expired"}) && StrAt(p, "currency").Some? && StrAt(p, "kind").Some?
         && BoolAt(p, "expired").Some?
      then Some(GetInstruments(StrAt(p, "currency").value, StrAt(p, "kind").value, BoolAt(p, "expired").value))
      else None
    else if name == "public/ticker" || name == "public/get_order_book" then
      if HasKeys(p, {"instrument_name"}) && StrAt(p, "instrument_name").Some? then
        var instrument := StrAt(p, "instrument_name").value;
        Some(if name == "public/ticker" then GetTicker(instrument) else GetOrderBook(instrument))
      else None
    else if name == "private/buy" || name == "private/sell" then
      if HasKeys(p, {"instrument_name", "amount", "type", "price"}) && Member(p, "type") == Str("limit")
         && StrAt(p, "instrument_name").Some? && NumAt(p, "amount").Some? && NumAt(p, "price").Some?
      then
        var instrument, amount, price := StrAt(p, "instrument_name").value, NumAt(p, "amount").value, NumAt(p, "price").value;
        Some(if name == "private/buy" then PlaceBuy(instrument, amount, price) else PlaceSell(instrument, amount, price))
      else None
    else if name == "private/cancel" then
      if HasKeys(p, {"order_id"}) && StrAt(p, "order_id").Some? then Some(Cancel(StrAt(p, "order_id").value)) else None
    else if name == "private/edit" then
      if HasKeys(p, {"order_id", "new_price", "new_amount", "contracts"}) && StrAt(p, "order_id").Some?
         && NumAt(p, "new_price").Some? && NumAt(p, "new_amount").Some? && Member(p, "contracts") == Member(p, "new_amount")
      then Some(Modify(StrAt(p, "order_id").value, NumAt(p, "new_price").value, NumAt(p, "new_amount").value))
      else None
    else if name == "private/get_positions" then
      if p == Null then Some(GetPositions) else None
    else if name == "private/get_open_orders_by_currency" then
      if HasKeys(p, {"currency"}) && StrAt(p, "currency").Some? then Some(ViewOpenOrders(StrAt(p, "currency").value)) else None
    else None
  }

  /** The id and request an envelope carries, if it is one the client could have sent. */
  function Decode(env: Json): Option<(int, Request)> {
    if HasKeys(env, {"jsonrpc", "id", "method", "params"}) && Member(env, "jsonrpc") == Str(JsonRpcVersion)
       && EnvelopeId(env).Some? && Member(env, "method").Str?
    then
      match DecodeParams(Member(env, "method").s, Member(env, "params"))
      case None => None
      case Some(req) => Some((EnvelopeId(env).value, req))
    else None
  }

  // ----- Properties of the envelopes -----

  /** Reading back a built envelope gives its id and request: the envelope
    * carries the fixed version, the method name and exactly the listed params. */
  lemma DecodeBuild(id: int, req: Request)
    ensures Decode(Build(id, req)) == Some((id, req))
  {
    var env := Build(id, req);
    assert env.fields.Keys == {"jsonrpc", "id", "method", "params"};
    var p := Params(req);
    match req
    case Authenticate(_, _) =>
      assert p.fields.Keys == {"grant_type", "client_id", "client_secret"};
    case GetInstruments(_, _, _) =>
      assert p.fields.Keys == {"currency", "kind", "expired"};
    case GetTicker(_) =>
      assert p.fields.Keys == {"instrument_name"};
    case GetOrderBook(_) =>
      assert p.fields.Keys == {"instrument_name"};
    case PlaceBuy(_, _, _) =>
      assert p.fields.Keys == {"instrument_name", "amount", "type", "price"};
    case PlaceSell(_, _, _) =>
      assert p.fields.Keys == {"instrument_name", "amount", "type", "price"};
    case Cancel(_) =>
      assert p.fields.Keys == {"order_id"};
    case Modify(_, _, _) =>
      assert p.fields.Keys == {"order_id", "new_price", "new_amount", "contracts"};
    case GetPositions =>
    case ViewOpenOrders(_) =>
      assert p.fields.Keys == {"currency"};
  }

  /** Every envelope `Decode` accepts is exactly the one `Build` makes from what it
    * reads: no other JSON value passes for a client request. */
  lemma BuildDecode(env: Json, id: int, req: Request)
    requires Decode(env) == Some((id, req))
    ensures Build(id, req) == env
  {
    var p := Member(env, "params");
    assert DecodeParams(Member(env, "method").s, p) == Some(req);
    ParamsDecode(Member(env, "method").s, p, req);
    var b := Build(id, req);
    assert b.fields.Keys == env.fields.Keys;
    assert forall k :: k in b.fields ==> b.fields[k] == env.fields[k];
  }

  /** What `DecodeParams` accepts is the method name and params of the request it returns. */
  lemma ParamsDecode(name: string, p: Json, req: Request)
    requires DecodeParams(name, p) == Some(req)
    ensures name == MethodName(req) && p == Params(req)
  {
    if name == "public/auth" {
      SameObject(p, Params(req));
    } else if name == "public/get_instruments" {
      SameObject(p, Params(req));
    } else if name == "public/ticker" || name == "public/get_order_book" {
      SameObject(p, Params(req));
    } else if name == "private/buy" || name == "private/sell" {
      SameObject(p, Params(req));
    } else if name == "private/cancel" {
      SameObject(p, Params(req));
    } else if name == "private/edit" {
      SameObject(p, Params(req));
    } else if name == "private/get_positions" {
    } else {
      SameObject(p, Params(req));
    }
  }

  /** Two objects with the same keys and the same value at each key are equal. */
  lemma SameObject(a: Json, b: Json)
    requires a.Obj? && b.Obj? && a.fields.Keys == b.fields.Keys
    requires forall k :: k in a.fields ==> a.fields[k] == b.fields[k]
    ensures a == b
  {
  }

  /** Different (id, request) pairs never produce the same envelope. */
  lemma BuildInjective(id1: int, req1: Request, id2: int, req2: Request)
    requires Build(id1, req1) == Build(id2, req2)
    ensures id1 == id2 && req1 == req2
  {
    DecodeBuild(id1, req1);
    DecodeBuild(id2, req2);
  }

  /** Exactly the private operations use a "private/" method name. */
  lemma PrivateMethodNames(req: Request)
    ensures IsPrivate(req) <==> "private/" <= MethodName(req)
    ensures !IsPrivate(req) <==> "public/" <= MethodName(req)
  {
    var name := MethodName(req);
    // "private/" and "public/" already differ at their second character.
    if IsPrivate(req) {
      assert name[..8] == "private/";
      PrefixBySlice("private/", name);
      assert !("public/" <= name) by { NotPrefixAtSecondChar("public/", name); }
    } else {
      assert name[..7] == "public/";
      PrefixBySlice("public/", name);
      assert !("private/" <= name) by { NotPrefixAtSecondChar("private/", name); }
    }
  }

  lemma PrefixBySlice(prefix: string, name: string)
    requires |prefix| <= |name| && name[..|prefix|] == prefix
    ensures prefix <= name
  {
  }

  lemma NotPrefixAtSecondChar(prefix: string, name: string)
    requires |prefix| > 1 && |name| > 1 && prefix[1] != name[1]
    ensures !(prefix <= name)
  {
  }

  /** A buy and a sell with the same arguments differ only in the method name. */
  lemma BuyAndSellDifferOnlyInMethod(id: int, instrument: string, amount: Double, price: Double)
    ensures Build(id, PlaceBuy(instrument, amount, price)).fields - {"method"}
         == Build(id, PlaceSell(instrument, amount, price)).fields - {"method"}
    ensures Member(Build(id, PlaceBuy(instrument, amount, price)), "method") == Str("private/buy")
    ensures Member(Build(id, PlaceSell(instrument, amount, price)), "method") == Str("private/sell")
    ensures Member(Member(Build(id, PlaceBuy(instrument, amount, price)), "params"), "type") == Str("limit")
  {
  }

  /** An edit sends the new amount twice: as "new_amount" and as "contracts". */
  lemma ModifyEchoesAmount(orderId: string, newPrice: Double, newAmount: Double)
    ensures var p := Params(Modify(orderId, newPrice, newAmount));
      Contains(p, "contracts") && Contains(p, "new_amount")
      && Member(p, "contracts") == Member(p, "new_amount") == Num(newAmount)
  {
  }
}
