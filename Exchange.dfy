/** The Bybit V5 REST client: how exchange replies are shaped into the
    position and price values the controllers use, the canonical query and
    signing strings, and the bounded retry policy around every HTTP call.
    The HTTP session is an oracle: `attempt(i)` is what the i-th try of a
    request produced. */
module Exchange {
  import opened Wrappers
  import opened Json
  import opened Text

  /** Python's `float(str)`: the number a string denotes, or None where
      `float` raises ValueError. */
  type FloatParser = string -> Option<real>

  // ---------------------------------------------------------------------
  // safe_float_conversion
  // ---------------------------------------------------------------------

  /** Converts a decoded JSON value to a float, giving 0.0 for None, the
      empty string and anything `float` refuses. Booleans convert as the
      integers 1 and 0. */
  function SafeFloat(v: Value, parse: FloatParser): (r: real)
    ensures v == Null || v == Str("") ==> r == 0.0
    ensures v.Num? ==> r == v.n
    ensures v.Str? && v.s != "" ==> r == (if parse(v.s).Some? then parse(v.s).value else 0.0)
    ensures v.Arr? || v.Obj? ==> r == 0.0
  {
    match v
    case Null => 0.0
    case Bool(b) => if b then 1.0 else 0.0
    case Num(n) => n
    case Str(s) => if s == "" then 0.0 else (match parse(s) case Some(x) => x case None => 0.0)
    case _ => 0.0
  }

  /** A string `float` rejects converts to 0.0, so the conversion never raises. */
  lemma SafeFloatOfUnparsable(s: string, parse: FloatParser)
    requires parse(s) == None
    ensures SafeFloat(Str(s), parse) == 0.0
  {
  }

  // ---------------------------------------------------------------------
  // get_positions shaping
  // ---------------------------------------------------------------------

  /** One live position as `get_positions` reports it. `side` is whatever
      the exchange put under "side" ("Buy" or "Sell", possibly missing). */
  datatype Position = Position(
    size: real,
    side: Value,
    entryPrice: real,
    leverage: real,
    unrealizedPnl: real,
    takeProfit: real,
    stopLoss: real,
    positionType: string)

  /** `d.get(key, default)` on a dict. */
  function FieldOr(d: Value, key: string, default: Value): Value
    requires d.Obj?
  {
    if key in d.fields then d.fields[key] else default
  }

  /** `safe_float_conversion(pos.get("size", 0))`. */
  function EntrySize(pos: Value, parse: FloatParser): real
    requires pos.Obj?
  {
    SafeFloat(FieldOr(pos, "size", Num(0.0)), parse)
  }

  /** The result dict built from the first active list entry. */
  function ShapeEntry(pos: Value, parse: FloatParser): (p: Position)
    requires pos.Obj?
    ensures p.size == EntrySize(pos, parse)
    ensures p.side == FieldOr(pos, "side", Null)
    ensures p.entryPrice == SafeFloat(FieldOr(pos, "avgPrice", Num(0.0)), parse)
    ensures p.leverage == SafeFloat(FieldOr(pos, "leverage", Num(1.0)), parse)
    ensures p.unrealizedPnl == SafeFloat(FieldOr(pos, "unrealisedPnl", Num(0.0)), parse)
    ensures p.takeProfit == SafeFloat(FieldOr(pos, "takeProfit", Num(0.0)), parse)
    ensures p.stopLoss == SafeFloat(FieldOr(pos, "stopLoss", Num(0.0)), parse)
    ensures p.positionType == "long" <==> p.side == Str("Buy")
    ensures p.positionType == "long" || p.positionType == "short"
  {
    var side := FieldOr(pos, "side", Null);
    Position(
      EntrySize(pos, parse),
      side,
      SafeFloat(FieldOr(pos, "avgPrice", Num(0.0)), parse),
      SafeFloat(FieldOr(pos, "leverage", Num(1.0)), parse),
      SafeFloat(FieldOr(pos, "unrealisedPnl", Num(0.0)), parse),
      SafeFloat(FieldOr(pos, "takeProfit", Num(0.0)), parse),
      SafeFloat(FieldOr(pos, "stopLoss", Num(0.0)), parse),
      if side == Str("Buy") then "long" else "short")
  }

  /** Iterating `positions` and calling `.get` on each element: a list
      yields its items; an empty dict or string yields nothing; a non-empty
      dict or string yields strings, whose missing `.get` raises; any other
      value is not iterable. */
  function ListItems(v: Value): (r: Result<seq<Value>>)
    ensures v.Arr? ==> r == Ok(v.items)
    ensures r.Ok? ==> v.Arr? || r == Ok([])
  {
    match v
    case Arr(xs) => Ok(xs)
    case Obj(m) => if m == map[] then Ok([]) else Raised("AttributeError: 'str' object has no attribute 'get'")
    case Str(s) => if s == "" then Ok([]) else Raised("AttributeError: 'str' object has no attribute 'get'")
    case _ => Raised("TypeError: object is not iterable")
  }

  /** The list comprehension keeping the entries whose size converts to a
      positive float; it looks at every entry, so one entry that is not a
      dict raises. */
  function ActivePositions(ps: seq<Value>, parse: FloatParser): (r: Result<seq<Value>>)
    ensures r.Ok? <==> forall i :: 0 <= i < |ps| ==> ps[i].Obj?
    ensures r.Ok? ==> forall x :: x in r.value ==> x in ps && x.Obj? && EntrySize(x, parse) > 0.0
    ensures r.Ok? ==> forall i :: 0 <= i < |ps| && EntrySize(ps[i], parse) > 0.0 ==> ps[i] in r.value
  {
    if ps == [] then Ok([])
    else if !ps[0].Obj? then Raised("AttributeError: object has no attribute 'get'")
    else
      var rest := ActivePositions(ps[1..], parse);
      assert forall i :: 1 <= i < |ps| ==> ps[i] == ps[1..][i - 1];
      match rest
      case Raised(m) => Raised(m)
      case Ok(tail) => if EntrySize(ps[0], parse) > 0.0 then Ok([ps[0]] + tail) else Ok(tail)
  }

  /** The entry `get_positions` reports is the first list entry with a
      positive size. */
  lemma {:induction false} FirstActive(ps: seq<Value>, parse: FloatParser)
    requires ActivePositions(ps, parse).Ok? && ActivePositions(ps, parse).value != []
    ensures exists j :: 0 <= j < |ps| && ActivePositions(ps, parse).value[0] == ps[j] &&
                        EntrySize(ps[j], parse) > 0.0 &&
                        forall i :: 0 <= i < j ==> EntrySize(ps[i], parse) <= 0.0
  {
    if EntrySize(ps[0], parse) <= 0.0 {
      var tail := ps[1..];
      assert ActivePositions(ps, parse) == ActivePositions(tail, parse);
      FirstActive(tail, parse);
      var j :| 0 <= j < |tail| && ActivePositions(tail, parse).value[0] == tail[j] &&
                EntrySize(tail[j], parse) > 0.0 &&
                forall i :: 0 <= i < j ==> EntrySize(tail[i], parse) <= 0.0;
      assert forall i :: 0 <= i < j + 1 ==> EntrySize(ps[i], parse) <= 0.0 by {
        forall i | 0 <= i < j + 1 ensures EntrySize(ps[i], parse) <= 0.0 {
          if i > 0 { assert ps[i] == tail[i - 1]; }
        }
      }
      assert ps[j + 1] == tail[j];
    } else {
      assert ActivePositions(ps, parse).value[0] == ps[0];
    }
  }

  /** `response.get("retCode") == 0`. */
  predicate RetCodeIsZero(response: Value)
  {
    response.Obj? && "retCode" in response.fields && EqualsZero(response.fields["retCode"])
  }

  /** A successful position reply: a dict whose `result.list` is a list of
      dicts. */
  predicate PositionList(response: Value, items: seq<Value>)
  {
    response.Obj? && "result" in response.fields &&
    response.fields["result"].Obj? && "list" in response.fields["result"].fields &&
    response.fields["result"].fields["list"] == Arr(items) &&
    forall i :: 0 <= i < |items| ==> items[i].Obj?
  }

  /** `get_positions` after the request returned: `None` is the dict
      `{exists: False, size: 0, side: None, position_type: None}`. */
  function ShapePositions(response: Value, parse: FloatParser): (r: Result<Option<Position>>)
    ensures !response.Obj? ==> r.Raised?
    ensures response.Obj? && !RetCodeIsZero(response) ==> r == Ok(None)
    ensures r.Ok? && r.value.Some? ==> RetCodeIsZero(response)
  {
    if !response.Obj? then Raised("AttributeError: object has no attribute 'get'")
    else if !EqualsZero(FieldOr(response, "retCode", Null)) then Ok(None)
    else
      var result := FieldOr(response, "result", Obj(map[]));
      if !result.Obj? then Raised("AttributeError: object has no attribute 'get'")
      else
        match ListItems(FieldOr(result, "list", Arr([])))
        case Raised(m) => Raised(m)
        case Ok(positions) =>
          match ActivePositions(positions, parse)
          case Raised(m) => Raised(m)
          case Ok(active) =>
            if active == [] then Ok(None)
            else
              FirstActive(positions, parse);
              Ok(Some(ShapeEntry(active[0], parse)))
  }

  /** On a well-shaped reply the position query does not raise; it reports
      a position exactly when the code is 0 and some entry has a positive
      size, and then it reports the first such entry. */
  lemma ShapePositionsOfList(response: Value, items: seq<Value>, parse: FloatParser)
    requires PositionList(response, items)
    ensures var r := ShapePositions(response, parse);
            r.Ok? &&
            (r.value.Some? <==> RetCodeIsZero(response) && exists i :: 0 <= i < |items| && EntrySize(items[i], parse) > 0.0) &&
            (r.value.Some? ==>
               exists j :: 0 <= j < |items| && r.value.value == ShapeEntry(items[j], parse) &&
                           EntrySize(items[j], parse) > 0.0 &&
                           forall i :: 0 <= i < j ==> EntrySize(items[i], parse) <= 0.0)
  {
    if RetCodeIsZero(response) {
      var result := FieldOr(response, "result", Obj(map[]));
      assert result == response.fields["result"];
      assert FieldOr(result, "list", Arr([])) == Arr(items);
      var active := ActivePositions(items, parse);
      assert active.Ok?;
      if active.value != [] {
        FirstActive(items, parse);
      }
    }
  }

  // ---------------------------------------------------------------------
  // get_current_price
  // ---------------------------------------------------------------------

  const PriceLookupFailed: string := "Exception: current price lookup failed"

  /** `get_current_price` after the request returned: the first ticker's
      `lastPrice`, and an exception unless the code is 0 and the ticker list
      is non-empty. */
  function ShapePrice(response: Value, parse: FloatParser): (r: Result<real>)
    ensures response.Obj? && !RetCodeIsZero(response) ==> r == Raised(PriceLookupFailed)
    ensures r.Ok? ==> RetCodeIsZero(response) && FieldOr(response, "result", Obj(map[])).Obj?
    ensures r.Ok? ==> var list := FieldOr(FieldOr(response, "result", Obj(map[])), "list", Arr([]));
                      list.Arr? && list.items != [] && list.items[0].Obj? &&
                      r.value == SafeFloat(FieldOr(list.items[0], "lastPrice", Num(0.0)), parse)
    ensures forall items :: PositionList(response, items) && RetCodeIsZero(response) ==>
              (r.Ok? <==> items != [])
  {
    if !response.Obj? then Raised("AttributeError: object has no attribute 'get'")
    else if !EqualsZero(FieldOr(response, "retCode", Null)) then Raised(PriceLookupFailed)
    else
      var result := FieldOr(response, "result", Obj(map[]));
      if !result.Obj? then Raised("AttributeError: object has no attribute 'get'")
      else
        var tickers := FieldOr(result, "list", Arr([]));
        if !Truthy(tickers) then Raised(PriceLookupFailed)
        else if !tickers.Arr? then Raised("TypeError: ticker entry has no 'get'")
        else if !tickers.items[0].Obj? then Raised("AttributeError: object has no attribute 'get'")
        else Ok(SafeFloat(FieldOr(tickers.items[0], "lastPrice", Num(0.0)), parse))
  }

  // ---------------------------------------------------------------------
  // Request parameters and signing
  // ---------------------------------------------------------------------

  const KlineLimitCap: int := 1000
  const OrderBookLimitCap: int := 100
  const RecvWindow: string := "5000"

  /** `min(limit, 1000)` for get_kline_data. */
  function KlineLimit(limit: int): (r: int)
    ensures r <= KlineLimitCap && r <= limit
    ensures r == limit || r == KlineLimitCap
  {
    if limit < KlineLimitCap then limit else KlineLimitCap
  }

  /** `min(limit, 100)` for get_order_book. */
  function OrderBookLimit(limit: int): (r: int)
    ensures r <= OrderBookLimitCap && r <= limit
    ensures r == limit || r == OrderBookLimitCap
  {
    if limit < OrderBookLimitCap then limit else OrderBookLimitCap
  }

  /** Request parameters in dict order, values already rendered by `str`. */
  type Params = seq<(string, string)>

  predicate KeysAscending(ps: Params)
  {
    forall i :: 0 <= i < |ps| - 1 ==> StrLe(ps[i].0, ps[i + 1].0)
  }

  function InsertByKey(p: (string, string), ps: Params): (r: Params)
    requires KeysAscending(ps)
    ensures |r| == |ps| + 1
    ensures multiset(r) == multiset(ps) + multiset{p}
    ensures KeysAscending(r)
    ensures r[0] == p || (ps != [] && r[0] == ps[0])
  {
    if ps == [] then [p]
    else if StrLe(p.0, ps[0].0) then [p] + ps
    else
      StrLeTotal(p.0, ps[0].0);
      var rest := InsertByKey(p, ps[1..]);
      assert ps == [ps[0]] + ps[1..];
      [ps[0]] + rest
  }

  /** The parameters ordered by key, as `sorted(params.keys())` visits them. */
  function SortByKey(ps: Params): (r: Params)
    ensures multiset(r) == multiset(ps)
    ensures KeysAscending(r)
  {
    if ps == [] then []
    else
      assert ps == [ps[0]] + ps[1..];
      InsertByKey(ps[0], SortByKey(ps[1..]))
  }

  /** "k1=v1&k2=v2&..." in the given order. */
  function JoinPairs(ps: Params): string
  {
    if ps == [] then ""
    else if |ps| == 1 then ps[0].0 + "=" + ps[0].1
    else ps[0].0 + "=" + ps[0].1 + "&" + JoinPairs(ps[1..])
  }

  /** The query string that is signed for an authenticated GET. */
  function QueryString(ps: Params): (q: string)
    ensures exists sorted: Params :: multiset(sorted) == multiset(ps) && KeysAscending(sorted) && q == JoinPairs(sorted)
  {
    var sorted := SortByKey(ps);
    JoinPairs(sorted)
  }

  /** Two parameters with strictly ordered keys are queried in key order,
      whichever order the dict holds them in. */
  lemma TwoParamsQuery(a: (string, string), b: (string, string))
    requires StrLe(a.0, b.0) && !StrLe(b.0, a.0)
    ensures QueryString([a, b]) == JoinPairs([a, b]) && QueryString([b, a]) == JoinPairs([a, b])
  {
    assert SortByKey([b]) == [b];
    assert SortByKey([a]) == [a];
    assert [a, b][1..] == [b];
    assert [b, a][1..] == [a];
    assert SortByKey([a, b]) == [a, b];
    assert SortByKey([b, a]) == [a, b];
  }

  /** The only signed GET (get_positions) sends category and symbol; its
      query string is fixed whatever order the dict lists them in. */
  lemma PositionQueryString(symbol: string)
    ensures QueryString([("category", "linear"), ("symbol", symbol)]) == "category=linear&symbol=" + symbol
    ensures QueryString([("symbol", symbol), ("category", "linear")]) == "category=linear&symbol=" + symbol
  {
    var c, y := ("category", "linear"), ("symbol", symbol);
    assert c.0[0] == 'c' && y.0[0] == 's';
    FirstCharOrders(c.0, y.0);
    TwoParamsQuery(c, y);
    JoinCategorySymbol(symbol);
  }

  /** The rendering of the two position-query parameters in key order. */
  lemma JoinCategorySymbol(symbol: string)
    ensures JoinPairs([("category", "linear"), ("symbol", symbol)]) == "category=linear&symbol=" + symbol
  {
    var ps := [("category", "linear"), ("symbol", symbol)];
    assert ps[1..] == [("symbol", symbol)];
    assert JoinPairs(ps[1..]) == "symbol" + "=" + symbol;
    assert JoinPairs(ps) == "category" + "=" + "linear" + "&" + ("symbol" + "=" + symbol);
    assert "category" + "=" + "linear" + "&" + ("symbol" + "=" + symbol) == ("category" + "=" + "linear" + "&" + "symbol" + "=") + symbol;
  }

  /** The string whose HMAC-SHA256 becomes the X-BAPI-SIGN header of a GET:
      timestamp (ms), API key, receive window, query string. A POST signs
      the JSON body in place of the query string. */
  function SignString(timestampMs: nat, apiKey: string, payload: string): (s: string)
    ensures |s| == |NatToString(timestampMs)| + |apiKey| + |RecvWindow| + |payload|
    ensures s[|NatToString(timestampMs)| + |apiKey| + |RecvWindow|..] == payload
    ensures s[..|NatToString(timestampMs)|] == NatToString(timestampMs)
    ensures s[|NatToString(timestampMs)|..|NatToString(timestampMs)| + |apiKey|] == apiKey
    ensures s[|NatToString(timestampMs)| + |apiKey|..|NatToString(timestampMs)| + |apiKey| + |RecvWindow|] == RecvWindow
  {
    var ts := NatToString(timestampMs);
    var s := ts + apiKey + RecvWindow + payload;
    assert s[..|ts|] == ts;
    assert s[|ts|..|ts| + |apiKey|] == apiKey;
    assert s[|ts| + |apiKey|..|ts| + |apiKey| + |RecvWindow|] == RecvWindow;
    s
  }

  /** The signed text starts with the millisecond timestamp in decimal, and
      that prefix reads back as the timestamp the header carries. */
  lemma SignStringTimestampReadsBack(timestampMs: nat, apiKey: string, payload: string)
    ensures var s := SignString(timestampMs, apiKey, payload);
            var n := |NatToString(timestampMs)|;
            (forall i :: 0 <= i < n ==> IsDigit(s[i])) && DigitsValue(s[..n]) == timestampMs
  {
    NatToStringRoundTrip(timestampMs);
  }

  /** Different query strings under the same timestamp and key are signed
      as different strings. */
  lemma SignStringSeparatesPayloads(timestampMs: nat, apiKey: string, p1: string, p2: string)
    requires p1 != p2
    ensures SignString(timestampMs, apiKey, p1) != SignString(timestampMs, apiKey, p2)
  {
    var n := |NatToString(timestampMs)| + |apiKey| + |RecvWindow|;
    assert SignString(timestampMs, apiKey, p1)[n..] == p1;
    assert SignString(timestampMs, apiKey, p2)[n..] == p2;
  }

  // ---------------------------------------------------------------------
  // Retry policy (_send_get_request, _send_post_request)
  // ---------------------------------------------------------------------

  const MaxRetries: nat := 3

  /** What one try of `session.get`/`session.post` produced: the call
      raised, or a response arrived with a status code, a body text and the
      outcome of `response.json()`. */
  datatype Attempt =
    | ConnectionFailed(error: string)
    | Answered(status: nat, text: string, body: Result<Value>)

  /** The outcome of a whole request: the JSON of the first good reply and
      how many tries were made, the exception raised after the last try,
      or the "maximum retries exceeded" exception after the loop. */
  datatype Reply =
    | Returned(json: Value, attempts: nat)
    | Failed(error: string, attempts: nat)
    | Exhausted

  predicate Succeeds(a: Attempt)
  {
    a.Answered? && a.status == 200 && a.body.Ok?
  }

  /** The exception a failed try raises: the connection error, the
      non-200 message, or the JSON decoding error. */
  function FailureMessage(a: Attempt): string
    requires !Succeeds(a)
  {
    match a
    case ConnectionFailed(e) => e
    case Answered(status, text, body) =>
      if status != 200 then "Exception: API request failed: " + NatToString(status) + " - " + text
      else body.message
  }

  /** The request from try `retry` on. */
  function RetryFrom(attempt: nat -> Attempt, retry: nat): Reply
    decreases MaxRetries - retry
  {
    if retry >= MaxRetries then Exhausted
    else if Succeeds(attempt(retry)) then Returned(attempt(retry).body.value, retry + 1)
    else if retry < MaxRetries - 1 then RetryFrom(attempt, retry + 1)
    else Failed(FailureMessage(attempt(retry)), retry + 1)
  }

  /** The request loop; `sleeps` counts the one-second waits. */
  method SendRequest(attempt: nat -> Attempt) returns (reply: Reply, sleeps: nat)
    ensures reply == RetryFrom(attempt, 0)
    ensures reply != Exhausted ==> sleeps == reply.attempts - 1
  {
    sleeps := 0;
    for retry := 0 to MaxRetries
      invariant sleeps == retry
      invariant RetryFrom(attempt, retry) == RetryFrom(attempt, 0)
    {
      var a := attempt(retry);
      if Succeeds(a) {
        return Returned(a.body.value, retry + 1), sleeps;
      }
      if retry < MaxRetries - 1 {
        sleeps := sleeps + 1;
        continue;
      }
      return Failed(FailureMessage(a), retry + 1), sleeps;
    }
    reply := Exhausted;
  }

  /** The policy: never more than three tries, the first good reply is
      returned, and the request fails only after three failed tries with
      the last try's exception. The final "maximum retries" raise is
      unreachable. */
  lemma {:induction false} RetryPolicy(attempt: nat -> Attempt)
    ensures RetryFrom(attempt, 0) != Exhausted
    ensures 1 <= RetryFrom(attempt, 0).attempts <= MaxRetries
    ensures RetryFrom(attempt, 0).Returned? <==> exists i :: 0 <= i < MaxRetries && Succeeds(attempt(i))
    ensures RetryFrom(attempt, 0).Returned? ==>
              var n := RetryFrom(attempt, 0).attempts;
              Succeeds(attempt(n - 1)) && RetryFrom(attempt, 0).json == attempt(n - 1).body.value &&
              forall i :: 0 <= i < n - 1 ==> !Succeeds(attempt(i))
    ensures RetryFrom(attempt, 0).Failed? ==>
              RetryFrom(attempt, 0).attempts == MaxRetries &&
              (forall i :: 0 <= i < MaxRetries ==> !Succeeds(attempt(i))) &&
              RetryFrom(attempt, 0).error == FailureMessage(attempt(MaxRetries - 1))
  {
    assert RetryFrom(attempt, 0) == (if Succeeds(attempt(0)) then Returned(attempt(0).body.value, 1) else RetryFrom(attempt, 1));
    assert RetryFrom(attempt, 1) == (if Succeeds(attempt(1)) then Returned(attempt(1).body.value, 2) else RetryFrom(attempt, 2));
    assert RetryFrom(attempt, 2) == (if Succeeds(attempt(2)) then Returned(attempt(2).body.value, 3) else Failed(FailureMessage(attempt(2)), 3));
  }

  // ---------------------------------------------------------------------
  // The composed calls
  // ---------------------------------------------------------------------

  /** `get_positions`: the signed request, whose exception propagates,
      followed by the shaping. */
  function GetPositions(attempt: nat -> Attempt, parse: FloatParser): (r: Result<Option<Position>>)
    ensures RetryFrom(attempt, 0).Failed? ==> r == Raised(RetryFrom(attempt, 0).error)
    ensures RetryFrom(attempt, 0).Returned? ==> r == ShapePositions(RetryFrom(attempt, 0).json, parse)
  {
    RetryPolicy(attempt);
    match RetryFrom(attempt, 0)
    case Returned(json, _) => ShapePositions(json, parse)
    case Failed(e, _) => Raised(e)
    case Exhausted => Raised("Exception: API request failed: maximum retries exceeded")
  }

  /** `get_current_price`: the request followed by the price rule. */
  function GetCurrentPrice(attempt: nat -> Attempt, parse: FloatParser): (r: Result<real>)
    ensures RetryFrom(attempt, 0).Failed? ==> r == Raised(RetryFrom(attempt, 0).error)
    ensures RetryFrom(attempt, 0).Returned? ==> r == ShapePrice(RetryFrom(attempt, 0).json, parse)
  {
    RetryPolicy(attempt);
    match RetryFrom(attempt, 0)
    case Returned(json, _) => ShapePrice(json, parse)
    case Failed(e, _) => Raised(e)
    case Exhausted => Raised("Exception: API request failed: maximum retries exceeded")
  }
}
