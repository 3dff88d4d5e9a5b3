/** The market-data collector of data_collector.py: turning a Bybit kline
    reply into candles, picking the latest candle of a timeframe, the
    market-data call as coded, and the trading summary handed to the
    advisor. */
module Market {
  import opened Wrappers
  import opened Json
  import opened Indicators
  import Exchange

  /** Python's `int(x)` and `float(x)` on a kline field (None where they
      raise ValueError) and the UTC `time.strftime('%Y-%m-%dT%H:%M:%SZ')`
      rendering of a second count. */
  datatype Converters = Converters(
    toInt: Value -> Option<int>,
    toFloat: Value -> Option<real>,
    formatUtc: int -> string)

  // ---------------------------------------------------------------------
  // _process_kline_data
  // ---------------------------------------------------------------------

  /** Rows need timestamp, open, high, low, close and volume. */
  const RowFields: nat := 6

  /** The one-character strings that indexing or iterating a string yields. */
  function Chars(s: string): (r: seq<Value>)
    ensures |r| == |s|
  {
    seq(|s|, i requires 0 <= i < |s| => Str([s[i]]))
  }

  /** What `len(x)`, `x[i]` and `reversed(x)` see in a value Python indexes
      by position: a list's items, or a string's characters. A dict has a
      length but is indexed by key; other values have no length. */
  function Cells(x: Value): (r: Option<seq<Value>>)
    ensures r.Some? <==> x.Arr? || x.Str?
    ensures x.Arr? ==> r == Some(x.items)
    ensures x.Str? ==> r == Some(Chars(x.s))
  {
    match x
    case Arr(xs) => Some(xs)
    case Str(s) => Some(Chars(s))
    case _ => None
  }

  /** A row the loop converts: a list or a string of at least six cells. */
  predicate LongRow(row: Value)
  {
    Cells(row).Some? && |Cells(row).value| >= RowFields
  }

  /** The kline timestamp of a long row in milliseconds, when `int` accepts it. */
  function Millis(row: Value, cv: Converters): Option<int>
  {
    if LongRow(row) then cv.toInt(Cells(row).value[0]) else None
  }

  /** One long row as a candle. `int(...) // 1000` is floor division, which
      on a positive divisor is Dafny's `/`. */
  function RowToChart(row: Value, cv: Converters): (r: Result<Chart>)
    requires LongRow(row)
    ensures r.Ok? ==> Millis(row, cv).Some? && r.value.timestamp == Millis(row, cv).value / 1000
    ensures r.Ok? ==> r.value.rsi == None && r.value.atr == None
    ensures r.Ok? ==> r.value.datetime == Some(cv.formatUtc(r.value.timestamp))
    ensures r.Ok? <==> cv.toInt(Cells(row).value[0]).Some? &&
                       forall f :: 1 <= f < RowFields ==> cv.toFloat(Cells(row).value[f]).Some?
    ensures r.Ok? ==> var xs := Cells(row).value;
                      r.value.open == cv.toFloat(xs[1]).value && r.value.high == cv.toFloat(xs[2]).value &&
                      r.value.low == cv.toFloat(xs[3]).value && r.value.close == cv.toFloat(xs[4]).value &&
                      r.value.volume == cv.toFloat(xs[5]).value
  {
    var xs := Cells(row).value;
    match cv.toInt(xs[0])
    case None => Raised("ValueError: invalid literal for int()")
    case Some(ms) =>
      var ts := ms / 1000;
      if cv.toFloat(xs[1]).None? || cv.toFloat(xs[2]).None? || cv.toFloat(xs[3]).None? ||
         cv.toFloat(xs[4]).None? || cv.toFloat(xs[5]).None?
      then Raised("ValueError: could not convert string to float")
      else
        Ok(Chart(ts, cv.toFloat(xs[1]).value, cv.toFloat(xs[2]).value, cv.toFloat(xs[3]).value,
                 cv.toFloat(xs[4]).value, cv.toFloat(xs[5]).value, Some(cv.formatUtc(ts)), None, None))
  }

  /** What one iteration does with a row: a list or string shorter than six
      is skipped and a longer one converted; a dict shorter than six is
      skipped, while a longer one raises KeyError at `row[0]`; any other
      value has no `len` and raises TypeError. */
  function RowStep(row: Value, cv: Converters): (r: Result<Option<Chart>>)
    ensures r == Ok(None) ==> !LongRow(row)
    ensures r.Ok? && r.value.Some? ==> LongRow(row)
  {
    if Cells(row).Some? then
      if |Cells(row).value| < RowFields then Ok(None)
      else match RowToChart(row, cv)
        case Ok(c) => Ok(Some(c))
        case Raised(m) => Raised(m)
    else if row.Obj? then
      if |row.fields| < RowFields then Ok(None) else Raised("KeyError: 0")
    else Raised("TypeError: object has no len()")
  }

  /** A row is skipped exactly when it is a list, string or dict shorter
      than six; it yields a candle exactly when it is long and converts. */
  lemma RowStepMeaning(row: Value, cv: Converters)
    ensures var r := RowStep(row, cv);
            (r == Ok(None) <==> (Cells(row).Some? && |Cells(row).value| < RowFields) ||
                                (row.Obj? && |row.fields| < RowFields)) &&
            (r.Ok? && r.value.Some? <==> LongRow(row) && RowToChart(row, cv).Ok?) &&
            (r.Ok? && r.value.Some? ==> RowToChart(row, cv) == Ok(r.value.value))
  {
  }

  /** Prefixes already emitted candles to the outcome of the rest of the loop. */
  function Prepend(done: seq<Chart>, rest: Result<seq<Chart>>): Result<seq<Chart>>
  {
    match rest
    case Ok(cs) => Ok(done + cs)
    case Raised(m) => Raised(m)
  }

  lemma PrependNothing(rest: Result<seq<Chart>>)
    ensures Prepend([], rest) == rest
  {
    if rest.Ok? {
      assert [] + rest.value == rest.value;
    }
  }

  lemma PrependTwice(done: seq<Chart>, more: seq<Chart>, rest: Result<seq<Chart>>)
    ensures Prepend(done, Prepend(more, rest)) == Prepend(done + more, rest)
  {
    if rest.Ok? {
      assert done + (more + rest.value) == (done + more) + rest.value;
    }
  }

  /** The positions of the long rows among `rows[..n]`, newest (last) first. */
  function LongIndices(rows: seq<Value>, n: nat): (ix: seq<nat>)
    requires n <= |rows|
    ensures forall k :: 0 <= k < |ix| ==> ix[k] < n
  {
    if n == 0 then []
    else if LongRow(rows[n - 1]) then [n - 1] + LongIndices(rows, n - 1)
    else LongIndices(rows, n - 1)
  }

  /** The positions are those of long rows, strictly descending (so each
      long row is used once), and every long row of `rows[..n]` is among them. */
  lemma {:induction false} LongIndicesExact(rows: seq<Value>, n: nat)
    requires n <= |rows|
    ensures var ix := LongIndices(rows, n);
            (forall k :: 0 <= k < |ix| ==> LongRow(rows[ix[k]])) &&
            (forall a, b :: 0 <= a < b < |ix| ==> ix[a] > ix[b]) &&
            (forall j :: 0 <= j < n && LongRow(rows[j]) ==> j in ix)
  {
    if n > 0 {
      LongIndicesExact(rows, n - 1);
    }
  }

  /** `for candle_data in reversed(rows[..n])`: rows are visited from the
      last to the first and the first exception ends the loop. */
  function FromNewest(rows: seq<Value>, n: nat, cv: Converters): (r: Result<seq<Chart>>)
    requires n <= |rows|
    ensures r.Ok? ==> |r.value| == |LongIndices(rows, n)|
  {
    if n == 0 then Ok([])
    else
      var rest := FromNewest(rows, n - 1, cv);
      match RowStep(rows[n - 1], cv)
      case Raised(m) => Raised(m)
      case Ok(None) => rest
      case Ok(Some(c)) => Prepend([c], rest)
  }

  /** The loop raises exactly when some row of `rows[..n]` raises. */
  lemma {:induction false} FromNewestRaises(rows: seq<Value>, n: nat, cv: Converters)
    requires n <= |rows|
    ensures FromNewest(rows, n, cv).Raised? <==> exists j :: 0 <= j < n && RowStep(rows[j], cv).Raised?
  {
    if n > 0 {
      FromNewestRaises(rows, n - 1, cv);
      if RowStep(rows[n - 1], cv).Raised? {
        assert RowStep(rows[n - 1], cv).Raised?;
      } else if FromNewest(rows, n, cv).Raised? {
        var j :| 0 <= j < n - 1 && RowStep(rows[j], cv).Raised?;
        assert 0 <= j < n;
      }
    }
  }

  /** Candle k of the loop is the conversion of the k-th long row counted
      from the end of `rows[..n]`. */
  lemma {:induction false} FromNewestOrigin(rows: seq<Value>, n: nat, cv: Converters, k: nat)
    requires n <= |rows| && FromNewest(rows, n, cv).Ok? && k < |FromNewest(rows, n, cv).value|
    ensures RowStep(rows[LongIndices(rows, n)[k]], cv) == Ok(Some(FromNewest(rows, n, cv).value[k]))
  {
    var step := RowStep(rows[n - 1], cv);
    var rest := FromNewest(rows, n - 1, cv);
    assert step.Ok? && rest.Ok?;
    if step.value.None? {
      assert FromNewest(rows, n, cv) == rest;
      FromNewestOrigin(rows, n - 1, cv, k);
    } else {
      assert LongIndices(rows, n) == [n - 1] + LongIndices(rows, n - 1);
      assert FromNewest(rows, n, cv).value == [step.value.value] + rest.value;
      if k > 0 {
        FromNewestOrigin(rows, n - 1, cv, k - 1);
      }
    }
  }

  /** Walking a string visits one-character strings, which are all too short
      to be rows: a string-valued list gives no candles. */
  lemma {:induction false} CharRowsGiveNoCandles(s: string, n: nat, cv: Converters)
    requires n <= |s|
    ensures FromNewest(Chars(s), n, cv) == Ok([])
  {
    if n > 0 {
      CharRowsGiveNoCandles(s, n - 1, cv);
      var row := Chars(s)[n - 1];
      assert row == Str([s[n - 1]]);
      assert |Cells(row).value| == 1;
      assert RowStep(row, cv) == Ok(None);
    }
  }

  /** The reply's `result` (a dict expected). */
  function KlineResult(kline: Value): Value
    requires kline.Obj?
  {
    Exchange.FieldOr(kline, "result", Obj(map[]))
  }

  /** The reply's `result.list`. */
  function KlineList(kline: Value): Value
    requires kline.Obj? && KlineResult(kline).Obj?
  {
    Exchange.FieldOr(KlineResult(kline), "list", Null)
  }

  /** The guard `retCode == 0 and result.list`, then the loop over
      `reversed(list)`. A dict reply is expected (`.get` on anything else
      raises); a number or boolean has no `reversed` and raises. */
  function KlineCandles(kline: Value, cv: Converters): (r: Result<seq<Chart>>)
    ensures !kline.Obj? ==> r.Raised?
    ensures kline.Obj? && !Exchange.RetCodeIsZero(kline) ==> r == Ok([])
    ensures kline.Obj? && Exchange.RetCodeIsZero(kline) && KlineResult(kline).Obj? && Truthy(KlineList(kline)) ==>
              var list := KlineList(kline);
              (list.Arr? ==> r == FromNewest(list.items, |list.items|, cv)) &&
              (list.Str? ==> r == Ok([])) &&
              (list.Num? || list.Bool? ==> r.Raised?)
  {
    if !kline.Obj? then Raised("AttributeError: object has no attribute 'get'")
    else if !EqualsZero(Exchange.FieldOr(kline, "retCode", Null)) then Ok([])
    else
      var result := KlineResult(kline);
      if !result.Obj? then Raised("AttributeError: object has no attribute 'get'")
      else
        var list := KlineList(kline);
        if !Truthy(list) then Ok([])
        else match Cells(list)
          case Some(rows) =>
            if list.Str? then
              CharRowsGiveNoCandles(list.s, |list.s|, cv);
              FromNewest(rows, |rows|, cv)
            else FromNewest(rows, |rows|, cv)
          case None =>
            if list.Obj? then Raised("kline list is a dict (key order not modelled)")
            else Raised("TypeError: argument to reversed() must be a sequence")
  }

  /** `_process_kline_data`: walks the rows from the last to the first and
      appends one candle per long row. */
  method ProcessKlineData(kline: Value, cv: Converters) returns (r: Result<seq<Chart>>)
    ensures r == KlineCandles(kline, cv)
  {
    if !kline.Obj? {
      return Raised("AttributeError: object has no attribute 'get'");
    }
    if !EqualsZero(Exchange.FieldOr(kline, "retCode", Null)) {
      return Ok([]);
    }
    var result := KlineResult(kline);
    if !result.Obj? {
      return Raised("AttributeError: object has no attribute 'get'");
    }
    var list := KlineList(kline);
    if !Truthy(list) {
      return Ok([]);
    }
    if Cells(list).None? {
      if list.Obj? {
        return Raised("kline list is a dict (key order not modelled)");
      }
      return Raised("TypeError: argument to reversed() must be a sequence");
    }
    var rows := Cells(list).value;
    var candles: seq<Chart> := [];
    var i := |rows|;
    PrependNothing(FromNewest(rows, |rows|, cv));
    while i > 0
      invariant 0 <= i <= |rows|
      invariant FromNewest(rows, |rows|, cv) == Prepend(candles, FromNewest(rows, i, cv))
    {
      var step := RowStep(rows[i - 1], cv);
      match step {
        case Raised(m) =>
          return Raised(m);
        case Ok(None) =>
        case Ok(Some(c)) =>
          PrependTwice(candles, [c], FromNewest(rows, i - 1, cv));
          candles := candles + [c];
      }
      i := i - 1;
    }
    assert candles + [] == candles;
    r := Ok(candles);
  }

  /** A reply that is not a success, or whose list is empty, gives no candles. */
  lemma KlineFailureGivesNoCandles(kline: Value, cv: Converters)
    requires kline.Obj?
    requires !Exchange.RetCodeIsZero(kline) ||
             (KlineResult(kline).Obj? && !Truthy(KlineList(kline)))
    ensures KlineCandles(kline, cv) == Ok([])
  {
  }

  /** The i-th candle's timestamp is its row's milliseconds divided by 1000. */
  lemma StepTimestamp(row: Value, cv: Converters, c: Chart)
    requires RowStep(row, cv) == Ok(Some(c))
    ensures Millis(row, cv).Some? && c.timestamp == Millis(row, cv).value / 1000
  {
    RowStepMeaning(row, cv);
  }

  /** Bybit lists klines newest first. */
  predicate NewestFirst(rows: seq<Value>, cv: Converters)
  {
    forall a, b :: 0 <= a < b < |rows| && Millis(rows[a], cv).Some? && Millis(rows[b], cv).Some? ==>
      Millis(rows[b], cv).value <= Millis(rows[a], cv).value
  }

  lemma DivMonotone(x: int, y: int)
    requires x <= y
    ensures x / 1000 <= y / 1000
  {
  }

  lemma ConsAscending(c: Chart, rest: seq<Chart>)
    requires Ascending(rest)
    requires forall k :: 0 <= k < |rest| ==> c.timestamp <= rest[k].timestamp
    ensures Ascending([c] + rest)
  {
    var cs := [c] + rest;
    forall a, b | 0 <= a < b < |cs|
      ensures cs[a].timestamp <= cs[b].timestamp
    {
      assert cs[b] == rest[b - 1];
      if a > 0 {
        assert cs[a] == rest[a - 1];
      }
    }
  }

  /** The candle of row n-1 is not newer than any candle of the rows before it. */
  lemma HeadNotNewer(rows: seq<Value>, n: nat, cv: Converters, c: Chart, rest: seq<Chart>)
    requires 0 < n <= |rows| && NewestFirst(rows, cv)
    requires RowStep(rows[n - 1], cv) == Ok(Some(c))
    requires FromNewest(rows, n - 1, cv) == Ok(rest)
    ensures forall k :: 0 <= k < |rest| ==> c.timestamp <= rest[k].timestamp
  {
    StepTimestamp(rows[n - 1], cv, c);
    forall k | 0 <= k < |rest|
      ensures c.timestamp <= rest[k].timestamp
    {
      var j := LongIndices(rows, n - 1)[k];
      FromNewestOrigin(rows, n - 1, cv, k);
      StepTimestamp(rows[j], cv, rest[k]);
      DivMonotone(Millis(rows[n - 1], cv).value, Millis(rows[j], cv).value);
    }
  }

  /** Reversing a newest-first list gives candles in ascending timestamp order. */
  lemma {:induction false} NewestFirstGivesAscending(rows: seq<Value>, n: nat, cv: Converters)
    requires n <= |rows| && NewestFirst(rows, cv)
    requires FromNewest(rows, n, cv).Ok?
    ensures Ascending(FromNewest(rows, n, cv).value)
  {
    if n > 0 {
      var step := RowStep(rows[n - 1], cv);
      assert step.Ok?;
      NewestFirstGivesAscending(rows, n - 1, cv);
      if step.value.Some? {
        var c := step.value.value;
        HeadNotNewer(rows, n, cv, c, FromNewest(rows, n - 1, cv).value);
        ConsAscending(c, FromNewest(rows, n - 1, cv).value);
      }
    }
  }

  // ---------------------------------------------------------------------
  // Latest candle (`max(candles, key=lambda x: x.timestamp)`)
  // ---------------------------------------------------------------------

  /** The index `max` settles on within `cs[..n]`: it scans left to right and
      moves only on a strictly greater timestamp, so ties go to the first. */
  function MaxIndex(cs: seq<Chart>, n: nat): (b: nat)
    requires 0 < n <= |cs|
    ensures b < n
    ensures forall j :: 0 <= j < n ==> cs[j].timestamp <= cs[b].timestamp
    ensures forall j :: 0 <= j < b ==> cs[j].timestamp < cs[b].timestamp
  {
    if n == 1 then 0
    else
      var b := MaxIndex(cs, n - 1);
      if cs[n - 1].timestamp > cs[b].timestamp then n - 1 else b
  }

  /** The latest candle; `max` of an empty list raises ValueError. */
  function LatestCandle(cs: seq<Chart>): (r: Result<Chart>)
    ensures r.Raised? <==> cs == []
    ensures r.Ok? ==> exists i :: 0 <= i < |cs| && r.value == cs[i] &&
                        (forall j :: 0 <= j < |cs| ==> cs[j].timestamp <= cs[i].timestamp) &&
                        (forall j :: 0 <= j < i ==> cs[j].timestamp < cs[i].timestamp)
  {
    if cs == [] then Raised("ValueError: max() arg is an empty sequence")
    else Ok(cs[MaxIndex(cs, |cs|)])
  }

  /** On strictly ascending candles the latest is the last one. */
  lemma LatestOfStrictlyAscending(cs: seq<Chart>)
    requires cs != []
    requires forall a, b :: 0 <= a < b < |cs| ==> cs[a].timestamp < cs[b].timestamp
    ensures LatestCandle(cs) == Ok(cs[|cs| - 1])
  {
  }

  /** The combined indicator model: the latest 5m and 15m candles. */
  datatype Indicator = Indicator(latest5m: Chart, latest15m: Chart)

  /** The latest-candle block of get_market_data: each timeframe's latest
      candle is copied, OHLCV and indicators together. */
  function LatestIndicator(candles5m: seq<Chart>, candles15m: seq<Chart>): (r: Result<Indicator>)
    ensures r.Ok? <==> candles5m != [] && candles15m != []
    ensures r.Ok? ==> Ok(r.value.latest5m) == LatestCandle(candles5m) && Ok(r.value.latest15m) == LatestCandle(candles15m)
  {
    match LatestCandle(candles5m)
    case Raised(m) => Raised(m)
    case Ok(l5) =>
      match LatestCandle(candles15m)
      case Raised(m) => Raised(m)
      case Ok(l15) => Ok(Indicator(l5, l15))
  }

  /** The market data container. */
  datatype MarketVO = MarketVO(
    symbol: string,
    currentPrice: Option<real>,
    orderbook: Value,
    candles5m: seq<Chart>,
    candles15m: seq<Chart>,
    indicator: Indicator)

  /** `get_market_data` as coded: `get_current_price` either raises or returns
      a float, and the next line calls `.get` on that float, so the call
      never returns market data. `price` is the outcome of get_current_price. */
  function GetMarketData(symbol: string, price: Result<real>): (r: Result<MarketVO>)
    ensures r.Raised?
    ensures price.Raised? ==> r == Raised(price.message)
  {
    match price
    case Raised(m) => Raised(m)
    case Ok(_) => Raised("AttributeError: 'float' object has no attribute 'get'")
  }

  /** `get_market_data` as evidently intended: the float that
      get_current_price returns is the current price, the order book's
      `result` object is kept, and the latest candle of each timeframe
      (after the indicators are applied) forms the indicator block. The
      candle lists are those apply_indicators returns. */
  function MarketDataIntended(symbol: string, price: Result<real>, orderbook: Value,
                              candles5m: seq<Chart>, candles15m: seq<Chart>): (r: Result<MarketVO>)
    ensures r.Ok? <==> price.Ok? && orderbook.Obj? && candles5m != [] && candles15m != []
    ensures price.Raised? ==> r == Raised(price.message)
    ensures r.Ok? ==> r.value.symbol == symbol && r.value.currentPrice == Some(price.value) &&
                      Get(orderbook, "result", Obj(map[])) == Ok(r.value.orderbook) &&
                      r.value.candles5m == candles5m && r.value.candles15m == candles15m &&
                      Ok(r.value.indicator.latest5m) == LatestCandle(candles5m) &&
                      Ok(r.value.indicator.latest15m) == LatestCandle(candles15m)
  {
    var p :- price;
    var book :- Get(orderbook, "result", Obj(map[]));
    var indicator :- LatestIndicator(candles5m, candles15m);
    Ok(MarketVO(symbol, Some(p), book, candles5m, candles15m, indicator))
  }

  // ---------------------------------------------------------------------
  // format_trading_summary
  // ---------------------------------------------------------------------

  function OptReal(x: Option<real>): Value
  {
    match x
    case None => Null
    case Some(v) => Num(v)
  }

  function OptStr(x: Option<string>): Value
  {
    match x
    case None => Null
    case Some(s) => Str(s)
  }

  /** The per-candle dict of the historical lists. */
  function CandleDict(c: Chart): Value
  {
    Obj(map["timestamp" := Num(c.timestamp as real), "datetime" := OptStr(c.datetime),
            "open" := Num(c.open), "high" := Num(c.high), "low" := Num(c.low),
            "close" := Num(c.close), "volume" := Num(c.volume),
            "rsi" := OptReal(c.rsi), "atr" := OptReal(c.atr)])
  }

  function NumField(d: map<string, Value>, key: string): Option<real>
  {
    if key in d && d[key].Num? then Some(d[key].n) else None
  }

  function OptNumField(d: map<string, Value>, key: string): Option<Option<real>>
  {
    if key !in d then None
    else match d[key]
      case Null => Some(None)
      case Num(v) => Some(Some(v))
      case _ => None
  }

  function OptStrField(d: map<string, Value>, key: string): Option<Option<string>>
  {
    if key !in d then None
    else match d[key]
      case Null => Some(None)
      case Str(s) => Some(Some(s))
      case _ => None
  }

  /** Reads a candle back from its summary dict. */
  function CandleOfDict(v: Value): Option<Chart>
  {
    if !v.Obj? then None
    else
      var d := v.fields;
      var ts := NumField(d, "timestamp");
      var o, h, l, c, vol := NumField(d, "open"), NumField(d, "high"), NumField(d, "low"), NumField(d, "close"), NumField(d, "volume");
      var dt, rsi, atr := OptStrField(d, "datetime"), OptNumField(d, "rsi"), OptNumField(d, "atr");
      if ts.None? || ts.value.Floor as real != ts.value || o.None? || h.None? || l.None? || c.None? || vol.None? ||
         dt.None? || rsi.None? || atr.None?
      then None
      else Some(Chart(ts.value.Floor, o.value, h.value, l.value, c.value, vol.value, dt.value, rsi.value, atr.value))
  }

  /** The summary dict of a candle keeps every field of the candle. */
  lemma CandleDictRoundTrip(c: Chart)
    ensures CandleOfDict(CandleDict(c)) == Some(c)
  {
    assert (c.timestamp as real).Floor == c.timestamp;
  }

  /** The "current" dict of a timeframe: the last candle without its time. */
  function CurrentDict(c: Chart): Value
  {
    Obj(map["open" := Num(c.open), "high" := Num(c.high), "low" := Num(c.low), "close" := Num(c.close),
            "volume" := Num(c.volume), "rsi" := OptReal(c.rsi), "atr" := OptReal(c.atr)])
  }

  /** An indicator in the market summary text: "N/A" when missing, else the
      two-decimal rendering `fmt2`. */
  function IndicatorText(x: Option<real>, fmt2: real -> string): (s: string)
    ensures x.None? ==> s == "N/A"
    ensures x.Some? ==> s == fmt2(x.value)
  {
    match x
    case None => "N/A"
    case Some(v) => fmt2(v)
  }

  /** The trading summary: metadata, orderbook, the current values of both
      timeframes, both historical lists and the RSI/ATR texts of the
      market summary. */
  datatype TradingSummary = TradingSummary(
    symbol: string,
    currentTime: Option<string>,
    currentTimestamp: int,
    currentPrice: Option<real>,
    orderbook: Value,
    current5m: Value,
    current15m: Value,
    kline5m: seq<Value>,
    kline15m: seq<Value>,
    rsi5mText: string,
    atr5mText: string,
    rsi15mText: string,
    atr15mText: string)

  /** One historical list: the candles' dicts in the candles' order. */
  method CandleDicts(candles: seq<Chart>) returns (dicts: seq<Value>)
    ensures |dicts| == |candles|
    ensures forall k :: 0 <= k < |candles| ==> dicts[k] == CandleDict(candles[k])
  {
    dicts := [];
    for k := 0 to |candles|
      invariant |dicts| == k
      invariant forall j :: 0 <= j < k ==> dicts[j] == CandleDict(candles[j])
    {
      dicts := dicts + [CandleDict(candles[k])];
    }
  }

  /** `format_trading_summary`. "Latest" is the last element of each list
      (`candles[-1]`, which raises IndexError on an empty list). */
  method FormatTradingSummary(m: MarketVO, fmt2: real -> string) returns (r: Result<TradingSummary>)
    ensures r.Raised? <==> m.candles5m == [] || m.candles15m == []
    ensures r.Ok? ==>
              var s := r.value;
              var l5, l15 := m.candles5m[|m.candles5m| - 1], m.candles15m[|m.candles15m| - 1];
              |s.kline5m| == |m.candles5m| && |s.kline15m| == |m.candles15m| &&
              (forall k :: 0 <= k < |m.candles5m| ==> s.kline5m[k] == CandleDict(m.candles5m[k])) &&
              (forall k :: 0 <= k < |m.candles15m| ==> s.kline15m[k] == CandleDict(m.candles15m[k])) &&
              s.symbol == m.symbol && s.currentPrice == m.currentPrice && s.orderbook == m.orderbook &&
              s.currentTime == l5.datetime && s.currentTimestamp == l5.timestamp &&
              s.current5m == CurrentDict(l5) && s.current15m == CurrentDict(l15) &&
              s.rsi5mText == IndicatorText(l5.rsi, fmt2) && s.atr5mText == IndicatorText(l5.atr, fmt2) &&
              s.rsi15mText == IndicatorText(l15.rsi, fmt2) && s.atr15mText == IndicatorText(l15.atr, fmt2)
  {
    var k5 := CandleDicts(m.candles5m);
    var k15 := CandleDicts(m.candles15m);
    if m.candles5m == [] || m.candles15m == [] {
      return Raised("IndexError: list index out of range");
    }
    var l5 := m.candles5m[|m.candles5m| - 1];
    var l15 := m.candles15m[|m.candles15m| - 1];
    r := Ok(TradingSummary(
      m.symbol, l5.datetime, l5.timestamp, m.currentPrice, m.orderbook,
      CurrentDict(l5), CurrentDict(l15), k5, k15,
      IndicatorText(l5.rsi, fmt2), IndicatorText(l5.atr, fmt2),
      IndicatorText(l15.rsi, fmt2), IndicatorText(l15.atr, fmt2)));
  }
}
