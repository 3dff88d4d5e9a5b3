/** The lifecycle controller of position_manager.py: the open, close and
    trend-touch handlers over a live exchange position, the trade ledger
    (`trade_id -> TradeLog`, a dict updated in place), the TP/SL formula and
    the mapping the ledger is saved and loaded with.

    Every exchange, market-data and advisor call is an oracle result; each
    handler also reports the calls it made, in order. The specification
    functions (`OpenSpec`, `CloseSpec`, `TrendSpec`) give reply, new ledger
    and calls; the class `PositionManager` performs the same steps on its
    own fields. */
module Ledger {
  import opened Wrappers
  import opened Json
  import opened Text
  import Exchange
  import Market
  import Advisor
  import Indicators

  // ---------------------------------------------------------------------
  // Settings, trade logs and the TP/SL formula
  // ---------------------------------------------------------------------

  /** The settings the handlers read: leverage, TP/SL percentages and the
      reverse-trading switch (the `test_mode` setting). */
  datatype Config = Config(leverage: int, tpPercent: real, slPercent: real, reverseTrading: bool)

  /** The defaults when system_settings.json gives none. */
  const DefaultConfig: Config := Config(5, 3.0, 1.5, false)

  datatype TradeLog = TradeLog(
    tradeId: string,
    symbol: string,
    positionType: string,
    entryPrice: real,
    entryTime: int,
    leverage: int,
    size: real,
    reason: Value,
    tpPrice: Option<real>,
    slPrice: Option<real>,
    exitPrice: Option<real>,
    exitTime: Option<int>,
    pnl: Option<real>,
    exitReason: Option<string>,
    status: string)

  const Open: string := "open"
  const Closed: string := "closed"

  /** `_calculate_tp_sl`: take-profit and stop-loss prices a percentage away
      from the entry; anything but "long" is treated as short. */
  function TpSl(positionType: string, entry: real, tpPercent: real, slPercent: real): (r: (real, real))
    ensures positionType == "long" ==> r == (entry * (1.0 + tpPercent / 100.0), entry * (1.0 - slPercent / 100.0))
    ensures positionType != "long" ==> r == (entry * (1.0 - tpPercent / 100.0), entry * (1.0 + slPercent / 100.0))
  {
    if positionType == "long" then (entry * (1.0 + tpPercent / 100.0), entry * (1.0 - slPercent / 100.0))
    else (entry * (1.0 - tpPercent / 100.0), entry * (1.0 + slPercent / 100.0))
  }

  /** For percentages strictly between 0 and 100 and a positive entry, a
      long position has sl < entry < tp and a short one tp < entry < sl,
      and both prices stay positive. */
  lemma TpSlBracketsEntry(positionType: string, entry: real, tpPercent: real, slPercent: real)
    requires entry > 0.0 && 0.0 < tpPercent < 100.0 && 0.0 < slPercent < 100.0
    ensures var (tp, sl) := TpSl(positionType, entry, tpPercent, slPercent);
            0.0 < tp && 0.0 < sl &&
            (positionType == "long" ==> sl < entry < tp) &&
            (positionType != "long" ==> tp < entry < sl)
  {
    var a, b := tpPercent / 100.0, slPercent / 100.0;
    assert 0.0 < a < 1.0 && 0.0 < b < 1.0;
    assert entry * (1.0 - a) < entry < entry * (1.0 + a) by {
      assert entry * (1.0 + a) == entry + entry * a && entry * a > 0.0;
      assert entry * (1.0 - a) == entry - entry * a;
    }
    assert entry * (1.0 - b) < entry < entry * (1.0 + b) by {
      assert entry * (1.0 + b) == entry + entry * b && entry * b > 0.0;
      assert entry * (1.0 - b) == entry - entry * b;
    }
    assert entry * (1.0 - a) > 0.0 && entry * (1.0 - b) > 0.0;
  }

  // ---------------------------------------------------------------------
  // The ledger: a dict in insertion order
  // ---------------------------------------------------------------------

  /** `self.trade_logs`: the keys in insertion order and the logs by key. */
  datatype Ledger = Ledger(order: seq<string>, logs: map<string, TradeLog>)

  const EmptyLedger: Ledger := Ledger([], map[])

  /** Keys are distinct and are exactly the keys of the map. */
  ghost predicate ValidLedger(l: Ledger)
  {
    (forall i, j :: 0 <= i < j < |l.order| ==> l.order[i] != l.order[j]) &&
    (forall id :: id in l.logs <==> id in l.order)
  }

  /** `trade_logs[id] = log`: a new key goes last, an existing key keeps
      its place. */
  function Put(l: Ledger, id: string, log: TradeLog): (r: Ledger)
    requires ValidLedger(l)
    ensures ValidLedger(r)
    ensures r.logs == l.logs[id := log]
    ensures id in l.logs ==> r.order == l.order
    ensures id !in l.logs ==> r.order == l.order + [id]
  {
    if id in l.logs then Ledger(l.order, l.logs[id := log])
    else Ledger(l.order + [id], l.logs[id := log])
  }

  predicate IsOpenFor(log: TradeLog, symbol: string)
  {
    log.symbol == symbol && log.status == Open
  }

  function FirstOpenFrom(l: Ledger, symbol: string, k: nat): (r: Option<nat>)
    requires ValidLedger(l) && k <= |l.order|
    ensures r.Some? ==> k <= r.value < |l.order| && IsOpenFor(l.logs[l.order[r.value]], symbol) &&
                        forall j :: k <= j < r.value ==> !IsOpenFor(l.logs[l.order[j]], symbol)
    ensures r.None? ==> forall j :: k <= j < |l.order| ==> !IsOpenFor(l.logs[l.order[j]], symbol)
    decreases |l.order| - k
  {
    if k == |l.order| then None
    else if IsOpenFor(l.logs[l.order[k]], symbol) then Some(k)
    else FirstOpenFrom(l, symbol, k + 1)
  }

  /** The key `get_active_trade_log` finds: the first log in dict order with
      this symbol and status "open". */
  function ActiveLogId(l: Ledger, symbol: string): (r: Option<string>)
    requires ValidLedger(l)
    ensures r.Some? ==> r.value in l.logs && IsOpenFor(l.logs[r.value], symbol)
    ensures r.Some? ==> exists i :: 0 <= i < |l.order| && l.order[i] == r.value &&
                          forall j :: 0 <= j < i ==> !IsOpenFor(l.logs[l.order[j]], symbol)
    ensures r.None? <==> forall id :: id in l.logs ==> !IsOpenFor(l.logs[id], symbol)
  {
    match FirstOpenFrom(l, symbol, 0)
    case None =>
      assert forall id :: id in l.logs ==> !IsOpenFor(l.logs[id], symbol) by {
        forall id | id in l.logs ensures !IsOpenFor(l.logs[id], symbol) {
          var i :| 0 <= i < |l.order| && l.order[i] == id;
        }
      }
      None
    case Some(i) => Some(l.order[i])
  }

  /** Replaces the log under an existing key (a field assignment on the
      TradeLog object the dict holds). */
  function Update(l: Ledger, id: string, log: TradeLog): (r: Ledger)
    requires ValidLedger(l) && id in l.logs
    ensures ValidLedger(r) && r.order == l.order && r.logs == l.logs[id := log]
  {
    Ledger(l.order, l.logs[id := log])
  }

  // ---------------------------------------------------------------------
  // save_trade_logs / load_trade_logs field mapping
  // ---------------------------------------------------------------------

  function OptNum(x: Option<real>): Value
  {
    if x.Some? then Num(x.value) else Null
  }

  function OptInt(x: Option<int>): Value
  {
    if x.Some? then Num(x.value as real) else Null
  }

  function OptText(x: Option<string>): Value
  {
    if x.Some? then Str(x.value) else Null
  }

  /** The dict one log is saved as (the key carries the trade id). */
  function SaveLog(log: TradeLog): Value
  {
    Obj(map[
      "symbol" := Str(log.symbol), "position_type" := Str(log.positionType),
      "entry_price" := Num(log.entryPrice), "entry_time" := Num(log.entryTime as real),
      "leverage" := Num(log.leverage as real), "size" := Num(log.size), "reason" := log.reason,
      "tp_price" := OptNum(log.tpPrice), "sl_price" := OptNum(log.slPrice),
      "exit_price" := OptNum(log.exitPrice), "exit_time" := OptInt(log.exitTime),
      "pnl" := OptNum(log.pnl), "exit_reason" := OptText(log.exitReason), "status" := Str(log.status)])
  }

  function Field(d: map<string, Value>, key: string): Value
  {
    if key in d then d[key] else Null
  }

  function TextField(d: map<string, Value>, key: string): Option<string>
  {
    if Field(d, key).Str? then Some(Field(d, key).s) else None
  }

  function RealField(d: map<string, Value>, key: string): Option<real>
  {
    if Field(d, key).Num? then Some(Field(d, key).n) else None
  }

  function IntField(d: map<string, Value>, key: string): Option<int>
  {
    if Field(d, key).Num? && Field(d, key).n.Floor as real == Field(d, key).n then Some(Field(d, key).n.Floor) else None
  }

  /** Optional fields: null stays None, a value of the right type is kept,
      any other value does not load. */
  function OptRealField(d: map<string, Value>, key: string): Option<Option<real>>
  {
    if Field(d, key) == Null then Some(None)
    else if Field(d, key).Num? then Some(Some(Field(d, key).n)) else None
  }

  function OptIntField(d: map<string, Value>, key: string): Option<Option<int>>
  {
    if Field(d, key) == Null then Some(None)
    else if IntField(d, key).Some? then Some(IntField(d, key)) else None
  }

  function OptTextField(d: map<string, Value>, key: string): Option<Option<string>>
  {
    if Field(d, key) == Null then Some(None)
    else if Field(d, key).Str? then Some(Some(Field(d, key).s)) else None
  }

  /** The TradeLog `load_trade_logs` builds from one saved dict; None where a
      stored field does not have the type the log holds. A missing "status"
      reads as "open". */
  function LoadLog(id: string, v: Value): Option<TradeLog>
  {
    if v.Obj? then LoadFields(id, v.fields) else None
  }

  function LoadFields(id: string, d: map<string, Value>): Option<TradeLog>
  {
      var status := if "status" in d then TextField(d, "status") else Some(Open);
      var symbol, ptype := TextField(d, "symbol"), TextField(d, "position_type");
      var entry, etime, lev, size := RealField(d, "entry_price"), IntField(d, "entry_time"), IntField(d, "leverage"), RealField(d, "size");
      var tp, sl, xp := OptRealField(d, "tp_price"), OptRealField(d, "sl_price"), OptRealField(d, "exit_price");
      var xt, pnl, xr := OptIntField(d, "exit_time"), OptRealField(d, "pnl"), OptTextField(d, "exit_reason");
      if status.None? || symbol.None? || ptype.None? || entry.None? || etime.None? || lev.None? || size.None? ||
         tp.None? || sl.None? || xp.None? || xt.None? || pnl.None? || xr.None?
      then None
      else Some(TradeLog(id, symbol.value, ptype.value, entry.value, etime.value, lev.value, size.value,
                         Field(d, "reason"), tp.value, sl.value, xp.value, xt.value, pnl.value, xr.value, status.value))
  }

  lemma IntRoundTrip(d: map<string, Value>, key: string, x: int)
    requires key in d && d[key] == Num(x as real)
    ensures IntField(d, key) == Some(x)
  {
    assert (x as real).Floor == x;
  }

  /** Saving a log and loading it back under its key gives the log. */
  lemma SaveLoadLog(log: TradeLog)
    ensures LoadLog(log.tradeId, SaveLog(log)) == Some(log)
  {
    SavedTexts(log);
    SavedNumbers(log);
    SavedOptionalNumbers(log);
    LoadFieldsOf(SaveLog(log).fields, log);
  }

  lemma SavedTexts(log: TradeLog)
    ensures var d := SaveLog(log).fields;
            "status" in d && TextField(d, "status") == Some(log.status) &&
            TextField(d, "symbol") == Some(log.symbol) && TextField(d, "position_type") == Some(log.positionType) &&
            OptTextField(d, "exit_reason") == Some(log.exitReason) && Field(d, "reason") == log.reason
  {
    var d := SaveLog(log).fields;
    assert d["status"] == Str(log.status) && d["symbol"] == Str(log.symbol);
    assert d["position_type"] == Str(log.positionType) && d["exit_reason"] == OptText(log.exitReason);
  }

  lemma SavedNumbers(log: TradeLog)
    ensures var d := SaveLog(log).fields;
            RealField(d, "entry_price") == Some(log.entryPrice) && RealField(d, "size") == Some(log.size) &&
            IntField(d, "entry_time") == Some(log.entryTime) && IntField(d, "leverage") == Some(log.leverage)
  {
    var d := SaveLog(log).fields;
    assert d["entry_price"] == Num(log.entryPrice) && d["size"] == Num(log.size);
    IntRoundTrip(d, "entry_time", log.entryTime);
    IntRoundTrip(d, "leverage", log.leverage);
  }

  lemma SavedOptionalNumbers(log: TradeLog)
    ensures var d := SaveLog(log).fields;
            OptRealField(d, "tp_price") == Some(log.tpPrice) && OptRealField(d, "sl_price") == Some(log.slPrice) &&
            OptRealField(d, "exit_price") == Some(log.exitPrice) && OptRealField(d, "pnl") == Some(log.pnl) &&
            OptIntField(d, "exit_time") == Some(log.exitTime)
  {
    var d := SaveLog(log).fields;
    assert d["tp_price"] == OptNum(log.tpPrice) && d["sl_price"] == OptNum(log.slPrice);
    assert d["exit_price"] == OptNum(log.exitPrice) && d["pnl"] == OptNum(log.pnl);
    if log.exitTime.Some? {
      IntRoundTrip(d, "exit_time", log.exitTime.value);
    }
  }

  lemma LoadFieldsOf(d: map<string, Value>, log: TradeLog)
    requires "status" in d && TextField(d, "status") == Some(log.status)
    requires TextField(d, "symbol") == Some(log.symbol) && TextField(d, "position_type") == Some(log.positionType)
    requires RealField(d, "entry_price") == Some(log.entryPrice) && RealField(d, "size") == Some(log.size)
    requires IntField(d, "entry_time") == Some(log.entryTime) && IntField(d, "leverage") == Some(log.leverage)
    requires OptRealField(d, "tp_price") == Some(log.tpPrice) && OptRealField(d, "sl_price") == Some(log.slPrice)
    requires OptRealField(d, "exit_price") == Some(log.exitPrice) && OptRealField(d, "pnl") == Some(log.pnl)
    requires OptTextField(d, "exit_reason") == Some(log.exitReason) && OptIntField(d, "exit_time") == Some(log.exitTime)
    requires Field(d, "reason") == log.reason
    ensures LoadFields(log.tradeId, d) == Some(log)
  {
  }

  /** What `save_trade_logs` writes: one (key, dict) pair per log, in dict
      order. */
  function SavedLogs(l: Ledger): (s: seq<(string, Value)>)
    requires ValidLedger(l)
    ensures |s| == |l.order|
    ensures forall i :: 0 <= i < |s| ==> s[i] == (l.order[i], SaveLog(l.logs[l.order[i]]))
  {
    seq(|l.order|, i requires 0 <= i < |l.order| => (l.order[i], SaveLog(l.logs[l.order[i]])))
  }

  /** The loop of `load_trade_logs` over the file's items: each dict becomes a
      TradeLog under its key; the first entry that cannot be loaded ends the
      loop (the exception is caught and logged), keeping what was loaded. */
  function LoadInto(l: Ledger, entries: seq<(string, Value)>): (r: Ledger)
    requires ValidLedger(l)
    ensures ValidLedger(r)
    decreases |entries|
  {
    if entries == [] then l
    else match LoadLog(entries[0].0, entries[0].1)
      case None => l
      case Some(log) => LoadInto(Put(l, entries[0].0, log), entries[1..])
  }

  /** Every log is stored under its own trade id. */
  ghost predicate KeyedById(l: Ledger)
  {
    forall id :: id in l.logs ==> l.logs[id].tradeId == id
  }

  /** The first k logs of a ledger, in its order. */
  function Prefix(l: Ledger, k: nat): (p: Ledger)
    requires ValidLedger(l) && k <= |l.order|
    ensures ValidLedger(p)
  {
    Ledger(l.order[..k], map id | id in l.order[..k] :: l.logs[id])
  }

  lemma LoadStep(l: Ledger, entries: seq<(string, Value)>, log: TradeLog)
    requires ValidLedger(l) && entries != [] && LoadLog(entries[0].0, entries[0].1) == Some(log)
    ensures LoadInto(l, entries) == LoadInto(Put(l, entries[0].0, log), entries[1..])
  {
  }

  lemma PrefixStep(l: Ledger, k: nat)
    requires ValidLedger(l) && k < |l.order|
    ensures Put(Prefix(l, k), l.order[k], l.logs[l.order[k]]) == Prefix(l, k + 1)
  {
    var id := l.order[k];
    assert id !in l.order[..k];
    assert l.order[..k + 1] == l.order[..k] + [id];
  }

  /** Loading the saved entries from position k onwards into the first k
      logs completes the ledger. */
  lemma {:induction false} LoadSavedSuffix(l: Ledger, k: nat)
    requires ValidLedger(l) && KeyedById(l) && k <= |l.order|
    ensures LoadInto(Prefix(l, k), SavedLogs(l)[k..]) == l
    decreases |l.order| - k
  {
    if k == |l.order| {
      assert SavedLogs(l)[k..] == [];
      assert l.order[..k] == l.order;
      assert Prefix(l, k).logs == l.logs;
    } else {
      var id := l.order[k];
      SaveLoadLog(l.logs[id]);
      var rest := SavedLogs(l)[k..];
      assert rest[0] == (id, SaveLog(l.logs[id]));
      assert rest[1..] == SavedLogs(l)[k + 1..];
      LoadStep(Prefix(l, k), rest, l.logs[id]);
      PrefixStep(l, k);
      LoadSavedSuffix(l, k + 1);
    }
  }

  /** Saving the whole ledger and loading the result into an empty ledger
      gives back every log, in the same order. */
  lemma SaveLoadRoundTrip(l: Ledger)
    requires ValidLedger(l) && KeyedById(l)
    ensures LoadInto(EmptyLedger, SavedLogs(l)) == l
  {
    LoadSavedSuffix(l, 0);
    assert SavedLogs(l)[0..] == SavedLogs(l);
    assert Prefix(l, 0) == EmptyLedger;
  }

  // ---------------------------------------------------------------------
  // Handler outcomes
  // ---------------------------------------------------------------------

  datatype Status = Success | Error | Rejected | Skipped | Partial | Maintain

  /** The service calls a handler makes, in order. */
  datatype Call =
    | PositionQuery
    | MarketDataQuery
    | VerifyEntry
    | VerifyTrendTouch
    | SetLeverage(leverage: int)
    | OrderQuantity
    | MarketOrder(side: string)
    | SetTpSl(tp: real, sl: real)
    | ClosePosition
    | CancelOrders
    | PriceQuery

  /** The dict a handler returns; the human-readable messages are
      paraphrased. */
  datatype Reply =
    | Plain(status: Status, message: string)
    | Refused(status: Status, reason: Value)
    | Opened(status: Status, tradeId: string, entryPrice: real, size: real, leverage: int, tpPrice: real, slPrice: real)
    | Exited(status: Status, exitPrice: real, pnl: Option<real>, closeReason: Option<Value>)

  /** A handler's reply (`Raised` when an exception escapes it), the ledger
      it leaves and the calls it made. */
  datatype Step = Step(reply: Result<Reply>, ledger: Ledger, calls: seq<Call>)

  function OrderSide(positionType: string): string
  {
    if positionType == "long" then "Buy" else "Sell"
  }

  /** The reverse-trading flip: "long" becomes "short", anything else "long". */
  function Opposite(positionType: string): string
  {
    if positionType == "long" then "short" else "long"
  }

  const NoAttributeGet: string := "AttributeError: object has no attribute 'get'"
  const ZeroDivision: string := "ZeroDivisionError: float division by zero"
  const UnknownReason: Value := Str("unknown reason")
  const ApprovedReason: Value := Str("advisor approval")
  const SwitchReason: Value := Str("advisor approval (position switch)")
  const TrendCloseReason: Value := Str("advisor close decision")
  const SignalExit: string := "closed on TP/SL signal"
  const TrendExit: string := "closed on trend-line touch (advisor decision)"

  function ReversalExit(positionType: string): string
  {
    "closed to enter the opposite position (" + positionType + ")"
  }

  // ---------------------------------------------------------------------
  // Entering a position (the try block of both entry paths)
  // ---------------------------------------------------------------------

  /** The results of the calls the entry block makes: set_leverage,
      calculate_order_quantity, place_market_order, the position re-query,
      set_tp_sl, the clock at the order and the fresh uuid. */
  datatype EntryOracle = EntryOracle(
    setLeverage: Result<()>,
    orderQty: Result<real>,
    orderResult: Result<Value>,
    positionAfter: Result<Option<Exchange.Position>>,
    setTpSl: Result<()>,
    orderTime: int,
    newId: string)

  datatype EntryOutcome =
    | Entered(log: TradeLog)
    | OrderRefused(retMsg: Value)
    | NoPositionAfterOrder
    | EntryRaised(error: string)

  datatype EntryStep = EntryStep(outcome: EntryOutcome, calls: seq<Call>)

  /** The entry block: leverage, quantity, market order (refused unless its
      retCode is 0), re-query of the position, TP/SL a percentage from the
      fill price, and the open TradeLog it would record. */
  function EntryAttempt(cfg: Config, symbol: string, side: string, reason: Value, o: EntryOracle): (e: EntryStep)
    ensures e.calls != [] && e.calls[0] == SetLeverage(cfg.leverage)
    ensures e.outcome.Entered? ==>
              OrderSucceeded(o) && o.positionAfter.Ok? && o.positionAfter.value.Some? &&
              (var p := o.positionAfter.value.value;
               var (tp, sl) := TpSl(side, p.entryPrice, cfg.tpPercent, cfg.slPercent);
               e.outcome.log == TradeLog(o.newId, symbol, side, p.entryPrice, o.orderTime, cfg.leverage, o.orderQty.value,
                                         reason, Some(tp), Some(sl), None, None, None, None, Open) &&
               e.calls == [SetLeverage(cfg.leverage), OrderQuantity, MarketOrder(OrderSide(side)), PositionQuery, SetTpSl(tp, sl)])
    ensures o.orderResult.Ok? && o.orderResult.value.Obj? && !Exchange.RetCodeIsZero(o.orderResult.value) &&
            o.setLeverage.Ok? && o.orderQty.Ok? ==>
              e.outcome.OrderRefused? && PositionQuery !in e.calls
  {
    if o.setLeverage.Raised? then EntryStep(EntryRaised(o.setLeverage.message), [SetLeverage(cfg.leverage)])
    else if o.orderQty.Raised? then EntryStep(EntryRaised(o.orderQty.message), [SetLeverage(cfg.leverage), OrderQuantity])
    else
      var c3 := [SetLeverage(cfg.leverage), OrderQuantity, MarketOrder(OrderSide(side))];
      match o.orderResult
      case Raised(m) => EntryStep(EntryRaised(m), c3)
      case Ok(res) =>
        if !res.Obj? then EntryStep(EntryRaised(NoAttributeGet), c3)
        else if !Exchange.RetCodeIsZero(res) then EntryStep(OrderRefused(Exchange.FieldOr(res, "retMsg", UnknownReason)), c3)
        else if !Exchange.FieldOr(res, "result", Obj(map[])).Obj? then EntryStep(EntryRaised(NoAttributeGet), c3)
        else
          var c4 := c3 + [PositionQuery];
          match o.positionAfter
          case Raised(m) => EntryStep(EntryRaised(m), c4)
          case Ok(None) => EntryStep(NoPositionAfterOrder, c4)
          case Ok(Some(p)) =>
            var (tp, sl) := TpSl(side, p.entryPrice, cfg.tpPercent, cfg.slPercent);
            var c5 := c4 + [SetTpSl(tp, sl)];
            if o.setTpSl.Raised? then EntryStep(EntryRaised(o.setTpSl.message), c5)
            else EntryStep(Entered(TradeLog(o.newId, symbol, side, p.entryPrice, o.orderTime, cfg.leverage, o.orderQty.value,
                                            reason, Some(tp), Some(sl), None, None, None, None, Open)), c5)
  }

  /** The order was placed and acknowledged with retCode 0 and a dict
      "result". */
  predicate OrderSucceeded(o: EntryOracle)
  {
    o.setLeverage.Ok? && o.orderQty.Ok? && o.orderResult.Ok? && o.orderResult.value.Obj? &&
    Exchange.RetCodeIsZero(o.orderResult.value) && Exchange.FieldOr(o.orderResult.value, "result", Obj(map[])).Obj?
  }

  function EnteredReply(log: TradeLog): Reply
    requires log.tpPrice.Some? && log.slPrice.Some?
  {
    Opened(Success, log.tradeId, log.entryPrice, log.size, log.leverage, log.tpPrice.value, log.slPrice.value)
  }

  /** The reply of an entry block that did not record a log, with the
      status the path uses (error on a flat account, partial after a
      reversal close). */
  function EntryFailure(status: Status, outcome: EntryOutcome): Reply
  {
    match outcome
    case OrderRefused(msg) => Refused(status, msg)
    case NoPositionAfterOrder => Plain(status, "order placed but no position was created")
    case EntryRaised(m) => Plain(status, "error while entering: " + m)
    case Entered(_) => Plain(status, "")
  }

  // ---------------------------------------------------------------------
  // Closing a position (the try block of the close and trend handlers)
  // ---------------------------------------------------------------------

  /** The results of get_current_price, close_position, cancel_all_orders
      and the clock at the exit. */
  datatype CloseOracle = CloseOracle(price: Result<real>, close: Result<Value>, cancel: Result<()>, closedAt: int)

  datatype CloseOutcome =
    | Exit(price: real, pnl: Option<real>)
    | CloseRefused
    | CloseRaised(error: string)

  datatype CloseStep = CloseStep(ledger: Ledger, outcome: CloseOutcome, calls: seq<Call>)

  /** The PnL ratio of a position at a price. */
  function PnlRatio(positionType: string, entry: real, price: real): real
    requires entry != 0.0
  {
    if positionType == "long" then (price - entry) / entry else (entry - price) / entry
  }

  /** The PnL recorded for a closed log. */
  function Pnl(positionType: string, entry: real, price: real, log: TradeLog): real
    requires entry != 0.0
  {
    PnlRatio(positionType, entry, price) * log.size * entry * (log.leverage as real)
  }

  /** The recorded PnL is the price move in the position's favour times size
      and leverage; it is positive exactly when the move is favourable (for
      a positive size and leverage). */
  lemma PnlIsPriceMove(positionType: string, entry: real, price: real, log: TradeLog)
    requires entry != 0.0
    ensures positionType == "long" ==> Pnl(positionType, entry, price, log) == (price - entry) * log.size * (log.leverage as real)
    ensures positionType != "long" ==> Pnl(positionType, entry, price, log) == (entry - price) * log.size * (log.leverage as real)
    ensures log.size > 0.0 && log.leverage > 0 ==>
              (Pnl(positionType, entry, price, log) > 0.0 <==> (if positionType == "long" then price > entry else price < entry))
  {
    var move := if positionType == "long" then price - entry else entry - price;
    assert PnlRatio(positionType, entry, price) * entry == move;
    var k := log.size * (log.leverage as real);
    assert Pnl(positionType, entry, price, log) == move * k;
    if log.size > 0.0 && log.leverage > 0 {
      assert k > 0.0;
      if move > 0.0 { assert move * k > 0.0; }
      else { assert move * k <= 0.0; }
    }
  }

  /** The log a close writes (before its PnL). */
  function ExitedLog(log: TradeLog, price: real, at: int, reason: string): TradeLog
  {
    log.(exitPrice := Some(price), exitTime := Some(at), exitReason := Some(reason), status := Closed)
  }

  /** The close block: price, close (refused when falsy), cancel of the open
      orders, then the first open log of the symbol is closed with the PnL.
      A zero entry price raises after the exit fields were written. */
  function CloseBlock(l: Ledger, symbol: string, cur: Exchange.Position, o: CloseOracle, reason: string): (c: CloseStep)
    requires ValidLedger(l)
    ensures ValidLedger(c.ledger) && c.ledger.order == l.order
  {
    match o.price
    case Raised(m) => CloseStep(l, CloseRaised(m), [PriceQuery])
    case Ok(price) =>
      match o.close
      case Raised(m) => CloseStep(l, CloseRaised(m), [PriceQuery, ClosePosition])
      case Ok(cr) =>
        if !Truthy(cr) then CloseStep(l, CloseRefused, [PriceQuery, ClosePosition])
        else
          var calls := [PriceQuery, ClosePosition, CancelOrders];
          if o.cancel.Raised? then CloseStep(l, CloseRaised(o.cancel.message), calls)
          else
            var (ledger, outcome) := ExitActive(l, symbol, cur, price, o.closedAt, reason);
            CloseStep(ledger, outcome, calls)
  }

  /** The ledger part of the close block: the first open log of the symbol
      gets its exit fields, then its PnL. */
  function ExitActive(l: Ledger, symbol: string, cur: Exchange.Position, price: real, at: int, reason: string):
    (r: (Ledger, CloseOutcome))
    requires ValidLedger(l)
    ensures ValidLedger(r.0) && r.0.order == l.order
  {
    match ActiveLogId(l, symbol)
    case None => (l, Exit(price, None))
    case Some(id) =>
      var exited := ExitedLog(l.logs[id], price, at, reason);
      if cur.entryPrice == 0.0 then (Update(l, id, exited), CloseRaised(ZeroDivision))
      else
        var pnl := Pnl(cur.positionType, cur.entryPrice, price, l.logs[id]);
        (Update(l, id, exited.(pnl := Some(pnl))), Exit(price, Some(pnl)))
  }

  /** The outcomes of the close block: it exits exactly when every call
      succeeded and the close was acknowledged (and, with an open log, the
      entry price is not zero); a refused close is reported as such; a
      failure before the cancel call, or no open log, leaves the ledger. */
  lemma CloseBlockOutcome(l: Ledger, symbol: string, cur: Exchange.Position, o: CloseOracle, reason: string)
    requires ValidLedger(l)
    ensures var c := CloseBlock(l, symbol, cur, o, reason);
            (c.outcome.Exit? <==> o.price.Ok? && o.close.Ok? && Truthy(o.close.value) && o.cancel.Ok? &&
                                  (ActiveLogId(l, symbol).Some? ==> cur.entryPrice != 0.0)) &&
            (c.outcome.Exit? ==> c.outcome.price == o.price.value && c.calls == [PriceQuery, ClosePosition, CancelOrders]) &&
            (c.outcome.CloseRefused? <==> o.price.Ok? && o.close.Ok? && !Truthy(o.close.value)) &&
            (!(o.price.Ok? && o.close.Ok? && Truthy(o.close.value) && o.cancel.Ok?) ==> c.ledger == l) &&
            (ActiveLogId(l, symbol).None? ==> c.ledger == l)
  {
  }

  /** A zero entry price with an open log: the exit fields and the closed
      status are written before the PnL division raises, so the log stays
      closed with its PnL unset while the reply reports the error. */
  lemma CloseZeroEntryClosesLog(l: Ledger, symbol: string, cur: Exchange.Position, o: CloseOracle, reason: string, id: string)
    requires ValidLedger(l)
    requires o.price.Ok? && o.close.Ok? && Truthy(o.close.value) && o.cancel.Ok?
    requires ActiveLogId(l, symbol) == Some(id) && cur.entryPrice == 0.0
    ensures var c := CloseBlock(l, symbol, cur, o, reason);
            c.outcome == CloseRaised(ZeroDivision) &&
            c.ledger.logs[id] == ExitedLog(l.logs[id], o.price.value, o.closedAt, reason) &&
            c.ledger.logs[id].status == Closed && c.ledger.logs[id].pnl == l.logs[id].pnl
  {
  }

  /** A successful close block closes exactly the first open log of the
      symbol, with the exit price, time, reason and PnL, and changes no
      other log. */
  lemma CloseBlockClosesActiveLog(l: Ledger, symbol: string, cur: Exchange.Position, o: CloseOracle, reason: string)
    requires ValidLedger(l)
    requires CloseBlock(l, symbol, cur, o, reason).outcome.Exit?
    ensures var c := CloseBlock(l, symbol, cur, o, reason);
            match ActiveLogId(l, symbol)
            case None => c.ledger == l && c.outcome.pnl.None?
            case Some(id) =>
              c.ledger.logs.Keys == l.logs.Keys &&
              c.ledger.logs[id] == ExitedLog(l.logs[id], o.price.value, o.closedAt, reason).(pnl := c.outcome.pnl) &&
              c.outcome.pnl == Some(Pnl(cur.positionType, cur.entryPrice, o.price.value, l.logs[id])) &&
              (forall k :: k in l.logs && k != id ==> c.ledger.logs[k] == l.logs[k]) &&
              ActiveLogId(l, symbol) != ActiveLogId(c.ledger, symbol)
  {
  }

  // ---------------------------------------------------------------------
  // handle_open_position
  // ---------------------------------------------------------------------

  /** The results of the calls handle_open_position can make. `current` is
      get_active_position (None when the exchange reports no position),
      `market` get_market_data, `verdict` verify_entry (consulted once on
      either path), `close`/`cancel`/`closedAt` the reversal close. */
  datatype OpenOracle = OpenOracle(
    current: Result<Option<Exchange.Position>>,
    market: Result<Market.MarketVO>,
    verdict: Advisor.Verdict,
    close: Result<Value>,
    cancel: Result<()>,
    closedAt: int,
    entry: EntryOracle)

  /** The position type the handler acts on: lower-cased, then flipped in
      reverse-trading mode. */
  function TargetSide(cfg: Config, positionType: string): string
  {
    if cfg.reverseTrading then Opposite(Lower(positionType)) else Lower(positionType)
  }

  /** The reversal's update of the active log: exit fields from the current
      price, PnL from the exchange's unrealised PnL. */
  function CloseForReversal(l: Ledger, symbol: string, price: real, at: int, side: string, pnl: real): (r: Ledger)
    requires ValidLedger(l)
    ensures ValidLedger(r) && r.order == l.order
  {
    match ActiveLogId(l, symbol)
    case None => l
    case Some(id) => Update(l, id, ExitedLog(l.logs[id], price, at, ReversalExit(side)).(pnl := Some(pnl)))
  }

  /** The entry block followed by what the handler does with its outcome:
      record the new log and reply success, or reply with `failStatus` and
      record nothing. `prior` are the calls made before the block. */
  function EnterAndRecord(cfg: Config, l: Ledger, symbol: string, side: string, reason: Value, failStatus: Status,
                          o: EntryOracle, prior: seq<Call>): (s: Step)
    requires ValidLedger(l) && failStatus != Success
    ensures ValidLedger(s.ledger) && s.reply.Ok?
    ensures var e := EntryAttempt(cfg, symbol, side, reason, o);
            s.calls == prior + e.calls &&
            (s.reply.value.status == Success <==> e.outcome.Entered?) &&
            (s.reply.value.status != Success ==> s.reply.value.status == failStatus && s.ledger == l)
    ensures s.reply.value.status == Success ==>
              OrderSucceeded(o) && o.positionAfter.Ok? && o.positionAfter.value.Some? &&
              MarketOrder(OrderSide(side)) in s.calls &&
              (var p := o.positionAfter.value.value;
               var (tp, sl) := TpSl(side, p.entryPrice, cfg.tpPercent, cfg.slPercent);
               var log := TradeLog(o.newId, symbol, side, p.entryPrice, o.orderTime, cfg.leverage, o.orderQty.value,
                                   reason, Some(tp), Some(sl), None, None, None, None, Open);
               s.reply.value == Opened(Success, o.newId, p.entryPrice, o.orderQty.value, cfg.leverage, tp, sl) &&
               s.ledger == Put(l, o.newId, log))
  {
    var e := EntryAttempt(cfg, symbol, side, reason, o);
    if e.outcome.Entered? then
      assert (prior + e.calls)[|prior| + 2] == e.calls[2];
      Step(Ok(EnteredReply(e.outcome.log)), Put(l, e.outcome.log.tradeId, e.outcome.log), prior + e.calls)
    else Step(Ok(EntryFailure(failStatus, e.outcome)), l, prior + e.calls)
  }

  /** handle_open_position. */
  function OpenSpec(cfg: Config, l: Ledger, symbol: string, positionType: string, o: OpenOracle): (s: Step)
    requires ValidLedger(l)
    ensures ValidLedger(s.ledger)
  {
    var side := TargetSide(cfg, positionType);
    match o.current
    case Raised(m) => Step(Raised(m), l, [PositionQuery])
    case Ok(current) =>
      match o.market
      case Raised(m) => Step(Raised(m), l, [PositionQuery, MarketDataQuery])
      case Ok(md) =>
        var calls0 := [PositionQuery, MarketDataQuery];
        if md.currentPrice.None? then Step(Ok(Plain(Error, "current price lookup failed")), l, calls0)
        else if current.None? then
          var calls1 := calls0 + [VerifyEntry];
          if !Advisor.Approves(o.verdict) then Step(Ok(Refused(Rejected, Advisor.ReasonOr(o.verdict, UnknownReason))), l, calls1)
          else
            EnterAndRecord(cfg, l, symbol, side, Advisor.ReasonOr(o.verdict, ApprovedReason), Error, o.entry, calls1)
        else if current.value.positionType == side then
          Step(Ok(Plain(Skipped, "a " + side + " position is already open")), l, calls0)
        else ReverseSpec(cfg, l, symbol, side, md.currentPrice.value, current.value, o)
  }

  /** The reversal path of handle_open_position: an open position on the
      other side is closed (its exceptions propagate), its log closed, and
      the advisor consulted again before entering. */
  function ReverseSpec(cfg: Config, l: Ledger, symbol: string, side: string, price: real, current: Exchange.Position,
                       o: OpenOracle): (s: Step)
    requires ValidLedger(l)
    ensures ValidLedger(s.ledger)
  {
    var calls1 := [PositionQuery, MarketDataQuery, ClosePosition];
    match o.close
    case Raised(m) => Step(Raised(m), l, calls1)
    case Ok(cr) =>
      if !Truthy(cr) then Step(Ok(Plain(Error, "closing the existing position failed")), l, calls1)
      else
        var calls2 := calls1 + [CancelOrders];
        match o.cancel
        case Raised(m) => Step(Raised(m), l, calls2)
        case Ok(_) =>
          var l1 := CloseForReversal(l, symbol, price, o.closedAt, side, current.unrealizedPnl);
          var calls3 := calls2 + [VerifyEntry];
          if !Advisor.Approves(o.verdict) then Step(Ok(Refused(Partial, Advisor.ReasonOr(o.verdict, UnknownReason))), l1, calls3)
          else
            EnterAndRecord(cfg, l1, symbol, side, Advisor.ReasonOr(o.verdict, SwitchReason), Partial, o.entry, calls3)
  }

  // ---------------------------------------------------------------------
  // handle_close_position and handle_trend_touch
  // ---------------------------------------------------------------------

  /** handle_close_position: skipped without a position, otherwise the close
      block with every exception caught. */
  function CloseSpec(l: Ledger, symbol: string, current: Result<Option<Exchange.Position>>, o: CloseOracle): (s: Step)
    requires ValidLedger(l)
    ensures ValidLedger(s.ledger)
  {
    match current
    case Raised(m) => Step(Raised(m), l, [PositionQuery])
    case Ok(None) => Step(Ok(Plain(Skipped, "no position for " + symbol)), l, [PositionQuery])
    case Ok(Some(cur)) =>
      var c := CloseBlock(l, symbol, cur, o, SignalExit);
      Step(Ok(CloseReply(c.outcome, None)), c.ledger, [PositionQuery] + c.calls)
  }

  /** The reply of a handler that ran the close block; `closeReason` is the
      reason quoted on success (the trend handler's). */
  function CloseReply(outcome: CloseOutcome, closeReason: Option<Value>): (r: Reply)
    ensures r.status == Success <==> outcome.Exit?
  {
    match outcome
    case Exit(price, pnl) => Exited(Success, price, pnl, closeReason)
    case CloseRefused => Plain(Error, "closing the position failed")
    case CloseRaised(m) => Plain(Error, "error while closing: " + m)
  }

  /** The outcome of the verify_trend_touch call as handle_trend_touch makes
      it: four arguments to a method that takes three besides self. */
  const TrendTouchCallAsCoded: Result<Advisor.Verdict> :=
    Raised("TypeError: verify_trend_touch() takes 4 positional arguments but 5 were given")

  /** handle_trend_touch, over the outcome of the verify_trend_touch call:
      an approved close runs the close block, anything else keeps the
      position. Exceptions before the close block propagate. */
  function TrendSpec(l: Ledger, symbol: string, current: Result<Option<Exchange.Position>>, market: Result<Market.MarketVO>,
                     verdict: Result<Advisor.Verdict>, o: CloseOracle): (s: Step)
    requires ValidLedger(l)
    ensures ValidLedger(s.ledger)
  {
    match current
    case Raised(m) => Step(Raised(m), l, [PositionQuery])
    case Ok(None) => Step(Ok(Plain(Skipped, "no position for " + symbol)), l, [PositionQuery])
    case Ok(Some(cur)) =>
      match market
      case Raised(m) => Step(Raised(m), l, [PositionQuery, MarketDataQuery])
      case Ok(_) =>
        var calls := [PositionQuery, MarketDataQuery, VerifyTrendTouch];
        match verdict
        case Raised(m) => Step(Raised(m), l, calls)
        case Ok(v) =>
          if !Advisor.Approves(v) then Step(Ok(Refused(Maintain, Advisor.ReasonOr(v, UnknownReason))), l, calls)
          else
            var c := CloseBlock(l, symbol, cur, o, TrendExit);
            Step(Ok(CloseReply(c.outcome, Some(Advisor.ReasonOr(v, TrendCloseReason)))), c.ledger, calls + c.calls)
  }

  // ---------------------------------------------------------------------
  // Properties of the handlers
  // ---------------------------------------------------------------------

  /** The market data the open handler sees carries a price. */
  predicate PricedMarket(o: OpenOracle)
  {
    o.market.Ok? && o.market.value.currentPrice.Some?
  }

  /** Flat account, advisor refuses: the reply is "rejected", the ledger is
      unchanged and neither leverage nor an order is sent. */
  lemma OpenRejectedSendsNoOrder(cfg: Config, l: Ledger, symbol: string, positionType: string, o: OpenOracle)
    requires ValidLedger(l) && o.current == Ok(None) && PricedMarket(o) && !Advisor.Approves(o.verdict)
    ensures var s := OpenSpec(cfg, l, symbol, positionType, o);
            s.reply == Ok(Refused(Rejected, Advisor.ReasonOr(o.verdict, UnknownReason))) && s.ledger == l &&
            s.calls == [PositionQuery, MarketDataQuery, VerifyEntry] &&
            (forall c :: c in s.calls ==> !c.SetLeverage? && !c.MarketOrder?)
  {
  }

  /** An open position on the requested side: "skipped", no advisor call, no
      order, ledger unchanged. */
  lemma OpenSameSideSkips(cfg: Config, l: Ledger, symbol: string, positionType: string, o: OpenOracle)
    requires ValidLedger(l) && PricedMarket(o) && o.current.Ok? && o.current.value.Some?
    requires o.current.value.value.positionType == TargetSide(cfg, positionType)
    ensures var s := OpenSpec(cfg, l, symbol, positionType, o);
            s.reply.Ok? && s.reply.value.status == Skipped && s.ledger == l &&
            s.calls == [PositionQuery, MarketDataQuery]
  {
  }

  /** A successful reversal is the entry block run after the close. */
  lemma ReverseSuccessIsEntry(cfg: Config, l: Ledger, symbol: string, side: string, price: real,
                              current: Exchange.Position, o: OpenOracle) returns (base: Ledger)
    requires ValidLedger(l)
    requires ReverseSpec(cfg, l, symbol, side, price, current, o).reply.Ok?
    requires ReverseSpec(cfg, l, symbol, side, price, current, o).reply.value.status == Success
    ensures ValidLedger(base) && base.order == l.order && base.logs.Keys == l.logs.Keys
    ensures ReverseSpec(cfg, l, symbol, side, price, current, o) ==
            EnterAndRecord(cfg, base, symbol, side, Advisor.ReasonOr(o.verdict, SwitchReason), Partial, o.entry,
                           [PositionQuery, MarketDataQuery, ClosePosition, CancelOrders, VerifyEntry])
  {
    assert o.close.Ok? && Truthy(o.close.value);
    assert o.cancel.Ok?;
    assert Advisor.Approves(o.verdict);
    base := CloseForReversal(l, symbol, price, o.closedAt, side, current.unrealizedPnl);
    assert base.logs.Keys == l.logs.Keys;
  }

  /** A successful open is the entry block run on the ledger as it stands
      after any reversal close, which has the same keys in the same order. */
  lemma OpenSuccessIsEntry(cfg: Config, l: Ledger, symbol: string, positionType: string, o: OpenOracle)
    returns (base: Ledger, reason: Value, failStatus: Status, prior: seq<Call>)
    requires ValidLedger(l)
    requires OpenSpec(cfg, l, symbol, positionType, o).reply.Ok?
    requires OpenSpec(cfg, l, symbol, positionType, o).reply.value.status == Success
    ensures ValidLedger(base) && base.order == l.order && base.logs.Keys == l.logs.Keys && failStatus != Success
    ensures OpenSpec(cfg, l, symbol, positionType, o) ==
            EnterAndRecord(cfg, base, symbol, TargetSide(cfg, positionType), reason, failStatus, o.entry, prior)
  {
    var s := OpenSpec(cfg, l, symbol, positionType, o);
    var side := TargetSide(cfg, positionType);
    assert o.current.Ok? && o.market.Ok? && o.market.value.currentPrice.Some?;
    if o.current.value.None? {
      base, reason, failStatus, prior := l, Advisor.ReasonOr(o.verdict, ApprovedReason), Error, [PositionQuery, MarketDataQuery, VerifyEntry];
    } else {
      var current := o.current.value.value;
      assert current.positionType != side;
      assert s == ReverseSpec(cfg, l, symbol, side, o.market.value.currentPrice.value, current, o);
      base := ReverseSuccessIsEntry(cfg, l, symbol, side, o.market.value.currentPrice.value, current, o);
      reason, failStatus, prior := Advisor.ReasonOr(o.verdict, SwitchReason), Partial, [PositionQuery, MarketDataQuery, ClosePosition, CancelOrders, VerifyEntry];
    }
  }

  /** Whenever the open handler replies success, it recorded exactly the log
      its reply names: open, at the price the exchange reports after the
      order, with TP/SL from the formula, under the fresh trade id; every
      log already in the ledger keeps its place. */
  lemma OpenSuccessRecordsLog(cfg: Config, l: Ledger, symbol: string, positionType: string, o: OpenOracle)
    requires ValidLedger(l)
    requires OpenSpec(cfg, l, symbol, positionType, o).reply.Ok?
    requires OpenSpec(cfg, l, symbol, positionType, o).reply.value.status == Success
    requires o.entry.newId !in l.logs
    ensures var s := OpenSpec(cfg, l, symbol, positionType, o);
            var side := TargetSide(cfg, positionType);
            OrderSucceeded(o.entry) && o.entry.positionAfter.Ok? && o.entry.positionAfter.value.Some? &&
            var p := o.entry.positionAfter.value.value;
            var (tp, sl) := TpSl(side, p.entryPrice, cfg.tpPercent, cfg.slPercent);
            s.reply.value == Opened(Success, o.entry.newId, p.entryPrice, o.entry.orderQty.value, cfg.leverage, tp, sl) &&
            s.ledger.order == l.order + [o.entry.newId] &&
            s.ledger.logs.Keys == l.logs.Keys + {o.entry.newId} &&
            var log := s.ledger.logs[o.entry.newId];
            log.status == Open && log.symbol == symbol && log.positionType == side &&
            log.entryPrice == p.entryPrice && log.tpPrice == Some(tp) && log.slPrice == Some(sl) &&
            MarketOrder(OrderSide(side)) in s.calls
  {
    var base, reason, failStatus, prior := OpenSuccessIsEntry(cfg, l, symbol, positionType, o);
  }

  /** On a flat account an entry block that records nothing (refused order,
      no position after the order, an exception) replies "error" and leaves
      the ledger unchanged. */
  lemma OpenFailureRecordsNothing(cfg: Config, l: Ledger, symbol: string, positionType: string, o: OpenOracle)
    requires ValidLedger(l) && o.current == Ok(None) && PricedMarket(o) && Advisor.Approves(o.verdict)
    requires !EntryAttempt(cfg, symbol, TargetSide(cfg, positionType), Advisor.ReasonOr(o.verdict, ApprovedReason), o.entry).outcome.Entered?
    ensures var s := OpenSpec(cfg, l, symbol, positionType, o);
            s.reply.Ok? && s.reply.value.status == Error && s.ledger == l
  {
  }

  /** A refused order on a flat account: "error" with the exchange's
      message, no position re-query, nothing recorded. */
  lemma OpenOrderRefused(cfg: Config, l: Ledger, symbol: string, positionType: string, o: OpenOracle)
    requires ValidLedger(l) && o.current == Ok(None) && PricedMarket(o) && Advisor.Approves(o.verdict)
    requires o.entry.setLeverage.Ok? && o.entry.orderQty.Ok? && o.entry.orderResult.Ok?
    requires o.entry.orderResult.value.Obj? && !Exchange.RetCodeIsZero(o.entry.orderResult.value)
    ensures var s := OpenSpec(cfg, l, symbol, positionType, o);
            s.reply == Ok(Refused(Error, Exchange.FieldOr(o.entry.orderResult.value, "retMsg", UnknownReason))) &&
            s.ledger == l && s.calls[|s.calls| - 1] == MarketOrder(OrderSide(TargetSide(cfg, positionType)))
  {
  }

  /** Reversal whose close comes back falsy: "error", the old log stays
      open, and the advisor is not consulted. */
  lemma ReversalCloseFailure(cfg: Config, l: Ledger, symbol: string, positionType: string, o: OpenOracle)
    requires ValidLedger(l) && PricedMarket(o) && o.current.Ok? && o.current.value.Some?
    requires o.current.value.value.positionType != TargetSide(cfg, positionType)
    requires o.close.Ok? && !Truthy(o.close.value)
    ensures var s := OpenSpec(cfg, l, symbol, positionType, o);
            s.reply.Ok? && s.reply.value.status == Error && s.ledger == l && VerifyEntry !in s.calls
  {
  }

  /** Reversal whose close and cancel succeed: the first open log of the
      symbol is closed at the market price with the exchange's unrealised
      PnL, whatever the advisor then decides; a refusal replies "partial". */
  lemma ReversalClosesPriorLog(cfg: Config, l: Ledger, symbol: string, positionType: string, o: OpenOracle)
    requires ValidLedger(l) && PricedMarket(o) && o.current.Ok? && o.current.value.Some?
    requires o.current.value.value.positionType != TargetSide(cfg, positionType)
    requires o.close.Ok? && Truthy(o.close.value) && o.cancel.Ok?
    requires ActiveLogId(l, symbol).Some?
    ensures var s := OpenSpec(cfg, l, symbol, positionType, o);
            var id := ActiveLogId(l, symbol).value;
            var side := TargetSide(cfg, positionType);
            s.reply.Ok? && (s.reply.value.status == Success || s.reply.value.status == Partial) &&
            (o.entry.newId != id ==>
               s.ledger.logs[id] == ExitedLog(l.logs[id], o.market.value.currentPrice.value, o.closedAt, ReversalExit(side))
                                     .(pnl := Some(o.current.value.value.unrealizedPnl))) &&
            (!Advisor.Approves(o.verdict) ==> s.reply.value == Refused(Partial, Advisor.ReasonOr(o.verdict, UnknownReason)))
  {
  }

  /** As coded, get_market_data never returns (see Market.GetMarketData), so
      once the position query returns, handle_open_position raises before
      any advisor or order call and records nothing. */
  lemma OpenAsCodedRaises(cfg: Config, l: Ledger, symbol: string, positionType: string, o: OpenOracle, price: Result<real>)
    requires ValidLedger(l) && o.market == Market.GetMarketData(symbol, price)
    ensures var s := OpenSpec(cfg, l, symbol, positionType, o);
            s.reply.Raised? && s.ledger == l && |s.calls| <= 2 && VerifyEntry !in s.calls
  {
  }

  /** With get_market_data as intended (Market.MarketDataIntended), a flat
      account whose price, order book and candles are all available gets as
      far as the advisor: the position query, the market data and the entry
      verification come first, in that order. */
  lemma OpenIntendedConsultsAdvisor(cfg: Config, l: Ledger, symbol: string, positionType: string, o: OpenOracle,
                                    price: real, orderbook: Value, candles5m: seq<Indicators.Chart>, candles15m: seq<Indicators.Chart>)
    requires ValidLedger(l) && o.current == Ok(None)
    requires o.market == Market.MarketDataIntended(symbol, Ok(price), orderbook, candles5m, candles15m)
    requires orderbook.Obj? && candles5m != [] && candles15m != []
    ensures var s := OpenSpec(cfg, l, symbol, positionType, o);
            |s.calls| >= 3 && s.calls[..3] == [PositionQuery, MarketDataQuery, VerifyEntry] &&
            (s.reply.Ok? && s.reply.value.status == Success ==> Advisor.Approves(o.verdict))
  {
    var s := OpenSpec(cfg, l, symbol, positionType, o);
    var calls1 := [PositionQuery, MarketDataQuery, VerifyEntry];
    if Advisor.Approves(o.verdict) {
      var side := TargetSide(cfg, positionType);
      var e := EntryAttempt(cfg, symbol, side, Advisor.ReasonOr(o.verdict, ApprovedReason), o.entry);
      assert s.calls == calls1 + e.calls;
      assert s.calls[..3] == calls1;
    }
  }

  /** With no position the close handler skips, makes no close call and
      leaves the ledger. */
  lemma CloseWithoutPositionSkips(l: Ledger, symbol: string, o: CloseOracle)
    requires ValidLedger(l)
    ensures var s := CloseSpec(l, symbol, Ok(None), o);
            s.reply.Ok? && s.reply.value.status == Skipped && s.ledger == l && s.calls == [PositionQuery]
  {
  }

  /** The close handler replies success exactly when price, close and cancel
      succeed (and, when a log is open, the entry price is not zero); it
      then reports the price and the PnL it recorded on the first open log. */
  lemma CloseSuccess(l: Ledger, symbol: string, cur: Exchange.Position, o: CloseOracle)
    requires ValidLedger(l)
    ensures var s := CloseSpec(l, symbol, Ok(Some(cur)), o);
            s.reply.Ok? &&
            (s.reply.value.status == Success <==>
               o.price.Ok? && o.close.Ok? && Truthy(o.close.value) && o.cancel.Ok? &&
               (ActiveLogId(l, symbol).Some? ==> cur.entryPrice != 0.0)) &&
            (s.reply.value.status == Success ==>
               s.reply.value == Exited(Success, o.price.value, CloseBlock(l, symbol, cur, o, SignalExit).outcome.pnl, None) &&
               s.calls == [PositionQuery, PriceQuery, ClosePosition, CancelOrders]) &&
            (s.reply.value.status != Success ==> s.reply.value.status == Error)
  {
  }

  /** A close that fails before the exchange confirmed it leaves the ledger
      unchanged. */
  lemma CloseFailureLeavesLedger(l: Ledger, symbol: string, cur: Exchange.Position, o: CloseOracle)
    requires ValidLedger(l)
    requires !(o.price.Ok? && o.close.Ok? && Truthy(o.close.value) && o.cancel.Ok?)
    ensures var s := CloseSpec(l, symbol, Ok(Some(cur)), o);
            s.reply.Ok? && s.reply.value.status == Error && s.ledger == l
  {
  }

  /** An advisor that does not approve keeps the position: "maintain", no
      close call, ledger unchanged. */
  lemma TrendMaintainSendsNoClose(l: Ledger, symbol: string, cur: Exchange.Position, md: Market.MarketVO,
                                  v: Advisor.Verdict, o: CloseOracle)
    requires ValidLedger(l) && !Advisor.Approves(v)
    ensures var s := TrendSpec(l, symbol, Ok(Some(cur)), Ok(md), Ok(v), o);
            s.reply == Ok(Refused(Maintain, Advisor.ReasonOr(v, UnknownReason))) && s.ledger == l && ClosePosition !in s.calls
  {
  }

  /** With a verdict that the advisor returns (the verify_trend_touch call
      made with its declared arguments), an approved close runs the close
      block with the trend exit reason: the close request is sent once the
      price is known, and the ledger is exactly what the close block leaves. */
  lemma TrendApprovedCloses(l: Ledger, symbol: string, cur: Exchange.Position, md: Market.MarketVO,
                            v: Advisor.Verdict, o: CloseOracle)
    requires ValidLedger(l) && Advisor.Approves(v)
    ensures var s := TrendSpec(l, symbol, Ok(Some(cur)), Ok(md), Ok(v), o);
            var c := CloseBlock(l, symbol, cur, o, TrendExit);
            s.reply.Ok? && s.ledger == c.ledger &&
            s.calls == [PositionQuery, MarketDataQuery, VerifyTrendTouch] + c.calls &&
            (o.price.Ok? ==> ClosePosition in s.calls) &&
            (s.reply.value.status == Success <==> c.outcome.Exit?)
  {
    var c := CloseBlock(l, symbol, cur, o, TrendExit);
    if o.price.Ok? {
      assert c.calls[1] == ClosePosition;
      var s := TrendSpec(l, symbol, Ok(Some(cur)), Ok(md), Ok(v), o);
      assert s.calls[4] == ClosePosition;
    }
  }

  /** As coded, handle_trend_touch with an open position always raises: the
      market-data call raises, and even a returned market snapshot meets
      the verify_trend_touch call with the wrong number of arguments. No
      close is issued and the ledger is unchanged. */
  lemma TrendAsCodedRaises(l: Ledger, symbol: string, cur: Exchange.Position, market: Result<Market.MarketVO>, o: CloseOracle)
    requires ValidLedger(l)
    ensures var s := TrendSpec(l, symbol, Ok(Some(cur)), market, TrendTouchCallAsCoded, o);
            s.reply.Raised? && s.ledger == l && ClosePosition !in s.calls
  {
  }

  // ---------------------------------------------------------------------
  // The position manager object
  // ---------------------------------------------------------------------

  /** PositionManager: the settings it read at start-up and the trade-log
      dict it updates in place. A TradeLog held by the dict is changed by
      replacing the entry under its key (no other reference to it is kept
      across a call). */
  class PositionManager {
    const cfg: Config
    var order: seq<string>
    var logs: map<string, TradeLog>

    ghost predicate Valid()
      reads this
    {
      ValidLedger(Ledger(order, logs))
    }

    function TradeLogs(): Ledger
      reads this
    {
      Ledger(order, logs)
    }

    /** `__init__`: settings, an empty dict, then the saved logs
        (`saved` is None when the file is absent or unreadable). */
    constructor (cfg: Config, saved: Option<seq<(string, Value)>>)
      ensures this.cfg == cfg && Valid()
      ensures TradeLogs() == if saved.Some? then LoadInto(EmptyLedger, saved.value) else EmptyLedger
    {
      this.cfg := cfg;
      order := [];
      logs := map[];
      new;
      LoadTradeLogs(saved);
    }

    /** `trade_logs[id] = log`. */
    method Record(id: string, log: TradeLog)
      requires Valid()
      modifies this
      ensures Valid() && TradeLogs() == Put(old(TradeLogs()), id, log)
    {
      if id !in logs {
        order := order + [id];
      }
      logs := logs[id := log];
    }

    /** `load_trade_logs`: each saved dict becomes a TradeLog under its key,
        in file order, until an entry fails to load. */
    method LoadTradeLogs(saved: Option<seq<(string, Value)>>)
      requires Valid()
      modifies this
      ensures Valid()
      ensures TradeLogs() == if saved.Some? then LoadInto(old(TradeLogs()), saved.value) else old(TradeLogs())
    {
      if saved.None? {
        return;
      }
      var entries := saved.value;
      var i := 0;
      while i < |entries|
        invariant 0 <= i <= |entries| && Valid()
        invariant LoadInto(old(TradeLogs()), entries) == LoadInto(TradeLogs(), entries[i..])
      {
        assert entries[i..][0] == entries[i] && entries[i..][1..] == entries[i + 1..];
        var log := LoadLog(entries[i].0, entries[i].1);
        if log.None? {
          return;
        }
        Record(entries[i].0, log.value);
        i := i + 1;
      }
    }

    /** `save_trade_logs`, up to the file write: the dict written, key by
        key in dict order. */
    method SaveTradeLogs() returns (data: seq<(string, Value)>)
      requires Valid()
      ensures data == SavedLogs(TradeLogs())
    {
      data := [];
      for i := 0 to |order|
        invariant data == SavedLogs(TradeLogs())[..i]
      {
        data := data + [(order[i], SaveLog(logs[order[i]]))];
      }
      assert SavedLogs(TradeLogs())[..|order|] == SavedLogs(TradeLogs());
    }

    /** `get_active_trade_log`: scans the logs in dict order for the first
        open one of the symbol; the result is its key. */
    method GetActiveTradeLog(symbol: string) returns (id: Option<string>)
      requires Valid()
      ensures id == ActiveLogId(TradeLogs(), symbol)
    {
      var i := 0;
      while i < |order|
        invariant 0 <= i <= |order|
        invariant FirstOpenFrom(TradeLogs(), symbol, 0) == FirstOpenFrom(TradeLogs(), symbol, i)
      {
        if IsOpenFor(logs[order[i]], symbol) {
          return Some(order[i]);
        }
        i := i + 1;
      }
      return None;
    }

    /** The entry block of both entry paths and the insert that follows a
        successful one. */
    method Enter(symbol: string, side: string, reason: Value, failStatus: Status, o: EntryOracle, prior: seq<Call>)
      returns (reply: Result<Reply>, calls: seq<Call>)
      requires Valid() && failStatus != Success
      modifies this
      ensures Valid()
      ensures Step(reply, TradeLogs(), calls) == EnterAndRecord(cfg, old(TradeLogs()), symbol, side, reason, failStatus, o, prior)
    {
      var e := EntryAttempt(cfg, symbol, side, reason, o);
      calls := prior + e.calls;
      if e.outcome.Entered? {
        Record(e.outcome.log.tradeId, e.outcome.log);
        reply := Ok(EnteredReply(e.outcome.log));
      } else {
        reply := Ok(EntryFailure(failStatus, e.outcome));
      }
    }

    /** The close block: price, close, cancel, then the exit fields and the
        PnL written on the active log. */
    method CloseActive(symbol: string, cur: Exchange.Position, o: CloseOracle, reason: string)
      returns (outcome: CloseOutcome, calls: seq<Call>)
      requires Valid()
      modifies this
      ensures Valid()
      ensures CloseStep(TradeLogs(), outcome, calls) == CloseBlock(old(TradeLogs()), symbol, cur, o, reason)
    {
      calls := [PriceQuery];
      if o.price.Raised? {
        return CloseRaised(o.price.message), calls;
      }
      var price := o.price.value;
      calls := calls + [ClosePosition];
      if o.close.Raised? {
        return CloseRaised(o.close.message), calls;
      }
      if !Truthy(o.close.value) {
        return CloseRefused, calls;
      }
      calls := calls + [CancelOrders];
      if o.cancel.Raised? {
        return CloseRaised(o.cancel.message), calls;
      }
      outcome := ExitActiveLog(symbol, cur, price, o.closedAt, reason);
    }

    /** The ledger part of the close block. */
    method ExitActiveLog(symbol: string, cur: Exchange.Position, price: real, at: int, reason: string)
      returns (outcome: CloseOutcome)
      requires Valid()
      modifies this
      ensures Valid()
      ensures (TradeLogs(), outcome) == ExitActive(old(TradeLogs()), symbol, cur, price, at, reason)
    {
      var active := GetActiveTradeLog(symbol);
      if active.None? {
        return Exit(price, None);
      }
      var id := active.value;
      ghost var l := TradeLogs();
      var log := logs[id];
      var exited := ExitedLog(log, price, at, reason);
      logs := logs[id := exited];
      if cur.entryPrice == 0.0 {
        assert TradeLogs() == Update(l, id, exited);
        return CloseRaised(ZeroDivision);
      }
      var pnl := Pnl(cur.positionType, cur.entryPrice, price, log);
      logs := logs[id := exited.(pnl := Some(pnl))];
      assert TradeLogs() == Update(l, id, exited.(pnl := Some(pnl)));
      outcome := Exit(price, Some(pnl));
    }

    /** `handle_open_position`. */
    method HandleOpenPosition(symbol: string, positionType: string, o: OpenOracle)
      returns (reply: Result<Reply>, calls: seq<Call>)
      requires Valid()
      modifies this
      ensures Valid()
      ensures Step(reply, TradeLogs(), calls) == OpenSpec(cfg, old(TradeLogs()), symbol, positionType, o)
    {
      var side := TargetSide(cfg, positionType);
      calls := [PositionQuery];
      if o.current.Raised? {
        return Raised(o.current.message), calls;
      }
      var current := o.current.value;
      calls := calls + [MarketDataQuery];
      if o.market.Raised? {
        return Raised(o.market.message), calls;
      }
      var price := o.market.value.currentPrice;
      if price.None? {
        return Ok(Plain(Error, "current price lookup failed")), calls;
      }
      if current.None? {
        calls := calls + [VerifyEntry];
        if !Advisor.Approves(o.verdict) {
          return Ok(Refused(Rejected, Advisor.ReasonOr(o.verdict, UnknownReason))), calls;
        }
        reply, calls := Enter(symbol, side, Advisor.ReasonOr(o.verdict, ApprovedReason), Error, o.entry, calls);
        return;
      }
      if current.value.positionType == side {
        return Ok(Plain(Skipped, "a " + side + " position is already open")), calls;
      }
      reply, calls := Reverse(symbol, side, price.value, current.value, o);
    }

    /** The reversal path of `handle_open_position`. */
    method Reverse(symbol: string, side: string, price: real, current: Exchange.Position, o: OpenOracle)
      returns (reply: Result<Reply>, calls: seq<Call>)
      requires Valid()
      modifies this
      ensures Valid()
      ensures Step(reply, TradeLogs(), calls) == ReverseSpec(cfg, old(TradeLogs()), symbol, side, price, current, o)
    {
      calls := [PositionQuery, MarketDataQuery, ClosePosition];
      if o.close.Raised? {
        return Raised(o.close.message), calls;
      }
      if !Truthy(o.close.value) {
        return Ok(Plain(Error, "closing the existing position failed")), calls;
      }
      calls := calls + [CancelOrders];
      if o.cancel.Raised? {
        return Raised(o.cancel.message), calls;
      }
      var active := GetActiveTradeLog(symbol);
      if active.Some? {
        var id := active.value;
        logs := logs[id := ExitedLog(logs[id], price, o.closedAt, ReversalExit(side)).(pnl := Some(current.unrealizedPnl))];
      }
      calls := calls + [VerifyEntry];
      if !Advisor.Approves(o.verdict) {
        return Ok(Refused(Partial, Advisor.ReasonOr(o.verdict, UnknownReason))), calls;
      }
      reply, calls := Enter(symbol, side, Advisor.ReasonOr(o.verdict, SwitchReason), Partial, o.entry, calls);
    }

    /** `handle_close_position`; `current` is get_active_position. */
    method HandleClosePosition(symbol: string, current: Result<Option<Exchange.Position>>, o: CloseOracle)
      returns (reply: Result<Reply>, calls: seq<Call>)
      requires Valid()
      modifies this
      ensures Valid()
      ensures Step(reply, TradeLogs(), calls) == CloseSpec(old(TradeLogs()), symbol, current, o)
    {
      calls := [PositionQuery];
      if current.Raised? {
        return Raised(current.message), calls;
      }
      if current.value.None? {
        return Ok(Plain(Skipped, "no position for " + symbol)), calls;
      }
      var outcome, closeCalls := CloseActive(symbol, current.value.value, o, SignalExit);
      calls := calls + closeCalls;
      reply := Ok(CloseReply(outcome, None));
    }

    /** `handle_trend_touch`, over the outcome of the verify_trend_touch
        call (as coded: `TrendTouchCallAsCoded`). */
    method HandleTrendTouch(symbol: string, current: Result<Option<Exchange.Position>>, market: Result<Market.MarketVO>,
                            verdict: Result<Advisor.Verdict>, o: CloseOracle)
      returns (reply: Result<Reply>, calls: seq<Call>)
      requires Valid()
      modifies this
      ensures Valid()
      ensures Step(reply, TradeLogs(), calls) == TrendSpec(old(TradeLogs()), symbol, current, market, verdict, o)
    {
      calls := [PositionQuery];
      if current.Raised? {
        return Raised(current.message), calls;
      }
      if current.value.None? {
        return Ok(Plain(Skipped, "no position for " + symbol)), calls;
      }
      calls := calls + [MarketDataQuery];
      if market.Raised? {
        return Raised(market.message), calls;
      }
      calls := calls + [VerifyTrendTouch];
      if verdict.Raised? {
        return Raised(verdict.message), calls;
      }
      var v := verdict.value;
      if !Advisor.Approves(v) {
        return Ok(Refused(Maintain, Advisor.ReasonOr(v, UnknownReason))), calls;
      }
      var outcome, closeCalls := CloseActive(symbol, current.value.value, o, TrendExit);
      calls := calls + closeCalls;
      reply := Ok(CloseReply(outcome, Some(Advisor.ReasonOr(v, TrendCloseReason))));
    }
  }
}
