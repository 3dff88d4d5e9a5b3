/** The decision layer of decision_manager.py: one exchange client and one
    market-data collector per configured symbol, and the three webhook
    handlers, which consult the advisor and forward signals to the
    execution server instead of trading. Every handler catches every
    exception and replies "error". */
module Decisions {
  import opened Wrappers
  import opened Json
  import opened Text
  import Exchange
  import Market
  import Advisor
  import Indicators
  import Ledger

  /** The API key pair an exchange client is built from. */
  datatype Credentials = Credentials(key: string, secret: string)

  /** The calls a decision handler makes, in order. */
  datatype Call =
    | PositionQuery
    | MarketDataQuery
    | PriceQuery
    | VerifyEntry
    | VerifyTrendTouch
    | SendOpen(positionType: string)
    | SendClose
    | SendTrendDecision

  /** The reply dict: status, paraphrased message, the value the message
      quotes (a reason or the execution server's message), the advisor
      verdict when one is returned, and the change rate in percent. */
  datatype Reply = Reply(status: Ledger.Status, message: string, detail: Value, aiDecision: Option<Advisor.Verdict>, changeRate: Option<real>)

  datatype Outcome = Outcome(reply: Reply, calls: seq<Call>)

  /** What an execution-server reply means to the handlers. */
  datatype Execution = Delivered | Refused(message: Value) | ExecutionRaised(error: string)

  /** `result.get("status") == "success"`, with an exception for a reply
      that is not a dict. */
  function ExecutionOf(r: Result<Value>): (e: Execution)
    ensures e.Delivered? <==> r.Ok? && r.value.Obj? && "status" in r.value.fields && r.value.fields["status"] == Str("success")
    ensures e.ExecutionRaised? <==> r.Raised? || !r.value.Obj?
  {
    match r
    case Raised(m) => ExecutionRaised(m)
    case Ok(v) =>
      if !v.Obj? then ExecutionRaised(Ledger.NoAttributeGet)
      else if Exchange.FieldOr(v, "status", Null) == Str("success") then Delivered
      else Refused(Exchange.FieldOr(v, "message", Null))
  }

  /** The trend-touch gate: moves under 3.3 percent are not analysed. */
  const ChangeRateGate: real := 3.3

  /** `((current - entry) / entry) * 100`. */
  function ChangeRate(current: real, entry: real): real
    requires entry != 0.0
  {
    ((current - entry) / entry) * 100.0
  }

  function UnsupportedSymbol(symbol: string): string
  {
    "ValueError: unsupported symbol: " + symbol
  }

  /** The reply of the outer exception handler. */
  function Failure(error: string): (r: Reply)
    ensures r.status == Ledger.Error && r.aiDecision.None?
  {
    Reply(Ledger.Error, "error while deciding: " + error, Null, None, None)
  }

  /** The results of the calls handle_open_position can make. */
  datatype OpenOracle = OpenOracle(
    position: Result<Option<Exchange.Position>>,
    market: Result<Market.MarketVO>,
    verdict: Advisor.Verdict,
    close: Result<Value>,
    open: Result<Value>)

  /** The results of the calls handle_trend_touch can make; `verdict` is the
      outcome of the verify_trend_touch call (as coded, `Ledger.TrendTouchCallAsCoded`). */
  datatype TrendOracle = TrendOracle(
    position: Result<Option<Exchange.Position>>,
    price: Result<real>,
    market: Result<Market.MarketVO>,
    verdict: Result<Advisor.Verdict>,
    decision: Result<Value>)

  class DecisionManager {
    /** `bybit_clients`: the credentials each symbol's client was built with. */
    var clients: map<string, Credentials>
    /** `data_collectors`: each wraps the client built for its symbol. */
    var collectors: map<string, Credentials>

    /** `__init__`: one client and one collector per configured symbol,
        built from that symbol's key (`apiKey` is the configuration lookup). */
    constructor (symbols: seq<string>, apiKey: string -> Credentials)
      ensures clients.Keys == collectors.Keys
      ensures forall s :: s in clients <==> s in symbols
      ensures forall s :: s in clients ==> clients[s] == apiKey(s) && collectors[s] == apiKey(s)
    {
      clients := map[];
      collectors := map[];
      new;
      for i := 0 to |symbols|
        invariant clients.Keys == collectors.Keys
        invariant forall s :: s in clients <==> s in symbols[..i]
        invariant forall s :: s in clients ==> clients[s] == apiKey(s) && collectors[s] == apiKey(s)
      {
        var symbol := symbols[i];
        var client := apiKey(symbol);
        clients := clients[symbol := client];
        collectors := collectors[symbol := client];
        assert symbols[..i + 1] == symbols[..i] + [symbol];
      }
      assert symbols[..|symbols|] == symbols;
    }

    /** `get_bybit_client`: a ValueError for a symbol without a client. */
    function GetBybitClient(symbol: string): (r: Result<Credentials>)
      reads this
      ensures r.Ok? <==> symbol in clients
      ensures r.Ok? ==> r.value == clients[symbol]
      ensures r.Raised? ==> r.message == UnsupportedSymbol(symbol)
    {
      if symbol in clients then Ok(clients[symbol]) else Raised(UnsupportedSymbol(symbol))
    }

    /** `get_data_collector`: a ValueError for a symbol without a collector. */
    function GetDataCollector(symbol: string): (r: Result<Credentials>)
      reads this
      ensures r.Ok? <==> symbol in collectors
      ensures r.Ok? ==> r.value == collectors[symbol]
      ensures r.Raised? ==> r.message == UnsupportedSymbol(symbol)
    {
      if symbol in collectors then Ok(collectors[symbol]) else Raised(UnsupportedSymbol(symbol))
    }

    /** `get_active_position`: the client lookup, then its position query
        (`query`); None when the exchange reports no position. */
    function GetActivePosition(symbol: string, query: Result<Option<Exchange.Position>>): (r: Result<Option<Exchange.Position>>)
      reads this
      ensures symbol !in clients ==> r == Raised(UnsupportedSymbol(symbol))
      ensures symbol in clients ==> r == query
    {
      match GetBybitClient(symbol)
      case Raised(m) => Raised(m)
      case Ok(_) => query
    }

    /** `handle_open_position`: flat account -> advisor -> open signal; same
        side -> skipped; other side -> close signal, advisor, open signal. */
    function HandleOpenPosition(symbol: string, positionType: string, o: OpenOracle): (r: Outcome)
      reads this
      ensures SendOpen(Lower(positionType)) in r.calls ==> Advisor.Approves(o.verdict)
      ensures forall c :: c in r.calls && c.SendOpen? ==> c == SendOpen(Lower(positionType))
      ensures r.reply.status == Ledger.Success ==>
                Advisor.Approves(o.verdict) && ExecutionOf(o.open).Delivered? && r.reply.aiDecision == Some(o.verdict)
      ensures symbol !in clients ==> r == Outcome(Failure(UnsupportedSymbol(symbol)), [])
      ensures r.reply.status in {Ledger.Success, Ledger.Error, Ledger.Rejected, Ledger.Skipped, Ledger.Partial}
    {
      var pt := Lower(positionType);
      match GetActivePosition(symbol, o.position)
      case Raised(m) => Outcome(Failure(m), if symbol in clients then [PositionQuery] else [])
      case Ok(current) =>
        match GetDataCollector(symbol)
        case Raised(m) => Outcome(Failure(m), [PositionQuery])
        case Ok(_) =>
          match o.market
          case Raised(m) => Outcome(Failure(m), [PositionQuery, MarketDataQuery])
          case Ok(md) =>
            var calls := [PositionQuery, MarketDataQuery];
            if md.currentPrice.None? then Outcome(Reply(Ledger.Error, "current price lookup failed", Null, None, None), calls)
            else if current.None? then
              var calls1 := calls + [VerifyEntry];
              if !Advisor.Approves(o.verdict) then
                Outcome(Reply(Ledger.Rejected, "advisor refused the entry", Advisor.ReasonOr(o.verdict, Ledger.UnknownReason), Some(o.verdict), None), calls1)
              else
                var calls2 := calls1 + [SendOpen(pt)];
                match ExecutionOf(o.open)
                case Delivered => Outcome(Reply(Ledger.Success, "open signal sent", Null, Some(o.verdict), None), calls2)
                case Refused(msg) => Outcome(Reply(Ledger.Error, "execution server error", msg, Some(o.verdict), None), calls2)
                case ExecutionRaised(m) => Outcome(Failure(m), calls2)
            else if current.value.positionType == pt then
              Outcome(Reply(Ledger.Skipped, "a " + pt + " position is already open", Null, None, None), calls)
            else
              var calls1 := calls + [SendClose];
              match ExecutionOf(o.close)
              case ExecutionRaised(m) => Outcome(Failure(m), calls1)
              case Refused(msg) => Outcome(Reply(Ledger.Error, "sending the close signal failed", msg, None, None), calls1)
              case Delivered =>
                var calls2 := calls1 + [VerifyEntry];
                if !Advisor.Approves(o.verdict) then
                  Outcome(Reply(Ledger.Partial, "close signal sent; advisor refused the new entry",
                                Advisor.ReasonOr(o.verdict, Ledger.UnknownReason), Some(o.verdict), None), calls2)
                else
                  var calls3 := calls2 + [SendOpen(pt)];
                  match ExecutionOf(o.open)
                  case Delivered => Outcome(Reply(Ledger.Success, "switch signals sent", Null, Some(o.verdict), None), calls3)
                  case Refused(msg) => Outcome(Reply(Ledger.Partial, "close signal sent; open signal failed", msg, Some(o.verdict), None), calls3)
                  case ExecutionRaised(m) => Outcome(Failure(m), calls3)
    }

    /** `handle_close_position`: skipped without a position, otherwise the
        close signal. */
    function HandleClosePosition(symbol: string, query: Result<Option<Exchange.Position>>, close: Result<Value>): (r: Outcome)
      reads this
      ensures r.reply.status == Ledger.Success <==> symbol in clients && query.Ok? && query.value.Some? && ExecutionOf(close).Delivered?
      ensures r.reply.status == Ledger.Skipped <==> symbol in clients && query == Ok(None)
      ensures SendClose in r.calls <==> symbol in clients && query.Ok? && query.value.Some?
      ensures r.reply.status in {Ledger.Success, Ledger.Error, Ledger.Skipped}
    {
      match GetActivePosition(symbol, query)
      case Raised(m) => Outcome(Failure(m), if symbol in clients then [PositionQuery] else [])
      case Ok(None) => Outcome(Reply(Ledger.Skipped, "no position for " + symbol, Null, None, None), [PositionQuery])
      case Ok(Some(_)) =>
        match ExecutionOf(close)
        case Delivered => Outcome(Reply(Ledger.Success, "close signal sent", Null, None, None), [PositionQuery, SendClose])
        case Refused(msg) => Outcome(Reply(Ledger.Error, "execution server error", msg, None, None), [PositionQuery, SendClose])
        case ExecutionRaised(m) => Outcome(Failure(m), [PositionQuery, SendClose])
    }

    /** `handle_trend_touch`: skipped without a position or when the price
        moved less than 3.3 percent from the entry; otherwise market data,
        advisor, and a decision signal when it approves the close. */
    function HandleTrendTouch(symbol: string, o: TrendOracle): (r: Outcome)
      reads this
      ensures SendTrendDecision in r.calls ==> o.verdict.Ok? && Advisor.Approves(o.verdict.value)
      ensures VerifyTrendTouch in r.calls ==>
                symbol in clients && o.position.Ok? && o.position.value.Some? && o.price.Ok? &&
                o.position.value.value.entryPrice != 0.0 &&
                Indicators.Abs(ChangeRate(o.price.value, o.position.value.value.entryPrice)) >= ChangeRateGate
      ensures symbol in clients && o.position.Ok? && o.position.value.Some? && o.price.Ok? &&
              o.position.value.value.entryPrice != 0.0 &&
              Indicators.Abs(ChangeRate(o.price.value, o.position.value.value.entryPrice)) < ChangeRateGate ==>
                r.reply.status == Ledger.Skipped && r.calls == [PositionQuery, PriceQuery] &&
                r.reply.changeRate == Some(ChangeRate(o.price.value, o.position.value.value.entryPrice))
      ensures r.reply.status in {Ledger.Success, Ledger.Error, Ledger.Skipped, Ledger.Maintain}
    {
      match GetActivePosition(symbol, o.position)
      case Raised(m) => Outcome(Failure(m), if symbol in clients then [PositionQuery] else [])
      case Ok(None) => Outcome(Reply(Ledger.Skipped, "no position for " + symbol, Null, None, None), [PositionQuery])
      case Ok(Some(p)) =>
        var calls := [PositionQuery, PriceQuery];
        match o.price
        case Raised(m) => Outcome(Failure(m), calls)
        case Ok(price) =>
          if p.entryPrice == 0.0 then Outcome(Failure(Ledger.ZeroDivision), calls)
          else
            var rate := ChangeRate(price, p.entryPrice);
            if Indicators.Abs(rate) < ChangeRateGate then
              Outcome(Reply(Ledger.Skipped, "price change under the 3.3% threshold", Null, None, Some(rate)), calls)
            else
              match GetDataCollector(symbol)
              case Raised(m) => Outcome(Failure(m), calls)
              case Ok(_) =>
                var calls1 := calls + [MarketDataQuery];
                match o.market
                case Raised(m) => Outcome(Failure(m), calls1)
                case Ok(_) =>
                  var calls2 := calls1 + [VerifyTrendTouch];
                  match o.verdict
                  case Raised(m) => Outcome(Failure(m), calls2)
                  case Ok(v) =>
                    if !Advisor.Approves(v) then
                      Outcome(Reply(Ledger.Maintain, "advisor keeps the position", Advisor.ReasonOr(v, Ledger.UnknownReason), Some(v), Some(rate)), calls2)
                    else
                      var calls3 := calls2 + [SendTrendDecision];
                      match ExecutionOf(o.decision)
                      case Delivered => Outcome(Reply(Ledger.Success, "trend-touch close signal sent", Null, Some(v), Some(rate)), calls3)
                      case Refused(msg) => Outcome(Reply(Ledger.Error, "execution server error", msg, Some(v), Some(rate)), calls3)
                      case ExecutionRaised(m) => Outcome(Failure(m), calls3)
    }
  }

  /** As coded, handle_trend_touch never forwards a decision: the verify
      call raises (see Ledger.TrendTouchCallAsCoded), the exception is
      caught, so the reply is "skipped" or "error" and no signal is sent. */
  lemma TrendTouchAsCodedSendsNothing(dm: DecisionManager, symbol: string, o: TrendOracle)
    requires o.verdict == Ledger.TrendTouchCallAsCoded
    ensures var r := dm.HandleTrendTouch(symbol, o);
            (r.reply.status == Ledger.Skipped || r.reply.status == Ledger.Error) && SendTrendDecision !in r.calls
  {
  }

  /** As coded, get_market_data never returns (Market.GetMarketData), so the
      open handler replies "error" and neither the advisor nor the execution
      server is contacted. */
  lemma OpenAsCodedSendsNothing(dm: DecisionManager, symbol: string, positionType: string, o: OpenOracle, price: Result<real>)
    requires o.market == Market.GetMarketData(symbol, price)
    ensures var r := dm.HandleOpenPosition(symbol, positionType, o);
            r.reply.status == Ledger.Error && forall c :: c in r.calls ==> c == PositionQuery || c == MarketDataQuery
  {
    assert o.market.Raised?;
    var r := dm.HandleOpenPosition(symbol, positionType, o);
    if dm.GetActivePosition(symbol, o.position).Raised? {
      assert r.calls == [] || r.calls == [PositionQuery];
    } else if dm.GetDataCollector(symbol).Raised? {
      assert r.calls == [PositionQuery];
    } else {
      assert r.calls == [PositionQuery, MarketDataQuery];
    }
  }

  /** A configured symbol with a price and no position: the advisor is
      asked; a refusal replies "rejected" with its reason and sends nothing,
      an approval sends the open signal and succeeds exactly when the
      execution server reports success (otherwise "error"). */
  lemma OpenFlatAccount(dm: DecisionManager, symbol: string, positionType: string, o: OpenOracle)
    requires symbol in dm.clients && symbol in dm.collectors
    requires o.position == Ok(None) && o.market.Ok? && o.market.value.currentPrice.Some?
    ensures var r := dm.HandleOpenPosition(symbol, positionType, o);
            (!Advisor.Approves(o.verdict) ==>
               r.reply.status == Ledger.Rejected && r.calls == [PositionQuery, MarketDataQuery, VerifyEntry] &&
               r.reply.detail == Advisor.ReasonOr(o.verdict, Ledger.UnknownReason)) &&
            (Advisor.Approves(o.verdict) ==>
               r.calls == [PositionQuery, MarketDataQuery, VerifyEntry, SendOpen(Lower(positionType))] &&
               (r.reply.status == Ledger.Success <==> ExecutionOf(o.open).Delivered?) &&
               (r.reply.status == Ledger.Success || r.reply.status == Ledger.Error))
  {
  }

  /** A position already open on the requested side: "skipped", after the
      position and market queries only. */
  lemma OpenSameSideSkips(dm: DecisionManager, symbol: string, positionType: string, o: OpenOracle, p: Exchange.Position)
    requires symbol in dm.clients && symbol in dm.collectors
    requires o.position == Ok(Some(p)) && p.positionType == Lower(positionType)
    requires o.market.Ok? && o.market.value.currentPrice.Some?
    ensures var r := dm.HandleOpenPosition(symbol, positionType, o);
            r.reply.status == Ledger.Skipped && r.calls == [PositionQuery, MarketDataQuery]
  {
  }

  /** A position open on the other side: the close signal goes first. If it
      is not delivered the reply is "error" and the advisor is not asked. */
  lemma OpenReversal(dm: DecisionManager, symbol: string, positionType: string, o: OpenOracle, p: Exchange.Position)
    requires symbol in dm.clients && symbol in dm.collectors
    requires o.position == Ok(Some(p)) && p.positionType != Lower(positionType)
    requires o.market.Ok? && o.market.value.currentPrice.Some?
    ensures var r := dm.HandleOpenPosition(symbol, positionType, o);
            |r.calls| >= 3 && r.calls[..3] == [PositionQuery, MarketDataQuery, SendClose] &&
            (!ExecutionOf(o.close).Delivered? ==>
               r.reply.status == Ledger.Error && r.calls == [PositionQuery, MarketDataQuery, SendClose] && VerifyEntry !in r.calls)
  {
  }

  /** Once the close signal of a reversal is delivered, the advisor is asked;
      the reply is "partial" unless it approves and the open signal is
      delivered too ("success"); a non-dict open reply raises ("error"). */
  lemma OpenReversalAfterClose(dm: DecisionManager, symbol: string, positionType: string, o: OpenOracle, p: Exchange.Position)
    requires symbol in dm.clients && symbol in dm.collectors
    requires o.position == Ok(Some(p)) && p.positionType != Lower(positionType)
    requires o.market.Ok? && o.market.value.currentPrice.Some? && ExecutionOf(o.close).Delivered?
    ensures var r := dm.HandleOpenPosition(symbol, positionType, o);
            (!Advisor.Approves(o.verdict) ==>
               r.reply.status == Ledger.Partial && r.calls == [PositionQuery, MarketDataQuery, SendClose, VerifyEntry]) &&
            (Advisor.Approves(o.verdict) ==>
               r.calls == [PositionQuery, MarketDataQuery, SendClose, VerifyEntry, SendOpen(Lower(positionType))] &&
               (ExecutionOf(o.open).Delivered? ==> r.reply.status == Ledger.Success) &&
               (ExecutionOf(o.open).Refused? ==> r.reply.status == Ledger.Partial) &&
               (ExecutionOf(o.open).ExecutionRaised? ==> r.reply.status == Ledger.Error))
  {
  }

  /** A symbol without a client: the lookup's ValueError is caught and
      nothing is called. */
  lemma TrendUnconfiguredFails(dm: DecisionManager, symbol: string, o: TrendOracle)
    requires symbol !in dm.clients
    ensures dm.HandleTrendTouch(symbol, o) == Outcome(Failure(UnsupportedSymbol(symbol)), [])
  {
  }

  /** No open position: "skipped" after the position query alone. */
  lemma TrendWithoutPositionSkips(dm: DecisionManager, symbol: string, o: TrendOracle)
    requires symbol in dm.clients && o.position == Ok(None)
    ensures var r := dm.HandleTrendTouch(symbol, o);
            r.reply.status == Ledger.Skipped && r.calls == [PositionQuery]
  {
  }

  /** Past the 3.3 percent gate with market data and an advisor verdict:
      an approval sends the decision and succeeds exactly when it is
      delivered; a refusal keeps the position ("maintain") and sends nothing.
      Every reply but the caught exception quotes the change rate. */
  lemma TrendPastGate(dm: DecisionManager, symbol: string, o: TrendOracle, p: Exchange.Position, price: real, v: Advisor.Verdict)
    requires symbol in dm.clients && symbol in dm.collectors
    requires o.position == Ok(Some(p)) && o.price == Ok(price) && p.entryPrice != 0.0
    requires Indicators.Abs(ChangeRate(price, p.entryPrice)) >= ChangeRateGate
    requires o.market.Ok? && o.verdict == Ok(v)
    ensures var r := dm.HandleTrendTouch(symbol, o);
            var calls := [PositionQuery, PriceQuery, MarketDataQuery, VerifyTrendTouch];
            (!Advisor.Approves(v) || !ExecutionOf(o.decision).ExecutionRaised? ==>
               r.reply.changeRate == Some(ChangeRate(price, p.entryPrice))) &&
            (!Advisor.Approves(v) ==>
               r.reply.status == Ledger.Maintain && r.calls == calls && r.reply.aiDecision == Some(v)) &&
            (Advisor.Approves(v) ==>
               r.calls == calls + [SendTrendDecision] &&
               (r.reply.status == Ledger.Success <==> ExecutionOf(o.decision).Delivered?) &&
               (r.reply.status == Ledger.Success || r.reply.status == Ledger.Error))
  {
  }
}
