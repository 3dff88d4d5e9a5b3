/** The `/webhook` endpoint of webhook_server.py: validation of a
    TradingView alert and dispatch to exactly one decision-manager handler.
    The handler's own reply is sent back unchanged with code 200; every
    other outcome is an error answer with code 400 or 500. */
module Webhook {
  import opened Wrappers
  import opened Json
  import opened Text

  /** What Flask hands the endpoint: whether the content type is JSON, and
      the decoded body (Raised when the body does not decode). */
  datatype Request = Request(isJson: bool, body: Result<Value>)

  /** The decision-manager handler a request is routed to, with the
      arguments it receives. */
  datatype Handler =
    | OpenPosition(symbol: string, positionType: string)
    | ClosePosition(symbol: string)
    | TrendTouch(symbol: string)

  /** `Answer` is a `{"status": "error", "message": ...}` reply with the
      given HTTP code; `Dispatched` is the handler's reply with code 200. */
  datatype Response = Answer(code: int, message: string) | Dispatched(handler: Handler)

  const NotJson := "please send the request as JSON"
  const InvalidData := "Invalid webhook data"
  const MissingFields := "Missing required fields: event or symbol"
  const MissingPosition := "Missing position field"
  const NoUpper := "'object' has no attribute 'upper'"
  const NoLower := "'object' has no attribute 'lower'"

  const OpenEvent := "open_pos"
  const CloseEvent := "close_pos"
  const TrendEvent := "close_trend_pos"

  /** `str(event)` for the values a truthy event can be; other values are
      not rendered. */
  function Show(v: Value): string
  {
    match v
    case Str(s) => s
    case Bool(b) => if b then "True" else "False"
    case Null => "None"
    case _ => "<value>"
  }

  function UnknownEvent(event: Value): string
  {
    "Unknown event type: " + Show(event)
  }

  /** `data.get(key)` on a dict. */
  function Field(fields: map<string, Value>, key: string): Value
  {
    if key in fields then fields[key] else Null
  }

  /** The payload checks the endpoint makes before any handler is called,
      up to and including the event and symbol being present. */
  predicate WellFormed(req: Request)
  {
    req.isJson && req.body.Ok? && Truthy(req.body.value) && req.body.value.Obj? &&
    Truthy(Field(req.body.value.fields, "event")) && Truthy(Field(req.body.value.fields, "symbol"))
  }

  /** `webhook()`. */
  function Route(req: Request): (r: Response)
    ensures r.Answer? ==> r.code == 400 || r.code == 500
    ensures !WellFormed(req) ==> r.Answer? && (r.code == 500 <==> req.isJson && req.body.Raised?)
    ensures r.Dispatched? ==>
              WellFormed(req) &&
              var f := req.body.value.fields;
              f["symbol"].Str? && r.handler.symbol == Upper(f["symbol"].s) &&
              (r.handler.OpenPosition? <==> f["event"] == Str(OpenEvent)) &&
              (r.handler.ClosePosition? <==> f["event"] == Str(CloseEvent)) &&
              (r.handler.TrendTouch? <==> f["event"] == Str(TrendEvent)) &&
              (r.handler.OpenPosition? ==> Field(f, "position") == Str(r.handler.positionType) && r.handler.positionType != "")
    ensures (WellFormed(req) && Field(req.body.value.fields, "symbol").Str? &&
             Field(req.body.value.fields, "event") in {Str(CloseEvent), Str(TrendEvent)}) ==> r.Dispatched?
    ensures (WellFormed(req) && Field(req.body.value.fields, "symbol").Str? &&
             Field(req.body.value.fields, "event") == Str(OpenEvent)) ==>
              (r.Dispatched? <==> Field(req.body.value.fields, "position").Str? && Field(req.body.value.fields, "position") != Str(""))
    ensures (WellFormed(req) && Field(req.body.value.fields, "event") !in {Str(OpenEvent), Str(CloseEvent), Str(TrendEvent)}) ==>
              r.Answer? && r.code == (if Field(req.body.value.fields, "symbol").Str? then 400 else 500)
  {
    if !req.isJson then Answer(400, NotJson)
    else match req.body
      case Raised(m) => Answer(500, m)
      case Ok(data) =>
        if !Truthy(data) || !data.Obj? then Answer(400, InvalidData)
        else
          var event := Field(data.fields, "event");
          var symbol := Field(data.fields, "symbol");
          if !Truthy(event) || !Truthy(symbol) then Answer(400, MissingFields)
          else if !symbol.Str? then Answer(500, NoUpper)
          else
            var sym := Upper(symbol.s);
            if event == Str(OpenEvent) then
              var position := Field(data.fields, "position");
              if !Truthy(position) then Answer(400, MissingPosition)
              else if !position.Str? then Answer(500, NoLower)
              else Dispatched(OpenPosition(sym, position.s))
            else if event == Str(CloseEvent) then Dispatched(ClosePosition(sym))
            else if event == Str(TrendEvent) then Dispatched(TrendTouch(sym))
            else Answer(400, UnknownEvent(event))
  }

  /** Rejections before dispatch: a non-JSON request, a body that is empty
      or not an object, or a missing event or symbol is answered with 400
      and reaches no handler. */
  lemma MalformedIsRejected(req: Request)
    requires req.body.Ok? && !WellFormed(req)
    ensures Route(req) == Answer(400, if !req.isJson then NotJson
                                      else if !Truthy(req.body.value) || !req.body.value.Obj? then InvalidData
                                      else MissingFields)
  {
  }

  /** A symbol string is an upper-case one after `upper()`: every
      forwarded symbol is unchanged by a second `upper()`. */
  lemma UpperIdempotent(s: string)
    ensures Upper(Upper(s)) == Upper(s)
  {
    assert forall i :: 0 <= i < |s| ==> UpperChar(UpperChar(s[i])) == UpperChar(s[i]);
  }

  /** The letter case of the symbol does not matter: two payloads that differ
      only in the case of their symbol string are routed the same way. */
  lemma SymbolCaseIgnored(fields: map<string, Value>, s: string, t: string)
    requires Upper(s) == Upper(t)
    ensures Route(Request(true, Ok(Obj(fields["symbol" := Str(s)])))) == Route(Request(true, Ok(Obj(fields["symbol" := Str(t)]))))
  {
    assert |s| == |Upper(s)| == |t|;
    var f, g := fields["symbol" := Str(s)], fields["symbol" := Str(t)];
    assert Field(f, "event") == Field(g, "event") && Field(f, "position") == Field(g, "position");
  }
}
