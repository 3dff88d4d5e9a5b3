/** The TP/SL watcher of position_monitor.py: a cache of the TP/SL prices of
    each symbol's open position, refreshed when the position changes and
    cleared when the position is gone or a close signal was sent, and the
    per-symbol check that sends a close signal when the price reaches
    either level. */
module Monitor {
  import opened Wrappers
  import Exchange
  import Ledger

  /** The monitor's own TP/SL percentages when the settings give none. */
  const DefaultTpPercent: real := 30.0
  const DefaultSlPercent: real := 2.5

  /** One cache entry: the position it was computed for and its levels. */
  datatype Watch = Watch(entryPrice: real, positionType: string, tpPrice: real, slPrice: real)

  /** Why a close signal was sent. */
  datatype Trigger = TakeProfit | StopLoss

  /** The cache entry for a position: `_calculate_tp_sl` (the same formula
      as Ledger.TpSl) with the monitor's percentages. */
  function WatchFor(positionType: string, entry: real, tpPercent: real, slPercent: real): (w: Watch)
    ensures w.entryPrice == entry && w.positionType == positionType
    ensures (w.tpPrice, w.slPrice) == Ledger.TpSl(positionType, entry, tpPercent, slPercent)
  {
    var (tp, sl) := Ledger.TpSl(positionType, entry, tpPercent, slPercent);
    Watch(entry, positionType, tp, sl)
  }

  /** The TP/SL test: a long position closes at or above TP, else at or
      below SL; anything else closes at or below TP, else at or above SL. */
  function TriggerOf(w: Watch, positionType: string, price: real): (t: Option<Trigger>)
    ensures positionType == "long" ==>
              (t == Some(TakeProfit) <==> price >= w.tpPrice) &&
              (t == Some(StopLoss) <==> price < w.tpPrice && price <= w.slPrice)
    ensures positionType != "long" ==>
              (t == Some(TakeProfit) <==> price <= w.tpPrice) &&
              (t == Some(StopLoss) <==> price > w.tpPrice && price >= w.slPrice)
  {
    if positionType == "long" then
      if price >= w.tpPrice then Some(TakeProfit) else if price <= w.slPrice then Some(StopLoss) else None
    else
      if price <= w.tpPrice then Some(TakeProfit) else if price >= w.slPrice then Some(StopLoss) else None
  }

  /** With percentages strictly between 0 and 100 and a positive entry, a
      freshly computed watch closes a position exactly when the price leaves
      the band between the two levels, at TP on the profitable side and at
      SL on the losing side. */
  lemma TriggerBand(positionType: string, entry: real, tpPercent: real, slPercent: real, price: real)
    requires entry > 0.0 && 0.0 < tpPercent < 100.0 && 0.0 < slPercent < 100.0
    ensures var w := WatchFor(positionType, entry, tpPercent, slPercent);
            var t := TriggerOf(w, positionType, price);
            (t == Some(TakeProfit) <==> (if positionType == "long" then price >= w.tpPrice else price <= w.tpPrice)) &&
            (t == Some(StopLoss) <==> (if positionType == "long" then price <= w.slPrice else price >= w.slPrice)) &&
            (t.Some? ==> (if positionType == "long" then (price > entry <==> t == Some(TakeProfit))
                          else (price < entry <==> t == Some(TakeProfit))))
  {
    Ledger.TpSlBracketsEntry(positionType, entry, tpPercent, slPercent);
  }

  /** What one call of `_check_position` leaves in the cache, and the close
      signal it sent, if any. */
  datatype Check = Check(monitored: map<string, Watch>, signal: Option<Trigger>)

  /** `_check_position` for one symbol. `position` is the decision
      manager's position query, `price` the current-price call; an exception
      from either is caught and leaves the cache as it was. A falsy price
      (zero) is treated as a failed lookup. */
  function CheckSpec(m: map<string, Watch>, tpPercent: real, slPercent: real, symbol: string,
                     position: Result<Option<Exchange.Position>>, price: Result<real>): (c: Check)
    ensures forall s :: s != symbol ==> (s in c.monitored <==> s in m)
    ensures forall s :: s != symbol && s in m ==> c.monitored[s] == m[s]
  {
    match position
    case Raised(_) => Check(m, None)
    case Ok(None) => Check(m - {symbol}, None)
    case Ok(Some(p)) =>
      match price
      case Raised(_) => Check(m, None)
      case Ok(current) =>
        if current == 0.0 then Check(m, None)
        else
          var m1 := if symbol !in m || m[symbol].entryPrice != p.entryPrice || m[symbol].positionType != p.positionType
                    then m[symbol := WatchFor(p.positionType, p.entryPrice, tpPercent, slPercent)]
                    else m;
          match TriggerOf(m1[symbol], p.positionType, current)
          case None => Check(m1, None)
          case Some(t) => Check(m1 - {symbol}, Some(t))
  }

  /** An exchange with no position for the symbol removes its cache entry
      and sends nothing. */
  lemma NoPositionClearsWatch(m: map<string, Watch>, tpPercent: real, slPercent: real, symbol: string, price: Result<real>)
    ensures var c := CheckSpec(m, tpPercent, slPercent, symbol, Ok(None), price);
            symbol !in c.monitored && c.signal.None?
  {
  }

  /** A failed position or price lookup changes nothing. */
  lemma FailedLookupChangesNothing(m: map<string, Watch>, tpPercent: real, slPercent: real, symbol: string,
                                   position: Result<Option<Exchange.Position>>, price: Result<real>)
    requires position.Raised? || (position.Ok? && position.value.Some? && (price.Raised? || price == Ok(0.0)))
    ensures CheckSpec(m, tpPercent, slPercent, symbol, position, price) == Check(m, None)
  {
  }

  /** After a check with a position and a price: either a close signal was
      sent and the entry is gone, or the cache holds a watch for exactly this
      position (entry price and type), with the documented levels when it
      was (re)computed; the signal is the TP/SL test on that watch. */
  lemma CheckTracksPosition(m: map<string, Watch>, tpPercent: real, slPercent: real, symbol: string,
                            p: Exchange.Position, current: real)
    requires current != 0.0
    ensures var c := CheckSpec(m, tpPercent, slPercent, symbol, Ok(Some(p)), Ok(current));
            var recomputed := symbol !in m || m[symbol].entryPrice != p.entryPrice || m[symbol].positionType != p.positionType;
            var w := if recomputed then WatchFor(p.positionType, p.entryPrice, tpPercent, slPercent) else m[symbol];
            w.entryPrice == p.entryPrice && w.positionType == p.positionType &&
            c.signal == TriggerOf(w, p.positionType, current) &&
            (c.signal.Some? ==> symbol !in c.monitored) &&
            (c.signal.None? ==> symbol in c.monitored && c.monitored[symbol] == w)
  {
  }

  /** One pass of `_monitor_loop` over the symbols, in order. */
  function CycleSpec(m: map<string, Watch>, tpPercent: real, slPercent: real, symbols: seq<string>,
                     positions: string -> Result<Option<Exchange.Position>>, prices: string -> Result<real>):
    (r: (map<string, Watch>, seq<Option<Trigger>>))
    ensures |r.1| == |symbols|
    decreases |symbols|
  {
    if symbols == [] then (m, [])
    else
      var c := CheckSpec(m, tpPercent, slPercent, symbols[0], positions(symbols[0]), prices(symbols[0]));
      var rest := CycleSpec(c.monitored, tpPercent, slPercent, symbols[1..], positions, prices);
      (rest.0, [c.signal] + rest.1)
  }

  /** A pass leaves no cache entry for a symbol whose position the exchange
      reports gone, and adds entries only for the symbols it checked. */
  lemma {:induction false} CycleForgetsClosedPositions(m: map<string, Watch>, tpPercent: real, slPercent: real,
                                                       symbols: seq<string>,
                                                       positions: string -> Result<Option<Exchange.Position>>,
                                                       prices: string -> Result<real>)
    ensures var r := CycleSpec(m, tpPercent, slPercent, symbols, positions, prices);
            (forall s :: s in symbols && positions(s) == Ok(None) ==> s !in r.0) &&
            (forall s :: s in r.0 ==> s in m || s in symbols)
    decreases |symbols|
  {
    if symbols != [] {
      var c := CheckSpec(m, tpPercent, slPercent, symbols[0], positions(symbols[0]), prices(symbols[0]));
      CycleForgetsClosedPositions(c.monitored, tpPercent, slPercent, symbols[1..], positions, prices);
      var r := CycleSpec(m, tpPercent, slPercent, symbols, positions, prices);
      var rest := CycleSpec(c.monitored, tpPercent, slPercent, symbols[1..], positions, prices);
      assert r.0 == rest.0;
      forall s | s in symbols && positions(s) == Ok(None)
        ensures s !in r.0
      {
        if s != symbols[0] {
          assert s in symbols[1..];
        } else if s in symbols[1..] {
        } else {
          assert s !in c.monitored;
          AbsentStaysAbsent(c.monitored, tpPercent, slPercent, symbols[1..], positions, prices, s);
        }
      }
    }
  }

  /** A symbol not checked in a pass gains no entry in it. */
  lemma {:induction false} AbsentStaysAbsent(m: map<string, Watch>, tpPercent: real, slPercent: real, symbols: seq<string>,
                                             positions: string -> Result<Option<Exchange.Position>>,
                                             prices: string -> Result<real>, s: string)
    requires s !in m && s !in symbols
    ensures s !in CycleSpec(m, tpPercent, slPercent, symbols, positions, prices).0
    decreases |symbols|
  {
    if symbols != [] {
      var c := CheckSpec(m, tpPercent, slPercent, symbols[0], positions(symbols[0]), prices(symbols[0]));
      assert s != symbols[0];
      AbsentStaysAbsent(c.monitored, tpPercent, slPercent, symbols[1..], positions, prices, s);
    }
  }

  class PositionMonitor {
    const symbols: seq<string>
    const tpPercent: real
    const slPercent: real
    /** `monitored_positions`. */
    var monitored: map<string, Watch>
    var running: bool

    /** `__init__`: symbols and percentages from the settings (None where
        the setting is absent), an empty cache, not running. */
    constructor (symbols: seq<string>, tpSetting: Option<real>, slSetting: Option<real>)
      ensures this.symbols == symbols
      ensures tpPercent == (if tpSetting.Some? then tpSetting.value else DefaultTpPercent)
      ensures slPercent == (if slSetting.Some? then slSetting.value else DefaultSlPercent)
      ensures monitored == map[] && !running
    {
      this.symbols := symbols;
      tpPercent := if tpSetting.Some? then tpSetting.value else DefaultTpPercent;
      slPercent := if slSetting.Some? then slSetting.value else DefaultSlPercent;
      monitored := map[];
      running := false;
    }

    /** `start`, without the thread: a second start is ignored. */
    method Start()
      modifies this
      ensures running && monitored == old(monitored)
    {
      if running {
        return;
      }
      running := true;
    }

    /** `stop`, without the join. */
    method Stop()
      modifies this
      ensures !running && monitored == old(monitored)
    {
      running := false;
    }

    /** `_send_close_signal`: the decision manager's close handler (which
        catches every exception of its own) is called and the cache entry is
        dropped whatever it replied. */
    method SendCloseSignal(symbol: string)
      modifies this
      ensures monitored == old(monitored) - {symbol} && running == old(running)
    {
      if symbol in monitored {
        monitored := monitored - {symbol};
      }
    }

    /** `_check_position`. */
    method CheckPosition(symbol: string, position: Result<Option<Exchange.Position>>, price: Result<real>)
      returns (signal: Option<Trigger>)
      modifies this
      ensures Check(monitored, signal) == CheckSpec(old(monitored), tpPercent, slPercent, symbol, position, price)
      ensures running == old(running)
    {
      signal := None;
      if position.Raised? {
        return;
      }
      if position.value.None? {
        if symbol in monitored {
          monitored := monitored - {symbol};
        }
        return;
      }
      var p := position.value.value;
      if price.Raised? || price.value == 0.0 {
        return;
      }
      var current := price.value;
      if symbol !in monitored || monitored[symbol].entryPrice != p.entryPrice || monitored[symbol].positionType != p.positionType {
        monitored := monitored[symbol := WatchFor(p.positionType, p.entryPrice, tpPercent, slPercent)];
      }
      var w := monitored[symbol];
      if p.positionType == "long" {
        if current >= w.tpPrice {
          SendCloseSignal(symbol);
          return Some(TakeProfit);
        } else if current <= w.slPrice {
          SendCloseSignal(symbol);
          return Some(StopLoss);
        }
      } else {
        if current <= w.tpPrice {
          SendCloseSignal(symbol);
          return Some(TakeProfit);
        } else if current >= w.slPrice {
          SendCloseSignal(symbol);
          return Some(StopLoss);
        }
      }
    }

    /** One pass of `_monitor_loop`: every configured symbol is checked in
        order; `positions` and `prices` are the per-symbol lookups. */
    method MonitorCycle(positions: string -> Result<Option<Exchange.Position>>, prices: string -> Result<real>)
      returns (signals: seq<Option<Trigger>>)
      modifies this
      ensures (monitored, signals) == CycleSpec(old(monitored), tpPercent, slPercent, symbols, positions, prices)
      ensures running == old(running)
    {
      signals := [];
      var i := 0;
      assert symbols[0..] == symbols;
      assert [] + CycleSpec(monitored, tpPercent, slPercent, symbols, positions, prices).1
          == CycleSpec(monitored, tpPercent, slPercent, symbols, positions, prices).1;
      while i < |symbols|
        invariant 0 <= i <= |symbols| && running == old(running)
        invariant var rest := CycleSpec(monitored, tpPercent, slPercent, symbols[i..], positions, prices);
                  CycleSpec(old(monitored), tpPercent, slPercent, symbols, positions, prices) == (rest.0, signals + rest.1)
      {
        assert symbols[i..][0] == symbols[i] && symbols[i..][1..] == symbols[i + 1..];
        ghost var before := monitored;
        var signal := CheckPosition(symbols[i], positions(symbols[i]), prices(symbols[i]));
        ghost var rest := CycleSpec(monitored, tpPercent, slPercent, symbols[i + 1..], positions, prices);
        assert CycleSpec(before, tpPercent, slPercent, symbols[i..], positions, prices) == (rest.0, [signal] + rest.1);
        assert signals + ([signal] + rest.1) == (signals + [signal]) + rest.1;
        signals := signals + [signal];
        i := i + 1;
      }
      assert symbols[i..] == [];
      assert signals + [] == signals;
    }
  }
}
