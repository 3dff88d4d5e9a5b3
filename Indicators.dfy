/** The indicator engine of technical_indicators.py: Wilder RSI-14 and ATR-14
    over a candle list that is first sorted by timestamp.

    The specification functions work on the sorted list `c`: `Gain`/`Loss`
    are the clamped close-to-close deltas, `AvgGain`/`AvgLoss` the Wilder
    averages (seeded at index 13), `TrueRange` and `AtrValue` the ATR
    recurrence. `ApplyIndicators` computes the same values with the source's
    loops and arrays. */
module Indicators {
  import opened Wrappers

  /** A candle (`Chart`); `rsi`/`atr` are None where the source has NaN. */
  datatype Chart = Chart(
    timestamp: int,
    open: real,
    high: real,
    low: real,
    close: real,
    volume: real,
    datetime: Option<string>,
    rsi: Option<real>,
    atr: Option<real>)

  /** RSI and ATR need this many candles; the first value sits at index 13. */
  const Period: nat := 14

  // ---------------------------------------------------------------------
  // Sorting by timestamp (`df.sort_values('timestamp')`)
  // ---------------------------------------------------------------------

  function Timestamps(candles: seq<Chart>): (ts: seq<int>)
    ensures |ts| == |candles|
    ensures forall k :: 0 <= k < |candles| ==> ts[k] == candles[k].timestamp
  {
    seq(|candles|, k requires 0 <= k < |candles| => candles[k].timestamp)
  }

  function Range(n: nat): (r: seq<nat>)
    ensures |r| == n
    ensures forall k :: 0 <= k < n ==> r[k] == k
  {
    seq(n, k requires 0 <= k < n => k)
  }

  lemma RangeSnoc(n: nat)
    ensures Range(n + 1) == Range(n) + [n]
  {
    var a, b := Range(n + 1), Range(n) + [n];
    assert |a| == |b|;
    assert forall j :: 0 <= j < |a| ==> a[j] == b[j];
  }

  lemma RangeSnocMultiset(n: nat)
    ensures multiset(Range(n + 1)) == multiset(Range(n)) + multiset{n}
  {
    RangeSnoc(n);
  }

  predicate InBounds(ts: seq<int>, t: seq<nat>)
  {
    forall k :: 0 <= k < |t| ==> t[k] < |ts|
  }

  /** The indices in `t` visit ascending timestamps. */
  predicate SortedBy(ts: seq<int>, t: seq<nat>)
    requires InBounds(ts, t)
  {
    forall a, b :: 0 <= a < b < |t| ==> ts[t[a]] <= ts[t[b]]
  }

  /** Inserts index `x` into the index list `t` in front of the first index
      whose timestamp is larger (after every index whose timestamp is not). */
  function InsertIdx(ts: seq<int>, t: seq<nat>, x: nat): (r: seq<nat>)
    requires x < |ts| && InBounds(ts, t)
    ensures |r| == |t| + 1
    ensures multiset(r) == multiset(t) + multiset{x}
    ensures InBounds(ts, r)
  {
    if t == [] then [x]
    else if ts[x] < ts[t[0]] then [x] + t
    else
      var rest := InsertIdx(ts, t[1..], x);
      assert t == [t[0]] + t[1..];
      [t[0]] + rest
  }

  lemma {:induction false} InsertIdxSorted(ts: seq<int>, t: seq<nat>, x: nat)
    requires x < |ts| && InBounds(ts, t) && SortedBy(ts, t)
    ensures SortedBy(ts, InsertIdx(ts, t, x))
  {
    if t != [] && ts[t[0]] <= ts[x] {
      var rest := InsertIdx(ts, t[1..], x);
      InsertIdxSorted(ts, t[1..], x);
      HeadBelowInsert(ts, t, x);
      ConsSorted(ts, t[0], rest);
    }
  }

  /** In a sorted index list the head's timestamp is a lower bound of the
      tail with any index of no smaller timestamp inserted. */
  lemma HeadBelowInsert(ts: seq<int>, t: seq<nat>, x: nat)
    requires x < |ts| && InBounds(ts, t) && SortedBy(ts, t) && t != [] && ts[t[0]] <= ts[x]
    ensures forall k :: 0 <= k < |InsertIdx(ts, t[1..], x)| ==> ts[t[0]] <= ts[InsertIdx(ts, t[1..], x)[k]]
  {
    var rest := InsertIdx(ts, t[1..], x);
    forall k | 0 <= k < |rest| ensures ts[t[0]] <= ts[rest[k]] {
      if rest[k] != x {
        assert rest[k] in multiset(rest);
        assert rest[k] in t[1..];
        var j :| 0 <= j < |t[1..]| && t[1..][j] == rest[k];
        assert t[j + 1] == rest[k];
      }
    }
  }

  /** A sorted list headed by an index of smallest timestamp is sorted. */
  lemma ConsSorted(ts: seq<int>, h: nat, rest: seq<nat>)
    requires h < |ts| && InBounds(ts, rest) && SortedBy(ts, rest)
    requires forall k :: 0 <= k < |rest| ==> ts[h] <= ts[rest[k]]
    ensures InBounds(ts, [h] + rest) && SortedBy(ts, [h] + rest)
  {
    var r := [h] + rest;
    assert forall b :: 0 < b < |r| ==> r[b] == rest[b - 1];
  }

  /** The order in which the rows `0..k-1` come out of the sort. */
  function SortIdx(ts: seq<int>, k: nat): (r: seq<nat>)
    requires k <= |ts|
    ensures |r| == k && InBounds(ts, r)
  {
    if k == 0 then [] else InsertIdx(ts, SortIdx(ts, k - 1), k - 1)
  }

  /** The sort's order is a permutation of `0..k-1`. */
  lemma {:induction false} SortIdxPermutes(ts: seq<int>, k: nat)
    requires k <= |ts|
    ensures multiset(SortIdx(ts, k)) == multiset(Range(k))
  {
    if k > 0 {
      var t := SortIdx(ts, k - 1);
      SortIdxPermutes(ts, k - 1);
      RangeSnocMultiset(k - 1);
      assert SortIdx(ts, k) == InsertIdx(ts, t, k - 1);
    }
  }

  /** The sort's order visits ascending timestamps. */
  lemma {:induction false} SortIdxSorted(ts: seq<int>, k: nat)
    requires k <= |ts|
    ensures SortedBy(ts, SortIdx(ts, k))
  {
    if k > 0 {
      var t := SortIdx(ts, k - 1);
      SortIdxSorted(ts, k - 1);
      InsertIdxSorted(ts, t, k - 1);
      assert SortIdx(ts, k) == InsertIdx(ts, t, k - 1);
    }
  }

  /** `p[k]` is the input position of the k-th row after sorting. */
  function SortedOrder(candles: seq<Chart>): (p: seq<nat>)
    ensures |p| == |candles|
    ensures multiset(p) == multiset(Range(|candles|))
    ensures forall k :: 0 <= k < |p| ==> p[k] < |candles|
    ensures forall a, b :: 0 <= a < b < |p| ==> candles[p[a]].timestamp <= candles[p[b]].timestamp
  {
    var ts := Timestamps(candles);
    SortIdxPermutes(ts, |ts|);
    SortIdxSorted(ts, |ts|);
    SortIdx(ts, |ts|)
  }

  /** The candle list after `sort_values('timestamp')`. */
  function Sorted(candles: seq<Chart>): (c: seq<Chart>)
    ensures |c| == |candles|
    ensures forall k :: 0 <= k < |c| ==> c[k] == candles[SortedOrder(candles)[k]]
  {
    var p := SortedOrder(candles);
    seq(|candles|, k requires 0 <= k < |candles| => candles[p[k]])
  }

  lemma SortedIsAscending(candles: seq<Chart>)
    ensures forall a, b :: 0 <= a < b < |candles| ==> Sorted(candles)[a].timestamp <= Sorted(candles)[b].timestamp
  {
  }

  predicate Ascending(candles: seq<Chart>)
  {
    forall a, b :: 0 <= a < b < |candles| ==> candles[a].timestamp <= candles[b].timestamp
  }

  lemma {:induction false} InsertAtEnd(ts: seq<int>, t: seq<nat>, x: nat)
    requires x < |ts| && InBounds(ts, t) && SortedBy(ts, t)
    requires forall k :: 0 <= k < |t| ==> ts[t[k]] <= ts[x]
    ensures InsertIdx(ts, t, x) == t + [x]
  {
    if t != [] {
      InsertAtEnd(ts, t[1..], x);
      assert t == [t[0]] + t[1..];
    }
  }

  lemma {:induction false} SortIdxAscending(ts: seq<int>, k: nat)
    requires k <= |ts|
    requires forall a, b :: 0 <= a < b < k ==> ts[a] <= ts[b]
    ensures SortIdx(ts, k) == Range(k)
  {
    if k > 0 {
      SortIdxAscending(ts, k - 1);
      var t := Range(k - 1);
      assert InBounds(ts, t);
      assert SortedBy(ts, t);
      assert forall j :: 0 <= j < |t| ==> ts[t[j]] <= ts[k - 1];
      InsertAtEnd(ts, t, k - 1);
      assert SortIdx(ts, k) == InsertIdx(ts, t, k - 1);
      RangeSnoc(k - 1);
    }
  }

  /** Candles that already ascend keep their positions in the sort. */
  lemma AscendingSortIsIdentity(candles: seq<Chart>)
    requires Ascending(candles)
    ensures SortedOrder(candles) == Range(|candles|)
    ensures Sorted(candles) == candles
  {
    SortIdxAscending(Timestamps(candles), |candles|);
  }

  // ---------------------------------------------------------------------
  // RSI (Wilder), over the sorted list c
  // ---------------------------------------------------------------------

  /** `delta.clip(lower=0)` at row i >= 1 (row 0 has no delta). */
  function Gain(c: seq<Chart>, i: nat): (g: real)
    requires 1 <= i < |c|
    ensures g >= 0.0
    ensures g == if c[i].close > c[i - 1].close then c[i].close - c[i - 1].close else 0.0
  {
    var d := c[i].close - c[i - 1].close;
    if d < 0.0 then 0.0 else d
  }

  /** `(-delta).clip(lower=0)` at row i >= 1. */
  function Loss(c: seq<Chart>, i: nat): (l: real)
    requires 1 <= i < |c|
    ensures l >= 0.0
    ensures l == if c[i].close < c[i - 1].close then c[i - 1].close - c[i].close else 0.0
  {
    var d := -(c[i].close - c[i - 1].close);
    if d < 0.0 then 0.0 else d
  }

  /** Sum of the gains of rows 1..k-1. */
  function GainSum(c: seq<Chart>, k: nat): (s: real)
    requires k <= |c|
    ensures s >= 0.0
  {
    if k <= 1 then 0.0 else GainSum(c, k - 1) + Gain(c, k - 1)
  }

  function LossSum(c: seq<Chart>, k: nat): (s: real)
    requires k <= |c|
    ensures s >= 0.0
  {
    if k <= 1 then 0.0 else LossSum(c, k - 1) + Loss(c, k - 1)
  }

  /** `gain.iloc[:14].mean()`: the delta of row 0 is NaN and skipped by the
      mean, so this averages the 13 gains of rows 1..13. */
  function SeedGain(c: seq<Chart>): real
    requires |c| >= Period
  {
    GainSum(c, Period) / 13.0
  }

  function SeedLoss(c: seq<Chart>): real
    requires |c| >= Period
  {
    LossSum(c, Period) / 13.0
  }

  /** Wilder-smoothed average gain after row i (13 <= i). */
  function AvgGain(c: seq<Chart>, i: nat): (g: real)
    requires Period - 1 <= i < |c|
    ensures g >= 0.0
  {
    if i == Period - 1 then SeedGain(c) else (AvgGain(c, i - 1) * 13.0 + Gain(c, i)) / 14.0
  }

  function AvgLoss(c: seq<Chart>, i: nat): (l: real)
    requires Period - 1 <= i < |c|
    ensures l >= 0.0
  {
    if i == Period - 1 then SeedLoss(c) else (AvgLoss(c, i - 1) * 13.0 + Loss(c, i)) / 14.0
  }

  /** `100 - 100 / (1 + gain / loss)`, or 100 when the average loss is 0. */
  function RsiOf(avgGain: real, avgLoss: real): (r: real)
    requires avgGain >= 0.0 && avgLoss >= 0.0
    ensures 0.0 <= r <= 100.0
    ensures avgLoss == 0.0 <==> r == 100.0
  {
    if avgLoss != 0.0 then
      var rs := avgGain / avgLoss;
      assert rs >= 0.0;
      assert 100.0 / (1.0 + rs) > 0.0;
      assert 100.0 / (1.0 + rs) <= 100.0 by {
        assert 100.0 / (1.0 + rs) * (1.0 + rs) == 100.0;
      }
      100.0 - 100.0 / (1.0 + rs)
    else 100.0
  }

  /** The `rsi` column at row i of the sorted list. */
  function RsiAt(c: seq<Chart>, i: nat): Option<real>
    requires i < |c|
  {
    if |c| < Period || i < Period - 1 then None
    else Some(RsiOf(AvgGain(c, i), AvgLoss(c, i)))
  }

  // ---------------------------------------------------------------------
  // ATR (Wilder), over the sorted list c
  // ---------------------------------------------------------------------

  function Abs(x: real): real { if x < 0.0 then -x else x }

  /** True range: high-low at row 0; otherwise the largest of high-low,
      |high-prevClose| and |low-prevClose|. */
  function TrueRange(c: seq<Chart>, i: nat): (tr: real)
    requires i < |c|
    ensures tr >= c[i].high - c[i].low
    ensures i > 0 ==> tr >= Abs(c[i].high - c[i - 1].close) && tr >= Abs(c[i].low - c[i - 1].close)
    ensures i > 0 ==> tr == c[i].high - c[i].low || tr == Abs(c[i].high - c[i - 1].close)
                      || tr == Abs(c[i].low - c[i - 1].close)
    ensures i == 0 ==> tr == c[0].high - c[0].low
  {
    var hl := c[i].high - c[i].low;
    if i == 0 then hl
    else
      var hc := Abs(c[i].high - c[i - 1].close);
      var lc := Abs(c[i].low - c[i - 1].close);
      if hl >= hc && hl >= lc then hl else if hc >= lc then hc else lc
  }

  /** Sum of the true ranges of rows 0..k-1. */
  function TrSum(c: seq<Chart>, k: nat): real
    requires k <= |c|
  {
    if k == 0 then 0.0 else TrSum(c, k - 1) + TrueRange(c, k - 1)
  }

  /** ATR at row i (13 <= i): the mean of the first 14 true ranges at 13,
      then `(ATR[i-1] * 13 + TR[i]) / 14`. */
  function AtrValue(c: seq<Chart>, i: nat): real
    requires Period - 1 <= i < |c|
  {
    if i == Period - 1 then TrSum(c, Period) / 14.0
    else (AtrValue(c, i - 1) * 13.0 + TrueRange(c, i)) / 14.0
  }

  /** The `atr` column at row i of the sorted list. */
  function AtrAt(c: seq<Chart>, i: nat): Option<real>
    requires i < |c|
  {
    if |c| < Period || i < Period - 1 then None else Some(AtrValue(c, i))
  }

  /** Row i of the sorted list with its indicator columns filled in. */
  function Annotated(c: seq<Chart>, i: nat): Chart
    requires i < |c|
  {
    c[i].(rsi := RsiAt(c, i), atr := AtrAt(c, i))
  }

  // ---------------------------------------------------------------------
  // apply_indicators
  // ---------------------------------------------------------------------

  /** The RSI loop of `_calculate_indicators` over the sorted list: the
      column starts all None, the seed value goes to row 13 and the loop
      carries the two Wilder averages forward. */
  method RsiColumn(c: seq<Chart>) returns (col: seq<Option<real>>)
    ensures |col| == |c|
    ensures forall k :: 0 <= k < |c| ==> col[k] == RsiAt(c, k)
  {
    var n := |c|;
    var rsi := new Option<real>[n](_ => None);
    if n >= Period {
      var avgGain := SeedGain(c);
      var avgLoss := SeedLoss(c);
      rsi[13] := Some(RsiOf(avgGain, avgLoss));
      var i := Period;
      while i < n
        invariant Period <= i <= n
        invariant avgGain == AvgGain(c, i - 1) && avgLoss == AvgLoss(c, i - 1)
        invariant forall k :: 0 <= k < i ==> rsi[k] == RsiAt(c, k)
      {
        avgGain := (avgGain * 13.0 + Gain(c, i)) / 14.0;
        avgLoss := (avgLoss * 13.0 + Loss(c, i)) / 14.0;
        rsi[i] := Some(RsiOf(avgGain, avgLoss));
        i := i + 1;
      }
    }
    col := rsi[..];
  }

  /** The ATR loop of `_calculate_indicators`: the mean of the first 14 true
      ranges at row 13, then each row from the column's previous value. */
  method AtrColumn(c: seq<Chart>) returns (col: seq<Option<real>>)
    ensures |col| == |c|
    ensures forall k :: 0 <= k < |c| ==> col[k] == AtrAt(c, k)
  {
    var n := |c|;
    var atr := new Option<real>[n](_ => None);
    if n >= Period {
      atr[13] := Some(TrSum(c, Period) / 14.0);
      var i := Period;
      while i < n
        invariant Period <= i <= n
        invariant forall k :: 0 <= k < i ==> atr[k] == AtrAt(c, k)
      {
        atr[i] := Some((atr[i - 1].value * 13.0 + TrueRange(c, i)) / 14.0);
        i := i + 1;
      }
    }
    col := atr[..];
  }

  /** `TechnicalIndicators.apply_indicators`: sorts the candles, computes the
      rsi/atr columns and copies the rows out in sorted order. Row k of the
      result is input row `SortedOrder(candles)[k]` with only its rsi/atr
      replaced; an empty input gives an empty output. */
  method ApplyIndicators(candles: seq<Chart>) returns (result: seq<Chart>)
    ensures |result| == |candles|
    ensures forall k :: 0 <= k < |result| ==> result[k] == Annotated(Sorted(candles), k)
    ensures forall k :: 0 <= k < |result| ==>
              result[k] == candles[SortedOrder(candles)[k]].(rsi := result[k].rsi, atr := result[k].atr)
  {
    if |candles| == 0 {
      return [];
    }
    result := AnnotateRows(Sorted(candles));
  }

  /** `_calculate_indicators` followed by the copy-out loop of
      `apply_indicators`, over the sorted frame. */
  method AnnotateRows(c: seq<Chart>) returns (result: seq<Chart>)
    ensures |result| == |c|
    ensures forall k :: 0 <= k < |c| ==> result[k] == Annotated(c, k)
  {
    var rsi := RsiColumn(c);
    var atr := AtrColumn(c);
    result := CopyOut(c, rsi, atr);
    forall j | 0 <= j < |c|
      ensures result[j] == Annotated(c, j)
    {
      assert rsi[j] == RsiAt(c, j) && atr[j] == AtrAt(c, j);
    }
  }

  /** The loop building one Chart per frame row, in frame order, with that
      row's rsi and atr. */
  method CopyOut(c: seq<Chart>, rsi: seq<Option<real>>, atr: seq<Option<real>>) returns (result: seq<Chart>)
    requires |rsi| == |c| && |atr| == |c|
    ensures |result| == |c|
    ensures forall j :: 0 <= j < |c| ==> result[j] == WithColumns(c[j], rsi[j], atr[j])
  {
    result := [];
    for k := 0 to |c|
      invariant |result| == k
      invariant forall j :: 0 <= j < k ==> result[j] == WithColumns(c[j], rsi[j], atr[j])
    {
      result := result + [WithColumns(c[k], rsi[k], atr[k])];
    }
  }

  /** A row with its rsi and atr columns set. */
  function WithColumns(row: Chart, rsi: Option<real>, atr: Option<real>): (r: Chart)
  {
    row.(rsi := rsi, atr := atr)
  }

  // ---------------------------------------------------------------------
  // Properties of the indicator columns
  // ---------------------------------------------------------------------

  /** Fewer than 14 candles: every rsi and atr is None. */
  lemma ShortSeriesHasNoIndicators(c: seq<Chart>, i: nat)
    requires i < |c| < Period
    ensures RsiAt(c, i) == None && AtrAt(c, i) == None
  {
  }

  /** With at least 14 candles the columns are None exactly before index 13,
      and every defined RSI lies in [0, 100]. */
  lemma IndicatorsDefinedFrom13(c: seq<Chart>, i: nat)
    requires Period <= |c| && i < |c|
    ensures RsiAt(c, i).Some? <==> i >= Period - 1
    ensures AtrAt(c, i).Some? <==> i >= Period - 1
    ensures RsiAt(c, i).Some? ==> 0.0 <= RsiAt(c, i).value <= 100.0
  {
  }

  /** The seed RSI at index 13 is 100 when the seed loss is 0 and otherwise
      100 - 100/(1 + seedGain/seedLoss). */
  lemma SeedRsi(c: seq<Chart>)
    requires Period <= |c|
    ensures SeedLoss(c) == 0.0 ==> RsiAt(c, 13) == Some(100.0)
    ensures SeedLoss(c) != 0.0 ==>
              RsiAt(c, 13) == Some(100.0 - 100.0 / (1.0 + SeedGain(c) / SeedLoss(c)))
  {
  }

  /** Closes that never fall give no losses, so every defined RSI is 100. */
  lemma {:induction false} NoLossesMeansRsi100(c: seq<Chart>, i: nat)
    requires Period <= |c| && Period - 1 <= i < |c|
    requires forall k :: 1 <= k < |c| ==> c[k - 1].close <= c[k].close
    ensures AvgLoss(c, i) == 0.0
    ensures RsiAt(c, i) == Some(100.0)
  {
    if i == Period - 1 {
      LossSumZero(c, Period);
    } else {
      NoLossesMeansRsi100(c, i - 1);
    }
  }

  lemma {:induction false} LossSumZero(c: seq<Chart>, k: nat)
    requires k <= |c|
    requires forall j :: 1 <= j < |c| ==> c[j - 1].close <= c[j].close
    ensures LossSum(c, k) == 0.0
  {
    if k > 1 {
      LossSumZero(c, k - 1);
    }
  }

  // No look-ahead: each column value depends only on the rows up to it.

  lemma {:induction false} PrefixSums(c: seq<Chart>, m: nat, k: nat)
    requires k <= m <= |c|
    ensures GainSum(c[..m], k) == GainSum(c, k)
    ensures LossSum(c[..m], k) == LossSum(c, k)
    ensures TrSum(c[..m], k) == TrSum(c, k)
  {
    if k > 0 {
      PrefixSums(c, m, k - 1);
    }
  }

  lemma {:induction false} PrefixAverages(c: seq<Chart>, m: nat, i: nat)
    requires Period - 1 <= i < m <= |c|
    ensures AvgGain(c[..m], i) == AvgGain(c, i)
    ensures AvgLoss(c[..m], i) == AvgLoss(c, i)
    ensures AtrValue(c[..m], i) == AtrValue(c, i)
  {
    if i == Period - 1 {
      PrefixSums(c, m, Period);
    } else {
      PrefixAverages(c, m, i - 1);
    }
  }

  /** `rsi[i]` and `atr[i]` computed from rows 0..i alone equal the values
      computed from the whole list. */
  lemma NoLookAhead(c: seq<Chart>, i: nat)
    requires i < |c|
    ensures RsiAt(c[..i + 1], i) == RsiAt(c, i)
    ensures AtrAt(c[..i + 1], i) == AtrAt(c, i)
  {
    if Period <= |c| && Period - 1 <= i {
      PrefixAverages(c, i + 1, i);
    }
  }

  // ---------------------------------------------------------------------
  // The label/position mix-up after sorting (see README, Findings)
  // ---------------------------------------------------------------------

  /** What `_calculate_indicators` writes as coded: after `sort_values` the
      frame keeps its original row labels, the values are computed by
      position (`iloc`) but stored by label (`df.loc[i, ...]`), so sorted row
      k receives the value computed for position `SortedOrder(candles)[k]`. */
  function ApplyIndicatorsAsWritten(candles: seq<Chart>): (r: seq<Chart>)
    ensures |r| == |candles|
    ensures forall k :: 0 <= k < |r| ==>
              var p := SortedOrder(candles)[k];
              r[k] == Sorted(candles)[k].(rsi := RsiAt(Sorted(candles), p), atr := AtrAt(Sorted(candles), p))
  {
    var c := Sorted(candles);
    var p := SortedOrder(candles);
    seq(|c|, k requires 0 <= k < |c| => c[k].(rsi := RsiAt(c, p[k]), atr := AtrAt(c, p[k])))
  }

  /** On input that already ascends by timestamp (what the kline parser
      produces) the coded behaviour and the intended one agree. */
  lemma AsWrittenAgreesOnAscendingInput(candles: seq<Chart>, k: nat)
    requires Ascending(candles) && k < |candles|
    ensures ApplyIndicatorsAsWritten(candles)[k] == Annotated(Sorted(candles), k)
  {
    AscendingSortIsIdentity(candles);
  }

  /** 14 candles with timestamps 1, 2, ..., 13, 0: the newest candle (the
      last row after sorting) gets no RSI as coded, although 14 candles are
      enough for one. */
  function RotatedSeries(): (s: seq<Chart>)
    ensures |s| == Period
  {
    seq(Period, k requires 0 <= k < Period =>
      Chart(if k < 13 then k + 1 else 0, 1.0, 1.0, 1.0, 1.0, 1.0, None, None, None))
  }

  /** The series whose oldest candle comes last in the input: it ascends
      from index 0 to 12 and index 13 holds the smallest timestamp. */
  predicate RotatedShape(s: seq<Chart>)
  {
    |s| == Period &&
    (forall a, b :: 0 <= a < b < Period - 1 ==> s[a].timestamp <= s[b].timestamp) &&
    (forall k :: 0 <= k < Period - 1 ==> s[Period - 1].timestamp < s[k].timestamp)
  }

  /** The sort moves the last row of a rotated series to the front and
      shifts every other row by one. */
  lemma RotatedOrder(s: seq<Chart>)
    requires RotatedShape(s)
    ensures SortedOrder(s) == [Period - 1] + Range(Period - 1)
  {
    var ts := Timestamps(s);
    SortIdxAscending(ts, Period - 1);
    var t := Range(Period - 1);
    assert SortIdx(ts, Period) == InsertIdx(ts, t, Period - 1);
    assert ts[Period - 1] < ts[t[0]];
  }

  /** As coded, the newest candle of a rotated series (the last row after
      sorting) gets no RSI, although 14 candles are enough for one. */
  lemma {:induction false} RotatedSeriesLosesNewestRsi(s: seq<Chart>)
    requires RotatedShape(s)
    ensures ApplyIndicatorsAsWritten(s)[Period - 1].rsi == None
    ensures Annotated(Sorted(s), Period - 1).rsi.Some?
  {
    RotatedOrder(s);
    var p := SortedOrder(s);
    assert p[Period - 1] == Period - 2;
    IndicatorsDefinedFrom13(Sorted(s), Period - 2);
    IndicatorsDefinedFrom13(Sorted(s), Period - 1);
  }

  /** Timestamps 1, 2, ..., 13, 0 form a rotated series. */
  lemma RotatedSeriesExample()
    ensures RotatedShape(RotatedSeries())
  {
  }
}
