/**
 * The candlestick view's data adapter and the effect that hands its output
 * to the chart.
 *
 * `SplitData` walks an ordered list of OHLCV buckets and appends, per bucket,
 * one category label, one candle and one volume bar. `SplitSpec` is the same
 * computation as a left fold over the input, `IsSplitOf` states the
 * index-by-index meaning of the result, and the lemmas below show that the
 * three agree. `ChartUpdate` describes what the update effect puts into the
 * chart option, and `UpdateEffect` performs it on a `ChartOption` object.
 */
module Kline {

  import opened Wrappers

  /** One time bucket of market data: the fields the adapter reads. */
  datatype KlineData = KlineData(
    dataTs: int,   // bucket timestamp, in seconds
    open: real,
    close: real,
    high: real,
    low: real,
    volume: real)

  /**
   * The date formatter, applied to a millisecond timestamp. It depends on the
   * local time zone and is otherwise unknown, so it is a parameter.
   */
  type Formatter = int -> string

  /** A candle in the order the chart library expects: open, close, low, high. */
  datatype Candle = Candle(open: real, close: real, low: real, high: real)

  /** A volume bar: input position, traded volume and direction (+1 or -1). */
  datatype VolumeBar = VolumeBar(index: int, volume: real, direction: int)

  /** What the adapter returns: three index-aligned sequences and the input. */
  datatype Split = Split(
    categoryData: seq<string>,
    values: seq<Candle>,
    volumes: seq<VolumeBar>,
    rawData: seq<KlineData>)

  /** The category label of a bucket: its timestamp in milliseconds, formatted. */
  function Label(fmt: Formatter, item: KlineData): string
  {
    fmt(item.dataTs * 1000)
  }

  /** The candle of a bucket. */
  function CandleOf(item: KlineData): Candle
  {
    Candle(item.open, item.close, item.low, item.high)
  }

  /**
   * +1 for a bucket that closed above its open, -1 otherwise; a bucket that
   * closed exactly at its open counts as down.
   */
  function Direction(item: KlineData): (d: int)
    ensures d == 1 || d == -1
    ensures d == 1 <==> item.close > item.open
    ensures d == -1 <==> item.close <= item.open
  {
    if item.close > item.open then 1 else -1
  }

  /** The volume bar of the bucket at position `index`. */
  function BarOf(index: int, item: KlineData): VolumeBar
  {
    VolumeBar(index, item.volume, Direction(item))
  }

  /** The empty result: no labels, no candles, no bars. */
  function EmptySplit(rawData: seq<KlineData>): Split
  {
    Split([], [], [], rawData)
  }

  /**
   * The adapter as a left fold: the result for a list is the result for all
   * but its last bucket, with that bucket's label, candle and bar appended.
   */
  function SplitSpec(fmt: Formatter, rawData: seq<KlineData>): Split
    decreases |rawData|
  {
    if rawData == [] then EmptySplit(rawData)
    else
      var n := |rawData| - 1;
      var p := SplitSpec(fmt, rawData[..n]);
      Split(p.categoryData + [Label(fmt, rawData[n])],
            p.values + [CandleOf(rawData[n])],
            p.volumes + [BarOf(n, rawData[n])],
            rawData)
  }

  /**
   * `r` is the adapter's output for `rawData`, stated position by position:
   * all three sequences are as long as the input, entry `i` of each is built
   * from bucket `i` alone, and the input is handed back unchanged.
   */
  ghost predicate IsSplitOf(fmt: Formatter, rawData: seq<KlineData>, r: Split)
  {
    && |r.categoryData| == |rawData|
    && |r.values| == |rawData|
    && |r.volumes| == |rawData|
    && r.rawData == rawData
    && (forall i :: 0 <= i < |rawData| ==> r.categoryData[i] == fmt(rawData[i].dataTs * 1000))
    && (forall i :: 0 <= i < |rawData| ==>
          r.values[i] == Candle(rawData[i].open, rawData[i].close, rawData[i].low, rawData[i].high))
    && (forall i :: 0 <= i < |rawData| ==> r.volumes[i].index == i)
    && (forall i :: 0 <= i < |rawData| ==> r.volumes[i].volume == rawData[i].volume)
    && (forall i :: 0 <= i < |rawData| ==>
          (r.volumes[i].direction == 1 <==> rawData[i].close > rawData[i].open))
    && (forall i :: 0 <= i < |rawData| ==>
          (r.volumes[i].direction == -1 <==> rawData[i].close <= rawData[i].open))
  }

  /** The fold computes exactly the position-by-position result. */
  lemma {:induction false} SplitSpecIsSplit(fmt: Formatter, rawData: seq<KlineData>)
    ensures IsSplitOf(fmt, rawData, SplitSpec(fmt, rawData))
    decreases |rawData|
  {
    if rawData != [] {
      var n := |rawData| - 1;
      SplitSpecIsSplit(fmt, rawData[..n]);
    }
  }

  /** Two results that both meet the position-by-position description are equal. */
  lemma SplitIsUnique(fmt: Formatter, rawData: seq<KlineData>, r1: Split, r2: Split)
    requires IsSplitOf(fmt, rawData, r1) && IsSplitOf(fmt, rawData, r2)
    ensures r1 == r2
  {
  }

  /** A result meets the position-by-position description exactly when it is the fold's. */
  lemma SplitSpecCharacterized(fmt: Formatter, rawData: seq<KlineData>, r: Split)
    ensures IsSplitOf(fmt, rawData, r) <==> r == SplitSpec(fmt, rawData)
  {
    SplitSpecIsSplit(fmt, rawData);
    if IsSplitOf(fmt, rawData, r) {
      SplitIsUnique(fmt, rawData, r, SplitSpec(fmt, rawData));
    }
  }

  /** An empty input yields three empty sequences. */
  lemma SplitOfEmpty(fmt: Formatter)
    ensures SplitSpec(fmt, []) == Split([], [], [], [])
  {
  }

  /** The volume bars of `bars`, with every index moved up by `offset`. */
  function Shifted(bars: seq<VolumeBar>, offset: int): seq<VolumeBar>
  {
    seq(|bars|, j requires 0 <= j < |bars| => bars[j].(index := bars[j].index + offset))
  }

  /**
   * Order is preserved and nothing is dropped or merged: the result for
   * `a + b` is the result for `a` followed by the result for `b`, whose bar
   * indices are moved past the end of `a`.
   */
  lemma {:induction false} SplitAppend(fmt: Formatter, a: seq<KlineData>, b: seq<KlineData>)
    ensures SplitSpec(fmt, a + b).categoryData == SplitSpec(fmt, a).categoryData + SplitSpec(fmt, b).categoryData
    ensures SplitSpec(fmt, a + b).values == SplitSpec(fmt, a).values + SplitSpec(fmt, b).values
    ensures SplitSpec(fmt, a + b).volumes == SplitSpec(fmt, a).volumes + Shifted(SplitSpec(fmt, b).volumes, |a|)
    decreases |b|
  {
    if b == [] {
      assert a + b == a;
    } else {
      var n := |b| - 1;
      var b' := b[..n];
      assert (a + b)[..|a + b| - 1] == a + b';
      assert (a + b)[|a + b| - 1] == b[n];
      SplitAppend(fmt, a, b');
      var rb' := SplitSpec(fmt, b');
      ShiftedSnoc(rb'.volumes, BarOf(n, b[n]), |a|);
    }
  }

  /** Shifting a sequence with one more bar shifts that bar too. */
  lemma ShiftedSnoc(bars: seq<VolumeBar>, bar: VolumeBar, offset: int)
    ensures Shifted(bars + [bar], offset) == Shifted(bars, offset) + [bar.(index := bar.index + offset)]
  {
  }

  /** Buckets with the same timestamp get the same label, wherever they stand. */
  lemma SameTimestampSameLabel(fmt: Formatter, rawData: seq<KlineData>, i: nat, j: nat)
    requires i < |rawData| && j < |rawData|
    requires rawData[i].dataTs == rawData[j].dataTs
    ensures |SplitSpec(fmt, rawData).categoryData| == |rawData|
    ensures SplitSpec(fmt, rawData).categoryData[i] == SplitSpec(fmt, rawData).categoryData[j]
  {
    SplitSpecIsSplit(fmt, rawData);
  }

  /**
   * One bucket that closed above its open: candle (10, 12, 9, 13), bar
   * (0, 100, +1), and the label of 1700000000000 ms.
   */
  lemma SplitOneRisingBucket(fmt: Formatter)
    ensures SplitSpec(fmt, [KlineData(1700000000, 10.0, 12.0, 13.0, 9.0, 100.0)])
         == Split([fmt(1700000000000)],
                  [Candle(10.0, 12.0, 9.0, 13.0)],
                  [VolumeBar(0, 100.0, 1)],
                  [KlineData(1700000000, 10.0, 12.0, 13.0, 9.0, 100.0)])
  {
  }

  /**
   * The adapter: three empty sequences, one push to each per bucket, in
   * input order; the input is returned beside them.
   */
  method SplitData(fmt: Formatter, rawData: seq<KlineData>) returns (r: Split)
    ensures |r.categoryData| == |rawData| && |r.values| == |rawData| && |r.volumes| == |rawData|
    ensures r.rawData == rawData
    ensures forall i :: 0 <= i < |rawData| ==> r.categoryData[i] == fmt(rawData[i].dataTs * 1000)
    ensures forall i :: 0 <= i < |rawData| ==>
              r.values[i] == Candle(rawData[i].open, rawData[i].close, rawData[i].low, rawData[i].high)
    ensures forall i :: 0 <= i < |rawData| ==>
              r.volumes[i] == VolumeBar(i, rawData[i].volume, if rawData[i].close > rawData[i].open then 1 else -1)
    ensures r == SplitSpec(fmt, rawData)
  {
    var categoryData: seq<string> := [];
    var values: seq<Candle> := [];
    var volumes: seq<VolumeBar> := [];
    var index := 0;
    while index < |rawData|
      invariant 0 <= index <= |rawData|
      invariant |categoryData| == index && |values| == index && |volumes| == index
      invariant forall i :: 0 <= i < index ==> categoryData[i] == Label(fmt, rawData[i])
      invariant forall i :: 0 <= i < index ==> values[i] == CandleOf(rawData[i])
      invariant forall i :: 0 <= i < index ==> volumes[i] == BarOf(i, rawData[i])
    {
      var item := rawData[index];
      var dateStr := fmt(item.dataTs * 1000);
      categoryData := categoryData + [dateStr];
      values := values + [Candle(item.open, item.close, item.low, item.high)];
      volumes := volumes + [VolumeBar(index, item.volume, if item.close > item.open then 1 else -1)];
      index := index + 1;
    }
    r := Split(categoryData, values, volumes, rawData);
    SplitSpecCharacterized(fmt, rawData, r);
  }

  /** A chart series: the candlesticks on the main grid, the volume bars below. */
  datatype Series =
    | Candlestick(name: string, candles: seq<Candle>, xAxisIndex: nat, yAxisIndex: nat)
    | Bar(name: string, bars: seq<VolumeBar>, xAxisIndex: nat, yAxisIndex: nat)

  /** The number of data points a series draws. */
  function SeriesLength(s: Series): nat
  {
    match s
    case Candlestick(_, candles, _, _) => |candles|
    case Bar(_, bars, _, _) => |bars|
  }

  /** The parts of the chart option the update effect sets. */
  datatype ChartInputs = ChartInputs(xAxisData: seq<seq<string>>, series: seq<Series>)

  /** The bar series' name, the Chinese for "open interest". */
  const BarSeriesName: string := "\U{6301}\U{4ED3}\U{91CF}"

  /**
   * What the update effect hands to the chart: nothing unless a chart exists
   * and there is data; otherwise both x-axes get the same labels, the
   * candlesticks go on axes 0 and the volume bars on axes 1.
   */
  function ChartUpdate(hasChart: bool, fmt: Formatter, klinData: seq<KlineData>): (r: Option<ChartInputs>)
    ensures r.Some? <==> hasChart && |klinData| > 0
    ensures r.Some? ==>
      && |r.value.xAxisData| == 2
      && r.value.xAxisData[0] == r.value.xAxisData[1] == SplitSpec(fmt, klinData).categoryData
      && |r.value.series| == 2
      && r.value.series[0].Candlestick? && r.value.series[0].candles == SplitSpec(fmt, klinData).values
      && r.value.series[1].Bar? && r.value.series[1].bars == SplitSpec(fmt, klinData).volumes
      && r.value.series[0].xAxisIndex == r.value.series[0].yAxisIndex == 0
      && r.value.series[1].xAxisIndex == r.value.series[1].yAxisIndex == 1
    ensures r.Some? ==> forall k :: 0 <= k < |r.value.series| ==>
      r.value.series[k].xAxisIndex < |r.value.xAxisData| &&
      |r.value.xAxisData[r.value.series[k].xAxisIndex]| == SeriesLength(r.value.series[k]) == |klinData|
  {
    if hasChart && |klinData| > 0 then
      var split := SplitSpec(fmt, klinData);
      SplitSpecIsSplit(fmt, klinData);
      Some(ChartInputs(
        [split.categoryData, split.categoryData],
        [Candlestick("K", split.values, 0, 0), Bar(BarSeriesName, split.volumes, 1, 1)]))
    else
      None
  }

  /** The chart option object: the data of its two x-axes and its series. */
  class ChartOption {
    var xAxisData: seq<seq<string>>
    var series: seq<Series>

    /** A fresh option: both x-axes empty, no series. */
    constructor ()
      ensures xAxisData == [[], []] && series == []
    {
      xAxisData := [[], []];
      series := [];
    }

    /** The option's current axis data and series. */
    function Inputs(): ChartInputs
      reads this
    {
      ChartInputs(xAxisData, series)
    }
  }

  /**
   * The update effect: when a chart exists and there is data, split the data,
   * write the labels into both x-axes and the two series into the option, and
   * submit it to the chart (`submitted`); otherwise leave the option alone.
   */
  method UpdateEffect(option: ChartOption, hasChart: bool, fmt: Formatter, klinData: seq<KlineData>)
    returns (submitted: bool)
    requires |option.xAxisData| == 2
    modifies option
    ensures submitted == (hasChart && |klinData| > 0)
    ensures submitted ==> ChartUpdate(hasChart, fmt, klinData) == Some(option.Inputs())
    ensures !submitted ==> option.xAxisData == old(option.xAxisData) && option.series == old(option.series)
  {
    submitted := false;
    if hasChart && |klinData| > 0 {
      var split := SplitData(fmt, klinData);
      option.xAxisData := option.xAxisData[0 := split.categoryData];
      option.xAxisData := option.xAxisData[1 := split.categoryData];
      option.series := [
        Candlestick("K", split.values, 0, 0),
        Bar(BarSeriesName, split.volumes, 1, 1)
      ];
      assert option.xAxisData == [split.categoryData, split.categoryData];
      submitted := true;
    }
  }
}
