# Candlestick adapter and lock/toggle button, in Dafny

This project models the two pieces of logic in the desktop trading
application's renderer:

- **The candlestick view's data adapter** (`splitData` in `Kline.tsx`) and
  the effect that consumes it (module `Kline`, file `kline.dfy`). The
  adapter walks an ordered list of OHLCV buckets. It keeps three lists, one
  formatted timestamp label, one candle `(open, close, low, high)` and one
  volume bar `(index, volume, direction)` per bucket, and returns them with
  the input. Direction is +1 when the bucket closed above its open and -1
  otherwise, so a flat bucket counts as down. The model gives the adapter
  three ways:
  - `SplitData` is the loop that appends to three sequences;
  - `SplitSpec` is the same computation as a left fold;
  - `IsSplitOf` describes the result index by index.

  Lemmas show that all three agree and that the fold keeps order under
  concatenation. The update effect is modelled twice. `ChartUpdate` is a pure
  function: when a chart exists and the data is not empty, it gives both
  x-axes the same labels and builds the candlestick series and the bar
  series. `UpdateEffect` writes those fields into a `ChartOption` object,
  as the source does, and is proved to agree with `ChartUpdate`.
- **The button** (`Button.tsx`, module `ButtonComponent`, file
  `button.dfy`). A `Button` class has the fixed props `lock` and `toggle`
  and the state `pressed`, which starts false. `Click` ignores a locked
  button and flips `pressed` on a toggling one. `StyleOf` picks exactly one
  of `Locked`, `Pressed` and `Normal`. The rendered class is the base string,
  a space and that style's string. `Disabled` mirrors `lock`.

Modelling choices:
- The date formatter is a parameter of type `int -> string`. It is applied to
  the bucket's timestamp times 1000.
- Prices and volume are `real`. The adapter only compares close with open.
  The timestamp is an `int` number of seconds.
- `Option` is declared once, in module `Wrappers` (file `wrappers.dfy`).
- The class strings are a `StyleSheet` parameter with a base string and one
  string per style. The proofs need only that the three style strings differ.
- The chart's existence is a boolean parameter. `UpdateEffect` returns
  `submitted` for the call that hands the option to the chart.

## Model

| member | source | states |
|---|---|---|
| `Kline.Direction` | src/renderer/src/pages/kine/component/Kline.tsx:168 | direction is +1 or -1; it is +1 exactly when close > open and -1 exactly when close <= open, so equal prices give -1 |
| `Kline.SplitSpecIsSplit` | src/renderer/src/pages/kine/component/Kline.tsx:156-172 | the fold's result has as many labels, candles and bars as the input. Entry i is the label of `data_ts * 1000`, the candle (open, close, low, high) and the bar (i, volume, direction) of record i. The input is returned unchanged |
| `Kline.SplitIsUnique` | src/renderer/src/pages/kine/component/Kline.tsx:156-172 | the index-by-index description fixes the result: any two results that meet it are equal |
| `Kline.SplitSpecCharacterized` | src/renderer/src/pages/kine/component/Kline.tsx:156-172 | a result meets the index-by-index description if and only if it is the fold's result |
| `Kline.SplitOfEmpty` | src/renderer/src/pages/kine/component/Kline.tsx:157-161 | an empty input gives three empty sequences |
| `Kline.SplitAppend` | src/renderer/src/pages/kine/component/Kline.tsx:161-169 | the labels and candles for `a + b` are those for `a` followed by those for `b`. The bars for `a + b` are those for `a`, then those for `b` with their indices moved up by the length of `a`. So output order follows input order, with nothing dropped or merged |
| `Kline.SameTimestampSameLabel` | src/renderer/src/pages/kine/component/Kline.tsx:163-164 | two records with the same timestamp get the same label |
| `Kline.SplitOneRisingBucket` | src/renderer/src/pages/kine/component/Kline.tsx:161-169 | one bucket (ts 1700000000, open 10, close 12, high 13, low 9, volume 100) gives label `fmt(1700000000000)`, candle (10, 12, 9, 13) and bar (0, 100, +1) |
| `Kline.SplitData` | src/renderer/src/pages/kine/component/Kline.tsx:156-172 | the loop builds three sequences as long as the input. Entry i holds record i's label, candle and bar, and the input is returned. The result equals the fold's |
| `Kline.ChartUpdate` | src/renderer/src/pages/kine/component/Kline.tsx:174-198 | gives chart inputs exactly when a chart exists and the data is not empty. Both x-axes then get the identical label list. The candlesticks go on axes 0 and the volume bars on axes 1. Each series has as many points as the labels on its x-axis |
| `Kline.ChartOption.constructor` | src/renderer/src/pages/kine/component/Kline.tsx:76-144 | a new option has two empty x-axis data lists and no series |
| `Kline.UpdateEffect` | src/renderer/src/pages/kine/component/Kline.tsx:174-198 | submits the option exactly when a chart exists and the data is not empty; then the option's axis data and series are those `ChartUpdate` gives; otherwise the option is unchanged |
| `ButtonComponent.StyleOf` | src/renderer/src/components/Button.tsx:29-36 | the style is Locked exactly when locked, whatever `toggle` and `pressed` are. It is Pressed exactly when `!lock && toggle && pressed`, and Normal in every other case |
| `ButtonComponent.AfterClick` | src/renderer/src/components/Button.tsx:13-16 | a click leaves `pressed` unchanged when locked or not toggling, and flips it when unlocked and toggling |
| `ButtonComponent.ClicksParity` | src/renderer/src/components/Button.tsx:13-16 | after n clicks `pressed` is flipped exactly when the button is unlocked and toggling and n is odd |
| `ButtonComponent.TwoClicksRestore` | src/renderer/src/components/Button.tsx:15 | two clicks restore `pressed` |
| `ButtonComponent.NeverPressedUnlessToggling` | src/renderer/src/components/Button.tsx:10-16 | starting from the initial false, a button that is locked or does not toggle is never pressed, however often it is clicked |
| `ButtonComponent.ClassNameRoundTrip` | src/renderer/src/components/Button.tsx:29-36 | the rendered class is the base, a space and exactly one style string. With distinct style strings the style can be read back from it |
| `ButtonComponent.SameClassSameStyle` | src/renderer/src/components/Button.tsx:29-36 | with distinct style strings, two rendered classes are equal only when the styles are equal |
| `ButtonComponent.Button.constructor` | src/renderer/src/components/Button.tsx:10-11 | a new button keeps its props and starts unpressed |
| `ButtonComponent.Button.Click` | src/renderer/src/components/Button.tsx:13-16 | the new `pressed` is `AfterClick` of the old one. It keeps the invariant that only an unlocked, toggling button is ever pressed |
| `ButtonComponent.Button.Style` | src/renderer/src/components/Button.tsx:29-36 | the current style is Locked exactly when locked. In a valid button it is Pressed exactly when `pressed` holds |
| `ButtonComponent.Button.ClassName` | src/renderer/src/components/Button.tsx:29-40 | with distinct style strings, the current class reads back as the current style |
| `ButtonComponent.Button.Disabled` | src/renderer/src/components/Button.tsx:42 | the button is disabled exactly when locked, that is, exactly when it renders Locked |

## Left out

- The chart library: the chart's creation and the call that hands it the option are outside the model. So is the declarative option literal (tooltip, grids, zoom, colours, axis styling). Only the axis data and series that the effect writes are modelled.
- The date formatter: it is a foreign call whose output depends on the local time zone. It is an uninterpreted parameter. The axis-label formatter (`HH:mm`) is part of the option literal and is left out with it.
- The simulated fetch, its timer and the framework's state and effect lifecycle: these are asynchronous framework plumbing. The model takes the fetched list and the chart's existence as inputs.
- Floating-point semantics of prices, volume and the timestamp: prices and volume are modelled as `real`. The timestamp is modelled as an `int` number of whole seconds, so `data_ts * 1000` is an exact integer product and the formatter takes an `int`. A NaN compares false in `close > open`, which the model cannot show; such a bucket gets -1 in the source as well.
- The records' auxiliary fields (every field other than data_ts, open, close, high, low and volume): the adapter never reads them. `KlineData` holds only the fields it reads.
- The literal class strings: they are a `StyleSheet` parameter, so the model does not fix their contents.
- The button's title and the rendered element's layout: these are markup with no logic.
- Default props: an omitted `lock` or `toggle` is modelled as a caller passing `false` to the `Button` constructor.
- Props changing between renders: `lock` and `toggle` are fixed for a button's lifetime in the model.
- `StatusIndicator.tsx` is not part of this model. It is a timer-driven animation flag plus a choice among three icons.
- The bundled market data file is not part of this model.
