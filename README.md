# Ichimoku Kinko Hyo, streaming calculator

A Dafny model of the `Ichimoku` class of `src/ichimoku.ts`, a streaming
calculator of the Ichimoku Kinko Hyo indicator. The class holds three
periods and a displacement. It keeps three rolling price buffers (highs, lows,
closes) and five append-only histories, one per line. Each call to `next`
takes one candle and works in four steps:

1. It pushes the candle's prices onto the buffers.
2. It computes five lines from the buffers:
   - Tenkan-sen and Kijun-sen, midpoints of the highest high and lowest low over their periods;
   - Senkou Span A, their average;
   - Senkou Span B, a longer midpoint;
   - Chikou Span, the close `displacement` candles back.
3. It appends each defined value to its history and evicts the oldest buffer
   entry once the buffers hold more than `senkouBPeriod` entries.
4. It returns Tenkan-sen, Kijun-sen and Chikou Span as computed. It returns the
   two spans read `displacement` entries back from the end of their histories.

The project has three modules:

- `IchimokuSpec` (`ichimoku_spec.dfy`) holds the data types, the constructor's
  `||` defaults and the two buffer reads `calculateHighLow` / `calculateLine`
  as functions over the buffer sequences. It also holds the reference
  definition of the whole stream as functions of the configuration and of the
  candles received so far:
  - `LineValue` and `Computed`: what call n computes;
  - `History`: each history after n calls;
  - `Output`: what call n returns.
- `IchimokuProperties` (`ichimoku_properties.dfy`) proves facts about that
  definition and ties the buffer code to it:
  - FIFO eviction;
  - which calls yield `null`;
  - which candle each value comes from;
  - dense, append-only histories;
  - the displaced read-back of the spans.
- `IchimokuEngine` (`ichimoku_engine.dfy`) is the class itself, with the source's
  eight array fields as `seq<real>` fields. `Next` runs in four steps:
  `Push`, `ComputeLines` (three `Line` calls and the lagged close), `Record`
  and `Shift`. The source pushes each line onto its history straight after
  computing it. `ComputeLines` instead computes all five values first, and
  `Record` then pushes all five. The two orders give the same state and the
  same output, because computing a line reads only the price buffers and never
  the histories. A ghost field `candles` records every candle received.
  `Valid()` states that:
  - each buffer is the last `senkouBPeriod` prices of `candles`;
  - each history is `History` of `candles`.

  `Next` and `NextValue` keep `Valid()`, and the constructor establishes it
  when the settings are valid. `Push`, `ComputeLines`, `Line`, `Record` and
  `Shift` are the steps in between, when `candles` already holds the new candle
  and the buffers hold up to `senkouBPeriod + 1` entries; each states its own
  pre- and postconditions. `Next` is proved to return `Output` of the candles
  received so far.

Prices are exact reals and settings are mathematical integers.

Behaviour of the code that the model states exactly:

- Lines are read after the push and before the shift, so a buffer holds up to
  `senkouBPeriod + 1` entries at read time. A Tenkan or Kijun period above
  `senkouBPeriod + 1` therefore never yields a value (`Reachable`). Chikou Span
  is only ever defined when `displacement <= senkouBPeriod`.
- On a steadily rising series (candle i has high = low = close = i) with default
  settings, Tenkan-sen on call n is n - 4, not n. The window of the last 9
  candles has highest high n and lowest low n - 8. The model follows the code
  (`RisingSeries`).

## Model

| member | source | states |
|---|---|---|
| IchimokuSpec.OrDefault | src/ichimoku.ts:33-36 | an absent setting or a 0 becomes the fallback; any other value is kept unchanged |
| IchimokuProperties.ConfigureValidIff | src/ichimoku.ts:33-36 | after the defaults (9, 26, 52, 26), every setting is at least 1 exactly when no field was given a negative number |
| IchimokuEngine.Ichimoku.constructor | src/ichimoku.ts:32-45 | the settings are the defaulted input; all buffers and histories are empty; the object is valid when the settings are |
| IchimokuSpec.Configure | src/ichimoku.ts:33-36 | each of the four settings is its default (9, 26, 52, 26) when absent or 0, and the given value otherwise |
| IchimokuSpec.Highest | src/ichimoku.ts:52 | `Math.max` of a non-empty list is one of its elements and no element exceeds it |
| IchimokuSpec.Lowest | src/ichimoku.ts:53 | `Math.min` of a non-empty list is one of its elements and no element is below it |
| IchimokuSpec.CalculateHighLow | src/ichimoku.ts:48-54 | null exactly when the chosen buffer is shorter than `period` |
| IchimokuSpec.CalculateHighLowIsExtreme | src/ichimoku.ts:48-54 | a defined result is the highest (or lowest) entry among the last `period` entries of the chosen buffer |
| IchimokuSpec.CalculateLine | src/ichimoku.ts:57-62 | null exactly when either buffer is shorter than `period`; otherwise (highest high + lowest low) / 2 over the last `period` entries |
| IchimokuSpec.Suffix | src/ichimoku.ts:100-104 | a buffer that keeps `k` entries holds `min(n, k)` entries |
| IchimokuProperties.SuffixIsDrop | src/ichimoku.ts:100-104 | a buffer that keeps `k` entries holds exactly the last `min(n, k)` entries, in order |
| IchimokuProperties.SuffixPush | src/ichimoku.ts:69-71 | pushing onto a buffer of the last `k` entries gives the buffer of the last `k + 1` entries |
| IchimokuProperties.SuffixEvict | src/ichimoku.ts:100-104 | shifting once when above `k` entries drops exactly the oldest entry and gives the last `k` entries |
| IchimokuProperties.ColumnsAppend | src/ichimoku.ts:69-71 | a new candle adds its high, low and close at the end of the price columns |
| IchimokuProperties.SuffixAt | src/ichimoku.ts:52-53 | entry i of a buffer that keeps the last `k` entries is the matching entry of the whole price column |
| IchimokuProperties.HighestMatches | src/ichimoku.ts:52 | `Math.max` of the highs of a run of candles is their reference highest high |
| IchimokuProperties.LowestMatches | src/ichimoku.ts:53 | `Math.min` of the lows of a run of candles is their reference lowest low |
| IchimokuProperties.HighestHighIsHighest | src/ichimoku.ts:52 | the reference highest high of a run of candles is the high of one of them, and no high among them exceeds it |
| IchimokuProperties.LowestLowIsLowest | src/ichimoku.ts:53 | the reference lowest low of a run of candles is the low of one of them, and no low among them is below it |
| IchimokuProperties.HighWindow | src/ichimoku.ts:52 | the last `p` entries of the high buffer give the highest high of the last `p` candles, the newest included |
| IchimokuProperties.LowWindow | src/ichimoku.ts:53 | the last `p` entries of the low buffer give the lowest low of the last `p` candles, the newest included |
| IchimokuProperties.ExtremesOfPrefix | src/ichimoku.ts:74-89 | the extremes of a run of candles do not depend on candles received later |
| IchimokuProperties.LineAtPast | src/ichimoku.ts:74-89 | a midpoint line computed on an earlier call is the midpoint of the `period` candles ending with that call's candle |
| IchimokuProperties.LineDefinedIff | src/ichimoku.ts:57-62 | a midpoint line read from buffers of the last `k` candles is defined exactly when `period <= min(n, k)` |
| IchimokuProperties.LineIsMidpoint | src/ichimoku.ts:57-62 | a defined midpoint line is the reference midpoint of the last `period` candles |
| IchimokuProperties.CalculateLineMatches | src/ichimoku.ts:57-62 | `calculateLine` on read-time buffers (last `senkouBPeriod + 1` candles) equals the reference line of the stream |
| IchimokuProperties.ChikouMatches | src/ichimoku.ts:93-97 | the close-buffer index is in range exactly when `displacement < n` and `displacement <= senkouBPeriod`; the entry read is the close of call n - `displacement` |
| IchimokuProperties.ComputedDefinedIff | src/ichimoku.ts:73-97 | call n computes a line exactly when the line is reachable and n is at or after the line's first call: tenkanPeriod, kijunPeriod, their maximum, senkouBPeriod, or displacement + 1 |
| IchimokuProperties.HistoryAppend | src/ichimoku.ts:74-97 | a call appends to a history exactly the value it computed for that line, when defined, and nothing else |
| IchimokuProperties.HistoriesAppend | src/ichimoku.ts:74-97 | one call appends to each of the five histories the value of its own line, when defined |
| IchimokuProperties.HistoryPrefix | src/ichimoku.ts:74-97 | histories are append-only: an earlier history is a prefix of every later one |
| IchimokuProperties.HistoryLength | src/ichimoku.ts:74-97 | histories are dense once warm: after n calls a history holds n - first call + 1 values, or none |
| IchimokuSpec.ReadBack | src/ichimoku.ts:110-111 | null exactly when the history holds at most `displacement` values; otherwise the entry at index length - 1 - `displacement`, which is then in range |
| IchimokuProperties.ReadBackPush | src/ichimoku.ts:110-111 | after a push, reading `d` back gives the pushed value when `d` is 0, and otherwise what reading `d - 1` back gave before the push |
| IchimokuProperties.HistoryLast | src/ichimoku.ts:74-97 | from a line's first call on, each call computes the line and appends exactly that value to its history |
| IchimokuProperties.ReadBackValue | src/ichimoku.ts:110-111 | from call first call + `d` on, the entry `d` back from the end of a history is the value that line computed `d` calls earlier |
| IchimokuProperties.ReadBackAtCall | src/ichimoku.ts:110-111 | reading a history `d` entries back from its end is in range from call first call + `d` on, and yields the value that line computed `d` calls earlier |
| IchimokuSpec.Output | src/ichimoku.ts:107-113 | the returned Tenkan-sen, Kijun-sen and Chikou Span are the values this call computed; each span is defined exactly when its history holds more than `displacement` values |
| IchimokuProperties.SenkouSpanAAtCall | src/ichimoku.ts:110 | the returned Senkou Span A is defined exactly from call max(tenkanPeriod, kijunPeriod) + displacement on (both periods reachable), and is the average of the two midpoints computed `displacement` calls earlier |
| IchimokuProperties.SenkouSpanBAtCall | src/ichimoku.ts:111 | the returned Senkou Span B is defined exactly from call senkouBPeriod + displacement on, and is the midpoint of the senkouBPeriod candles ending `displacement` calls earlier |
| IchimokuProperties.RisingSeries | src/ichimoku.ts:74-95 | with default settings on the series high = low = close = i, Tenkan-sen is null before call 9 and n - 4 from then on; Chikou Span on call n >= 27 is the close of call n - 26 |
| IchimokuEngine.Ichimoku.NextValue | src/ichimoku.ts:64-66 | behaves as `next` on the candle made of the three prices |
| IchimokuEngine.Ichimoku.Next | src/ichimoku.ts:68-114 | keeps the object valid; returns the reference output of all candles so far; each buffer gains the new price and keeps its last `senkouBPeriod` entries, all three of length min(n, senkouBPeriod); each history gains exactly its defined value; the spans are read `displacement` back |
| IchimokuEngine.Ichimoku.Push | src/ichimoku.ts:69-71 | each buffer gains the new price at its end and then holds the last `senkouBPeriod + 1` prices |
| IchimokuEngine.Ichimoku.ComputeLines | src/ichimoku.ts:73-97 | the five values read from the pushed buffers are the reference values of this call; Span A is the average of Tenkan and Kijun when both are defined, else null |
| IchimokuEngine.Ichimoku.Line | src/ichimoku.ts:57-62 | `calculateLine(period)` on the pushed buffers is the reference midpoint line of the last `period` candles |
| IchimokuEngine.Ichimoku.Record | src/ichimoku.ts:74-97 | each history gains its computed value when defined, and the buffers are untouched |
| IchimokuEngine.Ichimoku.Shift | src/ichimoku.ts:100-104 | over `senkouBPeriod` entries each buffer drops exactly its oldest entry, leaving the last `senkouBPeriod` prices; histories are untouched |

## Left out

- Floating point: prices are exact reals. The model does not capture the rounding of `/ 2`, NaN or infinities passing through `Math.max`/`Math.min`, or a NaN setting being falsy.
- IchimokuEngine.Ichimoku.Next: requires every setting to be at least 1. A negative or fractional period, and the JavaScript behaviour of `slice(-period)` and of `Math.max()` on an empty list that it would reach, are not modelled. The constructor accepts any input; `ConfigureValidIff` states when the result is valid.
- The argument-count limit of spread calls and the unbounded growth of the five history arrays are runtime resource limits, not behaviour.
- `IchimokuInput` and `IchimokuOutput` are modelled as records: optional fields become `Option`, and `null` becomes `None`.
- The arrays the source changes in place are `seq` fields that each method reassigns; no other code holds a reference to them, so there is no aliasing to model.
