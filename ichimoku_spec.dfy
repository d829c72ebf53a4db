/**
  Specification of the streaming Ichimoku Kinko Hyo calculator as functions of
  the configuration and of the whole sequence of candles passed to `next` so far.

  Call n (counting from 1) is the call that receives `cs[n - 1]`; a function of
  `cs` describes the call that received the last candle of `cs`.
 */
module IchimokuSpec {

  datatype Option<T> = None | Some(value: T)

  /** One candle as `next` receives it; the open price plays no part. */
  datatype Candle = Candle(high: real, low: real, close: real)

  /** The optional constructor settings; `None` is an absent field. */
  datatype IchimokuInput = IchimokuInput(
    tenkanPeriod: Option<int>,
    kijunPeriod: Option<int>,
    senkouBPeriod: Option<int>,
    displacement: Option<int>)

  /** The four settings once defaults are applied. */
  datatype Config = Config(tenkanPeriod: int, kijunPeriod: int, senkouBPeriod: int, displacement: int)

  /** What one call returns; `None` stands for `null`. */
  datatype IchimokuOutput = IchimokuOutput(
    tenkanSen: Option<real>,
    kijunSen: Option<real>,
    senkouSpanA: Option<real>,
    senkouSpanB: Option<real>,
    chikouSpan: Option<real>)

  /** The five lines, used to talk about one field of an output or one history. */
  datatype Line = TenkanSen | KijunSen | SenkouSpanA | SenkouSpanB | ChikouSpan

  const DefaultTenkanPeriod: int := 9
  const DefaultKijunPeriod: int := 26
  const DefaultSenkouBPeriod: int := 52
  const DefaultDisplacement: int := 26

  /** The `setting || fallback` of the constructor: an absent field or a 0 is falsy. */
  function OrDefault(setting: Option<int>, fallback: int): (r: int)
    ensures setting == None || setting == Some(0) ==> r == fallback
    ensures setting.Some? && setting.value != 0 ==> r == setting.value
  {
    match setting
    case None => fallback
    case Some(x) => if x == 0 then fallback else x
  }

  /** The constructor's four `||` defaults: a setting that is absent or 0 takes its default, any other is kept. */
  function Configure(input: IchimokuInput): (cfg: Config)
    ensures input.tenkanPeriod in {None, Some(0)} ==> cfg.tenkanPeriod == DefaultTenkanPeriod
    ensures input.kijunPeriod in {None, Some(0)} ==> cfg.kijunPeriod == DefaultKijunPeriod
    ensures input.senkouBPeriod in {None, Some(0)} ==> cfg.senkouBPeriod == DefaultSenkouBPeriod
    ensures input.displacement in {None, Some(0)} ==> cfg.displacement == DefaultDisplacement
    ensures input.tenkanPeriod !in {None, Some(0)} ==> cfg.tenkanPeriod == input.tenkanPeriod.value
    ensures input.kijunPeriod !in {None, Some(0)} ==> cfg.kijunPeriod == input.kijunPeriod.value
    ensures input.senkouBPeriod !in {None, Some(0)} ==> cfg.senkouBPeriod == input.senkouBPeriod.value
    ensures input.displacement !in {None, Some(0)} ==> cfg.displacement == input.displacement.value
  {
    Config(
      OrDefault(input.tenkanPeriod, DefaultTenkanPeriod),
      OrDefault(input.kijunPeriod, DefaultKijunPeriod),
      OrDefault(input.senkouBPeriod, DefaultSenkouBPeriod),
      OrDefault(input.displacement, DefaultDisplacement))
  }

  /** Every period and the displacement are at least 1. */
  predicate ValidConfig(cfg: Config)
  {
    cfg.tenkanPeriod >= 1 && cfg.kijunPeriod >= 1 && cfg.senkouBPeriod >= 1 && cfg.displacement >= 1
  }

  function Min(a: int, b: int): int
  {
    if a <= b then a else b
  }

  function Max(a: int, b: int): int
  {
    if a <= b then b else a
  }

  /**
    What is left of `s` once its oldest elements are dropped until at most `k`
    remain; `SuffixIsDrop` states that these are its last `min(|s|, k)` elements.
   */
  function Suffix<T>(s: seq<T>, k: nat): (r: seq<T>)
    ensures |r| == Min(|s|, k)
    decreases |s|
  {
    if |s| <= k then s else Suffix(s[1..], k)
  }

  function Highs(cs: seq<Candle>): (r: seq<real>)
    ensures |r| == |cs|
  {
    seq(|cs|, i requires 0 <= i < |cs| => cs[i].high)
  }

  function Lows(cs: seq<Candle>): (r: seq<real>)
    ensures |r| == |cs|
  {
    seq(|cs|, i requires 0 <= i < |cs| => cs[i].low)
  }

  function Closes(cs: seq<Candle>): (r: seq<real>)
    ensures |r| == |cs|
  {
    seq(|cs|, i requires 0 <= i < |cs| => cs[i].close)
  }

  /** `m` is an element of `s` and no element of `s` exceeds it. */
  ghost predicate IsHighest(s: seq<real>, m: real)
  {
    (exists i :: 0 <= i < |s| && s[i] == m) && forall i :: 0 <= i < |s| ==> s[i] <= m
  }

  /** `m` is an element of `s` and no element of `s` is below it. */
  ghost predicate IsLowest(s: seq<real>, m: real)
  {
    (exists i :: 0 <= i < |s| && s[i] == m) && forall i :: 0 <= i < |s| ==> m <= s[i]
  }

  /** `Math.max(...s)` on a non-empty list: an element of the list that no element exceeds. */
  function Highest(s: seq<real>): (m: real)
    requires |s| > 0
    ensures IsHighest(s, m)
  {
    if |s| == 1 then s[0]
    else
      var init := s[..|s| - 1];
      var rest := Highest(init);
      assert forall i :: 0 <= i < |s| - 1 ==> init[i] == s[i];
      if s[|s| - 1] > rest then s[|s| - 1] else rest
  }

  /** `Math.min(...s)` on a non-empty list: an element of the list that no element is below. */
  function Lowest(s: seq<real>): (m: real)
    requires |s| > 0
    ensures IsLowest(s, m)
  {
    if |s| == 1 then s[0]
    else
      var init := s[..|s| - 1];
      var rest := Lowest(init);
      assert forall i :: 0 <= i < |s| - 1 ==> init[i] == s[i];
      if s[|s| - 1] < rest then s[|s| - 1] else rest
  }

  /**
    `calculateHighLow(period, isHigh)`: the highest high (or lowest low) of the
    last `period` entries of the chosen buffer, or `None` while it is shorter;
    `CalculateHighLowIsExtreme` states what the value is.
   */
  function CalculateHighLow(highBuffer: seq<real>, lowBuffer: seq<real>, period: int, isHigh: bool): (r: Option<real>)
    requires period >= 1
    ensures r.None? <==> |if isHigh then highBuffer else lowBuffer| < period
  {
    var buffer := if isHigh then highBuffer else lowBuffer;
    if |buffer| < period then None
    else
      var window := buffer[|buffer| - period..];
      if isHigh then Some(Highest(window)) else Some(Lowest(window))
  }

  /** A defined `calculateHighLow` is an entry of the last `period` entries and bounds all of them. */
  lemma CalculateHighLowIsExtreme(highBuffer: seq<real>, lowBuffer: seq<real>, period: int, isHigh: bool)
    requires period >= 1
    ensures var buffer := if isHigh then highBuffer else lowBuffer;
            var r := CalculateHighLow(highBuffer, lowBuffer, period, isHigh);
            (r.Some? && isHigh ==> IsHighest(buffer[|buffer| - period..], r.value)) &&
            (r.Some? && !isHigh ==> IsLowest(buffer[|buffer| - period..], r.value))
  {
  }

  /** `calculateLine(period)`: the midpoint of the highest high and the lowest low of the window. */
  function CalculateLine(highBuffer: seq<real>, lowBuffer: seq<real>, period: int): (r: Option<real>)
    requires period >= 1
    ensures r.None? <==> |highBuffer| < period || |lowBuffer| < period
    ensures r.Some? ==>
              r.value == (Highest(highBuffer[|highBuffer| - period..]) + Lowest(lowBuffer[|lowBuffer| - period..])) / 2.0
  {
    var high := CalculateHighLow(highBuffer, lowBuffer, period, true);
    var low := CalculateHighLow(highBuffer, lowBuffer, period, false);
    if high.None? || low.None? then None
    else Some((high.value + low.value) / 2.0)
  }

  /** The highest high among the candles `cs[lo..hi]`. */
  function HighestHigh(cs: seq<Candle>, lo: int, hi: int): real
    requires 0 <= lo < hi <= |cs|
    decreases hi - lo
  {
    if hi - lo == 1 then cs[lo].high
    else
      var rest := HighestHigh(cs, lo, hi - 1);
      if cs[hi - 1].high > rest then cs[hi - 1].high else rest
  }

  /** The lowest low among the candles `cs[lo..hi]`. */
  function LowestLow(cs: seq<Candle>, lo: int, hi: int): real
    requires 0 <= lo < hi <= |cs|
    decreases hi - lo
  {
    if hi - lo == 1 then cs[lo].low
    else
      var rest := LowestLow(cs, lo, hi - 1);
      if cs[hi - 1].low < rest then cs[hi - 1].low else rest
  }

  /** Reference definition of a midpoint line over the candles `cs[lo..hi]`. */
  function Midpoint(cs: seq<Candle>, lo: int, hi: int): real
    requires 0 <= lo < hi <= |cs|
  {
    (HighestHigh(cs, lo, hi) + LowestLow(cs, lo, hi)) / 2.0
  }

  /**
    Reference definition of a midpoint line on call `|cs|`: the midpoint of the
    last `period` candles once there are that many, provided the window fits in
    the `senkouBPeriod + 1` entries a buffer holds while it is read (the new
    candle is pushed before the lines are read and the oldest one is evicted after).
   */
  function LineAt(cfg: Config, cs: seq<Candle>, period: int): Option<real>
    requires period >= 1
  {
    if period <= |cs| && period <= cfg.senkouBPeriod + 1 then Some(Midpoint(cs, |cs| - period, |cs|)) else None
  }

  /** Reference definition of the value of `line` that call `|cs|` computes, before the spans are read back. */
  function LineValue(cfg: Config, cs: seq<Candle>, line: Line): Option<real>
    requires ValidConfig(cfg)
  {
    match line
    case TenkanSen => LineAt(cfg, cs, cfg.tenkanPeriod)
    case KijunSen => LineAt(cfg, cs, cfg.kijunPeriod)
    case SenkouSpanA =>
      var tenkanSen := LineAt(cfg, cs, cfg.tenkanPeriod);
      var kijunSen := LineAt(cfg, cs, cfg.kijunPeriod);
      if tenkanSen.Some? && kijunSen.Some? then Some((tenkanSen.value + kijunSen.value) / 2.0) else None
    case SenkouSpanB => LineAt(cfg, cs, cfg.senkouBPeriod)
    case ChikouSpan =>
      if cfg.displacement < |cs| && cfg.displacement <= cfg.senkouBPeriod then Some(cs[|cs| - 1 - cfg.displacement].close) else None
  }

  /** The five values call `|cs|` computes, before the two spans are read back. */
  function Computed(cfg: Config, cs: seq<Candle>): IchimokuOutput
    requires ValidConfig(cfg)
  {
    IchimokuOutput(
      LineValue(cfg, cs, TenkanSen),
      LineValue(cfg, cs, KijunSen),
      LineValue(cfg, cs, SenkouSpanA),
      LineValue(cfg, cs, SenkouSpanB),
      LineValue(cfg, cs, ChikouSpan))
  }

  /** A defined value as a one-element list, an undefined one as the empty list. */
  function Values(o: Option<real>): seq<real>
  {
    if o.Some? then [o.value] else []
  }

  /**
    The history array of `line` after the calls that received `cs`: each call
    pushes the value it computed, if any.
   */
  function History(cfg: Config, cs: seq<Candle>, line: Line): seq<real>
    requires ValidConfig(cfg)
    decreases |cs|
  {
    if cs == [] then [] else History(cfg, cs[..|cs| - 1], line) + Values(LineValue(cfg, cs, line))
  }

  /** `history[history.length - 1 - displacement]` when the history is long enough, else `null`. */
  function ReadBack(history: seq<real>, displacement: int): (r: Option<real>)
    requires displacement >= 0
    ensures r.None? <==> |history| <= displacement
    ensures r.Some? ==> r.value == history[|history| - 1 - displacement]
  {
    if |history| > displacement then Some(history[|history| - 1 - displacement]) else None
  }

  /**
    What call `|cs|` returns: Tenkan-sen, Kijun-sen and Chikou Span as this call
    computed them, and each span read `displacement` entries back from its history.
   */
  function Output(cfg: Config, cs: seq<Candle>): (r: IchimokuOutput)
    requires ValidConfig(cfg)
    ensures r.tenkanSen == Computed(cfg, cs).tenkanSen
    ensures r.kijunSen == Computed(cfg, cs).kijunSen
    ensures r.chikouSpan == Computed(cfg, cs).chikouSpan
    ensures r.senkouSpanA.Some? <==> |History(cfg, cs, SenkouSpanA)| > cfg.displacement
    ensures r.senkouSpanB.Some? <==> |History(cfg, cs, SenkouSpanB)| > cfg.displacement
  {
    IchimokuOutput(
      LineValue(cfg, cs, TenkanSen),
      LineValue(cfg, cs, KijunSen),
      ReadBack(History(cfg, cs, SenkouSpanA), cfg.displacement),
      ReadBack(History(cfg, cs, SenkouSpanB), cfg.displacement),
      LineValue(cfg, cs, ChikouSpan))
  }

  /** Whether `line` can ever be defined under `cfg`: a read-time buffer holds at most `senkouBPeriod + 1` entries. */
  predicate Reachable(cfg: Config, line: Line)
  {
    match line
    case TenkanSen => cfg.tenkanPeriod <= cfg.senkouBPeriod + 1
    case KijunSen => cfg.kijunPeriod <= cfg.senkouBPeriod + 1
    case SenkouSpanA => cfg.tenkanPeriod <= cfg.senkouBPeriod + 1 && cfg.kijunPeriod <= cfg.senkouBPeriod + 1
    case SenkouSpanB => true
    case ChikouSpan => cfg.displacement <= cfg.senkouBPeriod
  }

  /** The first call (counting from 1) on which `line` is computed, when it is reachable. */
  function FirstCall(cfg: Config, line: Line): int
  {
    match line
    case TenkanSen => cfg.tenkanPeriod
    case KijunSen => cfg.kijunPeriod
    case SenkouSpanA => Max(cfg.tenkanPeriod, cfg.kijunPeriod)
    case SenkouSpanB => cfg.senkouBPeriod
    case ChikouSpan => cfg.displacement + 1
  }
}
