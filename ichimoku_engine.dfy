/**
  The `Ichimoku` class: four settings fixed at construction, three price
  buffers that keep the last `senkouBPeriod` candles between calls, and five
  append-only histories, one per line. `candles` is the ghost record of every
  candle passed to `next`; `Valid()` ties each field to the specification in
  `IchimokuSpec`.
 */
module IchimokuEngine {
  import opened IchimokuSpec
  import opened IchimokuProperties

  class Ichimoku {
    const tenkanPeriod: int
    const kijunPeriod: int
    const senkouBPeriod: int
    const displacement: int
    var highBuffer: seq<real>
    var lowBuffer: seq<real>
    var closeBuffer: seq<real>
    var tenkanSen: seq<real>
    var kijunSen: seq<real>
    var senkouSpanA: seq<real>
    var senkouSpanB: seq<real>
    var chikouSpan: seq<real>
    ghost var candles: seq<Candle>

    function Cfg(): Config
    {
      Config(tenkanPeriod, kijunPeriod, senkouBPeriod, displacement)
    }

    /**
      Between calls each buffer holds the matching prices of the last
      `senkouBPeriod` candles and each history holds, in order, every value of
      its line computed so far.
     */
    ghost predicate Valid()
      reads this
    {
      && ValidConfig(Cfg())
      && highBuffer == Suffix(Highs(candles), senkouBPeriod)
      && lowBuffer == Suffix(Lows(candles), senkouBPeriod)
      && closeBuffer == Suffix(Closes(candles), senkouBPeriod)
      && tenkanSen == History(Cfg(), candles, TenkanSen)
      && kijunSen == History(Cfg(), candles, KijunSen)
      && senkouSpanA == History(Cfg(), candles, SenkouSpanA)
      && senkouSpanB == History(Cfg(), candles, SenkouSpanB)
      && chikouSpan == History(Cfg(), candles, ChikouSpan)
    }

    /** Applies the `||` defaults; the object is valid whenever no setting was negative. */
    constructor(input: IchimokuInput)
      ensures Cfg() == Configure(input)
      ensures candles == []
      ensures highBuffer == [] && lowBuffer == [] && closeBuffer == []
      ensures tenkanSen == [] && kijunSen == [] && senkouSpanA == [] && senkouSpanB == [] && chikouSpan == []
      ensures ValidConfig(Cfg()) ==> Valid()
    {
      tenkanPeriod := OrDefault(input.tenkanPeriod, DefaultTenkanPeriod);
      kijunPeriod := OrDefault(input.kijunPeriod, DefaultKijunPeriod);
      senkouBPeriod := OrDefault(input.senkouBPeriod, DefaultSenkouBPeriod);
      displacement := OrDefault(input.displacement, DefaultDisplacement);
      highBuffer := [];
      lowBuffer := [];
      closeBuffer := [];
      tenkanSen := [];
      kijunSen := [];
      senkouSpanA := [];
      senkouSpanB := [];
      chikouSpan := [];
      candles := [];
    }

    /** `nextValue(high, low, close)`: `next` on the candle made of the three prices. */
    method NextValue(high: real, low: real, close: real) returns (output: IchimokuOutput)
      requires Valid()
      modifies this
      ensures Valid()
      ensures candles == old(candles) + [Candle(high, low, close)]
      ensures output == Output(Cfg(), candles)
    {
      output := Next(Candle(high, low, close));
    }

    /**
      `next(candle)`: pushes the candle's prices, computes the five lines from
      the buffers, appends each defined value to its history, shifts the
      buffers back to `senkouBPeriod` entries and returns the two spans read
      `displacement` entries back from the end of their histories.
     */
    method Next(candle: Candle) returns (output: IchimokuOutput)
      requires Valid()
      modifies this
      ensures Valid()
      ensures candles == old(candles) + [candle]
      ensures output == Output(Cfg(), candles)
      ensures highBuffer == Suffix(old(highBuffer) + [candle.high], senkouBPeriod)
      ensures lowBuffer == Suffix(old(lowBuffer) + [candle.low], senkouBPeriod)
      ensures closeBuffer == Suffix(old(closeBuffer) + [candle.close], senkouBPeriod)
      ensures |highBuffer| == |lowBuffer| == |closeBuffer| == Min(|candles|, senkouBPeriod)
      ensures tenkanSen == old(tenkanSen) + Values(output.tenkanSen)
      ensures kijunSen == old(kijunSen) + Values(output.kijunSen)
      ensures senkouSpanA == old(senkouSpanA) + Values(Computed(Cfg(), candles).senkouSpanA)
      ensures senkouSpanB == old(senkouSpanB) + Values(Computed(Cfg(), candles).senkouSpanB)
      ensures chikouSpan == old(chikouSpan) + Values(output.chikouSpan)
      ensures output.senkouSpanA == ReadBack(senkouSpanA, displacement)
      ensures output.senkouSpanB == ReadBack(senkouSpanB, displacement)
    {
      ghost var before := candles;
      candles := candles + [candle];
      Push(before, candle);
      var computed := ComputeLines();
      Record(computed);
      HistoriesAppend(Cfg(), before, candle);
      Shift();

      output := computed.(
        senkouSpanA := ReadBack(senkouSpanA, displacement),
        senkouSpanB := ReadBack(senkouSpanB, displacement));
    }

    /** The three pushes that open `next`: the buffers then hold the last `senkouBPeriod + 1` candles. */
    method Push(ghost before: seq<Candle>, candle: Candle)
      requires ValidConfig(Cfg()) && candles == before + [candle]
      requires highBuffer == Suffix(Highs(before), senkouBPeriod)
      requires lowBuffer == Suffix(Lows(before), senkouBPeriod)
      requires closeBuffer == Suffix(Closes(before), senkouBPeriod)
      modifies this
      ensures highBuffer == old(highBuffer) + [candle.high] == Suffix(Highs(candles), senkouBPeriod + 1)
      ensures lowBuffer == old(lowBuffer) + [candle.low] == Suffix(Lows(candles), senkouBPeriod + 1)
      ensures closeBuffer == old(closeBuffer) + [candle.close] == Suffix(Closes(candles), senkouBPeriod + 1)
      ensures unchanged(`tenkanSen, `kijunSen, `senkouSpanA, `senkouSpanB, `chikouSpan, `candles)
    {
      ColumnsAppend(before, candle);
      SuffixPush(Highs(before), candle.high, senkouBPeriod);
      SuffixPush(Lows(before), candle.low, senkouBPeriod);
      SuffixPush(Closes(before), candle.close, senkouBPeriod);
      highBuffer := highBuffer + [candle.high];
      lowBuffer := lowBuffer + [candle.low];
      closeBuffer := closeBuffer + [candle.close];
    }

    /**
      The reads in the middle of `next`: with the new candle pushed, the five
      values computed from the buffers, before the two spans are read back.
      `next` pushes each value onto its history as soon as it is computed;
      the reads use only the buffers, so doing all five first changes nothing.
     */
    method ComputeLines() returns (computed: IchimokuOutput)
      requires ValidConfig(Cfg())
      requires highBuffer == Suffix(Highs(candles), senkouBPeriod + 1)
      requires lowBuffer == Suffix(Lows(candles), senkouBPeriod + 1)
      requires closeBuffer == Suffix(Closes(candles), senkouBPeriod + 1)
      ensures computed == Computed(Cfg(), candles)
      ensures computed.senkouSpanA ==
                if computed.tenkanSen.Some? && computed.kijunSen.Some?
                then Some((computed.tenkanSen.value + computed.kijunSen.value) / 2.0) else None
    {
      var tenkan := Line(tenkanPeriod);
      var kijun := Line(kijunPeriod);
      var spanA: Option<real> := None;
      if tenkan.Some? && kijun.Some? {
        spanA := Some((tenkan.value + kijun.value) / 2.0);
      }
      var spanB := Line(senkouBPeriod);
      var chikou: Option<real> := None;
      if |closeBuffer| > displacement {
        chikou := Some(closeBuffer[|closeBuffer| - 1 - displacement]);
      }
      computed := IchimokuOutput(tenkan, kijun, spanA, spanB, chikou);
      assert computed.chikouSpan == Computed(Cfg(), candles).chikouSpan by {
        ChikouMatches(Cfg(), candles);
      }
    }

    /**
      `calculateLine(period)` as the class calls it, on its current buffers:
      with the new candle pushed, the reference line of `period` candles.
     */
    method Line(period: int) returns (line: Option<real>)
      requires ValidConfig(Cfg()) && period >= 1
      requires highBuffer == Suffix(Highs(candles), senkouBPeriod + 1)
      requires lowBuffer == Suffix(Lows(candles), senkouBPeriod + 1)
      ensures line == LineAt(Cfg(), candles, period)
    {
      line := CalculateLine(highBuffer, lowBuffer, period);
      CalculateLineMatches(Cfg(), candles, period);
    }

    /** The pushes in the middle of `next`: each computed value that is defined goes onto its history. */
    method Record(computed: IchimokuOutput)
      modifies this
      ensures tenkanSen == old(tenkanSen) + Values(computed.tenkanSen)
      ensures kijunSen == old(kijunSen) + Values(computed.kijunSen)
      ensures senkouSpanA == old(senkouSpanA) + Values(computed.senkouSpanA)
      ensures senkouSpanB == old(senkouSpanB) + Values(computed.senkouSpanB)
      ensures chikouSpan == old(chikouSpan) + Values(computed.chikouSpan)
      ensures unchanged(`highBuffer, `lowBuffer, `closeBuffer, `candles)
    {
      if computed.tenkanSen.Some? {
        tenkanSen := tenkanSen + [computed.tenkanSen.value];
      }
      if computed.kijunSen.Some? {
        kijunSen := kijunSen + [computed.kijunSen.value];
      }
      if computed.senkouSpanA.Some? {
        senkouSpanA := senkouSpanA + [computed.senkouSpanA.value];
      }
      if computed.senkouSpanB.Some? {
        senkouSpanB := senkouSpanB + [computed.senkouSpanB.value];
      }
      if computed.chikouSpan.Some? {
        chikouSpan := chikouSpan + [computed.chikouSpan.value];
      }
    }

    /** The closing shift of `next`: over `senkouBPeriod` entries, each buffer drops its oldest one. */
    method Shift()
      requires ValidConfig(Cfg())
      requires highBuffer == Suffix(Highs(candles), senkouBPeriod + 1)
      requires lowBuffer == Suffix(Lows(candles), senkouBPeriod + 1)
      requires closeBuffer == Suffix(Closes(candles), senkouBPeriod + 1)
      modifies this
      ensures highBuffer == Suffix(old(highBuffer), senkouBPeriod) == Suffix(Highs(candles), senkouBPeriod)
      ensures lowBuffer == Suffix(old(lowBuffer), senkouBPeriod) == Suffix(Lows(candles), senkouBPeriod)
      ensures closeBuffer == Suffix(old(closeBuffer), senkouBPeriod) == Suffix(Closes(candles), senkouBPeriod)
      ensures unchanged(`tenkanSen, `kijunSen, `senkouSpanA, `senkouSpanB, `chikouSpan, `candles)
    {
      SuffixEvict(Highs(candles), senkouBPeriod);
      SuffixEvict(Lows(candles), senkouBPeriod);
      SuffixEvict(Closes(candles), senkouBPeriod);
      if |highBuffer| > senkouBPeriod {
        highBuffer := highBuffer[1..];
        lowBuffer := lowBuffer[1..];
        closeBuffer := closeBuffer[1..];
      }
    }
  }
}
