/**
  Properties of the stream specification: the buffer arithmetic `next` relies
  on, when each line is defined, which earlier candles each value comes from,
  the shape of the histories and the displaced read-back of the two spans.
 */
module IchimokuProperties {
  import opened IchimokuSpec

  // ---------------------------------------------------------------------------
  // Configuration

  /** The defaulted settings are all at least 1 exactly when no field was set to a negative number. */
  lemma ConfigureValidIff(input: IchimokuInput)
    ensures ValidConfig(Configure(input)) <==>
              (input.tenkanPeriod.None? || input.tenkanPeriod.value >= 0) &&
              (input.kijunPeriod.None? || input.kijunPeriod.value >= 0) &&
              (input.senkouBPeriod.None? || input.senkouBPeriod.value >= 0) &&
              (input.displacement.None? || input.displacement.value >= 0)
  {
  }

  // ---------------------------------------------------------------------------
  // Buffers: push, read, evict

  lemma ColumnsAppend(cs: seq<Candle>, c: Candle)
    ensures Highs(cs + [c]) == Highs(cs) + [c.high]
    ensures Lows(cs + [c]) == Lows(cs) + [c.low]
    ensures Closes(cs + [c]) == Closes(cs) + [c.close]
  {
    assert Highs(cs + [c]) == Highs(cs) + [c.high] by {
      assert forall i :: 0 <= i < |cs| + 1 ==> Highs(cs + [c])[i] == (Highs(cs) + [c.high])[i];
    }
    assert Lows(cs + [c]) == Lows(cs) + [c.low] by {
      assert forall i :: 0 <= i < |cs| + 1 ==> Lows(cs + [c])[i] == (Lows(cs) + [c.low])[i];
    }
    assert Closes(cs + [c]) == Closes(cs) + [c.close] by {
      assert forall i :: 0 <= i < |cs| + 1 ==> Closes(cs + [c])[i] == (Closes(cs) + [c.close])[i];
    }
  }

  lemma {:induction false} SuffixIsDrop<T>(s: seq<T>, k: nat)
    ensures Suffix(s, k) == s[|s| - Min(|s|, k)..]
    decreases |s|
  {
    if |s| > k {
      SuffixIsDrop(s[1..], k);
      assert s[1..][|s| - 1 - k..] == s[|s| - k..];
    }
  }

  /** Pushing onto a buffer that keeps `k` entries gives the last `k + 1` entries. */
  lemma SuffixPush<T>(s: seq<T>, x: T, k: nat)
    ensures Suffix(s + [x], k + 1) == Suffix(s, k) + [x]
  {
    var r := Suffix(s + [x], k + 1);
    SuffixIsDrop(s + [x], k + 1);
    SuffixIsDrop(s, k);
    assert r == (s + [x])[|s| + 1 - |r|..];
    assert (s + [x])[|s| + 1 - |r|..] == s[|s| - (|r| - 1)..] + [x];
  }

  /** Shifting once when over `k` entries turns the last `k + 1` entries into the last `k`. */
  lemma SuffixEvict<T>(s: seq<T>, k: nat)
    ensures var v := Suffix(s, k + 1);
            Suffix(s, k) == if |v| > k then v[1..] else v
  {
    SuffixIsDrop(s, k + 1);
    SuffixIsDrop(s, k);
  }

  /** `Math.max` of a list of prices that are the highs of `cs[lo..hi]` is their highest high. */
  lemma {:induction false} HighestMatches(s: seq<real>, cs: seq<Candle>, lo: int, hi: int)
    requires 0 <= lo < hi <= |cs| && |s| == hi - lo
    requires forall i :: 0 <= i < |s| ==> s[i] == cs[lo + i].high
    ensures Highest(s) == HighestHigh(cs, lo, hi)
    decreases hi - lo
  {
    if hi - lo > 1 {
      var init := s[..|s| - 1];
      HighestMatches(init, cs, lo, hi - 1);
    }
  }

  /** `Math.min` of a list of prices that are the lows of `cs[lo..hi]` is their lowest low. */
  lemma {:induction false} LowestMatches(s: seq<real>, cs: seq<Candle>, lo: int, hi: int)
    requires 0 <= lo < hi <= |cs| && |s| == hi - lo
    requires forall i :: 0 <= i < |s| ==> s[i] == cs[lo + i].low
    ensures Lowest(s) == LowestLow(cs, lo, hi)
    decreases hi - lo
  {
    if hi - lo > 1 {
      var init := s[..|s| - 1];
      LowestMatches(init, cs, lo, hi - 1);
    }
  }

  /** The reference highest high of `cs[lo..hi]` is the high of one of those candles, and no high among them exceeds it. */
  lemma HighestHighIsHighest(cs: seq<Candle>, lo: int, hi: int)
    requires 0 <= lo < hi <= |cs|
    ensures forall i :: lo <= i < hi ==> cs[i].high <= HighestHigh(cs, lo, hi)
    ensures exists i :: lo <= i < hi && cs[i].high == HighestHigh(cs, lo, hi)
  {
    var s := Highs(cs)[lo..hi];
    HighestMatches(s, cs, lo, hi);
    var m := Highest(s);
    forall i | lo <= i < hi
      ensures cs[i].high <= m
    {
      assert s[i - lo] == cs[i].high;
    }
    var j :| 0 <= j < |s| && s[j] == m;
    assert cs[lo + j].high == m;
  }

  /** The reference lowest low of `cs[lo..hi]` is the low of one of those candles, and no low among them is below it. */
  lemma LowestLowIsLowest(cs: seq<Candle>, lo: int, hi: int)
    requires 0 <= lo < hi <= |cs|
    ensures forall i :: lo <= i < hi ==> LowestLow(cs, lo, hi) <= cs[i].low
    ensures exists i :: lo <= i < hi && cs[i].low == LowestLow(cs, lo, hi)
  {
    var s := Lows(cs)[lo..hi];
    LowestMatches(s, cs, lo, hi);
    var m := Lowest(s);
    forall i | lo <= i < hi
      ensures m <= cs[i].low
    {
      assert s[i - lo] == cs[i].low;
    }
    var j :| 0 <= j < |s| && s[j] == m;
    assert cs[lo + j].low == m;
  }

  /** Entry `i` of a buffer keeping the last `k` entries is entry `|s| - Min(|s|, k) + i` of the whole column. */
  lemma SuffixAt<T>(s: seq<T>, k: nat, i: int)
    requires 0 <= i < Min(|s|, k)
    ensures Suffix(s, k)[i] == s[|s| - Min(|s|, k) + i]
  {
    SuffixIsDrop(s, k);
  }

  /** The last `p` entries of a high buffer keeping `k >= p` entries have the highest high of the last `p` candles. */
  lemma HighWindow(cs: seq<Candle>, k: nat, p: nat)
    requires 1 <= p <= Min(|cs|, k)
    ensures var h := Suffix(Highs(cs), k); Highest(h[|h| - p..]) == HighestHigh(cs, |cs| - p, |cs|)
  {
    var h := Suffix(Highs(cs), k);
    var hw := h[|h| - p..];
    forall i | 0 <= i < p
      ensures hw[i] == cs[|cs| - p + i].high
    {
      SuffixAt(Highs(cs), k, |h| - p + i);
    }
    HighestMatches(hw, cs, |cs| - p, |cs|);
  }

  /** The last `p` entries of a low buffer keeping `k >= p` entries have the lowest low of the last `p` candles. */
  lemma LowWindow(cs: seq<Candle>, k: nat, p: nat)
    requires 1 <= p <= Min(|cs|, k)
    ensures var l := Suffix(Lows(cs), k); Lowest(l[|l| - p..]) == LowestLow(cs, |cs| - p, |cs|)
  {
    var l := Suffix(Lows(cs), k);
    var lw := l[|l| - p..];
    forall i | 0 <= i < p
      ensures lw[i] == cs[|cs| - p + i].low
    {
      SuffixAt(Lows(cs), k, |l| - p + i);
    }
    LowestMatches(lw, cs, |cs| - p, |cs|);
  }

  /** The extremes of `cs[lo..hi]` do not depend on the candles after `hi`. */
  lemma {:induction false} ExtremesOfPrefix(cs: seq<Candle>, m: int, lo: int, hi: int)
    requires 0 <= lo < hi <= m <= |cs|
    ensures HighestHigh(cs[..m], lo, hi) == HighestHigh(cs, lo, hi)
    ensures LowestLow(cs[..m], lo, hi) == LowestLow(cs, lo, hi)
    decreases hi - lo
  {
    if hi - lo > 1 {
      ExtremesOfPrefix(cs, m, lo, hi - 1);
    }
  }

  /** A line computed on call `past` is the midpoint of the `period` candles ending with candle `past`. */
  lemma LineAtPast(cfg: Config, cs: seq<Candle>, period: int, past: int)
    requires ValidConfig(cfg) && 1 <= period <= past <= |cs| && period <= cfg.senkouBPeriod + 1
    ensures LineAt(cfg, cs[..past], period) == Some(Midpoint(cs, past - period, past))
  {
    ExtremesOfPrefix(cs, past, past - period, past);
  }

  // ---------------------------------------------------------------------------
  // The buffer code against the reference definition

  /**
    `calculateLine(period)`, read while the buffers hold the last
    `senkouBPeriod + 1` candles at most, is the reference midpoint line: defined
    from call `period` on when the window fits, and then the midpoint of the last
    `period` candles, the newest included.
   */
  lemma CalculateLineMatches(cfg: Config, cs: seq<Candle>, period: int)
    requires ValidConfig(cfg) && period >= 1
    ensures var k := cfg.senkouBPeriod + 1;
            CalculateLine(Suffix(Highs(cs), k), Suffix(Lows(cs), k), period) == LineAt(cfg, cs, period)
  {
    var k := cfg.senkouBPeriod + 1;
    var r := CalculateLine(Suffix(Highs(cs), k), Suffix(Lows(cs), k), period);
    LineDefinedIff(cs, k, period);
    if r.Some? {
      LineIsMidpoint(cs, k, period);
    }
  }

  /** A midpoint line read from buffers keeping the last `k` candles is defined exactly when its window fits. */
  lemma LineDefinedIff(cs: seq<Candle>, k: nat, period: int)
    requires period >= 1
    ensures CalculateLine(Suffix(Highs(cs), k), Suffix(Lows(cs), k), period).Some? <==> period <= Min(|cs|, k)
  {
  }

  /** A defined midpoint line is the midpoint of the last `period` candles, the newest included. */
  lemma LineIsMidpoint(cs: seq<Candle>, k: nat, period: int)
    requires 1 <= period <= Min(|cs|, k)
    ensures var r := CalculateLine(Suffix(Highs(cs), k), Suffix(Lows(cs), k), period);
            r.Some? && r.value == Midpoint(cs, |cs| - period, |cs|)
  {
    LineDefinedIff(cs, k, period);
    HighWindow(cs, k, period);
    LowWindow(cs, k, period);
  }

  /** The lagged close the code reads from the close buffer is the close received `displacement` calls back. */
  lemma ChikouMatches(cfg: Config, cs: seq<Candle>)
    requires ValidConfig(cfg)
    ensures var closes := Suffix(Closes(cs), cfg.senkouBPeriod + 1);
            && (|closes| > cfg.displacement <==> cfg.displacement < |cs| && cfg.displacement <= cfg.senkouBPeriod)
            && (|closes| > cfg.displacement ==> closes[|closes| - 1 - cfg.displacement] == cs[|cs| - 1 - cfg.displacement].close)
  {
    SuffixIsDrop(Closes(cs), cfg.senkouBPeriod + 1);
  }

  /**
    A line is computed on call `|cs|` exactly when it is reachable (its window fits
    in the `senkouBPeriod + 1` entries a buffer holds while being read) and the
    call is at or after its first call.
   */
  lemma ComputedDefinedIff(cfg: Config, cs: seq<Candle>, line: Line)
    requires ValidConfig(cfg)
    ensures LineValue(cfg, cs, line).Some? <==> Reachable(cfg, line) && |cs| >= FirstCall(cfg, line)
  {
  }

  // ---------------------------------------------------------------------------
  // Histories

  /** Each call appends to a history exactly the value it computed for that line, if any. */
  lemma HistoryAppend(cfg: Config, cs: seq<Candle>, c: Candle, line: Line)
    requires ValidConfig(cfg)
    ensures History(cfg, cs + [c], line) == History(cfg, cs, line) + Values(LineValue(cfg, cs + [c], line))
  {
    assert (cs + [c])[..|cs|] == cs;
  }

  /** One call appends to each of the five histories the value of its line, when defined. */
  lemma HistoriesAppend(cfg: Config, cs: seq<Candle>, c: Candle)
    requires ValidConfig(cfg)
    ensures var o := Computed(cfg, cs + [c]);
            && History(cfg, cs + [c], TenkanSen) == History(cfg, cs, TenkanSen) + Values(o.tenkanSen)
            && History(cfg, cs + [c], KijunSen) == History(cfg, cs, KijunSen) + Values(o.kijunSen)
            && History(cfg, cs + [c], SenkouSpanA) == History(cfg, cs, SenkouSpanA) + Values(o.senkouSpanA)
            && History(cfg, cs + [c], SenkouSpanB) == History(cfg, cs, SenkouSpanB) + Values(o.senkouSpanB)
            && History(cfg, cs + [c], ChikouSpan) == History(cfg, cs, ChikouSpan) + Values(o.chikouSpan)
  {
    HistoryAppend(cfg, cs, c, TenkanSen);
    HistoryAppend(cfg, cs, c, KijunSen);
    HistoryAppend(cfg, cs, c, SenkouSpanA);
    HistoryAppend(cfg, cs, c, SenkouSpanB);
    HistoryAppend(cfg, cs, c, ChikouSpan);
  }

  /** Histories are append-only: an earlier history is a prefix of every later one. */
  lemma {:induction false} HistoryPrefix(cfg: Config, cs: seq<Candle>, m: nat, line: Line)
    requires ValidConfig(cfg)
    requires m <= |cs|
    ensures History(cfg, cs[..m], line) <= History(cfg, cs, line)
    decreases |cs|
  {
    if m == |cs| {
      assert cs[..m] == cs;
    } else {
      var init := cs[..|cs| - 1];
      HistoryPrefix(cfg, init, m, line);
      assert init[..m] == cs[..m];
    }
  }

  /**
    Once a line is first computed it is computed on every later call, so its
    history holds one value per call from `FirstCall` on.
   */
  lemma {:induction false} HistoryLength(cfg: Config, cs: seq<Candle>, line: Line)
    requires ValidConfig(cfg)
    ensures |History(cfg, cs, line)| ==
              if Reachable(cfg, line) && |cs| >= FirstCall(cfg, line) then |cs| - FirstCall(cfg, line) + 1 else 0
    decreases |cs|
  {
    if cs != [] {
      HistoryLength(cfg, cs[..|cs| - 1], line);
      ComputedDefinedIff(cfg, cs, line);
    }
  }

  /**
    Reading a history `d` entries back from its end yields the value the line
    computed `d` calls ago, and is defined from call `FirstCall + d` on.
   */
  lemma ReadBackAtCall(cfg: Config, cs: seq<Candle>, line: Line, d: nat)
    requires ValidConfig(cfg)
    ensures var r := ReadBack(History(cfg, cs, line), d);
            && (r.Some? <==> Reachable(cfg, line) && |cs| >= FirstCall(cfg, line) + d)
            && (r.Some? ==> r == LineValue(cfg, cs[..|cs| - d], line))
  {
    HistoryLength(cfg, cs, line);
    if Reachable(cfg, line) && |cs| >= FirstCall(cfg, line) + d {
      ReadBackValue(cfg, cs, line, d);
    }
  }

  /** Once call `FirstCall + d` is reached, the entry `d` back from the end of a history is the value computed `d` calls ago. */
  lemma {:induction false} ReadBackValue(cfg: Config, cs: seq<Candle>, line: Line, d: nat)
    requires ValidConfig(cfg) && Reachable(cfg, line) && |cs| >= FirstCall(cfg, line) + d
    ensures ReadBack(History(cfg, cs, line), d) == LineValue(cfg, cs[..|cs| - d], line)
    decreases |cs|
  {
    assert FirstCall(cfg, line) >= 1;
    var init := cs[..|cs| - 1];
    HistoryLast(cfg, cs, line);
    ReadBackPush(History(cfg, init, line), LineValue(cfg, cs, line).value, d);
    if d == 0 {
      assert cs[..|cs|] == cs;
    } else {
      PrefixOfInit(cs, d);
      ReadBackValue(cfg, init, line, d - 1);
    }
  }

  /** Once a line is computed, each call adds exactly its value to the line's history. */
  lemma HistoryLast(cfg: Config, cs: seq<Candle>, line: Line)
    requires ValidConfig(cfg) && Reachable(cfg, line) && |cs| >= FirstCall(cfg, line) && cs != []
    ensures LineValue(cfg, cs, line).Some?
    ensures History(cfg, cs, line) == History(cfg, cs[..|cs| - 1], line) + [LineValue(cfg, cs, line).value]
  {
    ComputedDefinedIff(cfg, cs, line);
  }

  /** Dropping the last element and then `d - 1` more drops `d` elements. */
  lemma PrefixOfInit<T>(s: seq<T>, d: nat)
    requires 1 <= d <= |s|
    ensures var init := s[..|s| - 1]; init[..|init| - (d - 1)] == s[..|s| - d]
  {
  }

  /** After a push, reading `d` back reads the pushed value when `d` is 0 and reads `d - 1` back in the older history otherwise. */
  lemma ReadBackPush(history: seq<real>, v: real, d: nat)
    ensures ReadBack(history + [v], d) == if d == 0 then Some(v) else ReadBack(history, d - 1)
  {
  }

  // ---------------------------------------------------------------------------
  // What each call returns

  /**
    The returned Senkou Span A is the raw Span A of `displacement` calls ago:
    defined from call `max(tenkanPeriod, kijunPeriod) + displacement` on.
   */
  lemma SenkouSpanAAtCall(cfg: Config, cs: seq<Candle>)
    requires ValidConfig(cfg)
    ensures var r := Output(cfg, cs).senkouSpanA;
            && (r.Some? <==>
                  cfg.tenkanPeriod <= cfg.senkouBPeriod + 1 && cfg.kijunPeriod <= cfg.senkouBPeriod + 1 &&
                  |cs| >= Max(cfg.tenkanPeriod, cfg.kijunPeriod) + cfg.displacement)
            && (r.Some? ==>
                  var past := |cs| - cfg.displacement;
                  r.value == (Midpoint(cs, past - cfg.tenkanPeriod, past) + Midpoint(cs, past - cfg.kijunPeriod, past)) / 2.0)
  {
    ReadBackAtCall(cfg, cs, SenkouSpanA, cfg.displacement);
    var r := Output(cfg, cs).senkouSpanA;
    assert Reachable(cfg, SenkouSpanA) <==>
             cfg.tenkanPeriod <= cfg.senkouBPeriod + 1 && cfg.kijunPeriod <= cfg.senkouBPeriod + 1;
    assert FirstCall(cfg, SenkouSpanA) == Max(cfg.tenkanPeriod, cfg.kijunPeriod);
    if r.Some? {
      var past := |cs| - cfg.displacement;
      LineAtPast(cfg, cs, cfg.tenkanPeriod, past);
      LineAtPast(cfg, cs, cfg.kijunPeriod, past);
    }
  }

  /** The returned Senkou Span B is the raw Span B of `displacement` calls ago: defined from call `senkouBPeriod + displacement` on. */
  lemma SenkouSpanBAtCall(cfg: Config, cs: seq<Candle>)
    requires ValidConfig(cfg)
    ensures var r := Output(cfg, cs).senkouSpanB;
            && (r.Some? <==> |cs| >= cfg.senkouBPeriod + cfg.displacement)
            && (r.Some? ==>
                  var past := |cs| - cfg.displacement;
                  r.value == Midpoint(cs, past - cfg.senkouBPeriod, past))
  {
    ReadBackAtCall(cfg, cs, SenkouSpanB, cfg.displacement);
    var r := Output(cfg, cs).senkouSpanB;
    assert Reachable(cfg, SenkouSpanB) && FirstCall(cfg, SenkouSpanB) == cfg.senkouBPeriod;
    if r.Some? {
      var past := |cs| - cfg.displacement;
      LineAtPast(cfg, cs, cfg.senkouBPeriod, past);
    }
  }

  // ---------------------------------------------------------------------------
  // A worked scenario

  /**
    Default settings, candle i (from 1) with high = low = close = i: Tenkan-sen
    on call n >= 9 is n - 4 (highest high n, lowest low n - 8), not n, and
    Chikou Span on call n >= 27 is the close of candle n - 26.
   */
  lemma RisingSeries(cs: seq<Candle>)
    requires forall i :: 0 <= i < |cs| ==> cs[i] == Candle((i + 1) as real, (i + 1) as real, (i + 1) as real)
    ensures var cfg := Configure(IchimokuInput(None, None, None, None));
            && ValidConfig(cfg)
            && (Output(cfg, cs).tenkanSen.Some? <==> |cs| >= 9)
            && (|cs| >= 9 ==> Output(cfg, cs).tenkanSen == Some((|cs| - 4) as real))
            && (|cs| >= 27 ==> Output(cfg, cs).chikouSpan == Some((|cs| - 26) as real))
  {
    var cfg := Configure(IchimokuInput(None, None, None, None));
    assert cfg == Config(9, 26, 52, 26);
    if |cs| >= 9 {
      RisingExtremes(cs, |cs| - 9, |cs|);
    }
  }

  /** On the rising series the candles `cs[lo..hi]` span the prices `lo + 1 .. hi`. */
  lemma {:induction false} RisingExtremes(cs: seq<Candle>, lo: int, hi: int)
    requires 0 <= lo < hi <= |cs|
    requires forall i :: 0 <= i < |cs| ==> cs[i] == Candle((i + 1) as real, (i + 1) as real, (i + 1) as real)
    ensures HighestHigh(cs, lo, hi) == hi as real
    ensures LowestLow(cs, lo, hi) == (lo + 1) as real
    decreases hi - lo
  {
    if hi - lo > 1 {
      RisingExtremes(cs, lo, hi - 1);
    }
  }
}
