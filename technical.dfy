/** The indicator engine (backend/indicators/technical.py): history guards,
    the volume ratio, the label rules and the clamped 0-100 technical score.
    The pandas numerics (rolling means, `ewm`, rolling `std`) are not
    modelled; they arrive as the function-valued fields of `Kernels`, each
    returning None where the source's `try` block would catch an exception. */
module Technical {
  import opened Wrappers

  // ---------------------------------------------------------------------
  // Inputs and kernels

  /** One OHLCV bar; only the close and the volume are read. */
  datatype Candle = Candle(close: real, volume: real)

  /** The last MACD line value and the last signal line value. */
  datatype MacdLines = MacdLines(macd: real, signal: real)

  /** The last rolling mean and rolling standard deviation of a window. */
  datatype Rolling = Rolling(mean: real, std: real)

  datatype Kernels = Kernels(
    rsi: (seq<real>, nat) -> Option<real>,                // average gain / average loss RSI
    macd: (seq<real>, nat, nat, nat) -> Option<MacdLines>, // ewm(fast) - ewm(slow), ewm of that
    rolling: (seq<real>, nat) -> Option<Rolling>,         // rolling(period).mean() and .std()
    ema: (seq<real>, nat) -> Option<real>)                // ewm(span, adjust=False).mean()

  datatype Macd = Macd(macd: real, signal: real, histogram: real)

  datatype Bands = Bands(upper: real, middle: real, lower: real)

  const RsiPeriod: nat := 14
  const MacdFast: nat := 12
  const MacdSlow: nat := 26
  const MacdSignalPeriod: nat := 9
  const BandPeriod: nat := 20
  const BandStdDev: real := 2.0
  const VolumePeriod: nat := 20
  const MinCandles: nat := 50

  // ---------------------------------------------------------------------
  // Indicators with their minimum-history guards

  /** RSI: unavailable with fewer than period+1 prices. */
  function CalculateRsi(k: Kernels, prices: seq<real>, period: nat): (r: Option<real>)
    ensures |prices| < period + 1 ==> r == None
    ensures |prices| >= period + 1 ==> r == k.rsi(prices, period)
  {
    if |prices| < period + 1 then None else k.rsi(prices, period)
  }

  /** MACD: unavailable with fewer than slow+signal prices. The histogram
      is the MACD line minus the signal line. */
  function CalculateMacd(k: Kernels, prices: seq<real>, fast: nat, slow: nat, signal: nat): (r: Option<Macd>)
    ensures |prices| < slow + signal ==> r == None
    ensures r.Some? ==> r.value.histogram == r.value.macd - r.value.signal
    ensures |prices| >= slow + signal ==>
              (r.Some? <==> k.macd(prices, fast, slow, signal).Some?)
  {
    if |prices| < slow + signal then None
    else match k.macd(prices, fast, slow, signal)
      case None => None
      case Some(l) => Some(Macd(l.macd, l.signal, l.macd - l.signal))
  }

  /** Bollinger bands: unavailable with fewer than `period` prices;
      otherwise the middle band is the rolling mean and the outer bands sit
      `stdDev` standard deviations above and below it. */
  function CalculateBollingerBands(k: Kernels, prices: seq<real>, period: nat, stdDev: real): (r: Option<Bands>)
    ensures |prices| < period ==> r == None
    ensures |prices| >= period ==> (r.Some? <==> k.rolling(prices, period).Some?)
    ensures r.Some? ==> r.value.middle == k.rolling(prices, period).value.mean
  {
    if |prices| < period then None
    else match k.rolling(prices, period)
      case None => None
      case Some(w) => Some(Bands(w.mean + w.std * stdDev, w.mean, w.mean - w.std * stdDev))
  }

  /** The bands are symmetric about the middle band, at stdDev standard
      deviations; with a non-negative deviation and multiplier they are ordered. */
  lemma BandsSymmetric(k: Kernels, prices: seq<real>, period: nat, stdDev: real)
    requires CalculateBollingerBands(k, prices, period, stdDev).Some?
    ensures var b := CalculateBollingerBands(k, prices, period, stdDev).value;
            var sd := k.rolling(prices, period).value.std;
            b.upper - b.middle == b.middle - b.lower == sd * stdDev
            && (sd >= 0.0 && stdDev >= 0.0 ==> b.lower <= b.middle <= b.upper)
  {
  }

  /** EMA: unavailable with fewer than `period` prices. */
  function CalculateEma(k: Kernels, prices: seq<real>, period: nat): (r: Option<real>)
    ensures |prices| < period ==> r == None
    ensures |prices| >= period ==> r == k.ema(prices, period)
  {
    if |prices| < period then None else k.ema(prices, period)
  }

  function Sum(xs: seq<real>): real {
    if xs == [] then 0.0 else Sum(xs[..|xs| - 1]) + xs[|xs| - 1]
  }

  /** The mean of the `period` volumes immediately before the last one. */
  function PrecedingMean(volumes: seq<real>, period: nat): real
    requires period > 0 && |volumes| >= period + 1
  {
    Sum(volumes[|volumes| - 1 - period..|volumes| - 1]) / period as real
  }

  /** Volume ratio: the last volume over the mean of the `period` volumes
      before it (the last bar excluded); unavailable with fewer than
      period+1 volumes or when that mean is zero. */
  function CalculateVolumeRatio(volumes: seq<real>, period: nat): (r: Option<real>)
    requires period > 0
    ensures |volumes| < period + 1 ==> r == None
    ensures |volumes| >= period + 1 ==>
              (r.None? <==> PrecedingMean(volumes, period) == 0.0)
    ensures r.Some? ==> r.value * PrecedingMean(volumes, period) == volumes[|volumes| - 1]
  {
    if |volumes| < period + 1 then None
    else
      var avg := PrecedingMean(volumes, period);
      if avg == 0.0 then None else Some(volumes[|volumes| - 1] / avg)
  }

  function Scale(c: real, xs: seq<real>): (r: seq<real>)
    ensures |r| == |xs|
    ensures forall i :: 0 <= i < |xs| ==> r[i] == c * xs[i]
  {
    seq(|xs|, i requires 0 <= i < |xs| => c * xs[i])
  }

  lemma {:induction false} SumScale(c: real, xs: seq<real>)
    ensures Sum(Scale(c, xs)) == c * Sum(xs)
  {
    if xs != [] {
      var init := xs[..|xs| - 1];
      assert forall i | 0 <= i < |init| :: Scale(c, xs)[..|xs| - 1][i] == Scale(c, init)[i];
      assert Scale(c, xs)[..|xs| - 1] == Scale(c, init);
      SumScale(c, xs[..|xs| - 1]);
    }
  }

  lemma ScaledQuotient(c: real, x: real, y: real)
    requires c != 0.0 && y != 0.0
    ensures c * y != 0.0
    ensures (c * x) / (c * y) == x / y
  {
    var q := x / y;
    assert q * y == x;
    assert q * (c * y) == c * x;
  }

  lemma ScaledMean(c: real, s: real, p: real)
    requires p != 0.0
    ensures (c * s) / p == c * (s / p)
  {
    var q := s / p;
    assert q * p == s;
    assert (c * q) * p == c * s;
  }

  /** Scaling commutes with taking a slice. */
  lemma ScaleSlice(c: real, xs: seq<real>, lo: nat, hi: nat)
    requires lo <= hi <= |xs|
    ensures Scale(c, xs)[lo..hi] == Scale(c, xs[lo..hi])
  {
    var y := Scale(c, xs)[lo..hi];
    forall i | 0 <= i < hi - lo
      ensures y[i] == Scale(c, xs[lo..hi])[i]
    {
      assert y[i] == Scale(c, xs)[lo + i];
      assert xs[lo..hi][i] == xs[lo + i];
    }
  }

  /** Scaling every volume scales the sum of the preceding window. */
  lemma WindowSumScale(volumes: seq<real>, period: nat, c: real)
    requires |volumes| >= period + 1
    ensures var n := |volumes|;
      Sum(Scale(c, volumes)[n - 1 - period..n - 1]) == c * Sum(volumes[n - 1 - period..n - 1])
  {
    var n := |volumes|;
    var w := volumes[n - 1 - period..n - 1];
    ScaleSlice(c, volumes, n - 1 - period, n - 1);
    var y := Scale(c, volumes)[n - 1 - period..n - 1];
    assert y == Scale(c, w);
    SumScale(c, w);
    assert Sum(y) == c * Sum(w);
  }

  /** Scaling every volume scales the preceding mean by the same factor. */
  lemma PrecedingMeanScale(volumes: seq<real>, period: nat, c: real)
    requires period > 0 && |volumes| >= period + 1
    ensures PrecedingMean(Scale(c, volumes), period) == c * PrecedingMean(volumes, period)
  {
    var n := |volumes|;
    var sw := Sum(volumes[n - 1 - period..n - 1]);
    var ts := Sum(Scale(c, volumes)[n - 1 - period..n - 1]);
    WindowSumScale(volumes, period, c);
    assert ts == c * sw;
    ScaledMean(c, sw, period as real);
    assert PrecedingMean(Scale(c, volumes), period) == ts / period as real;
    assert PrecedingMean(volumes, period) == sw / period as real;
  }

  /** The volume ratio does not depend on the unit volumes are counted in:
      scaling every volume by a positive factor leaves it unchanged. */
  lemma VolumeRatioScaleInvariant(volumes: seq<real>, period: nat, c: real)
    requires period > 0 && c > 0.0
    ensures CalculateVolumeRatio(Scale(c, volumes), period) == CalculateVolumeRatio(volumes, period)
  {
    if |volumes| >= period + 1 {
      var n := |volumes|;
      PrecedingMeanScale(volumes, period, c);
      var m := PrecedingMean(volumes, period);
      var sv := Scale(c, volumes);
      assert PrecedingMean(sv, period) == c * m;
      if m != 0.0 {
        ScaledQuotient(c, volumes[n - 1], m);
        assert sv[n - 1] == c * volumes[n - 1];
        assert CalculateVolumeRatio(sv, period) == Some((c * volumes[n - 1]) / (c * m));
        assert CalculateVolumeRatio(volumes, period) == Some(volumes[n - 1] / m);
        assert (c * volumes[n - 1]) / (c * m) == volumes[n - 1] / m;
        assert CalculateVolumeRatio(sv, period) == CalculateVolumeRatio(volumes, period);
      } else {
        assert c * m == 0.0;
      }
    }
  }

  // ---------------------------------------------------------------------
  // Labels

  /** The trend label; `UnknownTrend` is the source's "UNKNOWN". */
  datatype Trend = StrongUptrend | Uptrend | Sideways | Downtrend | StrongDowntrend | UnknownTrend

  /** The string labels of the RSI, MACD and band signals. */
  datatype Label = Oversold | Overbought | Bearish | Bullish | Neutral | Squeeze

  /** Trend from the three EMAs relative to `price`; all three must be
      truthy. The rules, case by case: UNKNOWN without the three EMAs, then
      strong or plain up- or downtrend by the side of the 200-EMA the price
      is on and whether the EMAs are stacked in that direction, SIDEWAYS on
      the 200-EMA. */
  function TrendLabel(price: real, ema20: Option<real>, ema50: Option<real>, ema200: Option<real>): (t: Trend)
    ensures t == UnknownTrend <==> !(Truthy(ema20) && Truthy(ema50) && Truthy(ema200))
    ensures t == StrongUptrend <==> t != UnknownTrend && price > ema200.value
                                    && ema20.value > ema50.value > ema200.value
    ensures t == Uptrend <==> t != UnknownTrend && price > ema200.value
                              && !(ema20.value > ema50.value > ema200.value)
    ensures t == StrongDowntrend <==> t != UnknownTrend && price < ema200.value
                                      && ema20.value < ema50.value < ema200.value
    ensures t == Downtrend <==> t != UnknownTrend && price < ema200.value
                                && !(ema20.value < ema50.value < ema200.value)
    ensures t == Sideways <==> t != UnknownTrend && price == ema200.value
  {
    if !(Truthy(ema20) && Truthy(ema50) && Truthy(ema200)) then UnknownTrend
    else
      var e20, e50, e200 := ema20.value, ema50.value, ema200.value;
      if price > e200 then (if e20 > e50 && e50 > e200 then StrongUptrend else Uptrend)
      else if price < e200 then (if e20 < e50 && e50 < e200 then StrongDowntrend else Downtrend)
      else Sideways
  }

  /** RSI label: checked in the order <30, >70, <40, >60; a missing or zero
      RSI is NEUTRAL. */
  function RsiLabel(rsi: Option<real>): (l: Label)
    ensures l in {Oversold, Overbought, Bearish, Bullish, Neutral}
    ensures !Truthy(rsi) ==> l == Neutral
  {
    if !Truthy(rsi) then Neutral
    else if rsi.value < 30.0 then Oversold
    else if rsi.value > 70.0 then Overbought
    else if rsi.value < 40.0 then Bearish
    else if rsi.value > 60.0 then Bullish
    else Neutral
  }

  /** Each RSI label holds exactly on its band of values. */
  lemma RsiLabelBands(rsi: real)
    requires rsi != 0.0
    ensures RsiLabel(Some(rsi)) == Oversold <==> rsi < 30.0
    ensures RsiLabel(Some(rsi)) == Bearish <==> 30.0 <= rsi < 40.0
    ensures RsiLabel(Some(rsi)) == Neutral <==> 40.0 <= rsi <= 60.0
    ensures RsiLabel(Some(rsi)) == Bullish <==> 60.0 < rsi <= 70.0
    ensures RsiLabel(Some(rsi)) == Overbought <==> rsi > 70.0
  {
  }

  /** MACD label: BULLISH needs a positive histogram and MACD above signal,
      BEARISH a non-positive histogram and MACD below signal. */
  function MacdLabel(m: Option<Macd>): (l: Label)
    ensures l in {Bullish, Bearish, Neutral}
    ensures l == Bullish <==> m.Some? && m.value.histogram > 0.0 && m.value.macd > m.value.signal
    ensures l == Bearish <==> m.Some? && m.value.histogram <= 0.0 && m.value.macd < m.value.signal
  {
    if m.None? then Neutral
    else if m.value.histogram > 0.0 then (if m.value.macd > m.value.signal then Bullish else Neutral)
    else if m.value.macd < m.value.signal then Bearish
    else Neutral
  }

  /** Because the histogram is MACD minus signal, the MACD label depends
      only on how the two lines compare. */
  lemma MacdLabelByLines(k: Kernels, prices: seq<real>)
    requires CalculateMacd(k, prices, MacdFast, MacdSlow, MacdSignalPeriod).Some?
    ensures var m := CalculateMacd(k, prices, MacdFast, MacdSlow, MacdSignalPeriod).value;
            var l := MacdLabel(Some(m));
            (l == Bullish <==> m.macd > m.signal) && (l == Bearish <==> m.macd < m.signal)
            && (l == Neutral <==> m.macd == m.signal)
  {
  }

  /** Band width as a percentage of the middle band. */
  function BandWidth(b: Bands): real
    requires b.middle != 0.0
  {
    (b.upper - b.lower) / b.middle * 100.0
  }

  /** Band label: OVERSOLD below the lower band, OVERBOUGHT above the upper,
      SQUEEZE inside bands narrower than 10% of the middle, else NEUTRAL. */
  function BandLabel(price: real, b: Option<Bands>): (l: Label)
    requires b.Some? ==> b.value.middle != 0.0
    ensures l in {Oversold, Overbought, Squeeze, Neutral}
    ensures b.None? ==> l == Neutral
    ensures b.Some? ==>
      && (l == Oversold <==> price < b.value.lower)
      && (l == Overbought <==> b.value.lower <= price && price > b.value.upper)
      && (l == Squeeze <==> b.value.lower <= price <= b.value.upper && BandWidth(b.value) < 10.0)
  {
    if b.None? then Neutral
    else if price < b.value.lower then Oversold
    else if price > b.value.upper then Overbought
    else if BandWidth(b.value) < 10.0 then Squeeze
    else Neutral
  }

  // ---------------------------------------------------------------------
  // analyze_candles

  /** The dictionary `analyze_candles` returns when it does not return {}. */
  datatype Analysis = Analysis(
    rsi: Option<real>,
    rsiSignal: Label,
    macd: Option<Macd>,
    macdSignal: Label,
    bands: Option<Bands>,
    bbSignal: Label,
    ema20: Option<real>,
    ema50: Option<real>,
    ema200: Option<real>,
    trend: Trend,
    volumeRatio: Option<real>,
    currentPrice: real)

  function Closes(candles: seq<Candle>): (r: seq<real>)
    ensures |r| == |candles| && forall i :: 0 <= i < |r| ==> r[i] == candles[i].close
  {
    seq(|candles|, i requires 0 <= i < |candles| => candles[i].close)
  }

  function Volumes(candles: seq<Candle>): (r: seq<real>)
    ensures |r| == |candles| && forall i :: 0 <= i < |r| ==> r[i] == candles[i].volume
  {
    seq(|candles|, i requires 0 <= i < |candles| => candles[i].volume)
  }

  /** `analyze_candles`: None stands for the empty dictionary, returned with
      fewer than 50 candles and when a zero middle band makes the band width
      division raise. */
  function AnalyzeCandles(k: Kernels, candles: seq<Candle>): (r: Option<Analysis>)
    ensures |candles| < MinCandles ==> r == None
    ensures r.Some? ==> r.value.currentPrice == candles[|candles| - 1].close
    ensures r.Some? ==> r.value.bands.Some? ==> r.value.bands.value.middle != 0.0
    ensures r.Some? ==> var a := r.value; var closes := Closes(candles);
      && a.macd == CalculateMacd(k, closes, MacdFast, MacdSlow, MacdSignalPeriod)
      && a.bands == CalculateBollingerBands(k, closes, BandPeriod, BandStdDev)
      && a.ema200 == CalculateEma(k, closes, 200)
    ensures r.Some? ==> var a := r.value;
      && a.rsiSignal == RsiLabel(a.rsi)
      && a.macdSignal == MacdLabel(a.macd)
      && a.bbSignal == BandLabel(a.currentPrice, a.bands)
      && a.trend == TrendLabel(a.currentPrice, a.ema20, a.ema50, a.ema200)
  {
    if |candles| < MinCandles then None
    else
      var closes := Closes(candles);
      var volumes := Volumes(candles);
      var rsi := CalculateRsi(k, closes, RsiPeriod);
      var macd := CalculateMacd(k, closes, MacdFast, MacdSlow, MacdSignalPeriod);
      var bands := CalculateBollingerBands(k, closes, BandPeriod, BandStdDev);
      var ema20 := CalculateEma(k, closes, 20);
      var ema50 := CalculateEma(k, closes, 50);
      var ema200 := CalculateEma(k, closes, 200);
      var volumeRatio := CalculateVolumeRatio(volumes, VolumePeriod);
      var price := closes[|closes| - 1];
      if bands.Some? && bands.value.middle == 0.0 then None
      else Some(Analysis(rsi, RsiLabel(rsi), macd, MacdLabel(macd), bands, BandLabel(price, bands),
                         ema20, ema50, ema200, TrendLabel(price, ema20, ema50, ema200),
                         volumeRatio, price))
  }

  /** With at least 50 candles every guard but the 200-period EMA's passes,
      so RSI, MACD, bands, the 20/50 EMAs and the volume ratio are exactly
      what the kernels give; and below 200 candles the 200-period EMA is
      missing, so the trend is always UNKNOWN. */
  lemma AnalyzeCandlesGuards(k: Kernels, candles: seq<Candle>)
    requires |candles| >= MinCandles
    requires AnalyzeCandles(k, candles).Some?
    ensures var a := AnalyzeCandles(k, candles).value;
            var closes := Closes(candles);
            && a.rsi == k.rsi(closes, RsiPeriod)
            && (a.macd.Some? <==> k.macd(closes, MacdFast, MacdSlow, MacdSignalPeriod).Some?)
            && (a.bands.Some? <==> k.rolling(closes, BandPeriod).Some?)
            && a.ema20 == k.ema(closes, 20) && a.ema50 == k.ema(closes, 50)
            && (|candles| < 200 ==> a.ema200 == None && a.trend == UnknownTrend)
            && a.volumeRatio == CalculateVolumeRatio(Volumes(candles), VolumePeriod)
  {
  }

  /** The analysis is empty exactly when there are too few candles or the
      middle band is zero. */
  lemma AnalyzeCandlesEmpty(k: Kernels, candles: seq<Candle>)
    ensures AnalyzeCandles(k, candles).None? <==>
              |candles| < MinCandles
              || (var b := CalculateBollingerBands(k, Closes(candles), BandPeriod, BandStdDev);
                  b.Some? && b.value.middle == 0.0)
  {
  }

  // ---------------------------------------------------------------------
  // calculate_technical_score

  /** The keys `calculate_technical_score` reads. A missing "macd_signal" or
      "bb_signal" is NEUTRAL, a missing "trend" UNKNOWN; any other string
      label adds nothing and behaves like those defaults. */
  datatype ScoreInput = ScoreInput(
    rsi: Option<real>,
    macdSignal: Label,
    trend: Trend,
    bbSignal: Label,
    volumeRatio: Option<real>)

  function RsiPoints(rsi: Option<real>): int {
    if !Truthy(rsi) then 0
    else if rsi.value < 30.0 then 20
    else if rsi.value < 40.0 then 10
    else if rsi.value > 70.0 then -20
    else if rsi.value > 60.0 then -10
    else 0
  }

  function MacdPoints(l: Label): int {
    if l == Bullish then 20 else if l == Bearish then -20 else 0
  }

  function TrendPoints(t: Trend): int {
    match t
    case StrongUptrend => 30
    case Uptrend => 15
    case StrongDowntrend => -30
    case Downtrend => -15
    case _ => 0
  }

  function BandPoints(l: Label): int {
    if l == Oversold then 15 else if l == Overbought then -15 else if l == Squeeze then 5 else 0
  }

  /** The volume adjustment applied to the running score `running`. */
  function VolumePoints(volumeRatio: Option<real>, running: int): (p: int)
    ensures !Truthy(volumeRatio) ==> p == 0
    ensures Truthy(volumeRatio) && volumeRatio.value > 1.5 ==> p == (if running > 50 then 15 else -15)
    ensures Truthy(volumeRatio) && volumeRatio.value < 0.5 ==> p == (if running > 50 then -5 else 5)
    ensures Truthy(volumeRatio) && 0.5 <= volumeRatio.value <= 1.5 ==> p == 0
  {
    if !Truthy(volumeRatio) then 0
    else if volumeRatio.value > 1.5 then (if running > 50 then 15 else -15)
    else if volumeRatio.value < 0.5 then (if running > 50 then -5 else 5)
    else 0
  }

  /** The score before the volume adjustment. */
  function ScoreBeforeVolume(i: ScoreInput): int {
    50 + RsiPoints(i.rsi) + MacdPoints(i.macdSignal) + TrendPoints(i.trend) + BandPoints(i.bbSignal)
  }

  /** The unclamped score. */
  function RawScore(i: ScoreInput): int {
    var s := ScoreBeforeVolume(i);
    s + VolumePoints(i.volumeRatio, s)
  }

  function Clamp(x: int): (r: int)
    ensures 0 <= r <= 100
    ensures 0 <= x <= 100 ==> r == x
    ensures x < 0 ==> r == 0
    ensures x > 100 ==> r == 100
  {
    if x < 0 then 0 else if x > 100 then 100 else x
  }

  /** `calculate_technical_score`: always a value in [0, 100]. */
  function TechnicalScore(i: ScoreInput): (r: int)
    ensures 0 <= r <= 100
  {
    Clamp(RawScore(i))
  }

  /** The raw sum ranges over [-50, 150], and both ends are reached, so
      the final clamp does take effect. */
  lemma RawScoreRange(i: ScoreInput)
    ensures -50 <= RawScore(i) <= 150
    ensures RawScore(ScoreInput(Some(20.0), Bullish, StrongUptrend, Oversold, Some(2.0))) == 150
    ensures RawScore(ScoreInput(Some(80.0), Bearish, StrongDowntrend, Overbought, Some(2.0))) == -50
    ensures TechnicalScore(ScoreInput(Some(20.0), Bullish, StrongUptrend, Oversold, Some(2.0))) == 100
    ensures TechnicalScore(ScoreInput(Some(80.0), Bearish, StrongDowntrend, Overbought, Some(2.0))) == 0
  {
  }

  /** With every field absent or zero and every label neutral, the score
      is exactly the neutral 50. */
  lemma NeutralScore(i: ScoreInput)
    requires !Truthy(i.rsi) && !Truthy(i.volumeRatio)
    requires i.macdSignal !in {Bullish, Bearish}
    requires i.trend !in {StrongUptrend, Uptrend, StrongDowntrend, Downtrend}
    requires i.bbSignal !in {Oversold, Overbought, Squeeze}
    ensures TechnicalScore(i) == 50
  {
  }

  /** High volume pushes the score further from neutral in the direction it
      already leans (down at exactly 50); low volume pulls it back. */
  lemma VolumeAmplifies(i: ScoreInput)
    requires Truthy(i.volumeRatio)
    ensures var s := ScoreBeforeVolume(i);
      && (i.volumeRatio.value > 1.5 && s > 50 ==> RawScore(i) == s + 15)
      && (i.volumeRatio.value > 1.5 && s <= 50 ==> RawScore(i) == s - 15)
      && (i.volumeRatio.value < 0.5 && s > 50 ==> RawScore(i) == s - 5)
      && (i.volumeRatio.value < 0.5 && s <= 50 ==> RawScore(i) == s + 5)
      && (0.5 <= i.volumeRatio.value <= 1.5 ==> RawScore(i) == s)
  {
  }

  /** The score input built from an analysis, as the source's dictionary keys
      would give it. */
  function ScoreInputOf(a: Analysis): ScoreInput {
    ScoreInput(a.rsi, a.macdSignal, a.trend, a.bbSignal, a.volumeRatio)
  }

  /** Scoring the analysis of fewer than 200 candles: the score reads the
      RSI, MACD and band labels of the analysis, while the trend, always
      UNKNOWN without the 200-period EMA, adds nothing. */
  lemma ShortHistoryScore(k: Kernels, candles: seq<Candle>)
    requires MinCandles <= |candles| < 200
    requires AnalyzeCandles(k, candles).Some?
    ensures var a := AnalyzeCandles(k, candles).value;
      var s := 50 + RsiPoints(a.rsi) + MacdPoints(MacdLabel(a.macd))
               + BandPoints(BandLabel(a.currentPrice, a.bands));
      TechnicalScore(ScoreInputOf(a)) == Clamp(s + VolumePoints(a.volumeRatio, s))
  {
    AnalyzeCandlesGuards(k, candles);
  }
}
