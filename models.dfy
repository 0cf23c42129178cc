/** The records and enumerations shared by the pipeline (backend/data/models.py).
    Pydantic's `ge=0, le=100` bounds become the subset type `Percent`, so a
    record that violates them cannot be built at all. */
module Models {
  import opened Wrappers

  /** An integer percentage in [0, 100]. */
  type Percent = x: int | 0 <= x <= 100

  /** The seven-point trading signal scale. */
  datatype SignalType = StrongBuy | Buy | WeakBuy | Hold | WeakSell | Sell | StrongSell

  /** The four trading horizons. */
  datatype Timeframe = Scalp | Day | Swing | Position

  /** Every signal type, from most bullish to most bearish. */
  const AllSignalTypes: seq<SignalType> :=
    [StrongBuy, Buy, WeakBuy, Hold, WeakSell, Sell, StrongSell]

  const AllTimeframes: seq<Timeframe> := [Scalp, Day, Swing, Position]

  /** The enum's string value. */
  function SignalTypeName(t: SignalType): string {
    match t
    case StrongBuy => "STRONG_BUY"
    case Buy => "BUY"
    case WeakBuy => "WEAK_BUY"
    case Hold => "HOLD"
    case WeakSell => "WEAK_SELL"
    case Sell => "SELL"
    case StrongSell => "STRONG_SELL"
  }

  /** `SignalType(s)`: the member whose value is `s`; None where Python raises ValueError. */
  function ParseSignalType(s: string): (r: Option<SignalType>)
    ensures r.Some? ==> SignalTypeName(r.value) == s
    ensures r.None? ==> forall t :: SignalTypeName(t) != s
  {
    if s == "STRONG_BUY" then Some(StrongBuy)
    else if s == "BUY" then Some(Buy)
    else if s == "WEAK_BUY" then Some(WeakBuy)
    else if s == "HOLD" then Some(Hold)
    else if s == "WEAK_SELL" then Some(WeakSell)
    else if s == "SELL" then Some(Sell)
    else if s == "STRONG_SELL" then Some(StrongSell)
    else None
  }

  function TimeframeName(t: Timeframe): string {
    match t
    case Scalp => "SCALP"
    case Day => "DAY"
    case Swing => "SWING"
    case Position => "POSITION"
  }

  /** `Timeframe(s)`: None where Python raises ValueError. */
  function ParseTimeframe(s: string): (r: Option<Timeframe>)
    ensures r.Some? ==> TimeframeName(r.value) == s
    ensures r.None? ==> forall t :: TimeframeName(t) != s
  {
    if s == "SCALP" then Some(Scalp)
    else if s == "DAY" then Some(Day)
    else if s == "SWING" then Some(Swing)
    else if s == "POSITION" then Some(Position)
    else None
  }

  /** SignalType has exactly seven members, each listed once, and parsing
      a member's value gives the member back. */
  lemma SignalTypeEnumeration()
    ensures |AllSignalTypes| == 7
    ensures forall t: SignalType :: t in AllSignalTypes
    ensures forall i, j :: 0 <= i < j < |AllSignalTypes| ==> AllSignalTypes[i] != AllSignalTypes[j]
    ensures forall t: SignalType :: ParseSignalType(SignalTypeName(t)) == Some(t)
  {
    forall t: SignalType ensures t in AllSignalTypes {
      match t
      case StrongBuy => assert AllSignalTypes[0] == t;
      case Buy => assert AllSignalTypes[1] == t;
      case WeakBuy => assert AllSignalTypes[2] == t;
      case Hold => assert AllSignalTypes[3] == t;
      case WeakSell => assert AllSignalTypes[4] == t;
      case Sell => assert AllSignalTypes[5] == t;
      case StrongSell => assert AllSignalTypes[6] == t;
    }
  }

  /** Timeframe has exactly four members, each listed once, and parsing
      a member's value gives the member back. */
  lemma TimeframeEnumeration()
    ensures |AllTimeframes| == 4
    ensures forall t: Timeframe :: t in AllTimeframes
    ensures forall i, j :: 0 <= i < j < |AllTimeframes| ==> AllTimeframes[i] != AllTimeframes[j]
    ensures forall t: Timeframe :: ParseTimeframe(TimeframeName(t)) == Some(t)
  {
    forall t: Timeframe ensures t in AllTimeframes {
      match t
      case Scalp => assert AllTimeframes[0] == t;
      case Day => assert AllTimeframes[1] == t;
      case Swing => assert AllTimeframes[2] == t;
      case Position => assert AllTimeframes[3] == t;
    }
  }

  /** Technical indicators as the signal generator receives them: RSI, MACD
      and the three bands are required, the EMAs and volume ratio optional. */
  datatype TechnicalIndicators = TechnicalIndicators(
    rsi: real,
    macd: real,
    macdSignal: real,
    macdHistogram: real,
    bbUpper: real,
    bbMiddle: real,
    bbLower: real,
    ema20: Option<real>,
    ema50: Option<real>,
    ema200: Option<real>,
    volumeRatio: Option<real>)

  /** Macroeconomic context; every field is optional and the fear/greed
      index, when present, is a percentage. */
  datatype MacroContext = MacroContext(
    dxy: Option<real>,
    dxyTrend: Option<string>,
    vix: Option<real>,
    fedFundsRate: Option<real>,
    fearGreedIndex: Option<Percent>,
    marketPhase: Option<string>)

  /** Current price data (the creation timestamp is not modelled). */
  datatype CoinPrice = CoinPrice(
    symbol: string,
    price: real,
    change24h: real,
    change7d: Option<real>,
    volume24h: real,
    marketCap: Option<real>,
    high24h: real,
    low24h: real)

  /** The sentiment provider's analysis; its confidence is a percentage. */
  datatype AIAnalysis = AIAnalysis(
    coin: string,
    rating: SignalType,
    confidence: Percent,
    timeframe: Timeframe,
    entryZoneLow: Option<real>,
    entryZoneHigh: Option<real>,
    targetConservative: Option<real>,
    targetAggressive: Option<real>,
    stopLoss: Option<real>,
    riskRewardRatio: Option<real>,
    reasoning: string,
    keyFactors: seq<string>,
    risks: seq<string>,
    positionSizePct: Option<real>)

  /** The entry zone of a signal. The source renders it as a string with
      ",.0f" number formatting; the model keeps the numbers. */
  datatype EntryZone =
    | Range(low: real, high: real)      // "$low-$high"
    | AtCurrentPrice(price: real)       // "Current price ($price)"
    | WaitForSetup                      // "Wait for better setup"

  /** The fused signal. Overall score, confidence and technical score are
      percentages, and so is every layer score that is present. */
  datatype MultiLayerSignal = MultiLayerSignal(
    coin: string,
    signal: SignalType,
    overallScore: Percent,
    confidence: Percent,
    technicalScore: Percent,
    onChainScore: Option<Percent>,
    macroScore: Option<Percent>,
    sentimentScore: Option<Percent>,
    action: string,
    entryZone: Option<EntryZone>,
    targets: seq<real>,
    stopLoss: Option<real>,
    positionSizePct: Option<real>,
    timeframe: string)

  const DefaultSignalTimeframe: string := "7-14 days"

  /** A MultiLayerSignal built from its required fields only: every optional
      field takes its declared default. */
  function NewSignal(coin: string, signal: SignalType, overallScore: Percent, confidence: Percent,
                     technicalScore: Percent, action: string): (r: MultiLayerSignal)
    ensures r.coin == coin && r.signal == signal && r.action == action
    ensures r.overallScore == overallScore && r.confidence == confidence
    ensures r.technicalScore == technicalScore
    ensures r.onChainScore.None? && r.macroScore.None? && r.sentimentScore.None?
    ensures r.entryZone.None? && r.targets == [] && r.stopLoss.None? && r.positionSizePct.None?
    ensures r.timeframe == "7-14 days"
  {
    MultiLayerSignal(coin, signal, overallScore, confidence, technicalScore,
                     None, None, None, action, None, [], None, None, DefaultSignalTimeframe)
  }
}
