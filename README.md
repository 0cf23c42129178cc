# mein-dashboard signal pipeline, in Dafny

This project models the deterministic core of the mein-dashboard crypto
dashboard backend and proves properties of that model.

- **Technical layer.** It turns candles into indicator labels: trend, RSI,
  MACD and Bollinger bands. It then adds these into a clamped 0–100
  technical score. The pandas kernels (rolling mean and std, `ewm`, RSI)
  are abstract arguments. The history guards, the volume ratio, the labels
  and the score are modelled exactly.
- **Signal generator.** It fuses the technical score, a macro score and a
  sentiment score from the language-model analysis. The result is an
  overall score, one of seven signal classes, a confidence, trade levels
  and a position size. It falls back to a HOLD record when formatting fails.
- **Token-bucket rate limiter.** Buckets refill at a constant rate and make
  a caller wait for a shortfall. It also has a four-level priority queue
  and per-source request counters. The buckets, the queue and the limiter
  are classes whose methods update fields. Each method is proved against a
  value-level function such as `AcquireStep`, `RefillAt` or `Pending`.
- **Cache tier.** An in-memory dictionary of `(value, expires_at)` entries
  with expiry at read time, substring-based pattern clearing and
  statistics. Namespaced keys have per-class lifetimes, and a one-way
  switch turns Redis off. Redis itself is opaque: its replies are
  arguments.
- **Supporting pieces:**
  - the shared records and enumerations, with their 0–100 bounds as the
    subset type `Percent`;
  - extracting the JSON payload from a fenced Markdown reply, and the
    analysis record built from it;
  - the CoinGecko symbol table, the gainers/losers ranking, and the
    trending and price-history loops;
  - the two derived settings, the tracked-coin list and the Redis URL.

Modules follow the source files:

| module | file |
|---|---|
| `Wrappers` | `wrappers.dfy` |
| `Strings` | `strings.dfy`, with Python's `find`, slicing, `strip` (over the whitespace `str.isspace` accepts, Unicode spaces included), `split`, `join`, ASCII-only `upper` and integer printing |
| `Models` | `models.dfy` |
| `Technical` | `technical.dfy` |
| `SignalGenerator` | `signal_generator.dfy` |
| `RateLimiter` | `rate_limiter.dfy` |
| `CacheManager` | `cache_manager.dfy` |
| `ClaudeAnalyzer` | `claude_analyzer.dfy` |
| `CoinGecko` | `coingecko_client.dfy` |
| `Settings` | `settings.dfy` |

Python semantics that the code relies on are written out:
- truthiness: a zero reading counts as absent;
- `find` returns −1 when nothing is found;
- negative slice bounds count from the end;
- a stable `sorted`;
- `int()` truncation of a non-negative value.

Where the source uses floating point, the model uses exact reals, or
integers scaled by 10 or 100.

## Model

| member | source | states |
|---|---|---|
| Wrappers.OrElse | backend/ai_agent/signal_generator.py:354-357 | `x or default`: the value when it is truthy (present and non-zero), else the default |
| Strings.Find | backend/ai_agent/claude_analyzer.py:228-229 | `str.find`: the first occurrence at or after `start`, or −1 exactly when there is none |
| Strings.ContainsIff | backend/ai_agent/claude_analyzer.py:226 | `sub in s` holds iff `sub` occurs at some position |
| Strings.FindFirst | backend/ai_agent/claude_analyzer.py:228 | an occurrence with none before it is what `find` returns |
| Strings.SliceBound | backend/ai_agent/claude_analyzer.py:230 | Python's normalisation of a slice bound: negative bounds count from the end, and bounds are clipped to the length |
| Strings.PySlice | backend/ai_agent/claude_analyzer.py:230 | `s[start:end]` is the sub-sequence between the normalised bounds, or empty when they cross |
| Strings.SliceToMinusOne | backend/ai_agent/claude_analyzer.py:229-230 | an end bound of −1 drops exactly the last element |
| Strings.Take | backend/api/coingecko_client.py:286 | `s[:n]` keeps the first min(n, \|s\|) elements, in order |
| Strings.StripLeft | backend/config/settings.py:48 | removes exactly the leading whitespace, as `str.isspace` defines it (ASCII and Unicode spaces, U+00A0 and U+3000 included): the result is a suffix that does not start with whitespace |
| Strings.StripRight | backend/config/settings.py:48 | removes exactly the trailing whitespace, as `str.isspace` defines it: the result is a prefix that does not end with whitespace |
| Strings.Strip | backend/config/settings.py:48 | the result is no longer than the input and neither starts nor ends with `str.isspace` whitespace |
| Strings.StripSlice | backend/ai_agent/claude_analyzer.py:230 | `strip` is a contiguous slice of the input, and everything cut on either side is whitespace |
| Strings.StripNoSpace | backend/config/settings.py:48 | a string that neither starts nor ends with `str.isspace` whitespace is left unchanged by `strip` |
| Strings.Split | backend/config/settings.py:48 | `split(sep)` has one piece more than there are separators, and no piece holds a separator |
| Strings.SplitPiece | backend/config/settings.py:48 | splitting `a + sep + b`, where `a` has no separator, gives `a` followed by the pieces of `b` |
| Strings.SplitNoSep | backend/config/settings.py:48 | a string without the separator splits into just itself |
| Strings.SplitJoin | backend/config/settings.py:48 | joining separator-free pieces and splitting again gives the pieces back |
| Strings.JoinSplit | backend/config/settings.py:48 | splitting and joining again gives the original string |
| Strings.Upper | backend/api/coingecko_client.py:355 | `upper()` restricted to ASCII: a–z become A–Z and every other character is kept, so the length is kept |
| Strings.UpperIdempotent | backend/api/coingecko_client.py:355 | upper-casing twice is upper-casing once |
| Strings.UpperFixed | backend/api/coingecko_client.py:355 | a string with no ASCII lower-case letter is its own upper-case form |
| Strings.RemoveChar | backend/data/cache_manager.py:158 | `replace("*", "")`: no `*` is left, exactly the `*`s are removed, and a string without one is unchanged |
| Strings.RemoveCharOne | backend/data/cache_manager.py:158 | a one-character string loses its character exactly when it is the removed one |
| Strings.RemoveCharAppend | backend/data/cache_manager.py:158 | removal from a concatenation is the concatenation of the removals, so the kept characters stay in their order |
| Strings.DigitChar | backend/config/settings.py:53 | a digit prints as the character of that value |
| Strings.NatToString | backend/config/settings.py:53 | `str(n)` is a non-empty run of digits with no leading zero |
| Strings.NatToStringRoundTrip | backend/config/settings.py:53 | reading the printed digits back gives the number |
| Models.ParseSignalType | backend/data/models.py:7-15 | `SignalType(s)` succeeds exactly on the seven enum values and returns the member with that value |
| Models.ParseTimeframe | backend/data/models.py:18-23 | `Timeframe(s)` succeeds exactly on the four enum values and returns the member with that value |
| Models.SignalTypeEnumeration | backend/data/models.py:7-15 | there are exactly seven signal types, all distinct, and each one's value parses back to it |
| Models.TimeframeEnumeration | backend/data/models.py:18-23 | there are exactly four timeframes, all distinct, and each one's value parses back to it |
| Models.NewSignal | backend/data/models.py:93-112 | a signal built from its required fields has no layer scores, entry zone, stop or size, empty targets and timeframe "7-14 days" |
| Technical.CalculateRsi | backend/indicators/technical.py:33-35 | None with fewer than period+1 prices, else the kernel's RSI |
| Technical.CalculateMacd | backend/indicators/technical.py:77-100 | None with fewer than slow+signal prices; when present, the histogram is the MACD line minus the signal line |
| Technical.CalculateBollingerBands | backend/indicators/technical.py:122-143 | None with fewer than `period` prices; otherwise present iff the rolling kernel is, with the middle band equal to the rolling mean |
| Technical.BandsSymmetric | backend/indicators/technical.py:136-137 | upper − middle = middle − lower = std·multiplier, so the bands are ordered when both are non-negative |
| Technical.CalculateEma | backend/indicators/technical.py:161-167 | None with fewer than `period` prices, else the kernel's EMA |
| Technical.CalculateVolumeRatio | backend/indicators/technical.py:187-202 | None with fewer than period+1 volumes; otherwise None iff the mean of the `period` volumes before the last is 0, and the ratio times that mean is the last volume |
| Technical.PrecedingMeanScale | backend/indicators/technical.py:194 | scaling every volume scales the preceding mean by the same factor |
| Technical.VolumeRatioScaleInvariant | backend/indicators/technical.py:187-202 | the volume ratio does not change when every volume is scaled by a positive factor |
| Technical.TrendLabel | backend/indicators/technical.py:247-260 | UNKNOWN iff an EMA is falsy; STRONG_UPTREND iff price > ema200 and ema20 > ema50 > ema200; UPTREND for the other price > ema200; the mirror cases below; SIDEWAYS iff price == ema200 |
| Technical.RsiLabel | backend/indicators/technical.py:263-272 | one of OVERSOLD, OVERBOUGHT, BEARISH, BULLISH, NEUTRAL; NEUTRAL for a missing or zero RSI |
| Technical.RsiLabelBands | backend/indicators/technical.py:263-272 | for a non-zero RSI: OVERSOLD iff < 30, BEARISH iff in [30, 40), NEUTRAL iff in [40, 60], BULLISH iff in (60, 70], OVERBOUGHT iff > 70 |
| Technical.MacdLabel | backend/indicators/technical.py:275-282 | BULLISH iff histogram > 0 and macd > signal; BEARISH iff histogram ≤ 0 and macd < signal; NEUTRAL otherwise |
| Technical.MacdLabelByLines | backend/indicators/technical.py:275-282 | since the histogram is macd − signal, the label is BULLISH, BEARISH or NEUTRAL exactly as macd is above, below or equal to signal |
| Technical.BandLabel | backend/indicators/technical.py:286-296 | OVERSOLD iff price < lower; OVERBOUGHT iff not below lower and price > upper; SQUEEZE iff inside and the width is < 10% of the middle; NEUTRAL when there are no bands |
| Technical.Closes | backend/indicators/technical.py:229 | the closes of the candles, one per candle, in order |
| Technical.Volumes | backend/indicators/technical.py:230 | the volumes of the candles, one per candle, in order |
| Technical.AnalyzeCandles | backend/indicators/technical.py:219-315 | `{}` below 50 candles; the current price is the last close; the bands are only kept with a non-zero middle; MACD, bands and the 200-EMA are their guarded calculations of the closes; the RSI, MACD, band and trend labels are `RsiLabel`, `MacdLabel`, `BandLabel` and `TrendLabel` of the analysis's own values |
| Technical.AnalyzeCandlesGuards | backend/indicators/technical.py:232-260 | a successful analysis carries the kernels' RSI and 20/50 EMAs of the closes, MACD and bands exactly when their kernels give them, and the 20-period volume ratio; below 200 candles the 200-EMA is missing and the trend is UNKNOWN |
| Technical.AnalyzeCandlesEmpty | backend/indicators/technical.py:219-319 | the analysis is `{}` iff there are fewer than 50 candles or the middle band is 0 (the division raises) |
| Technical.ShortHistoryScore | backend/indicators/technical.py:322-390 | scoring the analysis of 50 to 199 candles reads its RSI, MACD and band labels and the volume ratio; the trend adds nothing |
| Technical.VolumePoints | backend/indicators/technical.py:374-387 | volume ratio > 1.5: +15 if the running score > 50 else −15; < 0.5: −5 if > 50 else +5; otherwise, or when falsy, 0 |
| Technical.Clamp | backend/indicators/technical.py:390 | `max(0, min(100, x))`: in [0, 100], the identity inside, 0 below and 100 above |
| Technical.TechnicalScore | backend/indicators/technical.py:322-390 | the technical score lies in [0, 100] |
| Technical.RawScoreRange | backend/indicators/technical.py:332-390 | the unclamped sum ranges over [−50, 150], both ends are reached, and they clamp to 0 and 100 |
| Technical.NeutralScore | backend/indicators/technical.py:332-387 | with every indicator absent, zero or neutral the score is exactly 50 |
| Technical.VolumeAmplifies | backend/indicators/technical.py:374-387 | high volume moves the running score 15 further the way it leans (down at exactly 50); low volume moves it back by 5 |
| SignalGenerator.DetermineTrend | backend/ai_agent/signal_generator.py:155-177 | with the middle band as price: UNKNOWN iff an EMA is falsy; STRONG_UPTREND iff price > ema200 and ema20 > ema50 > ema200; UPTREND for the other price > ema200; the mirror cases below; SIDEWAYS iff price == ema200 |
| SignalGenerator.DetermineBbSignal | backend/ai_agent/signal_generator.py:179-191 | NEUTRAL when a band is zero; OVERSOLD iff middle < lower; OVERBOUGHT iff middle > upper (and not below lower); never SQUEEZE |
| SignalGenerator.OrderedBandsNeutral | backend/ai_agent/signal_generator.py:184-191 | bands with lower ≤ middle ≤ upper always give NEUTRAL |
| SignalGenerator.TechnicalScoreInput | backend/ai_agent/signal_generator.py:139-147 | the score dictionary: MACD is BULLISH iff the histogram > 0 and BEARISH otherwise; trend and band labels are re-derived |
| SignalGenerator.CalculateTechnicalScore | backend/ai_agent/signal_generator.py:135-149 | without RSI, volume and EMAs and with ordered bands, the score is 70 or 30 by the histogram's sign, never 50 |
| SignalGenerator.MacdNeverNeutral | backend/ai_agent/signal_generator.py:141-143 | the MACD contribution is always +20 or −20; a zero histogram counts as bearish |
| SignalGenerator.MacroScore | backend/ai_agent/signal_generator.py:197-234 | the macro score is 50 when dxy, vix and fear/greed are all absent or zero |
| SignalGenerator.MacroScoreUnclamped | backend/ai_agent/signal_generator.py:197-234 | the three contributions stay within ±50, so the clamp never applies, and both 0 and 100 are reached |
| SignalGenerator.DxyPoints | backend/ai_agent/signal_generator.py:200-209 | within ±20; positive exactly for a non-zero dollar index below 100, negative exactly above 105 |
| SignalGenerator.VixPoints | backend/ai_agent/signal_generator.py:211-220 | within ±15; positive exactly for a non-zero VIX below 20, negative exactly above 25 |
| SignalGenerator.FearGreedPoints | backend/ai_agent/signal_generator.py:222-232 | within ±15; positive exactly for an index in (0, 40), negative exactly above 60 |
| SignalGenerator.MacroPointsAntitone | backend/ai_agent/signal_generator.py:201-232 | a higher non-zero dollar index, vix or fear/greed index never raises its contribution |
| SignalGenerator.RatingAnchor | backend/ai_agent/signal_generator.py:243-251 | every anchor lies in [5, 95] |
| SignalGenerator.Rank | backend/ai_agent/signal_generator.py:32-40 | position on the seven-point scale, 0 to 6 |
| SignalGenerator.AnchorMonotone | backend/ai_agent/signal_generator.py:243-251 | a more bullish rating has a strictly higher anchor |
| SignalGenerator.SentimentScore | backend/ai_agent/signal_generator.py:253-259 | the sentiment score is `int()` of 50 + (anchor − 50)·confidence/100 |
| SignalGenerator.SentimentBetween | backend/ai_agent/signal_generator.py:253-259 | the score lies between 50 and the anchor; confidence 100 gives the anchor and confidence 0 gives 50 |
| SignalGenerator.OverallScore | backend/ai_agent/signal_generator.py:270-287 | all three layers: int(0.4t + 0.3m + 0.3s); two layers: int(0.6t + 0.4·other); technical only: t |
| SignalGenerator.OverallBetween | backend/ai_agent/signal_generator.py:270-287 | the fused score stays within any range holding every layer score |
| SignalGenerator.OverallExamples | backend/ai_agent/signal_generator.py:270-287 | 80 with macro 60 fuses to 72; 70/70/70 gives 70; 80/60/45 gives 63 |
| SignalGenerator.ThresholdsAgree | backend/ai_agent/signal_generator.py:32-40 | the class chosen for a score is the highest class whose `SIGNAL_THRESHOLDS` entry the score reaches |
| SignalGenerator.SignalMonotone | backend/ai_agent/signal_generator.py:289-304 | a higher score never gives a more bearish class |
| SignalGenerator.SignalBands | backend/ai_agent/signal_generator.py:289-304 | each class is exactly its band of scores: ≥ 80, [65, 80), [55, 65), [45, 55), [35, 45), [20, 35), < 20 |
| SignalGenerator.ScoreToSignalType | backend/ai_agent/signal_generator.py:289-304 | a score of 0 or more reaches the threshold of its class, and no class of higher rank has its threshold reached; a negative score is STRONG_SELL |
| SignalGenerator.Variance | backend/ai_agent/signal_generator.py:326-327 | the population variance is never negative |
| SignalGenerator.BaseConfidence | backend/ai_agent/signal_generator.py:316-319 | the AI analysis's own confidence when there is one, else 50 |
| SignalGenerator.VarianceOfEqual | backend/ai_agent/signal_generator.py:326-327 | equal scores have variance 0 |
| SignalGenerator.PresentScores | backend/ai_agent/signal_generator.py:322 | the present layer scores, technical first: one per present layer, each in [0, 100] |
| SignalGenerator.Confidence | backend/ai_agent/signal_generator.py:316-335 | starts from the AI confidence or 50; unchanged with fewer than two layers; variance < 100 gives min(100, c+10), > 400 gives max(0, c−15), otherwise c |
| SignalGenerator.ConfidenceAdjustmentBound | backend/ai_agent/signal_generator.py:316-335 | the adjustment lies in [−15, +10], and is 0 with only the technical layer |
| SignalGenerator.AgreementBoosts | backend/ai_agent/signal_generator.py:324-331 | layers that agree exactly always earn the +10 bonus, capped at 100 |
| SignalGenerator.ConfidenceExample | backend/ai_agent/signal_generator.py:324-331 | layers 70, 75 and 72 with AI confidence 60 give confidence 70 |
| SignalGenerator.ActionsDistinct | backend/ai_agent/signal_generator.py:377-387 | different classes have different action texts |
| SignalGenerator.TradeLevels | backend/ai_agent/signal_generator.py:346-389 | AI levels when its low entry is truthy (missing targets and stop default to 1.1p, 1.2p, 0.9p); buys: 0.98p–1.02p, targets 1.1p/1.2p/1.3p, stop lower band or 0.92p; sells: current price, no targets or stop; HOLD/WEAK_BUY: wait; fails iff the AI range lacks a high end |
| SignalGenerator.BuyLevelsOrdered | backend/ai_agent/signal_generator.py:360-365 | for a positive price, a buy's entry zone brackets the price, the three targets climb above it, and the stop is below it |
| SignalGenerator.BaseSize | backend/ai_agent/signal_generator.py:397-407 | the base size lies in [0, 10] |
| SignalGenerator.Abs | backend/ai_agent/signal_generator.py:414 | `abs`: non-negative and equal to x or −x |
| SignalGenerator.VolatilityFactor | backend/ai_agent/signal_generator.py:414-418 | the damping factor is 0.7 when \|change\| > 10, 0.85 when 5 < \|change\| ≤ 10 and 1 otherwise |
| SignalGenerator.PositionSize | backend/ai_agent/signal_generator.py:391-420 | in [0, base]; 0 for HOLD and the sell classes and at confidence 0; otherwise base·confidence/100 when \|change\| ≤ 5, 0.85 of that when 5 < \|change\| ≤ 10 and 0.7 of it beyond 10 (before the final `round(…, 1)`) |
| SignalGenerator.PositionSizeExamples | backend/ai_agent/signal_generator.py:391-420 | a STRONG_BUY at full confidence is sized 10 after a 2% move, 8.5 after −7% and 7 after 20% |
| SignalGenerator.CalmerNotSmaller | backend/ai_agent/signal_generator.py:413-418 | a calmer 24h change never gets a smaller position |
| SignalGenerator.FallbackSignal | backend/ai_agent/signal_generator.py:121-133 | HOLD, overall score 50, confidence 0, technical score 50, "Wait for better setup", timeframe "N/A" |
| SignalGenerator.GenerateSignal | backend/ai_agent/signal_generator.py:46-133 | the fallback exactly when trade levels fail; otherwise the scores, class, confidence, action and position size come from their layer functions, the entry zone, targets and stop from `TradeLevels` of the class, and the timeframe is the AI's or "7-14 days"; the on-chain score is never set |
| SignalGenerator.SignalMatchesScore | backend/ai_agent/signal_generator.py:85-86 | on every path the signal class is the class of the overall score |
| SignalGenerator.PositionOnlyOnBuy | backend/ai_agent/signal_generator.py:97-100 | a recommended size lies in [0, 10] and is 0 unless the class is a buy |
| RateLimiter.Min | backend/api/rate_limiter.py:72 | `min`: at most both arguments and equal to one |
| RateLimiter.RefillAt | backend/api/rate_limiter.py:65-73 | the balance becomes min(capacity, tokens + elapsed·rate), so never above capacity, and the refill mark becomes `now` |
| RateLimiter.AcquireStep | backend/api/rate_limiter.py:34-63 | capacity and rate are unchanged, and the refill mark is the time the call returns |
| RateLimiter.WaitCoversShortfall | backend/api/rate_limiter.py:52-61 | the computed wait is positive and refills at least the shortfall |
| RateLimiter.FastPath | backend/api/rate_limiter.py:45-49 | a covered request is debited exactly, with no wait |
| RateLimiter.SlowPath | backend/api/rate_limiter.py:52-62 | the wait is (requested − tokens)/rate, positive; a request within capacity leaves a non-negative balance |
| RateLimiter.OverCapacity | backend/api/rate_limiter.py:52-62 | a request above capacity is still granted and leaves capacity − requested, below zero |
| RateLimiter.AcquireKeepsRange | backend/api/rate_limiter.py:34-73 | an acquire never lifts the balance over capacity, never returns before it started, and keeps it ≥ 0 for requests within capacity |
| RateLimiter.AcquireSequenceInRange | backend/api/rate_limiter.py:34-73 | any series of requests within capacity keeps the balance in [0, capacity] |
| RateLimiter.AcquireAll | backend/api/rate_limiter.py:34-63 | a series of acquires keeps capacity and rate |
| RateLimiter.TokenBucket.constructor | backend/api/rate_limiter.py:20-31 | a full bucket whose refill clock starts now |
| RateLimiter.TokenBucket.Refill | backend/api/rate_limiter.py:65-73 | the new state is `RefillAt` of the old one |
| RateLimiter.TokenBucket.Acquire | backend/api/rate_limiter.py:34-63 | always returns True; the new state, wait and return time are those of `AcquireStep` |
| RateLimiter.TokenBucket.AvailableTokens | backend/api/rate_limiter.py:75-77 | the current balance, at most the capacity |
| RateLimiter.LevelFor | backend/api/rate_limiter.py:93-94 | a known priority is kept; any other is filed under "medium" |
| RateLimiter.PriorityQueue.constructor | backend/api/rate_limiter.py:83-89 | four empty levels |
| RateLimiter.PriorityQueue.Add | backend/api/rate_limiter.py:91-95 | appends to the end of the item's level only; the size grows by one |
| RateLimiter.PriorityQueue.GetNext | backend/api/rate_limiter.py:97-102 | None on an empty queue, which is left unchanged; otherwise the head of the highest non-empty level is returned and removed from that level, every other level unchanged, so the pending order loses exactly its first item |
| RateLimiter.PriorityQueue.Size | backend/api/rate_limiter.py:104-106 | the total of the four queue lengths |
| RateLimiter.PopLevel | backend/api/rate_limiter.py:99-101 | popping the first non-empty level takes the head of the levels concatenated in priority order |
| RateLimiter.Recorded | backend/api/rate_limiter.py:182-187 | one more request and one more success, failures unchanged, the wait added |
| RateLimiter.UsageRange | backend/api/rate_limiter.py:207 | usage is in [0, 100]: 0 for a full bucket, 100 for an empty one |
| RateLimiter.UsagePercent | backend/api/rate_limiter.py:207 | usage is 0 exactly when the bucket is full and 100 exactly when it is empty |
| RateLimiter.StatusOf | backend/api/rate_limiter.py:200-217 | one source's status entry: the bucket's tokens, capacity and refill rate, its stats, and a usage within [0, 100] for a balance within capacity |
| RateLimiter.SourcesDistinct | backend/api/rate_limiter.py:132-142 | the four configured sources hold distinct buckets |
| RateLimiter.RateLimiter.constructor | backend/api/rate_limiter.py:127-152 | buckets of 45 at 0.75/s, 1100 at 18.33/s, 100 at 0.00115/s and 300 at 0.00347/s, all full; zeroed counters |
| RateLimiter.RateLimiter.Acquire | backend/api/rate_limiter.py:156-198 | always True and never returns before it started; an unknown source changes nothing; a known source's bucket takes one `AcquireStep`, and its counters are `Recorded` with the time waited; other sources are untouched |
| RateLimiter.RateLimiter.GetStatus | backend/api/rate_limiter.py:200-217 | one line per configured source, with its balance, capacity, usage, rate and counters |
| RateLimiter.RateLimiter.ResetStats | backend/api/rate_limiter.py:219-231 | a named source has only its counters zeroed (nothing for an unknown one); no source zeroes all of them |
| CacheManager.FallbackGet | backend/data/cache_manager.py:91-100 | a missing key gives None; a live entry gives its value; an expired entry gives None and is deleted |
| CacheManager.FallbackSet | backend/data/cache_manager.py:121-123 | the key is (over)written with expiry now + ttl; other keys are untouched |
| CacheManager.Needle | backend/data/cache_manager.py:158 | the substring searched for holds no `*` |
| CacheManager.NeedleOfPrefix | backend/data/cache_manager.py:144-158 | the needle of a `prefix*` pattern such as "coin:*" is the prefix itself |
| CacheManager.FallbackClear | backend/data/cache_manager.py:157-161 | no key is added; every key kept lacks the needle and keeps its entry; every key without the needle is kept |
| CacheManager.ClearAllWithEmptyNeedle | backend/data/cache_manager.py:157-161 | a pattern of only `*`s clears everything |
| CacheManager.ActiveAtMostTotal | backend/data/cache_manager.py:179-188 | unexpired keys never outnumber all keys, and equal them when none has expired |
| CacheManager.GetAfterSet | backend/data/cache_manager.py:94-95 | a read after a write finds the value iff the clock is strictly before write time + ttl |
| CacheManager.SetLeavesOthers | backend/data/cache_manager.py:122-123 | a write does not change what other keys read |
| CacheManager.ExpiredReadDeletesOnlyKey | backend/data/cache_manager.py:94-98 | reading an expired entry deletes that key and only that key |
| CacheManager.KeyFor | backend/data/cache_manager.py:196-206 | a key is the class prefix followed by the symbol |
| CacheManager.KeysInjective | backend/data/cache_manager.py:196-206 | distinct (class, symbol) pairs never share a key |
| CacheManager.TtlFor | backend/data/cache_manager.py:212-238 | every wrapper lifetime is positive, and signals reuse the technical TTL |
| CacheManager.WrapperLifetimes | backend/data/cache_manager.py:208-238 | through the wrappers a price lives 30 s, technical data and signals 60 s, AI analyses 600 s |
| CacheManager.CacheManager.constructor | backend/data/cache_manager.py:37-47 | Redis enabled, no client, empty fallback |
| CacheManager.CacheManager.Connect | backend/data/cache_manager.py:49-67 | a failed ping switches Redis off and drops the client; Redis is never switched back on |
| CacheManager.CacheManager.Get | backend/data/cache_manager.py:74-104 | the Redis reply in Redis mode, else `FallbackGet` with its deletion; the mode never changes |
| CacheManager.CacheManager.Set | backend/data/cache_manager.py:106-126 | in fallback mode with a serialisable value, `FallbackSet`; otherwise the fallback is unchanged; the TTL defaults to 300 |
| CacheManager.CacheManager.Delete | backend/data/cache_manager.py:128-137 | in fallback mode the key is removed if present; nothing else changes |
| CacheManager.CacheManager.ClearPattern | backend/data/cache_manager.py:139-164 | in fallback mode the deletion loop leaves exactly `FallbackClear` |
| CacheManager.CacheManager.GetStats | backend/data/cache_manager.py:166-192 | in fallback mode: unexpired and total entry counts, the first at most the second; else the server's counters |
| CacheManager.CacheManager.SetFor | backend/data/cache_manager.py:212-238 | a `set_*` wrapper writes the class key with the class TTL |
| CacheManager.CacheManager.GetFor | backend/data/cache_manager.py:208-234 | a `get_*` wrapper reads the class key |
| ClaudeAnalyzer.Unfenced | backend/ai_agent/claude_analyzer.py:236-238 | with no fence the payload is the whole reply, stripped |
| ClaudeAnalyzer.ExtractPayload | backend/ai_agent/claude_analyzer.py:225-238 | the text handed to `json.loads` neither starts nor ends with whitespace |
| ClaudeAnalyzer.FindOpening | backend/ai_agent/claude_analyzer.py:228 | with no backtick before it, the first fence is found where it starts |
| ClaudeAnalyzer.FindClosing | backend/ai_agent/claude_analyzer.py:229 | the closing fence is found right after a backtick-free body |
| ClaudeAnalyzer.FencedBodyOf | backend/ai_agent/claude_analyzer.py:228-235 | the slice between an opening marker and the next fence is the body between them |
| ClaudeAnalyzer.JsonFenced | backend/ai_agent/claude_analyzer.py:226-230 | for a backtick-free prefix and body, inside a "```json" fence the payload is the stripped body |
| ClaudeAnalyzer.PlainFenced | backend/ai_agent/claude_analyzer.py:231-235 | for a backtick-free prefix and body, inside a plain "```" fence, with no "```json" anywhere, the payload is the stripped body |
| ClaudeAnalyzer.MissingClosingFence | backend/ai_agent/claude_analyzer.py:229-230 | for a backtick-free prefix and non-empty body with no closing "```json" fence, the payload silently loses its last character |
| ClaudeAnalyzer.MissingPlainClosingFence | backend/ai_agent/claude_analyzer.py:231-235 | the same loss of the last character in the plain-fence branch, for a backtick-free prefix and non-empty body and no "```json" |
| ClaudeAnalyzer.NoClosingFence | backend/ai_agent/claude_analyzer.py:229 | no fence after a backtick-free tail: `find` returns −1 |
| ClaudeAnalyzer.ParseAnalysisResponse | backend/ai_agent/claude_analyzer.py:240-256 | the decoded payload, or the default dictionary when decoding fails |
| ClaudeAnalyzer.ConfidenceField | backend/ai_agent/claude_analyzer.py:77 | a missing confidence reads as 50; a number is accepted iff it is integral and in [0, 100], as that integer; anything else is rejected |
| ClaudeAnalyzer.AnalysisFromFields | backend/ai_agent/claude_analyzer.py:74-89 | the record carries the coin, and a missing rating, confidence or timeframe reads as HOLD, 50, SWING |
| ClaudeAnalyzer.ErrorAnalysis | backend/ai_agent/claude_analyzer.py:95-103 | HOLD, confidence 0, SWING, "Analysis error: …", no key factors, one fixed risk, no levels |
| ClaudeAnalyzer.AnalysisOfParsed | backend/ai_agent/claude_analyzer.py:71-103 | the record carries the coin; a parsed value that is not an object gives the error record |
| ClaudeAnalyzer.AnalyzeCoin | backend/ai_agent/claude_analyzer.py:55-103 | the record carries the coin; a raise before the reply is read (prompt building, the call, reading the content) or a non-object payload gives the error record |
| ClaudeAnalyzer.ParseDefaultKeys | backend/ai_agent/claude_analyzer.py:249-256 | the default dictionary has no level keys, and validates to HOLD, 0, SWING |
| ClaudeAnalyzer.ParseDefaultTexts | backend/ai_agent/claude_analyzer.py:249-256 | the default's reasoning, empty key factors and one parse-failure risk |
| ClaudeAnalyzer.ParseDefaultAnalysis | backend/ai_agent/claude_analyzer.py:245-256 | the default dictionary becomes HOLD, 0, SWING, "Failed to parse analysis response", no levels |
| ClaudeAnalyzer.UndecodableReply | backend/ai_agent/claude_analyzer.py:245-256 | an undecodable reply yields that default record |
| ClaudeAnalyzer.EmptyObjectAnalysis | backend/ai_agent/claude_analyzer.py:76-88 | an empty object fills in HOLD, 50, SWING, "Analysis completed", empty lists, no levels |
| ClaudeAnalyzer.EmptyObjectDefaults | backend/ai_agent/claude_analyzer.py:71-88 | a reply decoding to an empty object is analysed as the empty object |
| ClaudeAnalyzer.InvalidFieldRejected | backend/ai_agent/claude_analyzer.py:76-78 | an unknown rating or a confidence above 100 fails validation |
| ClaudeAnalyzer.InvalidFieldFallsBack | backend/ai_agent/claude_analyzer.py:74-103 | such a reply yields the error record |
| ClaudeAnalyzer.CoinLines | backend/ai_agent/claude_analyzer.py:328-332 | one formatted line per coin, in order |
| ClaudeAnalyzer.FormatCoinList | backend/ai_agent/claude_analyzer.py:325-326 | no coins give "None" |
| ClaudeAnalyzer.FormatCoinListLines | backend/ai_agent/claude_analyzer.py:323-333 | the text splits back into one line per coin for the first min(5, n), in order |
| ClaudeAnalyzer.FormatField | backend/ai_agent/claude_analyzer.py:143-145 | `format` succeeds exactly for None with an empty spec or a float with a valid float spec, and then gives the rendered float |
| ClaudeAnalyzer.GroupedTwoDecimals | backend/ai_agent/claude_analyzer.py:143-145 | ",.2f" followed by any text is a valid float spec exactly when that text is empty |
| ClaudeAnalyzer.EmaSpecAsWritten | backend/ai_agent/claude_analyzer.py:143-145 | the spec as written starts with ",.2f" and has text after it |
| ClaudeAnalyzer.EmaFieldAlwaysRaises | backend/ai_agent/claude_analyzer.py:143-145 | as written, every EMA line raises, whatever the value, so the coin prompt is never built |
| ClaudeAnalyzer.EmaField | backend/ai_agent/claude_analyzer.py:143-145 | the intended EMA line never raises: two grouped decimals for a truthy EMA, "N/A" otherwise |
| CoinGecko.GetCoinId | backend/api/coingecko_client.py:345-355 | found iff the upper-cased symbol is in the table, and then its table entry |
| CoinGecko.SymbolCount | backend/api/coingecko_client.py:30-47 | the table has exactly 16 distinct symbols |
| CoinGecko.IdsDistinct | backend/api/coingecko_client.py:30-47 | distinct symbols have distinct IDs |
| CoinGecko.CaseInsensitive | backend/api/coingecko_client.py:355 | the lookup ignores case |
| CoinGecko.LowerCaseLookup | backend/api/coingecko_client.py:355 | "btc" finds bitcoin, "Sui" finds sui, "DOGE" finds nothing |
| CoinGecko.CoinDataRequest | backend/api/coingecko_client.py:134-140 | no request iff the symbol is unknown, else "coins/" + id |
| CoinGecko.HistoricalRequest | backend/api/coingecko_client.py:183-188 | no request iff the symbol is unknown, else "coins/" + id + "/market_chart" |
| CoinGecko.Insert | backend/api/coingecko_client.py:284-290 | inserting adds exactly the one entry |
| CoinGecko.InsertSorted | backend/api/coingecko_client.py:284-290 | inserting into a sorted list keeps it sorted |
| CoinGecko.Sort | backend/api/coingecko_client.py:284-290 | `sorted` is a permutation of its input |
| CoinGecko.SortSorted | backend/api/coingecko_client.py:284-290 | `sorted` output is ordered by the 24h change, a missing key counting as 0 |
| CoinGecko.MoverOf | backend/api/coingecko_client.py:294-299 | the output entry has the upper-cased symbol and copies name, raw change and price |
| CoinGecko.Movers | backend/api/coingecko_client.py:292-310 | one output entry per ranked entry, in order |
| CoinGecko.TopGainersLosers | backend/api/coingecko_client.py:280-311 | empty data gives empty lists; gainers and losers are the output of the first `limit` entries sorted descending and ascending |
| CoinGecko.TopIsBest | backend/api/coingecko_client.py:284-290 | min(limit, n) entries, in order, none outranked by an excluded entry, and together with the excluded entries exactly the fetched list |
| CoinGecko.Top | backend/api/coingecko_client.py:284-290 | at most n entries, exactly min(limit, n) for a limit of 0 or more, each taken from the fetched list |
| CoinGecko.GainersBeatTheRest | backend/api/coingecko_client.py:284-290 | every gainer's change is ≥ every excluded entry's, and every loser's ≤ |
| CoinGecko.GetTrendingCoins | backend/api/coingecko_client.py:240-255 | nothing without a `coins` list; otherwise the first min(n, 10) items, in order |
| CoinGecko.TrendingOf | backend/api/coingecko_client.py:245-252 | a missing `item` gives a coin with all four fields None; otherwise symbol, name, market_cap_rank and price_btc are copied |
| CoinGecko.GetHistoricalPrices | backend/api/coingecko_client.py:183-203 | nothing for an unknown symbol or a missing `prices`; otherwise one point per pair, in order, with milliseconds turned into seconds |
| Settings.CoinsList | backend/config/settings.py:46-48 | commas + 1 pieces, each the stripped piece of the split, in order |
| Settings.CoinsListOfJoined | backend/config/settings.py:46-48 | comma-free symbols with no `str.isspace` whitespace at either end, written comma-separated, come back unchanged |
| Settings.CoinsListPair | backend/config/settings.py:46-48 | two comma-free values around one comma give the two stripped values |
| Settings.StripSpaceFront | backend/config/settings.py:48 | a leading whitespace character, ASCII or Unicode, is removed by `strip` |
| Settings.CoinsListSpacedPair | backend/config/settings.py:46-48 | whitespace after the comma, Unicode spaces included, does not reach the second value |
| Settings.CoinsListNoBreakSpace | backend/config/settings.py:46-48 | "BTC,\u00a0ETH" gives ["BTC", "ETH"] |
| Settings.DefaultCoins | backend/config/settings.py:37 | the default list is the 16 symbols, BTC first and SUI last |
| Settings.DefaultCoinsKnown | backend/config/settings.py:37 | the default symbols are the CoinGecko table's, and each has an ID |
| Settings.SplitPair | backend/config/settings.py:53 | two separator-free parts around one separator split back apart |
| Settings.NoSeparatorInDigits | backend/config/settings.py:53 | a printed number contains no separator character |
| Settings.UrlNumbers | backend/config/settings.py:53 | the part after the host splits at '/' into the port and db digits |
| Settings.RedisUrlParts | backend/config/settings.py:50-53 | after "redis://", a host without ':' or '/' is followed by the digits of the port and the db, which read back to the numbers |
| Settings.RedisUrl | backend/config/settings.py:50-53 | the URL starts with "redis://", then the host, then ':' |
| Settings.DefaultRedisUrl | backend/config/settings.py:16-18 | the defaults give "redis://localhost:6379/0" |

## Findings

| source | as written | input that shows it | evidently intended | confidence | as-written member | corrected member |
|---|---|---|---|---|---|---|
| backend/ai_agent/claude_analyzer.py:143-145 | the `if … else 'N/A'` meant to pick the text sits after the colon of the replacement field, so all of it is the format spec of the EMA | any EMA: a float such as 50000.0 rejects the spec (`ValueError`), None rejects any spec (`TypeError`); `_build_coin_analysis_prompt` therefore always raises and `analyze_coin` always returns its error record | the number with two grouped decimals when the EMA is truthy, else "N/A" | not executed | ClaudeAnalyzer.EmaFieldAlwaysRaises | ClaudeAnalyzer.EmaField |

## Left out

- Network, LLM and web code is not modelled. This covers the Anthropic client, prompt construction (apart from the EMA lines under "## Findings"), `analyze_market_sentiment` and `explain_trade`. It also covers the CoinGecko HTTP session, the retry after HTTP 429 and the fear/greed fetch, `get_global_market_data`, the Binance client and the FastAPI layer. Each is an external call or glue code.
- Redis I/O is opaque. Its replies are arguments, and its writes change nothing visible in the model. A failed client call inside `get`/`set`/`delete` (logged, then None or a no-op) is not modelled separately.
- asyncio, the bucket lock and interleaving are not modelled. One sequential caller is modelled, with the clock as an argument. A sleep of `w` seconds advances the clock by `w + lag`, with `lag ≥ 0`.
- The priority argument of `RateLimiter.acquire` is only logged by the source, so its only effect here is that it is accepted. The `request_queues` that `_init_limiters` creates are never used by the source; the priority queue is modelled on its own.
- RateLimiter.TokenBucket.Acquire: requests are natural numbers, and the constructor requires a positive capacity and refill rate. Negative requests and a zero rate (a division by zero in the source) are not modelled; every configured bucket meets both conditions.
- The pandas kernels (rolling mean and std, `ewm`, RSI) are abstract function arguments, so their numeric values are not modelled.
- Float rounding is not modelled. Scores use exact integer arithmetic, and `round(x, 2)` and `round(x, 1)` are left out. The ",.0f" entry-zone strings keep their numbers, as the `EntryZone` datatype.
- `json.loads` and `json.dumps` are abstract. Decoding is a `decode` argument, and a serialisation failure is the `serializable` flag.
- Pydantic's lax coercions of other JSON kinds are not modelled: a numeric string or a boolean given as the confidence is rejected, where pydantic would accept it. An integral float such as 75.0 is accepted as 75, as pydantic does. JSON values outside the modelled kinds are `JOther`.
- Log calls and timestamps are not modelled. A `datetime` is seconds on a real-valued clock.
- `get_coin_data` is modelled only as far as its unknown-symbol guard and request path. The dictionary projected from the response is not modelled.
- Strings.Upper: upper-casing is ASCII-only. Python's `str.upper` also maps non-ASCII letters (ſ to S, ı to I, é to É) and changes the length for ß ("SS") and the ligatures; none of this is modelled.
- Strings.UpperFixed: "no lower-case letter" means no a–z, so a string holding ſ, ß or another non-ASCII lower-case letter is fixed here although Python's `upper` changes it.
- CoinGecko.GetCoinId: the lookup upper-cases ASCII only, so "ſui" finds nothing here, where Python upper-cases it to "SUI" and finds sui.
- CoinGecko.MoverOf: the output symbol is upper-cased ASCII-only, so a non-ASCII lower-case letter in a market symbol is kept as it is.
- ClaudeAnalyzer.FormatCoinList: a `symbol` or `change_24h` key that is present but null is not modelled. In Python a null change raises `TypeError` in the `+.2f` format and a null symbol prints "None"; here `None` stands for a missing key, which reads as "N/A" or 0. The one producer of these entries, `get_top_gainers_losers`, always sets both keys.
- CoinGecko.Sort: a `price_change_percentage_24h` that is present but null sorts as 0. In Python, comparing None raises instead. A market entry whose symbol is missing (an `AttributeError` on `.upper()`) is not modelled.
- CoinGecko.SortSorted: the insertion sort keeps equal keys in input order, as Python's stable sort does, but stability is not stated as a separate lemma.
- Settings.DefaultCoins: the `TRACKED_COINS` default is written as the comma-join of the 16 symbols rather than as one string literal, and the 16-symbol list is proved about that join.
- Loading settings from the environment or a `.env` file is not modelled; the settings functions take the field values as arguments.
- backend/data/models.py's `OnChainMetrics`, `CoinAnalysis`, `MarketOverview`, `MorningBrief` and `AlertConfig` are not used by the modelled code and are not part of this model.
