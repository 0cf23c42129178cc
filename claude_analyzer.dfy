/** The deterministic parts of the language-model analyzer
    (backend/ai_agent/claude_analyzer.py): pulling the JSON payload out of
    a reply that may wrap it in a Markdown code fence, the default record
    used when the payload does not decode, the field defaults and the
    error fallback of `analyze_coin`, and the coin-list formatter used in
    prompts. The model call itself is the `reply` argument and `json.loads`
    is the `decode` argument. */
module ClaudeAnalyzer {
  import opened Wrappers
  import opened Strings
  import opened Models

  // ---------------------------------------------------------------------
  // Fence extraction

  const JsonFence: string := "```json"
  const Fence: string := "```"

  /** The text from just after the first `opening` marker up to the next
      "```" (up to the last character but one when there is none). */
  function FencedBody(text: string, opening: string): string {
    var start := Find(text, opening, 0) + |opening|;
    var end := Find(text, Fence, start);
    PySlice(text, start, end)
  }

  /** The payload before stripping: inside a "```json" fence, else inside a
      plain fence, else the whole reply. */
  function RawPayload(text: string): string {
    if Contains(text, JsonFence) then FencedBody(text, JsonFence)
    else if Contains(text, Fence) then FencedBody(text, Fence)
    else text
  }

  /** The text `_parse_analysis_response` hands to `json.loads`. */
  function ExtractPayload(text: string): (r: string)
    ensures r == [] || (!IsSpace(r[0]) && !IsSpace(r[|r| - 1]))
  {
    Strip(RawPayload(text))
  }

  /** Without any fence the payload is the whole reply, stripped. */
  lemma Unfenced(text: string)
    requires !Contains(text, Fence)
    ensures ExtractPayload(text) == Strip(text)
  {
    if Contains(text, JsonFence) {
      var i := Find(text, JsonFence, 0);
      assert text[i..i + 3] == text[i..i + 7][..3] == Fence;
      assert OccursAt(text, Fence, i as nat);
      ContainsIff(text, Fence);
      assert false;
    }
  }

  /** A fence cannot start at a position holding no backtick. */
  lemma NoFenceWithoutBacktick(s: string, sub: string, i: nat)
    requires |sub| > 0 && sub[0] == '`' && i < |s| && s[i] != '`'
    ensures !OccursAt(s, sub, i)
  {
  }

  /** The reply contains "```json" exactly where the JSON fence is and holds no
      earlier backtick, so `find` locates that fence. */
  lemma FindOpening(pre: string, fence: string, rest: string)
    requires '`' !in pre && |fence| > 0 && fence[0] == '`'
    ensures Find(pre + fence + rest, fence, 0) == |pre|
  {
    var t := pre + fence + rest;
    assert t[|pre|..|pre| + |fence|] == fence;
    forall j | 0 <= j < |pre| ensures !OccursAt(t, fence, j) {
      assert t[j] == pre[j];
      NoFenceWithoutBacktick(t, fence, j);
    }
    FindFirst(t, fence, 0, |pre|);
  }

  /** A body without backticks followed by the closing fence: the next
      fence after `start` is the closing one. */
  lemma FindClosing(t: string, start: nat, body: string, post: string)
    requires '`' !in body
    requires start + |body| + 3 + |post| == |t|
    requires t[start..] == body + Fence + post
    ensures Find(t, Fence, start) == start + |body|
  {
    var c := start + |body|;
    assert t[c..c + 3] == (body + Fence + post)[|body|..|body| + 3];
    assert t[c..c + 3] == Fence;
    forall j | start <= j < c ensures !OccursAt(t, Fence, j) {
      assert t[j] == (body + Fence + post)[j - start] == body[j - start];
      NoFenceWithoutBacktick(t, Fence, j);
    }
    FindFirst(t, Fence, start, c);
  }

  /** Behind an opening marker that starts with a backtick and the first
      backtick of the reply, a backtick-free body runs up to the next fence. */
  lemma FencedBodyOf(pre: string, opening: string, body: string, post: string)
    requires '`' !in pre && '`' !in body && |opening| > 0 && opening[0] == '`'
    ensures var t := pre + opening + body + Fence + post;
      Contains(t, opening) && FencedBody(t, opening) == body
  {
    var rest := body + Fence + post;
    var t := pre + opening + rest;
    assert t == pre + opening + body + Fence + post;
    FindOpening(pre, opening, rest);
    var start := |pre| + |opening|;
    assert t[start..] == rest;
    FindClosing(t, start, body, post);
    FencedBodyAt(t, opening, start, start + |body|);
    assert t[start..start + |body|] == body;
  }

  /** The fenced body once both `find` results are known. */
  lemma FencedBodyAt(t: string, opening: string, start: nat, end: nat)
    requires start <= end <= |t|
    requires Find(t, opening, 0) + |opening| == start && Find(t, Fence, start) == end
    ensures FencedBody(t, opening) == t[start..end]
  {
  }

  /** A payload fenced as "```json" ... "```" is the stripped text between
      the fences. */
  lemma JsonFenced(pre: string, body: string, post: string)
    requires '`' !in pre && '`' !in body
    ensures ExtractPayload(pre + JsonFence + body + Fence + post) == Strip(body)
  {
    FencedBodyOf(pre, JsonFence, body, post);
  }

  /** A payload fenced as "```" ... "```" (with no "```json" anywhere) is the
      stripped text between the fences. */
  lemma PlainFenced(pre: string, body: string, post: string)
    requires '`' !in pre && '`' !in body
    requires !Contains(pre + Fence + body + Fence + post, JsonFence)
    ensures ExtractPayload(pre + Fence + body + Fence + post) == Strip(body)
  {
    FencedBodyOf(pre, Fence, body, post);
  }

  /** With the closing fence missing, `find` gives -1 and the slice ends one
      character early: the last character of the payload is lost. */
  lemma MissingClosingFence(pre: string, body: string)
    requires '`' !in pre && '`' !in body && |body| >= 1
    ensures ExtractPayload(pre + JsonFence + body) == Strip(body[..|body| - 1])
  {
    MissingClosingFenceRaw(pre, body);
  }

  lemma MissingClosingFenceRaw(pre: string, body: string)
    requires '`' !in pre && '`' !in body && |body| >= 1
    ensures RawPayload(pre + JsonFence + body) == body[..|body| - 1]
  {
    var t := pre + JsonFence + body;
    FindOpening(pre, JsonFence, body);
    var start := |pre| + 7;
    NoClosingFence(t, start, body);
    assert t[start..|t| - 1] == body[..|body| - 1];
  }

  /** The plain-fence branch loses the last character the same way when
      its closing fence is missing. */
  lemma MissingPlainClosingFence(pre: string, body: string)
    requires '`' !in pre && '`' !in body && |body| >= 1
    requires !Contains(pre + Fence + body, JsonFence)
    ensures ExtractPayload(pre + Fence + body) == Strip(body[..|body| - 1])
  {
    MissingPlainClosingFenceRaw(pre, body);
  }

  lemma MissingPlainClosingFenceRaw(pre: string, body: string)
    requires '`' !in pre && '`' !in body && |body| >= 1
    requires !Contains(pre + Fence + body, JsonFence)
    ensures RawPayload(pre + Fence + body) == body[..|body| - 1]
  {
    var t := pre + Fence + body;
    FindOpening(pre, Fence, body);
    assert Contains(t, Fence);
    assert RawPayload(t) == FencedBody(t, Fence);
    var start := |pre| + 3;
    assert t[start..] == body;
    NoClosingFence(t, start, body);
    assert FencedBody(t, Fence) == PySlice(t, start, -1);
    var cut := t[start..|t| - 1];
    assert |cut| == |body| - 1;
    forall i | 0 <= i < |cut| ensures cut[i] == body[i] {
      assert cut[i] == t[start + i] == t[start..][i];
    }
    assert cut == body[..|body| - 1];
  }

  /** No fence starts inside a backtick-free tail. */
  lemma NoClosingFence(t: string, start: nat, body: string)
    requires start + |body| == |t| && t[start..] == body && '`' !in body
    ensures Find(t, Fence, start) == -1
  {
    forall j | start <= j ensures !OccursAt(t, Fence, j) {
      if j < |t| {
        assert t[j] == body[j - start];
        NoFenceWithoutBacktick(t, Fence, j);
      }
    }
  }

  // ---------------------------------------------------------------------
  // Decoding and the analysis record

  /** A JSON value, as far as the analyzer distinguishes them. */
  datatype JsonValue =
    | JString(s: string)
    | JNumber(x: real)
    | JStrings(items: seq<string>)
    | JNull
    | JOther

  /** What `json.loads` produced: a decode failure, a non-object value
      (whose `.get` then raises), or an object. */
  datatype Decoded = DecodeError | NotObject | Object(fields: map<string, JsonValue>)

  /** The dictionary `_parse_analysis_response` returns on a decode error. */
  const ParseDefault: map<string, JsonValue> := map[
    "rating" := JString("HOLD"),
    "confidence" := JNumber(0.0),
    "timeframe" := JString("SWING"),
    "reasoning" := JString("Failed to parse analysis response"),
    "key_factors" := JStrings([]),
    "risks" := JStrings(["Analysis parsing failed"])]

  /** `_parse_analysis_response`: the decoded payload, with the default
      dictionary in place of a decode error. */
  function ParseAnalysisResponse(text: string, decode: string -> Decoded): (r: Decoded)
    ensures decode(ExtractPayload(text)) == DecodeError ==> r == Object(ParseDefault)
    ensures decode(ExtractPayload(text)) != DecodeError ==> r == decode(ExtractPayload(text))
  {
    var d := decode(ExtractPayload(text));
    if d == DecodeError then Object(ParseDefault) else d
  }

  /** A field read with `dict.get(key, default)` and checked into its
      pydantic type; None is a validation error. */
  function RatingField(f: map<string, JsonValue>): Option<SignalType> {
    if "rating" !in f then Some(Hold)
    else match f["rating"]
      case JString(s) => ParseSignalType(s)
      case _ => None
  }

  function TimeframeField(f: map<string, JsonValue>): Option<Timeframe> {
    if "timeframe" !in f then Some(Swing)
    else match f["timeframe"]
      case JString(s) => ParseTimeframe(s)
      case _ => None
  }

  /** An integral number in [0, 100]; an integral float such as 75.0 is
      accepted as the integer it equals. */
  function ConfidenceField(f: map<string, JsonValue>): (r: Option<Percent>)
    ensures "confidence" !in f ==> r == Some(50)
    ensures "confidence" in f && !f["confidence"].JNumber? ==> r == None
    ensures "confidence" in f && f["confidence"].JNumber? ==>
              (r.Some? <==> f["confidence"].x == f["confidence"].x.Floor as real
                            && 0.0 <= f["confidence"].x <= 100.0)
              && (r.Some? ==> r.value as real == f["confidence"].x)
  {
    if "confidence" !in f then Some(50)
    else match f["confidence"]
      case JNumber(x) =>
        if x == x.Floor as real && 0 <= x.Floor <= 100 then Some(x.Floor) else None
      case _ => None
  }

  /** An optional number: missing or null is None. The outer Option is
      validation success. */
  function OptionalNumber(f: map<string, JsonValue>, key: string): Option<Option<real>> {
    if key !in f then Some(None)
    else match f[key]
      case JNull => Some(None)
      case JNumber(x) => Some(Some(x))
      case _ => None
  }

  function TextField(f: map<string, JsonValue>, key: string, default: string): Option<string> {
    if key !in f then Some(default)
    else match f[key]
      case JString(s) => Some(s)
      case _ => None
  }

  function ListField(f: map<string, JsonValue>, key: string): Option<seq<string>> {
    if key !in f then Some([])
    else match f[key]
      case JStrings(xs) => Some(xs)
      case _ => None
  }

  /** The record `analyze_coin` builds from a decoded object, or None when a
      field fails its enum or range check. */
  function AnalysisFromFields(coin: string, f: map<string, JsonValue>): (r: Option<AIAnalysis>)
    ensures r.Some? ==> r.value.coin == coin
    ensures r.Some? && "rating" !in f ==> r.value.rating == Hold
    ensures r.Some? && "confidence" !in f ==> r.value.confidence == 50
    ensures r.Some? && "timeframe" !in f ==> r.value.timeframe == Swing
  {
    var rating := RatingField(f);
    var confidence := ConfidenceField(f);
    var timeframe := TimeframeField(f);
    var low := OptionalNumber(f, "entry_zone_low");
    var high := OptionalNumber(f, "entry_zone_high");
    var conservative := OptionalNumber(f, "target_conservative");
    var aggressive := OptionalNumber(f, "target_aggressive");
    var stop := OptionalNumber(f, "stop_loss");
    var rr := OptionalNumber(f, "risk_reward_ratio");
    var reasoning := TextField(f, "reasoning", "Analysis completed");
    var factors := ListField(f, "key_factors");
    var risks := ListField(f, "risks");
    var size := OptionalNumber(f, "position_size_pct");
    if rating.None? || confidence.None? || timeframe.None? || low.None? || high.None?
       || conservative.None? || aggressive.None? || stop.None? || rr.None? || reasoning.None?
       || factors.None? || risks.None? || size.None?
    then None
    else Some(AIAnalysis(coin, rating.value, confidence.value, timeframe.value, low.value, high.value,
                         conservative.value, aggressive.value, stop.value, rr.value, reasoning.value,
                         factors.value, risks.value, size.value))
  }

  /** The record returned when anything in `analyze_coin` raises. */
  function ErrorAnalysis(coin: string, errorText: string): (r: AIAnalysis)
    ensures r.rating == Hold && r.confidence == 0 && r.timeframe == Swing
    ensures r.reasoning == "Analysis error: " + errorText
    ensures r.keyFactors == [] && r.risks == ["Unable to analyze due to error"]
    ensures r.entryZoneLow.None? && r.entryZoneHigh.None? && r.stopLoss.None?
  {
    AIAnalysis(coin, Hold, 0, Swing, None, None, None, None, None, None,
               "Analysis error: " + errorText, [], ["Unable to analyze due to error"], None)
  }

  /** The record `analyze_coin` makes of a parsed payload: the fields of
      an object when they validate, else the error fallback. */
  function AnalysisOfParsed(coin: string, parsed: Decoded, errorText: string): (r: AIAnalysis)
    ensures r.coin == coin
    ensures !parsed.Object? ==> r == ErrorAnalysis(coin, errorText)
  {
    match parsed
    case Object(f) =>
      var a := AnalysisFromFields(coin, f);
      if a.Some? then a.value else ErrorAnalysis(coin, errorText)
    case _ => ErrorAnalysis(coin, errorText)
  }

  /** `analyze_coin`. `reply` is the model's text, None when anything in
      the `try` raises before it is read: building the prompt, the call, or
      reading its content. `errorText` is the message of that exception. */
  function AnalyzeCoin(coin: string, reply: Option<string>, decode: string -> Decoded,
                       errorText: string): (r: AIAnalysis)
    ensures r.coin == coin
    ensures reply.None? ==> r == ErrorAnalysis(coin, errorText)
    ensures reply.Some? && ParseAnalysisResponse(reply.value, decode).NotObject? ==>
              r == ErrorAnalysis(coin, errorText)
  {
    if reply.None? then ErrorAnalysis(coin, errorText)
    else AnalysisOfParsed(coin, ParseAnalysisResponse(reply.value, decode), errorText)
  }

  /** The parse default's keys: six present, the optional numbers absent. */
  lemma ParseDefaultKeys()
    ensures "entry_zone_low" !in ParseDefault && "entry_zone_high" !in ParseDefault
    ensures "target_conservative" !in ParseDefault && "target_aggressive" !in ParseDefault
    ensures "stop_loss" !in ParseDefault && "risk_reward_ratio" !in ParseDefault
    ensures "position_size_pct" !in ParseDefault
    ensures RatingField(ParseDefault) == Some(Hold)
    ensures ConfidenceField(ParseDefault) == Some(0)
    ensures TimeframeField(ParseDefault) == Some(Swing)
  {
  }

  /** The parse default's text and list fields. */
  lemma ParseDefaultTexts()
    ensures TextField(ParseDefault, "reasoning", "Analysis completed") == Some("Failed to parse analysis response")
    ensures ListField(ParseDefault, "key_factors") == Some([])
    ensures ListField(ParseDefault, "risks") == Some(["Analysis parsing failed"])
  {
  }

  /** The parse default validates into HOLD, confidence 0, SWING, no key
      factors, one risk naming the parse failure. */
  lemma ParseDefaultAnalysis(coin: string, errorText: string)
    ensures var r := AnalysisOfParsed(coin, Object(ParseDefault), errorText);
      && r.rating == Hold && r.confidence == 0 && r.timeframe == Swing
      && r.reasoning == "Failed to parse analysis response"
      && r.keyFactors == [] && r.risks == ["Analysis parsing failed"]
      && r.entryZoneLow.None? && r.positionSizePct.None?
  {
    ParseDefaultKeys();
    ParseDefaultTexts();
  }

  /** An undecodable reply yields the parse default's record. */
  lemma UndecodableReply(coin: string, text: string, decode: string -> Decoded, errorText: string)
    requires decode(ExtractPayload(text)) == DecodeError
    ensures var r := AnalyzeCoin(coin, Some(text), decode, errorText);
      && r.rating == Hold && r.confidence == 0 && r.timeframe == Swing
      && r.reasoning == "Failed to parse analysis response"
      && r.keyFactors == [] && r.risks == ["Analysis parsing failed"]
      && r.entryZoneLow.None? && r.positionSizePct.None?
  {
    assert ParseAnalysisResponse(text, decode) == Object(ParseDefault);
    ParseDefaultAnalysis(coin, errorText);
  }

  /** An empty object is filled in with the defaults HOLD, 50 and SWING. */
  lemma EmptyObjectAnalysis(coin: string, errorText: string)
    ensures var r := AnalysisOfParsed(coin, Object(map[]), errorText);
      && r.rating == Hold && r.confidence == 50 && r.timeframe == Swing
      && r.reasoning == "Analysis completed" && r.keyFactors == [] && r.risks == []
      && r.entryZoneLow.None? && r.entryZoneHigh.None? && r.stopLoss.None?
  {
  }

  /** A reply decoding to an empty object gets those defaults. */
  lemma EmptyObjectDefaults(coin: string, text: string, decode: string -> Decoded, errorText: string)
    requires decode(ExtractPayload(text)) == Object(map[])
    ensures AnalyzeCoin(coin, Some(text), decode, errorText) == AnalysisOfParsed(coin, Object(map[]), errorText)
  {
    assert ParseAnalysisResponse(text, decode) == Object(map[]);
  }

  /** An unknown rating or a confidence outside [0, 100] sends the whole
      analysis to the error fallback. */
  lemma InvalidFieldFallsBack(coin: string, text: string, decode: string -> Decoded, errorText: string,
                              f: map<string, JsonValue>)
    requires decode(ExtractPayload(text)) == Object(f)
    requires ("rating" in f && f["rating"].JString? && ParseSignalType(f["rating"].s).None?)
             || ("confidence" in f && f["confidence"].JNumber? && f["confidence"].x > 100.0)
    ensures AnalyzeCoin(coin, Some(text), decode, errorText) == ErrorAnalysis(coin, errorText)
  {
    assert ParseAnalysisResponse(text, decode) == Object(f);
    InvalidFieldRejected(coin, f);
  }

  lemma InvalidFieldRejected(coin: string, f: map<string, JsonValue>)
    requires ("rating" in f && f["rating"].JString? && ParseSignalType(f["rating"].s).None?)
             || ("confidence" in f && f["confidence"].JNumber? && f["confidence"].x > 100.0)
    ensures AnalysisFromFields(coin, f).None?
  {
    if "rating" in f && f["rating"].JString? && ParseSignalType(f["rating"].s).None? {
      assert RatingField(f).None?;
    } else {
      assert ConfidenceField(f).None?;
    }
  }

  // ---------------------------------------------------------------------
  // Coin list formatting

  /** The two keys of a mover entry the formatter reads. */
  datatype CoinEntry = CoinEntry(symbol: Option<string>, change24h: Option<real>)

  /** One prompt line; `fmt` renders a change with sign and two decimals. */
  function CoinLine(c: CoinEntry, fmt: real -> string): string {
    "  - " + c.symbol.GetOr("N/A") + ": " + fmt(c.change24h.GetOr(0.0)) + "%"
  }

  function CoinLines(coins: seq<CoinEntry>, fmt: real -> string): (r: seq<string>)
    ensures |r| == |coins|
    ensures forall i :: 0 <= i < |coins| ==> r[i] == CoinLine(coins[i], fmt)
  {
    seq(|coins|, i requires 0 <= i < |coins| => CoinLine(coins[i], fmt))
  }

  /** `_format_coin_list`: "None" for no coins, else one line per coin for
      the first five, joined by newlines. */
  function FormatCoinList(coins: seq<CoinEntry>, fmt: real -> string): (r: string)
    ensures coins == [] ==> r == "None"
  {
    if coins == [] then "None" else Join(CoinLines(Take(coins, 5), fmt), "\n")
  }

  /** When no symbol or rendered number holds a newline, the text splits
      back into exactly one line per listed coin, at most five, in order. */
  lemma FormatCoinListLines(coins: seq<CoinEntry>, fmt: real -> string)
    requires coins != []
    requires forall i :: 0 <= i < |coins| ==> '\n' !in CoinLine(coins[i], fmt)
    ensures var lines := Split(FormatCoinList(coins, fmt), '\n');
      && |lines| == (if |coins| < 5 then |coins| else 5)
      && forall i :: 0 <= i < |lines| ==> lines[i] == CoinLine(coins[i], fmt)
  {
    var shown := CoinLines(Take(coins, 5), fmt);
    SplitJoin(shown, '\n');
  }

  // ---------------------------------------------------------------------
  // Prompt formatting: the EMA lines

  predicate IsAlign(c: char) {
    c == '<' || c == '>' || c == '=' || c == '^'
  }

  /** The position after an optional character from `cs` at `i`. */
  function SkipOne(s: string, i: nat, cs: string): (j: nat)
    requires i <= |s|
    ensures j <= |s|
    ensures j == i || (j == i + 1 && s[i] in cs)
  {
    if i < |s| && s[i] in cs then i + 1 else i
  }

  /** The position after the run of digits starting at `i`. */
  function SkipDigits(s: string, i: nat): (j: nat)
    requires i <= |s|
    ensures i <= j <= |s|
    ensures forall n :: i <= n < j ==> '0' <= s[n] <= '9'
    ensures j == |s| || !('0' <= s[j] <= '9')
    decreases |s| - i
  {
    if i < |s| && '0' <= s[i] <= '9' then SkipDigits(s, i + 1) else i
  }

  /** Python's format-spec grammar for a float,
      `[[fill]align][sign][z][#][0][width][grouping][.precision][type]`,
      read left to right as `float.__format__` reads it: the spec is valid
      when every character is consumed, a '.' is followed by at least one
      digit, and the type, if any, is a float presentation type. */
  predicate FloatSpecValid(spec: string) {
    var i0 := if |spec| >= 2 && IsAlign(spec[1]) then 2 else if |spec| >= 1 && IsAlign(spec[0]) then 1 else 0;
    var i1 := SkipOne(spec, i0, "+- ");
    var i2 := SkipOne(spec, i1, "z");
    var i3 := SkipOne(spec, i2, "#");
    var i4 := SkipOne(spec, i3, "0");
    var i5 := SkipDigits(spec, i4);
    var i6 := SkipOne(spec, i5, ",_");
    var precision := i6 < |spec| && spec[i6] == '.';
    var i7 := if precision then SkipDigits(spec, i6 + 1) else i6;
    (!precision || i7 > i6 + 1) && SkipOne(spec, i7, "eEfFgGn%") == |spec|
  }

  /** `format(x, spec)` for an optional float, None when it raises: `None`
      only takes the empty spec (a `TypeError` otherwise), a float needs a
      valid spec (a `ValueError` otherwise). `render` gives the text of a
      float under a valid spec. */
  function FormatField(x: Option<real>, spec: string, render: (real, string) -> string): (r: Option<string>)
    ensures r.Some? <==> (x.None? && spec == []) || (x.Some? && FloatSpecValid(spec))
    ensures x.Some? && r.Some? ==> r.value == render(x.value, spec)
  {
    match x
    case None => if spec == [] then Some("None") else None
    case Some(v) => if FloatSpecValid(spec) then Some(render(v, spec)) else None
  }

  /** ",.2f" (two decimals with thousands grouping) is a valid float
      spec, and any text after it leaves the spec unconsumed, so invalid. */
  lemma GroupedTwoDecimals(rest: string)
    ensures FloatSpecValid(",.2f" + rest) <==> rest == []
  {
    var spec := ",.2f" + rest;
    assert spec[0] == ',' && spec[1] == '.' && spec[2] == '2' && spec[3] == 'f';
    assert SkipDigits(spec, 2) == 3 by {
      assert SkipDigits(spec, 3) == 3;
    }
  }

  /** The spec of an EMA line as written: the conditional that was meant to
      choose between the number and 'N/A' sits inside the braces, after the
      colon, so all of it is the format spec of `technical.<field>`. */
  function EmaSpecAsWritten(field: string): (spec: string)
    ensures |spec| > 4 && spec[..4] == ",.2f"
  {
    ",.2f" + (" if technical." + field + " else 'N/A'")
  }

  /** An EMA line's value as written (claude_analyzer.py:143-145). */
  function EmaFieldAsWritten(ema: Option<real>, field: string, render: (real, string) -> string): Option<string> {
    FormatField(ema, EmaSpecAsWritten(field), render)
  }

  /** As written, the EMA lines raise for every value: a float rejects the
      spec and `None` rejects any spec. So building the coin prompt always
      raises. */
  lemma EmaFieldAlwaysRaises(ema: Option<real>, field: string, render: (real, string) -> string)
    ensures EmaFieldAsWritten(ema, field, render).None?
  {
    var rest := " if technical." + field + " else 'N/A'";
    assert EmaSpecAsWritten(field) == ",.2f" + rest;
    GroupedTwoDecimals(rest);
  }

  /** The evidently intended EMA line value: two decimals with grouping for
      a truthy EMA, else "N/A"; it never raises. */
  function EmaField(ema: Option<real>, render: (real, string) -> string): (r: Option<string>)
    ensures r.Some?
    ensures Truthy(ema) ==> r.value == render(ema.value, ",.2f")
    ensures !Truthy(ema) ==> r.value == "N/A"
  {
    if Truthy(ema) then
      GroupedTwoDecimals([]);
      assert ",.2f" + [] == ",.2f";
      FormatField(ema, ",.2f", render)
    else Some("N/A")
  }
}
