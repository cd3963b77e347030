/** The `POST /api/quality-check` handler: guards that each fall back to a
    degraded report, the analysis prompt, one call to the model, extraction
    of the JSON object from its reply, and normalization of that object into
    a report with nine fixed keys. Every outcome is an HTTP 200 reply. */
module QualityChecker {
  import opened Wrappers
  import opened JsStrings
  import opened JsValues
  import opened Gemini

  /** The longest email, in UTF-16 code units, the handler analyses. */
  const MaxEmailLength := 6000

  /** The reply body. `score` is always a number; every other field holds
      whatever JSON value the normalizer kept, not necessarily a string. */
  datatype Report = Report(
    score: int,
    severity: JsonValue,
    summary: JsonValue,
    grammar: JsonValue,
    clarity: JsonValue,
    tone: JsonValue,
    risk: JsonValue,
    suggestions: JsonValue,
    improvedEmail: JsonValue)

  /** An HTTP reply: status code and report. */
  datatype QcResponse = QcResponse(status: int, body: Report)

  // ---------------------------------------------------------------------
  // Severity

  /** Severity derived from a score: 80 and above is "Low", 60 to 79 is
      "Medium", anything lower is "High". */
  function DeriveSeverity(score: int): (s: string)
    ensures s == "Low" <==> score >= 80
    ensures s == "Medium" <==> 60 <= score < 80
    ensures s == "High" <==> score < 60
  {
    if score >= 80 then "Low" else if score >= 60 then "Medium" else "High"
  }

  /** 0 for "Low", 1 for "Medium", 2 for "High". */
  function SeverityRank(s: string): nat {
    if s == "Low" then 0 else if s == "Medium" then 1 else 2
  }

  /** A higher score never gives a more severe derived severity. */
  lemma DeriveSeverityMonotone(a: int, b: int)
    requires a <= b
    ensures SeverityRank(DeriveSeverity(b)) <= SeverityRank(DeriveSeverity(a))
  {
  }

  // ---------------------------------------------------------------------
  // Fallback report

  const SummaryPrefix: string := "Unable to analyze email ("
  const SummarySuffix: string := ")."

  /** `fallbackReport(reason)`: the degraded report, carrying `reason` in
      its summary. */
  function FallbackReport(reason: string): (r: Report)
    ensures r.score == 0 && r.severity == JString(DeriveSeverity(r.score))
    ensures SummaryReason(r.summary) == Some(reason)
  {
    var summary := SummaryPrefix + reason + SummarySuffix;
    assert summary[..|SummaryPrefix|] == SummaryPrefix;
    assert summary[|summary| - |SummarySuffix|..] == SummarySuffix;
    assert summary[|SummaryPrefix|..|summary| - |SummarySuffix|] == reason;
    Report(0, JString("High"), JString(summary), JString("N/A"), JString("N/A"),
      JString("N/A"), JString("N/A"), JString(""), JString(""))
  }

  /** The reason a fallback summary carries, if `v` has that form. */
  function SummaryReason(v: JsonValue): Option<string> {
    if v.JString? && |v.s| >= |SummaryPrefix| + |SummarySuffix|
      && v.s[..|SummaryPrefix|] == SummaryPrefix
      && v.s[|v.s| - |SummarySuffix|..] == SummarySuffix
    then Some(v.s[|SummaryPrefix|..|v.s| - |SummarySuffix|])
    else None
  }

  /** Different reasons give different fallback reports. */
  lemma FallbackReportInjective(a: string, b: string)
    requires FallbackReport(a) == FallbackReport(b)
    ensures a == b
  {
    assert SummaryReason(FallbackReport(a).summary) == Some(a);
    assert SummaryReason(FallbackReport(b).summary) == Some(b);
  }

  // ---------------------------------------------------------------------
  // Extracting the JSON object from the model's reply

  /** The index of the first occurrence of `c`. */
  function FirstIndexOf(s: string, c: char): (r: Option<nat>)
    ensures r.Some? ==> r.value < |s| && s[r.value] == c && c !in s[..r.value]
    ensures r.None? ==> c !in s
  {
    if s == [] then None
    else if s[0] == c then Some(0)
    else match FirstIndexOf(s[1..], c)
      case None => None
      case Some(i) =>
        assert s[..i + 1] == [s[0]] + s[1..][..i];
        Some(i + 1)
  }

  /** The index of the last occurrence of `c`. */
  function LastIndexOf(s: string, c: char): (r: Option<nat>)
    ensures r.Some? ==> r.value < |s| && s[r.value] == c && c !in s[r.value + 1..]
    ensures r.None? ==> c !in s
  {
    if s == [] then None
    else if s[|s| - 1] == c then Some(|s| - 1)
    else
      var r := LastIndexOf(s[..|s| - 1], c);
      assert r.Some? ==> s[r.value + 1..] == s[..|s| - 1][r.value + 1..] + [s[|s| - 1]];
      assert r.None? ==> s == s[..|s| - 1] + [s[|s| - 1]];
      r
  }

  /** `rawText.match(/\{[\s\S]*\}/)`: the text from the first `{` through
      the last `}`, when that `}` comes after that `{`. */
  function ExtractBraces(s: string): (r: Option<string>)
    ensures r.Some? ==> |r.value| >= 2 && r.value[0] == '{' && r.value[|r.value| - 1] == '}'
  {
    match (FirstIndexOf(s, '{'), LastIndexOf(s, '}'))
    case (Some(i), Some(j)) => if i < j then Some(s[i..j + 1]) else None
    case _ => None
  }

  /** `s` has a `{` somewhere before a `}`. */
  predicate HasBracePair(s: string) {
    exists i, j :: 0 <= i < j < |s| && s[i] == '{' && s[j] == '}'
  }

  /** `s[i..j + 1]` runs from the first `{` of `s` to its last `}`. */
  predicate IsGreedySpan(s: string, i: int, j: int) {
    0 <= i < j < |s| && s[i] == '{' && s[j] == '}' && '{' !in s[..i] && '}' !in s[j + 1..]
  }

  /** Extraction succeeds exactly when some `{` precedes some `}`, and then
      yields the greedy span, from the first `{` to the last `}`. */
  lemma ExtractBracesSpec(s: string)
    ensures ExtractBraces(s).Some? <==> HasBracePair(s)
    ensures ExtractBraces(s).Some? ==>
      exists i, j :: IsGreedySpan(s, i, j) && ExtractBraces(s).value == s[i..j + 1]
  {
    var fi, lj := FirstIndexOf(s, '{'), LastIndexOf(s, '}');
    if HasBracePair(s) {
      var i0, j0 :| 0 <= i0 < j0 < |s| && s[i0] == '{' && s[j0] == '}';
      assert fi.Some? by { assert s[i0] in s; }
      assert lj.Some? by { assert s[j0] in s; }
      assert fi.value <= i0;
      assert lj.value >= j0;
      assert IsGreedySpan(s, fi.value, lj.value);
    } else if fi.Some? && lj.Some? {
      assert !(fi.value < lj.value);
    }
  }

  /** Prose before the object (without `{`) and after it (without `}`) is
      discarded; braces inside the object are kept. */
  lemma ExtractIgnoresSurroundingProse(pre: string, body: string, post: string)
    requires '{' !in pre && '}' !in post
    requires |body| >= 2 && body[0] == '{' && body[|body| - 1] == '}'
    ensures ExtractBraces(pre + body + post) == Some(body)
  {
    var s := pre + body + post;
    var i, j := |pre|, |pre| + |body| - 1;
    assert s[i] == '{' && s[j] == '}';
    var fi, lj := FirstIndexOf(s, '{'), LastIndexOf(s, '}');
    assert fi.Some? by { assert s[i] in s; }
    assert lj.Some? by { assert s[j] in s; }
    assert fi.value == i;
    assert lj.value == j;
    assert s[i..j + 1] == body;
  }

  // ---------------------------------------------------------------------
  // Normalization

  /** `checkType` after its destructuring default: "normal" when absent. */
  function CheckTypeOrDefault(checkType: Option<JsonValue>): (v: JsonValue)
    ensures checkType.None? ==> v == JString("normal")
    ensures checkType.Some? ==> v == checkType.value
  {
    checkType.GetOr(JString("normal"))
  }

  /** `checkType === "advanced"`: strict equality with that exact string. */
  predicate IsAdvanced(checkType: Option<JsonValue>) {
    CheckTypeOrDefault(checkType) == JString("advanced")
  }

  /** `v` is `parsed[key]` when that is truthy and `default` otherwise. */
  predicate KeptOrDefault(parsed: map<string, JsonValue>, key: string, default: JsonValue, v: JsonValue) {
    if key in parsed && Truthy(parsed[key]) then v == parsed[key] else v == default
  }

  /** `Number(parsed.score) || 0`, the score line of the normalizer, is
      this integer: the number `Number` gives, with NaN giving 0. */
  predicate IsScoreOf(parsed: map<string, JsonValue>, score: int) {
    var n := ToNumberOpt(Field(parsed, "score"));
    n == Num(score) || (n.NaN? && score == 0)
  }

  /** The normalized report built from the parsed reply, or `None` when
      coercing the score throws (a score that is an object with its own
      `toString` key, or an array holding one). The score is the field
      coerced by `Number`, with NaN and absence giving 0, and is not
      clamped. A truthy severity, of any value, is kept; otherwise it is
      derived from the score. Falsy text fields get fixed defaults.
      `improvedEmail` is empty unless `checkType` is exactly "advanced". */
  function Normalize(parsed: map<string, JsonValue>, checkType: Option<JsonValue>): (r: Option<Report>)
    ensures r.None? <==> Field(parsed, "score").Some? && ToPrimitiveThrows(parsed["score"])
    ensures r.Some? ==> IsScoreOf(parsed, r.value.score)
    ensures r.Some? ==> KeptOrDefault(parsed, "severity", JString(DeriveSeverity(r.value.score)), r.value.severity)
    ensures r.Some? ==> KeptOrDefault(parsed, "summary", JString("No summary provided."), r.value.summary)
    ensures r.Some? ==> KeptOrDefault(parsed, "grammar", JString("N/A"), r.value.grammar)
    ensures r.Some? ==> KeptOrDefault(parsed, "clarity", JString("N/A"), r.value.clarity)
    ensures r.Some? ==> KeptOrDefault(parsed, "tone", JString("N/A"), r.value.tone)
    ensures r.Some? ==> KeptOrDefault(parsed, "risk", JString("N/A"), r.value.risk)
    ensures r.Some? ==> KeptOrDefault(parsed, "suggestions", JString(""), r.value.suggestions)
    ensures r.Some? && IsAdvanced(checkType) ==>
      KeptOrDefault(parsed, "improvedEmail", JString(""), r.value.improvedEmail)
    ensures r.Some? && !IsAdvanced(checkType) ==> r.value.improvedEmail == JString("")
  {
    var n := ToNumberOpt(Field(parsed, "score"));
    if n.TypeError? then None
    else
      var score := if n.Num? && n.n != 0 then n.n else 0;
      Some(Report(
        score,
        Or(Field(parsed, "severity"), JString(DeriveSeverity(score))),
        Or(Field(parsed, "summary"), JString("No summary provided.")),
        Or(Field(parsed, "grammar"), JString("N/A")),
        Or(Field(parsed, "clarity"), JString("N/A")),
        Or(Field(parsed, "tone"), JString("N/A")),
        Or(Field(parsed, "risk"), JString("N/A")),
        Or(Field(parsed, "suggestions"), JString("")),
        if CheckTypeOrDefault(checkType) == JString("advanced") then Or(Field(parsed, "improvedEmail"), JString(""))
        else JString("")))
  }

  /** The JSON object `res.json` sends for a report: exactly the nine keys. */
  function ReportObject(r: Report): (m: map<string, JsonValue>)
    ensures m.Keys == {"score", "severity", "summary", "grammar", "clarity", "tone", "risk", "suggestions", "improvedEmail"}
    ensures m["score"] == JNumber(r.score) && m["severity"] == r.severity && m["summary"] == r.summary
    ensures m["grammar"] == r.grammar && m["clarity"] == r.clarity && m["tone"] == r.tone
    ensures m["risk"] == r.risk && m["suggestions"] == r.suggestions && m["improvedEmail"] == r.improvedEmail
  {
    map[
      "score" := JNumber(r.score),
      "severity" := r.severity,
      "summary" := r.summary,
      "grammar" := r.grammar,
      "clarity" := r.clarity,
      "tone" := r.tone,
      "risk" := r.risk,
      "suggestions" := r.suggestions,
      "improvedEmail" := r.improvedEmail]
  }

  /** Normalizing is idempotent: the JSON of a normalized report, fed back
      through the normalizer with the same `checkType`, gives the same report. */
  lemma NormalizeIdempotent(parsed: map<string, JsonValue>, checkType: Option<JsonValue>)
    ensures Normalize(parsed, checkType).Some? ==> IsNormalized(Normalize(parsed, checkType).value, checkType)
  {
    if Normalize(parsed, checkType).Some? {
      var r := Normalize(parsed, checkType).value;
      var r2 := Normalize(ReportObject(r), checkType);
      assert r2.Some? && r2.value.score == r.score;
      assert Truthy(r.severity);
    }
  }

  /** The fallback report is the normalization of an empty object, except
      for its summary. */
  lemma FallbackMatchesEmptyParse(reason: string, checkType: Option<JsonValue>)
    ensures Normalize(map[], checkType) == Some(FallbackReport(reason).(summary := JString("No summary provided.")))
  {
  }

  /** A fallback report is left unchanged by the normalizer, for any `checkType`. */
  lemma FallbackIsNormalized(reason: string, checkType: Option<JsonValue>)
    ensures IsNormalized(FallbackReport(reason), checkType)
  {
    var r := FallbackReport(reason);
    assert Truthy(r.summary);
  }

  // ---------------------------------------------------------------------
  // The analysis prompt

  /** The first line of the analysis prompt. The schema and rule lines that
      follow the mode line in the source are fixed prose and are not
      reproduced. */
  const QualityOpening: string := "You are an Email Quality Assurance system."

  /** The text between the mode and the email. */
  const QualityEmailHeading: string := "\n\nEMAIL:\n\"\"\""

  /** The prompt sent to the model: the mode (`checkType` after its default,
      as a template literal renders it) on the `Checking Mode:` line, and the
      email verbatim between triple quotes. `None` when rendering the mode
      throws. */
  function BuildQualityPrompt(checkType: Option<JsonValue>, email: string): (r: Option<string>)
    ensures r.None? <==> ToPrimitiveThrows(CheckTypeOrDefault(checkType))
    ensures r.Some? ==>
      r.value == QualityOpening + "\n\nChecking Mode: " + JsToString(CheckTypeOrDefault(checkType)).value
                 + QualityEmailHeading + email + "\"\"\""
  {
    match JsToString(CheckTypeOrDefault(checkType))
    case None => None
    case Some(mode) =>
      var body := QualityOpening + "\n\nChecking Mode: " + mode + QualityEmailHeading + email + "\"\"\"";
      assert body[0] == QualityOpening[0] == 'Y';
      assert body[|body| - 1] == '"';
      TrimNewlineWrapped(body);
      Some(Trim("\n" + body + "\n"))
  }

  /** Two emails under the same renderable mode build the same prompt only
      if they are equal. */
  lemma BuildQualityPromptInjective(checkType: Option<JsonValue>, e1: string, e2: string)
    requires BuildQualityPrompt(checkType, e1).Some?
    requires BuildQualityPrompt(checkType, e1) == BuildQualityPrompt(checkType, e2)
    ensures e1 == e2
  {
    InfixDetermined(QualityOpening + "\n\nChecking Mode: " + JsToString(CheckTypeOrDefault(checkType)).value
      + QualityEmailHeading, e1, e2, "\"\"\"");
  }

  // ---------------------------------------------------------------------
  // The handler

  /** What the handler does with the model's outcome once the prompt is
      sent: a throw gives "Unexpected error"; a reply without a brace match
      or whose match does not parse gives "AI response issue"; a parsed
      object is normalized, and a score that cannot be coerced gives
      "Unexpected error". Any other report is the normalization of an
      object the model wrote. */
  function AnalyzeReply(reply: AiOutcome, checkType: Option<JsonValue>,
    parse: string -> Option<map<string, JsonValue>>): (r: Report)
    ensures reply.Threw? ==> r == FallbackReport("Unexpected error")
    ensures reply.Replied? && ExtractBraces(reply.text).None? ==> r == FallbackReport("AI response issue")
    ensures reply.Replied? && ExtractBraces(reply.text).Some? ==>
      match parse(ExtractBraces(reply.text).value)
      case None => r == FallbackReport("AI response issue")
      case Some(obj) =>
        match Normalize(obj, checkType)
        case None => r == FallbackReport("Unexpected error")
        case Some(report) => r == report
    ensures r != FallbackReport("Unexpected error") && r != FallbackReport("AI response issue") ==>
      && reply.Replied? && ExtractBraces(reply.text).Some?
      && parse(ExtractBraces(reply.text).value).Some?
      && Normalize(parse(ExtractBraces(reply.text).value).value, checkType) == Some(r)
  {
    match reply
    case Threw(_) => FallbackReport("Unexpected error")
    case Replied(rawText) =>
      match ExtractBraces(rawText)
      case None => FallbackReport("AI response issue")
      case Some(json) =>
        match parse(json)
        case None => FallbackReport("AI response issue")
        case Some(parsed) =>
          match Normalize(parsed, checkType)
          case None => FallbackReport("Unexpected error")
          case Some(report) => report
  }

  /** The handler. `apiKeyPresent` says whether `GEMINI_API_KEY` is set to a
      non-empty value; `email` and `checkType` are the body's fields (`None`
      when absent); `gemini` is the model call and `parse` stands for
      `JSON.parse` on text that starts with `{` (`None` when it throws). The
      reply is always 200: each guard, a thrown model call, an unparseable
      reply and a TypeError from rendering the mode or coercing the score
      give a fallback report with its own reason. */
  function QualityCheck(
    apiKeyPresent: bool,
    email: Option<JsonValue>,
    checkType: Option<JsonValue>,
    gemini: string -> AiOutcome,
    parse: string -> Option<map<string, JsonValue>>): (r: QcResponse)
    ensures r.status == 200
    ensures !apiKeyPresent ==> r.body == FallbackReport("Server config error")
    ensures apiKeyPresent && !IsNonBlankString(email) ==> r.body == FallbackReport("Email content missing")
    ensures apiKeyPresent && IsNonBlankString(email) && Utf16Length(email.value.s) > MaxEmailLength ==>
      r.body == FallbackReport("Email too long")
    ensures (apiKeyPresent && IsNonBlankString(email) && Utf16Length(email.value.s) <= MaxEmailLength
             && BuildQualityPrompt(checkType, email.value.s).None?) ==>
      r.body == FallbackReport("Unexpected error")
    ensures (apiKeyPresent && IsNonBlankString(email) && Utf16Length(email.value.s) <= MaxEmailLength
             && BuildQualityPrompt(checkType, email.value.s).Some?) ==>
      r.body == AnalyzeReply(gemini(BuildQualityPrompt(checkType, email.value.s).value), checkType, parse)
  {
    if !apiKeyPresent then
      QcResponse(200, FallbackReport("Server config error"))
    else if !IsNonBlankString(email) then
      QcResponse(200, FallbackReport("Email content missing"))
    else if Utf16Length(email.value.s) > MaxEmailLength then
      QcResponse(200, FallbackReport("Email too long"))
    else
      match BuildQualityPrompt(checkType, email.value.s)
      case None => QcResponse(200, FallbackReport("Unexpected error"))
      case Some(prompt) => QcResponse(200, AnalyzeReply(gemini(prompt), checkType, parse))
  }

  /** The report is a fixed point of the normalizer and its severity and
      assessment fields are truthy. */
  predicate IsNormalized(r: Report, checkType: Option<JsonValue>) {
    && Normalize(ReportObject(r), checkType) == Some(r)
    && Truthy(r.severity) && Truthy(r.summary)
    && Truthy(r.grammar) && Truthy(r.clarity) && Truthy(r.tone) && Truthy(r.risk)
  }

  /** Every reply, on every path, is a normalized report: the nine keys are
      present, severity and the assessment fields are truthy, and feeding
      the reply back changes nothing. */
  lemma QualityCheckReplyIsNormalized(
    apiKeyPresent: bool, email: Option<JsonValue>, checkType: Option<JsonValue>,
    gemini: string -> AiOutcome, parse: string -> Option<map<string, JsonValue>>)
    ensures IsNormalized(QualityCheck(apiKeyPresent, email, checkType, gemini, parse).body, checkType)
  {
    var r := QualityCheck(apiKeyPresent, email, checkType, gemini, parse).body;
    if !apiKeyPresent {
      FallbackIsNormalized("Server config error", checkType);
    } else if !IsNonBlankString(email) {
      FallbackIsNormalized("Email content missing", checkType);
    } else if Utf16Length(email.value.s) > MaxEmailLength {
      FallbackIsNormalized("Email too long", checkType);
    } else if BuildQualityPrompt(checkType, email.value.s).None? {
      FallbackIsNormalized("Unexpected error", checkType);
    } else {
      var reply := gemini(BuildQualityPrompt(checkType, email.value.s).value);
      if reply.Threw? {
        FallbackIsNormalized("Unexpected error", checkType);
      } else if ExtractBraces(reply.text).None? || parse(ExtractBraces(reply.text).value).None? {
        FallbackIsNormalized("AI response issue", checkType);
      } else {
        var obj := parse(ExtractBraces(reply.text).value).value;
        if Normalize(obj, checkType).None? {
          FallbackIsNormalized("Unexpected error", checkType);
        } else {
          assert r == Normalize(obj, checkType).value;
          NormalizeIdempotent(obj, checkType);
        }
      }
    }
  }

  /** Outside "advanced" mode no reply carries an improved email, whatever
      the model returned. */
  lemma ImprovedEmailOnlyWhenAdvanced(
    apiKeyPresent: bool, email: Option<JsonValue>, checkType: Option<JsonValue>,
    gemini: string -> AiOutcome, parse: string -> Option<map<string, JsonValue>>)
    requires !IsAdvanced(checkType)
    ensures QualityCheck(apiKeyPresent, email, checkType, gemini, parse).body.improvedEmail == JString("")
  {
  }

  /** A failing guard decides the reply whatever the model would have done. */
  lemma GuardsPrecedeModelCall(
    apiKeyPresent: bool, email: Option<JsonValue>, checkType: Option<JsonValue>,
    g1: string -> AiOutcome, g2: string -> AiOutcome, parse: string -> Option<map<string, JsonValue>>)
    requires !apiKeyPresent || !IsNonBlankString(email) || Utf16Length(email.value.s) > MaxEmailLength
    ensures QualityCheck(apiKeyPresent, email, checkType, g1, parse) == QualityCheck(apiKeyPresent, email, checkType, g2, parse)
  {
  }

  /** A mode that cannot be rendered, such as an object with its own
      `toString` key, throws while the prompt is built: the reply is the
      "Unexpected error" fallback and the model is never consulted. */
  lemma UnrenderableModeIsUnexpected(email: string, checkType: Option<JsonValue>,
    g1: string -> AiOutcome, g2: string -> AiOutcome, parse: string -> Option<map<string, JsonValue>>)
    requires !IsBlank(email) && Utf16Length(email) <= MaxEmailLength
    requires ToPrimitiveThrows(CheckTypeOrDefault(checkType))
    ensures QualityCheck(true, Some(JString(email)), checkType, g1, parse).body == FallbackReport("Unexpected error")
    ensures QualityCheck(true, Some(JString(email)), checkType, g1, parse)
         == QualityCheck(true, Some(JString(email)), checkType, g2, parse)
  {
  }

  /** The body `{"email": "hi", "checkType": {"toString": 1}}` gets the
      "Unexpected error" fallback. */
  lemma ObjectModeExample(gemini: string -> AiOutcome, parse: string -> Option<map<string, JsonValue>>)
    ensures QualityCheck(true, Some(JString("hi")), Some(JObject(map["toString" := JNumber(1)])), gemini, parse).body
         == FallbackReport("Unexpected error")
  {
    assert !IsBlank("hi") by { assert !IsJsWhitespace("hi"[0]); }
  }

  /** A parsed reply whose score cannot be coerced, because it is an object
      with its own `toString` key or an array holding one, is the
      "Unexpected error" fallback. */
  lemma UncoercibleScoreIsUnexpected(email: string, checkType: Option<JsonValue>, json: string, obj: map<string, JsonValue>,
    gemini: string -> AiOutcome, parse: string -> Option<map<string, JsonValue>>)
    requires !IsBlank(email) && Utf16Length(email) <= MaxEmailLength
    requires BuildQualityPrompt(checkType, email).Some?
    requires gemini(BuildQualityPrompt(checkType, email).value).Replied?
    requires ExtractBraces(gemini(BuildQualityPrompt(checkType, email).value).text) == Some(json)
    requires parse(json) == Some(obj)
    requires "score" in obj && ToPrimitiveThrows(obj["score"])
    ensures QualityCheck(true, Some(JString(email)), checkType, gemini, parse).body == FallbackReport("Unexpected error")
  {
  }

  /** A whitespace-only email is reported as missing, however long it is. */
  lemma BlankEmailIsMissing(s: string, checkType: Option<JsonValue>,
    gemini: string -> AiOutcome, parse: string -> Option<map<string, JsonValue>>)
    requires IsBlank(s)
    ensures QualityCheck(true, Some(JString(s)), checkType, gemini, parse).body == FallbackReport("Email content missing")
  {
  }

  /** An email longer than the limit is refused even when very long. One
      of exactly the limit passes the guard: the reply is the analysis of
      whatever the model returns. */
  lemma EmailLengthLimit(s: string, checkType: Option<JsonValue>,
    gemini: string -> AiOutcome, parse: string -> Option<map<string, JsonValue>>)
    requires !IsBlank(s)
    ensures |s| > MaxEmailLength ==>
      QualityCheck(true, Some(JString(s)), checkType, gemini, parse).body == FallbackReport("Email too long")
    ensures (Utf16Length(s) == MaxEmailLength && BuildQualityPrompt(checkType, s).Some?) ==>
      QualityCheck(true, Some(JString(s)), checkType, gemini, parse).body
        == AnalyzeReply(gemini(BuildQualityPrompt(checkType, s).value), checkType, parse)
  {
  }

  /** An email of exactly the limit gets the "Email too long" report only
      when the model itself wrote an object that normalizes to that report. */
  lemma ExactLimitIsNotTooLong(s: string, checkType: Option<JsonValue>,
    gemini: string -> AiOutcome, parse: string -> Option<map<string, JsonValue>>)
    requires !IsBlank(s) && Utf16Length(s) == MaxEmailLength
    requires BuildQualityPrompt(checkType, s).Some?
    ensures QualityCheck(true, Some(JString(s)), checkType, gemini, parse).body == FallbackReport("Email too long") ==>
      var reply := gemini(BuildQualityPrompt(checkType, s).value);
      && reply.Replied? && ExtractBraces(reply.text).Some?
      && parse(ExtractBraces(reply.text).value).Some?
      && Normalize(parse(ExtractBraces(reply.text).value).value, checkType) == Some(FallbackReport("Email too long"))
  {
    EmailLengthLimit(s, checkType, gemini, parse);
    if FallbackReport("Email too long") == FallbackReport("Unexpected error") {
      FallbackReportInjective("Email too long", "Unexpected error");
    }
    if FallbackReport("Email too long") == FallbackReport("AI response issue") {
      FallbackReportInjective("Email too long", "AI response issue");
    }
  }

  /** An absent `checkType` behaves exactly like "normal". */
  lemma AbsentCheckTypeIsNormal(
    apiKeyPresent: bool, email: Option<JsonValue>,
    gemini: string -> AiOutcome, parse: string -> Option<map<string, JsonValue>>)
    ensures QualityCheck(apiKeyPresent, email, None, gemini, parse)
         == QualityCheck(apiKeyPresent, email, Some(JString("normal")), gemini, parse)
  {
  }

  /** With no severity field, 85 gives "Low", 70 "Medium" and 40 "High". */
  lemma DerivedSeverityExamples(checkType: Option<JsonValue>)
    ensures Normalize(map["score" := JNumber(85)], checkType).Some?
    ensures Normalize(map["score" := JNumber(85)], checkType).value.severity == JString("Low")
    ensures Normalize(map["score" := JNumber(70)], checkType).Some?
    ensures Normalize(map["score" := JNumber(70)], checkType).value.severity == JString("Medium")
    ensures Normalize(map["score" := JNumber(40)], checkType).Some?
    ensures Normalize(map["score" := JNumber(40)], checkType).value.severity == JString("High")
  {
  }

  /** A provided severity wins over the derived one: "Medium" is kept at score 95. */
  lemma ProvidedSeverityKept(checkType: Option<JsonValue>)
    ensures Normalize(map["score" := JNumber(95), "severity" := JString("Medium")], checkType).Some?
    ensures Normalize(map["score" := JNumber(95), "severity" := JString("Medium")], checkType).value.severity == JString("Medium")
  {
  }

  /** The code does not clamp the score: 150 and -5 pass through. */
  lemma ScoreNotClamped(checkType: Option<JsonValue>)
    ensures Normalize(map["score" := JNumber(150)], checkType).Some?
    ensures Normalize(map["score" := JNumber(150)], checkType).value.score == 150
    ensures Normalize(map["score" := JNumber(-5)], checkType).Some?
    ensures Normalize(map["score" := JNumber(-5)], checkType).value.score == -5
  {
  }

  /** The code does not restrict severity to the three names: "Critical"
      and a number pass through. */
  lemma SeverityNotRestricted(checkType: Option<JsonValue>)
    ensures Normalize(map["severity" := JString("Critical")], checkType).Some?
    ensures Normalize(map["severity" := JString("Critical")], checkType).value.severity == JString("Critical")
    ensures Normalize(map["severity" := JNumber(7)], checkType).Some?
    ensures Normalize(map["severity" := JNumber(7)], checkType).value.severity == JNumber(7)
  {
  }

  /** A string holding an integer's decimal text scores that integer. */
  lemma ScoreFromNumericString(n: int, checkType: Option<JsonValue>)
    ensures Normalize(map["score" := JString(IntToDecimal(n))], checkType).Some?
    ensures Normalize(map["score" := JString(IntToDecimal(n))], checkType).value.score == n
  {
    ToNumberOfNumericString(n);
  }

  /** `true` scores 1; a string that is not a number and `null` score 0. */
  lemma ScoreFromScalars(s: string, checkType: Option<JsonValue>)
    requires StringToNumber(s).NaN?
    ensures Normalize(map["score" := JBool(true)], checkType).Some?
    ensures Normalize(map["score" := JBool(true)], checkType).value.score == 1
    ensures Normalize(map["score" := JString(s)], checkType).Some?
    ensures Normalize(map["score" := JString(s)], checkType).value.score == 0
    ensures Normalize(map["score" := JNull], checkType).Some?
    ensures Normalize(map["score" := JNull], checkType).value.score == 0
  {
  }

  /** An object scores 0 unless it has its own `toString` key; with that
      key, the object or an array holding it makes the normalizer throw. */
  lemma ScoreFromObject(m: map<string, JsonValue>, checkType: Option<JsonValue>)
    ensures "toString" !in m ==> Normalize(map["score" := JObject(m)], checkType).Some?
    ensures "toString" !in m ==> Normalize(map["score" := JObject(m)], checkType).value.score == 0
    ensures "toString" in m ==> Normalize(map["score" := JObject(m)], checkType).None?
    ensures "toString" in m ==> Normalize(map["score" := JArray([JNull, JObject(m)])], checkType).None?
  {
    ToNumberOfObject(m);
    if "toString" in m {
      assert [JNull, JObject(m)][1] == JObject(m);
    }
  }

  /** A reply holding one JSON object between prose that has no `{` before
      it and no `}` after it is analysed as exactly that object. */
  lemma WrappedReplyIsParsed(email: string, checkType: Option<JsonValue>,
    pre: string, body: string, post: string, obj: map<string, JsonValue>, report: Report,
    gemini: string -> AiOutcome, parse: string -> Option<map<string, JsonValue>>)
    requires Trim(email) != [] && Utf16Length(email) <= MaxEmailLength
    requires '{' !in pre && '}' !in post
    requires |body| >= 2 && body[0] == '{' && body[|body| - 1] == '}'
    requires BuildQualityPrompt(checkType, email).Some?
    requires gemini(BuildQualityPrompt(checkType, email).value) == Replied(pre + body + post)
    requires parse(body) == Some(obj) && Normalize(obj, checkType) == Some(report)
    ensures QualityCheck(true, Some(JString(email)), checkType, gemini, parse) == QcResponse(200, report)
  {
    ExtractIgnoresSurroundingProse(pre, body, post);
  }

  /** The object `{"score": 55, "summary": "ok"}` normalizes to that score
      and summary with every other field defaulted. */
  lemma SampleReplyNormalized()
    ensures Normalize(map["score" := JNumber(55), "summary" := JString("ok")], None)
         == Some(Report(55, JString("High"), JString("ok"), JString("N/A"), JString("N/A"), JString("N/A"), JString("N/A"),
              JString(""), JString("")))
  {
  }

  /** Extraction fails, and the reply falls back, when there is no `{`
      before a `}`, as in a plain-prose reply or one whose only `}` comes
      first. */
  lemma NoObjectFallsBack(email: string, rawText: string, checkType: Option<JsonValue>,
    gemini: string -> AiOutcome, parse: string -> Option<map<string, JsonValue>>)
    requires Trim(email) != [] && Utf16Length(email) <= MaxEmailLength
    requires BuildQualityPrompt(checkType, email).Some?
    requires gemini(BuildQualityPrompt(checkType, email).value) == Replied(rawText)
    requires !HasBracePair(rawText)
    ensures QualityCheck(true, Some(JString(email)), checkType, gemini, parse).body == FallbackReport("AI response issue")
  {
    ExtractBracesSpec(rawText);
  }
}
