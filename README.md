# Mail-Karo backend routes: a Dafny model

This project models the two Express route handlers of the Mail-Karo backend
that talk to the Gemini model.

- `POST /api/generate-email` (`backend/routes/email.js`) checks the
  `GEMINI_API_KEY` setting and the `prompt` field. It builds the
  email-writing prompt and returns the model's text as `{ success, email }`.
  A thrown model error becomes a 401, 429 or 500 reply, chosen by
  substrings of the error message.
- `POST /api/quality-check` (`backend/routes/qualityChecker.js`) checks the
  key and the `email` field. It builds the analysis prompt for the
  `checkType` mode, takes the JSON object out of the model's reply with a
  greedy brace match, and normalizes it into a report with nine fixed keys.
  Every outcome is an HTTP 200 reply. A failure gives the degraded
  `fallbackReport`, whose summary names the reason.

Both handlers are straight-line code: in Dafny they are pure functions of
their inputs.

- The environment check becomes a `bool`.
- The request fields become `Option<JsonValue>`, with `None` for an absent
  field.
- The Gemini call becomes the function parameter `gemini: string -> AiOutcome`.
  It takes the modelled prompt text and either replies with text or throws an
  error with an optional message.
- `JSON.parse` of the extracted text becomes the parameter
  `parse: string -> Option<map<string, JsonValue>>`, with `None` when the
  text does not parse.

The JavaScript semantics the handlers depend on are written out in two
modules:

- `JsStrings` defines `trim` with the ECMAScript whitespace set,
  `.length` in UTF-16 code units, `.includes`, and decimal text of
  integers.
- `JsValues` defines JSON values, truthiness for `||`, `Number(...)`, and
  `String(...)` as template literals use it. Both conversions throw a
  TypeError on an object with its own `toString` key, or on an array holding
  one. In `/quality-check` that error is caught by the outer `catch`, which
  answers with the `Unexpected error` fallback.

Modules: `Wrappers` (`Option`), `JsStrings`, `JsValues`, `Gemini` (the model
call's outcome), `EmailRoute` and `QualityChecker`.

The normalizer enforces less than the schema and rules its own prompt asks
the model for (qualityChecker.js:36-57), and the model follows the code:

- The score in a quality report is not clamped to 0..100. Any number passes
  through (`QualityChecker.ScoreNotClamped`).
- The severity is not restricted to `Low`/`Medium`/`High`. Any truthy value
  the model returns is kept (`QualityChecker.SeverityNotRestricted`).
- `checkType` is not checked against a list of modes. Any value that can be
  rendered is interpolated into the prompt; one whose rendering throws gives
  the `Unexpected error` fallback
  (`QualityChecker.UnrenderableModeIsUnexpected`). Only the exact string
  `"advanced"` enables `improvedEmail`
  (`QualityChecker.ImprovedEmailOnlyWhenAdvanced`).

In `/generate-email`, a successful reply carries exactly the text the model
returned (email.js:78-84), with no check on it, so an empty text is sent as
it is (`EmailRoute.SuccessBodyIsModelReply`).

## Model

| member | source | states |
|---|---|---|
| JsStrings.Trim | backend/routes/email.js:25 | `s.trim()` is no longer than `s`, and is empty or starts and ends with non-whitespace |
| JsStrings.TrimStartSpec | backend/routes/email.js:25 | trimming the start removes a whitespace-only prefix and no more: the result is a suffix, and it is empty or starts with non-whitespace |
| JsStrings.TrimEndSpec | backend/routes/email.js:25 | trimming the end removes a whitespace-only suffix and no more: the result is a prefix, and it is empty or ends with non-whitespace |
| JsStrings.TrimEmptyIffBlank | backend/routes/qualityChecker.js:15 | `!s.trim()` holds exactly when every character of `s` is whitespace (both directions) |
| JsStrings.TrimNoop | backend/routes/qualityChecker.js:61 | a string whose first and last characters are not whitespace is unchanged by `trim` |
| JsStrings.TrimNewlineWrapped | backend/routes/qualityChecker.js:29-61 | trimming the template's leading and trailing newline gives exactly the text between them |
| JsStrings.TrimTrailingNewline | backend/routes/email.js:47-73 | trimming the template's final newline gives exactly the text before it |
| JsStrings.Utf16Length | backend/routes/email.js:33 | `.length` counts UTF-16 code units: at least one and at most two per character |
| JsStrings.Utf16LengthAppend | backend/routes/email.js:33 | `.length` of a concatenation is the sum of the lengths |
| JsStrings.Utf16LengthOfBmp | backend/routes/qualityChecker.js:19 | for Basic Multilingual Plane text, `.length` is the number of characters |
| JsStrings.Contains | backend/routes/email.js:90 | `includes(sub)` implies `sub` is no longer than the message, and the empty string is always included |
| JsStrings.OccursAtContains | backend/routes/email.js:90 | an occurrence of `sub` at any index makes `includes(sub)` true |
| JsStrings.ContainsIff | backend/routes/email.js:90 | `includes(sub)` holds exactly when `sub` occurs at some index (both directions) |
| JsStrings.ContainsInfix | backend/routes/email.js:97-99 | a message contains every substring written into it, whatever surrounds it |
| JsStrings.NatToDecimal | backend/routes/qualityChecker.js:32 | the decimal text of a number is non-empty, all digits and reads back as that number; it is "0" for zero and otherwise has no leading zero, so it is the text `String(n)` gives |
| JsStrings.IntToDecimal | backend/routes/qualityChecker.js:32 | `String(n)` for an integer is non-empty and starts with `-` exactly when `n` is negative |
| JsValues.Truthy | backend/routes/qualityChecker.js:84-94 | the falsy JSON values are exactly `null`, `false`, `0` and `""`; every array and object is truthy |
| JsValues.IsNonBlankString | backend/routes/email.js:25 | `typeof v === 'string' && v.trim()` holds exactly for a present string that is not all whitespace |
| JsValues.Or | backend/routes/qualityChecker.js:84-94 | the `or` default keeps the read value when it is truthy and gives the default otherwise, an absent key counting as falsy |
| JsValues.Field | backend/routes/qualityChecker.js:77-94 | `parsed.key` is present exactly when the key is in the object, and is then its value |
| JsValues.StringToNumber | backend/routes/qualityChecker.js:77 | `Number` of a string never throws; a blank string is 0; a string that converts is, once trimmed, digits with an optional leading sign |
| JsValues.JsToString | backend/routes/qualityChecker.js:32 | template interpolation of a value throws exactly when the value is an object with its own `toString` key or an array holding one at any depth |
| JsValues.ToNumber | backend/routes/qualityChecker.js:77 | `Number(v)` throws exactly when converting `v` to a primitive throws, and is the number itself for a JSON number |
| JsValues.ToNumberOpt | backend/routes/qualityChecker.js:77 | `Number(undefined)` is NaN, `Number` of a JSON number is that number, and a read field throws exactly when its value cannot be converted |
| JsValues.JoinWithCommas | backend/routes/qualityChecker.js:32 | joining no parts gives "" and one part gives that part; otherwise the result starts with the first part, ends with the last, and is as long as all parts plus one comma between each pair of neighbours |
| JsValues.IntToDecimalRoundTrip | backend/routes/qualityChecker.js:77 | `Number(String(n))` is `n` for every integer, negative ones included |
| JsValues.ToNumberOfEmptyArray | backend/routes/qualityChecker.js:77 | `Number([])` is 0 |
| JsValues.ToNumberOfSingletonArray | backend/routes/qualityChecker.js:77 | `Number([n])` is `n` |
| JsValues.ToNumberOfObject | backend/routes/qualityChecker.js:77 | `Number({...})` is NaN for an object without its own `toString` key, and throws a TypeError for one with it |
| JsValues.ToNumberOfNumericString | backend/routes/qualityChecker.js:77 | a string holding an integer's decimal text, with or without surrounding whitespace, coerces to that integer |
| JsValues.DecimalEnds | backend/routes/qualityChecker.js:77 | an integer's decimal text neither starts nor ends with whitespace, so trimming inside `Number` leaves it alone |
| EmailRoute.BuildEmailPrompt | backend/routes/email.js:47-73 | the model prompt is the instructions, then `USER INPUT:` and the user's text verbatim in double quotes, then `Generate the email now:`; trimming removes only the final newline |
| EmailRoute.BuildEmailPromptInjective | backend/routes/email.js:69-70 | different user prompts give different model prompts: nothing is dropped or altered |
| EmailRoute.ClassifyError | backend/routes/email.js:86-111 | always an error body; 401 exactly when the message contains `API_KEY`; 429 exactly when it does not but contains `quota` or `rate`; each status carries its own fixed error text, and 500 carries the generic one |
| EmailRoute.GenerateEmail | backend/routes/email.js:10-112 | a missing key gives 500, a missing, non-string or blank prompt gives 400, more than 3000 code units gives 413, in that order; success (status 200) holds exactly when all guards pass and the model replies, and the body is the reply; every status is one of 200, 400, 401, 413, 429, 500 |
| EmailRoute.GenerateEmailClassifiesErrors | backend/routes/email.js:86-111 | once the guards pass, a thrown error gives exactly the reply its message classifies to |
| EmailRoute.GuardsPrecedeModelCall | backend/routes/email.js:13-38 | when a guard fails, the reply is independent of the model and is 400, 413 or 500 |
| EmailRoute.BlankOrNonStringPromptRejected | backend/routes/email.js:25-30 | an absent, non-string or whitespace-only prompt, of any length, gives 400 `Prompt is required` |
| EmailRoute.LengthLimitIsInclusive | backend/routes/email.js:33-38 | a prompt of exactly 3000 code units is not refused as too long; one more code unit gives 413 |
| EmailRoute.SuccessBodyIsModelReply | backend/routes/email.js:76-84 | a successful reply is 200 with exactly the model's text; two prompts that receive the same model text get the same reply, so the prompt is not echoed |
| EmailRoute.ApiKeyTakesPrecedence | backend/routes/email.js:90-99 | a message containing `API_KEY` gives 401 even if it also mentions quota or rate |
| EmailRoute.GenerateMatchesRate | backend/routes/email.js:97-105 | any message containing `generate` but not `API_KEY` gives 429, since `rate` is a plain substring test |
| EmailRoute.UnknownErrorsAreGeneric | backend/routes/email.js:107-111 | an error with no message, or one matching no pattern, gives the generic 500 reply |
| QualityChecker.DeriveSeverity | backend/routes/qualityChecker.js:85 | `Low` exactly when score >= 80, `Medium` exactly when 60 <= score < 80, `High` exactly when score < 60 |
| QualityChecker.DeriveSeverityMonotone | backend/routes/qualityChecker.js:85 | a higher score never gives a more severe derived severity |
| QualityChecker.FallbackReport | backend/routes/qualityChecker.js:103-115 | the degraded report has score 0 and the severity that score derives, and its summary reads back as the given reason |
| QualityChecker.FallbackReportInjective | backend/routes/qualityChecker.js:107 | different reasons give different fallback reports |
| QualityChecker.FirstIndexOf | backend/routes/qualityChecker.js:68 | the index of the first `{`, or none when there is no `{` |
| QualityChecker.LastIndexOf | backend/routes/qualityChecker.js:68 | the index of the last `}`, or none when there is no `}` |
| QualityChecker.ExtractBraces | backend/routes/qualityChecker.js:68-69 | a match is at least two characters, starts with `{` and ends with `}` |
| QualityChecker.ExtractBracesSpec | backend/routes/qualityChecker.js:68-69 | the regex matches exactly when some `{` precedes some `}`, and the match runs from the first `{` to the last `}` |
| QualityChecker.ExtractIgnoresSurroundingProse | backend/routes/qualityChecker.js:68 | prose without `{` before the object and without `}` after it is discarded; braces inside the object are kept |
| QualityChecker.CheckTypeOrDefault | backend/routes/qualityChecker.js:13 | an absent `checkType` defaults to "normal"; any present value, `null` included, is kept |
| QualityChecker.Normalize | backend/routes/qualityChecker.js:77-95 | the normalizer throws exactly when `parsed.score` is present and cannot be converted to a primitive; otherwise score is `Number(parsed.score)`, with NaN and absent giving 0, not clamped; each text field is the parsed value when truthy and its fixed default otherwise; severity's default is derived from the score; `improvedEmail` is empty unless the mode is exactly "advanced" |
| QualityChecker.ReportObject | backend/routes/qualityChecker.js:79-95 | the sent JSON object has exactly the nine report keys, each holding the report's field |
| QualityChecker.NormalizeIdempotent | backend/routes/qualityChecker.js:76-95 | whenever normalizing succeeds, the report fed back through the normalizer is unchanged, and its severity and assessment fields are truthy |
| QualityChecker.FallbackMatchesEmptyParse | backend/routes/qualityChecker.js:103-115 | normalizing an empty object succeeds and gives the fallback report with the default summary in place of the reason |
| QualityChecker.FallbackIsNormalized | backend/routes/qualityChecker.js:103-115 | a fallback report is a fixed point of the normalizer, for every mode |
| QualityChecker.BuildQualityPrompt | backend/routes/qualityChecker.js:29-61 | building the prompt throws exactly when the mode cannot be rendered; otherwise the analysis prompt shows the mode rendered as a template literal does, and the email verbatim between triple quotes; trimming removes only the template's outer newlines |
| QualityChecker.BuildQualityPromptInjective | backend/routes/qualityChecker.js:59-60 | under one renderable mode, different emails give different prompts |
| QualityChecker.QualityCheck | backend/routes/qualityChecker.js:6-101 | always status 200; a missing key, then a missing, non-string or blank email, then more than 6000 code units give their fallback reasons; a mode that cannot be rendered and a thrown model call give `Unexpected error`; a reply with no brace match or an unparseable match gives `AI response issue`; a parsed score that cannot be coerced gives `Unexpected error`; otherwise the reply is the analysis of the model's outcome (AnalyzeReply) |
| QualityChecker.QualityCheckReplyIsNormalized | backend/routes/qualityChecker.js:76-115 | on every path the reply is a normalized report: all nine keys, truthy severity and assessment fields, unchanged by normalizing again |
| QualityChecker.ImprovedEmailOnlyWhenAdvanced | backend/routes/qualityChecker.js:93-94 | outside "advanced" mode no reply carries an improved email, whatever the model returned |
| QualityChecker.GuardsPrecedeModelCall | backend/routes/qualityChecker.js:8-21 | when a guard fails, the reply is independent of the model |
| QualityChecker.UnrenderableModeIsUnexpected | backend/routes/qualityChecker.js:29-32 | a `checkType` whose rendering throws gives the `Unexpected error` fallback before the model is called, whatever the model would do |
| QualityChecker.ObjectModeExample | backend/routes/qualityChecker.js:97-100 | the body `{"email": "hi", "checkType": {"toString": 1}}` gets the `Unexpected error` fallback |
| QualityChecker.UncoercibleScoreIsUnexpected | backend/routes/qualityChecker.js:77 | a parsed reply whose score is an object with its own `toString` key, or an array holding one, gets the `Unexpected error` fallback |
| QualityChecker.BlankEmailIsMissing | backend/routes/qualityChecker.js:15-17 | a whitespace-only email of any length is reported as missing |
| QualityChecker.AnalyzeReply | backend/routes/qualityChecker.js:63-99 | a thrown model call gives `Unexpected error`; a reply with no brace match or an unparseable match gives `AI response issue`; a score that cannot be coerced gives `Unexpected error`; any other report is the normalization of the object the model wrote |
| QualityChecker.EmailLengthLimit | backend/routes/qualityChecker.js:19-21 | a non-blank email with more than 6000 characters is refused as too long; for one of exactly 6000 code units with a renderable mode, the reply is the analysis of whatever the model returns |
| QualityChecker.ExactLimitIsNotTooLong | backend/routes/qualityChecker.js:19-21 | an email of exactly 6000 code units gets the `Email too long` report only when the model's own object normalizes to that report |
| QualityChecker.AbsentCheckTypeIsNormal | backend/routes/qualityChecker.js:13 | omitting `checkType` behaves exactly like sending "normal" |
| QualityChecker.DerivedSeverityExamples | backend/routes/qualityChecker.js:83-85 | with no severity given, scores 85, 70 and 40 give Low, Medium and High |
| QualityChecker.ProvidedSeverityKept | backend/routes/qualityChecker.js:83-84 | a given "Medium" is kept at score 95 |
| QualityChecker.ScoreNotClamped | backend/routes/qualityChecker.js:77-80 | scores 150 and -5 pass through unchanged |
| QualityChecker.SeverityNotRestricted | backend/routes/qualityChecker.js:83-84 | the severities "Critical" and 7 pass through unchanged |
| QualityChecker.ScoreFromNumericString | backend/routes/qualityChecker.js:77 | a string holding an integer's decimal text scores that integer |
| QualityChecker.ScoreFromScalars | backend/routes/qualityChecker.js:77 | `true` scores 1; a string that is not a number and `null` score 0 |
| QualityChecker.ScoreFromObject | backend/routes/qualityChecker.js:77 | an object without its own `toString` key scores 0; with that key, the object, or an array holding it, makes the normalizer throw |
| QualityChecker.WrappedReplyIsParsed | backend/routes/qualityChecker.js:63-74 | a reply holding one JSON object between prose lines is analysed as exactly that object: the reply is that object's normalized report |
| QualityChecker.SampleReplyNormalized | backend/routes/qualityChecker.js:77-95 | `{"score": 55, "summary": "ok"}` normalizes to score 55, severity High, summary "ok", "N/A" assessments and empty suggestions and improved email |
| QualityChecker.NoObjectFallsBack | backend/routes/qualityChecker.js:68-73 | a reply with no `{` before a `}` gives the `AI response issue` fallback |

## Left out

- Express routing, `req`/`res` objects and `console` logging are not modelled; a handler is a function from the request's fields to status and body.
- A missing `req.body` (destructuring `undefined` throws) is not modelled; the body is taken to be an object.
- The Gemini SDK, the model name and `async`/`await` are represented by the `gemini` parameter; errors thrown while constructing the client are folded into its `Threw` outcome.
- `JSON.parse` is represented by the `parse` parameter; its grammar is not modelled.
- BuildEmailPrompt: the guidance lines between the first sentence and `USER INPUT:` (email.js:47-68) are fixed prose and are not reproduced; the prompt is modelled from the first sentence onward.
- BuildQualityPrompt: the schema and rule lines between the mode line and `EMAIL:` (qualityChecker.js:34-58) are fixed prose and are not reproduced.
- JSON numbers are integers only; fractions, exponents and precision loss above 2^53 are not modelled.
- StringToNumber: `Number` of strings with a decimal point, an exponent, a hex/octal/binary prefix or `Infinity` is NaN in the model, which differs from JavaScript: a reply with score `"85.0"` scores 85 (severity Low) in JavaScript and 0 (severity High) in the model.
- JsToString: large integers are rendered as plain decimal text, not in JavaScript's exponent form.
- Strings are sequences of Unicode scalar values, so lone surrogates are not modelled; `.length` counts a supplementary character as two units.
- ClassifyError: thrown values whose `message` is neither a string nor absent are not modelled, because for those `includes` may throw or do an array lookup instead; `throw null` is not modelled either, because reading `error.message` then throws inside the `catch`. A message is either a string or absent.
