/** The `POST /api/generate-email` handler: three guards checked in a fixed
    order, the prompt template, one call to the model, and the mapping of a
    thrown error to a status code. */
module EmailRoute {
  import opened Wrappers
  import opened JsStrings
  import opened JsValues
  import opened Gemini

  /** The longest prompt, in UTF-16 code units, the handler forwards. */
  const MaxPromptLength := 3000

  /** The JSON body of a reply: `{success: true, email}` or `{success: false, error}`. */
  datatype GenBody = Sent(email: string) | Failed(error: string)

  /** An HTTP reply: status code and body. */
  datatype GenResponse = GenResponse(status: int, body: GenBody)

  /** The first sentence of the generation prompt. The guidance lines that
      follow it in the source are fixed prose and are not reproduced. */
  const EmailInstructions: string := "You are an expert email writer."

  /** The template literal before `.trim()` is applied. */
  function EmailTemplate(prompt: string): string {
    EmailInstructions + "\n\nUSER INPUT:\n\"" + prompt + "\"\n\nGenerate the email now:\n"
  }

  /** The prompt sent to the model: the user's text appears verbatim,
      unescaped, between double quotes on the line after `USER INPUT:`, and
      trimming removes only the template's own final newline. */
  function BuildEmailPrompt(prompt: string): (r: string)
    ensures r == EmailInstructions + "\n\nUSER INPUT:\n\"" + prompt + "\"\n\nGenerate the email now:"
  {
    var body := EmailInstructions + "\n\nUSER INPUT:\n\"" + prompt + "\"\n\nGenerate the email now:";
    assert EmailTemplate(prompt) == body + "\n";
    assert EmailInstructions[0] == 'Y';
    assert body[0] == 'Y' && body[|body| - 1] == ':';
    TrimTrailingNewline(body);
    Trim(EmailTemplate(prompt))
  }

  /** Two prompts that build the same model prompt are the same prompt:
      nothing of the user's text is dropped or altered. */
  lemma BuildEmailPromptInjective(p1: string, p2: string)
    requires BuildEmailPrompt(p1) == BuildEmailPrompt(p2)
    ensures p1 == p2
  {
    InfixDetermined(EmailInstructions + "\n\nUSER INPUT:\n\"", p1, p2, "\"\n\nGenerate the email now:");
  }

  /** The catch block: the thrown error's message picks the status.
      `API_KEY` is tested first, then `quota` or `rate`, all as plain
      substrings; a missing message matches none of them. The client
      never sees the message itself. */
  function ClassifyError(message: Option<string>): (r: GenResponse)
    ensures r.body.Failed?
    ensures r.status == 401 <==> message.Some? && Contains(message.value, "API_KEY")
    ensures r.status == 429 <==>
      message.Some? && !Contains(message.value, "API_KEY")
      && (Contains(message.value, "quota") || Contains(message.value, "rate"))
    ensures r.status == 401 || r.status == 429 || r.status == 500
    ensures r.status == 401 ==> r.body.error == "AI service authentication failed"
    ensures r.status == 429 ==> r.body.error == "Too many requests. Please try again later."
    ensures r.status == 500 ==> r.body.error == "Failed to generate email. Please try again."
  {
    if message.Some? && Contains(message.value, "API_KEY") then
      GenResponse(401, Failed("AI service authentication failed"))
    else if message.Some? && (Contains(message.value, "quota") || Contains(message.value, "rate")) then
      GenResponse(429, Failed("Too many requests. Please try again later."))
    else
      GenResponse(500, Failed("Failed to generate email. Please try again."))
  }

  /** The handler. `apiKeyPresent` says whether `GEMINI_API_KEY` is set to a
      non-empty value, `prompt` is the body's `prompt` field (`None` when
      absent) and `gemini` is the model call. The guards run in order (key,
      then present text, then length) and every guard runs before the model
      is called; a reply is passed on unchanged. */
  function GenerateEmail(apiKeyPresent: bool, prompt: Option<JsonValue>, gemini: string -> AiOutcome): (r: GenResponse)
    ensures !apiKeyPresent ==> r == GenResponse(500, Failed("Server configuration error"))
    ensures apiKeyPresent && !IsNonBlankString(prompt) ==> r == GenResponse(400, Failed("Prompt is required"))
    ensures apiKeyPresent && IsNonBlankString(prompt) && Utf16Length(prompt.value.s) > MaxPromptLength ==>
      r == GenResponse(413, Failed("Prompt too long. Please keep it under 3000 characters."))
    ensures r.body.Sent? <==> r.status == 200
    ensures r.body.Sent? <==>
      apiKeyPresent && IsNonBlankString(prompt) && Utf16Length(prompt.value.s) <= MaxPromptLength
      && gemini(BuildEmailPrompt(prompt.value.s)).Replied?
    ensures r.body.Sent? ==> gemini(BuildEmailPrompt(prompt.value.s)) == Replied(r.body.email)
    ensures r.status in {200, 400, 401, 413, 429, 500}
  {
    if !apiKeyPresent then
      GenResponse(500, Failed("Server configuration error"))
    else if !IsNonBlankString(prompt) then
      GenResponse(400, Failed("Prompt is required"))
    else if Utf16Length(prompt.value.s) > MaxPromptLength then
      GenResponse(413, Failed("Prompt too long. Please keep it under 3000 characters."))
    else
      match gemini(BuildEmailPrompt(prompt.value.s))
      case Replied(text) => GenResponse(200, Sent(text))
      case Threw(message) => ClassifyError(message)
  }

  /** Once the guards pass, a thrown error is classified by its message alone. */
  lemma GenerateEmailClassifiesErrors(s: string, gemini: string -> AiOutcome, message: Option<string>)
    requires Trim(s) != [] && Utf16Length(s) <= MaxPromptLength
    requires gemini(BuildEmailPrompt(s)) == Threw(message)
    ensures GenerateEmail(true, Some(JString(s)), gemini) == ClassifyError(message)
  {
  }

  /** A failing guard decides the reply whatever the model would have done. */
  lemma GuardsPrecedeModelCall(apiKeyPresent: bool, prompt: Option<JsonValue>, g1: string -> AiOutcome, g2: string -> AiOutcome)
    requires !apiKeyPresent || !IsNonBlankString(prompt) || Utf16Length(prompt.value.s) > MaxPromptLength
    ensures GenerateEmail(apiKeyPresent, prompt, g1) == GenerateEmail(apiKeyPresent, prompt, g2)
    ensures GenerateEmail(apiKeyPresent, prompt, g1).status in {400, 413, 500}
  {
  }

  /** A missing prompt, a prompt that is not a string, and a whitespace-only
      prompt of any length are all rejected with 400: the blank test comes
      before the length test. */
  lemma BlankOrNonStringPromptRejected(prompt: Option<JsonValue>, gemini: string -> AiOutcome)
    requires prompt.None? || !prompt.value.JString? || IsBlank(prompt.value.s)
    ensures GenerateEmail(true, prompt, gemini) == GenResponse(400, Failed("Prompt is required"))
  {
    if prompt.Some? && prompt.value.JString? {
      TrimEmptyIffBlank(prompt.value.s);
    }
  }

  /** A non-blank prompt of exactly 3000 code units passes the length guard
      and reaches the model; one more code unit gives 413. */
  lemma LengthLimitIsInclusive(s: string, c: char, gemini: string -> AiOutcome)
    requires !IsBlank(s) && Utf16Length(s) == MaxPromptLength
    ensures GenerateEmail(true, Some(JString(s)), gemini).status != 413
    ensures GenerateEmail(true, Some(JString(s + [c])), gemini).status == 413
  {
    TrimEmptyIffBlank(s);
    TrimEmptyIffBlank(s + [c]);
    assert !IsBlank(s + [c]) by {
      var i :| 0 <= i < |s| && !IsJsWhitespace(s[i]);
      assert (s + [c])[i] == s[i];
    }
    Utf16LengthAppend(s, [c]);
  }

  /** On success the body is exactly the model's reply: two prompts whose
      model prompts get the same reply get the same response, so the prompt
      itself is never echoed back. */
  lemma SuccessBodyIsModelReply(s1: string, s2: string, text: string, gemini: string -> AiOutcome)
    requires Trim(s1) != [] && Utf16Length(s1) <= MaxPromptLength
    requires Trim(s2) != [] && Utf16Length(s2) <= MaxPromptLength
    requires gemini(BuildEmailPrompt(s1)) == Replied(text) && gemini(BuildEmailPrompt(s2)) == Replied(text)
    ensures GenerateEmail(true, Some(JString(s1)), gemini) == GenResponse(200, Sent(text))
    ensures GenerateEmail(true, Some(JString(s1)), gemini) == GenerateEmail(true, Some(JString(s2)), gemini)
  {
  }

  /** An `API_KEY` message gives 401 even when it also mentions a quota or rate. */
  lemma ApiKeyTakesPrecedence(before: string, after: string)
    ensures ClassifyError(Some(before + "API_KEY" + after)).status == 401
    ensures ClassifyError(Some(before + "API_KEY" + after + "quota rate")).status == 401
  {
    ContainsInfix(before, "API_KEY", after);
    ContainsInfix(before, "API_KEY", after + "quota rate");
    assert before + "API_KEY" + after + "quota rate" == before + "API_KEY" + (after + "quota rate");
  }

  /** The rate test is a plain substring test: any message mentioning
      `generate` (which contains `rate`) and not `API_KEY` gives 429. */
  lemma GenerateMatchesRate(before: string, after: string)
    requires !Contains(before + "generate" + after, "API_KEY")
    ensures ClassifyError(Some(before + "generate" + after)).status == 429
  {
    assert before + "generate" + after == (before + "gene") + "rate" + after;
    ContainsInfix(before + "gene", "rate", after);
  }

  /** An error without a message, or with a message matching none of the
      patterns, gives the generic 500 reply. */
  lemma UnknownErrorsAreGeneric(message: Option<string>)
    requires message.Some? ==>
      !Contains(message.value, "API_KEY") && !Contains(message.value, "quota") && !Contains(message.value, "rate")
    ensures ClassifyError(message) == GenResponse(500, Failed("Failed to generate email. Please try again."))
  {
  }
}
