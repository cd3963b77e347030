/** The one call each handler makes to the Gemini model
    (`model.generateContent(prompt)` followed by `response.text()`), seen
    from the handler: it either yields the reply text or throws. */
module Gemini {
  import opened Wrappers

  datatype AiOutcome =
    | Replied(text: string)
      /** The call threw; `message` is the error's `message` property, if any. */
    | Threw(message: Option<string>)
}
