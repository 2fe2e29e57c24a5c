/** The shapes exchanged with the generative-content provider: the request the
    handler sends and the nested response it reads back, every link of which
    may be absent. The remote call itself is not modelled; its result is an
    `Outcome` supplied from outside. */
module Genai {
  import opened Wrappers

  /** One part of a turn; `text` may be missing. */
  datatype Part = Part(text: Option<string>)

  /** One conversational turn: an optional role and an optional list of parts. */
  datatype Content = Content(role: Option<string>, parts: Option<seq<Part>>)

  /** One answer proposed by the provider; its content may be missing. */
  datatype Candidate = Candidate(content: Option<Content>)

  /** The provider's reply; the candidate list may be missing. */
  datatype GenerateContentResponse = GenerateContentResponse(candidates: Option<seq<Candidate>>)

  /** The request body of `generateContent`: a model id and a list of turns. */
  datatype GenerationRequest = GenerationRequest(model: string, contents: seq<Content>)

  /** What a rejected provider call carries; only ever logged. */
  datatype ProviderError = ProviderError(status: Option<int>, message: Option<string>)

  /** How the awaited provider call ended: it resolved to a (possibly
      undefined) response object, or it threw. */
  datatype Outcome =
    | Ok(result: Option<GenerateContentResponse>)
    | Failed(error: ProviderError)

  /** The provider as seen by the handler: whatever it answers to a request. */
  type Provider = GenerationRequest -> Outcome
}
