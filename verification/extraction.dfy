/** Reading the answer text out of the provider's reply: the optional chain
    `result?.candidates?.[0]?.content?.parts?.[0]?.text` followed by
    `|| "No response."`. */
module Extraction {
  import opened Wrappers
  import opened Genai
  import Js

  /** The text substituted when no usable answer text is found. */
  const NoResponse: string := "No response."

  /** `xs?.[0]`: the first element of an optional list, absent when the list is
      absent or empty. */
  function First<T>(xs: Option<seq<T>>): (r: Option<T>)
    ensures r.Some? <==> xs.Some? && |xs.value| > 0
    ensures r.Some? ==> r.value == xs.value[0]
  {
    match xs
    case None => None
    case Some(s) => if |s| == 0 then None else Some(s[0])
  }

  /** Reference description of the path: `t` is the text of the first part of
      the content of the first candidate of the reply, every link present. */
  ghost predicate TextAtPath(result: Option<GenerateContentResponse>, t: string) {
    && result.Some?
    && result.value.candidates.Some?
    && |result.value.candidates.value| > 0
    && result.value.candidates.value[0].content.Some?
    && result.value.candidates.value[0].content.value.parts.Some?
    && |result.value.candidates.value[0].content.value.parts.value| > 0
    && result.value.candidates.value[0].content.value.parts.value[0].text == Some(t)
  }

  /** Reference description of a reply with no usable text: some link of the
      chain is undefined, a list along it is empty, or the text is empty. */
  ghost predicate Unusable(result: Option<GenerateContentResponse>) {
    || result.None?
    || result.value.candidates.None?
    || result.value.candidates.value == []
    || result.value.candidates.value[0].content.None?
    || result.value.candidates.value[0].content.value.parts.None?
    || result.value.candidates.value[0].content.value.parts.value == []
    || result.value.candidates.value[0].content.value.parts.value[0].text.None?
    || result.value.candidates.value[0].content.value.parts.value[0].text == Some("")
  }

  /** The optional chain itself, one `?.` at a time. */
  function FirstText(result: Option<GenerateContentResponse>): (r: Option<string>)
    ensures forall t :: r == Some(t) <==> TextAtPath(result, t)
  {
    if result.None? then None
    else
      match First(result.value.candidates)
      case None => None
      case Some(candidate) =>
        if candidate.content.None? then None
        else
          match First(candidate.content.value.parts)
          case None => None
          case Some(part) => part.text
  }

  /** The answer text the handler renders: the chained text when it is a
      non-empty string, otherwise the sentinel. Never fails. */
  function ExtractText(result: Option<GenerateContentResponse>): (text: string)
    ensures text != ""
    ensures forall t :: TextAtPath(result, t) && t != "" ==> text == t
    ensures Unusable(result) ==> text == NoResponse
  {
    Js.Or(FirstText(result), NoResponse)
  }

  /** The path description and the chain agree: a reply either carries
      usable text at the path or is unusable, never both. */
  lemma {:induction false} UsableIffText(result: Option<GenerateContentResponse>)
    ensures !Unusable(result) <==> exists t :: TextAtPath(result, t) && t != ""
  {
    if !Unusable(result) {
      var t := result.value.candidates.value[0].content.value.parts.value[0].text.value;
      assert TextAtPath(result, t) && t != "";
    }
  }

  /** The sentinel appears exactly when the reply is unusable, or when the
      provider literally answered with the sentinel text. */
  lemma SentinelIff(result: Option<GenerateContentResponse>)
    ensures ExtractText(result) == NoResponse <==> Unusable(result) || TextAtPath(result, NoResponse)
  {
    UsableIffText(result);
  }

  /** Extraction returns usable text unchanged: whatever non-empty text sits at
      the path is exactly what comes back. */
  lemma ExtractFound(result: Option<GenerateContentResponse>, t: string)
    requires TextAtPath(result, t) && t != ""
    ensures ExtractText(result) == t
    ensures !Unusable(result)
  {
  }

  /** Every concrete way the chain can break yields the sentinel. */
  lemma BrokenLinks(c: Candidate, p: Part)
    ensures ExtractText(None) == NoResponse
    ensures ExtractText(Some(GenerateContentResponse(None))) == NoResponse
    ensures ExtractText(Some(GenerateContentResponse(Some([])))) == NoResponse
    ensures ExtractText(Some(GenerateContentResponse(Some([Candidate(None), c])))) == NoResponse
    ensures ExtractText(Some(GenerateContentResponse(Some([Candidate(Some(Content(None, None))), c])))) == NoResponse
    ensures ExtractText(Some(GenerateContentResponse(Some([Candidate(Some(Content(None, Some([])))), c])))) == NoResponse
    ensures ExtractText(Some(GenerateContentResponse(Some([Candidate(Some(Content(None, Some([Part(None), p])))), c])))) == NoResponse
    ensures ExtractText(Some(GenerateContentResponse(Some([Candidate(Some(Content(None, Some([Part(Some("")), p])))), c])))) == NoResponse
  {
  }
}
