/** The `/ai` request handler: choose the topic, build the prompt, call the
    provider, extract and render the answer, and select the 200 or 502 view. */
module AiRoute {
  import opened Wrappers
  import opened Genai
  import Js
  import Extraction

  /** Topic used when the query carries none, or an empty one. */
  const DefaultTopic: string := "200 words about machine learning and provide a few links on the web for further research"

  /** Fixed instruction placed in front of the topic. */
  const PromptPrefix: string := "Explain the topic in 200 words and provide a few links on the web for further research: "

  /** The provider model every request names. */
  const ModelId: string := "gemini-2.5-flash"

  /** The fixed body of the error view; no provider detail is ever shown. */
  const ErrorMessage: string := "Error generating content."

  const StatusOk: int := 200
  const StatusBadGateway: int := 502

  /** Markdown-to-HTML conversion; None means the conversion threw. */
  type Renderer = string -> Option<string>

  /** What the `ai` template is rendered with, and the HTTP status. */
  datatype View = View(status: int, response: string, topic: string)

  /** `topic` is a suffix of `s`. */
  predicate EndsWith(s: string, topic: string) {
    |topic| <= |s| && s[|s| - |topic|..] == topic
  }

  /** The topic of the request: the query's topic when it is a non-empty
      string, otherwise the default phrase. */
  function ChooseTopic(query: Option<string>): (topic: string)
    ensures topic != ""
    ensures query.Some? && query.value != "" ==> topic == query.value
    ensures query == None || query == Some("") ==> topic == DefaultTopic
  {
    Js.Or(query, DefaultTopic)
  }

  /** The prompt: the fixed instruction followed by the topic, unmodified. */
  function BuildPrompt(topic: string): (prompt: string)
    ensures |prompt| == |PromptPrefix| + |topic|
    ensures prompt[..|PromptPrefix|] == PromptPrefix
    ensures prompt[|PromptPrefix|..] == topic
    ensures EndsWith(prompt, topic)
  {
    PromptPrefix + topic
  }

  /** Recovers the topic from a prompt, if the prompt has the fixed prefix. */
  function TopicOfPrompt(prompt: string): (topic: Option<string>)
    ensures topic.Some? <==> |PromptPrefix| <= |prompt| && prompt[..|PromptPrefix|] == PromptPrefix
    ensures topic.Some? ==> EndsWith(prompt, topic.value) && |topic.value| + |PromptPrefix| == |prompt|
  {
    if |PromptPrefix| <= |prompt| && prompt[..|PromptPrefix|] == PromptPrefix
    then Some(prompt[|PromptPrefix|..])
    else None
  }

  /** Building a prompt and reading its topic back are inverse: a prompt has
      topic `t` exactly when it was built from `t`. */
  lemma {:induction false} PromptRoundTrip(prompt: string, t: string)
    ensures TopicOfPrompt(prompt) == Some(t) <==> prompt == BuildPrompt(t)
  {
    if TopicOfPrompt(prompt) == Some(t) {
      calc {
        prompt;
        prompt[..|PromptPrefix|] + prompt[|PromptPrefix|..];
        PromptPrefix + t;
      }
    }
  }

  /** Distinct topics give distinct prompts. */
  lemma PromptInjective(t1: string, t2: string)
    requires BuildPrompt(t1) == BuildPrompt(t2)
    ensures t1 == t2
  {
    PromptRoundTrip(BuildPrompt(t1), t1);
    PromptRoundTrip(BuildPrompt(t1), t2);
  }

  /** The request sent to the provider for a given topic: the fixed model and
      one user turn holding one text part, the prompt. */
  function Outbound(topic: string): (req: GenerationRequest)
    ensures req.model == ModelId
    ensures |req.contents| == 1 && req.contents[0].role == Some("user")
    ensures req.contents[0].parts.Some? && |req.contents[0].parts.value| == 1
    ensures req.contents[0].parts.value[0].text.Some?
    ensures TopicOfPrompt(req.contents[0].parts.value[0].text.value) == Some(topic)
  {
    PromptRoundTrip(BuildPrompt(topic), topic);
    GenerationRequest(ModelId, [Content(Some("user"), Some([Part(Some(BuildPrompt(topic)))]))])
  }

  /** The view of the `catch` branch. */
  function ErrorView(topic: string): View {
    View(StatusBadGateway, ErrorMessage, topic)
  }

  /** The whole handler. The provider is asked once, with the prompt built from
      the chosen topic; a thrown call or a thrown conversion gives the error
      view, anything else the rendered answer with status 200. */
  function Handle(query: Option<string>, provider: Provider, md: Renderer): (v: View)
    ensures v.topic == ChooseTopic(query)
    ensures v.status == StatusOk || v.status == StatusBadGateway
    ensures provider(Outbound(v.topic)).Failed? ==>
              v.status == StatusBadGateway && v.response == ErrorMessage
    ensures provider(Outbound(v.topic)).Ok? ==>
              var text := Extraction.ExtractText(provider(Outbound(v.topic)).result);
              if md(text).Some? then v.status == StatusOk && v.response == md(text).value
              else v.status == StatusBadGateway && v.response == ErrorMessage
  {
    var topic := ChooseTopic(query);
    match provider(Outbound(topic))
    case Failed(_) => ErrorView(topic)
    case Ok(result) =>
      match md(Extraction.ExtractText(result))
      case None => ErrorView(topic)
      case Some(html) => View(StatusOk, html, topic)
  }

  /** On both paths the view echoes the topic the prompt was built from: the
      text of the request sent is the prompt built from the view's topic. */
  lemma TopicEchoed(query: Option<string>, provider: Provider, md: Renderer)
    ensures Outbound(ChooseTopic(query)).contents[0].parts.value[0].text
         == Some(BuildPrompt(Handle(query, provider, md).topic))
  {
    var req := Outbound(ChooseTopic(query));
    PromptRoundTrip(req.contents[0].parts.value[0].text.value, Handle(query, provider, md).topic);
  }

  /** The status is 502 exactly when the provider call threw or the
      conversion threw; 200 otherwise. */
  lemma StatusIff(query: Option<string>, provider: Provider, md: Renderer)
    ensures var o := provider(Outbound(ChooseTopic(query)));
            Handle(query, provider, md).status == StatusBadGateway
            <==> o.Failed? || md(Extraction.ExtractText(o.result)).None?
  {
  }

  /** A reply with missing data is a success: it renders the sentinel with
      status 200, not the error view. */
  lemma MissingDataIsSuccess(query: Option<string>, provider: Provider, md: Renderer)
    requires provider(Outbound(ChooseTopic(query))).Ok?
    requires Extraction.Unusable(provider(Outbound(ChooseTopic(query))).result)
    requires md(Extraction.NoResponse).Some?
    ensures Handle(query, provider, md) == View(StatusOk, md(Extraction.NoResponse).value, ChooseTopic(query))
  {
  }

  /** A reply with usable text renders exactly that text with status 200. */
  lemma FoundTextIsRendered(query: Option<string>, provider: Provider, md: Renderer, t: string)
    requires provider(Outbound(ChooseTopic(query))).Ok?
    requires Extraction.TextAtPath(provider(Outbound(ChooseTopic(query))).result, t) && t != ""
    requires md(t).Some?
    ensures Handle(query, provider, md) == View(StatusOk, md(t).value, ChooseTopic(query))
  {
  }

  /** The error view does not depend on the error: two failing providers give
      the same view, so nothing of the error reaches the caller. */
  lemma ErrorDoesNotLeak(query: Option<string>, p1: Provider, p2: Provider, md: Renderer)
    requires p1(Outbound(ChooseTopic(query))).Failed?
    requires p2(Outbound(ChooseTopic(query))).Failed?
    ensures Handle(query, p1, md) == Handle(query, p2, md) == View(StatusBadGateway, ErrorMessage, ChooseTopic(query))
  {
  }

  /** The view is determined by the chosen topic and the extracted text alone:
      queries with the same chosen topic and replies with the same extracted
      text give the same view. */
  lemma ViewDeterminedByTopicAndText(q1: Option<string>, q2: Option<string>, p1: Provider, p2: Provider, md: Renderer)
    requires ChooseTopic(q1) == ChooseTopic(q2)
    requires p1(Outbound(ChooseTopic(q1))).Ok? && p2(Outbound(ChooseTopic(q2))).Ok?
    requires Extraction.ExtractText(p1(Outbound(ChooseTopic(q1))).result)
          == Extraction.ExtractText(p2(Outbound(ChooseTopic(q2))).result)
    ensures Handle(q1, p1, md) == Handle(q2, p2, md)
  {
  }

  /** No topic at all: the default phrase is asked about and echoed, and a
      call that succeeds gives status 200. */
  lemma NoTopicScenario(provider: Provider, md: Renderer)
    requires provider(Outbound(DefaultTopic)).Ok?
    requires md(Extraction.ExtractText(provider(Outbound(DefaultTopic)).result)).Some?
    ensures ChooseTopic(None) == DefaultTopic
    ensures TopicOfPrompt(BuildPrompt(ChooseTopic(None))) == Some(DefaultTopic)
    ensures Handle(None, provider, md).status == 200
    ensures Handle(None, provider, md).topic == DefaultTopic
  {
    PromptRoundTrip(BuildPrompt(DefaultTopic), DefaultTopic);
  }

  /** A named topic whose provider call fails with an authentication error. */
  lemma AuthFailureScenario(provider: Provider, md: Renderer)
    requires provider(Outbound("quantum computing")) == Failed(ProviderError(Some(401), Some("API key not valid")))
    ensures BuildPrompt(ChooseTopic(Some("quantum computing"))) ==
      "Explain the topic in 200 words and provide a few links on the web for further research: quantum computing"
    ensures Handle(Some("quantum computing"), provider, md) == View(502, "Error generating content.", "quantum computing")
  {
  }
}
