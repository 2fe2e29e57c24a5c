# The `/ai` route of learning-machine-learning, in Dafny

The site serves a few static pages and one dynamic route, `GET /ai?topic=…`.
That route takes the query's topic (or a fixed default phrase), asks the
Gemini provider to explain it in 200 words with links, reads the answer text
out of the provider's nested reply (falling back to `"No response."`), turns
the markdown into HTML, and renders the `ai` template with status 200. If the
provider call or the conversion throws, it renders the fixed message
`"Error generating content."` with status 502. Both views echo the topic.

This project models that route as pure functions:

- `Wrappers` — `Option`, standing for a JavaScript value that may be `undefined`.
- `Js` — truthiness of a string-or-undefined and the `||` operator.
- `Genai` — the request sent to the provider, the reply tree
  (candidates → content → parts → text, every link optional), and `Outcome`,
  how the awaited call ended (`Ok(result)`, where `result` itself may be
  undefined, or `Failed(error)`).
- `Extraction` — the optional chain `result?.candidates?.[0]?.content?.parts?.[0]?.text`
  and the `|| "No response."` fallback, with an independent description of
  the path (`TextAtPath`) and of an unusable reply (`Unusable`).
- `AiRoute` — topic defaulting, the prompt template and its inverse, the
  outbound request, and `Handle`, which selects the view.

The provider and the markdown converter are parameters: the provider is a
function from the request sent to an `Outcome`, and the converter is a
function from text to `Option<string>` (`None` when it throws). Nothing is
assumed about the HTML it produces.

The `"No response."` fallback is applied in the handler itself
(index.mjs:42). The `try` block (index.mjs:36-48) also covers the markdown
conversion, so a conversion that throws also gives the 502 view. The success path never sets a
status, so it gets Express's default 200.

## Model

| member | source | states |
|---|---|---|
| `Js.Or` | index.mjs:34 | `x \|\| fallback` on a string-or-undefined yields the operand itself when it is a non-empty string and the fallback when it is undefined or empty |
| `AiRoute.ChooseTopic` | index.mjs:34 | the topic is the query's topic unchanged when non-empty; exactly the default phrase when the topic is absent or empty; never empty |
| `AiRoute.BuildPrompt` | index.mjs:39 | the prompt is the fixed instruction followed by the topic unmodified; the topic is a suffix of the prompt |
| `AiRoute.TopicOfPrompt` | index.mjs:39 | a prompt yields a topic exactly when it starts with the instruction, and that topic is its suffix |
| `AiRoute.PromptRoundTrip` | index.mjs:39 | a prompt has topic `t` if and only if it was built from `t` |
| `AiRoute.PromptInjective` | index.mjs:39 | different topics never produce the same prompt |
| `AiRoute.Outbound` | index.mjs:37-39 | the request sent names `gemini-2.5-flash` and is a single user turn with exactly one part, whose text is a prompt whose topic reads back as the chosen topic |
| `Extraction.First` | index.mjs:42 | `xs?.[0]` is present exactly when the list is present and non-empty, and is then its first element |
| `Extraction.FirstText` | index.mjs:42 | the optional chain yields `Some(t)` if and only if `t` is the text of the first part of the first candidate with every link present |
| `Extraction.ExtractText` | index.mjs:42 | the extracted text is never empty, equals any non-empty text found at the path, and is `"No response."` whenever the reply is unusable |
| `Extraction.UsableIffText` | index.mjs:42 | a reply is usable if and only if it carries non-empty text at the path |
| `Extraction.SentinelIff` | index.mjs:42 | the sentinel comes back exactly when some link is missing, a list is empty, the text is empty, or the provider literally answered `"No response."` |
| `Extraction.ExtractFound` | index.mjs:42 | non-empty text at the path is returned unchanged |
| `Extraction.BrokenLinks` | index.mjs:42 | each concrete break of the chain (undefined reply, candidates, content, parts or text; empty candidates or parts; empty text) yields the sentinel |
| `AiRoute.Handle` | index.mjs:29-53 | the view echoes the chosen topic, has status 200 or 502, has status 502 and the response `"Error generating content."` when the call fails or the conversion throws, and otherwise is status 200 with the converted extracted text |
| `AiRoute.TopicEchoed` | index.mjs:34-51 | on both paths the text of the request actually sent is the prompt built from the view's topic |
| `AiRoute.StatusIff` | index.mjs:36-51 | the status is 502 if and only if the provider call failed or the conversion threw |
| `AiRoute.MissingDataIsSuccess` | index.mjs:42-47 | a reply with missing data gives status 200 with the converted sentinel, not the error view |
| `AiRoute.FoundTextIsRendered` | index.mjs:42-47 | a reply with non-empty text at the path gives status 200 with exactly that text converted |
| `AiRoute.ErrorDoesNotLeak` | index.mjs:49-51 | any two failed provider calls give the same 502 view: no error detail reaches the caller |
| `AiRoute.ViewDeterminedByTopicAndText` | index.mjs:42-47 | on a successful call the view depends only on the chosen topic and the extracted text |
| `AiRoute.NoTopicScenario` | index.mjs:34-47 | with no topic, the prompt carries the default phrase, and a successful call gives status 200 with the default phrase echoed |
| `AiRoute.AuthFailureScenario` | index.mjs:36-51 | topic `quantum computing` gives the expected prompt, and an authentication failure gives status 502, `"Error generating content."` and that topic |

## Left out

- Static page routes, view engine and static file setup, server start (index.mjs:9-27, 55-57): plumbing with no logic.
- Loading `.env` and constructing the `GoogleGenAI` client from the API key (index.mjs:1-2, 30-32): environment access.
- The network call and its `async`/`await` behaviour (index.mjs:37-40): the provider is a function parameter; a slow or hanging call is not modelled.
- Markdown-to-HTML conversion (index.mjs:44-45): foreign library code, kept as an uninterpreted parameter; only its determinism and the possibility that it throws are modelled.
- Error logging (index.mjs:50): a side effect with no effect on the view; `ProviderError` carries the logged fields but nothing reads them.
- Rendering the `ai` template itself (index.mjs:47, 51): the model stops at the view-model and status handed to it; a throw while rendering the template is not modelled.
- Express query parsing that yields an array or object for `topic` (repeated `?topic=`): the topic is a string or undefined only.
- `null` elements inside the candidates or parts arrays: list elements are always objects here, as the provider's types declare.
- Non-string `text` values in the reply: `text` is a string or undefined.
- The unused `node-fetch` import (index.mjs:4): dead code.
