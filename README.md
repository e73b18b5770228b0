# vLLM CPU example: chat client and API test logic, modelled in Dafny

The repository packages a vLLM inference server for CPU-only hosts. The only
logic it runs itself is client-side:

- `chatbot.py` holds two Gradio streaming handlers over the server's
  OpenAI-compatible chat API:
  - `chat` takes the conversation as `(user, bot)` pairs and yields the growing reply text.
  - `respond` takes the conversation as role/content messages and yields the whole updated conversation on each step.
- `test_vllm.py` is an API test script. It has a health check, a model
  listing, a streaming completion test that reads server-sent-event `data:`
  lines, and a `main` that tallies three tests into an exit status.

This project models both files as Dafny with proofs. Network calls become
inputs:

- A chat stream is a `ChunkStream`: the `choices[0].delta.content` values
  received, in order, then possibly the text of the exception that ended the
  call.
- An HTTP call is an `HttpReply`: a status code, or a request exception.
- A streamed completion is its sequence of lines, plus whether reading one
  more line would raise.
- JSON decoding is the function parameter `parse`. It says for each payload
  whether the payload decodes and whether `choices[0].text` can be read.

Each handler is an imperative `method` whose loop follows the Python loop. It
is proved equal to a specification function. The promised properties are
proved as lemmas about those functions.

Files:
- `wrappers.dfy`: `Option`.
- `strings.dfy`: Python's `str.strip()` whitespace set, `startswith`, and
  strings built with `+=`.
- `chatbot.dfy`: module `Chatbot`.
- `test_vllm.dfy`: module `VllmTester`.

## Model

| member | source | states |
|---|---|---|
| `Strings.TrimStartSpec` | chatbot.py:53 | `lstrip` keeps a suffix of the input. Everything it drops is whitespace, and what it keeps does not start with whitespace. |
| `Strings.TrimEndSpec` | chatbot.py:53 | `rstrip` keeps a prefix of the input. Everything it drops is whitespace, and what it keeps does not end with whitespace. |
| `Strings.StripEmptyIffAllSpace` | chatbot.py:53 | `s.strip()` is empty exactly when every character of `s` is whitespace. |
| `Chatbot.SystemPromptPresentIff` | chatbot.py:53-57 | The system-prompt guard holds exactly when the prompt contains a non-whitespace character. |
| `Chatbot.BuildChatRequest` | chatbot.py:50-67 | The loop over the history builds exactly the specified request. That request is the optional system message, then each pair's messages in order, then the new user message. |
| `Chatbot.HistoryMessagesAppend` | chatbot.py:60-64 | Pairs are converted in history order: converting `a + b` gives the conversion of `a` followed by that of `b`. |
| `Chatbot.HistoryMessagesWellFormed` | chatbot.py:60-64 | A history yields at most two messages per pair. None of them is a system message and none has empty content, because empty texts are skipped. |
| `Chatbot.HistoryMessagesOfCompletePairs` | chatbot.py:60-64 | When every pair has both texts, pair k becomes the user message at index 2k and the assistant message at index 2k+1. |
| `Chatbot.ChatRequestShape` | chatbot.py:50-67 | The first message is a system message iff the prompt is not blank, and it carries the unstripped prompt. The last message is the new message with role user, even when empty. The list has at most two messages per history pair plus two. |
| `Chatbot.BuildRespondRequest` | chatbot.py:197-207 | Builds exactly the specified `respond` request: the optional system message, the history verbatim, then the user message. |
| `Chatbot.RespondRequestShape` | chatbot.py:197-207 | In the `respond` request, the history appears unchanged right after the optional system message, and the new message is the last entry, with role user. |
| `Chatbot.PiecesNonEmpty` | chatbot.py:81-83 | Only non-empty contents are appended. There are none exactly when no chunk has content. |
| `Chatbot.PiecesFullText` | chatbot.py:80-84 | Skipping empty or missing deltas loses no text: the appended pieces concatenate to the full reply. |
| `Chatbot.Running` | chatbot.py:80-84 | The accumulator takes exactly one value per appended piece. |
| `Chatbot.RunningAt` | chatbot.py:80-84 | The k-th yielded reply is the concatenation of the first k+1 pieces. |
| `Chatbot.Chat` | chatbot.py:35-88 | `chat` sends the specified request. It yields exactly the running replies, then one error text if the call raised. |
| `Chatbot.ChatYieldsExtend` | chatbot.py:82-84 | Each yield is the previous yield (or "" for the first) extended by one non-empty delta, so each yield is strictly longer than the one before. |
| `Chatbot.ChatYieldsPrefix` | chatbot.py:80-84 | Every yielded reply is a prefix of every later one. |
| `Chatbot.ChatCompletedYields` | chatbot.py:80-84 | If the stream ends normally, `chat` yields nothing exactly when no delta had content. Otherwise its last yield is the full reply text. |
| `Chatbot.ChatFailedYields` | chatbot.py:86-88 | If the call raised, the partial replies already yielded are unchanged. They are followed by exactly one error text, which ends with the server URL. |
| `Chatbot.Exchanges` | chatbot.py:223-227 | `respond` yields exactly one conversation per reply value. |
| `Chatbot.ExchangesAt` | chatbot.py:220-227 | The k-th conversation is the history, then the user message, then the assistant message holding the k-th reply. |
| `Chatbot.Respond` | chatbot.py:194-235 | `respond` sends the specified request. It yields the conversations for the running replies, then, if the call raised, one conversation holding the error text. |
| `Chatbot.RespondMirrorsChat` | chatbot.py:220-235 | On the same stream, `respond` yields as many values as `chat`. Each success yield shows `chat`'s reply at the same step. The failure yield shows the error text instead of the partial reply. |
| `Chatbot.RespondKeepsHistory` | chatbot.py:220-235 | Every yielded conversation is the prior history unchanged, then the user message, then one assistant message. |
| `VllmTester.Payload` | test_vllm.py:150-151 | A line has a payload exactly when it starts with `"data: "`. The line is then that prefix followed by the payload. |
| `VllmTester.PayloadOfDataLine` | test_vllm.py:150-151 | Framing a payload as a data line and reading it back returns the payload. |
| `VllmTester.ScanLines` | test_vllm.py:146-160 | The text gathered by the line loop only grows. Text already gathered is never lost. |
| `VllmTester.TestStreaming` | test_vllm.py:146-167 | The loop, with its `break`/`continue` and the exception exits, gathers the specified text. It returns the specified verdict. |
| `VllmTester.ScanAppend` | test_vllm.py:147-160 | Running the loop over `a + b` is running it over `a`, then over `b` if nothing in `a` ended it. |
| `VllmTester.DoneStopsScan` | test_vllm.py:152-153 | After the `[DONE]` line no later line has any effect. If no earlier line ended the loop, the loop ends there with the text gathered so far. |
| `VllmTester.SkippedLineNoEffect` | test_vllm.py:147-160 | A line the loop skips can be removed without changing the text or how the loop ends. |
| `VllmTester.NonDataLineIgnored` | test_vllm.py:148-150 | Lines without the `"data: "` prefix, empty lines included, have no effect. |
| `VllmTester.NotJsonPayloadIgnored` | test_vllm.py:154-160 | A payload that is not JSON changes neither the gathered text nor the verdict. |
| `VllmTester.BenignStep` | test_vllm.py:154-158 | A line that neither stops the loop nor raises lets the loop continue. Its text, if any, is appended. |
| `VllmTester.BenignScan` | test_vllm.py:146-160 | Over such lines the loop reaches the end. It has gathered exactly the in-order concatenation of every data line's `choices[0].text`. |
| `VllmTester.PassesWithoutDone` | test_vllm.py:146-164 | Without `[DONE]`, the test passes when reading ends cleanly, and it has gathered every text in order. The text gathered never decides the verdict. |
| `VllmTester.FailsOnReadErrorWithoutDone` | test_vllm.py:146-167 | Without `[DONE]`, an exception while reading past the last line makes the test fail. |
| `VllmTester.PassesAtDone` | test_vllm.py:152-164 | Once `[DONE]` is read the test passes, whatever lines follow and even if reading on would fail. |
| `VllmTester.FailsOnPayloadWithoutText` | test_vllm.py:155-167 | A decodable payload whose `choices[0].text` is missing or not a string, before `[DONE]`, makes the test fail. The missing case raises at the lookup; the not-a-string case raises at `full_text += text`. |
| `VllmTester.CheckHealth` | test_vllm.py:32-44 | The service is healthy iff the reply has status 200. Any other status and any request exception mean unhealthy. |
| `VllmTester.ListModels` | test_vllm.py:46-62 | A list comes back iff the status is 200, the body is a JSON object, and every `"data"` entry is an object. The list is the `"data"` list, or `[]` if absent. The call escapes with an exception iff the status is 200 and either the body is JSON but not an object, or some entry is not an object. `None` comes back iff the status is not 200, the request raised, or the body does not decode. |
| `VllmTester.ChosenModel` | test_vllm.py:234-239 | A model is chosen iff the listing has a first entry and that entry is an object with an `"id"` key. The chosen name is `None` exactly when that id is JSON null. Otherwise it is the id's text. |
| `VllmTester.CountPassed` | test_vllm.py:247-264 | The tally is at most the number of tests. It equals that number iff every test passed. |
| `VllmTester.RunSuite` | test_vllm.py:214-280 | The exit status is 0 or 1. Exactly three tests are counted once the service is healthy and a model is chosen, and none otherwise, in which case nothing passed and the status is 1. The success count is the number of passed tests. The status is 0 iff all three passed. |

## Behaviour worth noting

- `check_health` makes a single request and never retries (test_vllm.py:32-44).
- When the stream fails, `respond`'s failure yield replaces the partial reply
  with the error text (chatbot.py:234-235). `chat` keeps its earlier yields,
  but its last value is the error text (chatbot.py:86-88).
  `RespondMirrorsChat` and `ChatFailedYields` state both behaviours.
- `test_streaming` passes whether or not `[DONE]` appears
  (`PassesWithoutDone`, `PassesAtDone`).
- A `"data"` entry that is not a JSON object makes `list_models` raise an
  `AttributeError` (test_vllm.py:54-55). That is not a `RequestException`,
  so it escapes and `main` exits with status 1.
- A first model with `"id": null` still runs all three tests, with
  `model_name` set to `None` (test_vllm.py:239). A first model without an
  `"id"` key makes `main` raise a `KeyError` and exit with status 1.

## Left out

- Gradio UI construction, event wiring and `demo.launch` are not modelled.
  They are calls into a UI framework.
- The OpenAI client and the `requests` calls are replaced by their observable
  outcomes. The request's `model`, `temperature`, `max_tokens` and `stream`
  fields are not modelled; only the `messages` list is.
- JSON decoding is an input (`parse`, `ModelsBody`). Decoding itself belongs to a foreign library.
- Timing is not modelled. That covers `elapsed` and the whole of `test_performance`, which uses wall-clock time and floating point and does not enter the tally.
- `test_completion` and `test_chat_completion` enter `RunSuite` only as their boolean results. Each is a single network call whose every exception is caught.
- Printing and `sys.exit` are not modelled. `RunSuite` returns the exit status instead.
- `VLLM_BASE_URL` is the constant `VllmBaseUrl`, with the default value from chatbot.py:21. The environment override is not modelled.
- `MODEL_NAME` only fills a request field that is not modelled.
- The base URLs that `VLLMTester` builds are not modelled.
- `respond` is modelled for a list-valued history only. After the Clear button, the history is `None`, and Python's handling of that is not modelled.
- In the `(user, bot)` pairs, a `None` text is modelled as `""`. Both are falsy, and neither is sent.
- A `GeneratorExit` thrown into a handler by its consumer is not modelled.
- A delta content that is not a string is not modelled.
- `ListModels` does not model a `"data"` key holding JSON `null` or a non-list value.
- `ChosenModel` does not model an `"id"` that is a number or another non-string JSON value. Such a value only fills request fields, and those are not modelled.
- `ListModels` treats a body that does not decode as a request exception. This matches `requests` 2.27 and later, whose `JSONDecodeError` is a `RequestException`. Under older versions it would escape `list_models` instead.
- `TestStreaming` treats each line as already split by `iter_lines()`. A line is either decoded text or bytes that fail UTF-8 decoding. The line splitting itself is not modelled.
