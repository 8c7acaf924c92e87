# Expert-persona dispatch of a Streamlit LLM app, in Dafny

The app lets a user pick one of two "experts" ("A", a travel planner, or "B", a
historian), type a question, and press 送信 (send). It then asks a hosted chat model
to answer in that expert's voice. Everything in `app.py` apart from the page layout
and the LangChain/OpenAI wrapper is a small, deterministic piece of logic. This
project models that logic and proves what it does:

- `Personas` holds the `EXPERTS` dictionary. Each entry has a display label and a
  system prompt. The module also holds the radio selector's options and labels.
- `Dispatch` is `get_llm_response`. It checks the key and looks up the prompt. It
  then builds the two-message conversation, sends one request to the chat model and
  returns the reply's content.
- `Submit` is the button handler. A missing API key wins over everything. Otherwise
  blank input wins. Otherwise the handler calls `get_llm_response` exactly once and
  turns any exception into an `エラー: …` message.
- `PyText` is Python's `str.strip()` (no argument), which the blank-input test uses.
  It uses the exact whitespace table of `str.isspace`.
- `Wrappers` holds `Option` and `Result`.

The chat model is an oracle: `ChatService = ChatRequest -> ChatReply`. It either
replies with content or raises an exception. `get_llm_response` and the handler
return the list of requests they sent together with their result. This lets the
contracts say "no request was sent" and "exactly one request was sent, namely …".

These facts about `app.py` are easy to get wrong; the model follows the code:

- The user text is sent **as typed**, not trimmed (app.py:48, app.py:73).
  `strip()` is used only to decide whether the input is blank (app.py:68). See
  `Submit.UntrimmedTextSent`.
- The blank-input check is in the handler, not in `get_llm_response`. Called
  directly, `get_llm_response` sends blank text to the service like any other text
  (`Dispatch.BlankInputStillSent`).
- An unknown key raises `ValueError` (app.py:37). The handler's `except Exception`
  catches it (app.py:76-77), so it is shown as an error and does not propagate
  (`Submit.UnknownKeyShownAsError`). The selector never offers such a key.
- The error message is `エラー: ` followed by `str(e)`. It is non-empty because of the
  prefix even when the exception's text is empty. Nothing guarantees that the
  diagnostic part itself is non-empty.

## Model

| member | source | states |
|---|---|---|
| `Personas.Experts` | app.py:23-32 | The registry's keys are exactly "A" and "B". Every persona has a non-empty label and a non-empty system prompt. The two personas differ in both label and prompt. |
| `Personas.RadioOptions` | app.py:55-57 | The selector offers every key of `EXPERTS` exactly once and nothing else, in insertion order ("A" first). |
| `Personas.OptionLabelsDistinguish` | app.py:55-58 | Every offered option is a registry key shown with a non-empty label. Distinct options are shown with distinct labels. |
| `Personas.OptionLabel` | app.py:58 | The radio's `format_func`: an option is shown as its persona's `label` in `EXPERTS`; it is defined for registry keys only, as `EXPERTS[k]` is. |
| `Dispatch.SystemPrompt` | app.py:36-38 | The lookup succeeds if and only if the key is "A" or "B", and then yields that persona's non-empty system prompt. Any other key gives the `ValueError` with its fixed message. |
| `Dispatch.Decompose` | app.py:46-49 | Reading a message list back gives a prompt and a text exactly when the list is the system-then-human conversation built from them; every other list gives nothing. |
| `Dispatch.Conversation` | app.py:46-49 | The message list: the persona's prompt as the one system message, then the text, unchanged, as the one human message. |
| `Dispatch.DecomposeConversation` | app.py:46-49 | The message list can be read back into exactly the prompt and the text it was built from: one system message first, then one human message. |
| `Dispatch.ConversationIdentifiesPersona` | app.py:46-49 | Two conversations built for registry personas are equal only if the persona and the text are equal, so the request identifies the persona. |
| `Dispatch.Request` | app.py:41-50 | The one call of the chat client: the fixed model name "gpt-4o-mini" and temperature 0.5 (as 5 tenths), with the conversation to send. |
| `Dispatch.GetLlmResponse` | app.py:35-51 | An unknown key raises `ValueError` and sends no request. A known key sends exactly one request. That request carries the fixed model and temperature, the persona's prompt as the system message and the input, untouched, as the human message. A reply's content is returned unchanged, and a raised exception propagates unchanged. |
| `Dispatch.BlankInputStillSent` | app.py:35-51 | `get_llm_response` does not check the text: empty or whitespace-only input is still sent to the service, unchanged. |
| `PyText.IsSpace` | app.py:68 | The whitespace `strip()` removes: exactly the 29 code points for which Python's `str.isspace` holds under Unicode 15. |
| `PyText.LeadingSpaces` | app.py:68 | The count of leading characters that `strip()` removes: all of them are whitespace, and the next character, if any, is not. |
| `PyText.TrailingSpaces` | app.py:68 | The count of trailing characters that `strip()` removes: all of them are whitespace, and the character before them, if any, is not. |
| `PyText.Strip` | app.py:68 | `strip()` gives "" exactly when the text is whitespace only. Otherwise it gives the infix that starts after the leading whitespace, neither starts nor ends with whitespace, and has only whitespace after it. |
| `PyText.IsBlank` | app.py:68 | `not user_input.strip()`: the text is blank when stripping leaves nothing. |
| `Submit.KeyMissing` | app.py:66 | `not os.getenv("OPENAI_API_KEY")`: the key is missing when the variable is unset or set to "". |
| `Submit.OnSubmit` | app.py:66-77 | The guards have a fixed priority. A missing key (unset or "") gives the credential error with no request, whatever the input. Otherwise blank input gives the warning with no request. Otherwise the handler sends exactly what `get_llm_response` sends, shows its answer, or shows `エラー: ` followed by the exception's text. |
| `Submit.Run` | app.py:65 | Without a button press nothing is shown and nothing is sent. With a press the run is exactly the handler's: its requests and its outcome, which is never idle. |
| `Submit.CalledOnlyWhenAccepted` | app.py:66-73 | The chat model is contacted at most once. It is contacted exactly when the key is present, the input is not whitespace only and the expert key is registered. |
| `Submit.SelectedKeyAnswers` | app.py:55-77 | For any key the selector offers, with a credential and non-blank input, exactly one request is sent: the persona's prompt, then the text as typed. The answer shown is the reply exactly. A raised exception becomes `エラー: ` followed by its text. No exception escapes. |
| `Submit.UnknownKeyShownAsError` | app.py:72-77 | With a key outside `EXPERTS`, the `ValueError` is caught and shown as an error, and no request is sent. |
| `Submit.OnlySentRequestMatters` | app.py:72-77 | The outcome depends on the chat model only through its reply to the one request sent. |
| `Submit.UntrimmedTextSent` | app.py:68-73 | Text with surrounding ideographic spaces is changed by `strip()`, but it reaches the service unchanged. |
| `Submit.TravelPlanScenario` | app.py:70-75 | A travel question to persona A, with a service answering "旅程案: ...", sends one request with the travel planner's prompt and shows that answer unchanged. |
| `Submit.BlankHistoryScenario` | app.py:68-69 | Three spaces to persona B give the blank-input warning, and no request is sent. |

## Left out

- Streamlit rendering (`set_page_config`, `title`, `markdown`, `radio`, `text_area`, `button`, `spinner`, `subheader`, `write`, `error`, `warning`): this is UI. Its effect is modelled only as the `Outcome` the page ends up showing, and one run of the script is one call of `Submit.Run`.
- `load_dotenv` and `os.getenv`: environment and secret-store I/O. The value of `OPENAI_API_KEY` is an `Option<string>` parameter.
- `ChatOpenAI` construction and the call `llm(messages)`: a foreign library and a remote service. Both are folded into the `ChatService` oracle, and a failure of either is a `Raised` reply. When it is `ChatOpenAI(...)` that raises, nothing actually leaves the process, but `sent` still records the one request that would have been sent.
- The service is one fixed function per run, while the real service may answer the same request differently on each call. That variation is modelled by passing a different `llm` to each run; a run sends at most one request (`Submit.CalledOnlyWhenAccepted`), so nothing within a run is lost.
- The model name and the temperature are carried as constants with no behaviour. The temperature 0.5 is a float in the source and is written as 5 tenths here.
- LangChain allows a message's `content` to be a list of content parts. The model treats it as a string.
- Exceptions are a class name and the text `str(e)`. Exceptions that are not `Exception` subclasses (such as `KeyboardInterrupt`) would escape `except Exception`. The oracle is not allowed to raise them.
- `PyText.IsSpace` follows the whitespace table of `str.isspace` under Unicode 15. Lone surrogates, which Python strings may hold and Dafny characters may not, are not modelled.
- The labels, the prompts, the `ValueError` text and the `エラー: ` prefix are carried as constants. The credential error (app.py:67) and the blank-input warning (app.py:69), with their icons, are represented only by the outcomes `MissingKey` and `EmptyInput`.
