/**
  The handler behind the "送信" (send) button: a prioritised decision. A missing API
  key is reported and nothing else happens; otherwise blank input is reported and
  nothing else happens; otherwise `get_llm_response` is called once with the text as
  typed, and its answer is shown, or any exception it raises is shown as an error.
  Rendering is abstracted to the `Outcome` the page ends up showing.
 */
module Submit {
  import opened Wrappers
  import opened PyText
  import opened Personas
  import opened Dispatch

  /** What the page shows after a run of the script. */
  datatype Outcome =
    | Idle                      // the button was not pressed
    | MissingKey                // `st.error` about the unset OPENAI_API_KEY
    | EmptyInput                // `st.warning` asking for text
    | Answer(text: string)      // `st.write(answer)` under the answer heading
    | Failed(message: string)   // `st.error(f"エラー: {e}")`

  /** A run of the script: the requests sent to the chat model, and the outcome. */
  datatype Submission = Submission(sent: seq<ChatRequest>, outcome: Outcome)

  const ErrorPrefix := "エラー: "

  /** `not os.getenv("OPENAI_API_KEY")`: the variable is unset or set to "". */
  predicate KeyMissing(apiKey: Option<string>) {
    apiKey.None? || apiKey.value == ""
  }

  /** The body of `if st.button("送信"):`, for the environment's API key, the text area's
      content and the radio's selection. */
  function OnSubmit(apiKey: Option<string>, userInput: string, expertKey: string, llm: ChatService): (s: Submission)
    ensures KeyMissing(apiKey) ==> s == Submission([], MissingKey)
    ensures !KeyMissing(apiKey) && IsBlank(userInput) ==> s == Submission([], EmptyInput)
    ensures !KeyMissing(apiKey) && !IsBlank(userInput) ==>
      var call := GetLlmResponse(userInput, expertKey, llm);
      && s.sent == call.sent
      && (call.result.Success? ==> s.outcome == Answer(call.result.value))
      && (call.result.Failure? ==> s.outcome == Failed(ErrorPrefix + call.result.error.message))
  {
    if KeyMissing(apiKey) then
      Submission([], MissingKey)
    else if IsBlank(userInput) then
      Submission([], EmptyInput)
    else
      var call := GetLlmResponse(userInput, expertKey, llm);
      match call.result
      case Success(answer) => Submission(call.sent, Answer(answer))
      case Failure(e) => Submission(call.sent, Failed(ErrorPrefix + e.message))
  }

  /** One run of the script: the handler runs only when the button was pressed. */
  function Run(pressed: bool, apiKey: Option<string>, userInput: string, expertKey: string, llm: ChatService): (s: Submission)
    ensures !pressed ==> s == Submission([], Idle)
    ensures pressed ==> s == OnSubmit(apiKey, userInput, expertKey, llm)
    ensures pressed ==> s.outcome != Idle
  {
    if pressed then OnSubmit(apiKey, userInput, expertKey, llm) else Submission([], Idle)
  }

  /** The chat model is contacted at most once, and exactly when the credential is
      present, the text is not whitespace only, and the key is registered. */
  lemma CalledOnlyWhenAccepted(apiKey: Option<string>, userInput: string, expertKey: string, llm: ChatService)
    ensures var s := OnSubmit(apiKey, userInput, expertKey, llm);
      && |s.sent| <= 1
      && (|s.sent| == 1 <==> !KeyMissing(apiKey) && !AllSpace(userInput) && expertKey in Experts())
  {
  }

  /** A key the selector offers, a credential and some non-blank text: exactly one
      request, carrying the persona's prompt and the text as typed (not stripped);
      the reply is shown unchanged, and an exception becomes an error message that
      starts with the "エラー: " prefix and ends with the exception's text. */
  lemma SelectedKeyAnswers(i: nat, apiKey: Option<string>, userInput: string, llm: ChatService)
    requires i < |RadioOptions()|
    requires !KeyMissing(apiKey) && !AllSpace(userInput)
    ensures var k, s := RadioOptions()[i], OnSubmit(apiKey, userInput, RadioOptions()[i], llm);
      && k in Experts()
      && |s.sent| == 1
      && s.sent[0] == ChatRequest(ModelName, TemperatureTenths,
                                  [SystemMessage(Experts()[k].system), HumanMessage(userInput)])
      && (forall c :: s.outcome == Answer(c) <==> llm(s.sent[0]) == Replied(c))
      && (forall e :: llm(s.sent[0]) == Raised(e) ==> s.outcome == Failed(ErrorPrefix + e.message))
      && (s.outcome.Answer? || s.outcome.Failed?)
  {
  }

  /** A key outside `EXPERTS` never reaches the service: its `ValueError` is caught by
      the handler's `except Exception` and shown as an error. */
  lemma UnknownKeyShownAsError(apiKey: Option<string>, userInput: string, expertKey: string, llm: ChatService)
    requires !KeyMissing(apiKey) && !AllSpace(userInput) && expertKey !in Experts()
    ensures OnSubmit(apiKey, userInput, expertKey, llm) == Submission([], Failed(ErrorPrefix + UnknownKeyMessage))
  {
  }

  /** Whatever the chat model does with requests the handler did not send is
      irrelevant: two services that agree on the sent request give the same run. */
  lemma OnlySentRequestMatters(apiKey: Option<string>, userInput: string, expertKey: string, llm1: ChatService, llm2: ChatService)
    requires forall q :: q in OnSubmit(apiKey, userInput, expertKey, llm1).sent ==> llm1(q) == llm2(q)
    ensures OnSubmit(apiKey, userInput, expertKey, llm1) == OnSubmit(apiKey, userInput, expertKey, llm2)
  {
  }

  /** The text reaches the service as typed: surrounding ideographic spaces, which
      `strip()` removes, are still in the human message. */
  lemma UntrimmedTextSent(llm: ChatService)
    ensures var typed := "\U{3000}京都\U{3000}";
      && Strip(typed) != typed
      && OnSubmit(Some("sk"), typed, "A", llm).sent
           == [ChatRequest(ModelName, TemperatureTenths,
                           [SystemMessage(TravelPlanner.system), HumanMessage(typed)])]
  {
  }

  /** Persona A with a travel question and a service answering "旅程案: ...": the
      answer is shown exactly as returned, after one request with the travel
      planner's prompt and the question as typed. */
  lemma TravelPlanScenario(llm: ChatService)
    requires forall q :: llm(q) == Replied("旅程案: ...")
    ensures var question := "3泊4日で京都旅行の予定を立てたい";
      var s := OnSubmit(Some("sk"), question, "A", llm);
      && s.outcome == Answer("旅程案: ...")
      && s.sent == [ChatRequest(ModelName, TemperatureTenths,
                                [SystemMessage(TravelPlanner.system), HumanMessage(question)])]
  {
    // The first character is not whitespace, so the question is not blank; without
    // this the solver has to unfold `Strip` over the whole literal.
    var question := "3泊4日で京都旅行の予定を立てたい";
    assert !IsSpace(question[0]);
  }

  /** Persona B with three spaces: the blank-input warning, and no request at all. */
  lemma BlankHistoryScenario(llm: ChatService)
    ensures OnSubmit(Some("sk"), "   ", "B", llm) == Submission([], EmptyInput)
  {
  }
}
