/** The terminal chat (`chat.py`): choose the language model from the
    environment, run a self-check through the retrieval path, then answer
    input lines one by one until an exit word. Reading lines, printing and
    the model call are outside the model: the lines arrive as a sequence,
    what would be printed is returned as a sequence of outputs, and the model
    is a function that answers a prompt or fails. */
module Chat {
  import opened Results
  import opened Environment
  import opened Search
  import opened Lines

  // ---------------------------------------------------------------------
  // get_llm
  // ---------------------------------------------------------------------

  datatype Provider = OpenAi | Google

  /** A chat model client: its provider, model name and temperature. */
  datatype Llm = Llm(provider: Provider, model: string, temperature: int)

  const DefaultOpenAiModel: string := "gpt-4o-mini"
  const DefaultGoogleModel: string := "gemini-2.0-flash-exp"

  /** `get_llm()`: OpenAI whenever its key is set, else Google when its key
      is set, else an error. Both clients run at temperature 0. */
  function GetLlm(env: Env): (r: Result<Llm>)
    ensures r.Ok? <==> IsSet(env, OpenAiKey) || IsSet(env, GoogleKey)
    ensures r.Err? ==> r.error == NoApiKey
    ensures r.Ok? ==> r.value.temperature == 0
    ensures r.Ok? ==> (r.value.provider == OpenAi <==> IsSet(env, OpenAiKey))
  {
    if IsSet(env, OpenAiKey) then Ok(Llm(OpenAi, GetOr(env, OpenAiLlmModel, DefaultOpenAiModel), 0))
    else if IsSet(env, GoogleKey) then Ok(Llm(Google, GetOr(env, GoogleLlmModel, DefaultGoogleModel), 0))
    else Err(NoApiKey)
  }

  /** The model name is the configured one, and the provider's default only
      when the variable is absent: a variable set to "" selects the model
      named "". */
  lemma GetLlmModel(env: Env)
    requires GetLlm(env).Ok?
    ensures var llm := GetLlm(env).value;
      var key := if llm.provider == OpenAi then OpenAiLlmModel else GoogleLlmModel;
      var default := if llm.provider == OpenAi then DefaultOpenAiModel else DefaultGoogleModel;
      && (key in env ==> llm.model == env[key])
      && (key !in env ==> llm.model == default)
  {
  }

  // ---------------------------------------------------------------------
  // check_system_initialization
  // ---------------------------------------------------------------------

  /** Why the self-check failed: an empty prompt, or the error raised while
      building it. */
  datatype Reason = SearchFailed | Raised(error: Error)

  datatype Readiness = Ready | NotReady(reason: Reason)

  const SelfTestQuestion: string := "test"

  /** `search_prompt` as the chat sees it: the prompt for a question, or
      the error it raised. */
  type PromptBuilder = string -> Result<string>

  /** `search` is `search_prompt` over the environment `env` and the vector
      store `store`. */
  ghost predicate SearchesWith(search: PromptBuilder, env: Env, store: Store) {
    forall q :: search(q) == SearchPrompt(env, store, q).prompt
  }

  /** `check_system_initialization()`: builds a prompt for the question
      "test"; an error or an empty prompt means the system is not ready. */
  function CheckSystemInitialization(search: PromptBuilder): (r: Readiness)
    ensures r.Ready? <==> search(SelfTestQuestion).Ok? && search(SelfTestQuestion).value != ""
    ensures search(SelfTestQuestion).Err? ==> r == NotReady(Raised(search(SelfTestQuestion).error))
    ensures r == NotReady(SearchFailed) <==> search(SelfTestQuestion) == Ok("")
  {
    match search(SelfTestQuestion)
    case Err(e) => NotReady(Raised(e))
    case Ok(p) => if p == "" then NotReady(SearchFailed) else Ready
  }

  /** Every prompt `search_prompt` returns is non-empty. */
  lemma PromptNeverEmpty(search: PromptBuilder, env: Env, store: Store, question: string)
    requires SearchesWith(search, env, store)
    ensures search(question).Ok? <==> SearchPrompt(env, store, question).prompt.Ok?
    ensures search(question).Ok? ==> search(question).value != ""
  {
    var r := SearchPrompt(env, store, question);
    assert search(question) == r.prompt;
    if r.prompt.Ok? {
      PromptShape(Context(store(r.query.value).value), question);
    }
  }

  /** The "Error in search function" branch is unreachable: the self-check
      passes exactly when building the test prompt raises nothing. */
  lemma SelfCheckFailsOnlyByRaising(search: PromptBuilder, env: Env, store: Store)
    requires SearchesWith(search, env, store)
    ensures CheckSystemInitialization(search).Ready? <==> SearchPrompt(env, store, SelfTestQuestion).prompt.Ok?
    ensures CheckSystemInitialization(search) != NotReady(SearchFailed)
  {
    PromptNeverEmpty(search, env, store, SelfTestQuestion);
  }

  // ---------------------------------------------------------------------
  // Reading a line
  // ---------------------------------------------------------------------

  const ExitWords: seq<string> := ["sair", "exit", "quit"]

  /** What an input line asks for. */
  datatype Input = Exit | Blank | Question(text: string)

  /** Strip the line, compare its lower-case form with the exit words, then
      test for emptiness; anything else is a question, stripped. */
  function Classify(line: string): (r: Input)
    ensures r.Exit? <==> Lower(Strip(line)) in ExitWords
    ensures r.Blank? <==> AllSpace(line)
    ensures r.Question? ==> r.text == Strip(line) && r.text != "" && Trimmed(r.text)
  {
    var question := Strip(line);
    if Lower(question) in ExitWords then Exit
    else if question == "" then Blank
    else Question(question)
  }

  /** A word that lowers to an exit word starts and ends with a letter. */
  lemma ExitWordTrimmed(w: string)
    requires Lower(w) in ExitWords
    ensures Trimmed(w)
  {
    var l := Lower(w);
    assert l[0] == LowerChar(w[0]) && l[|l| - 1] == LowerChar(w[|w| - 1]);
    assert l[0] in "seq" && l[|l| - 1] in "rtt";
  }

  /** Exit words match in any letter case and with any surrounding
      whitespace. */
  lemma ExitIgnoresCaseAndSpace(a: string, w: string, b: string)
    requires AllSpace(a) && AllSpace(b) && Lower(w) in ExitWords
    ensures Classify(a + w + b) == Exit
  {
    ExitWordTrimmed(w);
    StripPadded(a, w, b);
  }

  /** `"  QUIT "` ends the session. The line is written as its padding and
      its word, the parts the general lemma is about. */
  lemma QuitShouted()
    ensures Classify("  " + "QUIT" + " ") == Exit
  {
    assert AllSpace("  ") && AllSpace(" ");
    assert Lower("QUIT") == "quit";
    ExitIgnoresCaseAndSpace("  ", "QUIT", " ");
  }

  /** A question is passed on without its surrounding whitespace and
      otherwise unchanged. */
  lemma QuestionIsStripped(a: string, q: string, b: string)
    requires AllSpace(a) && AllSpace(b) && Trimmed(q) && q != ""
    requires Lower(q) !in ExitWords
    ensures Classify(a + q + b) == Question(q)
  {
    StripPadded(a, q, b);
  }

  // ---------------------------------------------------------------------
  // One turn of the loop
  // ---------------------------------------------------------------------

  /** The chat model call: the reply content for a prompt, or an error. */
  type Invoke = (Llm, string) -> Result<string>

  /** Everything the chat depends on outside itself: the environment, the
      prompt builder and the model call. */
  datatype Services = Services(env: Env, search: PromptBuilder, invoke: Invoke)

  /** One printed message. */
  datatype Output =
    | Banner                       // the start message naming the exit word
    | Goodbye
    | Reprompt                     // asks for a valid question
    | Answer(content: string)      // the model's reply
    | TurnError(error: Error)      // this question failed; the loop goes on
    | CouldNotStart(reason: Reason)
    | StartError(error: Error)     // the outer handler's first line ...
    | CheckConfiguration           // ... and its second

  /** The effect of one input line: what is printed, the prompt sent to the
      model if any, and whether the loop ends. */
  datatype Turn = Turn(output: Output, prompt: Option<string>, stop: bool)

  /** One iteration of the `while True` loop for an input line. */
  function Step(sv: Services, llm: Llm, line: string): (t: Turn)
    ensures t.stop <==> Classify(line).Exit?
    ensures t.stop ==> t.output == Goodbye && t.prompt.None?
    ensures Classify(line).Blank? ==> t.output == Reprompt && t.prompt.None?
    ensures t.prompt.Some? <==> Classify(line).Question? && sv.search(Classify(line).text).Ok?
    ensures t.prompt.Some? ==>
      && t.prompt.value == sv.search(Classify(line).text).value
      && t.output == Reply(sv.invoke(llm, t.prompt.value))
    ensures Classify(line).Question? && t.prompt.None? ==>
      t.output == TurnError(sv.search(Classify(line).text).error)
  {
    match Classify(line)
    case Exit => Turn(Goodbye, None, true)
    case Blank => Turn(Reprompt, None, false)
    case Question(q) =>
      match sv.search(q)
      case Err(e) => Turn(TurnError(e), None, false)
      case Ok(p) => Turn(Reply(sv.invoke(llm, p)), Some(p), false)
  }

  /** What is printed for the model's answer: its content, or the error the
      call raised, reported without ending the loop. */
  function Reply(answer: Result<string>): (out: Output)
    ensures out.Answer? <==> answer.Ok?
    ensures answer.Ok? ==> out.content == answer.value
    ensures answer.Err? ==> out == TurnError(answer.error)
  {
    match answer
    case Ok(content) => Answer(content)
    case Err(e) => TurnError(e)
  }

  /** An empty retrieval does not skip the model: the question is still
      sent, inside a prompt whose context slot is empty. */
  lemma EmptyRetrievalStillAsks(sv: Services, store: Store, llm: Llm, line: string)
    requires SearchesWith(sv.search, sv.env, store)
    requires Classify(line).Question?
    requires CheckRequired(sv.env, SearchKeys).Pass?
    requires store(IssuedQuery(sv.env, Classify(line).text)) == Ok([])
    ensures Step(sv, llm, line).prompt == Some(Prompt("", Classify(line).text))
  {
    var q := Classify(line).text;
    RetrievedPrompt(sv.env, store, [], q);
    assert Context([]) == "" by {
      assert PageTexts([]) == [];
    }
    assert sv.search(q) == Ok(Prompt("", q));
  }

  // ---------------------------------------------------------------------
  // The loop
  // ---------------------------------------------------------------------

  /** The loop over the input: what it printed, the prompt (if any) sent for
      each line it read, how many lines it read, and whether it ended on an
      exit word rather than at the end of the input. */
  datatype Session = Session(outputs: seq<Output>, prompts: seq<Option<string>>, consumed: nat, exited: bool)

  /** The turns of one chat session: every line is handled by `Step` with
      the same services and model. */
  function Turns(sv: Services, llm: Llm): string -> Turn {
    line => Step(sv, llm, line)
  }

  /** The `while True` loop fed with `lines`, each handled by `step`. It
      reads up to and including the first line whose turn stops the loop.
      Without one it reaches the end of the input, where `input()` raises and
      the outer handler prints its two lines. `LoopStops` and `LoopTrace`
      state which lines were read and what each printed. */
  function Loop(step: string -> Turn, lines: seq<string>): (s: Session)
    ensures s.consumed <= |lines|
    ensures s.exited ==> 0 < s.consumed && step(lines[s.consumed - 1]).stop
    ensures !s.exited ==> s.consumed == |lines|
    ensures |s.outputs| == s.consumed + (if s.exited then 0 else 2)
    ensures |s.prompts| == s.consumed
    decreases |lines|
  {
    if |lines| == 0 then Session([StartError(EndOfInput), CheckConfiguration], [], 0, false)
    else
      var t := step(lines[0]);
      if t.stop then Session([t.output], [t.prompt], 1, true)
      else
        var rest := Loop(step, lines[1..]);
        assert rest.exited ==> lines[rest.consumed] == lines[1..][rest.consumed - 1];
        Session([t.output] + rest.outputs, [t.prompt] + rest.prompts, 1 + rest.consumed, rest.exited)
  }

  /** No line before the last one read stops the loop, and a loop that ran
      to the end of the input met no stopping line at all. */
  lemma {:induction false} LoopStops(step: string -> Turn, lines: seq<string>)
    ensures var s := Loop(step, lines);
      && (forall i | 0 <= i < s.consumed - 1 :: !step(lines[i]).stop)
      && (!s.exited ==> forall i | 0 <= i < |lines| :: !step(lines[i]).stop)
    decreases |lines|
  {
    if |lines| > 0 && !step(lines[0]).stop {
      LoopStops(step, lines[1..]);
      assert forall i | 1 <= i < |lines| :: lines[i] == lines[1..][i - 1];
    }
  }

  /** Every line read prints its turn's output and sends its turn's prompt,
      in input order; at the end of the input the outer handler's two lines
      follow. */
  lemma {:induction false} LoopTrace(step: string -> Turn, lines: seq<string>)
    ensures var s := Loop(step, lines);
      && (forall i | 0 <= i < s.consumed :: s.outputs[i] == step(lines[i]).output)
      && (forall i | 0 <= i < s.consumed :: s.prompts[i] == step(lines[i]).prompt)
      && (!s.exited ==> s.outputs[s.consumed..] == [StartError(EndOfInput), CheckConfiguration])
    decreases |lines|
  {
    if |lines| > 0 && !step(lines[0]).stop {
      LoopTrace(step, lines[1..]);
      var s := Loop(step, lines);
      var rest := Loop(step, lines[1..]);
      assert forall i | 1 <= i < |lines| :: lines[i] == lines[1..][i - 1];
      assert forall i | 1 <= i < |s.outputs| :: s.outputs[i] == rest.outputs[i - 1];
      assert forall i | 1 <= i < |s.prompts| :: s.prompts[i] == rest.prompts[i - 1];
      assert s.outputs[s.consumed..] == rest.outputs[rest.consumed..];
    }
  }

  /** The loop stops at the first exit word and nowhere else: a failed
      turn, a blank line or an answered question never ends it. */
  lemma LoopStopsAtFirstExit(sv: Services, llm: Llm, lines: seq<string>, k: nat)
    requires k < |lines| && Classify(lines[k]).Exit?
    requires forall j | 0 <= j < k :: !Classify(lines[j]).Exit?
    ensures Loop(Turns(sv, llm), lines).exited
    ensures Loop(Turns(sv, llm), lines).consumed == k + 1
    ensures Loop(Turns(sv, llm), lines).outputs[k] == Goodbye
  {
    var step := Turns(sv, llm);
    assert step(lines[k]).stop;
    assert forall j | 0 <= j < k :: !step(lines[j]).stop;
    LoopStops(step, lines);
    LoopTrace(step, lines);
  }

  /** Without an exit word every line is read and answered in turn, and the
      session ends at the end of the input. */
  lemma LoopReadsAllWithoutExit(sv: Services, llm: Llm, lines: seq<string>)
    requires forall j | 0 <= j < |lines| :: !Classify(lines[j]).Exit?
    ensures var s := Loop(Turns(sv, llm), lines);
      && !s.exited
      && s.consumed == |lines|
      && s.outputs[|lines|..] == [StartError(EndOfInput), CheckConfiguration]
      && forall j | 0 <= j < |lines| :: s.outputs[j] == Step(sv, llm, lines[j]).output
  {
    var step := Turns(sv, llm);
    assert forall j | 0 <= j < |lines| :: !step(lines[j]).stop;
    LoopTrace(step, lines);
  }

  // ---------------------------------------------------------------------
  // main
  // ---------------------------------------------------------------------

  /** `main()` fed with `lines`: what it prints. */
  function ChatMain(sv: Services, lines: seq<string>): (outputs: seq<Output>)
    ensures GetLlm(sv.env).Err? ==> outputs == [StartError(GetLlm(sv.env).error), CheckConfiguration]
    ensures GetLlm(sv.env).Ok? && CheckSystemInitialization(sv.search).NotReady? ==>
      outputs == [CouldNotStart(CheckSystemInitialization(sv.search).reason)]
    ensures |outputs| > 0 && (outputs[0] == Banner <==>
      GetLlm(sv.env).Ok? && CheckSystemInitialization(sv.search).Ready?)
    ensures GetLlm(sv.env).Ok? && CheckSystemInitialization(sv.search).Ready? ==>
      outputs == [Banner] + Loop(Turns(sv, GetLlm(sv.env).value), lines).outputs
  {
    match GetLlm(sv.env)
    case Err(e) => [StartError(e), CheckConfiguration]
    case Ok(llm) =>
      match CheckSystemInitialization(sv.search)
      case NotReady(why) => [CouldNotStart(why)]
      case Ready => [Banner] + Loop(Turns(sv, llm), lines).outputs
  }

  /** With only the Google key set, `get_llm` picks Google, but the self-check
      fails on the missing OpenAI key and the loop is never entered. */
  lemma GoogleOnlyNeverChats(sv: Services, store: Store, lines: seq<string>)
    requires SearchesWith(sv.search, sv.env, store)
    requires IsSet(sv.env, GoogleKey) && !IsSet(sv.env, OpenAiKey)
    ensures GetLlm(sv.env).Ok? && GetLlm(sv.env).value.provider == Google
    ensures ChatMain(sv, lines) == [CouldNotStart(Raised(MissingVariable(OpenAiKey)))]
  {
    SearchValidation(sv.env);
  }
}
