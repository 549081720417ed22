/** Retrieval and prompt building (`search_prompt`): validate the retrieval
    configuration, ask the vector store for the ten chunks nearest to the
    question, join their texts with newlines and fill the fixed grounding
    template. Embedding the question and the nearest-neighbour search happen
    inside the store and are one abstract capability here. */
module Search {
  import opened Results
  import opened Environment
  import opened Documents
  import opened Formatting
  import opened Template

  // ---------------------------------------------------------------------
  // `PROMPT_TEMPLATE`, line by line. Each constant is one line of the
  // template; its type records that it holds no brace. The verifier checks
  // that per character, and string literals of more than about forty
  // characters exhaust its budget, so longer lines are written as two
  // literals joined at a space.
  // ---------------------------------------------------------------------

  /** The sentence the model must answer with when the context lacks the
      information. */
  const Refusal: PlainText := "Não tenho informações necessárias " + "para responder sua pergunta."

  const ContextLabel: PlainText := "CONTEXTO:"
  const RulesLabel: PlainText := "REGRAS:"
  const RuleContextOnly: PlainText := "- Responda somente com base no CONTEXTO."
  const RuleRefuse: PlainText := "- Se a informação não estiver " + "explicitamente no CONTEXTO, responda:"
  const RuleNoOutsideKnowledge: PlainText := "- Nunca invente ou use " + "conhecimento externo."
  const RuleNoOpinion: PlainText := "- Nunca produza opiniões ou " + "interpretações além do que está escrito."
  const ExamplesLabel: PlainText := "EXEMPLOS DE PERGUNTAS FORA DO CONTEXTO:"
  const ExampleCapital: PlainText := "Pergunta: \"Qual é a capital da França?\""
  const ExampleCustomers: PlainText := "Pergunta: \"Quantos clientes " + "temos em 2024?\""
  const ExampleOpinion: PlainText := "Pergunta: \"Você acha isso bom ou ruim?\""
  const AnswerOpening: PlainText := "Resposta: \""
  const QuestionLabel: PlainText := "PERGUNTA DO USUÁRIO:"
  const FinalInstruction: PlainText := "RESPONDA A \"PERGUNTA DO USUÁRIO\""

  /** Lines 8-10 of src/search.py: the opening newline up to the context slot. */
  const ContextHeader: PlainText := "\n" + ContextLabel + "\n"

  /** Lines 10-15 of src/search.py: from the end of the context slot to the
      first refusal. */
  const Rules: PlainText := "\n\n" + RulesLabel + "\n" + RuleContextOnly + "\n" + RuleRefuse + "\n  \""

  /** Lines 15-21 of src/search.py: the two remaining rules and the first
      example question. */
  const FirstExample: PlainText :=
    "\"\n" + RuleNoOutsideKnowledge + "\n" + RuleNoOpinion + "\n\n" + ExamplesLabel + "\n"
    + ExampleCapital + "\n" + AnswerOpening

  /** Lines 21-24 and 24-27 of src/search.py: the second and third example
      questions. */
  const SecondExample: PlainText := "\"\n\n" + ExampleCustomers + "\n" + AnswerOpening
  const ThirdExample: PlainText := "\"\n\n" + ExampleOpinion + "\n" + AnswerOpening

  /** Lines 27-30 of src/search.py: from the last refusal to the question
      slot. */
  const QuestionHeader: PlainText := "\"\n\n" + QuestionLabel + "\n"

  /** Lines 30-33 of src/search.py: from the question slot to the end. */
  const Closing: PlainText := "\n\n" + FinalInstruction + "\n"

  /** The program's template text. */
  const Portuguese: Template.Text := Template.Text(
    ContextHeader, Rules, Refusal, FirstExample, SecondExample, ThirdExample,
    QuestionHeader, Closing)

  lemma PortugueseIsPlain()
    ensures Template.Plain(Portuguese)
  {
  }

  /** Formatting the program's template with any context and question
      yields the prompt. */
  lemma PortugueseRenders(context: string, question: string)
    ensures Render(Portuguese, context, question) == Ok(Prompt(context, question))
  {
    PortugueseIsPlain();
  }

  /** Formatting the program's template succeeds for every context and
      question. */
  lemma PortugueseRendersAll()
    ensures forall context, question :: Render(Portuguese, context, question) == Ok(Prompt(context, question))
  {
    forall context, question
      ensures Render(Portuguese, context, question) == Ok(Prompt(context, question))
    {
      PortugueseRenders(context, question);
    }
  }

  /** `PROMPT_TEMPLATE`: 780 characters with the two replacement fields,
      which `format` fills into a prompt for any context and question. */
  function PromptTemplate(): (t: string)
    ensures |t| == 780
    ensures forall context, question ::
      Format(t, PromptArgs(context, question)) == Ok(Prompt(context, question))
  {
    TemplateLengths();
    PortugueseRendersAll();
    Source(Portuguese)
  }

  /** A prompt rendered from the program's template. */
  function Prompt(context: string, question: string): string {
    Filled(Portuguese, context, question)
  }

  lemma TemplateLengths()
    ensures |Portuguese.contextHeader| == 11
    ensures |Middle(Portuguese)| == 714
    ensures |Portuguese.closing| == 35
  {
  }

  /** Every rendered prompt is 760 characters of fixed template text plus
      the context and the question, starts and ends with a newline, and is
      therefore never empty. */
  lemma PromptShape(context: string, question: string)
    ensures |Prompt(context, question)| == 760 + |context| + |question|
    ensures Prompt(context, question)[0] == '\n'
    ensures Prompt(context, question)[|Prompt(context, question)| - 1] == '\n'
  {
    var p := Prompt(context, question);
    FilledLayout(Portuguese, context, question);
    TemplateLengths();
    assert p[0] == p[..11][0] == ContextHeader[0];
    assert p[|p| - 1] == p[|p| - 35..][34] == Closing[34];
  }

  /** Whatever the context and the question, the prompt contains the
      refusal sentence at least four times. */
  lemma PromptRepeatsRefusal(context: string, question: string)
    ensures |Occurrences(Prompt(context, question), Refusal)| >= 4
  {
    assert |Refusal| > 0;
    RepeatsRefusal(Portuguese, context, question);
  }

  // ---------------------------------------------------------------------
  // Joining the retrieved texts.
  // ---------------------------------------------------------------------

  /** The total length of some texts. */
  function TotalLength(parts: seq<string>): nat
    decreases |parts|
  {
    if |parts| == 0 then 0 else |parts[0]| + TotalLength(parts[1..])
  }

  /** `sep.join(parts)` for a one-character separator: every part once, in
      order, with one separator between neighbours and none at the ends. */
  function Join(parts: seq<string>, sep: char): (r: string)
    ensures |parts| == 0 ==> r == ""
    ensures |parts| > 0 ==> |r| == TotalLength(parts) + |parts| - 1
    ensures |parts| > 0 ==> r[..|parts[0]|] == parts[0]
    ensures |parts| > 1 ==> r[|parts[0]|] == sep
    decreases |parts|
  {
    if |parts| == 0 then ""
    else if |parts| == 1 then parts[0]
    else parts[0] + [sep] + Join(parts[1..], sep)
  }

  /** `s.split(sep)`: the pieces between separators; the empty string gives
      one empty piece. */
  function SplitOn(s: string, sep: char): (r: seq<string>)
    ensures |r| > 0
    decreases |s|
  {
    if |s| == 0 then [""]
    else
      var rest := SplitOn(s[1..], sep);
      if s[0] == sep then [""] + rest
      else [[s[0]] + rest[0]] + rest[1..]
  }

  lemma {:induction false} SplitPlainPrefix(a: string, x: string, sep: char)
    requires sep !in a
    ensures SplitOn(a + x, sep) == [a + SplitOn(x, sep)[0]] + SplitOn(x, sep)[1..]
    decreases |a|
  {
    if |a| == 0 {
      var r := SplitOn(x, sep);
      assert a + x == x;
      assert a + r[0] == r[0];
      assert r == [r[0]] + r[1..];
    } else {
      assert (a + x)[1..] == a[1..] + x;
      assert a[0] in a;
      SplitPlainPrefix(a[1..], x, sep);
      assert [a[0]] + (a[1..] + SplitOn(x, sep)[0]) == a + SplitOn(x, sep)[0];
    }
  }

  /** Splitting a join of separator-free parts recovers the parts: the
      context keeps each retrieved text intact and in result order. */
  lemma {:induction false} SplitJoin(parts: seq<string>, sep: char)
    requires |parts| > 0
    requires forall i | 0 <= i < |parts| :: sep !in parts[i]
    ensures SplitOn(Join(parts, sep), sep) == parts
    decreases |parts|
  {
    if |parts| == 1 {
      SplitPlainPrefix(parts[0], "", sep);
      assert parts[0] + "" == parts[0];
    } else {
      var rest := Join(parts[1..], sep);
      SplitJoin(parts[1..], sep);
      assert Join(parts, sep) == parts[0] + ([sep] + rest);
      SplitPlainPrefix(parts[0], [sep] + rest, sep);
      assert ([sep] + rest)[1..] == rest;
      assert SplitOn([sep] + rest, sep) == [""] + parts[1..];
      assert parts[0] + "" == parts[0];
      assert parts == [parts[0]] + parts[1..];
    }
  }

  /** Joining the pieces of a split gives back the original text. */
  lemma {:induction false} JoinSplit(s: string, sep: char)
    ensures Join(SplitOn(s, sep), sep) == s
    decreases |s|
  {
    if |s| > 0 {
      var rest := SplitOn(s[1..], sep);
      JoinSplit(s[1..], sep);
      if s[0] == sep {
        assert ([""] + rest)[1..] == rest;
        assert Join([""] + rest, sep) == "" + [sep] + Join(rest, sep);
        assert s == [s[0]] + s[1..];
      } else {
        var parts := [[s[0]] + rest[0]] + rest[1..];
        if |rest| == 1 {
          assert s == [s[0]] + s[1..];
        } else {
          assert parts[1..] == rest[1..];
          assert Join(rest, sep) == rest[0] + [sep] + Join(rest[1..], sep);
          assert s == [s[0]] + s[1..];
        }
      }
    }
  }

  // ---------------------------------------------------------------------
  // search_prompt
  // ---------------------------------------------------------------------

  /** The retrieval path requires these, checked in this order. */
  const SearchKeys: seq<string> := [OpenAiKey, DatabaseUrl, CollectionName]

  /** The number of nearest chunks requested. */
  const TopK: nat := 10

  /** One entry of `similarity_search_with_score`: a stored document and
      its distance. The score is never read. */
  datatype Hit = Hit(doc: Chunk, score: real)

  /** Everything the store is asked with: the embedding model that encodes
      the question, the collection and connection string, the question and
      the number of results. */
  datatype StoreQuery = StoreQuery(
    embeddingsModel: string,
    collection: string,
    connection: string,
    question: string,
    k: nat)

  /** The vector store: connects, embeds the question, returns the nearest
      documents best first, or fails. */
  type Store = StoreQuery -> Result<seq<Hit>>

  /** A call of `search_prompt`: the store query it issued, if any, and the
      prompt or the error it raised. */
  datatype SearchRun = SearchRun(query: Option<StoreQuery>, prompt: Result<string>)

  function PageTexts(hits: seq<Hit>): seq<string> {
    seq(|hits|, i requires 0 <= i < |hits| => hits[i].doc.pageContent)
  }

  /** The context passed to the template: the page texts of the results,
      newline-separated, in result order. */
  function Context(hits: seq<Hit>): (r: string)
    ensures hits == [] ==> r == ""
    ensures |hits| > 0 ==> |r| == TotalLength(PageTexts(hits)) + |hits| - 1
    ensures |hits| > 0 ==> r[..|hits[0].doc.pageContent|] == hits[0].doc.pageContent
  {
    Join(PageTexts(hits), '\n')
  }

  /** Zero results give an empty context; one result gives its text with no
      separator. */
  lemma ContextEdges(hit: Hit)
    ensures Context([]) == ""
    ensures Context([hit]) == hit.doc.pageContent
  {
    assert PageTexts([]) == [];
    assert PageTexts([hit]) == [hit.doc.pageContent];
  }

  /** The store query `search_prompt` issues for `question` once the
      configuration is valid: the configured or default embedding model,
      the configured collection and connection, and k = 10. */
  function IssuedQuery(env: Env, question: string): (q: StoreQuery)
    requires CheckRequired(env, SearchKeys).Pass?
    ensures IsSet(env, OpenAiKey) && IsSet(env, DatabaseUrl) && IsSet(env, CollectionName)
    ensures q.question == question && q.k == TopK
    ensures q.collection == env[CollectionName] && q.connection == env[DatabaseUrl]
    ensures q.embeddingsModel == EmbeddingsModelName(env)
  {
    assert IsSet(env, SearchKeys[0]) && IsSet(env, SearchKeys[1]) && IsSet(env, SearchKeys[2]);
    StoreQuery(EmbeddingsModelName(env), env[CollectionName], env[DatabaseUrl], question, TopK)
  }

  /** `search_prompt(question)`. When validation fails the store is never
      queried; otherwise it is queried once, with the question and k = 10,
      and a successful answer always yields the filled template. */
  function SearchPrompt(env: Env, store: Store, question: string): (r: SearchRun)
    ensures r.query.None? <==> CheckRequired(env, SearchKeys).Fail?
    ensures r.query.None? ==> r.prompt == Err(CheckRequired(env, SearchKeys).error)
    ensures r.query.Some? ==> r.query.value == IssuedQuery(env, question)
    ensures r.query.Some? ==> (r.prompt.Ok? <==> store(r.query.value).Ok?)
    ensures r.query.Some? && store(r.query.value).Err? ==> r.prompt == Err(store(r.query.value).error)
    ensures r.prompt.Ok? ==>
      && r.query.Some?
      && r.prompt.value == Prompt(Context(store(r.query.value).value), question)
  {
    match CheckRequired(env, SearchKeys)
    case Fail(e) => SearchRun(None, Err(e))
    case Pass =>
      var query := IssuedQuery(env, question);
      match store(query)
      case Err(e) => SearchRun(Some(query), Err(e))
      case Ok(hits) =>
        var context := Context(hits);
        PortugueseRenders(context, question);
        SearchRun(Some(query), Render(Portuguese, context, question))
  }

  /** Validation of the retrieval path, key by key: the OpenAI key first,
      then the database URL, then the collection name. */
  lemma SearchValidation(env: Env)
    ensures CheckRequired(env, SearchKeys) ==
      if !IsSet(env, OpenAiKey) then Fail(MissingVariable(OpenAiKey))
      else if !IsSet(env, DatabaseUrl) then Fail(MissingVariable(DatabaseUrl))
      else if !IsSet(env, CollectionName) then Fail(MissingVariable(CollectionName))
      else Pass
  {
    if !IsSet(env, OpenAiKey) {
      CheckRequiredNamesFirst(env, SearchKeys, 0);
    } else if !IsSet(env, DatabaseUrl) {
      CheckRequiredNamesFirst(env, SearchKeys, 1);
    } else if !IsSet(env, CollectionName) {
      CheckRequiredNamesFirst(env, SearchKeys, 2);
    }
  }

  /** Whatever results the store returns for the issued query, the prompt
      is the template filled with their joined page texts. */
  lemma RetrievedPrompt(env: Env, store: Store, hits: seq<Hit>, question: string)
    requires CheckRequired(env, SearchKeys).Pass?
    requires store(IssuedQuery(env, question)) == Ok(hits)
    ensures SearchPrompt(env, store, question).prompt == Ok(Prompt(Context(hits), question))
  {
    var r := SearchPrompt(env, store, question);
    assert r.query.Some? && store(r.query.value) == Ok(hits);
    assert r.prompt == Ok(r.prompt.value);
  }

  /** With no stored chunk near the question the context slot is empty, the
      prompt is still produced, and it still carries the refusal rules. */
  lemma EmptyRetrieval(env: Env, store: Store, question: string)
    requires CheckRequired(env, SearchKeys).Pass?
    requires store(IssuedQuery(env, question)) == Ok([])
    ensures SearchPrompt(env, store, question).prompt == Ok(Prompt("", question))
    ensures |Occurrences(SearchPrompt(env, store, question).prompt.value, Refusal)| >= 4
  {
    RetrievedPrompt(env, store, [], question);
    assert PageTexts([]) == [];
    assert Context([]) == "";
    PromptRepeatsRefusal("", question);
  }

  /** With results "A" and "B", in that order, the context slot holds "A\nB". */
  lemma TwoResults(env: Env, store: Store, a: Chunk, b: Chunk, question: string)
    requires CheckRequired(env, SearchKeys).Pass?
    requires a.pageContent == "A" && b.pageContent == "B"
    requires store(IssuedQuery(env, question)) == Ok([Hit(a, 0.1), Hit(b, 0.2)])
    ensures SearchPrompt(env, store, question).prompt == Ok(Prompt("A\nB", question))
  {
    var hits := [Hit(a, 0.1), Hit(b, 0.2)];
    RetrievedPrompt(env, store, hits, question);
    ContextOfTwo(a, b);
  }

  lemma ContextOfTwo(a: Chunk, b: Chunk)
    requires a.pageContent == "A" && b.pageContent == "B"
    ensures Context([Hit(a, 0.1), Hit(b, 0.2)]) == "A\nB"
  {
    var parts := PageTexts([Hit(a, 0.1), Hit(b, 0.2)]);
    assert parts == ["A", "B"];
    assert parts[1..] == ["B"];
    assert Join(parts, '\n') == "A" + "\n" + Join(["B"], '\n');
  }

  /** A store that honours k returns at most ten results, so the context
      joins at most ten page texts. */
  lemma AtMostTenTexts(env: Env, store: Store, question: string)
    requires forall q: StoreQuery :: store(q).Ok? ==> |store(q).value| <= q.k
    ensures var r := SearchPrompt(env, store, question);
      r.prompt.Ok? ==> |PageTexts(store(r.query.value).value)| <= 10
  {
  }
}
