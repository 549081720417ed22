# Grounded PDF question answering, modelled in Dafny

The system answers questions about one PDF document. It has three entry
points.

- **Ingestion** (`src/ingest.py`) does the following:
  - checks five environment variables;
  - locates the PDF, loads it and splits it into chunks of 1000 characters that overlap by 150;
  - drops empty metadata values;
  - numbers the chunks `doc-0`, `doc-1`, …;
  - hands them to a PGVector collection, embedding with OpenAI.
- **Retrieval** (`search_prompt`, `src/search.py`) does the following:
  - checks three variables;
  - asks the vector store for the ten chunks nearest to the question;
  - joins their texts with newlines;
  - formats a fixed Portuguese template that has two slots, `{contexto}` and `{pergunta}`. The template tells the model to answer only from the context and to reply with a fixed refusal sentence otherwise.
- **Chat** (`src/chat.py`) does the following:
  - picks an OpenAI or Google chat model;
  - runs a self-check through retrieval;
  - loops over input lines:
    - exit words end the session;
    - blank lines are re-prompted;
    - every other line is answered by sending its prompt to the model;
    - failures in a turn are reported and the loop goes on.

The model keeps the logic around the library calls and treats those calls as parameters:

- the PDF loader, the text splitter and the store write are passed to ingestion;
- the vector store, with embedding and nearest-neighbour search inside it, is passed to retrieval;
- the chat model is passed to the chat.

The environment is a map from names to values. A variable counts as set when it is present and not empty, as `if not os.getenv(k)` reads it.

Modules:

| module | models |
|---|---|
| `Results` | error cases, `Option`, `Result`, `Outcome` |
| `Environment` | `os.getenv`, `os.getenv(k, default)` and both validators (`check_required_environments` and `check_required_enviroments`) |
| `Decimal` | `f"{i}"` for naturals, with its parser |
| `Documents` | LangChain `Document` and its metadata values |
| `Formatting` | `str.format` with keyword arguments |
| `Template` | the two-slot template shape, for any brace-free fixed text |
| `Search` | `PROMPT_TEMPLATE` (its exact text), the context join, `search_prompt` |
| `Lines` | `str.strip()` over Python's whitespace set, and `str.lower()` |
| `Ingest` | the metadata filter, enrichment, ids, `ingest_pdf` |
| `Chat` | `get_llm`, `check_system_initialization`, line classification, one loop turn, the loop, `main` |

The template text is written out in `Search` as one constant per template line, each holding no brace, and assembled into a `Template.Text`. The general facts are proved once in `Template` for any such text and then applied to the program's wording:

- formatting fills each slot once, verbatim;
- the layout and length of the result;
- four copies of the refusal sentence.

## Model

| member | source | states |
|---|---|---|
| Environment.CheckRequired | src/search.py:35-39 | validation passes exactly when every listed variable is present and non-empty; otherwise it fails with `MissingVariable` naming a key that is unset while every earlier key is set |
| Environment.CheckRequiredNamesFirst | src/ingest.py:13-17 | whenever key `i` is the first unset key of the list, the validator fails naming exactly `keys[i]` |
| Search.SearchValidation | src/search.py:37-39 | the retrieval validator checks `OPENAI_API_KEY`, then `DATABASE_URL`, then `PG_VECTOR_COLLECTION_NAME`, and reports the first one unset |
| Environment.GetOr | src/chat.py:14-20 | `os.getenv(key, default)` yields the variable's value whenever the variable is present, even when it is empty, and the default only when it is absent |
| Formatting.Format | src/search.py:64 | a format string without braces renders to itself |
| Formatting.FormatPlainPrefix | src/search.py:64 | brace-free text in front of a format string is copied to the front of the result, whatever follows |
| Formatting.FormatField | src/search.py:64 | a `{name}` field with an argument is replaced by the argument's value verbatim and formatting continues after the field |
| Formatting.ValuesAreNotReexpanded | src/search.py:64 | a value that is itself the text `{pergunta}` is inserted as is, not expanded again |
| Template.FormatFillsTemplate | src/search.py:8-33 | formatting the template with any context and question succeeds and yields the fixed text with the context in the first slot and the question in the second, once each |
| Template.Render | src/search.py:64 | formatting a template whose fixed text has no brace always succeeds, with each slot filled once by its value |
| Template.FilledLayout | src/search.py:8-33 | a rendered prompt is the fixed header, the context, the fixed middle, the question and the fixed closing, at fixed offsets, with length equal to the template's minus both slots plus both values |
| Template.RepeatsRefusal | src/search.py:15-27 | for any context and question the rendered prompt contains the refusal sentence at four or more distinct positions |
| Search.PortugueseRenders | src/search.py:64 | formatting `PROMPT_TEMPLATE` never raises and always yields the filled template |
| Search.PromptTemplate | src/search.py:8-33 | `PROMPT_TEMPLATE` is 780 characters long, and formatting it with any context and question gives the prompt with both slots filled |
| Search.PromptShape | src/search.py:8-33 | every prompt is 760 characters plus the context and the question, and starts and ends with a newline, so it is never empty |
| Search.PromptRepeatsRefusal | src/search.py:15-27 | every prompt contains "Não tenho informações necessárias para responder sua pergunta." at least four times, whatever the context and question |
| Search.Join | src/search.py:61 | joining no texts gives ""; joining one or more gives their total length plus one separator between each pair, starting with the first text, followed by the separator when there are more |
| Search.Context | src/search.py:61 | the context of no results is empty; otherwise it starts with the first result's page text and is as long as all page texts plus one newline between each pair |
| Search.SplitJoin | src/search.py:61 | for one or more results, splitting the joined context at newlines gives back the page texts, in result order, when none of them contains a newline |
| Search.JoinSplit | src/search.py:61 | joining the newline-separated pieces of any text gives the text back |
| Search.ContextEdges | src/search.py:61 | zero results give the empty context; one result gives its page text with no separator |
| Search.IssuedQuery | src/search.py:46-58 | the store is asked for the question with k = 10, over the configured collection and connection, embedding with the configured or default model |
| Search.SearchPrompt | src/search.py:41-66 | failed validation yields that error and issues no store query. Otherwise exactly one query is issued, the one `IssuedQuery` describes. A store error is returned as is. A store answer yields the template filled with the joined page texts and the question |
| Search.RetrievedPrompt | src/search.py:58-66 | with valid configuration, whatever results the store returns for the issued query end up joined in the context slot of the returned prompt |
| Search.EmptyRetrieval | src/search.py:58-64 | with no results for the issued query, the prompt is still produced, with an empty context, and still carries the refusal sentence four times |
| Search.TwoResults | src/search.py:61 | results with texts "A" and "B", in that order, for the issued query put "A\nB" in the context slot |
| Search.AtMostTenTexts | src/search.py:58-61 | when the store returns at most k results, at most ten page texts are joined |
| Ingest.FilterMetadata | src/ingest.py:40 | the filtered metadata has only keys of the input and only values other than `""` and `None`; each kept value is the input's value; every such entry of the input is kept |
| Ingest.FilterIdempotent | src/ingest.py:40 | filtering filtered metadata changes nothing |
| Ingest.EnrichAll | src/ingest.py:37-43 | enrichment keeps the chunk count, order and page text, and leaves only non-empty metadata with keys taken from the chunk |
| Ingest.EnrichAllPointwise | src/ingest.py:37-43 | chunk `i` after enrichment is chunk `i` before it, with its metadata filtered |
| Ingest.EnrichAllIdempotent | src/ingest.py:37-43 | enriching enriched chunks changes nothing |
| Ingest.IdOf | src/ingest.py:46 | an id is `doc-` followed by the decimal numeral of the chunk's index, and nothing else |
| Ingest.Ids | src/ingest.py:46 | there are as many ids as chunks and id `i` is `"doc-"` followed by the decimal numeral of `i`; no chunks give no ids |
| Ingest.IndexOfId | src/ingest.py:46 | an id can be read back to its index |
| Ingest.IdsDistinct | src/ingest.py:46 | no two chunks get the same id |
| Ingest.Prepare | src/ingest.py:28-47 | `split_document` returns one document and one id per split chunk, with the chunk's page text and ids numbered from 0 |
| Ingest.IngestPdf | src/ingest.py:66-71 | a failed validation makes no call at all. The store write happens at most once, as the fourth and last call, and only then can ingestion succeed. The run's outcome is the write's outcome |
| Ingest.IngestSteps | src/ingest.py:66-71 | the calls are, in order: check that the file exists, load it, split it, write. A missing file stops after the first call with `FileNotFound`; a load error stops after the second with that error |
| Ingest.IngestWrites | src/ingest.py:56-63 | what is written is the enriched split chunks with ids `doc-0` …, under the configured collection and the configured or default embedding model |
| Ingest.IngestNamesFirstUnset | src/ingest.py:15-17 | the ingestion validator reports the first unset key among the five, in order, and nothing else happens |
| Ingest.IngestNeedsGoogleKey | src/ingest.py:15 | without `GOOGLE_API_KEY`, ingestion fails before any call, although it embeds only with OpenAI |
| Decimal.ParseShow | src/ingest.py:46 | reading back the rendered numeral of `n` gives `n` |
| Decimal.ShowInjective | src/ingest.py:46 | different numbers render as different numerals |
| Lines.Strip | src/chat.py:52 | the stripped line has no whitespace at either end, and it is empty exactly when the line is all whitespace |
| Lines.StripPadded | src/chat.py:52 | stripping a text with no whitespace at its ends, padded with any whitespace, gives the text back |
| Lines.StripIdempotent | src/chat.py:52 | stripping twice is stripping once |
| Lines.Lower | src/chat.py:55 | lowering keeps the length, leaves no ASCII capital, and changes no character that is not one |
| Chat.GetLlm | src/chat.py:9-24 | a model is chosen exactly when one of the two keys is set. OpenAI is chosen exactly when its key is set, even with the Google key set. Otherwise the call fails. The temperature is always 0 |
| Chat.GetLlmModel | src/chat.py:13-22 | the model name is the configured value, even when empty; the provider's default is used only when the variable is absent |
| Chat.CheckSystemInitialization | src/chat.py:26-35 | the self-check is ready exactly when building the "test" prompt succeeds with a non-empty prompt; an error becomes "Initialization error" with that error; only an empty prompt gives "Error in search function" |
| Chat.PromptNeverEmpty | src/chat.py:30-32 | a prompt built by `search_prompt` is never empty |
| Chat.SelfCheckFailsOnlyByRaising | src/chat.py:28-35 | the self-check passes exactly when `search_prompt("test")` raises nothing; the "Error in search function" branch cannot be taken |
| Chat.Classify | src/chat.py:52-62 | a line is an exit exactly when its stripped lower-case form is `sair`, `exit` or `quit`; it is blank exactly when it is all whitespace; otherwise it is a question, stripped and non-empty |
| Chat.ExitIgnoresCaseAndSpace | src/chat.py:52-57 | any letter case of an exit word, with any surrounding whitespace, ends the session |
| Chat.QuitShouted | src/chat.py:52-57 | the line `"  QUIT "` ends the session |
| Chat.QuestionIsStripped | src/chat.py:52-66 | a question reaches `search_prompt` without its surrounding whitespace and otherwise unchanged |
| Chat.Step | src/chat.py:50-75 | only an exit word stops the loop, printing "Goodbye!". A blank line is re-prompted. A question whose prompt is built is sent to the model and its answer or error printed. A question whose prompt fails prints that error, and the loop goes on |
| Chat.Reply | src/chat.py:69-75 | the model's answer is printed as its content; an error raised by the call is reported as the turn's error |
| Chat.EmptyRetrievalStillAsks | src/chat.py:66-69 | when retrieval finds nothing for the question, the model is still called, with the prompt whose context slot is empty |
| Chat.Loop | src/chat.py:50-79 | the loop reads up to and including a line whose turn stops it, and then ends; without one it reads every line and prints the two lines of the outer handler for the end of input after one message per line |
| Chat.LoopStops | src/chat.py:50-57 | no line before the last one read stops the loop, and a loop that reaches the end of the input met no stopping line |
| Chat.LoopTrace | src/chat.py:50-79 | each line read prints its own turn's message and sends its own turn's prompt, in input order; at the end of the input the outer handler's two lines follow |
| Chat.LoopStopsAtFirstExit | src/chat.py:50-57 | the session ends at the first exit word, after printing "Goodbye!", and at no earlier line |
| Chat.LoopReadsAllWithoutExit | src/chat.py:50-79 | with no exit word every line is read and answered in turn, and the session ends at the end of the input |
| Chat.ChatMain | src/chat.py:37-79 | if `get_llm` fails, the two error lines are printed. If the self-check fails, "Could not start chat." is printed with its reason. When both succeed, the start banner is printed and then everything the loop over the input prints with the chosen model |
| Chat.GoogleOnlyNeverChats | src/chat.py:18-30 | with only the Google key set, `get_llm` chooses Google, but the self-check fails on the missing OpenAI key and the loop is never entered |

## Left out

- Loading the PDF, the text splitter's algorithm and the existence check on the file system are parameters of ingestion. Coverage and overlap of the chunks are not stated.
- Resolving `PDF_PATH` against the project directory is not modelled. The path checked and loaded is the variable's value.
- The vector store is a parameter. This covers connecting to PostgreSQL, embedding the question, ranking, and the stored data with its overwrite semantics. Scores are carried but never read, as in the source.
- The store write is modelled as a single call that receives the documents, ids, embedding model and collection name. How `PGVector.from_documents` binds the three positional arguments is library code and is not modelled. The call receives no connection string, so `DATABASE_URL` is validated by ingestion but not used by it.
- The embedding and chat-model network calls are parameters and may fail with any error. Exception classes and message wording are reduced to the `Error` cases, keeping the offending key name.
- `load_dotenv`, `print` and `input` are left out:
  - the chat reads a finite sequence of lines;
  - what it prints is a sequence of `Output` values;
  - the end of the sequence is the `EOFError` that the outer handler catches.
- `KeyboardInterrupt`, which escapes both handlers, is not modelled.
- In the chat, `search_prompt` is a function parameter. `Chat.SearchesWith` ties it to `Search.SearchPrompt` over a given environment and store. The lemmas that depend on retrieval require that tie.
- `Formatting.Format` covers only what the template uses: literal text, `{{`, `}}` and `{name}` fields. Conversions (`!r`), format specs (`:>10`), attribute and index lookups in field names, and positional fields are left out.
- `Lines.Lower`: lowers ASCII letters only. For deciding whether a line is an exit word this loses nothing. The only non-ASCII characters whose Unicode lower case contains an ASCII letter are U+212A (to `k`) and U+0130 (to `i` plus a combining dot). Neither can lower to `sair`, `exit` or `quit`.
- `Search.SplitJoin`: the recovery of the page texts is stated only for one or more results whose texts contain no newline. Zero results give the empty context, which splits into one empty piece. Page texts that contain newlines are joined just the same, but cannot be told apart in the context.
- `search_prompt`'s default `question=None` is not modelled: the question is always a string, because every caller passes one.
- `Search.AtMostTenTexts`: the bound relies on the store honouring `k`, which is library behaviour.
- The model follows the code as written:
  - ingestion requires `GOOGLE_API_KEY` as well as the OpenAI key;
  - embeddings are always OpenAI, with no provider selection;
  - the self-check also rejects an empty prompt, a case that cannot arise.
