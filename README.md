# chatnerd core, modelled in Dafny

chatnerd is a command-line tool that ingests documents into a vector store
and answers questions about them with a language model. Most of it is glue
around LangChain, Chroma, Typer and the filesystem. This project models the
deterministic rules inside that glue and proves what they promise:

- **Batched vector-store writes** (`Stores`, chroma_store.dfy):
  - slicing a document list into batches;
  - writing the batches in order while concatenating the returned ids;
  - stamping extra metadata on documents in place;
  - dropping documents without content;
  - generating ids;
  - re-raising Chroma's metadata error with a hint.
- **Ingestion run bookkeeping** (`Embedding`, document_embedder.dfy):
  - the limit and the truncation;
  - the worker count;
  - results, errors and progress events under any completion order of the process pool;
  - the splitter configuration and its chunk-size clamp.
- **Chain configuration** (`Chains`, chain_factory.dfy):
  - one-level indirection and validation of `chat_chain`/`retrieve_chain`;
  - the `reranker` check;
  - the question-expansion plan and its output shape;
  - system-prompt normalisation.
- **Configuration** (`Configuration`, config.dfy):
  - `strip_source_url`;
  - the environment instance;
  - the field-override rule of `Config(config)` and `__str__`;
  - project names, paths and `activate_project`.
- **Chat log text** (`ChatLogging`, chat_logger.dfy): `one_line`, `format_documents`, `format_config`, the config-key filter and the text of a log entry.
- **Command-line helpers** (`CliUtils`, cli_utils.dfy):
  - `grep_match`;
  - the `TqdmHolder` progress-bar state machine;
  - the active-project guard.
- **Project commands** (`CliProjects`, cli_projects.dfy): create, remove, rename, activate and list over an abstract projects directory and active project.
- **Top-level commands** (`Cli`, cli.dfy): the review clamp, the `config` section filter and the stop-on-loading-error rule of `study`.

Shared modules:
- `Wrappers`: Option, Result, Outcome.
- `Text`: strip, replace, find, lower-case, substrings.
- `Python`: dynamically typed values with insertion-ordered dictionaries, truthiness, `str()`, `repr()`, `int()` and the exceptions.

Library calls, the clock, the operating system and user prompts are function or boolean parameters. These include Chroma's `add_documents`/`upsert`, `uuid1`, the text splitter, the per-document work of the process pool, `os.cpu_count()`, the existence of paths and `typer.confirm`. Code that changes state in place is modelled with classes and methods:
- `Stores.Document`;
- `Stores.ChromaStore`;
- `Embedding.DocumentEmbedder`;
- `Configuration.Config`;
- `CliUtils.TqdmHolder`;
- `CliProjects.ProjectRegistry`.

Each such method is specified by the functions beside it, and the properties are proved about those functions.

## Model

| member | source | states |
|---|---|---|
| Stores.Batches | chatnerd/stores/chroma_store.py:116-120 | every batch is non-empty with at most `chunk_size` elements, and all but the last have exactly `chunk_size` |
| Stores.BatchesCount | chatnerd/stores/chroma_store.py:117-120 | there are ceil(n / chunk_size) batches |
| Stores.BatchesFlatten | chatnerd/stores/chroma_store.py:116-120 | concatenating the batches gives back the input list in order |
| Stores.DivideListInChunks | chatnerd/stores/chroma_store.py:116-120 | a zero chunk size is an error (zero range step), a negative one yields no batch, a positive one yields the batches |
| Stores.DivideListRoundTrip | chatnerd/stores/chroma_store.py:116-120 | for a positive chunk size, slicing then concatenating is the identity |
| Stores.BatchSize | chatnerd/stores/chroma_store.py:45-47 | the batch size is the client's `max_batch_size`, or the number of documents when the client has none |
| Stores.EmptyAddWithoutClientLimitFails | chatnerd/stores/chroma_store.py:45-51 | adding an empty list through a client without `max_batch_size` hits the zero-step error |
| Stores.FirstRejected | chatnerd/stores/chroma_store.py:50-55 | the index of the first batch the client rejects: every batch before it was accepted |
| Stores.FirstRejectedAt | chatnerd/stores/chroma_store.py:50-55 | a rejected batch after an accepted prefix is the first rejected one |
| Stores.BatchIdsCount | chatnerd/stores/chroma_store.py:49-56 | when the client returns one id per document, the concatenated ids number the documents |
| Stores.UpsertError | chatnerd/stores/chroma_store.py:90-98 | a `ValueError` mentioning "Expected metadata value to be" gains the filter hint; any other exception is re-raised unchanged |
| Stores.WithContent | chatnerd/stores/chroma_store.py:67-69 | only documents whose content is not None are kept, in order |
| Stores.WithContentMembers | chatnerd/stores/chroma_store.py:67-69 | a document is kept exactly when it is one of the inputs and its content is not None |
| Stores.WithContentAppend | chatnerd/stores/chroma_store.py:67-69 | filtering keeps the input order: filtering a concatenation concatenates the filtered parts |
| Stores.Contents | chatnerd/stores/chroma_store.py:70 | the texts of the kept documents, one per document |
| Stores.StampedMetadatas | chatnerd/stores/chroma_store.py:72-76 | each kept document's metadata updated with every extra key |
| Stores.KeptAgree | chatnerd/stores/chroma_store.py:65-76 | the single loop yields exactly the contents and stamped metadata of the documents with content |
| Stores.GeneratedIds | chatnerd/stores/chroma_store.py:79-80 | one generated id per kept document |
| Stores.IsThreadSafe | chatnerd/stores/chroma_store.py:102-103 | the Chroma store is never thread-safe |
| Stores.StampMetadata | chatnerd/stores/chroma_store.py:38-41 | every document ends with each extra key set to the extra value; contents untouched |
| Stores.KeepAndStamp | chatnerd/stores/chroma_store.py:65-76 | documents without content are skipped and keep their metadata; the others are stamped in place and collected |
| Stores.ChromaStore.WriteBatches | chatnerd/stores/chroma_store.py:49-56 | batches are written in order and their ids concatenated; the first rejected batch stops the loop with its error |
| Stores.ChromaStore.AddDocuments | chatnerd/stores/chroma_store.py:32-56 | metadata stamped only when extra metadata is given; result is the batch ids, the slicing error or the first client error |
| Stores.ChromaStore.AddDocumentsWithEmbeddings | chatnerd/stores/chroma_store.py:58-100 | documents without content get no metadata and no id; ids are the caller's or generated, one per kept document; upsert errors rewrapped |
| Embedding.EffectiveLimit | chatnerd/langchain/document_embedder.py:38-39 | the limit is the given one when 0 < limit < 1000 and 1000 otherwise, so it lies in [1, 1000] |
| Embedding.Truncate | chatnerd/langchain/document_embedder.py:40-44 | input longer than the limit is cut to its first `limit` documents; shorter input is unchanged |
| Embedding.WorkerCount | chatnerd/langchain/document_embedder.py:51-54 | two workers only for a thread-safe store on more than four CPUs, else one; an unknown CPU count cannot be compared |
| Embedding.ChromaRunsOnOneWorker | chatnerd/langchain/document_embedder.py:51-54 | ingestion into the Chroma store always uses one worker |
| Embedding.Collected | chatnerd/langchain/document_embedder.py:66-69 | results hold only truthy returned sources, at most one per document |
| Embedding.CollectedMembers | chatnerd/langchain/document_embedder.py:66-69 | a value is among the results exactly when some document returned it and it is truthy |
| Embedding.Failed | chatnerd/langchain/document_embedder.py:78-79 | errors hold the raised exceptions, at most one per document |
| Embedding.FailedMembers | chatnerd/langchain/document_embedder.py:78-79 | an exception is among the errors exactly when some document raised it |
| Embedding.ProgressCounts | chatnerd/langchain/document_embedder.py:65-81 | exactly one update per processed document, and one write per collected source |
| Embedding.OutcomesBound | chatnerd/langchain/document_embedder.py:66-79 | results plus errors never exceed the processed count; a falsy return counts as neither |
| Embedding.CompletionOrderIrrelevant | chatnerd/langchain/document_embedder.py:59-81 | any completion order gives the same results and errors up to order |
| Embedding.RunAccounting | chatnerd/langchain/document_embedder.py:57-84 | under any completion order: one update per document, the same multisets of results and errors, and the bound |
| Embedding.DocumentEmbedder.HandleOutcome | chatnerd/langchain/document_embedder.py:66-81 | one completed document adds its truthy source (with a write event) or its error, then an update event |
| Embedding.DocumentEmbedder.HandleCompletions | chatnerd/langchain/document_embedder.py:65-81 | the loop collects results, errors and events for the documents in completion order |
| Embedding.DocumentEmbedder.Run | chatnerd/langchain/document_embedder.py:28-84 | empty input returns ([], []) with no event and no store; otherwise start with the truncated count, the store opened and closed, the completions, then end |
| Embedding.ClampedChunkSize | chatnerd/langchain/document_embedder.py:99-120 | chunk size = min(configured, max_seq_length), a falsy length meaning 1000, the configured size on a tie; 1000 when the lookup or the comparison raises |
| Embedding.ChunkSplitterConfig | chatnerd/langchain/document_embedder.py:91-120 | succeeds exactly when the `splitter` section is a dictionary; then the project's `splitter` keys override the defaults and the chunk size is clamped; a missing section is `KeyError`, a non-dict one `TypeError` |
| Embedding.SplitDefaultsAreRedundant | chatnerd/langchain/document_embedder.py:126-129 | the defaults of `split_documents` never change the configuration `split_and_embed_document` passes |
| Embedding.SplitDocuments | chatnerd/langchain/document_embedder.py:152-177 | the splitter receives the keyword arguments over its defaults and the documents' texts and metadata in order |
| Chains.ResolveChainConfig | chatnerd/langchain/chain_factory.py:65-72 | a string naming a top-level key is replaced by that key's value once; the result must be a dict, otherwise `ValueError` |
| Chains.DirectChainConfig | chatnerd/langchain/chain_factory.py:65-72 | a dict chain config is used as it is |
| Chains.NamedChainConfig | chatnerd/langchain/chain_factory.py:65-67 | a string naming a dict section resolves to that section |
| Chains.ChainConfigIndirectionIsOneLevel | chatnerd/langchain/chain_factory.py:65-72 | a name resolving to another name is rejected with `ValueError` |
| Chains.RerankerConfig | chatnerd/langchain/chain_factory.py:74-78 | the reranker config is accepted iff it is a dict, otherwise `ValueError` |
| Chains.PromptLookup | chatnerd/langchain/chain_factory.py:52-55 | a missing `prompts` section is `KeyError`, a non-dict one has no `get`, otherwise the prompt or its default |
| Chains.QuestionExpansion | chatnerd/langchain/chain_factory.py:203-221 | an empty or non-dict chain config is `ValueError` before `n_expanded_questions` is read; missing, zero or negative n passes the question through; enabled expansion needs a truthy prompt |
| Chains.ExpandedQuestions | chatnerd/langchain/chain_factory.py:213 | the output starts with the question; pass-through gives `[q]`, expansion `[q, *parsed]` in order |
| Chains.NormalizeSystemPrompt | chatnerd/langchain/chain_factory.py:56 | the result is the prompt with newlines turned into spaces, less a prefix and a suffix made only of '.' and ' '; neither of its ends is '.' or ' '; no newline remains and the prompt never grows |
| Chains.NormalizeSystemPromptOfClean | chatnerd/langchain/chain_factory.py:56 | a one-line prompt whose ends are not '.' or ' ' is used unchanged |
| Chains.NormalizeSystemPromptIdempotent | chatnerd/langchain/chain_factory.py:56 | normalising twice is normalising once |
| Chains.UseCrossEncodingRerank | chatnerd/langchain/chain_factory.py:93-95 | the rerank flag defaults to true when absent |
| Chains.RetrieverConfig | chatnerd/langchain/chain_factory.py:48 | a missing `retriever` section is `KeyError`; a non-dict one cannot be unpacked |
| Chains.SystemPrompt | chatnerd/langchain/chain_factory.py:52-56 | the configured system prompt normalised; a non-string (including a missing one) has no `replace` |
| Chains.ChainSections | chatnerd/langchain/chain_factory.py:65-95 | the errors come in source order (chain config, reranker, expansion), each reported as that step raised it; success carries the resolved sections and the rerank flag |
| Chains.EmptyChainConfigRejected | chatnerd/langchain/chain_factory.py:203-204 | an empty resolved chain config fails in question expansion |
| Chains.BindError | chatnerd/langchain/chain_factory.py:84-100 | a `bind` keyword also present in the unpacked section (`retriever`, `use_cross_encoding_rerank`, `store`, and `store_factory` with a summary) is Python's "multiple values" `TypeError`, the first in evaluation order; none when no keyword collides |
| Chains.ChatChain | chatnerd/langchain/chain_factory.py:42-117 | retriever, system prompt, sections and the `bind` keywords are checked in source order, each error reported as raised; success exactly when all pass, carrying each and the human prompt |
| Chains.RetrieveChain | chatnerd/langchain/chain_factory.py:119-193 | retriever, sections for `retrieve_chain`, then the `bind` keywords (with `store_factory` only for a summary), each error reported as raised; success exactly when all pass |
| Chains.SummaryOnlyAddsBinding | chatnerd/langchain/chain_factory.py:184-191 | a configuration accepted with a summary is accepted without one, with the same result |
| Chains.RetrieverKeyCollides | chatnerd/langchain/chain_factory.py:161-163 | a chain section holding `retriever` always fails with the "multiple values" `TypeError` |
| Chains.SharedSectionAgrees | chatnerd/langchain/chain_factory.py:65-67 | both chains naming the same section resolve to the same configuration |
| Configuration.StripSourceUrl | chatnerd/config.py:224-235 | None exactly for a line that is blank or starts with '#' once stripped; otherwise Some of the strip of the text before the first " #", never empty |
| Configuration.StripSourceUrlOfLine | chatnerd/config.py:224-235 | a clean URL followed by its newline, as read from the sources file, gives back the URL |
| Configuration.StripSourceUrlOfClean | chatnerd/config.py:226-233 | a clean URL line is returned unchanged |
| Configuration.StripSourceUrlIdempotent | chatnerd/config.py:226-233 | stripping a stripped URL changes nothing |
| Configuration.StripSourceUrlDropsComment | chatnerd/config.py:230 | everything from the first " #" on is dropped |
| Configuration.EnvironmentFields | chatnerd/config.py:37-52 | each field takes its environment variable or default; a VERBOSE that is not an integer raises |
| Configuration.ReadEnvironment | chatnerd/config.py:81-86 | the loop over the fields gives each field its environment variable when set and its default otherwise |
| Configuration.Instance | chatnerd/config.py:75-91 | the environment instance has the environment fields, with `VERBOSE` converted by `int()` or its `ValueError` |
| Configuration.OverrideRule | chatnerd/config.py:59-65 | each field ends with the config's value when the key is present, otherwise the environment value |
| Configuration.UnknownKeysIgnored | chatnerd/config.py:59-65 | keys that are not attributes never change the fields |
| Configuration.Config.constructor | chatnerd/config.py:54-65 | the fields are the override of the environment instance by the config |
| Configuration.OverrideFieldAt | chatnerd/config.py:62-65 | one configuration entry changes the field it names and no other |
| Configuration.Config.SetAttr | chatnerd/config.py:62-65 | setting an attribute changes that one field and nothing else |
| Configuration.RenderShowsField | chatnerd/config.py:67-73 | every field not starting with "_" appears as a "name=value" line |
| Configuration.Config.ToString | chatnerd/config.py:67-73 | `__str__` is the rendering of the fields |
| Configuration.Config.ActivateProject | chatnerd/config.py:137-152 | a non-empty name without a directory is `ValueError` and changes nothing; otherwise the name is active and the dotenv text written |
| Configuration.DotenvContent | chatnerd/config.py:157-161 | the runtime dotenv holds `ACTIVE_PROJECT=` and the active name or nothing |
| Configuration.ChosenProject | chatnerd/config.py:130 | the given name when non-empty, else the active one, else none |
| Configuration.ProjectBasePath | chatnerd/config.py:127-135 | no name is `ValueError`; otherwise the projects directory joined with the name |
| Configuration.ProjectConfig | chatnerd/config.py:99-125 | no project and no `ignore_project` is `ValueError`; otherwise the configuration is produced exactly when the default read and the project read succeed, and a failing read's error is the result; the result always has `_project_base_path` |
| ChatLogging.OneLine | chatnerd/tools/chat_logger.py:127-128 | the result is the text with '\n' and '\r' turned into spaces, less a whitespace prefix and suffix; neither of its ends is whitespace, it holds no line break and it never grows |
| ChatLogging.OneLineIdempotent | chatnerd/tools/chat_logger.py:128 | applying `one_line` twice equals applying it once |
| ChatLogging.OneLineOfSingleLine | chatnerd/tools/chat_logger.py:128 | a stripped single line is left as it is |
| ChatLogging.FormattedDocuments | chatnerd/tools/chat_logger.py:114-124 | "" for no documents; otherwise two prefixed lines per document (source, one-lined content); a non-string content raises |
| ChatLogging.FormatDocuments | chatnerd/tools/chat_logger.py:114-124 | the accumulating loop computes the formatted documents |
| ChatLogging.FormattedDocumentsAppend | chatnerd/tools/chat_logger.py:118-122 | one more document appends exactly its two lines |
| ChatLogging.EmptyDocumentBlock | chatnerd/tools/chat_logger.py:119-121 | a document without source and content is accepted and renders as two bare prefixes |
| ChatLogging.FormatConfig | chatnerd/tools/chat_logger.py:92-111 | the text is the `default_model` line, the retriever block (header, `search_type` line, `search_kwargs` line) and the `chat_chain` line, in that order; each is present exactly when its value is truthy; a truthy `retriever` that is not a dict gives `TypeError`, and one without `search_type` or `search_kwargs` gives that `KeyError`, `search_type` first |
| ChatLogging.FilterLoggedKeys | chatnerd/tools/chat_logger.py:51-55 | the logged config keeps exactly the keys in CONFIG_KEYS_TO_LOG, with their values |
| ChatLogging.FilteringKeepsFormat | chatnerd/tools/chat_logger.py:51-68 | filtering does not change the formatted configuration |
| ChatLogging.ReducedDocuments | chatnerd/tools/chat_logger.py:42-45 | each document reduced to its source and content; a document without `source` metadata is `KeyError` |
| ChatLogging.LogEntry | chatnerd/tools/chat_logger.py:33-84 | errors in source order (a document without `source`, reading the config, formatting the config, formatting the documents); an entry is the timestamp, question and answer lines, then `project_config:` with the formatted config, then `documents:` with the formatted documents; an entry is produced exactly when every step succeeds |
| CliUtils.GrepMatch | chatnerd/cli/cli_utils.py:122-133 | true for an absent or empty pattern; otherwise true iff the lowercased pattern occurs in the lowercased `str(arg)` of some arg; no args give false |
| CliUtils.MatchesIgnoresPatternCase | chatnerd/cli/cli_utils.py:129 | the case of the pattern does not matter |
| CliUtils.VerbatimOccurrenceMatches | chatnerd/cli/cli_utils.py:130-132 | a pattern that occurs verbatim in an argument matches |
| CliUtils.MatchesAppend | chatnerd/cli/cli_utils.py:130-133 | matching a concatenation of argument lists is matching either list |
| CliUtils.StartOptions | chatnerd/cli/cli_utils.py:60-64 | the bar's options are the holder's over the call's keyword arguments, with `total = int(args[0])`; a non-integer raises |
| CliUtils.TqdmHolder.constructor | chatnerd/cli/cli_utils.py:53-54 | a new holder has no bar |
| CliUtils.TqdmHolder.Start | chatnerd/cli/cli_utils.py:56-64 | an open bar is closed first; a new open bar with the start options replaces it |
| CliUtils.TqdmHolder.Update | chatnerd/cli/cli_utils.py:66-70 | no bar: no change; otherwise an open bar advances |
| CliUtils.TqdmHolder.Write | chatnerd/cli/cli_utils.py:72-76 | no bar: nothing written; otherwise the message is written |
| CliUtils.TqdmHolder.Close | chatnerd/cli/cli_utils.py:78-83 | no bar afterwards; with no bar before, nothing changes, so a second close does nothing |
| CliUtils.ValidateConfirmActiveProject | chatnerd/cli/cli_utils.py:87-119 | no active project aborts; a skipped confirmation announces the project; otherwise it passes iff the project directory exists and the user confirms |
| CliProjects.ValidProjectName | chatnerd/cli/cli_projects.py:188-189 | valid iff the first character is a word character |
| CliProjects.EmptyNameInvalid | chatnerd/cli/cli_projects.py:188-189 | the empty name is invalid |
| CliProjects.Activate | chatnerd/cli/cli_projects.py:154-162 | a missing project leaves the active project unchanged; an existing one becomes active; consistency is preserved |
| CliProjects.Create | chatnerd/cli/cli_projects.py:38-96 | an invalid name changes nothing; an existing project needs confirmation; the project is added and activated only when none was active |
| CliProjects.RemoveAsWritten | chatnerd/cli/cli_projects.py:99-121 | as written, the empty name reaches the projects directory and removes every project |
| CliProjects.RemoveEmptyNameDanglesActive | chatnerd/cli/cli_projects.py:102-105 | removing "" leaves the active project pointing at nothing |
| CliProjects.Remove | chatnerd/cli/cli_projects.py:99-121 | a missing project changes nothing; removal needs confirmation; removing the active project deactivates it; consistency preserved |
| CliProjects.Rename | chatnerd/cli/cli_projects.py:124-147 | invalid new name, missing source or existing target change nothing; a valid rename of an existing project to a free name replaces the old name by the new one and the active project follows it; other projects unaffected; renaming the projects directory itself fails |
| CliProjects.RenameActiveProject | chatnerd/cli/cli_projects.py:141-145 | renaming the active project makes the new name active |
| CliProjects.RenameRoundTrip | chatnerd/cli/cli_projects.py:124-147 | renaming and renaming back restores the registry |
| CliProjects.ListedNames | chatnerd/cli/cli_projects.py:177-179 | only valid names are listed, in directory order |
| CliProjects.ListLines | chatnerd/cli/cli_projects.py:177-185 | one marked line per listed name |
| CliProjects.ListMarksActive | chatnerd/cli/cli_projects.py:181-185 | a line is marked `[x]` iff its name is the active project |
| CliProjects.AtMostOneMarked | chatnerd/cli/cli_projects.py:177-185 | with a directory listing each entry once, no two lines are marked |
| CliProjects.ProjectRegistry.ActivateProject | chatnerd/cli/cli_projects.py:154-162 | the state after `activate` is the activation rule |
| CliProjects.ProjectRegistry.CreateProject | chatnerd/cli/cli_projects.py:38-96 | the state after `create` is the creation rule |
| CliProjects.ProjectRegistry.RemoveProject | chatnerd/cli/cli_projects.py:99-121 | the state after `remove` is the corrected removal rule |
| CliProjects.ProjectRegistry.RenameProject | chatnerd/cli/cli_projects.py:124-147 | the state after `rename` is the renaming rule |
| CliProjects.ProjectRegistry.ListProjects | chatnerd/cli/cli_projects.py:165-185 | no projects directory prints nothing; otherwise the printing loop prints the listing lines |
| Cli.Clamp | chatnerd/cli/cli.py:166-169 | the result is in [1, 5]; below 1 becomes 1, above 5 becomes 5, in range unchanged |
| Cli.StoredReview | chatnerd/cli/cli.py:159-172 | a missing or zero argument is replaced by the prompted answer; the stored review is always in [1, 5] |
| Cli.ConfigCommand | chatnerd/cli/cli.py:204-224 | no section shows the whole config; an existing section narrows it to a one-key dict; a missing one shows nothing |
| Cli.HeadingNamesSection | chatnerd/cli/cli.py:223-225 | the heading names the section when one is given |
| Cli.StudyCommand | chatnerd/cli/cli.py:39-99 | the guard runs first; the embedder runs only when loading produced no error, and the first loading error is reported |
| Python.ParseIntOfIntToString | chatnerd/config.py:89 | `int()` reads back what `str()` writes, for every integer |
| Python.Merge | chatnerd/cli/cli_utils.py:64 | in `{**a, **b}` a key takes its value from `b` when `b` has it and from `a` otherwise, and keys stay unique |
| Python.ReprString | chatnerd/tools/chat_logger.py:105 | `repr` of a string is quoted at both ends by the quote it chooses and is longer than the string |
| Python.ReprPlainString | chatnerd/tools/chat_logger.py:105 | a string without quotes, backslashes, tabs or line breaks is shown between single quotes as it is |
| Python.ReprSwitchesQuote | chatnerd/tools/chat_logger.py:105 | a string holding a single quote and no double quote is shown between double quotes, its single quotes unescaped |
| Text.IsStripOfUnique | chatnerd/langchain/chain_factory.py:56 | `str.strip` has one possible result: at most one piece of a string has only stripped characters around it and clean ends |

## Left out

- LangChain runnable composition, the language model, embedding and prompt factories, `Summarizer` and the text splitter's internals: library code, modelled only as parameters (`createDocuments`, the parsed expansion list).
- The process pool: completion order is an arbitrary permutation of the truncated documents, not real parallelism. The per-document work of `split_and_embed_document` is the `task` parameter. Its `created_at` timestamp, its store writes and its status ledger are not modelled.
- Chroma client calls (`add_documents`, `upsert`, `clear_system_cache`) and `uuid1`: parameters that produce ids or fail.
- Filesystem, YAML, dotenv and `os.environ` I/O. This covers `read_project_config`, `merge_config` (a deep-merge library call, a parameter of `ProjectConfig`), `bootstrap`, the mkdir/rmtree/rename calls and log-file appends. `dump_runtime_dotenv` is modelled as the text it writes.
- The `Config.instance()` singleton cache: `Instance` builds the environment instance afresh each time.
- Timestamps: the log entry's date is a parameter, and the log file's date prefix is not modelled.
- `ChatLogger.log` prints its error instead of raising; `LogEntry` returns that error as `Err`.
- The `emit("write")` exception swallow in `run`: listeners are not modelled as able to fail.
- The `review` command's append to the chat log, the YAML dump and the `rich` printing of `config` and `env`.
- chatnerd/lib/helpers.py, chatnerd/chat.py and chatnerd/__main__.py are not part of this model.
- Embedding.ClampedChunkSize: `min` over values other than integers and booleans is treated as raising, rather than modelling Python's comparison of other types.
- Embedding.WorkerCount: `os.cpu_count()` is a parameter, and `None` is modelled as the `TypeError` of comparing it.
- Configuration.JoinPath: joins with "/" and lets an absolute name replace the base; pathlib's normalisation ("." components, repeated or trailing slashes) is not modelled.
- Configuration.HasAttr: the attributes are the dataclass fields, the class constants and the method names; Python's dunder attributes are not listed.
- CliUtils.GrepMatch: `str.lower` is modelled for ASCII letters only.
- CliUtils.TqdmHolder.Update, CliUtils.TqdmHolder.Start, CliUtils.TqdmHolder.Write, CliUtils.TqdmHolder.Close: tqdm's own truth value (false for a bar whose total is 0), which each of their `if self._tqdm` tests consults, is not modelled; a bar that exists counts as present. Closing a closed bar and updating it do nothing, as tqdm does.
- CliProjects.ValidProjectName: `\w` is approximated by ASCII letters, digits and underscore; Unicode word characters are not modelled.
- CliProjects.PathExists: a project name is one path component; "" names the projects directory itself. Names with "/" or the components "." and ".." are treated as plain entry names.
- CliProjects.ProjectRegistry.ListProjects: the directory listing is a parameter that names exactly the project entries.
- Cli.StudyCommand: the loader and the embedder are parameters, and the wiring of their events to progress bars is not modelled. The embedder is a total function, so an exception raised while embedding, from `get_project_base_path` or from `get_project_config`, and the `except Exception` branch that logs and re-raises it, are not modelled.
- Python.Value has no float: a YAML float in the configuration (for example a `search_kwargs` threshold) cannot be represented, and `str()` of a float is not modelled.
- Python.ReprString escapes the backslash, the chosen quote, tab, newline and carriage return; the `\xNN`, `\uNNNN` and `\UNNNNNNNN` escapes Python writes for other unprintable characters are not modelled.
- Python.ParseInt: Python's `int()` also accepts underscores between digits ("1_000") and non-ASCII decimal digits, and its error message quotes the text with `repr`; the model raises ValueError for both and always quotes with single quotes. It is reached from `Configuration.Instance` (the VERBOSE variable) and `CliUtils.StartOptions`.

## Findings

| source | as written | input that shows it | evidently intended | confidence | as-written member | corrected member |
|---|---|---|---|---|---|---|
| chatnerd/cli/cli_projects.py:102-103 | the guard tests `not project_path`, which never holds because a `Path` is always truthy; `Path(projects_dir, "")` is the projects directory itself | `chatnerd project remove ""` (confirmed) while project "notes" is active: every project is deleted and "notes" stays active | reject the empty name (`not project_name`), so the projects directory itself is never removed and, in this model where every name is one plain entry, the active project is always an existing project or none. In the real filesystem the names "." and ".." would still reach the projects directory and its parent; refusing them too is not part of the corrected member | not executed; medium | CliProjects.RemoveAsWritten, CliProjects.RemoveEmptyNameDanglesActive | CliProjects.Remove, CliProjects.ProjectRegistry.RemoveProject |

`rename_project` with an empty old name is modelled as written (`CliProjects.Rename`). The projects directory exists, so the command tries to move it into its own subdirectory, and the operating system refuses with the error `MoveIntoItself`.
