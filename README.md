# Chat turn processing, modelled in Dafny

This project models `stream_chat_message_objects`, the generator that runs
one chat turn. A turn goes through these steps:

- It resolves the persona and prompt, checks the request, and binds the LLM.
- It writes the user message provisionally and checks that the message ends
  the conversation's main line.
- It chooses how documents are pruned and builds the persona's tools.
- It turns the answer engine's stream into client packets.
- It classifies any failure into a safe error message and rolls back.
- Otherwise it stores the assistant message, commits, and reports it.

Every collaborator is a parameter:

- The results of the database, LLM factory, tokenizer, document index, file
  store and translation helpers are fields of `Turn.Environment`.
- The exceptions they can raise are entries of a `faults` map keyed by
  `TurnSetup.Stage`. The first stage reached that is in the map raises with
  its text.
- Building custom tools from a record's OpenAPI schema can raise for one
  schema and not another, so that collaborator returns a `Result` per schema
  instead of using the map. Likewise, looking up a built-in record's tool
  class is a function from the record id to the exception it raises, if any.
- The answer engine's stream is a sequence of events, optionally followed by
  a raise (`Turn.EngineRun`).

Modules follow the phases of the turn:

- `Wrappers` and `ChatTypes` hold the shared value types and Python
  truthiness.
- `Text` models the `in` and `lower()` string tests.
- `TurnSetup` covers setup up to the LLM factory.
- `Pruning` covers the pruning configuration and the pinned documents.
- `ToolSelection` covers the tool loop and the dictionary it fills.
- `EventLoop` is the event-to-packet state machine.
- `ErrorClassifier` is the generation-phase handler's message choice.
- `ChatStore` is the transactional message store.
- `Persistence` covers the assistant message and the commit.
- `Turn` puts the phases together.

State the source updates in place is a class:

- the request's `query_override` (`Turn.Request`);
- the shared pruning configuration (`Pruning.PruningConfig`);
- the database session's pending and committed rows (`ChatStore.ChatStore`).

The three loops are methods proved against prefix-fold specification
functions: the tool loop, the event loop, and the tool-name loop.

The pruning configuration is allocated inside the turn, so the turn's
contracts cannot name it in terms of the inputs. They state tool
construction through `Turn.ToolFold`, the same fold with the search tools
given no configuration (`null`; the source always passes one).
`Turn.ToolsIgnorePruning` proves that with the turn's configuration the fold
raises exactly when this one does, with the same text, and otherwise gives
the same name-to-id map. The search tools hold that configuration, and it is
what the turn actually uses.

Three consequences of how the code is written shape the model.

- **Errors raised before the LLM is bound escape.** The generation-phase
  handler reads `llm.config` (process_message.py:565, 573, 576), and `llm`
  is bound only at line 169. A failure before that line is the session or
  persona lookup, the documents-or-options check, or the LLM factory. When
  the handler reads `llm` while handling it, Python raises
  `UnboundLocalError`, and that exception escapes the generator, with no
  packet and no rollback. This is `Outcome.Escaped`. Its `cause` is the text
  of the original exception, which the escaping `UnboundLocalError` carries
  as its context.
- **Missing credentials and a missing prompt are caught.** The OpenAI-key
  error, the Bing-key error and "No Prompt found" are raised after line 169,
  so the handler catches them. Each becomes one classified `StreamingError`
  packet and a rollback.
- **The persistence phase does not roll back.** Its handler
  (process_message.py:628-632) yields its packet without calling
  `rollback`.

## Model

| member | source | states |
|---|---|---|
| TurnSetup.MaxPromptId | process_message.py:159-161 | The result is the id of one of the prompts, and no prompt has a larger id. |
| TurnSetup.ChoosePromptId | process_message.py:159-161 | A requested prompt id is kept. Without one, it is the largest id among the persona's prompts, or none when the persona has no prompts. |
| TurnSetup.PromptChoiceIgnoresOrder | process_message.py:159-161 | The chosen prompt id does not depend on the order the persona lists its prompts in. |
| TurnSetup.ChoosePersona | process_message.py:148-157 | The alternate assistant's persona is used when an alternate id is given, else the session's. |
| TurnSetup.SetupBeforeLlm | process_message.py:136-175 | Succeeds iff the session lookup and (with an alternate id) the persona lookup succeed, documents or retrieval options are given, and the LLM factory gives an LLM. Both absent yields exactly the "Must specify…" error. On success it carries the chosen persona, prompt id and LLM. |
| TurnSetup.DefaultQueryOverride | process_message.py:250-253 | With history, the override is untouched. On the first message, a truthy override is kept and an empty or missing one becomes the message text. |
| TurnSetup.DefaultQueryOverrideIdempotent | process_message.py:250-253 | Applying the first-turn default twice equals applying it once. |
| TurnSetup.LatestQueryFiles | process_message.py:259-263 | A loaded file is kept iff its id is among the request's descriptor ids. |
| TurnSetup.LatestQueryFilesKeepsOrder | process_message.py:259-263 | The selection distributes over concatenation, so load order is kept. |
| Pruning.TruncToInt | process_message.py:308-312 | `int()` on a float truncates toward zero, for both signs. |
| Pruning.ChoosePruningMode | process_message.py:277-316 | Manual mode iff the pinned id list is present and non-empty; an empty list falls to budget mode. In budget mode, max chunks is the truncated persona count if set, else the default. The window percentage is passed through, and sections are used iff `chunks_above > 0` or `chunks_below > 0`. |
| Pruning.PersonaChunksWin | process_message.py:308-312 | A persona chunk count that is set wins even when it is zero, truncated to an integer. |
| Pruning.SelectedSearchDocs | process_message.py:297-304 | At most one document per pinned id. A document is selected iff some pinned id resolves to it. |
| Pruning.SelectedSearchDocsAppend | process_message.py:297-304 | Selection distributes over concatenation of id lists, so request order is kept. |
| Pruning.AllResolvedSelection | process_message.py:297-304 | When every id resolves, the selection is the resolved documents, one per id, in order. |
| Pruning.SkipUnresolved | process_message.py:297-304 | An id that does not resolve contributes nothing wherever it stands. |
| Pruning.OneMissingDocDropped | process_message.py:295-304 | One deleted pinned document leaves exactly the others, in order, and the count drops by one. |
| Pruning.PruningConfig.constructor | process_message.py:291-316 | The mode is fixed at construction; there is no tool overhead yet. |
| Pruning.PruningConfig.SetToolOverhead | process_message.py:441-446 | Writes the tool token count and the tool-message flag in place. |
| ToolSelection.FirstOpenAIProvider | process_message.py:384-394 | None iff no provider is named "openai". Otherwise it is the first provider so named. |
| ToolSelection.ImageCredential | process_message.py:376-406 | The main LLM's config is used when it has a truthy key and provider "openai". Otherwise the first "openai" provider is used, and the call fails with the OpenAI-key error iff that provider is absent or keyless. Otherwise the credentials are that provider's key, base and version. A success always has a non-empty key. |
| ToolSelection.KeylessFirstOpenAIProviderFails | process_message.py:385-398 | A keyless first "openai" provider makes image-tool setup fail even when a later provider has a key. |
| ToolSelection.IgnoredRecords | process_message.py:354-434 | A built-in record of another class, or a custom record without a (non-empty) schema, adds nothing to the dictionary. |
| ToolSelection.InternetSearchWithoutKeyRaises | process_message.py:415-420 | A built-in internet-search record without a Bing key raises the Bing-key error. |
| ToolSelection.ToolsFor | process_message.py:353-434 | Defines what one tool record contributes: the built-in lookup's exception, a search tool unless the turn has query files, an image tool with the chosen credentials or the OpenAI-key error, an internet-search tool or the Bing-key error, nothing for another built-in class, the custom tools of a non-empty schema or the exception building them raises, and nothing otherwise. |
| ToolSelection.CustomRecordTools | process_message.py:427-434 | A custom record with a non-empty schema contributes one custom tool per operation its schema builds into, in order, and raises exactly what building the schema raises. |
| ToolSelection.DictSet | process_message.py:374 | Python dict assignment keeps insertion order: an existing key is overwritten in place, a new key is appended, and keys stay distinct. |
| ToolSelection.BuildDict | process_message.py:351-434 | The dictionary after the records has distinct keys. |
| ToolSelection.Flatten | process_message.py:436-438 | Defines the tool list as the dictionary's values concatenated in insertion order. |
| ToolSelection.SelectTools | process_message.py:351-438 | The record loop, followed by `FlattenEntries`, computes exactly the dictionary fold and its values concatenated in insertion order. The method fails iff the fold fails, with the same exception. |
| ToolSelection.FailureIsFinal | process_message.py:352-434 | Once a record raises, later records do not change the outcome. |
| ToolSelection.RaisingRecordFailsSelection | process_message.py:352-434 | Any record whose construction raises makes the whole selection fail. |
| ToolSelection.FailureIgnoresPruning | process_message.py:352-434 | Whether tool construction raises, and with what text, is the same whichever pruning configuration the search tools are given. |
| ToolSelection.FlattenEntries | process_message.py:436-438 | The flattening loop yields exactly the dictionary's values concatenated in insertion order. |
| ToolSelection.ToolsForFailureIgnoresPruning | process_message.py:353-434 | For a single record, whether construction raises, and with what text, does not depend on the pruning configuration. |
| ToolSelection.FlattenMembership | process_message.py:436-438 | A tool is in the flattened list iff it is in one of the dictionary's values. |
| ToolSelection.DictSetEntries | process_message.py:374 | Every entry after an assignment is the new entry or was there before. |
| ToolSelection.DictSetNames | process_message.py:374 | Two dictionaries with the same keys and tool names stay so after the same key is assigned tool lists with the same names. |
| ToolSelection.ToolsForNamesIgnorePruning | process_message.py:353-434 | For a single record, the names of the tools built do not depend on the pruning configuration. |
| ToolSelection.NamesIgnorePruning | process_message.py:352-434 | The dictionary built with any pruning configuration has the same keys and tool names, in the same order. |
| ToolSelection.ToolsComeFromRecords | process_message.py:352-438 | Every selected tool was contributed by one of the persona's tool records. |
| ToolSelection.ContributedToolFacts | process_message.py:356-423 | A contributed search tool implies no query files, the turn's shared pruning config, and BASIC evaluation iff relevance filtering. A contributed image tool has a non-empty key. |
| ToolSelection.NoSearchToolWithQueryFiles | process_message.py:356 | When the turn has query files, no search tool is selected. |
| ToolSelection.SearchToolsShareConfig | process_message.py:357-373 | Every selected search tool holds the same pruning-config object as the turn, and uses BASIC evaluation iff the persona enables LLM relevance filtering. |
| ToolSelection.ImageToolsHaveKeys | process_message.py:407-414 | Every selected image tool carries a non-empty API key. |
| ErrorClassifier.Classify | process_message.py:563-579 | Defines the priority order of the four tests: the empty-Bearer marker, then the header-value marker, then the key echoed in any case, then none. Its properties are the lemmas below. |
| ErrorClassifier.ClassifyError | process_message.py:563-579 | Defines the streamed message as the fixed message of the class chosen by `Classify`, with the provider's name filled in. |
| ErrorClassifier.ClassifiedMessageIsSafe | process_message.py:563-579 | Whatever the exception text, the message is one of four texts fixed by the provider; the key is never interpolated into it. |
| ErrorClassifier.EmptyBearerWins | process_message.py:563-567 | The empty-Bearer marker selects the empty-key message, whatever else the text holds. |
| ErrorClassifier.HeaderMarkerBeatsKey | process_message.py:568-575 | Without the first marker, the header-whitespace marker selects the format message before the key test. |
| ErrorClassifier.EchoedKeyInAnyCase | process_message.py:576-577 | Without either marker, any letter-case variant of a non-empty key in the text selects the rejected-key message. |
| ErrorClassifier.OtherwiseUnexpected | process_message.py:578-579 | Without markers and without the key, the message is the generic one. |
| ErrorClassifier.MessageDependsOnKeyOnlyThroughClass | process_message.py:563-579 | Two keys that the text echoes alike give the same message. |
| Text.Lower | process_message.py:576 | `lower()` keeps the length and lowers each character. |
| Text.ContainsLower | process_message.py:576 | An occurrence survives lowering both strings. |
| Text.ContainsCaseVariant | process_message.py:576 | An occurrence of any case variant of the key is found once both sides are lowered. |
| EventLoop.ProcessEvents | process_message.py:478-557 | The loop over the five variables ends in exactly the state and packets of the per-event fold `Run`. |
| EventLoop.Step | process_message.py:484-557 | Defines the effect of one event on the five loop variables and the packet it yields, one branch per response id as in the loop. |
| EventLoop.Run | process_message.py:483-557 | Defines the loop's final state and packets as `Step` folded over the events in order, from all five variables unset. |
| EventLoop.RunAppend | process_message.py:483-557 | Another event appends at most its own packet and leaves earlier packets unchanged. |
| EventLoop.StreamedPacketsAreFinal | process_message.py:483-557 | The packets of a prefix of the events are a prefix of the packets, so nothing yielded is revised. |
| EventLoop.AtMostOnePacketPerEvent | process_message.py:483-557 | There are never more packets than events. |
| EventLoop.PacketsPerEvent | process_message.py:484-557 | Search-summary, internet-search, image, custom-tool and forwarded events each yield exactly one packet. A relevance list yields one iff reference docs are recorded. An unrecognised tool response yields nothing and changes nothing. |
| EventLoop.RelevanceIndices | process_message.py:500-521 | The relevance packet holds the translated indices, with `drop_llm_indices` applied iff the dropped indices are non-empty. |
| EventLoop.ItemsForwardedInOrder | process_message.py:554-557 | The forwarded packets carry exactly the non-tool events, unchanged and in arrival order. |
| EventLoop.ToolResultIsLastFinal | process_message.py:555-556 | `tool_result` is none iff no final tool-call result arrived; otherwise it is the last one that arrived. |
| EventLoop.ReferenceDocsIffSearchSeen | process_message.py:485-546 | Reference docs are recorded iff a search summary or internet search has arrived, and so are the QA docs. |
| EventLoop.RelevanceBeforeSearchIsSilent | process_message.py:500-503 | A relevance list before any search yields no packet. |
| EventLoop.StagedFilesFromLastImage | process_message.py:523-537 | The files staged for the assistant message are none iff no image event arrived. Otherwise they are the image descriptors of the ids saved for the last image event. |
| EventLoop.OneImageEventTwoUrls | process_message.py:523-537 | An image event with two URLs yields one display packet whose two ids are the staged image files. |
| EventLoop.ForwardedItemsAppend | process_message.py:557 | Collecting forwarded items distributes over concatenation of packet lists. |
| ChatStore.AttachToAbsent | process_message.py:265-273 | Attaching files to an id no row carries changes nothing. |
| ChatStore.AttachToNewest | process_message.py:265-273 | Attaching files to the newest row sets its files and leaves every earlier row unchanged. |
| ChatStore.AttachToKeepsIds | process_message.py:265-273 | Attaching files keeps every row's id. |
| ChatStore.AttachTo | process_message.py:265-273 | Defines attaching files to the row with a given id. Every row stays, in order, and the result has as many rows as before. |
| ChatStore.ChatStore.Insert | process_message.py:211-221 | A provisional write gets a fresh id and is appended to the pending rows. Committed rows are untouched, and every id stays below the next id. |
| ChatStore.ChatStore.AttachFiles | process_message.py:265-273 | Sets the files of the pending row with that id and nothing else. |
| ChatStore.ChatStore.Rollback | process_message.py:582 | Discards every pending row and keeps the committed ones. |
| ChatStore.ChatStore.Commit | process_message.py:621 | The pending rows are appended to the committed ones, in write order. |
| ChatStore.ChatStore.constructor | process_message.py:114 | An empty store, with every id below the next id. |
| Persistence.AssignNamesFacts | process_message.py:597-598 | After assigning a tool list, a name is bound iff it was bound before or a tool carries it. A carried name maps to this id; any other name keeps its old value. |
| Persistence.AssignNames | process_message.py:597-598 | Defines the inner loop's effect: each tool's name is bound to the entry's id, in order. |
| Persistence.NameToId | process_message.py:595-598 | Defines the name-to-id map as `AssignNames` applied to each dictionary entry in insertion order. |
| Persistence.NameToIdLastOwner | process_message.py:595-598 | A name is in the map iff some dictionary entry has a tool of that name. It maps to the id of the last such entry. |
| Persistence.ToolNameToId | process_message.py:595-598 | The nested loop computes exactly the name-to-id fold. |
| Persistence.AssignNamesByNames | process_message.py:597-598 | The inner loop's effect depends only on the tools' names. |
| Persistence.NameToIdByNames | process_message.py:595-598 | The name-to-id map depends only on the dictionary's keys and tool names. |
| Persistence.ToolCalls | process_message.py:610-619 | The lookup raises iff a result was captured and its tool name is unknown. Otherwise the list is empty iff no result was captured, and holds at most one record. |
| Persistence.RecordedToolCall | process_message.py:595-619 | The recorded call carries the result's name, arguments and output. Its id is that of the last dictionary entry owning a tool of that name. The lookup raises iff no entry has such a tool. |
| Persistence.Citations | process_message.py:587-592 | Citations are translated iff the reference docs are present and non-empty. |
| Persistence.Persist | process_message.py:585-621 | It raises before the commit iff citation translation, token counting, the tool-id lookup, message creation or the commit raises; then nothing is committed. Otherwise the assistant row with every field as assembled is committed after the turn's pending rows. It is reported iff detail translation does not raise. |
| Persistence.FinalPacket | process_message.py:621-632 | The phase ends with exactly one terminal packet. It is the message detail iff the message was stored and translated; otherwise it is the "Failed to parse LLM output" error. |
| Turn.LoopPacketsNotTerminal | process_message.py:483-557 | No packet of the event loop is terminal. |
| Turn.TerminatedByLast | process_message.py:581-632 | Non-terminal packets followed by one terminal packet form a stream with exactly one terminal packet, at the end. |
| Turn.Request.constructor | process_message.py:112 | The request holds the given fields; only `query_override` is a field that changes later (process_message.py:250-253). |
| Turn.ErrorPacket | process_message.py:559-581 | The generation-phase handler yields one terminal `StreamingError` packet whose message is the classifier's text for the exception, the main LLM's provider and its key. |
| Turn.NewMessageEndsChain | process_message.py:207-231 | For a new message, an accepted chain ends with the inserted user row, so its prompt id is the one chosen before the LLM was bound. |
| Turn.MessagesError | process_message.py:177-273 | The first exception of the message phase, in source order, including the two chain-check texts. There is none iff that phase returns (`MessagesSucceed`). |
| Turn.QueryOverrideAfterSetup | process_message.py:250-253 | Once the chain is accepted, the override is defaulted as on the first message when the history is empty. Before that point it is unchanged. |
| Turn.PrepareMessages | process_message.py:177-273 | Returns iff the tokenizer, document index, root message, parent lookup (with a parent id), user-message write (unless reusing one), chain rebuild, file load and file attachment (for a new message) do not raise and the chain check passes. A failure carries the first of these exceptions, in source order (`MessagesError`). The check: a new user message must end the rebuilt chain, else the mainline error is returned after a rollback; a reused one requires the chain to end with a USER message, else the regenerate error. On success the chain is the rebuilt one, ending with the new message when one was written. The query override becomes `QueryOverrideAfterSetup`, the latest files are attached to the new message, and nothing is committed. |
| Turn.PrepareTools | process_message.py:275-446 | Returns iff the pinned documents load (when ids are pinned), the chain end has a prompt, the persona has a first prompt, no tool record raises, and token counting does not raise. A failure carries the first of these exceptions (`ToolingError`). A chain end without a prompt raises "No Prompt found". A persona without prompts raises the index error. A raising tool record makes this raise the selection's exception. On success the pinned docs match the loop's selection and the pruning mode is the chosen one. The tools are the flattened dictionary fold over the shared pruning config, with the same name-to-id map as the fold without it. The tool overhead is written into that fresh config. |
| Turn.ToolsIgnorePruning | process_message.py:291-434 | With the shared pruning config, tool construction raises iff the fold without it raises, with the same text. Otherwise the dictionary has the same name-to-id map. |
| Turn.ToolingError | process_message.py:275-446 | The first exception of the document, prompt and tool phase, in source order. There is none iff the phase reaches tool construction, no record raises and token counting does not raise. |
| Turn.SetupError | process_message.py:177-476 | The first exception of setup after the LLM is bound: the message phase's, then the tool phase's, then answer construction's. There is none iff the setup checks pass and no tool record raises. |
| Turn.NewMessageNoPrompt | process_message.py:159-336 | On a new message whose earlier steps pass, the chain's last message carries exactly the prompt id chosen before the LLM was bound. So "No Prompt found" is raised iff no prompt id was chosen, and with one the prompt checks reduce to the persona having a prompt. |
| Turn.Setup | process_message.py:177-476 | Returns iff the message checks, the document and prompt checks, tool construction, token counting and answer construction all pass. A failure carries the first exception (`SetupError`). It never commits. The query override after it is `QueryOverrideAfterSetup`. On success the pending rows gain just the user message, if one was created. That message is the inserted row with the latest files attached (`TurnUser`), and it ends the rebuilt chain. The pruning mode, the tool dictionary fold, its name-to-id map, the flattened tools and the tool overhead are as in `PrepareTools`. |
| Turn.GenerateAndPersist | process_message.py:478-632 | A generation error occurs iff the engine raises: the loop's packets, then one classified error, and a rollback. The turn completes iff the engine does not raise, the persistence phase does not raise before its commit, and detail translation does not raise. A persistence error has stored the assistant message iff the phase got past its commit, and then that message is committed after the pending rows. The stored message (`Persistence.IsAnswerMessage`) has every column but the id fixed: the placement's parent, prompt and alternate assistant id, the answer text and its token count, the loop's files, rephrased query and reference docs, the citations translated from the answer, the tool calls the name-to-id map gives for the captured result, and no error. |
| Turn.TurnWithLlm | process_message.py:177-632 | Once the LLM is bound, every exception is caught, so the stream ends with exactly one terminal packet. The query override ends as `QueryOverrideAfterSetup`. A generation error occurs iff setup raises (`SetupError`) or the engine raises. It has reached the event loop iff setup returned. Before the loop it is exactly one packet classifying setup's first exception. In either case it leaves the committed rows unchanged and nothing pending. The turn completes iff setup returns, the engine does not raise, detail translation does not raise, and tool construction and the persistence phase get past the commit (`Commits`). Completion also states outright that token counting, message creation and the commit did not raise, nor citation translation when there are reference docs. A persistence error has stored the assistant message iff `Commits` holds. It then commits the user row and the assistant message after the old pending rows. A completed turn commits the user row (`TurnUser`) and the assistant message after the old pending rows. The assistant message is the full `IsAnswerMessage` at `AnswerPlacement`: parent the chain's last message, the chosen prompt, the request's alternate assistant id. |
| Turn.StreamChatMessageObjects | process_message.py:111-632 | The turn escapes iff setup before the LLM fails, with the original exception's text, no packet and no state change. Otherwise its query override, outcomes, packets and commits are those of `TurnWithLlm` for the bound setup: a generation error iff setup after the LLM raises or the engine raises, and completion iff setup returns, the engine and detail translation do not raise, and `Commits` holds. A persistence error or a completed turn commits the user row and the full stored assistant message. |

## Left out

- `stream_chat_message` (process_message.py:635-651): JSON serialisation and session plumbing around the generator.
- Generator laziness, cancellation, logging and the timing decorator: the model returns the whole packet sequence of a turn.
- Bodies of collaborators (session creation, persona lookup, chain rebuilding, root-message creation, file loading, document lookup, tokenizer, custom-tool building, search-summary handling, relevance translation, index dropping, file saving, citation and detail translation, `_get_force_search_settings`, the `Answer` engine): they are uninterpreted values or functions of `Turn.Environment` and `EventLoop.Helpers`. Root-message creation is assumed to write no pending row. When the rebuilt chain of a new message ends with the new row's id, that last message is taken to be the inserted row itself, because the session returns the same object for an id it holds.
- An exception raised inside a per-event helper is modelled as an engine raise after the preceding events: each branch yields as its last statement, so the two are indistinguishable to the caller.
- The `llm or get_main_llm_from_tuple(...)` fallback (process_message.py:460-470) and the `if not persona` branch (process_message.py:338-347): `llm` and `persona` are always bound and truthy there, so only the taken branches are modelled. The prompt config becomes a check that the persona has a first prompt.
- `llm_override`, `prompt_override`, `fast_llm`, the user object and `GEN_AI_TEMPERATURE`: they are passed through to collaborators and change no decision here.
- Floating-point parameters (`max_document_percentage`, persona `num_chunks`) are reals: only `int()` truncation is modelled.
- `fetch_existing_llm_providers` raising is not a separate fault; the providers are given.
- `translate_db_message_to_chat_message_detail` is identity on the stored row (`Packet.MessageDetail`); only its failure after the commit is modelled.
- The tool classes, which define the names the built-in tools register under, are not part of this model. `ToolSelection.SearchToolName`, `ToolSelection.ImageGenerationToolName` and `ToolSelection.InternetSearchToolName` are placeholder strings; no contract depends on their values.
- Text.Lower: models Python's `str.lower()` for ASCII letters only; other Unicode case mappings are not modelled.
- Persistence.Persist: when the phase raises before its commit, the contract states only that nothing new is committed, not which rows stay pending; the source leaves them to the caller's session.
- Turn.TurnWithLlm: when a persistence error stops before the commit, the contract states only that the committed rows are unchanged. The pending rows are not described, as for `Persist`.
- Turn.StreamChatMessageObjects: after the escape check its contract is that of `TurnWithLlm` for the bound setup, so the same limit applies.
