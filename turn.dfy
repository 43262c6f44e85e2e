/**
 * One chat turn: setup and validation, tool selection, the event-to-packet
 * loop over the answer engine's stream, the error classifier, and the
 * persistence phase. Every collaborator (database, LLM factory, tokenizer,
 * document index, file store, answer engine) is a parameter: its results are
 * fields of `Environment`, its exceptions entries of the `faults` map, and
 * the engine's stream an `EngineRun`.
 */
module Turn {
  import opened Wrappers
  import opened ChatTypes
  import opened ErrorClassifier
  import opened TurnSetup
  import opened Pruning
  import opened ToolSelection
  import opened EventLoop
  import opened ChatStore
  import opened Persistence

  const MainlineError: string :=
    "The new message was not on the mainline. Be sure to update the chat pointers before calling this."
  const RegenerateError: string :=
    "The last message was not a user message. Cannot call `stream_chat_message_objects` with `is_regenerate=True` when the last message is not a user message."
  const NoPromptError: string := "No Prompt found"
  /** What indexing the first prompt of a persona without prompts raises. */
  const PromptIndexError: string := "list index out of range"

  /** The request of a turn; only the query override is rewritten during the turn. */
  class Request {
    const message: string
    const parentMessageId: Option<int>
    const promptId: Option<int>
    const searchDocIds: Option<seq<int>>
    const retrievalOptions: Option<RetrievalOptions>
    const alternateAssistantId: Option<int>
    const fileDescriptors: seq<FileDescriptor>
    const chunksAbove: int
    const chunksBelow: int
    const fullDoc: bool
    var queryOverride: Option<string>

    constructor (
      message: string, parentMessageId: Option<int>, promptId: Option<int>,
      searchDocIds: Option<seq<int>>, retrievalOptions: Option<RetrievalOptions>,
      alternateAssistantId: Option<int>, fileDescriptors: seq<FileDescriptor>,
      chunksAbove: int, chunksBelow: int, fullDoc: bool, queryOverride: Option<string>)
      ensures this.message == message && this.parentMessageId == parentMessageId
      ensures this.promptId == promptId && this.searchDocIds == searchDocIds
      ensures this.retrievalOptions == retrievalOptions && this.alternateAssistantId == alternateAssistantId
      ensures this.fileDescriptors == fileDescriptors && this.chunksAbove == chunksAbove
      ensures this.chunksBelow == chunksBelow && this.fullDoc == fullDoc && this.queryOverride == queryOverride
    {
      this.message := message;
      this.parentMessageId := parentMessageId;
      this.promptId := promptId;
      this.searchDocIds := searchDocIds;
      this.retrievalOptions := retrievalOptions;
      this.alternateAssistantId := alternateAssistantId;
      this.fileDescriptors := fileDescriptors;
      this.chunksAbove := chunksAbove;
      this.chunksBelow := chunksBelow;
      this.fullDoc := fullDoc;
      this.queryOverride := queryOverride;
    }
  }

  /** The keyword arguments of the turn besides the request. */
  datatype Settings = Settings(
    defaultNumChunks: real,
    maxDocumentPercentage: real,
    useExistingUserMessage: bool,
    additionalHeaders: Option<map<string, string>>)

  /** The linear history rebuilt from the session: its last message and the ones before it. */
  datatype Chain = Chain(final: StoredMessage, history: seq<StoredMessage>)

  /** What the collaborators return when they do not raise. */
  datatype Environment = Environment(
    session: ChatSession,
    alternatePersona: Persona,
    factory: LlmFactoryOutcome,
    encode: string -> seq<int>,
    rootMessageId: int,
    /** The chain as rebuilt after the provisional insert, given the inserted message if any. */
    chain: Option<StoredMessage> -> Chain,
    chatFiles: seq<ChatFile>,
    sections: seq<Section>,
    docById: int -> Option<SearchDoc>,
    providers: seq<LlmProvider>,
    bingApiKey: Option<string>,
    /** What looking up a record's built-in tool class raises, if anything, by record id. */
    builtinToolLookup: int -> Option<string>,
    buildCustomTools: OpenApiSchema -> Result<seq<CustomToolSpec>, string>,
    toolTokens: seq<Tool> -> int,
    explicitToolCalling: bool,
    helpers: Helpers,
    translateCitations: (seq<CitationInfo>, seq<SearchDoc>) -> map<int, int>)

  /** The answer engine's stream: the events it delivers, then a raise or a final answer. */
  datatype EngineRun = EngineRun(events: seq<Event>, raise: Option<string>, answer: AnswerResult)

  /**
   * How a turn ends: an exception that escapes (raised before the LLM is
   * bound), a classified generation error, a persistence error (with the
   * assistant message when it was committed before the error), or the
   * committed messages.
   */
  datatype Outcome =
    | Escaped(cause: string)
    | GenerationError(cause: string, reachedLoop: bool)
    | PersistenceError(stored: Option<StoredMessage>)
    | Completed(user: Option<StoredMessage>, assistant: StoredMessage)

  function PreSetup(req: Request, env: Environment, faults: map<Stage, string>): Result<PreLlmSetup, string>
  {
    SetupBeforeLlm(
      env.session, req.alternateAssistantId, env.alternatePersona, req.promptId,
      req.searchDocIds, req.retrievalOptions, env.factory, faults)
  }

  function Descriptors(files: seq<ChatFile>): (ds: seq<FileDescriptor>)
    ensures |ds| == |files|
  {
    seq(|files|, i requires 0 <= i < |files| => files[i].ToFileDescriptor())
  }

  /** The user message as first written: no files yet, attached later. */
  function UserDraft(req: Request, env: Environment, promptId: Option<int>, parentId: int): StoredMessage
  {
    StoredMessage(0, parentId, User, req.message, |env.encode(req.message)|, promptId,
      None, None, None, None, [], None, None)
  }

  /** The documents the request pins, as the event loop sees them. */
  function LoopContextFor(req: Request, env: Environment): LoopContext
  {
    LoopContext(
      if NonEmpty(req.searchDocIds) then Some(SelectedSearchDocs(req.searchDocIds.value, env.docById)) else None,
      req.retrievalOptions.Some? && req.retrievalOptions.value.dedupeDocs)
  }

  /** The sections of the pinned documents, loaded only when ids are pinned. */
  function SectionsFor(req: Request, env: Environment): Option<seq<Section>>
  {
    if NonEmpty(req.searchDocIds) then Some(env.sections) else None
  }

  function ToolContextFor(
    req: Request, settings: Settings, env: Environment, pre: PreLlmSetup, faults: map<Stage, string>,
    latestFiles: seq<ChatFile>, pruning: PruningConfig?): ToolContext
  {
    ToolContext(
      |latestFiles| > 0, pre.persona.llmRelevanceFilter, pre.llm, env.providers, env.bingApiKey,
      settings.additionalHeaders,
      env.builtinToolLookup,
      env.buildCustomTools, pruning, SectionsFor(req, env), req.retrievalOptions,
      req.chunksAbove, req.chunksBelow, req.fullDoc)
  }

  function UserRows(user: Option<StoredMessage>): seq<StoredMessage>
  {
    if user.Some? then [user.value] else []
  }

  /** The messages of the turn once setup has written the user message. */
  datatype Messages = Messages(chain: Chain, user: Option<StoredMessage>, latestFiles: seq<ChatFile>)

  /** The collaborator calls before the chain is rebuilt all return. */
  predicate ReachesChain(req: Request, settings: Settings, faults: map<Stage, string>)
  {
    && Tokenizer !in faults && DocumentIndex !in faults && RootMessage !in faults
    && (req.parentMessageId.Some? ==> ParentLookup !in faults)
    && (!settings.useExistingUserMessage ==> CreateUserMessage !in faults)
    && ChainBuild !in faults
  }

  function ParentId(req: Request, env: Environment): int
  {
    if req.parentMessageId.Some? then req.parentMessageId.value else env.rootMessageId
  }

  /** The user message as inserted: the draft under the store's next id. */
  function InsertedUser(req: Request, env: Environment, pre: PreLlmSetup, nextId: int): StoredMessage
  {
    UserDraft(req, env, pre.promptId, ParentId(req, env)).(id := nextId)
  }

  /**
   * The chain setup rebuilds: with the inserted user message, or as it stands
   * when regenerating. The session hands back the inserted row itself for its
   * id, so a rebuilt chain that ends at that id ends with that row.
   */
  function ChainFor(settings: Settings, env: Environment, user: StoredMessage): Chain
  {
    if settings.useExistingUserMessage then env.chain(None)
    else
      var c := env.chain(Some(user));
      if c.final.id == user.id then Chain(user, c.history) else c
  }

  /**
   * For a new message, an accepted chain ends with the inserted row, so the
   * prompt check sees the prompt id chosen before the LLM was bound.
   */
  lemma NewMessageEndsChain(req: Request, settings: Settings, env: Environment, pre: PreLlmSetup, nextId: int)
    requires !settings.useExistingUserMessage
    ensures var user := InsertedUser(req, env, pre, nextId);
      var chain := ChainFor(settings, env, user);
      ChainAccepted(settings, chain, user) ==> chain.final == user && chain.final.promptId == pre.promptId
  {
  }

  /** The new user message ends the main line, or, when regenerating, the chain already ends with a user message. */
  predicate ChainAccepted(settings: Settings, chain: Chain, user: StoredMessage)
  {
    if settings.useExistingUserMessage then chain.final.messageType == User else chain.final.id == user.id
  }

  /** When the message part of setup returns: nothing it calls raises and the chain is accepted. */
  predicate MessagesSucceed(
    req: Request, settings: Settings, env: Environment, pre: PreLlmSetup, faults: map<Stage, string>, nextId: int)
  {
    var user := InsertedUser(req, env, pre, nextId);
    && ReachesChain(req, settings, faults)
    && ChainAccepted(settings, ChainFor(settings, env, user), user)
    && LoadFiles !in faults
    && (!settings.useExistingUserMessage ==> AttachFiles !in faults)
  }

  /**
   * The exception the message part of setup raises first, if any, in the
   * order the calls and checks are made.
   */
  function MessagesError(
    req: Request, settings: Settings, env: Environment, pre: PreLlmSetup, faults: map<Stage, string>, nextId: int)
    : (r: Option<string>)
    ensures r.None? <==> MessagesSucceed(req, settings, env, pre, faults, nextId)
  {
    var user := InsertedUser(req, env, pre, nextId);
    if Tokenizer in faults then Some(faults[Tokenizer])
    else if DocumentIndex in faults then Some(faults[DocumentIndex])
    else if RootMessage in faults then Some(faults[RootMessage])
    else if req.parentMessageId.Some? && ParentLookup in faults then Some(faults[ParentLookup])
    else if !settings.useExistingUserMessage && CreateUserMessage in faults then Some(faults[CreateUserMessage])
    else if ChainBuild in faults then Some(faults[ChainBuild])
    else if !ChainAccepted(settings, ChainFor(settings, env, user), user) then
      Some(if settings.useExistingUserMessage then RegenerateError else MainlineError)
    else if LoadFiles in faults then Some(faults[LoadFiles])
    else if !settings.useExistingUserMessage && AttachFiles in faults then Some(faults[AttachFiles])
    else None
  }

  /**
   * The query override once setup has run: defaulted to the message on a
   * first turn as soon as the chain is accepted, untouched when setup raises
   * before that.
   */
  function QueryOverrideAfterSetup(
    queryOverride: Option<string>, req: Request, settings: Settings, env: Environment, pre: PreLlmSetup,
    faults: map<Stage, string>, nextId: int): Option<string>
  {
    var user := InsertedUser(req, env, pre, nextId);
    var chain := ChainFor(settings, env, user);
    if ReachesChain(req, settings, faults) && ChainAccepted(settings, chain, user)
    then DefaultQueryOverride(queryOverride, req.message, chain.history == [])
    else queryOverride
  }

  /** The user row the turn writes: the inserted message with the latest files attached, or none when regenerating. */
  function TurnUser(req: Request, settings: Settings, env: Environment, pre: PreLlmSetup, nextId: int)
    : Option<StoredMessage>
  {
    if settings.useExistingUserMessage then None
    else Some(InsertedUser(req, env, pre, nextId).(files := Some(Descriptors(LatestQueryFiles(env.chatFiles, req.fileDescriptors)))))
  }

  /**
   * Setup from the tokenizer to the files of the latest message: the user
   * message is written provisionally and must end the rebuilt chain, or,
   * when regenerating, the chain must already end with a user message.
   */
  method PrepareMessages(
    req: Request, settings: Settings, env: Environment, pre: PreLlmSetup,
    faults: map<Stage, string>, store: ChatStore) returns (r: Result<Messages, string>)
    requires store.Valid()
    modifies store, req
    ensures store.Valid()
    ensures store.committed == old(store.committed)
    ensures r.Success? <==> MessagesSucceed(req, settings, env, pre, faults, old(store.nextId))
    ensures var user := InsertedUser(req, env, pre, old(store.nextId));
      && ((ReachesChain(req, settings, faults) && !ChainAccepted(settings, ChainFor(settings, env, user), user))
           ==> r == Failure(if settings.useExistingUserMessage then RegenerateError else MainlineError))
      && ((ReachesChain(req, settings, faults) && !settings.useExistingUserMessage
           && !ChainAccepted(settings, ChainFor(settings, env, user), user)) ==> store.pending == [])
      && (r.Success? ==>
           && r.value.chain == ChainFor(settings, env, user)
           && (r.value.user.Some? <==> !settings.useExistingUserMessage)
           && (r.value.user.Some? ==> r.value.user.value == user.(files := Some(Descriptors(r.value.latestFiles)))))
    ensures r.Success? ==>
      && store.pending == old(store.pending) + UserRows(r.value.user)
      && req.queryOverride == DefaultQueryOverride(old(req.queryOverride), req.message, r.value.chain.history == [])
      && r.value.latestFiles == LatestQueryFiles(env.chatFiles, req.fileDescriptors)
    ensures r.Failure? ==> MessagesError(req, settings, env, pre, faults, old(store.nextId)) == Some(r.error)
    ensures req.queryOverride
      == QueryOverrideAfterSetup(old(req.queryOverride), req, settings, env, pre, faults, old(store.nextId))
  {
    if Tokenizer in faults { return Failure(faults[Tokenizer]); }
    if DocumentIndex in faults { return Failure(faults[DocumentIndex]); }
    if RootMessage in faults { return Failure(faults[RootMessage]); }
    var parentId := env.rootMessageId;
    if req.parentMessageId.Some? {
      if ParentLookup in faults { return Failure(faults[ParentLookup]); }
      parentId := req.parentMessageId.value;
    }
    var user: Option<StoredMessage> := None;
    var chain: Chain;
    if !settings.useExistingUserMessage {
      if CreateUserMessage in faults { return Failure(faults[CreateUserMessage]); }
      var m := store.Insert(UserDraft(req, env, pre.promptId, parentId));
      user := Some(m);
      if ChainBuild in faults { return Failure(faults[ChainBuild]); }
      chain := env.chain(Some(m));
      if chain.final.id != m.id {
        store.Rollback();
        return Failure(MainlineError);
      }
      chain := Chain(m, chain.history);
    } else {
      if ChainBuild in faults { return Failure(faults[ChainBuild]); }
      chain := env.chain(None);
      if chain.final.messageType != User {
        return Failure(RegenerateError);
      }
    }
    if chain.history == [] && !Truthy(req.queryOverride) {
      req.queryOverride := Some(req.message);
    }
    if LoadFiles in faults { return Failure(faults[LoadFiles]); }
    var latestFiles := LatestQueryFiles(env.chatFiles, req.fileDescriptors);
    if user.Some? {
      if AttachFiles in faults { return Failure(faults[AttachFiles]); }
      AttachToNewest(old(store.pending), user.value, Descriptors(latestFiles));
      store.AttachFiles(user.value.id, Descriptors(latestFiles));
      user := Some(user.value.(files := Some(Descriptors(latestFiles))));
    }
    return Success(Messages(chain, user, latestFiles));
  }

  /** The documents, pruning configuration and tools of the turn. */
  datatype Tooling = Tooling(
    selectedSections: Option<seq<Section>>,
    selectedDocs: Option<seq<SearchDoc>>,
    pruning: PruningConfig,
    selection: ToolSelection)

  /** The pinned documents load and the prompt checks pass, so tool construction is reached. */
  predicate ToolsReachable(req: Request, pre: PreLlmSetup, faults: map<Stage, string>, chain: Chain)
  {
    && (NonEmpty(req.searchDocIds) ==> DocIdentifiers !in faults && DocLookup !in faults)
    && chain.final.promptId.Some?
    && |pre.persona.prompts| > 0
  }

  /**
   * The persona's records folded into the tool dictionary, with the search
   * tools given no pruning configuration. Whether a record raises, with what,
   * and the keys and tool names of the dictionary do not depend on that
   * configuration (`ToolsIgnorePruning`), so contracts state them through
   * this fold.
   */
  function ToolFold(
    req: Request, settings: Settings, env: Environment, pre: PreLlmSetup, faults: map<Stage, string>,
    latestFiles: seq<ChatFile>): Result<seq<ToolEntry>, string>
  {
    BuildDict(ToolContextFor(req, settings, env, pre, faults, latestFiles, null), pre.persona.tools)
  }

  /** No tool record raises. */
  predicate ToolsBuild(
    req: Request, settings: Settings, env: Environment, pre: PreLlmSetup, faults: map<Stage, string>,
    latestFiles: seq<ChatFile>)
  {
    ToolFold(req, settings, env, pre, faults, latestFiles).Success?
  }

  /** The tool dictionary of the turn, built from the files of the latest message. */
  function ToolDictFor(
    req: Request, settings: Settings, env: Environment, pre: PreLlmSetup, faults: map<Stage, string>)
    : Result<seq<ToolEntry>, string>
  {
    ToolFold(req, settings, env, pre, faults, LatestQueryFiles(env.chatFiles, req.fileDescriptors))
  }

  /**
   * With the search tools given the shared pruning configuration, tool
   * construction raises exactly when the fold does, with the same text, and
   * otherwise yields a dictionary with the same name-to-id map.
   */
  lemma ToolsIgnorePruning(
    req: Request, settings: Settings, env: Environment, pre: PreLlmSetup, faults: map<Stage, string>,
    latestFiles: seq<ChatFile>, pruning: PruningConfig)
    ensures var d := BuildDict(ToolContextFor(req, settings, env, pre, faults, latestFiles, pruning), pre.persona.tools);
      var f := ToolFold(req, settings, env, pre, faults, latestFiles);
      && (d.Success? <==> f.Success?)
      && (d.Failure? ==> d.error == f.error)
      && (d.Success? ==> NameToId(d.value) == NameToId(f.value))
  {
    var ctx := ToolContextFor(req, settings, env, pre, faults, latestFiles, null);
    assert ctx.(pruning := pruning) == ToolContextFor(req, settings, env, pre, faults, latestFiles, pruning);
    FailureIgnoresPruning(ctx, pruning, pre.persona.tools);
    if BuildDict(ctx, pre.persona.tools).Success? {
      NamesIgnorePruning(ctx, pruning, pre.persona.tools);
      NameToIdByNames(BuildDict(ctx.(pruning := pruning), pre.persona.tools).value, BuildDict(ctx, pre.persona.tools).value);
    }
  }

  /** The exception the tool part of setup raises first, if any. */
  function ToolingError(
    req: Request, settings: Settings, env: Environment, pre: PreLlmSetup, faults: map<Stage, string>,
    chain: Chain, latestFiles: seq<ChatFile>): (r: Option<string>)
    ensures r.None? <==>
      && ToolsReachable(req, pre, faults, chain)
      && ToolsBuild(req, settings, env, pre, faults, latestFiles)
      && ToolTokens !in faults
  {
    var built := ToolFold(req, settings, env, pre, faults, latestFiles);
    if NonEmpty(req.searchDocIds) && DocIdentifiers in faults then Some(faults[DocIdentifiers])
    else if NonEmpty(req.searchDocIds) && DocLookup in faults then Some(faults[DocLookup])
    else if chain.final.promptId.None? then Some(NoPromptError)
    else if |pre.persona.prompts| == 0 then Some(PromptIndexError)
    else if built.Failure? then Some(built.error)
    else if ToolTokens in faults then Some(faults[ToolTokens])
    else None
  }

  /**
   * Setup from the pinned documents to the tool list: the pruning mode, the
   * prompt checks, tool construction, and the tool overhead written into the
   * pruning configuration that search tools share.
   */
  method PrepareTools(
    req: Request, settings: Settings, env: Environment, pre: PreLlmSetup,
    faults: map<Stage, string>, messages: Messages) returns (r: Result<Tooling, string>)
    ensures r.Success? <==>
      && ToolsReachable(req, pre, faults, messages.chain)
      && ToolsBuild(req, settings, env, pre, faults, messages.latestFiles)
      && ToolTokens !in faults
    ensures r.Failure? ==>
      ToolingError(req, settings, env, pre, faults, messages.chain, messages.latestFiles) == Some(r.error)
    ensures ToolsReachable(req, pre, faults, messages.chain)
      && !ToolsBuild(req, settings, env, pre, faults, messages.latestFiles)
      ==> r == Failure(ToolFold(req, settings, env, pre, faults, messages.latestFiles).error)
    ensures messages.chain.final.promptId.None? && (NonEmpty(req.searchDocIds) ==> DocIdentifiers !in faults && DocLookup !in faults)
      ==> r == Failure(NoPromptError)
    ensures messages.chain.final.promptId.Some? && |pre.persona.prompts| == 0
      && (NonEmpty(req.searchDocIds) ==> DocIdentifiers !in faults && DocLookup !in faults)
      ==> r == Failure(PromptIndexError)
    ensures r.Success? ==>
      && r.value.selectedDocs == LoopContextFor(req, env).selectedDocs
      && r.value.selectedSections == SectionsFor(req, env)
      && fresh(r.value.pruning)
      && r.value.pruning.mode == ChoosePruningMode(
           req.searchDocIds, pre.persona.numChunks, settings.defaultNumChunks,
           settings.maxDocumentPercentage, req.chunksAbove, req.chunksBelow)
      && BuildDict(ToolContextFor(req, settings, env, pre, faults, messages.latestFiles, r.value.pruning),
           pre.persona.tools) == Success(r.value.selection.toolDict)
      && NameToId(r.value.selection.toolDict) == NameToId(ToolFold(req, settings, env, pre, faults, messages.latestFiles).value)
      && r.value.selection.tools == Flatten(r.value.selection.toolDict)
      && r.value.pruning.toolNumTokens == env.toolTokens(r.value.selection.tools)
      && r.value.pruning.usingToolMessage == env.explicitToolCalling
  {
    var selectedSections: Option<seq<Section>> := None;
    var selectedDocs: Option<seq<SearchDoc>> := None;
    if NonEmpty(req.searchDocIds) {
      if DocIdentifiers in faults { return Failure(faults[DocIdentifiers]); }
      selectedSections := Some(env.sections);
      if DocLookup in faults { return Failure(faults[DocLookup]); }
      selectedDocs := Some(SelectedSearchDocs(req.searchDocIds.value, env.docById));
    }
    var pruning := new PruningConfig(ChoosePruningMode(
      req.searchDocIds, pre.persona.numChunks, settings.defaultNumChunks,
      settings.maxDocumentPercentage, req.chunksAbove, req.chunksBelow));
    if messages.chain.final.promptId.None? { return Failure(NoPromptError); }
    if |pre.persona.prompts| == 0 { return Failure(PromptIndexError); }
    var ctx := ToolContextFor(req, settings, env, pre, faults, messages.latestFiles, pruning);
    var selection := SelectTools(ctx, pre.persona.tools);
    ToolsIgnorePruning(req, settings, env, pre, faults, messages.latestFiles, pruning);
    if selection.Failure? {
      return Failure(selection.error);
    }
    if ToolTokens in faults { return Failure(faults[ToolTokens]); }
    pruning.SetToolOverhead(env.toolTokens(selection.value.tools), env.explicitToolCalling);
    return Success(Tooling(selectedSections, selectedDocs, pruning, selection.value));
  }

  /**
   * The checks and collaborator calls of setup after the LLM is bound pass,
   * tool construction aside: setup returns when these hold and no tool
   * record raises.
   */
  predicate SetupChecksPass(
    req: Request, settings: Settings, env: Environment, pre: PreLlmSetup, faults: map<Stage, string>, nextId: int)
  {
    && MessagesSucceed(req, settings, env, pre, faults, nextId)
    && ToolsReachable(req, pre, faults, ChainFor(settings, env, InsertedUser(req, env, pre, nextId)))
    && ToolTokens !in faults
    && AnswerSetup !in faults
  }

  /** The exception setup raises first once the LLM is bound, if any. */
  function SetupError(
    req: Request, settings: Settings, env: Environment, pre: PreLlmSetup, faults: map<Stage, string>, nextId: int)
    : (r: Option<string>)
    ensures r.None? <==>
      && SetupChecksPass(req, settings, env, pre, faults, nextId)
      && ToolsBuild(req, settings, env, pre, faults, LatestQueryFiles(env.chatFiles, req.fileDescriptors))
  {
    var messages := MessagesError(req, settings, env, pre, faults, nextId);
    var tooling := ToolingError(req, settings, env, pre, faults,
      ChainFor(settings, env, InsertedUser(req, env, pre, nextId)),
      LatestQueryFiles(env.chatFiles, req.fileDescriptors));
    if messages.Some? then messages
    else if tooling.Some? then tooling
    else if AnswerSetup in faults then Some(faults[AnswerSetup])
    else None
  }

  /**
   * On a new message whose earlier setup steps pass, "No Prompt found" is
   * raised exactly when no prompt id was chosen before the LLM was bound.
   */
  lemma NewMessageNoPrompt(
    req: Request, settings: Settings, env: Environment, pre: PreLlmSetup, faults: map<Stage, string>, nextId: int)
    requires !settings.useExistingUserMessage
    requires MessagesSucceed(req, settings, env, pre, faults, nextId)
    requires NonEmpty(req.searchDocIds) ==> DocIdentifiers !in faults && DocLookup !in faults
    ensures ChainFor(settings, env, InsertedUser(req, env, pre, nextId)).final.promptId == pre.promptId
    ensures pre.promptId.None? ==> SetupError(req, settings, env, pre, faults, nextId) == Some(NoPromptError)
    ensures pre.promptId.Some? ==>
      ToolsReachable(req, pre, faults, ChainFor(settings, env, InsertedUser(req, env, pre, nextId)))
        == (|pre.persona.prompts| > 0)
  {
    NewMessageEndsChain(req, settings, env, pre, nextId);
  }

  /**
   * All of setup once the LLM is bound, up to the construction of the answer
   * engine; an exception raised anywhere in it is returned.
   */
  method Setup(
    req: Request, settings: Settings, env: Environment, pre: PreLlmSetup,
    faults: map<Stage, string>, store: ChatStore) returns (r: Result<(Messages, Tooling), string>)
    requires store.Valid()
    modifies store, req
    ensures store.Valid() && store.committed == old(store.committed)
    ensures r.Success? <==>
      && SetupChecksPass(req, settings, env, pre, faults, old(store.nextId))
      && ToolsBuild(req, settings, env, pre, faults, LatestQueryFiles(env.chatFiles, req.fileDescriptors))
    ensures r.Failure? ==> SetupError(req, settings, env, pre, faults, old(store.nextId)) == Some(r.error)
    ensures req.queryOverride
      == QueryOverrideAfterSetup(old(req.queryOverride), req, settings, env, pre, faults, old(store.nextId))
    ensures r.Success? ==>
      var (messages, tooling) := r.value;
      && store.pending == old(store.pending) + UserRows(messages.user)
      && messages.chain == ChainFor(settings, env, InsertedUser(req, env, pre, old(store.nextId)))
      && messages.user == TurnUser(req, settings, env, pre, old(store.nextId))
      && (messages.user.Some? ==> messages.chain.final.id == messages.user.value.id)
      && messages.latestFiles == LatestQueryFiles(env.chatFiles, req.fileDescriptors)
      && tooling.selectedDocs == LoopContextFor(req, env).selectedDocs
      && tooling.selectedSections == SectionsFor(req, env)
      && fresh(tooling.pruning)
      && tooling.pruning.mode == ChoosePruningMode(
           req.searchDocIds, pre.persona.numChunks, settings.defaultNumChunks,
           settings.maxDocumentPercentage, req.chunksAbove, req.chunksBelow)
      && BuildDict(ToolContextFor(req, settings, env, pre, faults, messages.latestFiles, tooling.pruning),
           pre.persona.tools) == Success(tooling.selection.toolDict)
      && NameToId(tooling.selection.toolDict) == NameToId(ToolDictFor(req, settings, env, pre, faults).value)
      && tooling.selection.tools == Flatten(tooling.selection.toolDict)
      && tooling.pruning.toolNumTokens == env.toolTokens(tooling.selection.tools)
      && tooling.pruning.usingToolMessage == env.explicitToolCalling
  {
    var messages := PrepareMessages(req, settings, env, pre, faults, store);
    if messages.Failure? {
      return Failure(messages.error);
    }
    var tooling := PrepareTools(req, settings, env, pre, faults, messages.value);
    if tooling.Failure? {
      return Failure(tooling.error);
    }
    if AnswerSetup in faults {
      return Failure(faults[AnswerSetup]);
    }
    return Success((messages.value, tooling.value));
  }

  /** No packet of the event loop ends a turn. */
  lemma {:induction false} LoopPacketsNotTerminal(h: Helpers, ctx: LoopContext, events: seq<Event>)
    ensures forall i :: 0 <= i < |Run(h, ctx, events).1| ==> !Run(h, ctx, events).1[i].IsTerminal()
    decreases |events|
  {
    if events != [] {
      LoopPacketsNotTerminal(h, ctx, events[..|events| - 1]);
    }
  }

  /** Exactly one packet ends the stream, and it is the last one. */
  predicate Terminated(packets: seq<Packet>)
  {
    && |packets| > 0
    && packets[|packets| - 1].IsTerminal()
    && forall i :: 0 <= i < |packets| - 1 ==> !packets[i].IsTerminal()
  }

  lemma TerminatedByLast(streamed: seq<Packet>, last: Packet)
    requires forall i :: 0 <= i < |streamed| ==> !streamed[i].IsTerminal()
    requires last.IsTerminal()
    ensures Terminated(streamed + [last])
  {
  }

  /** The packet the generation-phase handler yields for an exception. */
  function ErrorPacket(cause: string, llm: LlmConfig): (p: Packet)
    ensures p.StreamingError? && p.IsTerminal()
    ensures p.error == ClassifyError(cause, llm.modelProvider, llm.apiKey)
  {
    StreamingError(ClassifyError(cause, llm.modelProvider, llm.apiKey))
  }

  /**
   * The rest of a turn once setup is done: the event loop, then either the
   * generation-phase handler (when the engine raises) or the persistence phase.
   */
  method GenerateAndPersist(
    store: ChatStore, env: Environment, engine: EngineRun, loopCtx: LoopContext,
    toolDict: seq<ToolEntry>, placement: Placement, llm: LlmConfig, user: Option<StoredMessage>,
    faults: map<Stage, string>) returns (packets: seq<Packet>, outcome: Outcome)
    requires store.Valid()
    modifies store
    ensures store.Valid()
    ensures !outcome.Escaped? && Terminated(packets)
    ensures outcome.GenerationError? <==> engine.raise.Some?
    ensures outcome.Completed? <==>
      && engine.raise.None?
      && !FailsBeforeCommit(Run(env.helpers, loopCtx, engine.events).0, NameToId(toolDict), faults)
      && TranslateDetail !in faults
    ensures outcome.GenerationError? ==>
      && store.pending == [] && store.committed == old(store.committed)
      && outcome.reachedLoop && engine.raise == Some(outcome.cause)
      && packets == Run(env.helpers, loopCtx, engine.events).1 + [ErrorPacket(outcome.cause, llm)]
    ensures outcome.PersistenceError? ==>
      var state := Run(env.helpers, loopCtx, engine.events).0;
      && packets == Run(env.helpers, loopCtx, engine.events).1 + [StreamingError(PersistenceFailureMessage)]
      && (outcome.stored.Some? <==> !FailsBeforeCommit(state, NameToId(toolDict), faults))
      && (outcome.stored.None? ==> store.committed == old(store.committed))
      && (outcome.stored.Some? ==>
            && store.pending == []
            && store.committed == old(store.committed) + old(store.pending) + [outcome.stored.value]
            && IsAnswerMessage(outcome.stored.value, placement, state, engine.answer, NameToId(toolDict),
                 env.translateCitations, env.encode))
    ensures outcome.Completed? ==>
      var (state, streamed) := Run(env.helpers, loopCtx, engine.events);
      && outcome.user == user
      && packets == streamed + [MessageDetail(outcome.assistant)]
      && store.pending == []
      && store.committed == old(store.committed) + old(store.pending) + [outcome.assistant]
      && IsAnswerMessage(outcome.assistant, placement, state, engine.answer, NameToId(toolDict),
           env.translateCitations, env.encode)
  {
    var state, streamed := ProcessEvents(env.helpers, loopCtx, engine.events);
    LoopPacketsNotTerminal(env.helpers, loopCtx, engine.events);
    if engine.raise.Some? {
      store.Rollback();
      TerminatedByLast(streamed, ErrorPacket(engine.raise.value, llm));
      return streamed + [ErrorPacket(engine.raise.value, llm)], GenerationError(engine.raise.value, true);
    }
    var result := Persist(store, toolDict, state, placement, engine.answer, env.translateCitations, env.encode, faults);
    TerminatedByLast(streamed, FinalPacket(result));
    packets := streamed + [FinalPacket(result)];
    if result.Persisted? && result.reported {
      outcome := Completed(user, result.assistant);
    } else if result.Persisted? {
      outcome := PersistenceError(Some(result.assistant));
    } else {
      outcome := PersistenceError(None);
    }
  }

  /** Where the assistant message goes: under the last message of the chain, with the chosen prompt. */
  function AnswerPlacement(req: Request, settings: Settings, env: Environment, pre: PreLlmSetup, nextId: int): Placement
  {
    Placement(ChainFor(settings, env, InsertedUser(req, env, pre, nextId)).final.id, pre.promptId, req.alternateAssistantId)
  }

  /** Tool construction succeeds and the persistence phase does not raise before its commit. */
  predicate Commits(
    req: Request, settings: Settings, env: Environment, pre: PreLlmSetup, faults: map<Stage, string>,
    state: LoopState)
  {
    var d := ToolDictFor(req, settings, env, pre, faults);
    d.Success? && !FailsBeforeCommit(state, NameToId(d.value), faults)
  }

  /**
   * The turn once the LLM is bound (`pre`): setup, the event loop and the
   * persistence phase. Every exception raised here is caught, so the stream
   * always ends with exactly one terminal packet.
   */
  method TurnWithLlm(
    req: Request, settings: Settings, env: Environment, pre: PreLlmSetup, engine: EngineRun,
    faults: map<Stage, string>, store: ChatStore) returns (packets: seq<Packet>, outcome: Outcome)
    requires store.Valid()
    modifies store, req
    ensures store.Valid()
    ensures !outcome.Escaped? && Terminated(packets)
    ensures req.queryOverride
      == QueryOverrideAfterSetup(old(req.queryOverride), req, settings, env, pre, faults, old(store.nextId))
    ensures outcome.GenerationError? <==>
      SetupError(req, settings, env, pre, faults, old(store.nextId)).Some? || engine.raise.Some?
    ensures outcome.GenerationError? ==>
      && store.pending == [] && store.committed == old(store.committed)
      && packets[|packets| - 1] == ErrorPacket(outcome.cause, pre.llm)
      && (outcome.reachedLoop <==> SetupError(req, settings, env, pre, faults, old(store.nextId)).None?)
      && (outcome.reachedLoop ==>
            && engine.raise == Some(outcome.cause)
            && packets == Run(env.helpers, LoopContextFor(req, env), engine.events).1 + [packets[|packets| - 1]])
      && (!outcome.reachedLoop ==>
            && |packets| == 1
            && SetupError(req, settings, env, pre, faults, old(store.nextId)) == Some(outcome.cause))
    ensures outcome.Completed? <==>
      && SetupError(req, settings, env, pre, faults, old(store.nextId)).None?
      && engine.raise.None? && TranslateDetail !in faults
      && Commits(req, settings, env, pre, faults, Run(env.helpers, LoopContextFor(req, env), engine.events).0)
    ensures outcome.PersistenceError? ==>
      var state := Run(env.helpers, LoopContextFor(req, env), engine.events).0;
      && SetupError(req, settings, env, pre, faults, old(store.nextId)).None? && engine.raise.None?
      && packets == Run(env.helpers, LoopContextFor(req, env), engine.events).1 + [StreamingError(PersistenceFailureMessage)]
      && (outcome.stored.Some? <==> Commits(req, settings, env, pre, faults, state))
      && (outcome.stored.None? ==> store.committed == old(store.committed))
      && (outcome.stored.Some? ==>
            && store.pending == []
            && store.committed == old(store.committed) + old(store.pending)
                 + UserRows(TurnUser(req, settings, env, pre, old(store.nextId))) + [outcome.stored.value]
            && IsAnswerMessage(outcome.stored.value, AnswerPlacement(req, settings, env, pre, old(store.nextId)),
                 state, engine.answer, NameToId(ToolDictFor(req, settings, env, pre, faults).value),
                 env.translateCitations, env.encode))
    ensures outcome.Completed? ==>
      var (state, streamed) := Run(env.helpers, LoopContextFor(req, env), engine.events);
      && AnswerTokenCount !in faults && CreateAssistantMessage !in faults && Commit !in faults
      && (NonEmpty(state.referenceDocs) ==> TranslateCitations !in faults)
      && packets == streamed + [MessageDetail(outcome.assistant)]
      && store.pending == []
      && store.committed == old(store.committed) + old(store.pending) + UserRows(outcome.user) + [outcome.assistant]
      && outcome.user == TurnUser(req, settings, env, pre, old(store.nextId))
      && (outcome.user.Some? ==> outcome.assistant.parentId == outcome.user.value.id)
      && IsAnswerMessage(outcome.assistant, AnswerPlacement(req, settings, env, pre, old(store.nextId)),
           state, engine.answer, NameToId(ToolDictFor(req, settings, env, pre, faults).value),
           env.translateCitations, env.encode)
  {
    var setup := Setup(req, settings, env, pre, faults, store);
    if setup.Failure? {
      store.Rollback();
      return [ErrorPacket(setup.error, pre.llm)], GenerationError(setup.error, false);
    }
    var (messages, tooling) := setup.value;
    var loopCtx := LoopContext(tooling.selectedDocs, LoopContextFor(req, env).dedupeDocs);
    assert loopCtx == LoopContextFor(req, env);
    var placement := Placement(messages.chain.final.id, pre.promptId, req.alternateAssistantId);
    packets, outcome := GenerateAndPersist(store, env, engine, loopCtx, tooling.selection.toolDict,
      placement, pre.llm, messages.user, faults);
  }

  /**
   * The turn: an exception raised before the LLM is bound escapes with no
   * packet and no change; otherwise the turn continues as `TurnWithLlm`.
   */
  method StreamChatMessageObjects(
    req: Request, settings: Settings, env: Environment, engine: EngineRun,
    faults: map<Stage, string>, store: ChatStore) returns (packets: seq<Packet>, outcome: Outcome)
    requires store.Valid()
    modifies store, req
    ensures store.Valid()
    ensures outcome.Escaped? <==> PreSetup(req, env, faults).Failure?
    ensures outcome.Escaped? ==>
      && outcome.cause == PreSetup(req, env, faults).error
      && packets == []
      && store.committed == old(store.committed) && store.pending == old(store.pending)
      && req.queryOverride == old(req.queryOverride)
    ensures !outcome.Escaped? ==> Terminated(packets)
    ensures !outcome.Escaped? ==>
      var pre := PreSetup(req, env, faults).value;
      req.queryOverride
        == QueryOverrideAfterSetup(old(req.queryOverride), req, settings, env, pre, faults, old(store.nextId))
    ensures outcome.GenerationError? <==>
      var pre := PreSetup(req, env, faults);
      pre.Success? && (SetupError(req, settings, env, pre.value, faults, old(store.nextId)).Some? || engine.raise.Some?)
    ensures outcome.GenerationError? ==>
      var pre := PreSetup(req, env, faults).value;
      && store.pending == [] && store.committed == old(store.committed)
      && packets[|packets| - 1] == ErrorPacket(outcome.cause, pre.llm)
      && (outcome.reachedLoop <==> SetupError(req, settings, env, pre, faults, old(store.nextId)).None?)
      && (outcome.reachedLoop ==>
            && engine.raise == Some(outcome.cause)
            && packets == Run(env.helpers, LoopContextFor(req, env), engine.events).1 + [packets[|packets| - 1]])
      && (!outcome.reachedLoop ==>
            && |packets| == 1
            && SetupError(req, settings, env, pre, faults, old(store.nextId)) == Some(outcome.cause))
    ensures outcome.Completed? <==>
      var pre := PreSetup(req, env, faults);
      && pre.Success?
      && SetupError(req, settings, env, pre.value, faults, old(store.nextId)).None?
      && engine.raise.None? && TranslateDetail !in faults
      && Commits(req, settings, env, pre.value, faults, Run(env.helpers, LoopContextFor(req, env), engine.events).0)
    ensures outcome.PersistenceError? ==>
      var pre := PreSetup(req, env, faults).value;
      var state := Run(env.helpers, LoopContextFor(req, env), engine.events).0;
      && SetupError(req, settings, env, pre, faults, old(store.nextId)).None? && engine.raise.None?
      && packets == Run(env.helpers, LoopContextFor(req, env), engine.events).1 + [StreamingError(PersistenceFailureMessage)]
      && (outcome.stored.Some? <==> Commits(req, settings, env, pre, faults, state))
      && (outcome.stored.None? ==> store.committed == old(store.committed))
      && (outcome.stored.Some? ==>
            && store.pending == []
            && store.committed == old(store.committed) + old(store.pending)
                 + UserRows(TurnUser(req, settings, env, pre, old(store.nextId))) + [outcome.stored.value]
            && IsAnswerMessage(outcome.stored.value, AnswerPlacement(req, settings, env, pre, old(store.nextId)),
                 state, engine.answer, NameToId(ToolDictFor(req, settings, env, pre, faults).value),
                 env.translateCitations, env.encode))
    ensures outcome.Completed? ==>
      var pre := PreSetup(req, env, faults).value;
      var (state, streamed) := Run(env.helpers, LoopContextFor(req, env), engine.events);
      && AnswerTokenCount !in faults && CreateAssistantMessage !in faults && Commit !in faults
      && (NonEmpty(state.referenceDocs) ==> TranslateCitations !in faults)
      && packets == streamed + [MessageDetail(outcome.assistant)]
      && store.pending == []
      && store.committed == old(store.committed) + old(store.pending) + UserRows(outcome.user) + [outcome.assistant]
      && outcome.user == TurnUser(req, settings, env, pre, old(store.nextId))
      && (outcome.user.Some? ==> outcome.assistant.parentId == outcome.user.value.id)
      && IsAnswerMessage(outcome.assistant, AnswerPlacement(req, settings, env, pre, old(store.nextId)),
           state, engine.answer, NameToId(ToolDictFor(req, settings, env, pre, faults).value),
           env.translateCitations, env.encode)
  {
    var pre := PreSetup(req, env, faults);
    if pre.Failure? {
      return [], Escaped(pre.error);
    }
    packets, outcome := TurnWithLlm(req, settings, env, pre.value, engine, faults, store);
  }
}
