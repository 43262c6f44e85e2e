/**
 * The values a chat turn works on: messages, files, documents, personas and
 * their tool records, LLM configurations, engine output items and the packets
 * streamed back to the caller.
 */
module ChatTypes {
  import opened Wrappers

  /** Python truthiness of an optional string: present and non-empty. */
  predicate Truthy(s: Option<string>)
  {
    s.Some? && s.value != ""
  }

  /** Python truthiness of an optional list: present and non-empty. */
  predicate NonEmpty<T>(s: Option<seq<T>>)
  {
    s.Some? && |s.value| > 0
  }

  datatype MessageType = User | Assistant | System

  datatype ChatFileType = Image | OtherFileType(name: string)

  /** A file reference as the request and the stored messages carry it. */
  datatype FileDescriptor = FileDescriptor(id: string, fileType: ChatFileType)

  /** A file loaded into memory for the turn. */
  datatype ChatFile = ChatFile(fileId: string, fileType: ChatFileType)
  {
    function ToFileDescriptor(): FileDescriptor
    {
      FileDescriptor(fileId, fileType)
    }
  }

  /** A cached search-document row; `id` is its database id. */
  datatype SearchDoc = SearchDoc(id: int, documentId: string)

  /** A retrievable section of an indexed document. */
  datatype Section = Section(documentId: string, chunkId: int)

  datatype Prompt = Prompt(id: int)

  datatype RetrievalOptions = RetrievalOptions(dedupeDocs: bool)

  /** The class a built-in tool record resolves to. */
  datatype BuiltinClass =
    | SearchToolClass
    | ImageGenerationToolClass
    | InternetSearchToolClass
    | OtherBuiltinClass(name: string)

  /** An OpenAPI document; Python truthiness is non-emptiness. */
  datatype OpenApiSchema = OpenApiSchema(entries: map<string, string>)

  /** A persona's tool record as stored. */
  datatype ToolModel = ToolModel(
    id: int,
    inCodeToolId: Option<string>,
    builtinClass: BuiltinClass,
    openapiSchema: Option<OpenApiSchema>)

  datatype Persona = Persona(
    prompts: seq<Prompt>,
    numChunks: Option<real>,
    llmRelevanceFilter: bool,
    tools: seq<ToolModel>)

  datatype ChatSession = ChatSession(id: int, persona: Persona)

  datatype LlmConfig = LlmConfig(
    modelProvider: string,
    modelName: string,
    apiKey: Option<string>,
    apiBase: Option<string>,
    apiVersion: Option<string>)

  /** A configured LLM provider row. */
  datatype LlmProvider = LlmProvider(
    provider: string,
    defaultModelName: string,
    apiKey: Option<string>,
    apiBase: Option<string>,
    apiVersion: Option<string>)

  /** The document list streamed to the client after a search. */
  datatype QADocs = QADocs(topDocs: seq<SearchDoc>, rephrasedQuery: Option<string>)

  datatype CitationInfo = CitationInfo(citationNum: int, documentId: string)

  /** The final result of the one tool call the engine made. */
  datatype ToolCallFinal = ToolCallFinal(
    toolName: string,
    toolArgs: map<string, string>,
    toolResult: string)

  /** An engine output item that is not a tool response; it is forwarded as is. */
  datatype AnswerItem =
    | AnswerPiece(text: string)
    | Citation(info: CitationInfo)
    | ToolCallFinalResult(result: ToolCallFinal)
    | OtherItem(kind: string)

  /** The tool-call record stored with an assistant message. */
  datatype ToolCallRecord = ToolCallRecord(
    toolId: int,
    toolName: string,
    toolArguments: map<string, string>,
    toolResult: string)

  /** A chat message row. */
  datatype StoredMessage = StoredMessage(
    id: int,
    parentId: int,
    messageType: MessageType,
    message: string,
    tokenCount: int,
    promptId: Option<int>,
    files: Option<seq<FileDescriptor>>,
    rephrasedQuery: Option<string>,
    referenceDocs: Option<seq<SearchDoc>>,
    citations: Option<map<int, int>>,
    toolCalls: seq<ToolCallRecord>,
    alternateAssistantId: Option<int>,
    error: Option<string>)

  /** One unit of the stream a turn yields to its caller. */
  datatype Packet =
    | DocsFound(qaDocs: QADocs)
    | RelevanceFilter(relevantChunkIndices: seq<int>)
    | ImageDisplay(fileIds: seq<string>)
    | CustomToolResult(response: string, toolName: string)
    | Forwarded(item: AnswerItem)
    | MessageDetail(message: StoredMessage)
    | StreamingError(error: string)
  {
    /** The two packets that end a turn. */
    predicate IsTerminal()
    {
      MessageDetail? || StreamingError?
    }
  }
}
