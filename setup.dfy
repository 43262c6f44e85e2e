/**
 * The part of a turn that runs before the LLM is bound: persona and prompt
 * choice, the documents-or-options check and the LLM factory, plus the pure
 * steps of setup that follow it (first-turn query override, the files of the
 * latest message).
 */
module TurnSetup {
  import opened Wrappers
  import opened ChatTypes

  /**
   * The collaborator calls of a turn that can raise. A turn is run against a
   * map from stages to exception texts; the first stage reached that is in
   * the map raises with its text.
   */
  datatype Stage =
    | SessionLookup | PersonaLookup | LlmFactory
    | Tokenizer | DocumentIndex | RootMessage | ParentLookup
    | CreateUserMessage | ChainBuild | LoadFiles | AttachFiles
    | DocIdentifiers | DocLookup | ToolTokens | AnswerSetup
    | TranslateCitations | AnswerTokenCount | CreateAssistantMessage | Commit | TranslateDetail

  const MissingDocsOrOptionsError: string :=
    "Must specify a set of documents for chat or specify search options"
  const LlmDisabledError: string := "LLM is disabled. Can't use chat flow without LLM."

  /** What the LLM factory does for the persona: it is disabled, or it gives the main LLM. */
  datatype LlmFactoryOutcome = GenAIDisabled | Llms(llm: LlmConfig)

  datatype PreLlmSetup = PreLlmSetup(persona: Persona, promptId: Option<int>, llm: LlmConfig)

  /** The largest prompt id of a non-empty prompt list (the last after sorting by id). */
  function MaxPromptId(prompts: seq<Prompt>): (m: int)
    requires |prompts| > 0
    ensures exists i :: 0 <= i < |prompts| && prompts[i].id == m
    ensures forall i :: 0 <= i < |prompts| ==> prompts[i].id <= m
  {
    if |prompts| == 1 then prompts[0].id
    else
      var rest := MaxPromptId(prompts[1..]);
      assert forall i :: 1 <= i < |prompts| ==> prompts[i] == prompts[1..][i - 1];
      if prompts[0].id >= rest then prompts[0].id else rest
  }

  /** The prompt id of the turn: the requested one, else the persona's largest, else none. */
  function ChoosePromptId(requested: Option<int>, prompts: seq<Prompt>): (r: Option<int>)
    ensures requested.Some? ==> r == requested
    ensures requested.None? && prompts == [] ==> r == None
    ensures requested.None? && prompts != [] ==>
      r.Some? && (exists i :: 0 <= i < |prompts| && prompts[i].id == r.value)
      && forall i :: 0 <= i < |prompts| ==> prompts[i].id <= r.value
  {
    if requested.None? && |prompts| > 0 then Some(MaxPromptId(prompts)) else requested
  }

  /** The prompt chosen for a persona does not depend on the order its prompts are listed in. */
  lemma {:induction false} PromptChoiceIgnoresOrder(prompts: seq<Prompt>, reordered: seq<Prompt>)
    requires multiset(prompts) == multiset(reordered)
    ensures ChoosePromptId(None, prompts) == ChoosePromptId(None, reordered)
  {
    if prompts != [] {
      assert reordered != [] by {
        assert prompts[0] in multiset(reordered);
      }
      var a, b := MaxPromptId(prompts), MaxPromptId(reordered);
      var i :| 0 <= i < |prompts| && prompts[i].id == a;
      var j :| 0 <= j < |reordered| && reordered[j].id == b;
      assert prompts[i] in multiset(reordered);
      assert reordered[j] in multiset(prompts);
      var i' :| 0 <= i' < |reordered| && reordered[i'] == prompts[i];
      var j' :| 0 <= j' < |prompts| && prompts[j'] == reordered[j];
    } else {
      assert |reordered| == |multiset(reordered)| == 0;
    }
  }

  /** The persona of the turn: the alternate assistant's when one is named, else the session's. */
  function ChoosePersona(session: ChatSession, alternateAssistantId: Option<int>, alternatePersona: Persona): (p: Persona)
    ensures alternateAssistantId.None? ==> p == session.persona
    ensures alternateAssistantId.Some? ==> p == alternatePersona
  {
    if alternateAssistantId.Some? then alternatePersona else session.persona
  }

  /**
   * Setup up to and including the LLM factory. A failure here is an
   * exception raised before the LLM is bound; its text is returned.
   */
  function SetupBeforeLlm(
    session: ChatSession, alternateAssistantId: Option<int>, alternatePersona: Persona,
    requestedPromptId: Option<int>, searchDocIds: Option<seq<int>>,
    retrievalOptions: Option<RetrievalOptions>, factory: LlmFactoryOutcome,
    faults: map<Stage, string>): (r: Result<PreLlmSetup, string>)
    ensures r.Success? <==>
      SessionLookup !in faults
      && (alternateAssistantId.Some? ==> PersonaLookup !in faults)
      && (searchDocIds.Some? || retrievalOptions.Some?)
      && factory.Llms? && LlmFactory !in faults
    ensures (SessionLookup !in faults && (alternateAssistantId.Some? ==> PersonaLookup !in faults)
             && searchDocIds.None? && retrievalOptions.None?) ==> r == Failure(MissingDocsOrOptionsError)
    ensures r.Success? ==>
      r.value.persona == ChoosePersona(session, alternateAssistantId, alternatePersona)
      && r.value.promptId == ChoosePromptId(requestedPromptId, r.value.persona.prompts)
      && r.value.llm == factory.llm
  {
    if SessionLookup in faults then Failure(faults[SessionLookup])
    else if alternateAssistantId.Some? && PersonaLookup in faults then Failure(faults[PersonaLookup])
    else
      var persona := ChoosePersona(session, alternateAssistantId, alternatePersona);
      var promptId := ChoosePromptId(requestedPromptId, persona.prompts);
      if searchDocIds.None? && retrievalOptions.None? then Failure(MissingDocsOrOptionsError)
      else if factory.GenAIDisabled? then Failure(LlmDisabledError)
      else if LlmFactory in faults then Failure(faults[LlmFactory])
      else Success(PreLlmSetup(persona, promptId, factory.llm))
  }

  /** The first message of a session searches with the user's own words unless an override is given. */
  function DefaultQueryOverride(queryOverride: Option<string>, message: string, historyEmpty: bool): (r: Option<string>)
    ensures !historyEmpty ==> r == queryOverride
    ensures historyEmpty ==> Truthy(r) || r == Some(message)
    ensures historyEmpty && !Truthy(queryOverride) ==> r == Some(message)
    ensures historyEmpty && Truthy(queryOverride) ==> r == queryOverride
  {
    if historyEmpty && !Truthy(queryOverride) then Some(message) else queryOverride
  }

  /** Defaulting the override twice is the same as defaulting it once. */
  lemma DefaultQueryOverrideIdempotent(queryOverride: Option<string>, message: string, historyEmpty: bool)
    ensures var once := DefaultQueryOverride(queryOverride, message, historyEmpty);
      DefaultQueryOverride(once, message, historyEmpty) == once
  {
  }

  function DescriptorIds(descriptors: seq<FileDescriptor>): (ids: seq<string>)
    ensures |ids| == |descriptors|
    ensures forall i :: 0 <= i < |ids| ==> ids[i] == descriptors[i].id
  {
    seq(|descriptors|, i requires 0 <= i < |descriptors| => descriptors[i].id)
  }

  /** The loaded files that belong to the latest message, in load order. */
  function LatestQueryFiles(files: seq<ChatFile>, descriptors: seq<FileDescriptor>): (r: seq<ChatFile>)
    ensures |r| <= |files|
    ensures forall f :: f in r <==> f in files && f.fileId in DescriptorIds(descriptors)
  {
    if files == [] then []
    else
      var rest := LatestQueryFiles(files[1..], descriptors);
      assert forall f :: f in files <==> f == files[0] || f in files[1..];
      if files[0].fileId in DescriptorIds(descriptors) then [files[0]] + rest else rest
  }

  /** Selecting the latest files of a split load is selecting from each part. */
  lemma {:induction false} LatestQueryFilesKeepsOrder(a: seq<ChatFile>, b: seq<ChatFile>, descriptors: seq<FileDescriptor>)
    ensures LatestQueryFiles(a + b, descriptors) == LatestQueryFiles(a, descriptors) + LatestQueryFiles(b, descriptors)
  {
    if a != [] {
      assert (a + b)[1..] == a[1..] + b;
      LatestQueryFilesKeepsOrder(a[1..], b, descriptors);
    } else {
      assert a + b == b;
    }
  }
}
