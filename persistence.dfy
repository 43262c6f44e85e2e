/**
 * The persistence phase of a turn: after generation ends cleanly, the
 * assistant message is assembled from what the event loop captured, the
 * transaction is committed, and the stored message is reported.
 */
module Persistence {
  import opened Wrappers
  import opened ChatTypes
  import opened TurnSetup
  import opened ToolSelection
  import opened EventLoop
  import opened ChatStore

  const PersistenceFailureMessage: string := "Failed to parse LLM output"

  /** `m[t.name] = toolId` for each tool of `tools` in turn. */
  function AssignNames(m: map<string, int>, toolId: int, tools: seq<Tool>): map<string, int>
    decreases |tools|
  {
    if tools == [] then m
    else AssignNames(m, toolId, tools[..|tools| - 1])[tools[|tools| - 1].Name() := toolId]
  }

  /** The name-to-id map built from the tool dictionary, entry by entry. */
  function NameToId(d: seq<ToolEntry>): map<string, int>
    decreases |d|
  {
    if d == [] then map[] else AssignNames(NameToId(d[..|d| - 1]), d[|d| - 1].toolId, d[|d| - 1].tools)
  }

  /** The assignments depend on the tools only through their names. */
  lemma {:induction false} AssignNamesByNames(m: map<string, int>, toolId: int, ts: seq<Tool>, us: seq<Tool>)
    requires ToolNames(ts) == ToolNames(us)
    ensures AssignNames(m, toolId, ts) == AssignNames(m, toolId, us)
    decreases |ts|
  {
    assert |ts| == |ToolNames(ts)| == |us|;
    if ts != [] {
      var n := |ts| - 1;
      assert ToolNames(ts[..n]) == ToolNames(ts)[..n];
      assert ToolNames(us[..n]) == ToolNames(us)[..n];
      AssignNamesByNames(m, toolId, ts[..n], us[..n]);
      assert ts[n].Name() == ToolNames(ts)[n] == us[n].Name();
    }
  }

  /** The name-to-id map depends on the dictionary only through its keys and its tools' names. */
  lemma {:induction false} NameToIdByNames(d: seq<ToolEntry>, e: seq<ToolEntry>)
    requires EntryNames(d) == EntryNames(e)
    ensures NameToId(d) == NameToId(e)
    decreases |d|
  {
    assert |d| == |EntryNames(d)| == |e|;
    if d != [] {
      var n := |d| - 1;
      assert EntryNames(d[..n]) == EntryNames(d)[..n];
      assert EntryNames(e[..n]) == EntryNames(e)[..n];
      NameToIdByNames(d[..n], e[..n]);
      assert EntryNames(d)[n] == EntryNames(e)[n];
      AssignNamesByNames(NameToId(d[..n]), d[n].toolId, d[n].tools, e[n].tools);
    }
  }

  predicate HasName(tools: seq<Tool>, name: string)
  {
    exists j :: 0 <= j < |tools| && tools[j].Name() == name
  }

  /** A name is bound by the assignments exactly when it was bound before or one of the tools carries it. */
  lemma {:induction false} AssignNamesFacts(m: map<string, int>, toolId: int, tools: seq<Tool>, name: string)
    ensures name in AssignNames(m, toolId, tools) <==> name in m || HasName(tools, name)
    ensures HasName(tools, name) ==> AssignNames(m, toolId, tools)[name] == toolId
    ensures !HasName(tools, name) && name in m ==> AssignNames(m, toolId, tools)[name] == m[name]
    decreases |tools|
  {
    if tools != [] {
      var init := tools[..|tools| - 1];
      AssignNamesFacts(m, toolId, init, name);
      assert forall j :: 0 <= j < |init| ==> init[j] == tools[j];
      if HasName(tools, name) && tools[|tools| - 1].Name() != name {
        var j :| 0 <= j < |tools| && tools[j].Name() == name;
        assert init[j].Name() == name;
      }
    }
  }

  /**
   * When several tools share a name, the map keeps the id of the last
   * dictionary entry holding a tool of that name; a name no tool carries is
   * absent.
   */
  lemma {:induction false} NameToIdLastOwner(d: seq<ToolEntry>, name: string)
    ensures name in NameToId(d) <==> exists i :: 0 <= i < |d| && HasName(d[i].tools, name)
    ensures name in NameToId(d) ==>
      exists i :: (0 <= i < |d| && HasName(d[i].tools, name) && NameToId(d)[name] == d[i].toolId
        && forall k :: i < k < |d| ==> !HasName(d[k].tools, name))
    decreases |d|
  {
    if d != [] {
      var init := d[..|d| - 1];
      var last := d[|d| - 1];
      NameToIdLastOwner(init, name);
      AssignNamesFacts(NameToId(init), last.toolId, last.tools, name);
      assert forall i :: 0 <= i < |init| ==> init[i] == d[i];
      if name in NameToId(d) && !HasName(last.tools, name) {
        var i :| 0 <= i < |init| && HasName(init[i].tools, name) && NameToId(init)[name] == init[i].toolId
          && forall k :: i < k < |init| ==> !HasName(init[k].tools, name);
        assert d[i] == init[i];
      }
    }
  }

  /** The double loop over the tool dictionary that maps each tool's name to its record id. */
  method ToolNameToId(d: seq<ToolEntry>) returns (m: map<string, int>)
    ensures m == NameToId(d)
  {
    m := map[];
    var i := 0;
    while i < |d|
      invariant 0 <= i <= |d|
      invariant m == NameToId(d[..i])
    {
      assert d[..i + 1][..i] == d[..i];
      var tools := d[i].tools;
      var j := 0;
      while j < |tools|
        invariant 0 <= j <= |tools|
        invariant m == AssignNames(NameToId(d[..i]), d[i].toolId, tools[..j])
      {
        assert tools[..j + 1][..j] == tools[..j];
        m := m[tools[j].Name() := d[i].toolId];
        j := j + 1;
      }
      assert tools[..j] == tools;
      i := i + 1;
    }
    assert d[..i] == d;
  }

  /**
   * The tool-call list of the assistant message: empty without a captured
   * result, otherwise one record whose id is looked up by the result's tool
   * name. `None` stands for the lookup raising because the name is unknown.
   */
  function ToolCalls(toolResult: Option<ToolCallFinal>, nameToId: map<string, int>): (r: Option<seq<ToolCallRecord>>)
    ensures r.None? <==> toolResult.Some? && toolResult.value.toolName !in nameToId
    ensures r.Some? ==> |r.value| <= 1 && (r.value == [] <==> toolResult.None?)
  {
    match toolResult
    case None => Some([])
    case Some(tr) =>
      if tr.toolName in nameToId
      then Some([ToolCallRecord(nameToId[tr.toolName], tr.toolName, tr.toolArgs, tr.toolResult)])
      else None
  }

  /**
   * The recorded tool call names the captured result's tool, carries its
   * arguments and result, and is attributed to the last dictionary entry
   * owning a tool of that name; the lookup raises exactly when no tool
   * in the dictionary has that name.
   */
  lemma RecordedToolCall(d: seq<ToolEntry>, tr: ToolCallFinal)
    ensures var r := ToolCalls(Some(tr), NameToId(d));
      && (r.None? <==> forall i :: 0 <= i < |d| ==> !HasName(d[i].tools, tr.toolName))
      && (r.Some? ==> exists i :: (0 <= i < |d| && HasName(d[i].tools, tr.toolName)
            && r.value == [ToolCallRecord(d[i].toolId, tr.toolName, tr.toolArgs, tr.toolResult)]
            && forall k :: i < k < |d| ==> !HasName(d[k].tools, tr.toolName)))
  {
    NameToIdLastOwner(d, tr.toolName);
  }

  /** Citations are translated only against a non-empty list of reference documents. */
  function Citations(
    referenceDocs: Option<seq<SearchDoc>>, answerCitations: seq<CitationInfo>,
    translate: (seq<CitationInfo>, seq<SearchDoc>) -> map<int, int>): (r: Option<map<int, int>>)
    ensures r.Some? <==> NonEmpty(referenceDocs)
    ensures r.Some? ==> r.value == translate(answerCitations, referenceDocs.value)
  {
    if NonEmpty(referenceDocs) then Some(translate(answerCitations, referenceDocs.value)) else None
  }

  /** What the answer engine reports once its stream is exhausted. */
  datatype AnswerResult = AnswerResult(text: string, citations: seq<CitationInfo>)

  /** Where the assistant message goes in the tree and what it is attributed to. */
  datatype Placement = Placement(parentId: int, promptId: Option<int>, alternateAssistantId: Option<int>)

  /**
   * The phase ends with the message stored and reported, stored but not
   * reported (the detail translation raised after the commit), or not stored.
   */
  datatype PersistOutcome = Persisted(assistant: StoredMessage, reported: bool) | NotPersisted

  /** The phase raises before the commit exactly when one of these holds. */
  predicate FailsBeforeCommit(
    state: LoopState, nameToId: map<string, int>, faults: map<Stage, string>)
  {
    || (NonEmpty(state.referenceDocs) && TranslateCitations in faults)
    || AnswerTokenCount in faults
    || ToolCalls(state.toolResult, nameToId).None?
    || CreateAssistantMessage in faults
    || Commit in faults
  }

  /**
   * What a stored assistant message holds, given where it goes, what the
   * event loop captured, the answer, the tool name-to-id map and the
   * citation and token helpers: every column but the id is determined.
   */
  predicate IsAnswerMessage(
    a: StoredMessage, placement: Placement, state: LoopState, answer: AnswerResult, nameToId: map<string, int>,
    translate: (seq<CitationInfo>, seq<SearchDoc>) -> map<int, int>, encode: string -> seq<int>)
  {
    && a.parentId == placement.parentId
    && a.messageType == Assistant
    && a.message == answer.text
    && a.tokenCount == |encode(answer.text)|
    && a.promptId == placement.promptId
    && a.files == state.aiMessageFiles
    && a.rephrasedQuery == (if state.qaDocs.Some? then state.qaDocs.value.rephrasedQuery else None)
    && a.referenceDocs == state.referenceDocs
    && a.citations == Citations(state.referenceDocs, answer.citations, translate)
    && ToolCalls(state.toolResult, nameToId) == Some(a.toolCalls)
    && a.alternateAssistantId == placement.alternateAssistantId
    && a.error == None
  }

  /** Assembles the assistant message, writes it and commits the transaction. */
  method Persist(
    store: ChatStore, toolDict: seq<ToolEntry>, state: LoopState, placement: Placement,
    answer: AnswerResult, translate: (seq<CitationInfo>, seq<SearchDoc>) -> map<int, int>,
    encode: string -> seq<int>, faults: map<Stage, string>) returns (r: PersistOutcome)
    requires store.Valid()
    modifies store
    ensures store.Valid()
    ensures r.NotPersisted? <==> FailsBeforeCommit(state, NameToId(toolDict), faults)
    ensures r.NotPersisted? ==> store.committed == old(store.committed)
    ensures r.Persisted? ==>
      && r.reported == (TranslateDetail !in faults)
      && store.pending == []
      && store.committed == old(store.committed) + old(store.pending) + [r.assistant]
      && r.assistant == StoredMessage(
           old(store.nextId), placement.parentId, Assistant, answer.text, |encode(answer.text)|,
           placement.promptId, state.aiMessageFiles,
           if state.qaDocs.Some? then state.qaDocs.value.rephrasedQuery else None,
           state.referenceDocs, Citations(state.referenceDocs, answer.citations, translate),
           ToolCalls(state.toolResult, NameToId(toolDict)).value,
           placement.alternateAssistantId, None)
  {
    var citations: Option<map<int, int>> := None;
    if NonEmpty(state.referenceDocs) {
      if TranslateCitations in faults {
        return NotPersisted;
      }
      citations := Some(translate(answer.citations, state.referenceDocs.value));
    }
    var nameToId := ToolNameToId(toolDict);
    if AnswerTokenCount in faults {
      return NotPersisted;
    }
    var toolCalls := ToolCalls(state.toolResult, nameToId);
    if toolCalls.None? {
      return NotPersisted;
    }
    if CreateAssistantMessage in faults {
      return NotPersisted;
    }
    var rephrasedQuery := if state.qaDocs.Some? then state.qaDocs.value.rephrasedQuery else None;
    var assistant := store.Insert(StoredMessage(
      0, placement.parentId, Assistant, answer.text, |encode(answer.text)|, placement.promptId,
      state.aiMessageFiles, rephrasedQuery, state.referenceDocs, citations, toolCalls.value,
      placement.alternateAssistantId, None));
    if Commit in faults {
      return NotPersisted;
    }
    store.Commit();
    return Persisted(assistant, TranslateDetail !in faults);
  }

  /** The packet that ends the persistence phase. */
  function FinalPacket(r: PersistOutcome): (p: Packet)
    ensures p.IsTerminal()
    ensures p.MessageDetail? <==> r.Persisted? && r.reported
    ensures p.StreamingError? ==> p.error == PersistenceFailureMessage
  {
    if r.Persisted? && r.reported then MessageDetail(r.assistant) else StreamingError(PersistenceFailureMessage)
  }
}
