/**
 * The event-to-packet loop of the generation phase. The answer engine
 * produces an ordered sequence of events; tool responses are recognised by
 * their id and turned into at most one packet each, while every other event
 * is forwarded unchanged. Five variables carry what later events and the
 * persistence phase need.
 */
module EventLoop {
  import opened Wrappers
  import opened ChatTypes

  /** Raw tool payloads; only the helpers that translate them look inside. */
  datatype SearchSummary = SearchSummary(raw: string)
  datatype InternetResults = InternetResults(raw: string)
  datatype GeneratedImage = GeneratedImage(url: string)
  datatype CustomToolSummary = CustomToolSummary(toolName: string, toolResult: string)

  /** An engine event; tool responses are told apart by their response id. */
  datatype Event =
    | SearchSummaryResponse(summary: SearchSummary)
    | RelevanceListResponse(sections: seq<Section>)
    | ImageGenerationResponse(images: seq<GeneratedImage>)
    | InternetSearchResponse(results: InternetResults)
    | CustomToolResponse(customSummary: CustomToolSummary)
    | UnrecognisedToolResponse(responseId: string)
    | Item(item: AnswerItem)

  datatype HandledSearchSummary = HandledSearchSummary(
    qaDocs: QADocs, referenceDocs: seq<SearchDoc>, droppedIndices: seq<int>)
  datatype HandledInternetSearch = HandledInternetSearch(qaDocs: QADocs, referenceDocs: seq<SearchDoc>)

  /** The helpers the loop calls; their bodies are not part of this model. */
  datatype Helpers = Helpers(
    handleSearchSummary: (SearchSummary, Option<seq<SearchDoc>>, bool) -> HandledSearchSummary,
    handleInternetSearch: InternetResults -> HandledInternetSearch,
    relevantIndices: (seq<Section>, seq<SearchDoc>) -> seq<int>,
    dropIndices: (seq<int>, seq<SearchDoc>, seq<int>) -> seq<int>,
    saveFilesFromUrls: seq<string> -> seq<string>)

  /** What the loop reads from the turn: the pinned documents and the dedupe flag. */
  datatype LoopContext = LoopContext(selectedDocs: Option<seq<SearchDoc>>, dedupeDocs: bool)

  datatype LoopState = LoopState(
    qaDocs: Option<QADocs>,
    referenceDocs: Option<seq<SearchDoc>>,
    droppedIndices: Option<seq<int>>,
    aiMessageFiles: Option<seq<FileDescriptor>>,
    toolResult: Option<ToolCallFinal>)

  const Initial: LoopState := LoopState(None, None, None, None, None)

  function Urls(images: seq<GeneratedImage>): (urls: seq<string>)
    ensures |urls| == |images|
    ensures forall i :: 0 <= i < |images| ==> urls[i] == images[i].url
  {
    seq(|images|, i requires 0 <= i < |images| => images[i].url)
  }

  function ImageDescriptors(fileIds: seq<string>): (files: seq<FileDescriptor>)
    ensures |files| == |fileIds|
    ensures forall i :: 0 <= i < |fileIds| ==> files[i] == FileDescriptor(fileIds[i], Image)
  {
    seq(|fileIds|, i requires 0 <= i < |fileIds| => FileDescriptor(fileIds[i], Image))
  }

  /** The relevance packet's indices: translated, then with dropped documents removed if any were. */
  function RelevantChunkIndices(h: Helpers, sections: seq<Section>, docs: seq<SearchDoc>, dropped: Option<seq<int>>): seq<int>
  {
    var indices := h.relevantIndices(sections, docs);
    if NonEmpty(dropped) then h.dropIndices(indices, docs, dropped.value) else indices
  }

  /** One event: the new state and the packet it yields, if any. */
  function Step(h: Helpers, ctx: LoopContext, s: LoopState, e: Event): (LoopState, Option<Packet>)
  {
    match e
    case SearchSummaryResponse(summary) =>
      var r := h.handleSearchSummary(summary, ctx.selectedDocs, ctx.dedupeDocs);
      (s.(qaDocs := Some(r.qaDocs), referenceDocs := Some(r.referenceDocs), droppedIndices := Some(r.droppedIndices)),
       Some(DocsFound(r.qaDocs)))
    case RelevanceListResponse(sections) =>
      if s.referenceDocs.None? then (s, None)
      else (s, Some(RelevanceFilter(RelevantChunkIndices(h, sections, s.referenceDocs.value, s.droppedIndices))))
    case ImageGenerationResponse(images) =>
      var fileIds := h.saveFilesFromUrls(Urls(images));
      (s.(aiMessageFiles := Some(ImageDescriptors(fileIds))), Some(ImageDisplay(fileIds)))
    case InternetSearchResponse(results) =>
      var r := h.handleInternetSearch(results);
      (s.(qaDocs := Some(r.qaDocs), referenceDocs := Some(r.referenceDocs)), Some(DocsFound(r.qaDocs)))
    case CustomToolResponse(summary) =>
      (s, Some(CustomToolResult(summary.toolResult, summary.toolName)))
    case UnrecognisedToolResponse(_) =>
      (s, None)
    case Item(item) =>
      (if item.ToolCallFinalResult? then s.(toolResult := Some(item.result)) else s, Some(Forwarded(item)))
  }

  function OptionToSeq<T>(o: Option<T>): seq<T>
  {
    if o.Some? then [o.value] else []
  }

  /** The state and the packets after the events, in arrival order. */
  function Run(h: Helpers, ctx: LoopContext, events: seq<Event>): (LoopState, seq<Packet>)
    decreases |events|
  {
    if events == [] then (Initial, [])
    else
      var (s, packets) := Run(h, ctx, events[..|events| - 1]);
      var (s', p) := Step(h, ctx, s, events[|events| - 1]);
      (s', packets + OptionToSeq(p))
  }

  /** The loop of the generation phase, with its five variables. */
  method ProcessEvents(h: Helpers, ctx: LoopContext, events: seq<Event>)
    returns (state: LoopState, packets: seq<Packet>)
    ensures (state, packets) == Run(h, ctx, events)
  {
    var referenceDocs: Option<seq<SearchDoc>> := None;
    var qaDocs: Option<QADocs> := None;
    var aiMessageFiles: Option<seq<FileDescriptor>> := None;
    var droppedIndices: Option<seq<int>> := None;
    var toolResult: Option<ToolCallFinal> := None;
    packets := [];
    var i := 0;
    while i < |events|
      invariant 0 <= i <= |events|
      invariant Run(h, ctx, events[..i])
             == (LoopState(qaDocs, referenceDocs, droppedIndices, aiMessageFiles, toolResult), packets)
    {
      RunAppend(h, ctx, events[..i], events[i]);
      assert events[..i] + [events[i]] == events[..i + 1];
      ghost var next := Step(h, ctx, LoopState(qaDocs, referenceDocs, droppedIndices, aiMessageFiles, toolResult), events[i]);
      ghost var packets0 := packets;
      match events[i] {
      case SearchSummaryResponse(summary) =>
        var r := h.handleSearchSummary(summary, ctx.selectedDocs, ctx.dedupeDocs);
        qaDocs, referenceDocs, droppedIndices := Some(r.qaDocs), Some(r.referenceDocs), Some(r.droppedIndices);
        packets := packets + [DocsFound(r.qaDocs)];
      case RelevanceListResponse(sections) =>
        if referenceDocs.Some? {
          var indices := h.relevantIndices(sections, referenceDocs.value);
          if droppedIndices.Some? && |droppedIndices.value| > 0 {
            indices := h.dropIndices(indices, referenceDocs.value, droppedIndices.value);
          }
          packets := packets + [RelevanceFilter(indices)];
        }
      case ImageGenerationResponse(images) =>
        var fileIds := h.saveFilesFromUrls(Urls(images));
        aiMessageFiles := Some(ImageDescriptors(fileIds));
        packets := packets + [ImageDisplay(fileIds)];
      case InternetSearchResponse(results) =>
        var r := h.handleInternetSearch(results);
        qaDocs, referenceDocs := Some(r.qaDocs), Some(r.referenceDocs);
        packets := packets + [DocsFound(r.qaDocs)];
      case CustomToolResponse(summary) =>
        packets := packets + [CustomToolResult(summary.toolResult, summary.toolName)];
      case UnrecognisedToolResponse(_) =>
      case Item(item) =>
        if item.ToolCallFinalResult? {
          toolResult := Some(item.result);
        }
        packets := packets + [Forwarded(item)];
      }
      assert next.0 == LoopState(qaDocs, referenceDocs, droppedIndices, aiMessageFiles, toolResult);
      assert packets == packets0 + OptionToSeq(next.1);
      i := i + 1;
    }
    assert events[..i] == events;
    state := LoopState(qaDocs, referenceDocs, droppedIndices, aiMessageFiles, toolResult);
  }

  /** Appending an event appends that event's packet, if any, and changes nothing before it. */
  lemma RunAppend(h: Helpers, ctx: LoopContext, events: seq<Event>, e: Event)
    ensures var (s, packets) := Run(h, ctx, events);
      Run(h, ctx, events + [e]) == (Step(h, ctx, s, e).0, packets + OptionToSeq(Step(h, ctx, s, e).1))
  {
    assert (events + [e])[..|events|] == events;
  }

  /** The packets of a prefix of the events are a prefix of the packets: nothing streamed is revised. */
  lemma {:induction false} StreamedPacketsAreFinal(h: Helpers, ctx: LoopContext, events: seq<Event>, k: int)
    requires 0 <= k <= |events|
    ensures Run(h, ctx, events[..k]).1 <= Run(h, ctx, events).1
    decreases |events| - k
  {
    if k < |events| {
      StreamedPacketsAreFinal(h, ctx, events, k + 1);
      RunAppend(h, ctx, events[..k], events[k]);
      assert events[..k] + [events[k]] == events[..k + 1];
    } else {
      assert events[..k] == events;
    }
  }

  /** Each event yields at most one packet. */
  lemma {:induction false} AtMostOnePacketPerEvent(h: Helpers, ctx: LoopContext, events: seq<Event>)
    ensures |Run(h, ctx, events).1| <= |events|
    decreases |events|
  {
    if events != [] {
      AtMostOnePacketPerEvent(h, ctx, events[..|events| - 1]);
    }
  }

  /**
   * Search-summary, internet-search, image, custom-tool and forwarded events
   * yield exactly one packet; a relevance list yields one exactly when
   * reference documents are recorded; other tool responses yield nothing.
   */
  lemma PacketsPerEvent(h: Helpers, ctx: LoopContext, s: LoopState, e: Event)
    ensures Step(h, ctx, s, e).1.Some? <==>
      !e.UnrecognisedToolResponse? && (e.RelevanceListResponse? ==> s.referenceDocs.Some?)
    ensures e.UnrecognisedToolResponse? ==> Step(h, ctx, s, e).0 == s
  {
  }

  /** The relevance packet drops indices only when the last search dropped documents. */
  lemma RelevanceIndices(h: Helpers, ctx: LoopContext, s: LoopState, sections: seq<Section>)
    requires s.referenceDocs.Some?
    ensures var docs := s.referenceDocs.value;
      var indices := h.relevantIndices(sections, docs);
      Step(h, ctx, s, RelevanceListResponse(sections)).1
        == Some(RelevanceFilter(if NonEmpty(s.droppedIndices) then h.dropIndices(indices, docs, s.droppedIndices.value) else indices))
  {
  }

  /** The items among the events, in order. */
  function Items(events: seq<Event>): seq<AnswerItem>
    decreases |events|
  {
    if events == [] then []
    else Items(events[..|events| - 1]) + (if events[|events| - 1].Item? then [events[|events| - 1].item] else [])
  }

  /** The items carried by forwarded packets, in order. */
  function ForwardedItems(packets: seq<Packet>): seq<AnswerItem>
    decreases |packets|
  {
    if packets == [] then []
    else
      var last := packets[|packets| - 1];
      ForwardedItems(packets[..|packets| - 1]) + (if last.Forwarded? then [last.item] else [])
  }

  lemma {:induction false} ForwardedItemsAppend(a: seq<Packet>, b: seq<Packet>)
    ensures ForwardedItems(a + b) == ForwardedItems(a) + ForwardedItems(b)
    decreases |b|
  {
    if b == [] {
      assert a + b == a;
    } else {
      var b' := b[..|b| - 1];
      assert (a + b)[..|a + b| - 1] == a + b';
      ForwardedItemsAppend(a, b');
    }
  }

  /** Every non-tool event is forwarded unchanged, and in arrival order. */
  lemma {:induction false} ItemsForwardedInOrder(h: Helpers, ctx: LoopContext, events: seq<Event>)
    ensures ForwardedItems(Run(h, ctx, events).1) == Items(events)
    decreases |events|
  {
    if events != [] {
      var init := events[..|events| - 1];
      ItemsForwardedInOrder(h, ctx, init);
      var (s, packets) := Run(h, ctx, init);
      var p := Step(h, ctx, s, events[|events| - 1]).1;
      ForwardedItemsAppend(packets, OptionToSeq(p));
      if p.Some? {
        assert ForwardedItems([p.value]) == (if p.value.Forwarded? then [p.value.item] else []) by {
          assert [p.value][..0] == [];
        }
      }
    }
  }

  predicate IsFinalResult(e: Event)
  {
    e.Item? && e.item.ToolCallFinalResult?
  }

  /** The captured tool result is the last final tool-call result among the events, if any. */
  lemma {:induction false} ToolResultIsLastFinal(h: Helpers, ctx: LoopContext, events: seq<Event>)
    ensures var r := Run(h, ctx, events).0.toolResult;
      && (r.None? <==> forall j :: 0 <= j < |events| ==> !IsFinalResult(events[j]))
      && (r.Some? ==>
            exists j :: (0 <= j < |events| && events[j] == Item(ToolCallFinalResult(r.value))
              && forall k :: j < k < |events| ==> !IsFinalResult(events[k])))
    decreases |events|
  {
    if events != [] {
      var init := events[..|events| - 1];
      ToolResultIsLastFinal(h, ctx, init);
      assert forall j :: 0 <= j < |init| ==> init[j] == events[j];
      var r0 := Run(h, ctx, init).0.toolResult;
      if !IsFinalResult(events[|events| - 1]) && r0.Some? {
        var j :| 0 <= j < |init| && init[j] == Item(ToolCallFinalResult(r0.value))
          && forall k :: j < k < |init| ==> !IsFinalResult(init[k]);
        assert events[j] == Item(ToolCallFinalResult(r0.value));
      }
    }
  }

  predicate IsDocsEvent(e: Event)
  {
    e.SearchSummaryResponse? || e.InternetSearchResponse?
  }

  /** Reference documents are recorded exactly once a search summary or internet search has arrived. */
  lemma {:induction false} ReferenceDocsIffSearchSeen(h: Helpers, ctx: LoopContext, events: seq<Event>)
    ensures Run(h, ctx, events).0.referenceDocs.Some? <==> exists j :: 0 <= j < |events| && IsDocsEvent(events[j])
    ensures Run(h, ctx, events).0.qaDocs.Some? <==> Run(h, ctx, events).0.referenceDocs.Some?
    decreases |events|
  {
    if events != [] {
      var init := events[..|events| - 1];
      ReferenceDocsIffSearchSeen(h, ctx, init);
      assert forall j :: 0 <= j < |init| ==> init[j] == events[j];
    }
  }

  /** A relevance list arriving before any search yields no packet. */
  lemma RelevanceBeforeSearchIsSilent(h: Helpers, ctx: LoopContext, events: seq<Event>, sections: seq<Section>)
    requires forall j :: 0 <= j < |events| ==> !IsDocsEvent(events[j])
    ensures Run(h, ctx, events + [RelevanceListResponse(sections)]).1 == Run(h, ctx, events).1
  {
    ReferenceDocsIffSearchSeen(h, ctx, events);
    RunAppend(h, ctx, events, RelevanceListResponse(sections));
  }

  predicate IsImageEvent(e: Event)
  {
    e.ImageGenerationResponse?
  }

  /**
   * The files staged for the assistant message are those of the last image
   * event, as image descriptors of the ids its packet displayed.
   */
  lemma {:induction false} StagedFilesFromLastImage(h: Helpers, ctx: LoopContext, events: seq<Event>)
    ensures var f := Run(h, ctx, events).0.aiMessageFiles;
      && (f.None? <==> forall j :: 0 <= j < |events| ==> !IsImageEvent(events[j]))
      && (f.Some? ==>
            exists j :: (0 <= j < |events| && IsImageEvent(events[j])
              && f.value == ImageDescriptors(h.saveFilesFromUrls(Urls(events[j].images)))
              && forall k :: j < k < |events| ==> !IsImageEvent(events[k])))
    decreases |events|
  {
    if events != [] {
      var init := events[..|events| - 1];
      StagedFilesFromLastImage(h, ctx, init);
      assert forall j :: 0 <= j < |init| ==> init[j] == events[j];
      var f0 := Run(h, ctx, init).0.aiMessageFiles;
      if !IsImageEvent(events[|events| - 1]) && f0.Some? {
        var j :| 0 <= j < |init| && IsImageEvent(init[j])
          && f0.value == ImageDescriptors(h.saveFilesFromUrls(Urls(init[j].images)))
          && forall k :: j < k < |init| ==> !IsImageEvent(init[k]);
        assert events[j] == init[j];
      }
    }
  }

  /** One image event with two URLs yields one packet whose two file ids are the staged files. */
  lemma OneImageEventTwoUrls(h: Helpers, ctx: LoopContext, a: GeneratedImage, b: GeneratedImage)
    requires |h.saveFilesFromUrls([a.url, b.url])| == 2
    ensures var ids := h.saveFilesFromUrls([a.url, b.url]);
      var (s, packets) := Run(h, ctx, [ImageGenerationResponse([a, b])]);
      && packets == [ImageDisplay(ids)] && |ids| == 2
      && s.aiMessageFiles == Some([FileDescriptor(ids[0], Image), FileDescriptor(ids[1], Image)])
  {
    var e := ImageGenerationResponse([a, b]);
    assert [e][..0] == [];
    assert Urls([a, b]) == [a.url, b.url];
    var ids := h.saveFilesFromUrls([a.url, b.url]);
    assert ImageDescriptors(ids) == [FileDescriptor(ids[0], Image), FileDescriptor(ids[1], Image)];
  }
}
