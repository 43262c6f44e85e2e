/**
 * Tool selection: each of the persona's tool records is turned into zero or
 * more tool instances, kept in a dictionary keyed by the record's id (Python
 * dict semantics: re-assigning a key keeps its position), and the tool list
 * is the dictionary's values flattened in insertion order.
 */
module ToolSelection {
  import opened Wrappers
  import opened ChatTypes
  import opened Pruning

  /** Names the built-in tools register under; the tool classes define them, these are placeholders. */
  const SearchToolName: string := "run_search"
  const ImageGenerationToolName: string := "run_image_generation"
  const InternetSearchToolName: string := "run_internet_search"

  const OpenAIProviderName: string := "openai"
  const ImageKeyError: string := "Image generation tool requires an OpenAI API key"
  const BingKeyError: string :=
    "Internet search tool requires a Bing API key, please contact your project admin to get it added!"

  datatype EvaluationType = Basic | Skip

  /** One operation of an OpenAPI document, as a custom tool. */
  datatype CustomToolSpec = CustomToolSpec(name: string, httpMethod: string, path: string)

  datatype Tool =
    | SearchTool(
        pruning: PruningConfig?, evaluationType: EvaluationType,
        selectedSections: Option<seq<Section>>, retrievalOptions: Option<RetrievalOptions>,
        chunksAbove: int, chunksBelow: int, fullDoc: bool)
    | ImageGenerationTool(
        apiKey: string, apiBase: Option<string>, apiVersion: Option<string>,
        additionalHeaders: Option<map<string, string>>)
    | InternetSearchTool(apiKey: string)
    | CustomTool(spec: CustomToolSpec)
  {
    function Name(): string
    {
      match this
      case SearchTool(_, _, _, _, _, _, _) => SearchToolName
      case ImageGenerationTool(_, _, _, _) => ImageGenerationToolName
      case InternetSearchTool(_) => InternetSearchToolName
      case CustomTool(spec) => spec.name
    }
  }

  /** What tool construction reads from the turn. */
  datatype ToolContext = ToolContext(
    hasQueryFiles: bool,
    relevanceFilter: bool,
    llm: LlmConfig,
    providers: seq<LlmProvider>,
    bingApiKey: Option<string>,
    additionalHeaders: Option<map<string, string>>,
    /** What looking up a record's built-in tool class raises, if anything, by record id. */
    builtinLookupFault: int -> Option<string>,
    /** Builds the tools of an OpenAPI document, or the exception it raises. */
    buildCustomTools: OpenApiSchema -> Result<seq<CustomToolSpec>, string>,
    pruning: PruningConfig?,
    selectedSections: Option<seq<Section>>,
    retrievalOptions: Option<RetrievalOptions>,
    chunksAbove: int,
    chunksBelow: int,
    fullDoc: bool)

  datatype ImageCredentials = ImageCredentials(apiKey: string, apiBase: Option<string>, apiVersion: Option<string>)

  /** The first configured provider named "openai", if any. */
  function FirstOpenAIProvider(providers: seq<LlmProvider>): (r: Option<LlmProvider>)
    ensures r.None? <==> forall i :: 0 <= i < |providers| ==> providers[i].provider != OpenAIProviderName
    ensures r.Some? ==>
      exists i :: 0 <= i < |providers| && providers[i] == r.value && r.value.provider == OpenAIProviderName
        && forall j :: 0 <= j < i ==> providers[j].provider != OpenAIProviderName
  {
    if providers == [] then None
    else if providers[0].provider == OpenAIProviderName then Some(providers[0])
    else
      assert forall i :: 1 <= i < |providers| ==> providers[i] == providers[1..][i - 1];
      FirstOpenAIProvider(providers[1..])
  }

  /**
   * The credentials of the image tool: the main LLM's when it is an OpenAI
   * model with a key, else the first OpenAI provider's, which must have a key.
   */
  function ImageCredential(llm: LlmConfig, providers: seq<LlmProvider>): (r: Result<ImageCredentials, string>)
    ensures r.Success? ==> r.value.apiKey != ""
    ensures r.Failure? ==> r.error == ImageKeyError
    ensures Truthy(llm.apiKey) && llm.modelProvider == OpenAIProviderName ==>
      r == Success(ImageCredentials(llm.apiKey.value, llm.apiBase, llm.apiVersion))
    ensures !(Truthy(llm.apiKey) && llm.modelProvider == OpenAIProviderName) ==>
      (r.Success? <==> FirstOpenAIProvider(providers).Some? && Truthy(FirstOpenAIProvider(providers).value.apiKey))
      && (r.Success? ==>
            var p := FirstOpenAIProvider(providers).value;
            r.value == ImageCredentials(p.apiKey.value, p.apiBase, p.apiVersion))
  {
    if Truthy(llm.apiKey) && llm.modelProvider == OpenAIProviderName then
      Success(ImageCredentials(llm.apiKey.value, llm.apiBase, llm.apiVersion))
    else
      match FirstOpenAIProvider(providers)
      case None => Failure(ImageKeyError)
      case Some(p) =>
        if !Truthy(p.apiKey) then Failure(ImageKeyError)
        else Success(ImageCredentials(p.apiKey.value, p.apiBase, p.apiVersion))
  }

  /** Only the first OpenAI provider is consulted: a keyless one hides a later one with a key. */
  lemma KeylessFirstOpenAIProviderFails(llm: LlmConfig, first: LlmProvider, later: LlmProvider)
    requires !(Truthy(llm.apiKey) && llm.modelProvider == OpenAIProviderName)
    requires first.provider == OpenAIProviderName && !Truthy(first.apiKey)
    ensures ImageCredential(llm, [first, later]) == Failure(ImageKeyError)
  {
  }

  function SearchEvaluation(relevanceFilter: bool): EvaluationType
  {
    if relevanceFilter then Basic else Skip
  }

  function CustomTools(specs: seq<CustomToolSpec>): (tools: seq<Tool>)
    ensures |tools| == |specs|
    ensures forall i :: 0 <= i < |specs| ==> tools[i] == CustomTool(specs[i])
  {
    seq(|specs|, i requires 0 <= i < |specs| => CustomTool(specs[i]))
  }

  /**
   * The tools one record contributes: `None` when it adds nothing to the
   * dictionary, a failure when building it raises.
   */
  function ToolsFor(ctx: ToolContext, model: ToolModel): Result<Option<seq<Tool>>, string>
  {
    if Truthy(model.inCodeToolId) then
      if ctx.builtinLookupFault(model.id).Some? then Failure(ctx.builtinLookupFault(model.id).value)
      else
        match model.builtinClass
        case SearchToolClass =>
          if ctx.hasQueryFiles then Success(None)
          else Success(Some([SearchTool(
            ctx.pruning, SearchEvaluation(ctx.relevanceFilter), ctx.selectedSections,
            ctx.retrievalOptions, ctx.chunksAbove, ctx.chunksBelow, ctx.fullDoc)]))
        case ImageGenerationToolClass =>
          (match ImageCredential(ctx.llm, ctx.providers)
           case Failure(e) => Failure(e)
           case Success(c) =>
             Success(Some([ImageGenerationTool(c.apiKey, c.apiBase, c.apiVersion, ctx.additionalHeaders)])))
        case InternetSearchToolClass =>
          if !Truthy(ctx.bingApiKey) then Failure(BingKeyError)
          else Success(Some([InternetSearchTool(ctx.bingApiKey.value)]))
        case OtherBuiltinClass(_) => Success(None)
    else if model.openapiSchema.Some? && |model.openapiSchema.value.entries| > 0 then
      match ctx.buildCustomTools(model.openapiSchema.value)
      case Failure(e) => Failure(e)
      case Success(specs) => Success(Some(CustomTools(specs)))
    else Success(None)
  }

  /** A built-in record of an unknown class, or a plain record without a schema, adds nothing. */
  lemma IgnoredRecords(ctx: ToolContext, model: ToolModel)
    requires ctx.builtinLookupFault(model.id).None?
    requires (Truthy(model.inCodeToolId) && model.builtinClass.OtherBuiltinClass?)
          || (!Truthy(model.inCodeToolId) && (model.openapiSchema.None? || model.openapiSchema.value.entries == map[]))
    ensures ToolsFor(ctx, model) == Success(None)
  {
  }

  /** A built-in internet-search record without a Bing key raises. */
  lemma InternetSearchWithoutKeyRaises(ctx: ToolContext, model: ToolModel)
    requires ctx.builtinLookupFault(model.id).None? && !Truthy(ctx.bingApiKey)
    requires Truthy(model.inCodeToolId) && model.builtinClass == InternetSearchToolClass
    ensures ToolsFor(ctx, model) == Failure(BingKeyError)
  {
  }

  /**
   * A custom record with a schema contributes one tool per operation the
   * schema builds into, and raises what building the schema raises.
   */
  lemma CustomRecordTools(ctx: ToolContext, model: ToolModel)
    requires !Truthy(model.inCodeToolId) && model.openapiSchema.Some? && |model.openapiSchema.value.entries| > 0
    ensures var built := ctx.buildCustomTools(model.openapiSchema.value);
      && (built.Failure? ==> ToolsFor(ctx, model) == Failure(built.error))
      && (built.Success? ==> ToolsFor(ctx, model) == Success(Some(CustomTools(built.value))))
  {
  }

  /** One dictionary slot: a record id and the tools built for it. */
  datatype ToolEntry = ToolEntry(toolId: int, tools: seq<Tool>)

  function Keys(d: seq<ToolEntry>): (keys: seq<int>)
    ensures |keys| == |d|
    ensures forall i :: 0 <= i < |d| ==> keys[i] == d[i].toolId
  {
    seq(|d|, i requires 0 <= i < |d| => d[i].toolId)
  }

  ghost predicate DistinctKeys(d: seq<ToolEntry>)
  {
    forall i, j :: 0 <= i < j < |d| ==> d[i].toolId != d[j].toolId
  }

  /**
   * `d[key] = tools` on an insertion-ordered dictionary: an existing key is
   * overwritten where it stands, a new key goes at the end.
   */
  function DictSet(d: seq<ToolEntry>, key: int, tools: seq<Tool>): (r: seq<ToolEntry>)
    requires DistinctKeys(d)
    ensures DistinctKeys(r)
    ensures key in Keys(d) ==>
      && |r| == |d|
      && forall i :: 0 <= i < |d| ==> r[i] == (if d[i].toolId == key then ToolEntry(key, tools) else d[i])
    ensures key !in Keys(d) ==> r == d + [ToolEntry(key, tools)]
  {
    if d == [] then [ToolEntry(key, tools)]
    else if d[0].toolId == key then
      assert forall i :: 1 <= i < |d| ==> d[i].toolId != key;
      DistinctTail(d);
      DistinctCons(ToolEntry(key, tools), d[1..]);
      [ToolEntry(key, tools)] + d[1..]
    else
      DistinctTail(d);
      var rest := DictSet(d[1..], key, tools);
      assert Keys(d) == [d[0].toolId] + Keys(d[1..]);
      assert forall k :: 0 <= k < |rest| ==> rest[k].toolId != d[0].toolId;
      DistinctCons(d[0], rest);
      [d[0]] + rest
  }

  lemma DistinctTail(d: seq<ToolEntry>)
    requires d != [] && DistinctKeys(d)
    ensures DistinctKeys(d[1..]) && forall k :: 0 <= k < |d| - 1 ==> d[1..][k].toolId != d[0].toolId
  {
  }

  lemma DistinctCons(e: ToolEntry, rest: seq<ToolEntry>)
    requires DistinctKeys(rest) && forall k :: 0 <= k < |rest| ==> rest[k].toolId != e.toolId
    ensures DistinctKeys([e] + rest)
  {
    var r := [e] + rest;
    forall i, j | 0 <= i < j < |r|
      ensures r[i].toolId != r[j].toolId
    {
      if i > 0 { assert r[i] == rest[i - 1]; }
      assert r[j] == rest[j - 1];
    }
  }

  /** The dictionary after the records `models`, or the first exception raised. */
  function BuildDict(ctx: ToolContext, models: seq<ToolModel>): (r: Result<seq<ToolEntry>, string>)
    ensures r.Success? ==> DistinctKeys(r.value)
    decreases |models|
  {
    if models == [] then Success([])
    else
      match BuildDict(ctx, models[..|models| - 1])
      case Failure(e) => Failure(e)
      case Success(d) =>
        match ToolsFor(ctx, models[|models| - 1])
        case Failure(e) => Failure(e)
        case Success(None) => Success(d)
        case Success(Some(ts)) => Success(DictSet(d, models[|models| - 1].id, ts))
  }

  /** The dictionary's values concatenated in insertion order. */
  function Flatten(d: seq<ToolEntry>): seq<Tool>
    decreases |d|
  {
    if d == [] then [] else Flatten(d[..|d| - 1]) + d[|d| - 1].tools
  }

  datatype ToolSelection = ToolSelection(toolDict: seq<ToolEntry>, tools: seq<Tool>)

  /** Builds the dictionary record by record, then flattens it. */
  method SelectTools(ctx: ToolContext, models: seq<ToolModel>) returns (r: Result<ToolSelection, string>)
    ensures r.Failure? <==> BuildDict(ctx, models).Failure?
    ensures r.Failure? ==> r.error == BuildDict(ctx, models).error
    ensures r.Success? ==> r.value.toolDict == BuildDict(ctx, models).value && r.value.tools == Flatten(r.value.toolDict)
  {
    var toolDict: seq<ToolEntry> := [];
    var i := 0;
    while i < |models|
      invariant 0 <= i <= |models|
      invariant BuildDict(ctx, models[..i]) == Success(toolDict)
    {
      BuildDictStep(ctx, models, i);
      var built := ToolsFor(ctx, models[i]);
      if built.Failure? {
        FailureIsFinal(ctx, models, i + 1);
        return Failure(built.error);
      }
      if built.value.Some? {
        toolDict := DictSet(toolDict, models[i].id, built.value.value);
      }
      i := i + 1;
    }
    assert models[..i] == models;
    var tools := FlattenEntries(toolDict);
    return Success(ToolSelection(toolDict, tools));
  }

  /** The fold over one more record, from the dictionary of the records before it. */
  lemma BuildDictStep(ctx: ToolContext, models: seq<ToolModel>, i: int)
    requires 0 <= i < |models| && BuildDict(ctx, models[..i]).Success?
    ensures var d := BuildDict(ctx, models[..i]).value;
      BuildDict(ctx, models[..i + 1]) ==
        match ToolsFor(ctx, models[i])
        case Failure(e) => Failure(e)
        case Success(None) => Success(d)
        case Success(Some(ts)) => Success(DictSet(d, models[i].id, ts))
  {
    assert models[..i + 1][..i] == models[..i];
  }

  /** Concatenates the dictionary's values in insertion order, entry by entry. */
  method FlattenEntries(d: seq<ToolEntry>) returns (tools: seq<Tool>)
    ensures tools == Flatten(d)
  {
    tools := [];
    var j := 0;
    while j < |d|
      invariant 0 <= j <= |d|
      invariant tools == Flatten(d[..j])
    {
      assert d[..j + 1][..j] == d[..j];
      tools := tools + d[j].tools;
      j := j + 1;
    }
    assert d[..j] == d;
  }

  /** Once a record raises, the selection has failed with that record's exception. */
  lemma {:induction false} FailureIsFinal(ctx: ToolContext, models: seq<ToolModel>, k: int)
    requires 0 <= k <= |models| && BuildDict(ctx, models[..k]).Failure?
    ensures BuildDict(ctx, models) == BuildDict(ctx, models[..k])
    decreases |models| - k
  {
    if k < |models| {
      assert models[..k + 1][..k] == models[..k];
      FailureIsFinal(ctx, models, k + 1);
    } else {
      assert models[..k] == models;
    }
  }

  /**
   * Whether the records raise, and what, does not depend on which pruning
   * configuration the search tools are given.
   */
  lemma {:induction false} FailureIgnoresPruning(ctx: ToolContext, p: PruningConfig?, models: seq<ToolModel>)
    ensures BuildDict(ctx.(pruning := p), models).Failure? == BuildDict(ctx, models).Failure?
    ensures BuildDict(ctx, models).Failure? ==> BuildDict(ctx.(pruning := p), models).error == BuildDict(ctx, models).error
    decreases |models|
  {
    if models != [] {
      var m := models[|models| - 1];
      FailureIgnoresPruning(ctx, p, models[..|models| - 1]);
      ToolsForFailureIgnoresPruning(ctx, p, m);
    }
  }

  /** The same, for one record. */
  lemma ToolsForFailureIgnoresPruning(ctx: ToolContext, p: PruningConfig?, m: ToolModel)
    ensures ToolsFor(ctx.(pruning := p), m).Failure? == ToolsFor(ctx, m).Failure?
    ensures ToolsFor(ctx, m).Failure? ==> ToolsFor(ctx.(pruning := p), m).error == ToolsFor(ctx, m).error
  {
  }

  /** The names of a sequence of tools, in order. */
  function ToolNames(tools: seq<Tool>): (names: seq<string>)
    ensures |names| == |tools|
    ensures forall i :: 0 <= i < |tools| ==> names[i] == tools[i].Name()
  {
    seq(|tools|, i requires 0 <= i < |tools| => tools[i].Name())
  }

  /** Each dictionary entry's key with the names of its tools. */
  function EntryNames(d: seq<ToolEntry>): (names: seq<(int, seq<string>)>)
    ensures |names| == |d|
    ensures forall i :: 0 <= i < |d| ==> names[i] == (d[i].toolId, ToolNames(d[i].tools))
  {
    seq(|d|, i requires 0 <= i < |d| => (d[i].toolId, ToolNames(d[i].tools)))
  }

  /** Assigning tools with the same names under one key gives dictionaries with the same names. */
  lemma DictSetNames(d: seq<ToolEntry>, e: seq<ToolEntry>, key: int, ts: seq<Tool>, us: seq<Tool>)
    requires DistinctKeys(d) && DistinctKeys(e)
    requires EntryNames(d) == EntryNames(e) && ToolNames(ts) == ToolNames(us)
    ensures EntryNames(DictSet(d, key, ts)) == EntryNames(DictSet(e, key, us))
  {
    assert |d| == |EntryNames(d)| == |e|;
    assert forall i :: 0 <= i < |d| ==> d[i].toolId == EntryNames(d)[i].0 == e[i].toolId;
    assert Keys(d) == Keys(e);
    if key in Keys(d) {
      OverwriteNames(d, e, key, ts, us);
    } else {
      AppendNames(d, key, ts);
      AppendNames(e, key, us);
    }
  }

  lemma OverwriteNames(d: seq<ToolEntry>, e: seq<ToolEntry>, key: int, ts: seq<Tool>, us: seq<Tool>)
    requires DistinctKeys(d) && DistinctKeys(e) && key in Keys(d) && key in Keys(e)
    requires EntryNames(d) == EntryNames(e) && ToolNames(ts) == ToolNames(us)
    ensures EntryNames(DictSet(d, key, ts)) == EntryNames(DictSet(e, key, us))
  {
    var r, t := DictSet(d, key, ts), DictSet(e, key, us);
    forall i | 0 <= i < |r|
      ensures EntryNames(r)[i] == EntryNames(t)[i]
    {
      assert r[i] == (if d[i].toolId == key then ToolEntry(key, ts) else d[i]);
      assert t[i] == (if e[i].toolId == key then ToolEntry(key, us) else e[i]);
      assert EntryNames(d)[i] == EntryNames(e)[i];
      if d[i].toolId == key {
        assert EntryNames(r)[i] == (key, ToolNames(ts));
        assert EntryNames(t)[i] == (key, ToolNames(us));
      } else {
        assert EntryNames(r)[i] == EntryNames(d)[i];
        assert EntryNames(t)[i] == EntryNames(e)[i];
      }
    }
  }

  lemma AppendNames(d: seq<ToolEntry>, key: int, ts: seq<Tool>)
    requires DistinctKeys(d) && key !in Keys(d)
    ensures EntryNames(DictSet(d, key, ts)) == EntryNames(d) + [(key, ToolNames(ts))]
  {
  }

  /** One record yields tools with the same names whatever pruning configuration it is given. */
  lemma ToolsForNamesIgnorePruning(ctx: ToolContext, p: PruningConfig?, m: ToolModel)
    requires ToolsFor(ctx, m).Success?
    ensures ToolsFor(ctx.(pruning := p), m).Success?
    ensures ToolsFor(ctx.(pruning := p), m).value.Some? == ToolsFor(ctx, m).value.Some?
    ensures ToolsFor(ctx, m).value.Some? ==>
      ToolNames(ToolsFor(ctx.(pruning := p), m).value.value) == ToolNames(ToolsFor(ctx, m).value.value)
  {
  }

  /**
   * The pruning configuration the search tools are given changes neither
   * which keys the dictionary has nor the names of the tools under them.
   */
  lemma {:induction false} NamesIgnorePruning(ctx: ToolContext, p: PruningConfig?, models: seq<ToolModel>)
    requires BuildDict(ctx, models).Success?
    ensures BuildDict(ctx.(pruning := p), models).Success?
    ensures EntryNames(BuildDict(ctx.(pruning := p), models).value) == EntryNames(BuildDict(ctx, models).value)
    decreases |models|
  {
    if models != [] {
      var init, m := models[..|models| - 1], models[|models| - 1];
      NamesIgnorePruning(ctx, p, init);
      ToolsForNamesIgnorePruning(ctx, p, m);
      var d, e := BuildDict(ctx, init).value, BuildDict(ctx.(pruning := p), init).value;
      var a, b := ToolsFor(ctx, m), ToolsFor(ctx.(pruning := p), m);
      if a.value.Some? {
        DictSetNames(d, e, m.id, a.value.value, b.value.value);
      }
    }
  }

  /** Any record whose construction raises makes the whole selection fail. */
  lemma RaisingRecordFailsSelection(ctx: ToolContext, models: seq<ToolModel>, k: int)
    requires 0 <= k < |models| && ToolsFor(ctx, models[k]).Failure?
    ensures BuildDict(ctx, models).Failure?
  {
    assert models[..k + 1][..k] == models[..k];
    assert models[..k + 1][k] == models[k];
    FailureIsFinal(ctx, models, k + 1);
  }

  /** A tool is in the flattened list exactly when it is in one of the dictionary's values. */
  lemma {:induction false} FlattenMembership(d: seq<ToolEntry>, t: Tool)
    ensures t in Flatten(d) <==> exists k :: 0 <= k < |d| && t in d[k].tools
    decreases |d|
  {
    if d != [] {
      var init := d[..|d| - 1];
      FlattenMembership(init, t);
      assert forall k :: 0 <= k < |init| ==> init[k] == d[k];
    }
  }

  /** Record `m` contributes tool `t` to the dictionary. */
  predicate Contributes(ctx: ToolContext, m: ToolModel, t: Tool)
  {
    var built := ToolsFor(ctx, m);
    built.Success? && built.value.Some? && t in built.value.value
  }

  /** An entry of `d[key] = tools` is the new one or was already there. */
  lemma DictSetEntries(d: seq<ToolEntry>, key: int, tools: seq<Tool>, e: ToolEntry)
    requires DistinctKeys(d) && e in DictSet(d, key, tools)
    ensures e == ToolEntry(key, tools) || e in d
  {
    var r := DictSet(d, key, tools);
    var i :| 0 <= i < |r| && r[i] == e;
    if key !in Keys(d) {
      assert r == d + [ToolEntry(key, tools)];
    } else {
      assert r[i] == (if d[i].toolId == key then ToolEntry(key, tools) else d[i]);
    }
  }

  /** Every tool of the dictionary after `models` was contributed by one of the records. */
  lemma {:induction false} ToolsComeFromRecords(ctx: ToolContext, models: seq<ToolModel>, t: Tool)
    requires BuildDict(ctx, models).Success?
    requires t in Flatten(BuildDict(ctx, models).value)
    ensures exists i :: 0 <= i < |models| && Contributes(ctx, models[i], t)
    decreases |models|
  {
    var d := BuildDict(ctx, models).value;
    FlattenMembership(d, t);
    var k :| 0 <= k < |d| && t in d[k].tools;
    var init := models[..|models| - 1];
    var last := models[|models| - 1];
    var d0 := BuildDict(ctx, init).value;
    var built := ToolsFor(ctx, last);
    if built.value.Some? && t in built.value.value {
      assert Contributes(ctx, models[|models| - 1], t);
    } else {
      assert d[k] in d0 by {
        if built.value.Some? {
          DictSetEntries(d0, last.id, built.value.value, d[k]);
        }
      }
      FlattenMembership(d0, t);
      ToolsComeFromRecords(ctx, init, t);
      var i :| 0 <= i < |init| && Contributes(ctx, init[i], t);
      assert models[i] == init[i];
    }
  }

  /** What a record's contribution guarantees about each tool in it. */
  lemma ContributedToolFacts(ctx: ToolContext, m: ToolModel, t: Tool)
    requires Contributes(ctx, m, t)
    ensures t.SearchTool? ==>
      !ctx.hasQueryFiles && t.pruning == ctx.pruning && (t.evaluationType == Basic <==> ctx.relevanceFilter)
    ensures t.ImageGenerationTool? ==> t.apiKey != ""
  {
  }

  /** With files attached to the turn, no search tool is selected. */
  lemma NoSearchToolWithQueryFiles(ctx: ToolContext, models: seq<ToolModel>, t: Tool)
    requires ctx.hasQueryFiles && BuildDict(ctx, models).Success?
    requires t in Flatten(BuildDict(ctx, models).value)
    ensures !t.SearchTool?
  {
    ToolsComeFromRecords(ctx, models, t);
    var i :| 0 <= i < |models| && Contributes(ctx, models[i], t);
    ContributedToolFacts(ctx, models[i], t);
  }

  /**
   * Every selected search tool holds the turn's pruning configuration (the
   * same object) and evaluates relevance with BASIC exactly when the persona
   * asks for LLM relevance filtering.
   */
  lemma SearchToolsShareConfig(ctx: ToolContext, models: seq<ToolModel>, t: Tool)
    requires BuildDict(ctx, models).Success?
    requires t in Flatten(BuildDict(ctx, models).value) && t.SearchTool?
    ensures t.pruning == ctx.pruning
    ensures t.evaluationType == Basic <==> ctx.relevanceFilter
  {
    ToolsComeFromRecords(ctx, models, t);
    var i :| 0 <= i < |models| && Contributes(ctx, models[i], t);
    ContributedToolFacts(ctx, models[i], t);
  }

  /** Every selected image tool carries a non-empty key. */
  lemma ImageToolsHaveKeys(ctx: ToolContext, models: seq<ToolModel>, t: Tool)
    requires BuildDict(ctx, models).Success?
    requires t in Flatten(BuildDict(ctx, models).value) && t.ImageGenerationTool?
    ensures t.apiKey != ""
  {
    ToolsComeFromRecords(ctx, models, t);
    var i :| 0 <= i < |models| && Contributes(ctx, models[i], t);
    ContributedToolFacts(ctx, models[i], t);
  }
}
