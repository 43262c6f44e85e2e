/**
 * The context-pruning policy of a turn: manual mode when the caller pins
 * documents, budget mode otherwise; and the configuration object the search
 * tool holds by reference and that is updated in place with the tools'
 * token overhead.
 */
module Pruning {
  import opened Wrappers
  import opened ChatTypes

  /** Python's `int()` on a float: truncation toward zero. */
  function TruncToInt(x: real): (n: int)
    ensures 0.0 <= x ==> n as real <= x < n as real + 1.0
    ensures x < 0.0 ==> n as real - 1.0 < x <= n as real
  {
    if x >= 0.0 then x.Floor else -((-x).Floor)
  }

  datatype PruningMode =
    | ManuallySelectedDocs
    | Budget(maxChunks: int, maxWindowPercentage: real, useSections: bool)

  /**
   * Manual mode exactly when the request pins a non-empty list of documents;
   * an empty list falls to budget mode.
   */
  function ChoosePruningMode(
    searchDocIds: Option<seq<int>>, personaNumChunks: Option<real>, defaultNumChunks: real,
    maxDocumentPercentage: real, chunksAbove: int, chunksBelow: int): (m: PruningMode)
    ensures m.ManuallySelectedDocs? <==> NonEmpty(searchDocIds)
    ensures m.Budget? ==>
      && m.maxChunks == TruncToInt(if personaNumChunks.Some? then personaNumChunks.value else defaultNumChunks)
      && m.maxWindowPercentage == maxDocumentPercentage
      && (m.useSections <==> chunksAbove > 0 || chunksBelow > 0)
  {
    if NonEmpty(searchDocIds) then ManuallySelectedDocs
    else
      Budget(
        TruncToInt(if personaNumChunks.Some? then personaNumChunks.value else defaultNumChunks),
        maxDocumentPercentage,
        chunksAbove > 0 || chunksBelow > 0)
  }

  /** The persona's chunk count wins whenever it is set, even when it is zero. */
  lemma PersonaChunksWin(searchDocIds: Option<seq<int>>, numChunks: real, defaultNumChunks: real, pct: real, above: int, below: int)
    requires !NonEmpty(searchDocIds) && 0.0 <= numChunks
    ensures var m := ChoosePruningMode(searchDocIds, Some(numChunks), defaultNumChunks, pct, above, below);
      m.Budget? && m.maxChunks as real <= numChunks < m.maxChunks as real + 1.0
  {
  }

  /** A document id that resolves contributes its document; one that does not is skipped. */
  function ResolvedDoc(docId: int, docById: int -> Option<SearchDoc>): seq<SearchDoc>
  {
    match docById(docId)
    case Some(d) => [d]
    case None => []
  }

  /**
   * The pinned documents that still exist, in request order; ids whose
   * cached document is gone are dropped without error.
   */
  function SelectedSearchDocs(docIds: seq<int>, docById: int -> Option<SearchDoc>): (docs: seq<SearchDoc>)
    ensures |docs| <= |docIds|
    ensures forall d :: d in docs <==> exists i :: 0 <= i < |docIds| && docById(docIds[i]) == Some(d)
  {
    if docIds == [] then []
    else
      var rest := SelectedSearchDocs(docIds[1..], docById);
      assert forall i :: 1 <= i < |docIds| ==> docIds[i] == docIds[1..][i - 1];
      ResolvedDoc(docIds[0], docById) + rest
  }

  /** Selection distributes over concatenation: request order is kept. */
  lemma {:induction false} SelectedSearchDocsAppend(a: seq<int>, b: seq<int>, docById: int -> Option<SearchDoc>)
    ensures SelectedSearchDocs(a + b, docById) == SelectedSearchDocs(a, docById) + SelectedSearchDocs(b, docById)
  {
    if a != [] {
      assert (a + b)[1..] == a[1..] + b;
      SelectedSearchDocsAppend(a[1..], b, docById);
    } else {
      assert a + b == b;
    }
  }

  /** When every id resolves, the selection is the resolved documents, one per id, in order. */
  lemma {:induction false} AllResolvedSelection(docIds: seq<int>, docById: int -> Option<SearchDoc>)
    requires forall i :: 0 <= i < |docIds| ==> docById(docIds[i]).Some?
    ensures |SelectedSearchDocs(docIds, docById)| == |docIds|
    ensures forall i :: 0 <= i < |docIds| ==> SelectedSearchDocs(docIds, docById)[i] == docById(docIds[i]).value
  {
    if docIds != [] {
      assert forall i :: 1 <= i < |docIds| ==> docIds[i] == docIds[1..][i - 1];
      AllResolvedSelection(docIds[1..], docById);
    }
  }

  /** An id that does not resolve contributes nothing wherever it stands. */
  lemma SkipUnresolved(before: seq<int>, docId: int, after: seq<int>, docById: int -> Option<SearchDoc>)
    requires docById(docId).None?
    ensures SelectedSearchDocs(before + [docId] + after, docById)
         == SelectedSearchDocs(before, docById) + SelectedSearchDocs(after, docById)
  {
    var tail := [docId] + after;
    assert before + [docId] + after == before + tail;
    assert tail[1..] == after;
    assert SelectedSearchDocs(tail, docById) == SelectedSearchDocs(after, docById);
    SelectedSearchDocsAppend(before, tail, docById);
  }

  /** One pinned document that no longer exists leaves exactly the others, in order. */
  lemma OneMissingDocDropped(docIds: seq<int>, docById: int -> Option<SearchDoc>, k: int)
    requires 0 <= k < |docIds| && docById(docIds[k]).None?
    requires forall i :: 0 <= i < |docIds| && i != k ==> docById(docIds[i]).Some?
    ensures |SelectedSearchDocs(docIds, docById)| == |docIds| - 1
    ensures SelectedSearchDocs(docIds, docById)
         == SelectedSearchDocs(docIds[..k], docById) + SelectedSearchDocs(docIds[k + 1..], docById)
  {
    var before, after := docIds[..k], docIds[k + 1..];
    assert docIds == before + [docIds[k]] + after;
    SkipUnresolved(before, docIds[k], after, docById);
    forall i | 0 <= i < |before| ensures docById(before[i]).Some? {
      assert before[i] == docIds[i];
    }
    forall i | 0 <= i < |after| ensures docById(after[i]).Some? {
      assert after[i] == docIds[k + 1 + i];
    }
    AllResolvedSelection(before, docById);
    AllResolvedSelection(after, docById);
  }

  /**
   * The pruning configuration of a turn. Its mode is fixed when it is built;
   * the tool-definition overhead is written into it in place once the tools
   * are known, and every holder of the reference sees the update.
   */
  class PruningConfig {
    const mode: PruningMode
    var toolNumTokens: int
    var usingToolMessage: bool

    constructor (mode: PruningMode)
      ensures this.mode == mode && toolNumTokens == 0 && !usingToolMessage
    {
      this.mode := mode;
      toolNumTokens := 0;
      usingToolMessage := false;
    }

    /** Folds the token cost of the tool definitions into the budget. */
    method SetToolOverhead(numTokens: int, toolMessage: bool)
      modifies this
      ensures toolNumTokens == numTokens && usingToolMessage == toolMessage
    {
      toolNumTokens := numTokens;
      usingToolMessage := toolMessage;
    }
  }
}
