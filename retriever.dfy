/** The in-memory state of the document retriever and what it does with a
    search result: aligned stores of chunk texts, chunk metadata and indexed
    vectors; turning the raw `(distance, id)` slots of a search into ranked
    result records; and assembling a size-bounded context string for the
    answer generator. */
module Retriever {
  import opened Base
  import opened Text
  import opened Metadata
  import opened FlatL2

  /** One record of `retrieve`'s result list. */
  datatype Retrieved = Retrieved(rank: int, document: string, metadata: ChunkMeta, distance: Dist, relevance: real)

  /** `ValueError` when no index is loaded; `IndexError` from a list lookup. */
  datatype RetrieveError = IndexNotLoaded | IndexOutOfRange

  /** `1 / (1 + distance)`: 1 for an exact match, towards 0 as the distance grows. */
  function Relevance(d: Dist): (r: real)
    ensures 0.0 < r <= 1.0
  {
    1.0 / (1.0 + d)
  }

  /** A farther hit never scores higher, and a strictly farther one scores strictly lower. */
  lemma RelevanceDecreasing(d1: Dist, d2: Dist)
    requires d1 <= d2
    ensures Relevance(d2) <= Relevance(d1)
    ensures d1 < d2 ==> Relevance(d2) < Relevance(d1)
  {
    ReciprocalAntitone(1.0 + d1, 1.0 + d2);
  }

  lemma ReciprocalAntitone(a: real, b: real)
    requires 0.0 < a <= b
    ensures 1.0 / b <= 1.0 / a
    ensures a < b ==> 1.0 / b < 1.0 / a
  {
    var x, y := 1.0 / a, 1.0 / b;
    assert x * a == 1.0 && y * b == 1.0;
    assert 0.0 < y;
    if x < y {
      ScaleMono(a, b, x);
      ScaleStrict(x, y, b);
      assert false;
    }
    if a < b && x <= y {
      ScaleStrict(a, b, x);
      ScaleMono(x, y, b);
      assert false;
    }
  }

  lemma ScaleMono(x: real, y: real, c: real)
    requires x <= y && c > 0.0
    ensures c * x <= c * y
  {
  }

  lemma ScaleStrict(x: real, y: real, c: real)
    requires x < y && c > 0.0
    ensures x * c < y * c && c * x < c * y
  {
  }

  /** Python's `xs[i]`: a negative position counts from the end; a position
      outside `-len(xs) .. len(xs) - 1` raises `IndexError`. */
  function PyIndex<T>(xs: seq<T>, i: int): (r: Option<T>)
    ensures r.Some? <==> -|xs| <= i < |xs|
    ensures 0 <= i < |xs| ==> r == Some(xs[i])
  {
    if 0 <= i < |xs| then Some(xs[i])
    else if -|xs| <= i < 0 then Some(xs[|xs| + i])
    else None
  }

  function Record(rank: int, document: string, meta: ChunkMeta, h: SearchHit): Retrieved
  {
    Retrieved(rank, document, meta, h.distance, Relevance(h.distance))
  }

  /** A slot names a stored chunk. */
  predicate Kept(documents: seq<string>, h: SearchHit)
  {
    0 <= h.id < |documents|
  }

  function KeptCount(documents: seq<string>, hits: seq<SearchHit>): nat
  {
    if |hits| == 0 then 0
    else KeptCount(documents, hits[..|hits| - 1]) + (if Kept(documents, hits[|hits| - 1]) then 1 else 0)
  }

  /** The result list built from the slots of one search, with the bounds check
      `0 <= id < len(documents)`; slot `i` has rank `i + 1`. */
  function Shape(documents: seq<string>, metadata: seq<ChunkMeta>, hits: seq<SearchHit>): (r: Result<seq<Retrieved>, RetrieveError>)
    ensures r.Failure? ==> r.error == IndexOutOfRange
    ensures r.Success? ==> |r.value| <= |hits|
    ensures r.Success? ==> forall j :: 0 <= j < |r.value| ==> 1 <= r.value[j].rank <= |hits| && 0.0 < r.value[j].relevance <= 1.0
    decreases |hits|
  {
    if |hits| == 0 then Success([])
    else
      var prev := Shape(documents, metadata, hits[..|hits| - 1]);
      var h := hits[|hits| - 1];
      if prev.Failure? || !Kept(documents, h) then prev
      else if h.id < |metadata| then Success(prev.value + [Record(|hits|, documents[h.id], metadata[h.id], h)])
      else Failure(IndexOutOfRange)
  }

  /** The result list as the loop at retriever.py:141-149 builds it: the only
      check is `id < len(documents)`, and the lookups are Python list lookups. */
  function ShapeAsWritten(documents: seq<string>, metadata: seq<ChunkMeta>, hits: seq<SearchHit>): (r: Result<seq<Retrieved>, RetrieveError>)
    ensures r.Failure? ==> r.error == IndexOutOfRange
    ensures r.Success? ==> |r.value| <= |hits|
    ensures r.Success? ==> forall j :: 0 <= j < |r.value| ==> 1 <= r.value[j].rank <= |hits| && 0.0 < r.value[j].relevance <= 1.0
    decreases |hits|
  {
    if |hits| == 0 then Success([])
    else
      var prev := ShapeAsWritten(documents, metadata, hits[..|hits| - 1]);
      var h := hits[|hits| - 1];
      if prev.Failure? || !(h.id < |documents|) then prev
      else
        var doc, meta := PyIndex(documents, h.id), PyIndex(metadata, h.id);
        if doc.Some? && meta.Some? then Success(prev.value + [Record(|hits|, doc.value, meta.value, h)])
        else Failure(IndexOutOfRange)
  }

  /** `Shape` fails, always with `IndexOutOfRange`, exactly when some slot
      names a stored chunk that has no metadata. */
  lemma {:induction false} ShapeFailure(documents: seq<string>, metadata: seq<ChunkMeta>, hits: seq<SearchHit>)
    ensures var r := Shape(documents, metadata, hits);
      && (r.Failure? ==> r.error == IndexOutOfRange)
      && (r.Failure? <==> exists s :: 0 <= s < |hits| && Kept(documents, hits[s]) && hits[s].id >= |metadata|)
    decreases |hits|
  {
    if |hits| > 0 {
      var init := hits[..|hits| - 1];
      ShapeFailure(documents, metadata, init);
      assert forall s :: 0 <= s < |init| ==> init[s] == hits[s];
    }
  }

  lemma {:induction false} ShapeLength(documents: seq<string>, metadata: seq<ChunkMeta>, hits: seq<SearchHit>)
    ensures var r := Shape(documents, metadata, hits);
      r.Success? ==> |r.value| == KeptCount(documents, hits)
    decreases |hits|
  {
    if |hits| > 0 {
      ShapeLength(documents, metadata, hits[..|hits| - 1]);
    }
  }

  lemma {:induction false} ShapeRanksIncrease(documents: seq<string>, metadata: seq<ChunkMeta>, hits: seq<SearchHit>)
    ensures var r := Shape(documents, metadata, hits);
      r.Success? ==> forall a, b :: 0 <= a < b < |r.value| ==> r.value[a].rank < r.value[b].rank
    decreases |hits|
  {
    if |hits| > 0 {
      ShapeRanksIncrease(documents, metadata, hits[..|hits| - 1]);
    }
  }

  /** Result `x` is the record of search slot `x.rank - 1`. */
  predicate RecordOf(documents: seq<string>, metadata: seq<ChunkMeta>, hits: seq<SearchHit>, x: Retrieved)
  {
    var s := x.rank - 1;
    && 0 <= s < |hits| && Kept(documents, hits[s]) && hits[s].id < |metadata|
    && x == Record(s + 1, documents[hits[s].id], metadata[hits[s].id], hits[s])
  }

  lemma {:induction false} ShapeRecords(documents: seq<string>, metadata: seq<ChunkMeta>, hits: seq<SearchHit>)
    ensures var r := Shape(documents, metadata, hits);
      r.Success? ==> forall k :: 0 <= k < |r.value| ==> RecordOf(documents, metadata, hits, r.value[k])
    decreases |hits|
  {
    if |hits| > 0 {
      var init := hits[..|hits| - 1];
      ShapeRecords(documents, metadata, init);
      var prev, r := Shape(documents, metadata, init), Shape(documents, metadata, hits);
      if r.Success? {
        assert prev.Success?;
        forall k | 0 <= k < |r.value| ensures RecordOf(documents, metadata, hits, r.value[k]) {
          if k < |prev.value| {
            assert r.value[k] == prev.value[k];
            assert RecordOf(documents, metadata, init, prev.value[k]);
            assert init[prev.value[k].rank - 1] == hits[prev.value[k].rank - 1];
          }
        }
      }
    }
  }

  /** A successful `Shape` holds exactly the slots that name a stored chunk, in
      slot order, each carrying its slot's rank and distance and the text and
      the metadata stored at the same position. */
  lemma ShapeSuccess(documents: seq<string>, metadata: seq<ChunkMeta>, hits: seq<SearchHit>)
    ensures var r := Shape(documents, metadata, hits);
      r.Success? ==>
        && |r.value| == KeptCount(documents, hits) <= |hits|
        && (forall a, b :: 0 <= a < b < |r.value| ==> r.value[a].rank < r.value[b].rank)
        && (forall k :: 0 <= k < |r.value| ==>
              var s := r.value[k].rank - 1;
              && 0 <= s < |hits| && Kept(documents, hits[s]) && hits[s].id < |metadata|
              && r.value[k] == Record(s + 1, documents[hits[s].id], metadata[hits[s].id], hits[s]))
  {
    ShapeLength(documents, metadata, hits);
    ShapeRanksIncrease(documents, metadata, hits);
    ShapeRecords(documents, metadata, hits);
  }

  /** What `Shape` yields: exactly the slots that name a stored chunk, in slot
      order, each carrying its slot's rank and distance and the text and the
      metadata stored at the same position; it fails only when such a slot has
      no metadata. */
  lemma ShapeMeaning(documents: seq<string>, metadata: seq<ChunkMeta>, hits: seq<SearchHit>)
    ensures var r := Shape(documents, metadata, hits);
      && (r.Failure? ==> r.error == IndexOutOfRange)
      && (r.Failure? <==> exists s :: 0 <= s < |hits| && Kept(documents, hits[s]) && hits[s].id >= |metadata|)
      && (r.Success? ==>
            && |r.value| == KeptCount(documents, hits) <= |hits|
            && (forall a, b :: 0 <= a < b < |r.value| ==> r.value[a].rank < r.value[b].rank)
            && (forall k :: 0 <= k < |r.value| ==>
                  var s := r.value[k].rank - 1;
                  && 0 <= s < |hits| && Kept(documents, hits[s]) && hits[s].id < |metadata|
                  && r.value[k] == Record(s + 1, documents[hits[s].id], metadata[hits[s].id], hits[s])))
  {
    ShapeFailure(documents, metadata, hits);
    ShapeSuccess(documents, metadata, hits);
  }

  /** With aligned stores no lookup can fail. */
  lemma AlignedShapeSucceeds(documents: seq<string>, metadata: seq<ChunkMeta>, hits: seq<SearchHit>)
    requires |documents| == |metadata|
    ensures Shape(documents, metadata, hits).Success?
  {
    ShapeMeaning(documents, metadata, hits);
  }

  /** When every slot names a stored chunk, the results are the slots
      themselves: one per slot, rank `i + 1` at position `i`. */
  lemma {:induction false} ShapeAllKept(documents: seq<string>, metadata: seq<ChunkMeta>, hits: seq<SearchHit>)
    requires |documents| == |metadata|
    requires forall s :: 0 <= s < |hits| ==> 0 <= hits[s].id < |documents|
    ensures var r := Shape(documents, metadata, hits);
      r.Success? && |r.value| == |hits|
      && forall s :: 0 <= s < |hits| ==> r.value[s] == Record(s + 1, documents[hits[s].id], metadata[hits[s].id], hits[s])
    decreases |hits|
  {
    if |hits| > 0 {
      ShapeAllKept(documents, metadata, hits[..|hits| - 1]);
    }
  }

  /** Trailing padding slots (id -1) are dropped. */
  lemma {:induction false} ShapeDropsPadding(documents: seq<string>, metadata: seq<ChunkMeta>, hits: seq<SearchHit>, m: nat)
    requires m <= |hits|
    requires forall s :: m <= s < |hits| ==> hits[s].id == PAD_LABEL
    ensures Shape(documents, metadata, hits) == Shape(documents, metadata, hits[..m])
    decreases |hits| - m
  {
    if |hits| > m {
      var init := hits[..|hits| - 1];
      assert !Kept(documents, hits[|hits| - 1]);
      assert Shape(documents, metadata, hits) == Shape(documents, metadata, init);
      ShapeDropsPadding(documents, metadata, init, m);
      assert init[..m] == hits[..m];
    } else {
      assert hits[..m] == hits;
    }
  }

  /** Over an exact search of aligned stores, the first `min(k, n)` slots name
      stored chunks, the padding after them is dropped, and each kept slot
      becomes the record at its own position. */
  lemma ExactSearchRecords(documents: seq<string>, metadata: seq<ChunkMeta>, index: FlatIndex, query: Vector, k: nat)
    requires |documents| == |metadata| == |index.vectors|
    ensures var hits := Search(index, query, k);
      var r := Shape(documents, metadata, hits);
      && r.Success? && |r.value| == Min(k, |documents|)
      && (forall j :: 0 <= j < |r.value| ==>
            0 <= hits[j].id < |documents|
            && r.value[j] == Record(j + 1, documents[hits[j].id], metadata[hits[j].id], hits[j]))
  {
    var n := |documents|;
    var hits := Search(index, query, k);
    var m := Min(k, n);
    PositionsMembers(n);
    SelectShape(Distances(index, query), Positions(n), k);
    assert forall s :: 0 <= s < m ==> hits[..m][s] == hits[s];
    ShapeDropsPadding(documents, metadata, hits, m);
    ShapeAllKept(documents, metadata, hits[..m]);
  }

  /** Over an exact search of an index whose three stores are aligned, the
      corrected result list has `min(k, n)` records, ranked 1, 2, ... in slot
      order, each naming a different stored chunk, with relevance never
      increasing down the list. */
  lemma ExactSearchResults(documents: seq<string>, metadata: seq<ChunkMeta>, index: FlatIndex, query: Vector, k: nat)
    requires |documents| == |metadata| == |index.vectors|
    ensures var hits := Search(index, query, k);
      var r := Shape(documents, metadata, hits);
      && |hits| == k
      && r.Success? && |r.value| == Min(k, |documents|) <= k
      && (forall j :: 0 <= j < |r.value| ==>
            && r.value[j].rank == j + 1
            && 0 <= hits[j].id < |documents|
            && r.value[j].document == documents[hits[j].id]
            && r.value[j].metadata == metadata[hits[j].id])
      && (forall i, j :: 0 <= i < j < |r.value| ==> hits[i].id != hits[j].id)
      && (forall i, j :: 0 <= i < j < |r.value| ==> r.value[j].relevance <= r.value[i].relevance)
  {
    var n := |documents|;
    var d := Distances(index, query);
    var hits := Search(index, query, k);
    PositionsMembers(n);
    SelectShape(d, Positions(n), k);
    SelectSorted(d, Positions(n), k);
    ExactSearchRecords(documents, metadata, index, query, k);
    var r := Shape(documents, metadata, hits);
    forall i, j | 0 <= i < j < |r.value| ensures r.value[j].relevance <= r.value[i].relevance {
      RelevanceDecreasing(hits[i].distance, hits[j].distance);
    }
  }

  /** The source's own check keeps a padding slot: with one stored chunk and
      `top_k = 2` the chunk comes back twice, the second time at the padding
      distance, while the corrected check returns it once. */
  lemma PaddingSlotKeptAsWritten(meta: ChunkMeta, d: Dist)
    ensures var documents := ["chunk"];
      var hits := [SearchHit(d, 0), SearchHit(PAD_DISTANCE, PAD_LABEL)];
      var asWritten := ShapeAsWritten(documents, [meta], hits);
      var corrected := Shape(documents, [meta], hits);
      && asWritten.Success? && |asWritten.value| == 2
      && asWritten.value[1] == Record(2, documents[0], meta, SearchHit(PAD_DISTANCE, PAD_LABEL))
      && corrected == Success([Record(1, documents[0], meta, SearchHit(d, 0))])
  {
    var documents := ["chunk"];
    var hits := [SearchHit(d, 0), SearchHit(PAD_DISTANCE, PAD_LABEL)];
    var first := Record(1, documents[0], meta, SearchHit(d, 0));
    var one := [SearchHit(d, 0)];
    assert hits[..1] == one;
    assert one[..0] == [];
    assert ShapeAsWritten(documents, [meta], []) == Success([]);
    assert PyIndex(documents, 0) == Some(documents[0]) && PyIndex([meta], 0) == Some(meta);
    assert PyIndex(documents, one[0].id) == Some(documents[0]);
    assert PyIndex([meta], one[0].id) == Some(meta);
    assert Record(1, PyIndex(documents, one[0].id).value, PyIndex([meta], one[0].id).value, one[0]) == first;
    assert ShapeAsWritten(documents, [meta], one) == Success([] + [first]);
    assert Shape(documents, [meta], []) == Success([]);
    assert Shape(documents, [meta], one) == Success([] + [first]);
    assert [] + [first] == [first];
    ShapeDropsPadding(documents, [meta], hits, 1);
    assert PyIndex(documents, -1) == Some(documents[0]);
  }

  /** The formatted block for one retrieved chunk: `"[Source: <source>]\n<text>\n"`. */
  function FormatBlock(r: Retrieved): (b: string)
    ensures |b| == 12 + |SourceLabel(r.metadata)| + |r.document|
  {
    "[Source: " + SourceLabel(r.metadata) + "]\n" + r.document + "\n"
  }

  function Blocks(docs: seq<Retrieved>): (b: seq<string>)
    ensures |b| == |docs| && forall i :: 0 <= i < |docs| ==> b[i] == FormatBlock(docs[i])
  {
    seq(|docs|, i requires 0 <= i < |docs| => FormatBlock(docs[i]))
  }

  /** How many blocks, from block `i` on, the greedy loop appends before the
      first overflow of what is left of the budget. */
  function TakenFrom(blocks: seq<string>, i: nat, budget: int): (n: nat)
    requires i <= |blocks|
    ensures n <= |blocks| - i
    decreases |blocks| - i
  {
    if i == |blocks| || |blocks[i]| > budget then 0
    else 1 + TakenFrom(blocks, i + 1, budget - |blocks[i]|)
  }

  /** How many leading blocks the greedy loop appends before its first overflow. */
  function TakenCount(blocks: seq<string>, budget: int): (n: nat)
    ensures n <= |blocks|
  {
    TakenFrom(blocks, 0, budget)
  }

  /** `get_context_for_generation(docs, max_length)`. */
  function AssembleContext(docs: seq<Retrieved>, maxLength: int): (context: string)
    ensures docs == [] ==> context == ""
    ensures maxLength < 0 ==> context == ""
    ensures context != "" ==> |context| <= maxLength + CONTEXT_SEPARATOR_LENGTH * (|docs| - 1)
  {
    var blocks := Blocks(docs);
    TakenIsLongestFit(blocks, maxLength);
    Join(blocks[..TakenCount(blocks, maxLength)], "\n---\n")
  }

  const CONTEXT_SEPARATOR_LENGTH: nat := 5
  const DEFAULT_MAX_CONTEXT: int := 2048

  lemma {:induction false} SumLengthsCons(x: string, rest: seq<string>)
    ensures SumLengths([x] + rest) == |x| + SumLengths(rest)
    decreases |rest|
  {
    if |rest| > 0 {
      var init := rest[..|rest| - 1];
      SumLengthsCons(x, init);
      assert ([x] + rest)[..|rest|] == [x] + init;
    }
  }

  /** From block `i` on, a run of blocks `i .. m - 1` fits the budget exactly
      when the greedy count from `i` reaches it. */
  lemma {:induction false} TakenFromLongestFit(blocks: seq<string>, i: nat, budget: int)
    requires i <= |blocks|
    ensures forall m :: i < m <= |blocks| ==>
      (SumLengths(blocks[i..m]) <= budget <==> m - i <= TakenFrom(blocks, i, budget))
    decreases |blocks| - i
  {
    if i < |blocks| {
      TakenFromLongestFit(blocks, i + 1, budget - |blocks[i]|);
      forall m | i < m <= |blocks|
        ensures SumLengths(blocks[i..m]) == |blocks[i]| + SumLengths(blocks[i + 1..m])
      {
        SumLengthsCons(blocks[i], blocks[i + 1..m]);
        assert blocks[i..m] == [blocks[i]] + blocks[i + 1..m];
      }
      if |blocks[i]| <= budget {
        assert SumLengths(blocks[i + 1..i + 1]) == 0;
      }
    }
  }

  /** The greedy count is the longest prefix that fits: a prefix of `m >= 1`
      blocks fits the budget exactly when `m` is at most the count. */
  lemma TakenIsLongestFit(blocks: seq<string>, budget: int)
    ensures forall m :: 1 <= m <= |blocks| ==>
      (SumLengths(blocks[..m]) <= budget <==> m <= TakenCount(blocks, budget))
  {
    TakenFromLongestFit(blocks, 0, budget);
    assert forall m :: 1 <= m <= |blocks| ==> blocks[0..m] == blocks[..m];
  }

  /** What the assembled context is: the longest prefix of blocks whose total
      length is within `max_length`, stopping at the first block that would
      overflow, joined by the five-character separator that the budget does
      not count; empty exactly when there is no block or the first one
      overflows. */
  lemma ContextBudget(docs: seq<Retrieved>, maxLength: int)
    ensures var blocks := Blocks(docs);
      var n := TakenCount(blocks, maxLength);
      var context := AssembleContext(docs, maxLength);
      && (n > 0 ==> SumLengths(blocks[..n]) <= maxLength)
      && (n < |blocks| ==> SumLengths(blocks[..n + 1]) > maxLength)
      && (n > 0 ==> |context| == SumLengths(blocks[..n]) + CONTEXT_SEPARATOR_LENGTH * (n - 1))
      && (n > 0 ==> |context| <= maxLength + CONTEXT_SEPARATOR_LENGTH * (n - 1))
      && (n > 0 ==> blocks[0] <= context)
      && (context == "" <==> (|docs| == 0 || |FormatBlock(docs[0])| > maxLength))
  {
    var blocks := Blocks(docs);
    var n := TakenCount(blocks, maxLength);
    TakenIsLongestFit(blocks, maxLength);
    if n > 0 {
      JoinStartsWithFirst(blocks[..n], "\n---\n");
      assert blocks[..n][0] == blocks[0];
    }
  }

  /** The stores of `DocumentRetriever`, which `build_index` and `load_index`
      overwrite and `retrieve` reads. */
  class DocumentRetriever {
    var index: Option<FlatIndex>
    var documents: seq<string>
    var metadata: seq<ChunkMeta>

    /** Position is the join key: one vector, one text and one metadata record per chunk. */
    predicate Aligned()
      reads this
    {
      index.Some? && |index.value.vectors| == |documents| == |metadata|
    }

    /** The state before any index is loaded. */
    constructor ()
      ensures index == None && documents == [] && metadata == []
    {
      index := None;
      documents := [];
      metadata := [];
    }

    /** `build_index(documents, metadata)`: keeps both lists as given, then
        indexes one embedding per text, in order. `encodeRaises` stands for
        the encoder or the read of the embedding width raising; the lists
        are installed before that point, so a failure leaves them beside
        the previous index. */
    method BuildIndex(docs: seq<string>, meta: seq<ChunkMeta>, embed: string -> Vector, encodeRaises: bool)
      returns (ok: bool)
      modifies this
      ensures documents == docs && metadata == meta
      ensures ok <==> !encodeRaises
      ensures !ok ==> index == old(index)
      ensures ok ==> index.Some? && |index.value.vectors| == |docs|
      ensures ok ==> forall i :: 0 <= i < |docs| ==> index.value.vectors[i] == embed(docs[i])
      ensures ok ==> (Aligned() <==> |docs| == |meta|)
    {
      documents := docs;
      metadata := meta;
      if encodeRaises {
        return false;
      }
      var embeddings := seq(|docs|, i requires 0 <= i < |docs| => embed(docs[i]));
      index := Some(FlatIndex(embeddings));
      ok := true;
    }

    /** `load_index()`: the vector file is read first and installed, then
        `data['documents']` and then `data['metadata']` of the pickled
        dictionary. `docs` is `None` when the pickle cannot be read or has no
        `'documents'` key, `meta` when it has no `'metadata'` key. A failure
        raises, leaving what was installed before it: a missing `'metadata'`
        key leaves the new index and texts beside the old metadata. */
    method LoadIndex(stored: Option<FlatIndex>, docs: Option<seq<string>>, meta: Option<seq<ChunkMeta>>) returns (ok: bool)
      modifies this
      ensures ok <==> stored.Some? && docs.Some? && meta.Some?
      ensures stored.None? ==> index == old(index)
      ensures stored.Some? ==> index == stored
      ensures documents == if stored.Some? && docs.Some? then docs.value else old(documents)
      ensures metadata == if ok then meta.value else old(metadata)
    {
      if stored.None? {
        return false;
      }
      index := stored;
      if docs.None? {
        return false;
      }
      documents := docs.value;
      if meta.None? {
        return false;
      }
      metadata := meta.value;
      ok := true;
    }

    /** `retrieve(query, top_k)`: `search` is the vector search for the
        embedded query, which is only reached once an index is loaded. */
    method Retrieve(topK: Option<int>, defaultTopK: int, search: (FlatIndex, int) -> seq<SearchHit>)
      returns (r: Result<seq<Retrieved>, RetrieveError>)
      ensures index.None? ==> r == Failure(IndexNotLoaded)
      ensures index.Some? ==> r == Shape(documents, metadata, search(index.value, topK.GetOr(defaultTopK)))
    {
      if index.None? {
        return Failure(IndexNotLoaded);
      }
      var k := if topK.None? then defaultTopK else topK.value;
      var hits := search(index.value, k);
      var results: seq<Retrieved> := [];
      var i := 0;
      while i < |hits|
        invariant 0 <= i <= |hits|
        invariant Shape(documents, metadata, hits[..i]) == Success(results)
      {
        var h := hits[i];
        assert hits[..i + 1][..i] == hits[..i];
        if 0 <= h.id < |documents| {
          if h.id >= |metadata| {
            ShapeMeaning(documents, metadata, hits);
            assert Kept(documents, hits[i]) && hits[i].id >= |metadata|;
            assert Shape(documents, metadata, hits).Failure?;
            return Failure(IndexOutOfRange);
          }
          results := results + [Retrieved(i + 1, documents[h.id], metadata[h.id], h.distance, 1.0 / (1.0 + h.distance))];
        }
        i := i + 1;
      }
      assert hits[..i] == hits;
      r := Success(results);
    }

    /** `get_context_for_generation(retrieved_docs, max_length)`. */
    method GetContextForGeneration(retrievedDocs: seq<Retrieved>, maxLength: int) returns (context: string)
      ensures context == AssembleContext(retrievedDocs, maxLength)
    {
      ghost var blocks := Blocks(retrievedDocs);
      ghost var left := maxLength;
      var contextParts: seq<string> := [];
      var currentLength := 0;
      var i := 0;
      while i < |retrievedDocs|
        invariant 0 <= i <= |retrievedDocs|
        invariant contextParts == blocks[..i]
        invariant left == maxLength - currentLength
        invariant TakenCount(blocks, maxLength) == i + TakenFrom(blocks, i, left)
      {
        var formattedDoc := FormatBlock(retrievedDocs[i]);
        assert formattedDoc == blocks[i];
        if currentLength + |formattedDoc| <= maxLength {
          assert blocks[..i + 1] == blocks[..i] + [blocks[i]];
          contextParts := contextParts + [formattedDoc];
          currentLength := currentLength + |formattedDoc|;
          left := left - |formattedDoc|;
        } else {
          break;
        }
        i := i + 1;
      }
      assert contextParts == blocks[..TakenCount(blocks, maxLength)];
      context := Join(contextParts, "\n---\n");
    }
  }
}
