/** The batched writes of the Chroma vector store wrapper
    (chatnerd/stores/chroma_store.py). The Chroma client itself, the embedding
    of texts and the uuid generator are parameters of the operations. */
module Stores {
  import opened Wrappers
  import opened Python
  import opened Text

  /** A langchain document. Its metadata dictionary is updated in place by the
      store, so a document is an object. */
  class Document {
    var pageContent: Option<string>
    var metadata: map<string, Value>

    constructor (pageContent: Option<string>, metadata: map<string, Value>)
      ensures this.pageContent == pageContent && this.metadata == metadata
    {
      this.pageContent := pageContent;
      this.metadata := metadata;
    }
  }

  /** The content of a document at one moment. */
  datatype DocValue = DocValue(content: Option<string>, metadata: map<string, Value>)

  /** The contents of `docs` at the current moment, in order. */
  function Snapshot(docs: seq<Document>): (r: seq<DocValue>)
    reads docs
    ensures |r| == |docs|
    ensures forall i {:trigger r[i]} :: 0 <= i < |docs| ==> r[i] == DocValue(docs[i].pageContent, docs[i].metadata)
  {
    if docs == [] then []
    else [DocValue(docs[0].pageContent, docs[0].metadata)] + Snapshot(docs[1..])
  }

  /** The concatenation of a list of lists. */
  function Flatten<T>(xss: seq<seq<T>>): seq<T> {
    if xss == [] then [] else xss[0] + Flatten(xss[1..])
  }

  /** The successive slices of at most `size` elements that
      `divide_list_in_chunks` yields for a positive `size`. */
  function Batches<T>(xs: seq<T>, size: nat): (r: seq<seq<T>>)
    requires size > 0
    ensures forall k :: 0 <= k < |r| ==> 0 < |r[k]| <= size
    ensures forall k :: 0 <= k < |r| - 1 ==> |r[k]| == size
    decreases |xs|
  {
    if xs == [] then []
    else
      var n := if |xs| < size then |xs| else size;
      [xs[..n]] + Batches(xs[n..], size)
  }

  lemma {:induction false} MulAtLeast(c: int, k: int)
    requires c > 0 && k >= 1
    ensures c * k >= c
  {
  }

  lemma {:induction false} DivShift(a: int, c: int)
    requires c > 0 && a >= 0
    ensures (a + c) / c == a / c + 1
  {
    var q0, r0 := a / c, a % c;
    var q1, r1 := (a + c) / c, (a + c) % c;
    assert a == c * q0 + r0;
    assert a + c == c * q1 + r1;
    var k := q1 - q0 - 1;
    assert c * k == r0 - r1 by {
      assert c * q1 == c * (q0 + 1 + k);
      assert c * (q0 + 1 + k) == c * q0 + c + c * k;
    }
    if k >= 1 { MulAtLeast(c, k); }
    if k <= -1 { MulAtLeast(c, -k); }
  }

  /** There are ceil(n / size) batches. */
  lemma {:induction false} BatchesCount<T>(xs: seq<T>, size: nat)
    requires size > 0
    ensures |Batches(xs, size)| == (|xs| + size - 1) / size
    decreases |xs|
  {
    if xs != [] {
      var n := if |xs| < size then |xs| else size;
      BatchesCount(xs[n..], size);
      DivShift(|xs| - 1, size);
      if |xs| < size {
        assert (|xs| - 1) / size == 0;
      }
    }
  }

  /** `divide_list_in_chunks(xs, chunk_size)`, forced into a list: a zero
      step makes `range` raise, a negative step yields nothing. */
  function DivideListInChunks<T>(xs: seq<T>, chunkSize: int): (r: Result<seq<seq<T>>, Error>)
    ensures r.Err? <==> chunkSize == 0
    ensures chunkSize < 0 ==> r == Ok([])
    ensures chunkSize > 0 ==> r == Ok(Batches(xs, chunkSize))
  {
    if chunkSize == 0 then Err(ValueError("range() arg 3 must not be zero"))
    else if chunkSize < 0 then Ok([])
    else Ok(Batches(xs, chunkSize))
  }

  /** The batches concatenate back to the input, in order. */
  lemma {:induction false} BatchesFlatten<T>(xs: seq<T>, size: nat)
    requires size > 0
    ensures Flatten(Batches(xs, size)) == xs
    decreases |xs|
  {
    if xs != [] {
      var n := if |xs| < size then |xs| else size;
      BatchesFlatten(xs[n..], size);
      assert xs == xs[..n] + xs[n..];
    }
  }

  /** Slicing with a positive size loses and reorders nothing; a zero size is
      an error and a negative one yields no batch at all. */
  lemma {:induction false} DivideListRoundTrip<T>(xs: seq<T>, chunkSize: int)
    ensures chunkSize > 0 ==> DivideListInChunks(xs, chunkSize).Ok?
                              && Flatten(DivideListInChunks(xs, chunkSize).value) == xs
    ensures chunkSize < 0 ==> DivideListInChunks(xs, chunkSize) == Ok([])
  {
    if chunkSize > 0 {
      BatchesFlatten(xs, chunkSize);
    }
  }

  /** The batch size `add_documents` uses: the client's `max_batch_size`
      attribute, or the number of documents when the client has none. */
  function BatchSize(maxBatchSize: Option<int>, count: nat): (r: int)
    ensures maxBatchSize.None? ==> r == count
    ensures maxBatchSize.Some? ==> r == maxBatchSize.value
  {
    maxBatchSize.GetOr(count)
  }

  /** With a client that has no `max_batch_size`, adding an empty list of
      documents raises, because the batch size is then 0. */
  lemma {:induction false} EmptyAddWithoutClientLimitFails(documents: seq<DocValue>)
    requires documents == []
    ensures DivideListInChunks(documents, BatchSize(None, |documents|)).Err?
  {
  }

  /** Every batch is accepted by the client. */
  predicate AllAccepted(batches: seq<seq<DocValue>>, addBatch: seq<DocValue> -> Result<seq<string>, Error>) {
    forall j :: 0 <= j < |batches| ==> addBatch(batches[j]).Ok?
  }

  /** The ids the client returns for `batches`, concatenated in batch order. */
  function BatchIds(batches: seq<seq<DocValue>>, addBatch: seq<DocValue> -> Result<seq<string>, Error>): seq<string>
    requires AllAccepted(batches, addBatch)
  {
    if batches == [] then []
    else BatchIds(batches[..|batches| - 1], addBatch) + addBatch(batches[|batches| - 1]).value
  }

  /** The index of the first batch the client rejects, or the number of batches. */
  function FirstRejected(batches: seq<seq<DocValue>>, addBatch: seq<DocValue> -> Result<seq<string>, Error>): (k: nat)
    ensures k <= |batches|
    ensures AllAccepted(batches[..k], addBatch)
    ensures k < |batches| ==> addBatch(batches[k]).Err?
  {
    if batches == [] then 0
    else if addBatch(batches[0]).Err? then 0
    else
      var k := FirstRejected(batches[1..], addBatch) + 1;
      assert forall j :: 1 <= j < k ==> batches[..k][j] == batches[1..][..k - 1][j - 1];
      k
  }

  /** The first rejected batch is the one after an accepted prefix. */
  lemma {:induction false} FirstRejectedAt(batches: seq<seq<DocValue>>, addBatch: seq<DocValue> -> Result<seq<string>, Error>, i: nat)
    requires i <= |batches| && AllAccepted(batches[..i], addBatch)
    requires i < |batches| ==> addBatch(batches[i]).Err?
    ensures FirstRejected(batches, addBatch) == i
    decreases i
  {
    if i > 0 {
      assert batches[..i][0] == batches[0];
      var rest := batches[1..];
      assert rest[..i - 1] == batches[..i][1..];
      FirstRejectedAt(rest, addBatch, i - 1);
    }
  }

  /** When every batch holds as many documents as the client returns ids
      for, the ids of a successful write are one per document. */
  lemma {:induction false} BatchIdsCount(batches: seq<seq<DocValue>>, addBatch: seq<DocValue> -> Result<seq<string>, Error>)
    requires AllAccepted(batches, addBatch)
    requires forall j :: 0 <= j < |batches| ==> |addBatch(batches[j]).value| == |batches[j]|
    ensures |BatchIds(batches, addBatch)| == |Flatten(batches)|
    decreases |batches|
  {
    if batches != [] {
      var init := batches[..|batches| - 1];
      var last := batches[|batches| - 1];
      BatchIdsCount(init, addBatch);
      FlattenAppend(init, [last]);
      assert batches == init + [last];
      assert Flatten([last]) == last + Flatten([]);
    }
  }

  lemma {:induction false} FlattenAppend<T>(a: seq<seq<T>>, b: seq<seq<T>>)
    ensures Flatten(a + b) == Flatten(a) + Flatten(b)
    decreases |a|
  {
    if a != [] {
      FlattenAppend(a[1..], b);
      assert (a + b)[0] == a[0];
      assert (a + b)[1..] == a[1..] + b;
    } else {
      assert a + b == b;
    }
  }

  /** The hint appended to Chroma's complaint about complex metadata. */
  const FilterComplexMetadataHint: string :=
    "Try filtering complex metadata from the document using "
    + "langchain_community.vectorstores.utils.filter_complex_metadata."

  /** The exception `add_documents_with_embeddings` raises for an exception
      of the client's upsert. */
  function UpsertError(e: Error): (r: Error)
    ensures e.ValueError? && Contains(e.message, "Expected metadata value to be") ==>
              r == ValueError(e.message + "\n\n" + FilterComplexMetadataHint)
    ensures !(e.ValueError? && Contains(e.message, "Expected metadata value to be")) ==> r == e
  {
    if e.ValueError? && Find(e.message, "Expected metadata value to be") != -1 then
      ValueError(e.message + "\n\n" + FilterComplexMetadataHint)
    else e
  }

  /** The documents that have a content, in order. */
  function WithContent(docs: seq<DocValue>): (r: seq<DocValue>)
    ensures |r| <= |docs|
    ensures forall k :: 0 <= k < |r| ==> r[k].content.Some?
  {
    if docs == [] then []
    else
      var rest := WithContent(docs[..|docs| - 1]);
      var last := docs[|docs| - 1];
      if last.content.Some? then rest + [last] else rest
  }

  /** A document is kept exactly when it is one of `docs` and has a
      content. */
  lemma {:induction false} WithContentMembers(docs: seq<DocValue>)
    ensures forall d :: d in WithContent(docs) <==> d in docs && d.content.Some?
  {
    if docs != [] {
      var init := docs[..|docs| - 1];
      WithContentMembers(init);
      assert docs == init + [docs[|docs| - 1]];
    }
  }

  /** Keeping the documents with a content keeps their order: filtering a
      concatenation concatenates the filtered parts. */
  lemma {:induction false} WithContentAppend(a: seq<DocValue>, b: seq<DocValue>)
    ensures WithContent(a + b) == WithContent(a) + WithContent(b)
    decreases |b|
  {
    if b != [] {
      var init, x := b[..|b| - 1], b[|b| - 1];
      WithContentAppend(a, init);
      assert (a + b)[..|a + b| - 1] == a + init;
      assert (a + b)[|a + b| - 1] == x;
      assert WithContent(b) == if x.content.Some? then WithContent(init) + [x] else WithContent(init);
    } else {
      assert a + b == a;
    }
  }

  /** The texts of `docs`, each of which has a content. */
  function Contents(docs: seq<DocValue>): (r: seq<string>)
    requires forall k :: 0 <= k < |docs| ==> docs[k].content.Some?
    ensures |r| == |docs|
    ensures forall k :: 0 <= k < |docs| ==> r[k] == docs[k].content.value
  {
    if docs == [] then [] else Contents(docs[..|docs| - 1]) + [docs[|docs| - 1].content.value]
  }

  lemma {:induction false} ContentsAppend(docs: seq<DocValue>, x: DocValue)
    requires forall k :: 0 <= k < |docs| ==> docs[k].content.Some?
    requires x.content.Some?
    ensures Contents(docs + [x]) == Contents(docs) + [x.content.value]
  {
    assert (docs + [x])[..|docs|] == docs;
  }

  /** The metadata of `docs`, each stamped with `extra`. */
  function StampedMetadatas(docs: seq<DocValue>, extra: map<string, Value>): (r: seq<map<string, Value>>)
    ensures |r| == |docs|
    ensures forall k :: 0 <= k < |docs| ==> r[k] == docs[k].metadata + extra
  {
    if docs == [] then [] else StampedMetadatas(docs[..|docs| - 1], extra) + [docs[|docs| - 1].metadata + extra]
  }

  lemma {:induction false} StampedMetadatasAppend(docs: seq<DocValue>, x: DocValue, extra: map<string, Value>)
    ensures StampedMetadatas(docs + [x], extra) == StampedMetadatas(docs, extra) + [x.metadata + extra]
  {
    assert (docs + [x])[..|docs|] == docs;
  }

  /** The contents of the documents that have one, in one pass. */
  function KeptContents(docs: seq<DocValue>): seq<string> {
    if docs == [] then []
    else
      var x := docs[|docs| - 1];
      KeptContents(docs[..|docs| - 1]) + (if x.content.Some? then [x.content.value] else [])
  }

  /** The metadata of the documents that have a content, stamped with `extra`, in one pass. */
  function KeptMetadatas(docs: seq<DocValue>, extra: map<string, Value>): seq<map<string, Value>> {
    if docs == [] then []
    else
      var x := docs[|docs| - 1];
      KeptMetadatas(docs[..|docs| - 1], extra) + (if x.content.Some? then [x.metadata + extra] else [])
  }

  /** What one more document adds to the one-pass results. */
  lemma {:induction false} KeptStep(docs: seq<DocValue>, i: nat, extra: map<string, Value>)
    requires i < |docs|
    ensures var x := docs[i];
            && KeptContents(docs[..i + 1]) == KeptContents(docs[..i]) + (if x.content.Some? then [x.content.value] else [])
            && KeptMetadatas(docs[..i + 1], extra) == KeptMetadatas(docs[..i], extra) + (if x.content.Some? then [x.metadata + extra] else [])
  {
    assert docs[..i + 1][..i] == docs[..i];
  }

  /** The one-pass results are the contents and stamped metadata of the
      documents that have a content: two parallel lists of the same length. */
  lemma {:induction false} KeptAgree(docs: seq<DocValue>, extra: map<string, Value>)
    ensures KeptContents(docs) == Contents(WithContent(docs))
    ensures KeptMetadatas(docs, extra) == StampedMetadatas(WithContent(docs), extra)
    decreases |docs|
  {
    if docs != [] {
      var init, x := docs[..|docs| - 1], docs[|docs| - 1];
      KeptAgree(init, extra);
      if x.content.Some? {
        ContentsAppend(WithContent(init), x);
        StampedMetadatasAppend(WithContent(init), x, extra);
      }
    }
  }

  /** The ids `uuid1` generates for `count` documents. */
  function GeneratedIds(count: nat, uuid1: nat -> string): (r: seq<string>)
    ensures |r| == count
    ensures forall k :: 0 <= k < count ==> r[k] == uuid1(k)
  {
    if count == 0 then [] else GeneratedIds(count - 1, uuid1) + [uuid1(count - 1)]
  }

  /** Whether documents written while the ingestion runs in parallel workers
      stay consistent: never for Chroma. */
  function IsThreadSafe(): (r: bool)
    ensures !r
  {
    false
  }

  /** The extra-metadata loop of `add_documents`: every document gets each
      key of `extra` set to its value. A document listed twice is stamped twice,
      which changes nothing more. */
  method StampMetadata(documents: seq<Document>, extra: map<string, Value>)
    modifies documents
    ensures forall d :: d in documents ==> d.pageContent == old(d.pageContent)
    ensures forall d :: d in documents ==> d.metadata == old(d.metadata) + extra
  {
    for i := 0 to |documents|
      invariant forall d :: d in documents ==> d.pageContent == old(d.pageContent)
      invariant forall d :: d in documents ==>
                  d.metadata == if d in documents[..i] then old(d.metadata) + extra else old(d.metadata)
    {
      var d := documents[i];
      assert old(d.metadata) + extra + extra == old(d.metadata) + extra;
      d.metadata := d.metadata + extra;
      assert documents[..i + 1] == documents[..i] + [d];
    }
    assert documents[..|documents|] == documents;
  }

  /** Stamping the same metadata twice stamps it once. */
  lemma {:induction false} StampTwice(m: map<string, Value>, extra: map<string, Value>)
    ensures m + extra + extra == m + extra
  {
    assert (m + extra + extra).Keys == (m + extra).Keys;
  }

  /** The document loop of `add_documents_with_embeddings`: the contents of
      the documents that have one, and their metadata once `extra` is stamped
      on it; documents without a content are skipped and left untouched. */
  method KeepAndStamp(documents: seq<Document>, extra: map<string, Value>)
    returns (pageContents: seq<string>, metadatas: seq<map<string, Value>>)
    modifies documents`metadata
    ensures forall j :: 0 <= j < |documents| ==>
              documents[j].metadata == (if documents[j].pageContent.Some? then old(documents[j].metadata) + extra
                                        else old(documents[j].metadata))
    ensures pageContents == KeptContents(old(Snapshot(documents)))
    ensures metadatas == KeptMetadatas(old(Snapshot(documents)), extra)
  {
    ghost var before := Snapshot(documents);
    assert before == old(Snapshot(documents));
    pageContents, metadatas := [], [];
    ghost var seen: set<Document> := {};
    for i := 0 to |documents|
      invariant forall j :: 0 <= j < i ==> documents[j] in seen
      invariant forall j :: 0 <= j < |documents| ==>
                  documents[j].metadata == (if documents[j] in seen && documents[j].pageContent.Some?
                                            then old(documents[j].metadata) + extra else old(documents[j].metadata))
      invariant pageContents == KeptContents(before[..i])
      invariant metadatas == KeptMetadatas(before[..i], extra)
    {
      var d := documents[i];
      assert before[i] == DocValue(d.pageContent, old(d.metadata));
      KeptStep(before, i, extra);
      if d.pageContent.Some? {
        StampTwice(old(d.metadata), extra);
        pageContents := pageContents + [d.pageContent.value];
        d.metadata := d.metadata + extra;
        metadatas := metadatas + [d.metadata];
      }
      seen := seen + {d};
    }
    assert before[..|documents|] == before;
  }

  /** A Chroma collection seen through the batches it has been sent. */
  class ChromaStore {
    /** The client's `max_batch_size` attribute, if it has one. */
    const maxBatchSize: Option<int>
    /** The batches written to the collection so far, in order. */
    var written: seq<seq<DocValue>>

    constructor (maxBatchSize: Option<int>)
      ensures this.maxBatchSize == maxBatchSize && written == []
    {
      this.maxBatchSize := maxBatchSize;
      written := [];
    }

    /** `add_documents`: stamps `extraMetadata` on every document, then
        writes the documents in batches of the client's size, stopping at the
        first batch the client rejects. */
    method AddDocuments(documents: seq<Document>, extraMetadata: Option<map<string, Value>>,
                        addBatch: seq<DocValue> -> Result<seq<string>, Error>)
      returns (r: Result<seq<string>, Error>)
      modifies this, documents
      ensures forall d :: d in documents ==> d.pageContent == old(d.pageContent)
      ensures forall d :: d in documents ==>
                d.metadata == if extraMetadata.Some? then old(d.metadata) + extraMetadata.value else old(d.metadata)
      ensures var batched := DivideListInChunks(Snapshot(documents), BatchSize(maxBatchSize, |documents|));
              match batched
              case Err(e) => r == Err(e) && written == old(written)
              case Ok(batches) =>
                var k := FirstRejected(batches, addBatch);
                && written == old(written) + batches[..k]
                && r == if k < |batches| then Err(addBatch(batches[k]).error) else Ok(BatchIds(batches, addBatch))
    {
      if extraMetadata.Some? {
        StampMetadata(documents, extraMetadata.value);
      }
      var batched := DivideListInChunks(Snapshot(documents), BatchSize(maxBatchSize, |documents|));
      if batched.Err? {
        return Err(batched.error);
      }
      r := WriteBatches(batched.value, addBatch);
    }

    /** The batch loop of `add_documents`: sends the batches in order,
        concatenating the ids the client returns, and stops at the first
        batch the client rejects; the batches before it stay written. */
    method WriteBatches(batches: seq<seq<DocValue>>, addBatch: seq<DocValue> -> Result<seq<string>, Error>)
      returns (r: Result<seq<string>, Error>)
      modifies this
      ensures var k := FirstRejected(batches, addBatch);
              && written == old(written) + batches[..k]
              && r == if k < |batches| then Err(addBatch(batches[k]).error) else Ok(BatchIds(batches, addBatch))
    {
      var ids: seq<string> := [];
      var i := 0;
      while i < |batches|
        invariant 0 <= i <= |batches|
        invariant AllAccepted(batches[..i], addBatch)
        invariant written == old(written) + batches[..i]
        invariant ids == BatchIds(batches[..i], addBatch)
      {
        var batchIds := addBatch(batches[i]);
        if batchIds.Err? {
          FirstRejectedAt(batches, addBatch, i);
          return Err(batchIds.error);
        }
        written := written + [batches[i]];
        assert batches[..i + 1][..i] == batches[..i];
        ids := ids + batchIds.value;
        i := i + 1;
      }
      assert batches[..i] == batches;
      FirstRejectedAt(batches, addBatch, i);
      return Ok(ids);
    }

    /** `add_documents_with_embeddings`: keeps the documents that have a
        content, stamps `addMetadatas` on them, generates one id per kept
        document unless ids are given, and upserts the lot. */
    method AddDocumentsWithEmbeddings<E>(documents: seq<Document>, embeddings: seq<E>, ids: Option<seq<string>>,
                                         addMetadatas: map<string, Value>, uuid1: nat -> string,
                                         upsert: (seq<map<string, Value>>, seq<E>, seq<string>, seq<string>) -> Outcome<Error>)
      returns (r: Result<seq<string>, Error>)
      modifies documents
      ensures forall j :: 0 <= j < |documents| ==> documents[j].pageContent == old(documents[j].pageContent)
      ensures forall j :: 0 <= j < |documents| ==>
                documents[j].metadata == (if documents[j].pageContent.Some? then old(documents[j].metadata) + addMetadatas
                                          else old(documents[j].metadata))
      ensures var kept := WithContent(old(Snapshot(documents)));
              var usedIds := if ids.Some? then ids.value else GeneratedIds(|kept|, uuid1);
              var outcome := upsert(StampedMetadatas(kept, addMetadatas), embeddings, Contents(kept), usedIds);
              r == if outcome.Pass? then Ok(usedIds) else Err(UpsertError(outcome.error))
    {
      var pageContents, metadatas := KeepAndStamp(documents, addMetadatas);
      KeptAgree(old(Snapshot(documents)), addMetadatas);
      var usedIds := if ids.Some? then ids.value else GeneratedIds(|pageContents|, uuid1);
      var outcome := upsert(metadatas, embeddings, pageContents, usedIds);
      if outcome.Fail? {
        return Err(UpsertError(outcome.error));
      }
      return Ok(usedIds);
    }
  }
}
