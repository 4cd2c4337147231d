/** The bookkeeping of an ingestion run (chatnerd/langchain/document_embedder.py):
    how many documents a run takes, how many workers it uses, what it collects
    and which progress events it emits, and the splitter configuration each
    document is split with. The per-document work (splitting, embedding,
    writing to the stores) is a function parameter; so is the order in which
    the process pool completes the documents. */
module Embedding {
  import opened Wrappers
  import opened Python
  import Stores

  const DefaultChunkSize: int := 1000
  const DefaultChunkOverlap: int := 100
  /** The most documents one run takes. */
  const RunTasksLimit: int := 1000

  /** The limit a run applies: the requested one when it lies strictly
      between 0 and the maximum, the maximum otherwise (also when no limit,
      or 0, is given). */
  function EffectiveLimit(limit: Option<int>): (r: int)
    ensures 1 <= r <= RunTasksLimit
    ensures r == RunTasksLimit || (limit.Some? && r == limit.value)
    ensures limit.Some? && 0 < limit.value < RunTasksLimit <==> r != RunTasksLimit
  {
    if limit.None? || limit.value == 0 || !(0 < limit.value < RunTasksLimit) then RunTasksLimit
    else limit.value
  }

  /** The documents a run processes: the first `limit` of them. */
  function Truncate<D>(documents: seq<D>, limit: nat): (r: seq<D>)
    ensures |documents| <= limit ==> r == documents
    ensures |documents| > limit ==> |r| == limit
    ensures r == documents[..|r|]
  {
    if |documents| > limit then documents[..limit] else documents
  }

  /** The size of the process pool: two workers only for a thread-safe store
      on a machine with more than four CPUs. An unknown CPU count cannot be
      compared with 4 and raises `TypeError`, but only for a thread-safe store. */
  function WorkerCount(threadSafe: bool, cpuCount: Option<int>): (r: Result<nat, Error>)
    ensures r.Err? <==> threadSafe && cpuCount.None?
    ensures r.Err? ==> r.error.TypeError?
    ensures r == Ok(2) <==> threadSafe && cpuCount.Some? && cpuCount.value > 4
    ensures r.Ok? ==> r.value == 1 || r.value == 2
  {
    if threadSafe then
      if cpuCount.None? then Err(TypeError("'>' not supported between instances of 'NoneType' and 'int'"))
      else Ok(if cpuCount.value > 4 then 2 else 1)
    else Ok(1)
  }

  /** The Chroma store is not thread-safe, so ingestion into it always runs
      on a single worker, whatever the CPU count. */
  lemma {:induction false} ChromaRunsOnOneWorker(cpuCount: Option<int>)
    ensures WorkerCount(Stores.IsThreadSafe(), cpuCount) == Ok(1)
  {
  }

  /** What processing one document gave: the value it returned (the
      document's `source` metadata, or `None`) or the exception it raised. */
  datatype TaskOutcome = Returned(source: Value) | Raised(error: Error)

  /** The events a run emits to its listeners (the progress bar). */
  datatype Event = Start(total: nat) | Write(message: string) | Update | End

  /** A returned source is collected only when it is truthy. */
  function Gain(o: TaskOutcome): seq<Value> {
    if o.Returned? && Truthy(o.source) then [o.source] else []
  }

  function Loss(o: TaskOutcome): seq<Error> {
    if o.Raised? then [o.error] else []
  }

  /** The events emitted while handling one completed document: a "write"
      line for a collected source, then exactly one update. */
  function Progress1(o: TaskOutcome): seq<Event> {
    (if o.Returned? && Truthy(o.source) then [Write("✔ " + StrOf(o.source))] else []) + [Update]
  }

  /** The sources collected from documents completed in the order `xs`. */
  function Collected<D>(task: D -> TaskOutcome, xs: seq<D>): (r: seq<Value>)
    ensures |r| <= |xs|
    ensures forall k :: 0 <= k < |r| ==> Truthy(r[k])
  {
    if xs == [] then [] else Collected(task, xs[..|xs| - 1]) + Gain(task(xs[|xs| - 1]))
  }

  /** A value is among those collected exactly when some document returned
      it and it is truthy. */
  lemma {:induction false} CollectedMembers<D>(task: D -> TaskOutcome, xs: seq<D>)
    ensures forall v :: v in Collected(task, xs) <==>
              exists i :: 0 <= i < |xs| && task(xs[i]) == TaskOutcome.Returned(v) && Truthy(v)
  {
    if xs != [] {
      var init := xs[..|xs| - 1];
      CollectedMembers(task, init);
      assert forall i :: 0 <= i < |init| ==> init[i] == xs[i];
    }
  }

  /** The exceptions raised by documents completed in the order `xs`. */
  function Failed<D>(task: D -> TaskOutcome, xs: seq<D>): (r: seq<Error>)
    ensures |r| <= |xs|
  {
    if xs == [] then [] else Failed(task, xs[..|xs| - 1]) + Loss(task(xs[|xs| - 1]))
  }

  /** An exception is among those collected exactly when some document
      raised it. */
  lemma {:induction false} FailedMembers<D>(task: D -> TaskOutcome, xs: seq<D>)
    ensures forall e :: e in Failed(task, xs) <==> exists i :: 0 <= i < |xs| && task(xs[i]) == TaskOutcome.Raised(e)
  {
    if xs != [] {
      var init := xs[..|xs| - 1];
      FailedMembers(task, init);
      assert forall i :: 0 <= i < |init| ==> init[i] == xs[i];
    }
  }

  /** The events emitted while documents complete in the order `xs`. */
  function Progress<D>(task: D -> TaskOutcome, xs: seq<D>): (r: seq<Event>)
    ensures |r| >= |xs|
  {
    if xs == [] then [] else Progress(task, xs[..|xs| - 1]) + Progress1(task(xs[|xs| - 1]))
  }

  /** The number of update events in `events`. */
  function Updates(events: seq<Event>): nat {
    if events == [] then 0 else Updates(events[..|events| - 1]) + (if events[|events| - 1] == Update then 1 else 0)
  }

  /** The number of write events in `events`. */
  function Writes(events: seq<Event>): nat {
    if events == [] then 0 else Writes(events[..|events| - 1]) + (if events[|events| - 1].Write? then 1 else 0)
  }

  lemma {:induction false} UpdatesAppend(a: seq<Event>, b: seq<Event>)
    ensures Updates(a + b) == Updates(a) + Updates(b)
    ensures Writes(a + b) == Writes(a) + Writes(b)
    decreases |b|
  {
    if b == [] {
      assert a + b == a;
    } else {
      UpdatesAppend(a, b[..|b| - 1]);
      assert (a + b)[..|a + b| - 1] == a + b[..|b| - 1];
    }
  }

  lemma {:induction false} Progress1Counts(o: TaskOutcome)
    ensures Updates(Progress1(o)) == 1
    ensures Writes(Progress1(o)) == |Gain(o)|
  {
    var w := if o.Returned? && Truthy(o.source) then [Write("✔ " + StrOf(o.source))] else [];
    UpdatesAppend(w, [Update]);
    assert [Update][..0] == [];
    if w != [] {
      assert w[..0] == [];
    }
  }

  /** Every completed document emits exactly one update, and every
      collected source exactly one write. */
  lemma {:induction false} ProgressCounts<D>(task: D -> TaskOutcome, xs: seq<D>)
    ensures Updates(Progress(task, xs)) == |xs|
    ensures Writes(Progress(task, xs)) == |Collected(task, xs)|
    decreases |xs|
  {
    if xs != [] {
      var init, o := xs[..|xs| - 1], task(xs[|xs| - 1]);
      ProgressCounts(task, init);
      UpdatesAppend(Progress(task, init), Progress1(o));
      Progress1Counts(o);
    }
  }

  /** A document is collected, failed, or neither (a falsy return), never
      both: the results and errors together are at most the documents. */
  lemma {:induction false} OutcomesBound<D>(task: D -> TaskOutcome, xs: seq<D>)
    ensures |Collected(task, xs)| + |Failed(task, xs)| <= |xs|
    decreases |xs|
  {
    if xs != [] {
      OutcomesBound(task, xs[..|xs| - 1]);
    }
  }

  lemma {:induction false} CollectedAppend<D>(task: D -> TaskOutcome, a: seq<D>, b: seq<D>)
    ensures Collected(task, a + b) == Collected(task, a) + Collected(task, b)
    decreases |b|
  {
    if b != [] {
      var init, x := b[..|b| - 1], b[|b| - 1];
      CollectedAppend(task, a, init);
      assert (a + b)[..|a + b| - 1] == a + init;
      assert (a + b)[|a + b| - 1] == x;
      assert Collected(task, b) == Collected(task, init) + Gain(task(x));
    } else {
      assert a + b == a;
    }
  }

  lemma {:induction false} FailedAppend<D>(task: D -> TaskOutcome, a: seq<D>, b: seq<D>)
    ensures Failed(task, a + b) == Failed(task, a) + Failed(task, b)
    decreases |b|
  {
    if b != [] {
      var init, x := b[..|b| - 1], b[|b| - 1];
      FailedAppend(task, a, init);
      assert (a + b)[..|a + b| - 1] == a + init;
      assert (a + b)[|a + b| - 1] == x;
      assert Failed(task, b) == Failed(task, init) + Loss(task(x));
    } else {
      assert a + b == a;
    }
  }

  lemma {:induction false} MultisetCancel<D>(init: seq<D>, x: D, before: seq<D>, after: seq<D>)
    requires multiset(init + [x]) == multiset(before + [x] + after)
    ensures multiset(init) == multiset(before + after)
  {
    var a, b := multiset(init), multiset(before + after);
    assert multiset(init + [x]) == a + multiset{x};
    assert multiset(before + [x] + after) == b + multiset{x};
    forall y ensures a[y] == b[y] {
      assert (a + multiset{x})[y] == (b + multiset{x})[y];
    }
  }

  lemma {:induction false} CollectedAround<D>(task: D -> TaskOutcome, before: seq<D>, x: D, after: seq<D>)
    ensures Collected(task, before + [x] + after) == Collected(task, before) + Gain(task(x)) + Collected(task, after)
    ensures Collected(task, before + after) == Collected(task, before) + Collected(task, after)
  {
    CollectedAppend(task, before, after);
    CollectedAppend(task, before + [x], after);
    CollectedAppend(task, before, [x]);
    assert [x][..0] == [];
  }

  lemma {:induction false} FailedAround<D>(task: D -> TaskOutcome, before: seq<D>, x: D, after: seq<D>)
    ensures Failed(task, before + [x] + after) == Failed(task, before) + Loss(task(x)) + Failed(task, after)
    ensures Failed(task, before + after) == Failed(task, before) + Failed(task, after)
  {
    FailedAppend(task, before, after);
    FailedAppend(task, before + [x], after);
    FailedAppend(task, before, [x]);
    assert [x][..0] == [];
  }

  /** Taking one document out of the middle of a completion order. */
  lemma {:induction false} SplitAround<D>(task: D -> TaskOutcome, before: seq<D>, x: D, after: seq<D>)
    ensures multiset(Collected(task, before + [x] + after)) == multiset(Collected(task, before + after)) + multiset(Gain(task(x)))
    ensures multiset(Failed(task, before + [x] + after)) == multiset(Failed(task, before + after)) + multiset(Loss(task(x)))
  {
    CollectedAround(task, before, x, after);
    MultisetAround(Collected(task, before), Gain(task(x)), Collected(task, after));
    FailedAround(task, before, x, after);
    MultisetAround(Failed(task, before), Loss(task(x)), Failed(task, after));
  }

  lemma {:induction false} MultisetAround<T>(p: seq<T>, m: seq<T>, q: seq<T>)
    ensures multiset(p + m + q) == multiset(p + q) + multiset(m)
  {
    assert multiset(p + m + q) == multiset(p) + multiset(m) + multiset(q);
    assert multiset(p + q) == multiset(p) + multiset(q);
  }

  /** The order in which the pool completes the documents changes the order
      of the results and errors, never which ones there are. */
  lemma {:induction false} CompletionOrderIrrelevant<D>(task: D -> TaskOutcome, xs: seq<D>, ys: seq<D>)
    requires multiset(xs) == multiset(ys)
    ensures multiset(Collected(task, xs)) == multiset(Collected(task, ys))
    ensures multiset(Failed(task, xs)) == multiset(Failed(task, ys))
    decreases |xs|
  {
    if xs == [] {
      assert |ys| == |multiset(ys)| == 0;
    } else {
      var init, x := xs[..|xs| - 1], xs[|xs| - 1];
      assert xs == init + [x];
      assert x in multiset(ys);
      var k :| 0 <= k < |ys| && ys[k] == x;
      var before, after := ys[..k], ys[k + 1..];
      assert ys == before + [x] + after;
      MultisetCancel(init, x, before, after);
      CompletionOrderIrrelevant(task, init, before + after);
      SplitAround(task, before, x, after);
    }
  }

  /** `split_and_embed_document`'s splitter defaults. */
  const ChunkSplitterDefaults: seq<Entry> := [
    Entry("separators", List([Str("\n\n"), Str("\n"), Str("."), Str(","), Str(" ")])),
    Entry("keep_separator", Bool(false)),
    Entry("chunk_overlap", Int(DefaultChunkOverlap)),
    Entry("chunk_size", Int(DefaultChunkSize)),
    Entry("add_start_index", Bool(true))
  ]

  /** `split_documents`' splitter defaults. */
  const SplitDefaults: seq<Entry> := [
    Entry("separators", List([Str("\n\n"), Str("\n"), Str("."), Str(","), Str(" ")])),
    Entry("chunk_size", Int(DefaultChunkSize)),
    Entry("chunk_overlap", Int(DefaultChunkOverlap)),
    Entry("keep_separator", Bool(false))
  ]

  /** The chunk size a document is split with. `maxSeqLength` is the outcome
      of asking the embedding model for its maximum sequence length (an
      exception when it has none); a falsy answer means the default. The
      configured size is capped by it with `min`, which keeps the configured
      value on a tie. When the lookup raises, or `min` cannot compare the
      two, the default is used. */
  function ClampedChunkSize(configured: Value, maxSeqLength: Result<Value, Error>): (r: Value)
    ensures maxSeqLength.Err? ==> r == Int(DefaultChunkSize)
    ensures IsNumber(r)
    ensures maxSeqLength.Ok? && IsNumber(configured) ==>
              var cap := if Truthy(maxSeqLength.value) then maxSeqLength.value else Int(DefaultChunkSize);
              if IsNumber(cap) then
                && (r == configured || r == cap)
                && NumberOf(r) <= NumberOf(configured) && NumberOf(r) <= NumberOf(cap)
              else r == Int(DefaultChunkSize)
    ensures maxSeqLength.Ok? && IsNumber(configured) ==>
              var cap := if Truthy(maxSeqLength.value) then maxSeqLength.value else Int(DefaultChunkSize);
              IsNumber(cap) ==>
                && (NumberOf(configured) <= NumberOf(cap) ==> r == configured)
                && (NumberOf(cap) < NumberOf(configured) ==> r == cap)
    ensures !IsNumber(configured) ==> r == Int(DefaultChunkSize)
  {
    if maxSeqLength.Err? then Int(DefaultChunkSize)
    else
      var cap := if Truthy(maxSeqLength.value) then maxSeqLength.value else Int(DefaultChunkSize);
      if IsNumber(configured) && IsNumber(cap) then
        if NumberOf(cap) < NumberOf(configured) then cap else configured
      else Int(DefaultChunkSize)
  }

  /** The splitter configuration of `split_and_embed_document`: the project's
      `splitter` section over the defaults, with the chunk size clamped. A
      project configuration without that section raises `KeyError`; a section
      that is not a dictionary cannot be merged and raises `TypeError`. */
  function ChunkSplitterConfig(projectConfig: seq<Entry>, maxSeqLength: Result<Value, Error>): (r: Result<seq<Entry>, Error>)
    requires WellFormedDict(projectConfig)
    ensures !HasKey(projectConfig, "splitter") <==> r == Err(KeyError("splitter"))
    ensures HasKey(projectConfig, "splitter") && !Get(projectConfig, "splitter").value.Dict? <==> r.Err? && r.error.TypeError?
    ensures r.Ok? <==> HasKey(projectConfig, "splitter") && Get(projectConfig, "splitter").value.Dict?
    ensures r.Ok? ==>
              var splitter := Get(projectConfig, "splitter").value.entries;
              && UniqueKeys(r.value)
              && (forall k :: k != "chunk_size" ==>
                    Get(r.value, k) == if HasKey(splitter, k) then Get(splitter, k) else Get(ChunkSplitterDefaults, k))
              && Get(r.value, "chunk_size") ==
                   Some(ClampedChunkSize(if HasKey(splitter, "chunk_size") then Get(splitter, "chunk_size").value
                                         else Int(DefaultChunkSize), maxSeqLength))
  {
    var splitter := Get(projectConfig, "splitter");
    if splitter.None? then Err(KeyError("splitter"))
    else if !splitter.value.Dict? then Err(TypeError("unsupported operand type(s) for |: 'dict' and a non-dict"))
    else
      assert WellFormed(splitter.value) by {
        var i :| 0 <= i < |projectConfig| && projectConfig[i] == Entry("splitter", splitter.value);
      }
      assert UniqueKeys(ChunkSplitterDefaults);
      assert ChunkSplitterDefaults[3].key == "chunk_size";
      var merged := Merge(ChunkSplitterDefaults, splitter.value.entries);
      Ok(SetKey(merged, "chunk_size", ClampedChunkSize(Get(merged, "chunk_size").value, maxSeqLength)))
  }

  /** The defaults `split_documents` merges under the configuration it is
      given never change the configuration `split_and_embed_document` built:
      it already holds every one of those keys. */
  lemma {:induction false} SplitDefaultsAreRedundant(projectConfig: seq<Entry>, maxSeqLength: Result<Value, Error>)
    requires WellFormedDict(projectConfig)
    requires ChunkSplitterConfig(projectConfig, maxSeqLength).Ok?
    ensures var c := ChunkSplitterConfig(projectConfig, maxSeqLength).value;
            forall k :: Get(Merge(SplitDefaults, c), k) == Get(c, k)
  {
    var c := ChunkSplitterConfig(projectConfig, maxSeqLength).value;
    forall k ensures Get(Merge(SplitDefaults, c), k) == Get(c, k) {
      if HasKey(SplitDefaults, k) {
        SplitKeysCovered(k);
        if k != "chunk_size" {
          var splitter := Get(projectConfig, "splitter").value.entries;
          assert Get(ChunkSplitterDefaults, k).Some?;
          assert Get(c, k) == if HasKey(splitter, k) then Get(splitter, k) else Get(ChunkSplitterDefaults, k);
        }
        assert HasKey(c, k);
      }
    }
  }

  lemma {:induction false} SplitKeysCovered(k: string)
    requires HasKey(SplitDefaults, k)
    ensures HasKey(ChunkSplitterDefaults, k)
  {
    var i :| 0 <= i < |SplitDefaults| && SplitDefaults[i].key == k;
    var j := if i == 0 then 0 else if i == 1 then 3 else if i == 2 then 2 else 1;
    assert ChunkSplitterDefaults[j].key == k;
  }

  /** The texts of `docs`, in order. */
  function PageContents(docs: seq<Stores.DocValue>): (r: seq<Option<string>>)
    ensures |r| == |docs|
    ensures forall k :: 0 <= k < |docs| ==> r[k] == docs[k].content
  {
    if docs == [] then [] else PageContents(docs[..|docs| - 1]) + [docs[|docs| - 1].content]
  }

  /** The metadata of `docs`, in order. */
  function Metadatas(docs: seq<Stores.DocValue>): (r: seq<map<string, Value>>)
    ensures |r| == |docs|
    ensures forall k :: 0 <= k < |docs| ==> r[k] == docs[k].metadata
  {
    if docs == [] then [] else Metadatas(docs[..|docs| - 1]) + [docs[|docs| - 1].metadata]
  }

  /** `split_documents`: the given keyword arguments over the defaults, and
      the texts and metadata of the documents, handed to the splitter. */
  method SplitDocuments(documents: seq<Stores.Document>, splitterKwargs: seq<Entry>,
                        createDocuments: (seq<Entry>, seq<Option<string>>, seq<map<string, Value>>) -> seq<Stores.DocValue>)
    returns (chunks: seq<Stores.DocValue>)
    requires UniqueKeys(splitterKwargs)
    ensures chunks == createDocuments(Merge(SplitDefaults, splitterKwargs),
                                      PageContents(Stores.Snapshot(documents)), Metadatas(Stores.Snapshot(documents)))
  {
    var kwargs := Merge(SplitDefaults, splitterKwargs);
    ghost var snapshot := Stores.Snapshot(documents);
    var texts: seq<Option<string>> := [];
    var metadatas: seq<map<string, Value>> := [];
    for i := 0 to |documents|
      invariant texts == PageContents(snapshot[..i])
      invariant metadatas == Metadatas(snapshot[..i])
    {
      assert snapshot[..i + 1][..i] == snapshot[..i];
      texts := texts + [documents[i].pageContent];
      metadatas := metadatas + [documents[i].metadata];
    }
    assert snapshot[..|documents|] == snapshot;
    chunks := createDocuments(kwargs, texts, metadatas);
  }

  /** `DocumentEmbedder`: an event emitter that runs the ingestion of a batch
      of documents. */
  class DocumentEmbedder {
    /** The events emitted so far, in order. */
    var events: seq<Event>
    /** How many times a vector store was opened, and closed, by `run`. */
    var storesOpened: nat
    var storesClosed: nat
    /** The number of workers of the last process pool `run` created. */
    var poolSize: nat

    constructor ()
      ensures events == [] && storesOpened == 0 && storesClosed == 0 && poolSize == 0
    {
      events := [];
      storesOpened := 0;
      storesClosed := 0;
      poolSize := 0;
    }

    /** The body of the `as_completed` loop of `run` for one completed
        document: a truthy returned source is collected and announced with a
        "write" event, an exception is collected as an error, and the
        document ends with an update either way. */
    method HandleOutcome(outcome: TaskOutcome, results: seq<Value>, errors: seq<Error>)
      returns (results': seq<Value>, errors': seq<Error>)
      modifies this`events
      ensures results' == results + Gain(outcome)
      ensures errors' == errors + Loss(outcome)
      ensures events == old(events) + Progress1(outcome)
    {
      results', errors' := results, errors;
      match outcome {
        case Returned(source) =>
          if Truthy(source) {
            results' := results' + [source];
            events := events + [Write("✔ " + StrOf(source))];
          }
        case Raised(error) =>
          errors' := errors' + [error];
      }
      events := events + [Update];
    }

    /** The `as_completed` loop of `run`, over the documents in the order
        the pool completes them. */
    method HandleCompletions<D>(task: D -> TaskOutcome, completion: seq<D>)
      returns (results: seq<Value>, errors: seq<Error>)
      modifies this`events
      ensures results == Collected(task, completion)
      ensures errors == Failed(task, completion)
      ensures events == old(events) + Progress(task, completion)
    {
      results, errors := [], [];
      for i := 0 to |completion|
        invariant results == Collected(task, completion[..i])
        invariant errors == Failed(task, completion[..i])
        invariant events == old(events) + Progress(task, completion[..i])
      {
        CompletionStep(task, completion, i);
        var outcome := task(completion[i]);
        results, errors := HandleOutcome(outcome, results, errors);
      }
      assert completion[..|completion|] == completion;
    }

    /** `run`. `threadSafe` is the flag of the configured vector store,
        `cpuCount` what `os.cpu_count()` answers, `task` the per-document work
        and `completion` the order in which the pool completes the documents
        it was given. */
    method Run<D(==)>(documents: seq<D>, limit: Option<int>, threadSafe: bool, cpuCount: Option<int>,
                      task: D -> TaskOutcome, completion: seq<D>)
      returns (r: Result<(seq<Value>, seq<Error>), Error>)
      requires multiset(completion) == multiset(Truncate(documents, EffectiveLimit(limit)))
      modifies this
      ensures documents == [] ==>
                r == Ok(([], [])) && events == old(events)
                && storesOpened == old(storesOpened) && storesClosed == old(storesClosed) && poolSize == old(poolSize)
      ensures documents != [] ==>
                var n := |Truncate(documents, EffectiveLimit(limit))|;
                var workers := WorkerCount(threadSafe, cpuCount);
                && storesOpened == old(storesOpened) + 1
                && (workers.Err? ==>
                      && r == Err(workers.error)
                      && events == old(events) + [Start(n)]
                      && storesClosed == old(storesClosed) && poolSize == old(poolSize))
                && (workers.Ok? ==>
                      && r == Ok((Collected(task, completion), Failed(task, completion)))
                      && events == old(events) + [Start(n)] + Progress(task, completion) + [End]
                      && storesClosed == old(storesClosed) + 1 && poolSize == workers.value)
    {
      if |documents| == 0 {
        return Ok(([], []));
      }
      var lim := EffectiveLimit(limit);
      var docs := documents;
      if |docs| > lim {
        docs := docs[..lim];
      }
      events := events + [Start(|docs|)];
      storesOpened := storesOpened + 1;
      var workers := WorkerCount(threadSafe, cpuCount);
      if workers.Err? {
        return Err(workers.error);
      }
      storesClosed := storesClosed + 1;
      poolSize := workers.value;
      var results, errors := HandleCompletions(task, completion);
      events := events + [End];
      return Ok((results, errors));
    }
  }

  /** What one more completed document adds to the results, the errors and
      the events. */
  lemma {:induction false} CompletionStep<D>(task: D -> TaskOutcome, xs: seq<D>, i: nat)
    requires i < |xs|
    ensures Collected(task, xs[..i + 1]) == Collected(task, xs[..i]) + Gain(task(xs[i]))
    ensures Failed(task, xs[..i + 1]) == Failed(task, xs[..i]) + Loss(task(xs[i]))
    ensures Progress(task, xs[..i + 1]) == Progress(task, xs[..i]) + Progress1(task(xs[i]))
  {
    assert xs[..i + 1][..i] == xs[..i];
  }

  /** However the pool orders the work, a run that gets past the worker
      count emits one update per processed document and reports the same
      results and errors up to order. */
  lemma {:induction false} RunAccounting<D>(task: D -> TaskOutcome, processed: seq<D>, completion: seq<D>)
    requires multiset(completion) == multiset(processed)
    ensures Updates(Progress(task, completion)) == |processed|
    ensures multiset(Collected(task, completion)) == multiset(Collected(task, processed))
    ensures multiset(Failed(task, completion)) == multiset(Failed(task, processed))
    ensures |Collected(task, completion)| + |Failed(task, completion)| <= |processed|
  {
    assert |completion| == |multiset(completion)| == |processed|;
    ProgressCounts(task, completion);
    CompletionOrderIrrelevant(task, completion, processed);
    OutcomesBound(task, completion);
  }
}
