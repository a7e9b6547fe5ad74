/** The Pinecone client as far as the indexer relies on it: `upsert_batch`
    sends the vector records in consecutive slices and adds up the counts the
    index reports, and `get_index_stats` picks one namespace out of the
    index statistics. The index itself is a parameter: `upsert` stands for
    `upsert_vectors` (the number of vectors the index says it upserted, or
    the error it raised), `describe` for `describe_index_stats`. */
module VectorStore {
  import opened Wrappers
  import opened Values
  import opened Embeddings

  /** What `range(0, n, 0)` raises. */
  const ZeroStep := "range() arg 3 must not be zero"

  /** Slice `k` of `range(0, n, bs)`: `vectors[k * bs : k * bs + bs]`. */
  function Slice(vectors: seq<VectorRecord>, bs: nat, k: nat): seq<VectorRecord>
    requires bs >= 1 && k < NumBatches(|vectors|, bs)
  {
    BatchesCover(|vectors|, bs, k);
    vectors[k * bs..BatchEnd(k, bs, |vectors|)]
  }

  /** Every slice the loop would send when no call fails, in order. */
  function Slices(vectors: seq<VectorRecord>, bs: nat): (r: seq<seq<VectorRecord>>)
    requires bs >= 1
    ensures |r| == NumBatches(|vectors|, bs)
  {
    seq(NumBatches(|vectors|, bs), k requires 0 <= k < NumBatches(|vectors|, bs) => Slice(vectors, bs, k))
  }

  function Flatten(ss: seq<seq<VectorRecord>>): seq<VectorRecord> {
    if ss == [] then [] else Flatten(ss[..|ss| - 1]) + ss[|ss| - 1]
  }

  /** The running total over the batches sent in order: the first failure
      ends it, otherwise the reported counts are added up. */
  function Counted(upsert: (seq<VectorRecord>, string) -> Result<nat, string>,
                   batches: seq<seq<VectorRecord>>, namespace: string): Result<nat, string>
  {
    if batches == [] then Success(0)
    else
      match Counted(upsert, batches[..|batches| - 1], namespace)
      case Failure(e) => Failure(e)
      case Success(t) =>
        match upsert(batches[|batches| - 1], namespace)
        case Failure(e) => Failure(e)
        case Success(c) => Success(t + c)
  }

  /** The batches handed to the index: all of them, or up to and including
      the first one whose call fails. */
  function Sent(upsert: (seq<VectorRecord>, string) -> Result<nat, string>,
                batches: seq<seq<VectorRecord>>, namespace: string): (r: seq<seq<VectorRecord>>)
    ensures |r| <= |batches|
  {
    if batches == [] then []
    else if upsert(batches[0], namespace).Failure? then [batches[0]]
    else [batches[0]] + Sent(upsert, batches[1..], namespace)
  }

  /** The total over two runs of batches is the sum of their totals, and it
      fails with the first run's error, else with the second's. */
  lemma {:induction false} CountedAppend(upsert: (seq<VectorRecord>, string) -> Result<nat, string>,
                                         a: seq<seq<VectorRecord>>, b: seq<seq<VectorRecord>>, namespace: string)
    ensures Counted(upsert, a, namespace).Failure? ==> Counted(upsert, a + b, namespace) == Counted(upsert, a, namespace)
    ensures Counted(upsert, a, namespace).Success? && Counted(upsert, b, namespace).Failure? ==>
      Counted(upsert, a + b, namespace) == Counted(upsert, b, namespace)
    ensures Counted(upsert, a, namespace).Success? && Counted(upsert, b, namespace).Success? ==>
      Counted(upsert, a + b, namespace)
        == Success(Counted(upsert, a, namespace).value + Counted(upsert, b, namespace).value)
    decreases |b|
  {
    if b != [] {
      var init := b[..|b| - 1];
      assert (a + b)[..|a + b| - 1] == a + init;
      assert (a + b)[|a + b| - 1] == b[|b| - 1];
      CountedAppend(upsert, a, init, namespace);
    } else {
      assert a + b == a;
    }
  }

  /** The total fails exactly when some batch fails, and then with the error
      of the first batch that fails. */
  lemma {:induction false} CountedFirstFailure(upsert: (seq<VectorRecord>, string) -> Result<nat, string>,
                                               batches: seq<seq<VectorRecord>>, namespace: string)
    ensures Counted(upsert, batches, namespace).Failure?
      <==> exists j :: 0 <= j < |batches| && upsert(batches[j], namespace).Failure?
    ensures Counted(upsert, batches, namespace).Failure? ==>
      exists j :: 0 <= j < |batches| && Counted(upsert, batches, namespace) == upsert(batches[j], namespace)
        && forall i :: 0 <= i < j ==> upsert(batches[i], namespace).Success?
    decreases |batches|
  {
    if batches != [] {
      var init := batches[..|batches| - 1];
      var last := |batches| - 1;
      CountedFirstFailure(upsert, init, namespace);
      assert forall j :: 0 <= j < |init| ==> init[j] == batches[j];
      if Counted(upsert, init, namespace).Success? {
        if Counted(upsert, batches, namespace).Failure? {
          assert forall i :: 0 <= i < last ==> upsert(batches[i], namespace).Success?;
          assert Counted(upsert, batches, namespace) == upsert(batches[last], namespace);
        }
      }
    }
  }

  /** Concatenating the first `k` slices gives the first `k * bs` vectors
      (all of them once `k` reaches the last slice). */
  lemma {:induction false} FlattenSlices(vectors: seq<VectorRecord>, bs: nat, k: nat)
    requires bs >= 1 && k <= NumBatches(|vectors|, bs)
    ensures Flatten(Slices(vectors, bs)[..k]) == vectors[..Min(k * bs, |vectors|)]
  {
    if k > 0 {
      var all := Slices(vectors, bs);
      FlattenSlices(vectors, bs, k - 1);
      BatchesCover(|vectors|, bs, k - 1);
      var lo := (k - 1) * bs;
      var hi := BatchEnd(k - 1, bs, |vectors|);
      assert Flatten(all[..k]) == Flatten(all[..k - 1]) + all[k - 1] by {
        assert all[..k][..k - 1] == all[..k - 1];
      }
      assert Min(k * bs, |vectors|) == hi by {
        assert k * bs == lo + bs;
      }
      assert Flatten(all[..k - 1]) == vectors[..lo];
      assert vectors[..lo] + vectors[lo..hi] == vectors[..hi];
    }
  }

  /** The slices cover the vectors in order; each is non-empty and holds
      `bs` vectors, except the last, which may be shorter. */
  lemma SlicesCover(vectors: seq<VectorRecord>, bs: nat)
    requires bs >= 1
    ensures Flatten(Slices(vectors, bs)) == vectors
    ensures forall k :: 0 <= k < |Slices(vectors, bs)| ==>
      0 < |Slices(vectors, bs)[k]| <= bs
      && (k + 1 < |Slices(vectors, bs)| ==> |Slices(vectors, bs)[k]| == bs)
  {
    var nb := NumBatches(|vectors|, bs);
    FlattenSlices(vectors, bs, nb);
    assert Slices(vectors, bs)[..nb] == Slices(vectors, bs);
    DivBounds(|vectors|, bs);
    forall k | 0 <= k < nb
      ensures 0 < |Slices(vectors, bs)[k]| <= bs
      ensures k + 1 < nb ==> |Slices(vectors, bs)[k]| == bs
    {
      BatchesCover(|vectors|, bs, k);
      assert (k + 1) * bs == k * bs + bs;
    }
  }

  /** What is handed to the index is a prefix of the batches: every batch
      when the total succeeds; otherwise the batches up to the first failing
      one, whose error is the total's. */
  lemma {:induction false} SentShape(upsert: (seq<VectorRecord>, string) -> Result<nat, string>,
                                     batches: seq<seq<VectorRecord>>, namespace: string)
    ensures Sent(upsert, batches, namespace) == batches[..|Sent(upsert, batches, namespace)|]
    ensures forall j :: 0 <= j < |Sent(upsert, batches, namespace)| - 1 ==>
      upsert(Sent(upsert, batches, namespace)[j], namespace).Success?
    ensures Counted(upsert, batches, namespace).Success? ==> Sent(upsert, batches, namespace) == batches
    ensures Counted(upsert, batches, namespace).Failure? ==>
      Sent(upsert, batches, namespace) != []
      && Counted(upsert, batches, namespace)
         == upsert(Sent(upsert, batches, namespace)[|Sent(upsert, batches, namespace)| - 1], namespace)
    decreases |batches|
  {
    if batches != [] {
      var first := [batches[0]];
      var rest := batches[1..];
      assert batches == first + rest;
      assert first[..0] == [];
      CountedAppend(upsert, first, rest, namespace);
      if upsert(batches[0], namespace).Success? {
        SentShape(upsert, rest, namespace);
      }
    }
  }

  /** One more batch: the running total takes in batch `k`'s count, and
      batch `k` is sent, ending what is sent if its call fails. */
  lemma StepOne(upsert: (seq<VectorRecord>, string) -> Result<nat, string>,
                all: seq<seq<VectorRecord>>, k: nat, namespace: string)
    requires k < |all|
    ensures Counted(upsert, all[..k + 1], namespace)
      == match Counted(upsert, all[..k], namespace)
         case Failure(e) => Failure(e)
         case Success(t) =>
           match upsert(all[k], namespace)
           case Failure(e) => Failure(e)
           case Success(c) => Success(t + c)
    ensures Sent(upsert, all[k..], namespace)
      == if upsert(all[k], namespace).Failure? then [all[k]] else [all[k]] + Sent(upsert, all[k + 1..], namespace)
  {
    assert all[..k + 1][..k] == all[..k];
    assert all[k..][1..] == all[k + 1..];
  }

  /** One more batch of the stepped loop, from the total `total` of the
      first `k` batches and the batches `sent` so far: a failing batch ends
      the total with its error and is the last one sent; otherwise its count
      is added and the loop goes on. */
  lemma SendStep(upsert: (seq<VectorRecord>, string) -> Result<nat, string>,
                 all: seq<seq<VectorRecord>>, k: nat, namespace: string, total: nat, sent: seq<seq<VectorRecord>>)
    requires k < |all| && Counted(upsert, all[..k], namespace) == Success(total)
    requires Sent(upsert, all, namespace) == sent + Sent(upsert, all[k..], namespace)
    ensures upsert(all[k], namespace).Failure? ==>
      Counted(upsert, all, namespace) == Failure(upsert(all[k], namespace).error)
      && Sent(upsert, all, namespace) == sent + [all[k]]
    ensures upsert(all[k], namespace).Success? ==>
      Counted(upsert, all[..k + 1], namespace) == Success(total + upsert(all[k], namespace).value)
      && Sent(upsert, all, namespace) == (sent + [all[k]]) + Sent(upsert, all[k + 1..], namespace)
  {
    StepOne(upsert, all, k, namespace);
    if upsert(all[k], namespace).Failure? {
      CountedAppend(upsert, all[..k + 1], all[k + 1..], namespace);
      assert all[..k + 1] + all[k + 1..] == all;
    } else {
      Regroup(sent, [all[k]], Sent(upsert, all[k + 1..], namespace));
    }
  }

  lemma Regroup<T>(a: seq<T>, b: seq<T>, c: seq<T>)
    ensures a + (b + c) == (a + b) + c
  {
  }

  /** Batch `k` of the stepped loop, `vectors[k * bs : k * bs + bs]`, and the
      index's answer to it. */
  method SendOne(upsert: (seq<VectorRecord>, string) -> Result<nat, string>,
                 vectors: seq<VectorRecord>, batchSize: nat, k: nat, namespace: string)
    returns (batch: seq<VectorRecord>, response: Result<nat, string>)
    requires batchSize >= 1 && k < NumBatches(|vectors|, batchSize)
    ensures batch == Slices(vectors, batchSize)[k] && response == upsert(batch, namespace)
  {
    BatchesCover(|vectors|, batchSize, k);
    assert (k + 1) * batchSize == k * batchSize + batchSize;
    var i := k * batchSize;
    batch := vectors[i..Min(i + batchSize, |vectors|)];
    response := upsert(batch, namespace);
  }

  /** The stepped loop of `upsert_batch` for a positive batch size: batch
      after batch (`range(0, n, bs)` visits `ceil(n / bs)` starts), adding
      up the counts, until a call fails. */
  method SendSlices(upsert: (seq<VectorRecord>, string) -> Result<nat, string>,
                    vectors: seq<VectorRecord>, batchSize: nat, namespace: string)
    returns (r: Result<nat, string>, sent: seq<seq<VectorRecord>>)
    requires batchSize >= 1
    ensures r == Counted(upsert, Slices(vectors, batchSize), namespace)
    ensures sent == Sent(upsert, Slices(vectors, batchSize), namespace)
  {
    sent := [];
    var total := 0;
    ghost var all := Slices(vectors, batchSize);
    var starts := (|vectors| + batchSize - 1) / batchSize;
    for k := 0 to starts
      invariant Counted(upsert, all[..k], namespace) == Success(total)
      invariant Sent(upsert, all, namespace) == sent + Sent(upsert, all[k..], namespace)
    {
      var batch, response := SendOne(upsert, vectors, batchSize, k, namespace);
      SendStep(upsert, all, k, namespace, total, sent);
      sent := sent + [batch];
      if response.Failure? {
        r := Failure(response.error);
        return;
      }
      total := total + response.value;
    }
    assert all[..starts] == all && all[starts..] == [];
    r := Success(total);
  }

  /** `upsert_batch`: `range(0, n, batch_size)` raises on a zero step and
      is empty for a negative one; otherwise the slices go out in order and
      a failing call propagates at once. `sent` lists the slices handed to
      the index, the failing one included. */
  method UpsertBatch(upsert: (seq<VectorRecord>, string) -> Result<nat, string>,
                     vectors: seq<VectorRecord>, batchSize: int, namespace: string)
    returns (r: Result<nat, string>, sent: seq<seq<VectorRecord>>)
    ensures batchSize == 0 ==> r == Failure(ZeroStep) && sent == []
    ensures batchSize < 0 ==> r == Success(0) && sent == []
    ensures batchSize > 0 ==> r == Counted(upsert, Slices(vectors, batchSize), namespace)
    ensures batchSize > 0 ==> sent == Sent(upsert, Slices(vectors, batchSize), namespace)
  {
    if batchSize == 0 {
      return Failure(ZeroStep), [];
    } else if batchSize < 0 {
      return Success(0), [];
    }
    r, sent := SendSlices(upsert, vectors, batchSize, namespace);
  }

  /** What `describe_index_stats` reports: one entry per namespace, and the
      index-wide figures. */
  datatype IndexStats = IndexStats(namespaces: map<string, Value>, summary: Record)

  /** `get_index_stats` answers either with the whole statistics or with one
      namespace's entry. */
  datatype StatsView = WholeIndex(stats: IndexStats) | NamespaceView(entry: Value)

  /** `get_index_stats`: a non-empty namespace selects its own entry (`{}`
      when the index has none for it); the empty namespace selects the whole
      statistics; a failing call propagates. */
  function GetIndexStats(describe: Result<IndexStats, string>, namespace: string): (r: Result<StatsView, string>)
    ensures describe.Failure? ==> r == Failure(describe.error)
    ensures describe.Success? && namespace == "" ==> r == Success(WholeIndex(describe.value))
    ensures describe.Success? && namespace != "" && namespace in describe.value.namespaces
      ==> r == Success(NamespaceView(describe.value.namespaces[namespace]))
    ensures describe.Success? && namespace != "" && namespace !in describe.value.namespaces
      ==> r == Success(NamespaceView(VDict(map[], [])))
  {
    match describe
    case Failure(e) => Failure(e)
    case Success(stats) =>
      if namespace != "" then Success(NamespaceView(Get(stats.namespaces, namespace, VDict(map[], []))))
      else Success(WholeIndex(stats))
  }
}
