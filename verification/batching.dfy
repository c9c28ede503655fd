/** The multicast delivery batcher: the token list is cut into consecutive
    slices of at most `MaxMulticast` tokens, the gateway is called once per
    slice, and the per-slice success and failure counts are summed. */
module Batching {
  import opened Seqs

  /** The push provider's multicast ceiling. */
  const MaxMulticast: nat := 500

  /** Number of slices the loop produces for `n` tokens: ceil(n / 500). */
  function ChunkCount(n: nat): nat
  {
    (n + MaxMulticast - 1) / MaxMulticast
  }

  /** The slices `tokens[i .. i + 500]` for `i = 0, 500, 1000, ...` while `i < |tokens|`;
      the last slice is clamped to the end of the list. */
  function Chunks<T>(tokens: seq<T>): (r: seq<seq<T>>)
    ensures |r| == ChunkCount(|tokens|)
    ensures |r| == 0 <==> |tokens| == 0
    ensures forall k :: 0 <= k < |r| ==> 0 < |r[k]| <= MaxMulticast
    ensures forall k :: 0 <= k < |r| - 1 ==> |r[k]| == MaxMulticast
  {
    var n := ChunkCount(|tokens|);
    seq(n, k requires 0 <= k < n => tokens[k * MaxMulticast .. Min(k * MaxMulticast + MaxMulticast, |tokens|)])
  }

  /** Peeling off the first slice leaves the slices of the remaining tokens. */
  lemma ChunksUnfold<T>(tokens: seq<T>)
    requires |tokens| > 0
    ensures var h := Min(MaxMulticast, |tokens|);
      Chunks(tokens) == [tokens[..h]] + Chunks(tokens[h..])
  {
    var h := Min(MaxMulticast, |tokens|);
    var rest := tokens[h..];
    var a := Chunks(tokens);
    var b := [tokens[..h]] + Chunks(rest);
    assert |a| == |b|;
    forall k | 0 <= k < |a|
      ensures a[k] == b[k]
    {
      if k > 0 {
        assert h == MaxMulticast;
        assert Chunks(rest)[k - 1] == rest[(k - 1) * MaxMulticast .. Min(k * MaxMulticast, |rest|)];
      }
    }
  }

  /** Concatenating the slices gives back the token list, in order. */
  lemma {:induction false} ChunksFlatten<T>(tokens: seq<T>)
    ensures Flatten(Chunks(tokens)) == tokens
    decreases |tokens|
  {
    if |tokens| > 0 {
      var h := Min(MaxMulticast, |tokens|);
      ChunksUnfold(tokens);
      ChunksFlatten(tokens[h..]);
      assert Chunks(tokens)[1..] == Chunks(tokens[h..]);
      assert tokens == tokens[..h] + tokens[h..];
    }
  }

  /** The counts a gateway reports for one multicast call. */
  datatype Counts = Counts(successCount: nat, failureCount: nat)

  /** Result of `sendToMany`: the summed counts, and the slices handed to the gateway, in call order. */
  datatype Delivery = Delivery(success: nat, failure: nat, batches: seq<seq<string>>)

  /** Sum of the gateway's per-slice counts over a sequence of slices. */
  function Tally<P>(batches: seq<seq<string>>, payload: P, multicast: (seq<string>, P) -> Counts): (r: Counts)
    ensures |batches| == 0 ==> r == Counts(0, 0)
    ensures |batches| == 1 ==> r == multicast(batches[0], payload)
    ensures forall k :: 0 <= k < |batches| ==>
      multicast(batches[k], payload).successCount <= r.successCount
      && multicast(batches[k], payload).failureCount <= r.failureCount
  {
    if |batches| == 0 then Counts(0, 0)
    else
      var head := multicast(batches[0], payload);
      var rest := Tally(batches[1..], payload, multicast);
      assert forall k :: 1 <= k < |batches| ==> batches[k] == batches[1..][k - 1];
      Counts(head.successCount + rest.successCount, head.failureCount + rest.failureCount)
  }

  /** Summing over two runs of slices is the sum of the two runs' totals. */
  lemma {:induction false} TallyAppend<P>(a: seq<seq<string>>, b: seq<seq<string>>, payload: P,
                                          multicast: (seq<string>, P) -> Counts)
    ensures var t := Tally(a + b, payload, multicast);
      var ta := Tally(a, payload, multicast);
      var tb := Tally(b, payload, multicast);
      t.successCount == ta.successCount + tb.successCount && t.failureCount == ta.failureCount + tb.failureCount
    decreases |a|
  {
    if |a| > 0 {
      assert (a + b)[0] == a[0];
      assert (a + b)[1..] == a[1..] + b;
      TallyAppend(a[1..], b, payload, multicast);
    } else {
      assert a + b == b;
    }
  }

  /** A gateway response that accounts for every token of its slice exactly once. */
  predicate Accounts<P>(multicast: (seq<string>, P) -> Counts, payload: P, batch: seq<string>)
  {
    multicast(batch, payload).successCount + multicast(batch, payload).failureCount == |batch|
  }

  /** A gateway response that reports no more successes and no more failures than its slice has tokens. */
  predicate Bounded<P>(multicast: (seq<string>, P) -> Counts, payload: P, batch: seq<string>)
  {
    multicast(batch, payload).successCount <= |batch| && multicast(batch, payload).failureCount <= |batch|
  }

  lemma {:induction false} TallyAccounts<P>(batches: seq<seq<string>>, payload: P, multicast: (seq<string>, P) -> Counts)
    requires forall k :: 0 <= k < |batches| ==> Accounts(multicast, payload, batches[k])
    ensures Tally(batches, payload, multicast).successCount + Tally(batches, payload, multicast).failureCount
         == TotalLength(batches)
    decreases |batches|
  {
    if |batches| > 0 {
      assert Accounts(multicast, payload, batches[0]);
      TallyAccounts(batches[1..], payload, multicast);
    }
  }

  lemma {:induction false} TallyBounded<P>(batches: seq<seq<string>>, payload: P, multicast: (seq<string>, P) -> Counts)
    requires forall k :: 0 <= k < |batches| ==> Bounded(multicast, payload, batches[k])
    ensures Tally(batches, payload, multicast).successCount <= TotalLength(batches)
    ensures Tally(batches, payload, multicast).failureCount <= TotalLength(batches)
    decreases |batches|
  {
    if |batches| > 0 {
      assert Bounded(multicast, payload, batches[0]);
      TallyBounded(batches[1..], payload, multicast);
    }
  }

  /** `sendToMany`: one gateway call per slice of at most 500 tokens, counts summed. */
  function SendToMany<P>(tokens: seq<string>, payload: P, multicast: (seq<string>, P) -> Counts): (r: Delivery)
    ensures Flatten(r.batches) == tokens
    ensures |r.batches| == ChunkCount(|tokens|)
    ensures forall k :: 0 <= k < |r.batches| ==> 0 < |r.batches[k]| <= MaxMulticast
    ensures forall k :: 0 <= k < |r.batches| - 1 ==> |r.batches[k]| == MaxMulticast
    ensures |tokens| == 0 ==> r == Delivery(0, 0, [])
  {
    ChunksFlatten(tokens);
    var batches := Chunks(tokens);
    var total := Tally(batches, payload, multicast);
    Delivery(total.successCount, total.failureCount, batches)
  }

  /** When every call's response accounts for each of its tokens once, the totals add up to the token count. */
  lemma SendToManyAccounts<P>(tokens: seq<string>, payload: P, multicast: (seq<string>, P) -> Counts)
    requires forall c :: c in Chunks(tokens) ==> Accounts(multicast, payload, c)
    ensures var r := SendToMany(tokens, payload, multicast);
      r.success + r.failure == |tokens|
  {
    var batches := Chunks(tokens);
    assert forall k :: 0 <= k < |batches| ==> batches[k] in batches;
    TallyAccounts(batches, payload, multicast);
    ChunksFlatten(tokens);
    FlattenLength(batches);
  }

  /** When no call reports more outcomes than its slice has tokens, neither total exceeds the token count. */
  lemma SendToManyBounded<P>(tokens: seq<string>, payload: P, multicast: (seq<string>, P) -> Counts)
    requires forall c :: c in Chunks(tokens) ==> Bounded(multicast, payload, c)
    ensures var r := SendToMany(tokens, payload, multicast);
      r.success <= |tokens| && r.failure <= |tokens|
  {
    var batches := Chunks(tokens);
    assert forall k :: 0 <= k < |batches| ==> batches[k] in batches;
    TallyBounded(batches, payload, multicast);
    ChunksFlatten(tokens);
    FlattenLength(batches);
  }

  /** `sendToMany` step by step, as the relay runs it: a first loop cuts slices
      `tokens.slice(i, i + 500)` for `i = 0, 500, ...`, a second loop calls the
      gateway on each slice in order and adds its counts to running totals.
      It agrees with the functional model. */
  method SendToManyLoop<P>(tokens: seq<string>, payload: P, multicast: (seq<string>, P) -> Counts)
    returns (success: nat, failure: nat, batches: seq<seq<string>>)
    ensures Delivery(success, failure, batches) == SendToMany(tokens, payload, multicast)
  {
    var chunks: seq<seq<string>> := [];
    var i := 0;
    while i < |tokens|
      invariant i == |chunks| * MaxMulticast
      invariant i < |tokens| + MaxMulticast
      invariant |chunks| <= ChunkCount(|tokens|)
      invariant chunks == Chunks(tokens)[..|chunks|]
    {
      chunks := chunks + [tokens[i .. Min(i + MaxMulticast, |tokens|)]];
      i := i + MaxMulticast;
    }
    assert |chunks| == ChunkCount(|tokens|);
    assert chunks == Chunks(tokens);

    success, failure := 0, 0;
    var k := 0;
    while k < |chunks|
      invariant 0 <= k <= |chunks|
      invariant Tally(chunks[..k], payload, multicast) == Counts(success, failure)
    {
      var resp := multicast(chunks[k], payload);
      success := success + resp.successCount;
      failure := failure + resp.failureCount;
      assert chunks[..k + 1] == chunks[..k] + [chunks[k]];
      TallyAppend(chunks[..k], [chunks[k]], payload, multicast);
      k := k + 1;
    }
    assert chunks[..k] == chunks;
    batches := chunks;
  }
}
