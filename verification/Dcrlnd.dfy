// server/dcrlnd.go: questions put to the underlying node. The answer of each call is a
// parameter; None stands for a call that failed.
module Dcrlnd {
  import opened Wrappers
  import opened Rpc
  import opened Policy
  import opened Widths

  ghost predicate TextsOf(texts: seq<string>, ids: seq<NodeID>) {
    |texts| == |ids| && forall i :: 0 <= i < |ids| ==> texts[i] == NodeIDString(ids[i])
  }

  lemma ListedByText(texts: seq<string>, ids: seq<NodeID>, node: NodeID)
    requires TextsOf(texts, ids)
    ensures NodeIDString(node) in texts <==> node in ids
  {
    forall i | 0 <= i < |ids| ensures texts[i] == NodeIDString(node) <==> ids[i] == node {
      HexInjective(ids[i], node);
    }
  }

  // isConnectedToNode. Peers are compared by text, yet the answer is about node IDs.
  method IsConnectedToNode(peers: Option<seq<string>>, node: NodeID) returns (connected: bool)
    ensures connected <==> peers.Some? && NodeIDString(node) in peers.value
    ensures peers.Some? ==> forall ids: seq<NodeID> :: TextsOf(peers.value, ids) ==> (connected <==> node in ids)
  {
    var wantPeer := NodeIDString(node);
    if peers.Some? {
      forall ids: seq<NodeID> | TextsOf(peers.value, ids) ensures wantPeer in peers.value <==> node in ids {
        ListedByText(peers.value, ids, node);
      }
    }
    if peers.None? {
      return false;
    }
    for i := 0 to |peers.value|
      invariant wantPeer !in peers.value[..i]
    {
      if peers.value[i] == wantPeer {
        return true;
      }
    }
    return false;
  }

  // hasMaxPendingChannels
  function HasMaxPendingChannels(c: Config, pendingOpen: Option<nat>): bool {
    pendingOpen.None? || pendingOpen.value >= c.maxPendingChans
  }

  predicate Int64Amounts(amounts: seq<int>) {
    forall i :: 0 <= i < |amounts| ==> 0 <= amounts[i] < TWO_TO_THE_63
  }

  // The mathematical total.
  function Total(amounts: seq<int>): int {
    if amounts == [] then 0 else amounts[0] + Total(amounts[1..])
  }

  // Scanning the amounts with a uint64 accumulator that stops once it exceeds chanSize.
  predicate Exceeds(sum: nat, amounts: seq<int>, chanSize: nat)
    decreases |amounts|
  {
    if amounts == [] then false
    else
      var next := (sum + AsUint64(amounts[0])) % TWO_TO_THE_64;
      next > chanSize || Exceeds(next, amounts[1..], chanSize)
  }

  lemma {:induction false} TotalNonNegative(amounts: seq<int>)
    requires Int64Amounts(amounts)
    ensures Total(amounts) >= 0
  {
    if amounts != [] {
      TotalNonNegative(amounts[1..]);
    }
  }

  // From a sum that has not passed the size, the accumulator takes one more amount unwrapped.
  lemma OneMoreFits(sum: nat, amount: int)
    requires sum <= TWO_TO_THE_63 && 0 <= amount < TWO_TO_THE_63
    ensures (sum + AsUint64(amount)) % TWO_TO_THE_64 == sum + amount
  {}

  // The early exit and the fixed width do not change the answer.
  lemma {:induction false} ExceedsIsTotal(sum: nat, amounts: seq<int>, chanSize: nat)
    requires Int64Amounts(amounts)
    requires sum <= chanSize <= TWO_TO_THE_63
    ensures Exceeds(sum, amounts, chanSize) <==> sum + Total(amounts) > chanSize
    decreases |amounts|
  {
    if amounts != [] {
      TotalNonNegative(amounts[1..]);
      var next := sum + amounts[0];
      OneMoreFits(sum, amounts[0]);
      if next <= chanSize {
        ExceedsIsTotal(next, amounts[1..], chanSize);
      }
    }
  }

  // For which sizes can the scan be trusted? Exactly those up to 2^63, far above the
  // largest size that the policy admits.
  lemma ScanTrustedExactly(chanSize: nat)
    requires chanSize < TWO_TO_THE_64
    ensures (forall amounts: seq<int> | Int64Amounts(amounts) ::
               Exceeds(0, amounts, chanSize) <==> Total(amounts) > chanSize)
            <==> chanSize <= TWO_TO_THE_63
  {
    if chanSize <= TWO_TO_THE_63 {
      forall amounts: seq<int> | Int64Amounts(amounts)
        ensures Exceeds(0, amounts, chanSize) <==> Total(amounts) > chanSize
      {
        ExceedsIsTotal(0, amounts, chanSize);
      }
    } else {
      WrappedScan(chanSize);
    }
  }

  // The scan can be trusted for every size that start-up validation admits.
  lemma AdmittedSizesTrusted(chanSize: nat, amounts: seq<int>)
    requires chanSize <= 1_073_741_823
    requires forall i :: 0 <= i < |amounts| ==> 0 <= amounts[i] <= 9_223_372_036_854_775_807
    ensures chanSize <= MAX_DCRLND_CHAN_SIZE
    ensures Exceeds(0, amounts, chanSize) <==> Total(amounts) > chanSize
  {
    ExceedsIsTotal(0, amounts, chanSize);
  }

  // Three outputs that total 2^64 bring the accumulator back to zero.
  lemma WrappedScan(chanSize: nat)
    requires TWO_TO_THE_63 < chanSize < TWO_TO_THE_64
    ensures exists amounts: seq<int> :: Int64Amounts(amounts) && !(Exceeds(0, amounts, chanSize) <==> Total(amounts) > chanSize)
  {
    var a := [TWO_TO_THE_63 - 1, 2, TWO_TO_THE_63 - 1];
    assert a[1..] == [2, TWO_TO_THE_63 - 1] && a[1..][1..] == [TWO_TO_THE_63 - 1] && a[1..][1..][1..] == [];
    assert Total(a[1..][1..]) == TWO_TO_THE_63 - 1;
    assert Total(a) == TWO_TO_THE_64;
    assert !Exceeds(TWO_TO_THE_63 + 1, a[1..][1..], chanSize);
    assert !Exceeds(TWO_TO_THE_63 - 1, a[1..], chanSize);
    assert !Exceeds(0, a, chanSize);
    assert Int64Amounts(a);
  }

  // hasUnspentForNewChannel
  method HasUnspentForNewChannel(utxos: Option<seq<int>>, chanSize: nat) returns (enough: bool)
    requires chanSize < TWO_TO_THE_64
    requires utxos.Some? ==> Int64Amounts(utxos.value)
    ensures enough <==> utxos.Some? && Exceeds(0, utxos.value, chanSize)
    ensures chanSize <= TWO_TO_THE_63 ==> (enough <==> utxos.Some? && Total(utxos.value) > chanSize)
  {
    if utxos.None? {
      return false;
    }
    if chanSize <= TWO_TO_THE_63 {
      ExceedsIsTotal(0, utxos.value, chanSize);
    }
    var sum := 0;
    for i := 0 to |utxos.value|
      invariant 0 <= sum <= chanSize
      invariant Exceeds(0, utxos.value, chanSize) <==> Exceeds(sum, utxos.value[i..], chanSize)
    {
      assert utxos.value[i..][1..] == utxos.value[i + 1..];
      sum := (sum + AsUint64(utxos.value[i])) % TWO_TO_THE_64;
      if sum > chanSize {
        return true;
      }
    }
    return false;
  }
}
