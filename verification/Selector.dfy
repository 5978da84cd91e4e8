// server/server.go, channel management: which channels a round closes.
// Amounts are unbounded integers; the supply of coins keeps their sums within int64.
module Selector {
  import opened Wrappers
  import opened Rpc
  import opened Policy
  import opened Sequences
  import opened ChanScore

  // ---- data ----

  // A channel as ListChannels returns it.
  datatype Channel = Channel(
    chanPoint: string,
    chanId: nat,
    remotePubkey: string,
    initiator: bool,
    capacity: int,
    localBalance: int,
    remoteBalance: int,
    totalAtomsSent: int)

  datatype ManagedChannel = ManagedChannel(
    chanPoint: string,
    chanId: nat,
    remotePubkey: string,
    lifetime: int,
    capacity: int,
    localBalance: int,
    remoteBalance: int,
    totalAtomsSent: int,
    hasMinLifetime: bool,
    score: real,
    willClose: bool)

  datatype UnmanagedChannel = UnmanagedChannel(
    chanPoint: string,
    chanId: nat,
    capacity: int,
    localBalance: int,
    remoteBalance: int)

  datatype ManagementInfo = ManagementInfo(
    walletBalance: int,
    limboBalance: int,
    totalBalance: int,
    minWalletBalance: int,
    blockHeight: int,
    channels: seq<ManagedChannel>,
    unmanagedChannels: seq<UnmanagedChannel>,
    needsManagement: bool,
    reclaimed: int)

  // What the node reports in one round.
  datatype NodeView = NodeView(walletBalance: int, limboBalances: seq<int>, channels: seq<Channel>, blockHeight: int)

  datatype FetchError = CallFailed | Panicked(panic: Panic)

  // ---- one channel ----

  // The block height in a short channel ID.
  function OpenHeight(chanId: nat): int {
    chanId / 0x100_0000_0000 % 0x100_0000
  }

  predicate IsChannelIgnored(c: Config, ch: Channel) {
    !ch.initiator || ch.chanPoint in c.ignoreChannels || ch.remotePubkey in c.ignoreNodes
  }

  function LifetimeOf(c: Config, height: int, ch: Channel): int {
    Lifetime(height, OpenHeight(ch.chanId), c.targetTimePerBlock)
  }

  function ActivityOf(c: Config, height: int, ch: Channel): Result<real, Panic> {
    ChannelActivity(ch.totalAtomsSent, ch.capacity, LifetimeOf(c, height, ch))
  }

  function AsManaged(c: Config, height: int, ch: Channel): ManagedChannel {
    var lifetime := LifetimeOf(c, height, ch);
    var activity := ActivityOf(c, height, ch);
    ManagedChannel(ch.chanPoint, ch.chanId, ch.remotePubkey, lifetime, ch.capacity, ch.localBalance, ch.remoteBalance,
                   ch.totalAtomsSent, lifetime >= c.minChanLifetime, if activity.Ok? then activity.value else 0.0, false)
  }

  function AsUnmanaged(ch: Channel): UnmanagedChannel {
    UnmanagedChannel(ch.chanPoint, ch.chanId, ch.capacity, ch.localBalance, ch.remoteBalance)
  }

  // ---- lists of channels ----

  function Ignored(c: Config): Channel -> bool { ch => IsChannelIgnored(c, ch) }
  function NotIgnored(c: Config): Channel -> bool { ch => !IsChannelIgnored(c, ch) }
  function Managing(c: Config, height: int): Channel -> ManagedChannel { ch => AsManaged(c, height, ch) }

  function ManagedOf(c: Config, height: int, list: seq<Channel>): seq<ManagedChannel> {
    Map(Managing(c, height), Filter(NotIgnored(c), list))
  }

  function UnmanagedOf(c: Config, list: seq<Channel>): seq<UnmanagedChannel> {
    Map(AsUnmanaged, Filter(Ignored(c), list))
  }

  predicate NoPanic(c: Config, height: int, list: seq<Channel>) {
    forall i :: 0 <= i < |list| && !IsChannelIgnored(c, list[i]) ==> ActivityOf(c, height, list[i]).Ok?
  }

  function LocalBalance(m: ManagedChannel): int { m.localBalance }
  predicate IsEligible(m: ManagedChannel) { m.hasMinLifetime }
  predicate IsClosing(m: ManagedChannel) { m.willClose }
  function Unmark(m: ManagedChannel): ManagedChannel { m.(willClose := false) }
  function Identity(x: int): int { x }

  function Local(chs: seq<ManagedChannel>): int { SumBy(LocalBalance, chs) }
  function Eligible(chs: seq<ManagedChannel>): seq<ManagedChannel> { Filter(IsEligible, chs) }
  function Closing(chs: seq<ManagedChannel>): seq<ManagedChannel> { Filter(IsClosing, chs) }
  function Unmarked(chs: seq<ManagedChannel>): seq<ManagedChannel> { Map(Unmark, chs) }

  ghost predicate SortedByScore(chs: seq<ManagedChannel>) {
    forall i, j :: 0 <= i < j < |chs| ==> chs[i].score <= chs[j].score
  }

  // The local balances that closing the old enough channels among the first k reclaims.
  function ReclaimedBy(chs: seq<ManagedChannel>, k: nat): int
    requires k <= |chs|
  {
    Local(Eligible(chs[..k]))
  }

  // Where closing stops: at the first position that reclaims enough, or at the end.
  predicate IsCut(chs: seq<ManagedChannel>, need: int, cut: nat) {
    && cut <= |chs|
    && (forall k :: 0 <= k < cut ==> ReclaimedBy(chs, k) < need)
    && (cut < |chs| ==> ReclaimedBy(chs, cut) >= need)
  }

  function Cut(chs: seq<ManagedChannel>, need: int, k: nat := 0): (cut: nat)
    requires k <= |chs| && forall j :: 0 <= j < k ==> ReclaimedBy(chs, j) < need
    ensures IsCut(chs, need, cut)
    decreases |chs| - k
  {
    if k == |chs| || ReclaimedBy(chs, k) >= need then k else Cut(chs, need, k + 1)
  }

  lemma CutUnique(chs: seq<ManagedChannel>, need: int, cut: nat)
    requires IsCut(chs, need, cut)
    ensures cut == Cut(chs, need)
  {
    var _, _ := ReclaimedBy(chs, Cut(chs, need)), ReclaimedBy(chs, cut);
  }

  // The old enough channels before the cut are marked.
  function Marked(chs: seq<ManagedChannel>, cut: nat): seq<ManagedChannel> {
    seq(|chs|, i requires 0 <= i < |chs| => chs[i].(willClose := i < cut && chs[i].hasMinLifetime))
  }

  // The balances of a round and the decision they lead to.
  ghost predicate BalancesMatch(c: Config, view: NodeView, info: ManagementInfo) {
    && info.walletBalance == view.walletBalance
    && info.limboBalance == SumBy(Identity, view.limboBalances)
    && info.totalBalance == info.limboBalance + info.walletBalance
    && info.minWalletBalance == c.minWalletBalance
    && info.blockHeight == view.blockHeight
    && (info.needsManagement <==> info.totalBalance < info.minWalletBalance)
  }

  // Which sort is used does not matter: the channels are some sorted arrangement of the
  // managed ones, with exactly the old enough ones before the cut marked.
  ghost predicate ChannelsMatch(managed: seq<ManagedChannel>, need: int, channels: seq<ManagedChannel>, reclaimed: int) {
    var sorted := Unmarked(channels);
    && SortedByScore(sorted)
    && multiset(sorted) == multiset(managed)
    && channels == Marked(sorted, Cut(sorted, need))
    && reclaimed == ReclaimedBy(sorted, Cut(sorted, need))
  }

  // What FetchManagedChannels promises of its result for a node view.
  ghost predicate IsManagement(c: Config, view: NodeView, info: ManagementInfo) {
    && BalancesMatch(c, view, info)
    && info.unmanagedChannels == UnmanagedOf(c, view.channels)
    && ChannelsMatch(ManagedOf(c, view.blockHeight, view.channels), info.minWalletBalance - info.totalBalance,
                     info.channels, info.reclaimed)
  }

  // ---- the in-place sort ----

  method SortByScore(a: array<ManagedChannel>)
    modifies a
    ensures SortedByScore(a[..]) && multiset(a[..]) == old(multiset(a[..]))
  {
    var i := 0;
    while i < a.Length
      invariant 0 <= i <= a.Length
      invariant SortedByScore(a[..i])
      invariant multiset(a[..]) == old(multiset(a[..]))
    {
      SinkInto(a, i);
      i := i + 1;
    }
    assert a[..i] == a[..];
  }

  function Swapped(s: seq<ManagedChannel>, j: nat): seq<ManagedChannel>
    requires 0 < j < |s|
  {
    s[j - 1 := s[j]][j := s[j - 1]]
  }

  // The first i + 1 elements are in order but for the one at j, which may belong further down.
  ghost predicate SinkingAt(s: seq<ManagedChannel>, j: int, i: int) {
    && 0 <= j <= i < |s|
    && forall p, q :: 0 <= p < q <= i && q != j ==> s[p].score <= s[q].score
  }

  lemma SwapSinks(s: seq<ManagedChannel>, j: int, i: int)
    requires SinkingAt(s, j, i) && 0 < j && s[j].score < s[j - 1].score
    ensures SinkingAt(Swapped(s, j), j - 1, i) && multiset(Swapped(s, j)) == multiset(s)
  {}

  lemma SortedSinksAtEnd(s: seq<ManagedChannel>, i: nat)
    requires i < |s| && SortedByScore(s[..i])
    ensures SinkingAt(s, i, i)
  {
    forall p, q | 0 <= p < q < i ensures s[p].score <= s[q].score {
      assert s[..i][p] == s[p] && s[..i][q] == s[q];
    }
  }

  lemma SunkIsSorted(s: seq<ManagedChannel>, j: int, i: int)
    requires SinkingAt(s, j, i) && (j > 0 ==> s[j - 1].score <= s[j].score)
    ensures SortedByScore(s[..i + 1])
  {
    forall p, q | 0 <= p < q <= i ensures s[p].score <= s[q].score {
      assert q == j && p < j - 1 ==> s[p].score <= s[j - 1].score;
    }
  }

  // Moves a[i] down into the sorted part before it.
  method SinkInto(a: array<ManagedChannel>, i: nat)
    requires i < a.Length && SortedByScore(a[..i])
    modifies a
    ensures SortedByScore(a[..i + 1]) && multiset(a[..]) == old(multiset(a[..]))
  {
    var j := i;
    assert a[..][..i] == a[..i];
    SortedSinksAtEnd(a[..], i);
    while j > 0 && a[j].score < a[j - 1].score
      invariant SinkingAt(a[..], j, i)
      invariant multiset(a[..]) == old(multiset(a[..]))
    {
      ghost var was := a[..];
      a[j - 1], a[j] := a[j], a[j - 1];
      assert a[..] == Swapped(was, j);
      SwapSinks(was, j, i);
      j := j - 1;
    }
    SunkIsSorted(a[..], j, i);
    assert a[..][..i + 1] == a[..i + 1];
  }

  // ---- the closing loop ----

  method MarkForClosing(a: array<ManagedChannel>, totalBalance: int, minWalletBalance: int) returns (reclaimed: int)
    requires totalBalance < minWalletBalance
    requires forall i :: 0 <= i < a.Length ==> !a[i].willClose
    modifies a
    ensures a[..] == Marked(old(a[..]), Cut(old(a[..]), minWalletBalance - totalBalance))
    ensures reclaimed == ReclaimedBy(old(a[..]), Cut(old(a[..]), minWalletBalance - totalBalance))
  {
    reclaimed := 0;
    ghost var before := a[..];
    ghost var need := minWalletBalance - totalBalance;
    var i := 0;
    assert a[..] == Marked(before, 0);
    while i < a.Length
      invariant 0 <= i <= a.Length == |before|
      invariant reclaimed == ReclaimedBy(before, i)
      invariant forall k :: 0 <= k <= i ==> ReclaimedBy(before, k) < need
      invariant a[..] == Marked(before, i)
    {
      ReclaimedNext(before, i);
      MarkedNext(before, i);
      if !a[i].hasMinLifetime {
        i := i + 1;
        continue;
      }
      a[i] := a[i].(willClose := true);
      reclaimed := reclaimed + a[i].localBalance;
      i := i + 1;
      if totalBalance + reclaimed >= minWalletBalance {
        break;
      }
    }
    CutUnique(before, need, i);
  }

  lemma MarkedNext(chs: seq<ManagedChannel>, k: nat)
    requires k < |chs| && !chs[k].willClose
    ensures var next := chs[k].(willClose := chs[k].hasMinLifetime);
            Marked(chs, k)[k] == chs[k] && Marked(chs, k + 1) == Marked(chs, k)[k := next]
  {}

  lemma ReclaimedNext(chs: seq<ManagedChannel>, k: nat)
    requires k < |chs|
    ensures Eligible(chs[..k + 1]) == Eligible(chs[..k]) + (if chs[k].hasMinLifetime then [chs[k]] else [])
    ensures ReclaimedBy(chs, k + 1) == ReclaimedBy(chs, k) + (if chs[k].hasMinLifetime then chs[k].localBalance else 0)
  {
    assert chs[..k + 1][..k] == chs[..k];
    SumConcat(LocalBalance, Eligible(chs[..k]), [chs[k]]);
  }

  lemma ClosingSnoc(chs: seq<ManagedChannel>, m: ManagedChannel)
    ensures Closing(chs + [m]) == if m.willClose then Closing(chs) + [m] else Closing(chs)
  {
    assert (chs + [m])[..|chs|] == chs;
  }

  // ---- a round ----

  method FetchManagedChannels(c: Config, walletBalance: Option<int>, limboBalances: Option<seq<int>>,
                              channels: Option<seq<Channel>>, blockHeight: Option<int>)
    returns (r: Result<ManagementInfo, FetchError>)
    ensures r.Ok? <==>
              && walletBalance.Some? && limboBalances.Some? && channels.Some? && blockHeight.Some?
              && NoPanic(c, blockHeight.value, channels.value)
    ensures r.Ok? ==>
              IsManagement(c, NodeView(walletBalance.value, limboBalances.value, channels.value, blockHeight.value), r.value)
    // The balances in the node's own figures, and the decision they lead to.
    ensures r.Ok? ==>
              && r.value.walletBalance == walletBalance.value
              && r.value.limboBalance == SumBy(Identity, limboBalances.value)
              && r.value.totalBalance == walletBalance.value + SumBy(Identity, limboBalances.value)
              && r.value.minWalletBalance == c.minWalletBalance && r.value.blockHeight == blockHeight.value
              && (r.value.needsManagement <==> walletBalance.value + SumBy(Identity, limboBalances.value) < c.minWalletBalance)
    ensures r.Err? && r.error.Panicked? ==>
              && channels.Some? && blockHeight.Some?
              && exists i :: 0 <= i < |channels.value| && !IsChannelIgnored(c, channels.value[i])
                          && ActivityOf(c, blockHeight.value, channels.value[i]) == Err(r.error.panic)
  {
    if walletBalance.None? || limboBalances.None? {
      return Err(CallFailed);
    }
    var limbo := SumLimbo(limboBalances.value);
    var total := limbo + walletBalance.value;
    var needs := total < c.minWalletBalance;
    if channels.None? || blockHeight.None? {
      return Err(CallFailed);
    }
    var managed, unmanaged, panic := Partition(c, blockHeight.value, channels.value);
    if panic.Some? {
      return Err(Panicked(panic.value));
    }
    NothingMarked(c, blockHeight.value, channels.value);
    var arranged, reclaimed := Arrange(managed, total, c.minWalletBalance);
    return Ok(ManagementInfo(walletBalance.value, limbo, total, c.minWalletBalance, blockHeight.value, arranged, unmanaged,
                             needs, reclaimed));
  }

  // Sorts the managed channels in place and, when funds are needed, marks those to close.
  method Arrange(managed: seq<ManagedChannel>, total: int, minWalletBalance: int)
    returns (channels: seq<ManagedChannel>, reclaimed: int)
    requires forall i :: 0 <= i < |managed| ==> !managed[i].willClose
    ensures ChannelsMatch(managed, minWalletBalance - total, channels, reclaimed)
  {
    var a := new ManagedChannel[|managed|](i requires 0 <= i < |managed| => managed[i]);
    assert a[..] == managed;
    SortByScore(a);
    ghost var sorted := a[..];
    StillUnmarked(managed, sorted);
    reclaimed := 0;
    if total < minWalletBalance {
      reclaimed := MarkForClosing(a, total, minWalletBalance);
    } else {
      NoNeedNoMarks(sorted, minWalletBalance - total);
    }
    MarkedMatch(managed, sorted, minWalletBalance - total);
    return a[..], reclaimed;
  }

  lemma StillUnmarked(managed: seq<ManagedChannel>, sorted: seq<ManagedChannel>)
    requires multiset(sorted) == multiset(managed)
    requires forall i :: 0 <= i < |managed| ==> !managed[i].willClose
    ensures forall i :: 0 <= i < |sorted| ==> !sorted[i].willClose
  {
    forall i | 0 <= i < |sorted| ensures !sorted[i].willClose {
      assert sorted[i] in multiset(sorted);
      assert sorted[i] in managed;
    }
  }

  lemma NoNeedNoMarks(sorted: seq<ManagedChannel>, need: int)
    requires need <= 0 && forall i :: 0 <= i < |sorted| ==> !sorted[i].willClose
    ensures Marked(sorted, Cut(sorted, need)) == sorted && ReclaimedBy(sorted, Cut(sorted, need)) == 0
  {
    assert Cut(sorted, need) == 0;
  }

  lemma UnmarkMarked(sorted: seq<ManagedChannel>, cut: nat)
    requires forall i :: 0 <= i < |sorted| ==> !sorted[i].willClose
    ensures Unmarked(Marked(sorted, cut)) == sorted
  {}

  lemma MarkedMatch(managed: seq<ManagedChannel>, sorted: seq<ManagedChannel>, need: int)
    requires SortedByScore(sorted) && multiset(sorted) == multiset(managed)
    requires forall i :: 0 <= i < |sorted| ==> !sorted[i].willClose
    ensures ChannelsMatch(managed, need, Marked(sorted, Cut(sorted, need)), ReclaimedBy(sorted, Cut(sorted, need)))
  {
    UnmarkMarked(sorted, Cut(sorted, need));
  }

  lemma LimboSnoc(amounts: seq<int>, x: int)
    ensures SumBy(Identity, []) == 0 && SumBy(Identity, amounts + [x]) == SumBy(Identity, amounts) + x
  {
    assert (amounts + [x])[..|amounts|] == amounts;
  }

  method SumLimbo(amounts: seq<int>) returns (sum: int)
    ensures sum == SumBy(Identity, amounts)
  {
    sum := 0;
    for i := 0 to |amounts|
      invariant sum == SumBy(Identity, amounts[..i])
    {
      assert amounts[..i + 1][..i] == amounts[..i];
      sum := sum + amounts[i];
    }
    assert amounts[..|amounts|] == amounts;
  }

  // The loop that tells managed from unmanaged channels and scores the former.
  method Partition(c: Config, height: int, list: seq<Channel>)
    returns (managed: seq<ManagedChannel>, unmanaged: seq<UnmanagedChannel>, panic: Option<Panic>)
    ensures panic.None? <==> NoPanic(c, height, list)
    ensures panic.None? ==> managed == ManagedOf(c, height, list) && unmanaged == UnmanagedOf(c, list)
    ensures panic.Some? ==> exists i :: 0 <= i < |list| && !IsChannelIgnored(c, list[i])
                                        && ActivityOf(c, height, list[i]) == Err(panic.value)
  {
    managed, unmanaged, panic := [], [], None;
    for i := 0 to |list|
      invariant panic.None? && NoPanic(c, height, list[..i])
      invariant managed == ManagedOf(c, height, list[..i])
      invariant unmanaged == UnmanagedOf(c, list[..i])
    {
      var ch := list[i];
      PartitionSnoc(c, height, list[..i], ch);
      assert list[..i + 1] == list[..i] + [ch];
      if IsChannelIgnored(c, ch) {
        unmanaged := unmanaged + [AsUnmanaged(ch)];
      } else {
        var activity := ActivityOf(c, height, ch);
        if activity.Err? {
          panic := Some(activity.error);
          return;
        }
        managed := managed + [AsManaged(c, height, ch)];
      }
    }
    assert list[..|list|] == list;
  }

  lemma PartitionSnoc(c: Config, height: int, list: seq<Channel>, ch: Channel)
    ensures ManagedOf(c, height, list + [ch]) ==
            ManagedOf(c, height, list) + (if IsChannelIgnored(c, ch) then [] else [AsManaged(c, height, ch)])
    ensures UnmanagedOf(c, list + [ch]) ==
            UnmanagedOf(c, list) + (if IsChannelIgnored(c, ch) then [AsUnmanaged(ch)] else [])
  {
    FilterConcat(NotIgnored(c), list, [ch]);
    FilterConcat(Ignored(c), list, [ch]);
    MapConcat(Managing(c, height), Filter(NotIgnored(c), list), Filter(NotIgnored(c), [ch]));
    MapConcat(AsUnmanaged, Filter(Ignored(c), list), Filter(Ignored(c), [ch]));
  }

  // No channel is marked before the closing loop.
  lemma NothingMarked(c: Config, height: int, list: seq<Channel>)
    ensures forall i :: 0 <= i < |ManagedOf(c, height, list)| ==> !ManagedOf(c, height, list)[i].willClose
  {}

  // A close call: the node asked, the zero ID if its text is malformed, and the channel.
  datatype CloseCall = CloseCall(nodeID: NodeID, chanPoint: string)

  function CallFor(m: ManagedChannel): CloseCall {
    var parsed := ParseNodeID(m.remotePubkey);
    CloseCall(if parsed.Some? then parsed.value else seq(33, _ => 0), m.chanPoint)
  }

  // The call closes the channel at its channel point with the node that the public key text
  // names, in either letter case; a text that names no node stands for the zero ID.
  lemma CallExactly(m: ManagedChannel, u: NodeID)
    ensures CallFor(m).chanPoint == m.chanPoint
    ensures NodeIDString(u) == LowerCase(m.remotePubkey) ==> CallFor(m).nodeID == u
    ensures (forall w: NodeID :: NodeIDString(w) != LowerCase(m.remotePubkey)) ==>
              CallFor(m).nodeID == seq(33, _ => 0)
  {
    ParseNodeIDExact(m.remotePubkey, u);
    ParseNodeIDExact(m.remotePubkey, CallFor(m).nodeID);
  }

  // The launches of manageChannels: one per channel that will close, in order, no others.
  method ManageChannels(info: ManagementInfo) returns (launched: seq<CloseCall>, remained: int)
    ensures !info.needsManagement ==> launched == []
    ensures info.needsManagement ==>
              && |launched| == |Closing(info.channels)|
              && (forall i :: 0 <= i < |launched| ==> launched[i] == CallFor(Closing(info.channels)[i]))
              && (forall i :: 0 <= i < |launched| ==> launched[i].chanPoint == Closing(info.channels)[i].chanPoint)
              && (forall i, u: NodeID ::
                    (0 <= i < |launched| && NodeIDString(u) == LowerCase(Closing(info.channels)[i].remotePubkey)) ==>
                      launched[i].nodeID == u)
              && remained == |info.channels| - |launched|
  {
    launched, remained := [], |info.channels|;
    if !info.needsManagement {
      return;
    }
    var closing := 0;
    for i := 0 to |info.channels|
      invariant launched == Map(CallFor, Closing(info.channels[..i])) && closing == |launched|
    {
      var m := info.channels[i];
      assert info.channels[..i + 1] == info.channels[..i] + [m];
      ClosingSnoc(info.channels[..i], m);
      if !m.willClose {
        continue;
      }
      MapConcat(CallFor, Closing(info.channels[..i]), [m]);
      closing := closing + 1;
      var nodeID := new NodeIDVar();
      var _ := nodeID.FromString(m.remotePubkey);
      launched := launched + [CloseCall(nodeID.u, m.chanPoint)];
    }
    assert info.channels[..|info.channels|] == info.channels;
    remained := |info.channels| - closing;
    forall i, u: NodeID | 0 <= i < |launched|
      ensures NodeIDString(u) == LowerCase(Closing(info.channels)[i].remotePubkey) ==> launched[i].nodeID == u
    {
      CallExactly(Closing(info.channels)[i], u);
    }
  }
}
