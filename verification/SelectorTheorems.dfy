// What the channel-closing selector achieves, for every node view and whichever sort
// arranges the channels.
module SelectorTheorems {
  import opened Policy
  import opened Sequences
  import opened ChanScore
  import opened Selector

  // The channels that a round closes, in the order it closes them.
  function ClosedSet(info: ManagementInfo): seq<ManagedChannel> {
    Unmarked(Closing(info.channels))
  }

  // The channels old enough to be closed, in ascending score.
  function Candidates(info: ManagementInfo): seq<ManagedChannel> {
    Eligible(Unmarked(info.channels))
  }

  function Need(info: ManagementInfo): int {
    info.minWalletBalance - info.totalBalance
  }

  // ---- exact shape of the closed set ----

  // Closing from the front stops as soon as enough is reclaimed and not before.
  ghost predicate StopsRight(all: seq<ManagedChannel>, need: int, closed: seq<ManagedChannel>) {
    && closed <= all
    && (forall n :: 0 <= n < |closed| ==> Local(closed[..n]) < need)
    && (closed == all || Local(closed) >= need)
  }

  lemma {:induction false} ClosingOfMarked(sorted: seq<ManagedChannel>, cut: nat, k: nat)
    requires cut <= |sorted| && k <= |sorted| && forall i :: 0 <= i < |sorted| ==> !sorted[i].willClose
    ensures Unmarked(Closing(Marked(sorted, cut)[..k])) == Eligible(sorted[..if k < cut then k else cut])
  {
    if k > 0 {
      ClosingOfMarked(sorted, cut, k - 1);
      var marked := Marked(sorted, cut);
      assert marked[..k] == marked[..k - 1] + [marked[k - 1]];
      ClosingSnoc(marked[..k - 1], marked[k - 1]);
      if k <= cut {
        ReclaimedNext(sorted, k - 1);
      }
      if marked[k - 1].willClose {
        MapConcat(Unmark, Closing(marked[..k - 1]), [marked[k - 1]]);
      }
    }
  }

  // A prefix of the candidates before the cut are the candidates before an earlier cut.
  lemma {:induction false} EarlierCut(chs: seq<ManagedChannel>, cut: nat, n: nat) returns (k: nat)
    requires cut <= |chs| && n < |Eligible(chs[..cut])|
    ensures k < cut && Eligible(chs[..k]) == Eligible(chs[..cut])[..n]
  {
    ReclaimedNext(chs, cut - 1);
    if n == |Eligible(chs[..cut - 1])| {
      k := cut - 1;
    } else {
      k := EarlierCut(chs, cut - 1, n);
    }
  }

  lemma {:induction false} EligibleSorted(chs: seq<ManagedChannel>)
    requires SortedByScore(chs)
    ensures SortedByScore(Eligible(chs))
    ensures forall m :: m in Eligible(chs) ==> m in chs && m.hasMinLifetime
  {
    if chs != [] {
      EligibleSorted(chs[..|chs| - 1]);
    }
  }

  lemma CutStopsRight(sorted: seq<ManagedChannel>, need: int)
    ensures StopsRight(Eligible(sorted), need, Eligible(sorted[..Cut(sorted, need)]))
  {
    var cut := Cut(sorted, need);
    var closed := Eligible(sorted[..cut]);
    FilterConcat(IsEligible, sorted[..cut], sorted[cut..]);
    assert sorted == sorted[..cut] + sorted[cut..];
    forall n | 0 <= n < |closed| ensures Local(closed[..n]) < need {
      var k := EarlierCut(sorted, cut, n);
      assert ReclaimedBy(sorted, k) < need;
    }
    if cut == |sorted| {
      assert sorted[..cut] == sorted;
    }
  }

  // The closed set is a prefix of the old enough managed channels in ascending score; what
  // it reclaims is the sum of its local balances; every proper prefix of it leaves the total
  // below the minimum; and it reaches the minimum or takes every candidate.
  lemma ClosedSetShape(c: Config, view: NodeView, info: ManagementInfo)
    requires IsManagement(c, view, info)
    ensures SortedByScore(Candidates(info)) && ClosedSet(info) <= Candidates(info)
    ensures info.reclaimed == Local(ClosedSet(info))
    ensures forall n :: 0 <= n < |ClosedSet(info)| ==>
              info.totalBalance + Local(ClosedSet(info)[..n]) < info.minWalletBalance
    ensures || ClosedSet(info) == Candidates(info)
            || info.totalBalance + info.reclaimed >= info.minWalletBalance
    ensures StopsRight(Candidates(info), Need(info), ClosedSet(info))
  {
    var sorted := Unmarked(info.channels);
    var cut := Cut(sorted, Need(info));
    ClosingOfMarked(sorted, cut, |sorted|);
    assert Marked(sorted, cut)[..|sorted|] == info.channels;
    CutStopsRight(sorted, Need(info));
    EligibleSorted(sorted);
  }

  // A round closes nothing exactly when nothing is needed or nothing is old enough.
  lemma RoundIdleExactly(c: Config, view: NodeView, info: ManagementInfo)
    requires IsManagement(c, view, info)
    ensures ClosedSet(info) == [] <==> !info.needsManagement || Candidates(info) == []
  {
    ClosedSetShape(c, view, info);
    var closed := ClosedSet(info);
    assert closed != [] ==> Local(closed[..0]) < Need(info);
  }

  // ---- the worst channel sacrificed is as idle as possible ----

  // The local balances of the channels at the chosen positions.
  function LocalAt(chs: seq<ManagedChannel>, chosen: set<nat>): int {
    if chs == [] then 0
    else
      var n := |chs| - 1;
      LocalAt(chs[..n], chosen) + (if n in chosen then chs[n].localBalance else 0)
  }

  lemma {:induction false} LocalAtBound(chs: seq<ManagedChannel>, chosen: set<nat>, p: nat)
    requires p <= |chs| && forall i :: i in chosen ==> i < p
    requires forall i :: 0 <= i < |chs| ==> chs[i].localBalance >= 0
    ensures LocalAt(chs, chosen) <= Local(chs[..p])
  {
    if chs != [] {
      var n := |chs| - 1;
      if p == |chs| {
        assert chs[..p] == chs;
        var fewer := chosen - {n};
        LocalAtSame(chs[..n], chosen, fewer);
        LocalAtBound(chs[..n], fewer, n);
        assert chs[..n][..n] == chs[..n];
      } else {
        LocalAtBound(chs[..n], chosen, p);
        assert chs[..n][..p] == chs[..p];
      }
    }
  }

  lemma {:induction false} LocalAtSame(chs: seq<ManagedChannel>, chosen: set<nat>, other: set<nat>)
    requires forall i: nat :: i < |chs| ==> (i in chosen <==> i in other)
    ensures LocalAt(chs, chosen) == LocalAt(chs, other)
  {
    if chs != [] {
      LocalAtSame(chs[..|chs| - 1], chosen, other);
    }
  }

  // Greedy closing minimises the worst activity sacrificed: any choice of candidates whose
  // balances also cover the shortfall includes one whose score is at least that of every
  // channel the round closes.
  lemma BottleneckOptimal(c: Config, view: NodeView, info: ManagementInfo, chosen: set<nat>)
    requires IsManagement(c, view, info) && info.needsManagement
    requires forall m :: m in Candidates(info) ==> m.localBalance >= 0
    requires forall i :: i in chosen ==> i < |Candidates(info)|
    requires info.totalBalance + LocalAt(Candidates(info), chosen) >= info.minWalletBalance
    ensures exists i :: i in chosen && forall m :: m in ClosedSet(info) ==> m.score <= Candidates(info)[i].score
  {
    ClosedSetShape(c, view, info);
    var all, closed := Candidates(info), ClosedSet(info);
    var i := ChosenAtOrAfterLast(all, Need(info), closed, chosen);
    PrefixScores(all, closed, i);
  }

  lemma PrefixScores(all: seq<ManagedChannel>, closed: seq<ManagedChannel>, i: nat)
    requires SortedByScore(all) && closed <= all && |closed| - 1 <= i < |all|
    ensures forall m :: m in closed ==> m.score <= all[i].score
  {
    forall j | 0 <= j < |closed| ensures closed[j].score <= all[i].score {
      assert all[j] == closed[j];
    }
  }

  // Choosing only from before the last closed channel does not cover the need.
  lemma ChosenAtOrAfterLast(all: seq<ManagedChannel>, need: int, closed: seq<ManagedChannel>, chosen: set<nat>)
    returns (i: nat)
    requires StopsRight(all, need, closed) && need > 0
    requires forall m :: m in all ==> m.localBalance >= 0
    requires forall i :: i in chosen ==> i < |all|
    requires LocalAt(all, chosen) >= need
    ensures i in chosen && i >= |closed| - 1
  {
    var last := if closed == [] then 0 else |closed| - 1;
    assert all[..last] == closed[..last];
    assert Local(all[..last]) < need;
    if forall j :: j in chosen ==> j < last {
      LocalAtBound(all, chosen, last);
    }
    i :| i in chosen && i >= last;
  }

  // ---- two runs ----

  // The stopping rule leaves no choice, and a larger need only extends the closed prefix.
  lemma LargerNeedExtends(all: seq<ManagedChannel>, need: int, closed: seq<ManagedChannel>,
                          need': int, closed': seq<ManagedChannel>)
    requires need <= need' && StopsRight(all, need, closed) && StopsRight(all, need', closed')
    ensures closed <= closed'
  {
    var n := if |closed'| < |closed| then |closed'| else 0;
    assert closed[..n] == closed'[..n] && closed'[..|closed'|] == closed';
  }

  ghost predicate DistinctScores(chs: seq<ManagedChannel>) {
    forall i, j :: 0 <= i < j < |chs| ==> chs[i].score != chs[j].score
  }

  lemma LastSame(xs: seq<ManagedChannel>, ys: seq<ManagedChannel>)
    requires multiset(xs) == multiset(ys) && SortedByScore(xs) && SortedByScore(ys) && DistinctScores(xs) && xs != []
    ensures |ys| == |xs| && xs[|xs| - 1] == ys[|xs| - 1]
  {
    assert |xs| == |multiset(xs)| == |ys|;
    var n := |xs| - 1;
    assert xs[n] in multiset(ys) && ys[n] in multiset(xs);
    var i :| 0 <= i < |ys| && ys[i] == xs[n];
    var j :| 0 <= j < |xs| && xs[j] == ys[n];
    assert xs[n].score <= ys[n].score && xs[j].score <= xs[n].score;
  }

  lemma ButLast(xs: seq<ManagedChannel>)
    requires xs != []
    ensures multiset(xs[..|xs| - 1]) == multiset(xs) - multiset{xs[|xs| - 1]}
  {
    assert xs == xs[..|xs| - 1] + [xs[|xs| - 1]];
  }

  // Distinct scores admit one sorted arrangement.
  lemma {:induction false} SortedUnique(xs: seq<ManagedChannel>, ys: seq<ManagedChannel>)
    requires multiset(xs) == multiset(ys) && SortedByScore(xs) && SortedByScore(ys) && DistinctScores(xs)
    ensures xs == ys
    decreases |xs|
  {
    if xs == [] {
      assert |multiset(ys)| == 0;
    } else {
      LastSame(xs, ys);
      var n := |xs| - 1;
      ButLast(xs);
      ButLast(ys);
      SortedUnique(xs[..n], ys[..n]);
    }
  }

  // The managed form of a channel does not depend on the minimum balance.
  lemma ManagedIgnoresMinimum(c: Config, minimum: int, height: int, list: seq<Channel>)
    ensures ManagedOf(c.(minWalletBalance := minimum), height, list) == ManagedOf(c, height, list)
  {
    FilterSame(NotIgnored(c), NotIgnored(c.(minWalletBalance := minimum)), list);
  }

  lemma {:induction false} FilterSame<T>(p: T -> bool, q: T -> bool, xs: seq<T>)
    requires forall x :: x in xs ==> p(x) == q(x)
    ensures Filter(p, xs) == Filter(q, xs)
  {
    if xs != [] {
      FilterSame(p, q, xs[..|xs| - 1]);
    }
  }

  lemma ManagedPermutation(c: Config, height: int, xs: seq<Channel>, ys: seq<Channel>)
    requires multiset(xs) == multiset(ys)
    ensures multiset(ManagedOf(c, height, xs)) == multiset(ManagedOf(c, height, ys))
  {
    FilterPermutation(NotIgnored(c), xs, ys);
    MapPermutation(Managing(c, height), Filter(NotIgnored(c), xs), Filter(NotIgnored(c), ys));
  }

  // Rounds at the same height that see the same channels have the same candidates.
  lemma SameCandidates(c: Config, view: NodeView, info: ManagementInfo,
                       minimum: int, view': NodeView, info': ManagementInfo)
    requires IsManagement(c, view, info) && IsManagement(c.(minWalletBalance := minimum), view', info')
    requires view'.blockHeight == view.blockHeight && multiset(view'.channels) == multiset(view.channels)
    ensures multiset(Candidates(info')) == multiset(Candidates(info))
  {
    ManagedIgnoresMinimum(c, minimum, view.blockHeight, view'.channels);
    ManagedPermutation(c, view.blockHeight, view.channels, view'.channels);
    FilterPermutation(IsEligible, Unmarked(info.channels), Unmarked(info'.channels));
  }

  // Raising the minimum or lowering the balances only extends what is closed, whatever
  // order the channels are listed in, when the candidates' scores are pairwise distinct.
  lemma MoreNeedClosesMore(c: Config, view: NodeView, info: ManagementInfo,
                           minimum: int, view': NodeView, info': ManagementInfo)
    requires IsManagement(c, view, info) && IsManagement(c.(minWalletBalance := minimum), view', info')
    requires view'.blockHeight == view.blockHeight && multiset(view'.channels) == multiset(view.channels)
    requires DistinctScores(Candidates(info)) && Need(info) <= Need(info')
    ensures Candidates(info') == Candidates(info)
    ensures ClosedSet(info) <= ClosedSet(info')
  {
    ClosedSetShape(c, view, info);
    ClosedSetShape(c.(minWalletBalance := minimum), view', info');
    SameCandidates(c, view, info, minimum, view', info');
    SortedUnique(Candidates(info), Candidates(info'));
    LargerNeedExtends(Candidates(info), Need(info), ClosedSet(info), Need(info'), ClosedSet(info'));
  }

  // The listing order does not matter: with pairwise distinct scores the same channels close.
  lemma OrderIndependent(c: Config, view: NodeView, info: ManagementInfo, view': NodeView, info': ManagementInfo)
    requires IsManagement(c, view, info) && IsManagement(c, view', info')
    requires view'.blockHeight == view.blockHeight && multiset(view'.channels) == multiset(view.channels)
    requires DistinctScores(Candidates(info)) && info.totalBalance == info'.totalBalance
    ensures ClosedSet(info') == ClosedSet(info)
  {
    assert c.(minWalletBalance := c.minWalletBalance) == c;
    MoreNeedClosesMore(c, view, info, c.minWalletBalance, view', info');
    MoreNeedClosesMore(c, view', info', c.minWalletBalance, view, info);
  }

  // Ties are the only freedom: runs whose sort broke them alike also extend one another.
  lemma SameArrangementExtends(c: Config, view: NodeView, info: ManagementInfo,
                               c': Config, view': NodeView, info': ManagementInfo)
    requires IsManagement(c, view, info) && IsManagement(c', view', info')
    requires Unmarked(info'.channels) == Unmarked(info.channels) && Need(info) <= Need(info')
    ensures ClosedSet(info) <= ClosedSet(info')
  {
    ClosedSetShape(c, view, info);
    ClosedSetShape(c', view', info');
    LargerNeedExtends(Candidates(info), Need(info), ClosedSet(info), Need(info'), ClosedSet(info'));
  }

  // ---- two runs, with ties ----

  function Below(score: real): ManagedChannel -> bool {
    (m: ManagedChannel) => m.score < score
  }

  lemma OnlyBefore(before: seq<ManagedChannel>, rest: seq<ManagedChannel>, score: real)
    requires forall m :: m in before ==> m.localBalance >= 0
    requires forall m :: m in rest ==> score <= m.score
    ensures Local(Filter(Below(score), before + rest)) <= Local(before)
  {
    var low := Below(score);
    FilterConcat(low, before, rest);
    FilterNone(low, rest);
    SumFiltered(LocalBalance, low, before);
    assert Filter(low, before) + [] == Filter(low, before);
  }

  // The channels below a score, among sorted ones, all come before any that has it.
  lemma BelowComesFirst(all: seq<ManagedChannel>, n: nat)
    requires SortedByScore(all) && n < |all| && forall m :: m in all ==> m.localBalance >= 0
    ensures Local(Filter(Below(all[n].score), all)) <= Local(all[..n])
  {
    var before, rest, score := all[..n], all[n..], all[n].score;
    assert all == before + rest;
    forall m | m in rest ensures score <= m.score {
      var i :| 0 <= i < |rest| && rest[i] == m;
      assert all[n + i] == m;
    }
    OnlyBefore(before, rest, score);
  }

  // A prefix that stays below a score reclaims no more than all channels below it.
  lemma PrefixBelow(all: seq<ManagedChannel>, closed: seq<ManagedChannel>, score: real)
    requires closed <= all && forall m :: m in all ==> m.localBalance >= 0
    requires forall m :: m in closed ==> m.score < score
    ensures Local(closed) <= Local(Filter(Below(score), all))
  {
    var low := Below(score);
    var rest := all[|closed|..];
    assert all == closed + rest;
    FilterConcat(low, closed, rest);
    FilterAll(low, closed);
    SumFiltered(LocalBalance, low, rest);
    SumConcat(LocalBalance, closed, Filter(low, rest));
  }

  lemma SameElements(all: seq<ManagedChannel>, all': seq<ManagedChannel>)
    requires multiset(all) == multiset(all')
    ensures forall m :: m in all <==> m in all'
  {
    forall m: ManagedChannel ensures m in all <==> m in all' {
      assert m in all <==> m in multiset(all);
      assert m in all' <==> m in multiset(all');
    }
  }

  // However ties are arranged, a larger need takes channels at least as active.
  lemma LargerNeedWorse(all: seq<ManagedChannel>, need: int, closed: seq<ManagedChannel>,
                        all': seq<ManagedChannel>, need': int, closed': seq<ManagedChannel>)
    requires SortedByScore(all) && SortedByScore(all') && multiset(all) == multiset(all')
    requires forall m :: m in all ==> m.localBalance >= 0
    requires need <= need' && StopsRight(all, need, closed) && StopsRight(all', need', closed')
    requires closed != []
    ensures closed' != [] && closed[|closed| - 1].score <= closed'[|closed'| - 1].score
  {
    var n := |closed| - 1;
    var x := all[n];
    assert closed[n] == x && closed[..n] == all[..n];
    assert Local(all[..n]) < need && Local(closed[..0]) < need;
    SameElements(all, all');
    assert closed' != [];
    if closed'[|closed'| - 1].score < x.score {
      PrefixScores(all', closed', |closed'| - 1);
      PrefixBelow(all', closed', x.score);
      FilterPermutation(Below(x.score), all, all');
      SumPermutation(LocalBalance, Filter(Below(x.score), all), Filter(Below(x.score), all'));
      BelowComesFirst(all, n);
    }
  }

  function Worst(info: ManagementInfo): real
    requires ClosedSet(info) != []
  {
    ClosedSet(info)[|ClosedSet(info)| - 1].score
  }

  // Whatever the ties, the listing order and the sort: with balances that are not negative,
  // raising the minimum or lowering the balances never lowers the worst activity sacrificed.
  lemma WorstNeverFalls(c: Config, view: NodeView, info: ManagementInfo,
                        minimum: int, view': NodeView, info': ManagementInfo)
    requires IsManagement(c, view, info) && IsManagement(c.(minWalletBalance := minimum), view', info')
    requires view'.blockHeight == view.blockHeight && multiset(view'.channels) == multiset(view.channels)
    requires forall m :: m in Candidates(info) ==> m.localBalance >= 0
    requires Need(info) <= Need(info') && ClosedSet(info) != []
    ensures ClosedSet(info') != [] && Worst(info) <= Worst(info')
    ensures forall m :: m in ClosedSet(info) ==> m.score <= Worst(info)
  {
    ClosedSetShape(c, view, info);
    ClosedSetShape(c.(minWalletBalance := minimum), view', info');
    SameCandidates(c, view, info, minimum, view', info');
    LargerNeedWorse(Candidates(info), Need(info), ClosedSet(info), Candidates(info'), Need(info'), ClosedSet(info'));
    PrefixScores(Candidates(info), ClosedSet(info), |ClosedSet(info)| - 1);
  }

  // A candidate below the worst score closed is closed.
  lemma BelowWorstCloses(c: Config, view: NodeView, info: ManagementInfo, m: ManagedChannel)
    requires IsManagement(c, view, info) && ClosedSet(info) != []
    requires m in Candidates(info) && m.score < Worst(info)
    ensures m in ClosedSet(info)
  {
    ClosedSetShape(c, view, info);
    var all, closed := Candidates(info), ClosedSet(info);
    var i :| 0 <= i < |all| && all[i] == m;
    var last := |closed| - 1;
    assert all[last] == closed[last];
    if i < last {
      assert closed[i] == m;
    }
  }

  lemma SharedBelowWorst(c: Config, view: NodeView, info: ManagementInfo, view': NodeView, info': ManagementInfo,
                         m: ManagedChannel)
    requires IsManagement(c, view, info) && IsManagement(c, view', info')
    requires ClosedSet(info) != [] && ClosedSet(info') != [] && Worst(info) == Worst(info')
    requires multiset(Candidates(info')) == multiset(Candidates(info))
    requires m in ClosedSet(info) && m.score != Worst(info)
    ensures m in ClosedSet(info')
  {
    ClosedSetShape(c, view, info);
    PrefixScores(Candidates(info), ClosedSet(info), |ClosedSet(info)| - 1);
    SameElements(Candidates(info), Candidates(info'));
    BelowWorstCloses(c, view', info', m);
  }

  // At equal need the listing order and the sort can only choose among the channels that
  // score exactly the worst activity sacrificed, which is the same for all of them.
  lemma TiesAreTheOnlyChoice(c: Config, view: NodeView, info: ManagementInfo, view': NodeView, info': ManagementInfo)
    requires IsManagement(c, view, info) && IsManagement(c, view', info')
    requires view'.blockHeight == view.blockHeight && multiset(view'.channels) == multiset(view.channels)
    requires forall m :: m in Candidates(info) ==> m.localBalance >= 0
    requires info.totalBalance == info'.totalBalance
    ensures ClosedSet(info) != [] <==> ClosedSet(info') != []
    ensures ClosedSet(info) != [] ==>
              && Worst(info) == Worst(info')
              && forall m: ManagedChannel :: m.score != Worst(info) ==> (m in ClosedSet(info) <==> m in ClosedSet(info'))
  {
    assert c.(minWalletBalance := c.minWalletBalance) == c;
    SameCandidates(c, view, info, c.minWalletBalance, view', info');
    SameElements(Candidates(info), Candidates(info'));
    if ClosedSet(info) != [] {
      WorstNeverFalls(c, view, info, c.minWalletBalance, view', info');
    }
    if ClosedSet(info') != [] {
      WorstNeverFalls(c, view', info', c.minWalletBalance, view, info);
    }
    if ClosedSet(info) != [] {
      forall m: ManagedChannel | m.score != Worst(info) ensures m in ClosedSet(info) <==> m in ClosedSet(info') {
        if m in ClosedSet(info) {
          SharedBelowWorst(c, view, info, view', info', m);
        }
        if m in ClosedSet(info') {
          SharedBelowWorst(c, view', info', view, info, m);
        }
      }
    }
  }

  // ---- rounds are stable ----

  function ListedLocal(ch: Channel): int { ch.localBalance }

  // One for a channel that a round at this height could close.
  function Closable(c: Config, height: int): Channel -> int {
    ch => if !IsChannelIgnored(c, ch) && AsManaged(c, height, ch).hasMinLifetime then 1 else 0
  }

  function One(m: ManagedChannel): int { if m.hasMinLifetime then 1 else 0 }

  lemma {:induction false} CountEligible(chs: seq<ManagedChannel>)
    ensures |Eligible(chs)| == SumBy(One, chs)
  {
    if chs != [] {
      CountEligible(chs[..|chs| - 1]);
    }
  }

  lemma ManagedSnoc(c: Config, height: int, list: seq<Channel>)
    requires list != []
    ensures var n := |list| - 1;
            ManagedOf(c, height, list) ==
            ManagedOf(c, height, list[..n]) + (if IsChannelIgnored(c, list[n]) then [] else [AsManaged(c, height, list[n])])
  {
    var n := |list| - 1;
    assert list == list[..n] + [list[n]];
    PartitionSnoc(c, height, list[..n], list[n]);
  }

  // Counting closable channels on the list or after managing them is the same.
  lemma {:induction false} CountClosable(c: Config, height: int, list: seq<Channel>)
    ensures SumBy(One, ManagedOf(c, height, list)) == SumBy(Closable(c, height), list)
  {
    if list != [] {
      var n := |list| - 1;
      CountClosable(c, height, list[..n]);
      ManagedSnoc(c, height, list);
      SumConcat(One, ManagedOf(c, height, list[..n]), [AsManaged(c, height, list[n])]);
    }
  }

  lemma {:induction false} LocalOfManaged(c: Config, height: int, list: seq<Channel>)
    requires forall ch :: ch in list ==> !IsChannelIgnored(c, ch)
    ensures Local(ManagedOf(c, height, list)) == SumBy(ListedLocal, list)
  {
    if list != [] {
      var n := |list| - 1;
      LocalOfManaged(c, height, list[..n]);
      ManagedSnoc(c, height, list);
      SumConcat(LocalBalance, ManagedOf(c, height, list[..n]), [AsManaged(c, height, list[n])]);
    }
  }

  lemma {:induction false} AllEligible(chs: seq<ManagedChannel>)
    requires forall m :: m in chs ==> m.hasMinLifetime
    ensures SumBy(One, chs) == |chs|
  {
    if chs != [] {
      AllEligible(chs[..|chs| - 1]);
    }
  }

  // `closed` are the listed channels that a round closed; `after` lists the others.
  ghost predicate ClosedLeave(c: Config, view: NodeView, info: ManagementInfo, closed: seq<Channel>, after: seq<Channel>) {
    && multiset(view.channels) == multiset(after + closed)
    && (forall ch :: ch in closed ==> !IsChannelIgnored(c, ch))
    && multiset(ManagedOf(c, view.blockHeight, closed)) == multiset(ClosedSet(info))
  }

  lemma ClosedLocal(c: Config, view: NodeView, info: ManagementInfo, closed: seq<Channel>, after: seq<Channel>)
    requires IsManagement(c, view, info) && ClosedLeave(c, view, info, closed, after)
    ensures SumBy(ListedLocal, view.channels) == SumBy(ListedLocal, after) + info.reclaimed
  {
    ClosedSetShape(c, view, info);
    SumPermutation(ListedLocal, view.channels, after + closed);
    SumConcat(ListedLocal, after, closed);
    LocalOfManaged(c, view.blockHeight, closed);
    SumPermutation(LocalBalance, ManagedOf(c, view.blockHeight, closed), ClosedSet(info));
  }

  // What a round leaves on the list are the candidates it did not close.
  lemma CandidatesLeft(c: Config, view: NodeView, info: ManagementInfo, closed: seq<Channel>, after: seq<Channel>)
    requires IsManagement(c, view, info) && ClosedLeave(c, view, info, closed, after)
    ensures |Eligible(ManagedOf(c, view.blockHeight, after))| == |Candidates(info)| - |ClosedSet(info)|
  {
    var h := view.blockHeight;
    ClosedSetShape(c, view, info);
    EligibleSorted(Unmarked(info.channels));
    CountEligible(Unmarked(info.channels));
    SumPermutation(One, Unmarked(info.channels), ManagedOf(c, h, view.channels));
    CountClosable(c, h, view.channels);
    SumPermutation(Closable(c, h), view.channels, after + closed);
    SumConcat(Closable(c, h), after, closed);
    CountClosable(c, h, closed);
    SumPermutation(One, ManagedOf(c, h, closed), ClosedSet(info));
    AllEligible(ClosedSet(info));
    CountClosable(c, h, after);
    CountEligible(ManagedOf(c, h, after));
  }

  // A second round at the same height closes nothing exactly when the balances it sees
  // reach the minimum or the first round took all candidates.
  lemma SecondRoundIdleExactly(c: Config, view: NodeView, info: ManagementInfo, closed: seq<Channel>,
                               view': NodeView, info': ManagementInfo)
    requires IsManagement(c, view, info) && IsManagement(c, view', info')
    requires view'.blockHeight == view.blockHeight && ClosedLeave(c, view, info, closed, view'.channels)
    ensures ClosedSet(info') == [] <==>
              info'.totalBalance >= info'.minWalletBalance || ClosedSet(info) == Candidates(info)
  {
    ClosedSetShape(c, view, info);
    RoundIdleExactly(c, view', info');
    CandidatesLeft(c, view, info, closed, view'.channels);
    var managed := ManagedOf(c, view.blockHeight, view'.channels);
    CountEligible(Unmarked(info'.channels));
    CountEligible(managed);
    SumPermutation(One, Unmarked(info'.channels), managed);
    assert |Candidates(info')| == |Candidates(info)| - |ClosedSet(info)|;
  }

  // If the channels closed in one round leave the list and their balances appear in wallet
  // or limbo, the sum of wallet, limbo and listed balances is conserved, and a second round
  // at the same height closes nothing, whether or not the first reached the minimum.
  lemma RoundsAreStable(c: Config, view: NodeView, info: ManagementInfo, closed: seq<Channel>,
                        view': NodeView, info': ManagementInfo)
    requires IsManagement(c, view, info) && IsManagement(c, view', info')
    requires view'.blockHeight == view.blockHeight
    requires ClosedLeave(c, view, info, closed, view'.channels)
    requires info'.totalBalance == info.totalBalance + info.reclaimed
    ensures info'.totalBalance + SumBy(ListedLocal, view'.channels) == info.totalBalance + SumBy(ListedLocal, view.channels)
    ensures ClosedSet(info') == [] && info'.reclaimed == 0
  {
    ClosedLocal(c, view, info, closed, view'.channels);
    ClosedSetShape(c, view, info);
    ClosedSetShape(c, view', info');
    SecondRoundIdleExactly(c, view, info, closed, view', info');
  }

  // ---- managed and unmanaged channels partition the list ----

  function ListedPoint(ch: Channel): string { ch.chanPoint }
  function ManagedPoint(m: ManagedChannel): string { m.chanPoint }
  function UnmanagedPoint(u: UnmanagedChannel): string { u.chanPoint }

  lemma {:induction false} FiltersPartition(c: Config, list: seq<Channel>)
    ensures multiset(Filter(NotIgnored(c), list) + Filter(Ignored(c), list)) == multiset(list)
  {
    if list != [] {
      FiltersPartition(c, list[..|list| - 1]);
      assert list == list[..|list| - 1] + [list[|list| - 1]];
    }
  }

  // Every listed channel is managed or unmanaged, once each, and none is invented; sorting
  // and marking keep it so.
  lemma ManagedPlusUnmanaged(c: Config, view: NodeView, info: ManagementInfo)
    requires IsManagement(c, view, info)
    ensures multiset(Map(ManagedPoint, info.channels)) + multiset(Map(UnmanagedPoint, info.unmanagedChannels))
            == multiset(Map(ListedPoint, view.channels))
  {
    var managed, ignored := Filter(NotIgnored(c), view.channels), Filter(Ignored(c), view.channels);
    FiltersPartition(c, view.channels);
    MapPermutation(ListedPoint, managed + ignored, view.channels);
    MapConcat(ListedPoint, managed, ignored);
    var sorted := Unmarked(info.channels);
    MapPermutation(ManagedPoint, sorted, ManagedOf(c, view.blockHeight, view.channels));
    assert Map(ManagedPoint, info.channels) == Map(ManagedPoint, sorted);
    assert Map(ManagedPoint, ManagedOf(c, view.blockHeight, view.channels)) == Map(ListedPoint, managed);
    assert Map(UnmanagedPoint, info.unmanagedChannels) == Map(ListedPoint, ignored);
  }

  // ---- the decision in terms of the listed channels ----

  // The listed channels are confirmed at or below the block height, and their lifetimes fit
  // an int64. A short channel ID holds the height of its block above 40 bits.
  ghost predicate Confirmed(c: Config, view: NodeView) {
    && 0 <= view.blockHeight < 4_294_967_296 && 0 < c.targetTimePerBlock
    && forall ch :: ch in view.channels ==>
         && ch.chanId < 18_446_744_073_709_551_616
         && ch.chanId / 1_099_511_627_776 <= view.blockHeight
         && (view.blockHeight - ch.chanId / 1_099_511_627_776) * c.targetTimePerBlock < 9_223_372_036_854_775_808
  }

  function Age(c: Config, view: NodeView, ch: Channel): int {
    (view.blockHeight - ch.chanId / 1_099_511_627_776) * c.targetTimePerBlock
  }

  ghost predicate IsManaged(c: Config, ch: Channel) {
    ch.initiator && ch.chanPoint !in c.ignoreChannels && ch.remotePubkey !in c.ignoreNodes
  }

  // m is the managed form of ch: its fields, its age, whether that is enough, and the share
  // of the capacity sent per whole hour.
  ghost predicate Presents(c: Config, view: NodeView, ch: Channel, m: ManagedChannel) {
    && m.chanPoint == ch.chanPoint && m.chanId == ch.chanId && m.remotePubkey == ch.remotePubkey
    && m.capacity == ch.capacity && m.localBalance == ch.localBalance && m.remoteBalance == ch.remoteBalance
    && m.totalAtomsSent == ch.totalAtomsSent
    && m.lifetime == (view.blockHeight - ch.chanId / 1_099_511_627_776) * c.targetTimePerBlock
    && (m.hasMinLifetime <==> m.lifetime >= c.minChanLifetime)
    && (ch.capacity > 0 && m.lifetime > 0 ==>
          var hours := m.lifetime / 3_600_000_000_000;
          m.score * ch.capacity as real * (if hours >= 1 then hours else 1) as real == ch.totalAtomsSent as real)
  }

  lemma OpenHeightExact(chanId: nat)
    requires chanId < 18_446_744_073_709_551_616
    ensures 0 <= OpenHeight(chanId) == chanId / 1_099_511_627_776 < 16_777_216
  {}

  lemma LifetimeIsAge(c: Config, view: NodeView, ch: Channel)
    requires Confirmed(c, view) && ch in view.channels
    ensures 0 <= LifetimeOf(c, view.blockHeight, ch) == Age(c, view, ch)
    ensures ActivityOf(c, view.blockHeight, ch).Ok? <==> ch.capacity > 0 && ch.chanId / 1_099_511_627_776 < view.blockHeight
  {
    OpenHeightExact(ch.chanId);
    NoPanicExactly(view.blockHeight, OpenHeight(ch.chanId), c.targetTimePerBlock, ch.totalAtomsSent, ch.capacity);
    Products(0, 0, view.blockHeight - OpenHeight(ch.chanId), c.targetTimePerBlock);
  }

  lemma ManagedPresents(c: Config, view: NodeView, ch: Channel)
    requires Confirmed(c, view) && ch in view.channels
    ensures Presents(c, view, ch, AsManaged(c, view.blockHeight, ch))
  {
    LifetimeIsAge(c, view, ch);
    var lifetime := Age(c, view, ch);
    if ch.capacity > 0 && lifetime > 0 {
      var hours := lifetime / 3_600_000_000_000;
      ScoreMeaning(ch.totalAtomsSent, ch.capacity, lifetime, hours, lifetime - hours * 3_600_000_000_000);
    }
  }

  // Fetching panics exactly on a managed channel without capacity or of the current block.
  lemma PanicsExactly(c: Config, view: NodeView)
    requires Confirmed(c, view)
    ensures NoPanic(c, view.blockHeight, view.channels) <==>
            forall i :: 0 <= i < |view.channels| && IsManaged(c, view.channels[i]) ==>
              view.channels[i].capacity > 0 && view.channels[i].chanId / 1_099_511_627_776 < view.blockHeight
  {
    forall i | 0 <= i < |view.channels|
      ensures IsManaged(c, view.channels[i]) <==> !IsChannelIgnored(c, view.channels[i])
      ensures ActivityOf(c, view.blockHeight, view.channels[i]).Ok? <==>
                view.channels[i].capacity > 0 && view.channels[i].chanId / 1_099_511_627_776 < view.blockHeight
    {
      LifetimeIsAge(c, view, view.channels[i]);
    }
  }

  lemma Filtered<T>(p: T -> bool, xs: seq<T>, x: T)
    ensures x in Filter(p, xs) <==> p(x) && x in xs
  {
    FilterOccurrences(p, xs, x);
    assert x in Filter(p, xs) <==> x in multiset(Filter(p, xs));
    assert x in xs <==> x in multiset(xs);
  }

  // Every channel of the result presents a listed channel that this side opened and that
  // is not ignored.
  lemma ManagedIsListed(c: Config, view: NodeView, info: ManagementInfo, m: ManagedChannel) returns (ch: Channel)
    requires IsManagement(c, view, info) && Confirmed(c, view) && m in Unmarked(info.channels)
    ensures ch in view.channels && ch.initiator && ch.chanPoint !in c.ignoreChannels && ch.remotePubkey !in c.ignoreNodes
    ensures Presents(c, view, ch, m)
  {
    var managed := ManagedOf(c, view.blockHeight, view.channels);
    SameElements(Unmarked(info.channels), managed);
    var i :| 0 <= i < |managed| && managed[i] == m;
    ch := Filter(NotIgnored(c), view.channels)[i];
    Filtered(NotIgnored(c), view.channels, ch);
    ManagedPresents(c, view, ch);
  }

  // Every such listed channel is presented.
  lemma ListedIsManaged(c: Config, view: NodeView, info: ManagementInfo, ch: Channel) returns (m: ManagedChannel)
    requires IsManagement(c, view, info) && Confirmed(c, view)
    requires ch in view.channels && ch.initiator && ch.chanPoint !in c.ignoreChannels && ch.remotePubkey !in c.ignoreNodes
    ensures m in Unmarked(info.channels) && Presents(c, view, ch, m)
  {
    m := AsManaged(c, view.blockHeight, ch);
    var managed := ManagedOf(c, view.blockHeight, view.channels);
    Filtered(NotIgnored(c), view.channels, ch);
    var i :| 0 <= i < |managed| && Filter(NotIgnored(c), view.channels)[i] == ch;
    assert managed[i] == m;
    SameElements(Unmarked(info.channels), managed);
    ManagedPresents(c, view, ch);
  }

  // A channel closes only if this side opened it, neither it nor its peer is ignored, and
  // its age is at least the minimum.
  lemma ClosedIsOldEnough(c: Config, view: NodeView, info: ManagementInfo, m: ManagedChannel) returns (ch: Channel)
    requires IsManagement(c, view, info) && Confirmed(c, view) && m in ClosedSet(info)
    ensures ch in view.channels && ch.initiator && ch.chanPoint !in c.ignoreChannels && ch.remotePubkey !in c.ignoreNodes
    ensures (view.blockHeight - ch.chanId / 1_099_511_627_776) * c.targetTimePerBlock >= c.minChanLifetime
    ensures Presents(c, view, ch, m)
  {
    ClosedSetShape(c, view, info);
    EligibleSorted(Unmarked(info.channels));
    assert m in Candidates(info);
    ch := ManagedIsListed(c, view, info, m);
  }

  // And every such channel is a candidate for closing.
  lemma OldEnoughIsCandidate(c: Config, view: NodeView, info: ManagementInfo, ch: Channel) returns (m: ManagedChannel)
    requires IsManagement(c, view, info) && Confirmed(c, view)
    requires ch in view.channels && ch.initiator && ch.chanPoint !in c.ignoreChannels && ch.remotePubkey !in c.ignoreNodes
    requires (view.blockHeight - ch.chanId / 1_099_511_627_776) * c.targetTimePerBlock >= c.minChanLifetime
    ensures m in Candidates(info) && Presents(c, view, ch, m)
  {
    m := ListedIsManaged(c, view, info, ch);
    Filtered(IsEligible, Unmarked(info.channels), m);
  }

  // The unmanaged channels are exactly the listed ones that the peer opened or that are
  // ignored, with their fields.
  lemma UnmanagedExactly(c: Config, view: NodeView, info: ManagementInfo, u: UnmanagedChannel)
    requires IsManagement(c, view, info)
    ensures u in info.unmanagedChannels <==>
            exists ch :: ch in view.channels
              && (!ch.initiator || ch.chanPoint in c.ignoreChannels || ch.remotePubkey in c.ignoreNodes)
              && u.chanPoint == ch.chanPoint && u.chanId == ch.chanId && u.capacity == ch.capacity
              && u.localBalance == ch.localBalance && u.remoteBalance == ch.remoteBalance
  {
    var ignored := Filter(Ignored(c), view.channels);
    if u in info.unmanagedChannels {
      var i :| 0 <= i < |ignored| && AsUnmanaged(ignored[i]) == u;
      Filtered(Ignored(c), view.channels, ignored[i]);
    }
    forall ch | ch in view.channels && IsChannelIgnored(c, ch) ensures AsUnmanaged(ch) in info.unmanagedChannels {
      Filtered(Ignored(c), view.channels, ch);
      var i :| 0 <= i < |ignored| && ignored[i] == ch;
      assert info.unmanagedChannels[i] == AsUnmanaged(ch);
    }
  }
}
