// The configured policy and the amounts computed from it.
module Policy {
  import opened Wrappers
  import opened Rpc
  import opened Widths

  // A channel request: the record kept on disk until its invoice is paid.
  datatype WaitingInvoice = WaitingInvoice(targetNode: NodeID, channelSize: nat)

  datatype Config = Config(
    maxPendingChans: nat,
    minChanSize: nat,
    maxChanSize: nat,
    maxNbChannels: nat,
    minWalletBalance: int,
    minChanLifetime: int,
    invoiceExpiration: int,
    targetTimePerBlock: int,
    ignoreChannels: set<string>,
    ignoreNodes: set<string>,
    // The fee rate and every amount derived from it are exact here.
    feeRate: real)

  // The largest channel size that start-up validation accepts as a maximum.
  const MAX_DCRLND_CHAN_SIZE := 0x3fff_ffff

  // The amount to be paid for a channel of the given size.
  function AmountForNewChan(c: Config, chanSize: nat): (amount: int)
    ensures amount as real <= chanSize as real * c.feeRate < amount as real + 1.0
  {
    (chanSize as real * c.feeRate).Floor
  }

  // The least payment that the listener accepts for a record.
  function WantAtoms(c: Config, inv: WaitingInvoice): int {
    AsInt64(AmountForNewChan(c, inv.channelSize))
  }

  // The listener's test of a payment; an int64 amount.
  predicate PaysFor(c: Config, inv: WaitingInvoice, paid: int) {
    paid >= WantAtoms(c, inv)
  }

  // Every fee within the policy fits an int64.
  predicate FeesFit(c: Config) {
    0.0 <= c.feeRate && AmountForNewChan(c, c.maxChanSize) < TWO_TO_THE_63
  }

  lemma FeeMonotone(c: Config, small: nat, large: nat)
    requires 0.0 <= c.feeRate && small <= large
    ensures 0 <= AmountForNewChan(c, small) <= AmountForNewChan(c, large)
  {
    var d := (large - small) as real * c.feeRate;
    assert large as real * c.feeRate == small as real * c.feeRate + d;
    assert d >= 0.0 && small as real * c.feeRate >= 0.0;
  }

  // A fee that fits an int64 is what the invoice asks for and the listener wants.
  lemma FeeUncast(c: Config, inv: WaitingInvoice)
    requires 0.0 <= c.feeRate && (inv.channelSize as real * c.feeRate).Floor < TWO_TO_THE_63
    ensures 0 <= WantAtoms(c, inv) == (inv.channelSize as real * c.feeRate).Floor
  {
    FeeMonotone(c, 0, inv.channelSize);
    assert 0 <= AmountForNewChan(c, inv.channelSize) < TWO_TO_THE_63;
    assert WantAtoms(c, inv) == AmountForNewChan(c, inv.channelSize);
  }

  // While the fee fits an int64 a payment is accepted exactly when it is not below the fee,
  // overpayments included.
  lemma AcceptedExactly(c: Config, inv: WaitingInvoice, paid: int)
    requires 0.0 <= c.feeRate && (inv.channelSize as real * c.feeRate).Floor < TWO_TO_THE_63
    ensures PaysFor(c, inv, paid) <==> paid >= (inv.channelSize as real * c.feeRate).Floor
  {
    FeeUncast(c, inv);
  }

  // The listener refuses every payment below the fee of a channel exactly when that fee
  // fits an int64; a larger fee turns negative in the comparison.
  lemma SettlementCheckExact(c: Config, inv: WaitingInvoice)
    requires 0.0 <= c.feeRate && AmountForNewChan(c, inv.channelSize) < TWO_TO_THE_64
    ensures (forall paid: int | 0 <= paid < TWO_TO_THE_63 && PaysFor(c, inv, paid) ::
               paid >= AmountForNewChan(c, inv.channelSize))
            <==> AmountForNewChan(c, inv.channelSize) < TWO_TO_THE_63
  {
    FeeMonotone(c, 0, inv.channelSize);
    var amount := AmountForNewChan(c, inv.channelSize);
    if amount >= TWO_TO_THE_63 {
      assert WantAtoms(c, inv) < 0;
      assert PaysFor(c, inv, 0) && 0 < amount;
    }
  }

  datatype PolicyError =
    | TooSmallChan
    | TooLargeChan
    | IgnoredNode
    | ListChannelsFailed
    | TooManyOpenChans
    | PeerUnconnected
    | NotEnoughUtxos
    | TooManyPendingChans
    | HasPendingOpenChan

  // canCreateChannel; `listed` is the number of channels that ListChannels returned, or
  // None when that call failed.
  function CanCreateChannel(c: Config, wv: WaitingInvoice, listed: Option<nat>): (r: Option<PolicyError>)
    ensures r.None? <==>
              && c.minChanSize <= wv.channelSize <= c.maxChanSize
              && NodeIDString(wv.targetNode) !in c.ignoreNodes
              && listed.Some? && listed.value < c.maxNbChannels
    // The first check that fails gives the reason.
    ensures r == Some(TooSmallChan) <==> wv.channelSize < c.minChanSize
    ensures r == Some(TooLargeChan) <==> c.minChanSize <= wv.channelSize && c.maxChanSize < wv.channelSize
    ensures r == Some(IgnoredNode) <==>
              c.minChanSize <= wv.channelSize <= c.maxChanSize && NodeIDString(wv.targetNode) in c.ignoreNodes
    ensures r == Some(ListChannelsFailed) ==> listed.None?
    ensures r == Some(TooManyOpenChans) ==> listed.Some? && listed.value >= c.maxNbChannels
    ensures r.Some? ==> r.value in {TooSmallChan, TooLargeChan, IgnoredNode, ListChannelsFailed, TooManyOpenChans}
  {
    if wv.channelSize < c.minChanSize then Some(TooSmallChan)
    else if wv.channelSize > c.maxChanSize then Some(TooLargeChan)
    else if NodeIDString(wv.targetNode) in c.ignoreNodes then Some(IgnoredNode)
    else match listed
      case None => Some(ListChannelsFailed)
      case Some(n) => if n >= c.maxNbChannels then Some(TooManyOpenChans) else None
  }
}
