// client/lpdclient.go: the other end of the protocol.
module Client {
  import opened Wrappers
  import opened Rpc
  import opened Policy
  import opened Widths
  import opened Protocol
  import opened ProtocolSafety
  import opened ProtocolTheorems
  import opened ProtocolRevenue

  datatype PolicyResponse = PolicyResponse(
    nodeAddresses: seq<string>,
    minChanSize: nat,
    maxChanSize: nat,
    maxNbChannels: nat,
    chanInvoiceFeeRate: real)

  // handlePolicy
  function PolicyOf(c: Config, addresses: seq<string>): PolicyResponse {
    PolicyResponse(addresses, c.minChanSize, c.maxChanSize, c.maxNbChannels, c.feeRate)
  }

  function EstimatedInvoiceAmount(channelSize: nat, feeRate: real): (amount: int)
    ensures amount as real <= channelSize as real * feeRate < amount as real + 1.0
  {
    (channelSize as real * feeRate).Floor
  }

  // What a request meets on its way; None stands for a call that failed.
  datatype Answers = Answers(
    policy: Option<PolicyResponse>,
    listed: Option<nat>,
    maxOutbound: Option<int>,
    routeFound: bool,
    approved: bool,
    connected: bool,
    identityKnown: bool,
    // The amount of the invoice that the server returned.
    invoiceAtoms: Option<int>)

  datatype ClientError =
    | CallFailed
    | NoAddresses
    | SizeTooSmall
    | SizeTooLarge
    | TooManyChannels
    | NotEnoughOutbound
    | NoRoute
    | NotApproved
    | NotConnected
    | WrongAmount

  // RequestChannel up to the payment: the amount it pays, or why it does not. The client
  // pays exactly when every answer is favourable, and then the amount that the policy it was
  // shown prices its size at.
  function RequestChannel(a: Answers, channelSize: nat): (r: Result<int, ClientError>)
    ensures r.Ok? <==>
              && a.policy.Some? && a.policy.value.nodeAddresses != []
              && a.policy.value.minChanSize <= channelSize <= a.policy.value.maxChanSize
              && a.listed.Some? && a.listed.value < a.policy.value.maxNbChannels
              && a.maxOutbound.Some?
              && a.maxOutbound.value >= AsInt64((channelSize as real * a.policy.value.chanInvoiceFeeRate).Floor)
              && a.routeFound && a.approved && a.connected && a.identityKnown
              && a.invoiceAtoms.Some?
              && AsUint64(a.invoiceAtoms.value) == (channelSize as real * a.policy.value.chanInvoiceFeeRate).Floor
    ensures r.Ok? ==> a.invoiceAtoms == Some(r.value)
    // The checks are made in order.
    ensures r == Err(NoAddresses) <==> a.policy.Some? && a.policy.value.nodeAddresses == []
    ensures r == Err(SizeTooSmall) <==>
              a.policy.Some? && a.policy.value.nodeAddresses != [] && channelSize < a.policy.value.minChanSize
    ensures r == Err(SizeTooLarge) <==>
              && a.policy.Some? && a.policy.value.nodeAddresses != []
              && a.policy.value.minChanSize <= channelSize && a.policy.value.maxChanSize < channelSize
    ensures r == Err(TooManyChannels) <==>
              && a.policy.Some? && a.policy.value.nodeAddresses != []
              && a.policy.value.minChanSize <= channelSize <= a.policy.value.maxChanSize
              && a.listed.Some? && a.listed.value >= a.policy.value.maxNbChannels
    ensures && a.policy.Some? && a.policy.value.nodeAddresses != []
            && a.policy.value.minChanSize <= channelSize <= a.policy.value.maxChanSize
            && a.listed.Some? && a.listed.value < a.policy.value.maxNbChannels && a.maxOutbound.Some? ==>
              var fee := (channelSize as real * a.policy.value.chanInvoiceFeeRate).Floor;
              var affordable := a.maxOutbound.value >= AsInt64(fee);
              && (r == Err(NotEnoughOutbound) <==> !affordable)
              && (r == Err(NoRoute) <==> affordable && !a.routeFound)
              && (r == Err(NotApproved) <==> affordable && a.routeFound && !a.approved)
              && (r == Err(NotConnected) <==> affordable && a.routeFound && a.approved && !a.connected)
              && (r == Err(WrongAmount) <==>
                    && affordable && a.routeFound && a.approved && a.connected && a.identityKnown
                    && a.invoiceAtoms.Some? && AsUint64(a.invoiceAtoms.value) != fee)
  {
    if a.policy.None? then Err(CallFailed) else
    var policy := a.policy.value;
    if |policy.nodeAddresses| == 0 then Err(NoAddresses) else
    if channelSize < policy.minChanSize then Err(SizeTooSmall) else
    if channelSize > policy.maxChanSize then Err(SizeTooLarge) else
    if a.listed.None? then Err(CallFailed) else
    if a.listed.value >= policy.maxNbChannels then Err(TooManyChannels) else
    var wantAtoms := EstimatedInvoiceAmount(channelSize, policy.chanInvoiceFeeRate);
    if a.maxOutbound.None? then Err(CallFailed) else
    if a.maxOutbound.value < AsInt64(wantAtoms) then Err(NotEnoughOutbound) else
    if !a.routeFound then Err(NoRoute) else
    if !a.approved then Err(NotApproved) else
    if !a.connected then Err(NotConnected) else
    if !a.identityKnown || a.invoiceAtoms.None? then Err(CallFailed) else
    if wantAtoms != AsUint64(a.invoiceAtoms.value) then Err(WrongAmount) else
    Ok(a.invoiceAtoms.value)
  }

  // The price of a size within the policy is the same at both ends, through the casts of
  // the invoice and of the client's check, and paying it settles the request.
  lemma PriceAgrees(c: Config, req: WaitingInvoice)
    requires FeesFit(c) && WithinPolicy(c, req)
    ensures WantAtoms(c, req) == AmountForNewChan(c, req.channelSize)
    ensures AsUint64(WantAtoms(c, req)) == EstimatedInvoiceAmount(req.channelSize, c.feeRate)
    ensures PaysFor(c, req, WantAtoms(c, req))
  {
    FeeMonotone(c, 0, req.channelSize);
    FeeMonotone(c, req.channelSize, c.maxChanSize);
  }

  // A client shown the policy of the server pays exactly the exact fee, and exactly when the
  // fee is affordable, reachable and approved and the server asks for no other amount.
  lemma PaysExactly(c: Config, a: Answers, addresses: seq<string>, channelSize: nat, fee: int)
    requires a.policy == Some(PolicyOf(c, addresses)) && addresses != []
    requires c.minChanSize <= channelSize <= c.maxChanSize
    requires 0.0 <= c.feeRate && fee == (channelSize as real * c.feeRate).Floor < TWO_TO_THE_63
    requires a.invoiceAtoms.Some? ==> -TWO_TO_THE_63 <= a.invoiceAtoms.value < TWO_TO_THE_63
    ensures RequestChannel(a, channelSize) == Ok(fee) <==>
              && a.listed.Some? && a.listed.value < c.maxNbChannels
              && a.maxOutbound.Some? && a.maxOutbound.value >= fee
              && a.routeFound && a.approved && a.connected && a.identityKnown
              && a.invoiceAtoms == Some(fee)
    ensures RequestChannel(a, channelSize).Ok? ==> RequestChannel(a, channelSize).value == fee
  {
    FeeMonotone(c, 0, channelSize);
    assert fee == AmountForNewChan(c, channelSize) == EstimatedInvoiceAmount(channelSize, c.feeRate);
    PaysEstimate(a, PolicyOf(c, addresses), channelSize, fee);
  }

  lemma PaysEstimate(a: Answers, policy: PolicyResponse, channelSize: nat, fee: int)
    requires a.policy == Some(policy) && policy.nodeAddresses != []
    requires policy.minChanSize <= channelSize <= policy.maxChanSize
    requires 0 <= fee == EstimatedInvoiceAmount(channelSize, policy.chanInvoiceFeeRate) < TWO_TO_THE_63
    requires a.invoiceAtoms.Some? ==> -TWO_TO_THE_63 <= a.invoiceAtoms.value < TWO_TO_THE_63
    ensures RequestChannel(a, channelSize) == Ok(fee) <==>
              && a.listed.Some? && a.listed.value < policy.maxNbChannels
              && a.maxOutbound.Some? && a.maxOutbound.value >= fee
              && a.routeFound && a.approved && a.connected && a.identityKnown
              && a.invoiceAtoms == Some(fee)
    ensures RequestChannel(a, channelSize).Ok? ==> RequestChannel(a, channelSize).value == fee
  {
    assert AsInt64(fee) == fee;
    if a.invoiceAtoms.Some? {
      FitsInt64(a.invoiceAtoms.value, fee);
    }
  }

  lemma FitsInt64(i: int, u: int)
    requires -TWO_TO_THE_63 <= i < TWO_TO_THE_63 && 0 <= u < TWO_TO_THE_63
    ensures AsUint64(i) == u <==> i == u
  {}

  // What the client accepts the server accepts: seeing the same channels between them, the
  // request of a client that pays passes the policy, unless its node is ignored.
  lemma PayingClientIsAdmitted(c: Config, req: WaitingInvoice, a: Answers, addresses: seq<string>)
    requires a.policy == Some(PolicyOf(c, addresses)) && RequestChannel(a, req.channelSize).Ok?
    ensures CanCreateChannel(c, req, a.listed).None? <==> NodeIDString(req.targetNode) !in c.ignoreNodes
    ensures CanCreateChannel(c, req, a.listed) in {None, Some(IgnoredNode)}
  {}

  lemma InvoicesArePriced(c: Config, steps: seq<Step>, h: Hash, req: WaitingInvoice)
    requires Exec(c, INIT, steps).Some? && Own(Exec(c, INIT, steps).value.core.invoices, h, req)
    ensures WithinPolicy(c, req) && Exec(c, INIT, steps).value.core.invoices[h].value == WantAtoms(c, req)
  {
    RunKeepsRequests(c, steps);
  }

  // The size checks of the two ends refuse the same sizes.
  lemma SizeChecksAgree(c: Config, req: WaitingInvoice, a: Answers, addresses: seq<string>, listed: Option<nat>)
    requires a.policy == Some(PolicyOf(c, addresses)) && addresses != []
    ensures RequestChannel(a, req.channelSize) == Err(SizeTooSmall) <==> CanCreateChannel(c, req, listed) == Some(TooSmallChan)
    ensures RequestChannel(a, req.channelSize) == Err(SizeTooLarge) <==> CanCreateChannel(c, req, listed) == Some(TooLargeChan)
  {}

  // With an unchanged policy client and server agree from end to end. Whatever the run of
  // the server, for a client shown its policy and holding the invoice of its own request:
  // neither the size checks nor the amount check refuses, and what the client then pays
  // settles the request at the listener.
  lemma ClientAndServerAgree(c: Config, steps: seq<Step>, h: Hash, req: WaitingInvoice, a: Answers, addresses: seq<string>)
    requires FeesFit(c) && Exec(c, INIT, steps).Some?
    requires Own(Exec(c, INIT, steps).value.core.invoices, h, req)
    requires a.policy == Some(PolicyOf(c, addresses))
    requires a.invoiceAtoms == Some(Exec(c, INIT, steps).value.core.invoices[h].value)
    ensures RequestChannel(a, req.channelSize) !in {Err(SizeTooSmall), Err(SizeTooLarge), Err(WrongAmount)}
    ensures RequestChannel(a, req.channelSize).Ok? ==>
              var paid := RequestChannel(a, req.channelSize).value;
              paid == AmountForNewChan(c, req.channelSize) && PaysFor(c, req, paid)
  {
    InvoicesArePriced(c, steps, h, req);
    PriceAgrees(c, req);
  }

  // The whole way: once the invoice is settled at what the client pays and the event of
  // that settlement reaches the listener, three undisturbed steps of the listener launch
  // a channel of exactly the client's size to exactly its node.
  lemma PayingClientIsServed(c: Config, steps: seq<Step>, more: seq<Step>, h: Hash, req: WaitingInvoice, paid: nat,
                             a: Answers, addresses: seq<string>)
    requires FeesFit(c) && a.policy == Some(PolicyOf(c, addresses))
    requires Exec(c, INIT, steps).Some?
    requires var s := Exec(c, INIT, steps).value.core;
             && Own(s.invoices, h, req) && a.invoiceAtoms == Some(s.invoices[h].value)
             && RequestChannel(a, req.channelSize) == Ok(paid)
             && s.invoices[h].status == Settled(paid) && h !in Hashes(s.consumed)
    requires Exec(c, INIT, steps + [Delivery(h, paid)] + more).Some?
    requires ListenerSteps(more) >= 3 && forall i :: 0 <= i < |more| ==> Undisturbed(more[i])
    ensures Order(h, req, paid) in Exec(c, INIT, steps + [Delivery(h, paid)] + more).value.core.launched
  {
    ClientAndServerAgree(c, steps, h, req, a, addresses);
    DeliveryLaunches(c, steps, more, h, req, paid);
  }

  function Delivery(h: Hash, paid: nat): Step {
    ListenerStep(Deliver(SettledEvent(h, paid)))
  }

  lemma DeliveryLaunches(c: Config, steps: seq<Step>, more: seq<Step>, h: Hash, req: WaitingInvoice, paid: nat)
    requires Exec(c, INIT, steps).Some?
    requires var s := Exec(c, INIT, steps).value.core;
             Own(s.invoices, h, req) && PaysFor(c, req, paid) && h !in Hashes(s.consumed)
    requires Exec(c, INIT, steps + [Delivery(h, paid)] + more).Some?
    requires ListenerSteps(more) >= 3 && forall i :: 0 <= i < |more| ==> Undisturbed(more[i])
    ensures Order(h, req, paid) in Exec(c, INIT, steps + [Delivery(h, paid)] + more).value.core.launched
  {
    var delivered := steps + [Delivery(h, paid)];
    ExecConcat(c, INIT, delivered, more);
    DeliveryStartsProgress(c, steps, h, req, paid);
    PaidEventLaunches(c, Exec(c, INIT, delivered).value, Order(h, req, paid), more);
  }
}
