// Policy and revenue over every run of the protocol.
module ProtocolRevenue {
  import opened Rpc
  import opened Policy
  import opened Widths
  import opened Protocol
  import opened ProtocolSafety
  import opened ProtocolTheorems

  // ---- policy ----

  // The part of the policy that depends on the request alone.
  predicate WithinPolicy(c: Config, req: WaitingInvoice) {
    && c.minChanSize <= req.channelSize <= c.maxChanSize
    && NodeIDString(req.targetNode) !in c.ignoreNodes
  }

  ghost predicate RequestsInv(c: Config, creators: map<ThreadId, Creator>, invoices: Ledger) {
    && (forall t :: t in creators && !creators[t].pc.AtPolicy? ==> WithinPolicy(c, creators[t].req))
    && (forall h :: h in invoices && invoices[h].request.Some? ==>
          WithinPolicy(c, invoices[h].request.value) && invoices[h].value == WantAtoms(c, invoices[h].request.value))
  }

  lemma VerdictKeepsPolicy(c: Config, creator: Creator, act: CreatorAct)
    requires Verdict(c, creator, act).Some? && Verdict(c, creator, act).value.0
    requires !creator.pc.AtPolicy? ==> WithinPolicy(c, creator.req)
    ensures WithinPolicy(c, creator.req)
  {}

  lemma InvoicingKeepsRequests(c: Config, s: Core, t: ThreadId, act: CreatorAct)
    requires RequestsInv(c, s.creators, s.invoices)
    requires t in s.creators && NextInvoicing(c, s, t, act).Some?
    ensures var s' := NextInvoicing(c, s, t, act).value; RequestsInv(c, s'.creators, s'.invoices)
  {
    var s' := NextInvoicing(c, s, t, act).value;
    match (s.creators[t].pc, act)
    case (AtAddInvoice, AddInvoice(Some(h))) =>
      GoingOnKeepsRequests(c, s, t, true, AtWrite(h));
      AddingKeepsRequests(c, s'.creators, s.invoices, h, s'.invoices[h]);
    case (AtWrite(h), _) => GoingOnKeepsRequests(c, s, t, t in s'.creators, AtReturn(h));
    case (AtReturn(h), _) =>
      GoingOnKeepsRequests(c, s, t, false, AtReturn(h));
      IssuingKeepsRequests(c, s'.creators, s.invoices, h);
    case (pc, _) => GoingOnKeepsRequests(c, s, t, false, pc);
  }

  lemma GoingOnKeepsRequests(c: Config, s: Core, t: ThreadId, on: bool, pc: CreatorPc)
    requires RequestsInv(c, s.creators, s.invoices) && t in s.creators
    requires on ==> WithinPolicy(c, s.creators[t].req)
    ensures RequestsInv(c, GoOn(s, t, on, pc).creators, s.invoices)
  {}

  lemma AddingKeepsRequests(c: Config, creators: map<ThreadId, Creator>, invoices: Ledger, h: Hash, inv: Invoice)
    requires RequestsInv(c, creators, invoices)
    requires inv.request.Some? ==> WithinPolicy(c, inv.request.value) && inv.value == WantAtoms(c, inv.request.value)
    ensures RequestsInv(c, creators, invoices[h := inv])
  {}

  lemma IssuingKeepsRequests(c: Config, creators: map<ThreadId, Creator>, invoices: Ledger, h: Hash)
    requires RequestsInv(c, creators, invoices) && h in invoices
    ensures RequestsInv(c, creators, invoices[h := invoices[h].(issued := true)])
  {}

  lemma CreatorKeepsRequests(c: Config, s: Core, t: ThreadId, act: CreatorAct)
    requires RequestsInv(c, s.creators, s.invoices) && NextCreator(c, s, t, act).Some?
    ensures var s' := NextCreator(c, s, t, act).value; RequestsInv(c, s'.creators, s'.invoices)
  {
    if t in s.creators {
      match Verdict(c, s.creators[t], act)
      case None => InvoicingKeepsRequests(c, s, t, act);
      case Some((on, next)) =>
        if on {
          VerdictKeepsPolicy(c, s.creators[t], act);
        }
    }
  }

  lemma LedgerKeepsRequests(c: Config, creators: map<ThreadId, Creator>, invoices: Ledger, act: EnvAct)
    requires RequestsInv(c, creators, invoices) && NextLedger(invoices, act).Some?
    ensures RequestsInv(c, creators, NextLedger(invoices, act).value)
  {}

  lemma StepKeepsRequests(c: Config, s: State, step: Step)
    requires RequestsInv(c, s.core.creators, s.core.invoices) && Apply(c, s, step).Some?
    ensures var s' := Apply(c, s, step).value.core; RequestsInv(c, s'.creators, s'.invoices)
  {
    match step
    case CreatorStep(t, act) =>
      if NextCreator(c, s.core, t, act).Some? {
        CreatorKeepsRequests(c, s.core, t, act);
      }
    case ListenerStep(act) => ListenerGrows(c, s.core, act);
    case OpenerStep(t, act) =>
    case CleanStep =>
    case EnvStep(act) =>
      if NextLedger(s.core.invoices, act).Some? {
        LedgerKeepsRequests(c, s.core.creators, s.core.invoices, act);
      }
  }

  lemma {:induction false} RunKeepsRequests(c: Config, steps: seq<Step>)
    requires Exec(c, INIT, steps).Some?
    ensures var s := Exec(c, INIT, steps).value.core; RequestsInv(c, s.creators, s.invoices)
  {
    if steps != [] {
      var n := |steps| - 1;
      RunKeepsRequests(c, steps[..n]);
      StepKeepsRequests(c, Exec(c, INIT, steps[..n]).value, steps[n]);
    }
  }

  // Every channel launched is within the size policy and for a node that is not ignored.
  lemma LaunchesWithinPolicy(c: Config, steps: seq<Step>, order: Order)
    requires Exec(c, INIT, steps).Some? && order in Exec(c, INIT, steps).value.core.launched
    ensures WithinPolicy(c, order.inv)
  {
    RunKeepsRequests(c, steps);
    RightChannel(c, steps, order);
  }

  // ---- revenue ----

  // The fees of the channels in a list of orders, and the payments made for them.
  function Fees(c: Config, orders: seq<Order>): int {
    if orders == [] then 0
    else Fees(c, orders[..|orders| - 1]) + AmountForNewChan(c, orders[|orders| - 1].inv.channelSize)
  }

  function Payments(orders: seq<Order>): int {
    if orders == [] then 0 else Payments(orders[..|orders| - 1]) + orders[|orders| - 1].paid
  }

  function Receipt(inv: Invoice): nat {
    if inv.status.Settled? then inv.status.paid else 0
  }

  // All that the node has received on settled invoices.
  ghost function Receipts(invoices: Ledger): nat {
    if invoices == map[] then 0
    else var h :| h in invoices; Receipt(invoices[h]) + Receipts(invoices - {h})
  }

  lemma {:induction false} ReceiptsSplit(invoices: Ledger, h: Hash)
    requires h in invoices
    ensures Receipts(invoices) == Receipt(invoices[h]) + Receipts(invoices - {h})
    decreases |invoices|
  {
    var g :| g in invoices && Receipts(invoices) == Receipt(invoices[g]) + Receipts(invoices - {g});
    if g != h {
      ReceiptsSplit(invoices - {g}, h);
      ReceiptsSplit(invoices - {h}, g);
      assert invoices - {g} - {h} == invoices - {h} - {g};
    }
  }

  // Orders with distinct hashes that the ledger confirms are paid for once each.
  lemma {:induction false} PaymentsWithinReceipts(orders: seq<Order>, invoices: Ledger)
    requires DistinctHashes(orders)
    requires forall i :: 0 <= i < |orders| ==> HasStatus(invoices, orders[i].hash, Settled(orders[i].paid))
    ensures Payments(orders) <= Receipts(invoices)
  {
    if orders != [] {
      var n := |orders| - 1;
      var h := orders[n].hash;
      PaymentsWithinReceipts(orders[..n], invoices - {h});
      ReceiptsSplit(invoices, h);
    }
  }

  // The fee of a consumed order whose channel has not been launched yet.
  function InFlight(c: Config, listener: Listener): int {
    if listener.Launch? then AmountForNewChan(c, listener.order.inv.channelSize) else 0
  }

  lemma OrderPaysFee(c: Config, order: Order)
    requires FeesFit(c) && order.inv.channelSize <= c.maxChanSize && PaysFor(c, order.inv, order.paid)
    ensures 0 <= AmountForNewChan(c, order.inv.channelSize) <= order.paid
  {
    FeeMonotone(c, 0, order.inv.channelSize);
    FeeMonotone(c, order.inv.channelSize, c.maxChanSize);
    var amount := AmountForNewChan(c, order.inv.channelSize);
    assert amount % TWO_TO_THE_64 == amount;
  }

  lemma Snoc(c: Config, orders: seq<Order>, order: Order)
    ensures Fees(c, orders + [order]) == Fees(c, orders) + AmountForNewChan(c, order.inv.channelSize)
    ensures Payments(orders + [order]) == Payments(orders) + order.paid
  {
    assert (orders + [order])[..|orders|] == orders;
  }

  // Fees owed never exceed what was paid on consumed records.
  ghost predicate RevenueInv(c: Config, s: Core) {
    Fees(c, s.launched) + InFlight(c, s.listener) <= Payments(s.consumed)
  }

  lemma MovesNeverLaunch(c: Config, s: Core, act: ListenerAct)
    requires NextListener(c, s.listener, s.records, s.invoices, act).Some?
    ensures !s.listener.Launch? && !NextListener(c, s.listener, s.records, s.invoices, act).value.Launch?
  {}

  lemma ConsumingKeepsRevenue(c: Config, s: Core, order: Order)
    requires FeesFit(c) && RevenueInv(c, s) && !s.listener.Launch?
    requires PaysFor(c, order.inv, order.paid) && WithinPolicy(c, order.inv)
    ensures RevenueInv(c, s.(records := s.records - {order.hash}, consumed := s.consumed + [order], listener := Launch(order)))
  {
    Snoc(c, s.consumed, order);
    OrderPaysFee(c, order);
  }

  lemma LaunchingKeepsRevenue(c: Config, s: Core, order: Order, openers: map<ThreadId, Opener>)
    requires RevenueInv(c, s) && s.listener == Launch(order)
    ensures RevenueInv(c, s.(openers := openers, launched := s.launched + [order], listener := Receiving))
  {
    Snoc(c, s.launched, order);
  }

  lemma MovingKeepsRevenue(c: Config, s: Core, records: Files, next: Listener)
    requires RevenueInv(c, s) && !s.listener.Launch? && !next.Launch?
    ensures RevenueInv(c, s.(records := records, listener := next))
  {}

  lemma ListenerKeepsRevenue(c: Config, s: Core, act: ListenerAct)
    requires FeesFit(c) && StepListener(c, s, act).Some? && RevenueInv(c, s)
    requires s.listener.SettledRemove? ==>
               PaysFor(c, s.listener.order.inv, s.listener.order.paid) && WithinPolicy(c, s.listener.order.inv)
    ensures RevenueInv(c, StepListener(c, s, act).value)
  {
    match (s.listener, act)
    case (SettledRemove(order), RemoveFile(true)) => ConsumingKeepsRevenue(c, s, order);
    case (Launch(order), StartOpener(t)) => LaunchingKeepsRevenue(c, s, order, s.openers[t := Opener(order, AtCheck)]);
    case (CancelRemove(h), RemoveFile(true)) => MovingKeepsRevenue(c, s, s.records - {h}, Receiving);
    case _ =>
      match NextListener(c, s.listener, s.records, s.invoices, act) {
        case Some(next) =>
          MovesNeverLaunch(c, s, act);
          MovingKeepsRevenue(c, s, s.records, next);
        case None =>
      }
  }

  // The record that the listener is about to remove is within policy and paid for.
  lemma RemovalIsPaid(c: Config, s: Core)
    requires Inv(c, s) && RequestsInv(c, s.creators, s.invoices) && s.listener.SettledRemove?
    ensures PaysFor(c, s.listener.order.inv, s.listener.order.paid) && WithinPolicy(c, s.listener.order.inv)
  {}

  lemma OthersKeepOrders(c: Config, s: State, step: Step)
    requires !step.ListenerStep? && Apply(c, s, step).Some?
    ensures var s' := Apply(c, s, step).value.core;
            && s'.launched == s.core.launched && s'.consumed == s.core.consumed
            && (s'.listener == s.core.listener || s'.listener == Disconnected)
  {
    match step
    case CreatorStep(t, act) =>
      if NextCreator(c, s.core, t, act).Some? {
        CreatorGrows(c, s.core, t, act);
      }
    case OpenerStep(t, act) =>
    case CleanStep =>
    case EnvStep(act) =>
  }

  lemma InFlightNonNegative(c: Config, listener: Listener)
    requires 0.0 <= c.feeRate
    ensures InFlight(c, listener) >= 0
  {
    if listener.Launch? {
      FeeMonotone(c, 0, listener.order.inv.channelSize);
    }
  }

  lemma {:induction false} RunKeepsRevenue(c: Config, steps: seq<Step>)
    requires FeesFit(c) && Exec(c, INIT, steps).Some?
    ensures RevenueInv(c, Exec(c, INIT, steps).value.core)
  {
    if steps != [] {
      var n := |steps| - 1;
      RunKeepsRevenue(c, steps[..n]);
      RunKeepsInv(c, steps[..n]);
      RunKeepsRequests(c, steps[..n]);
      var s := Exec(c, INIT, steps[..n]).value;
      match steps[n]
      case ListenerStep(act) =>
        if s.core.listener.SettledRemove? {
          RemovalIsPaid(c, s.core);
        }
        ListenerKeepsRevenue(c, s.core, act);
      case _ =>
        OthersKeepOrders(c, s, steps[n]);
        InFlightNonNegative(c, s.core.listener);
    }
  }

  // At a fixed fee rate the node has always received at least the fees of all channels
  // launched, every settled invoice counted once.
  lemma RevenueConservation(c: Config, steps: seq<Step>)
    requires 0.0 <= c.feeRate && (c.maxChanSize as real * c.feeRate).Floor < 9_223_372_036_854_775_808
    requires Exec(c, INIT, steps).Some?
    ensures var s := Exec(c, INIT, steps).value.core;
            Fees(c, s.launched) <= Payments(s.consumed) <= Receipts(s.invoices)
  {
    var s := Exec(c, INIT, steps).value.core;
    RunKeepsRevenue(c, steps);
    InFlightNonNegative(c, s.listener);
    RunKeepsInv(c, steps);
    PaymentsWithinReceipts(s.consumed, s.invoices);
  }
}
