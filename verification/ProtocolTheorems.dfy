// The promises of the protocol, for every run.
module ProtocolTheorems {
  import opened Wrappers
  import opened Policy
  import opened Protocol
  import opened ProtocolSafety

  // ---- at most once ----

  // However CreateInvoice calls interleave, streams drop, events are replayed and the
  // server crashes: a payment hash leads to at most one openChannel launch and to at most
  // one OpenChannel stream, and only paid and consumed records lead to any.
  lemma AtMostOnce(c: Config, steps: seq<Step>)
    requires Exec(c, INIT, steps).Some?
    ensures var s := Exec(c, INIT, steps).value.core;
            && (forall i, j :: 0 <= i < j < |s.launched| ==> s.launched[i].hash != s.launched[j].hash)
            && (forall i, j :: 0 <= i < j < |s.streams| ==> s.streams[i].hash != s.streams[j].hash)
            && (forall order :: order in s.streams ==> order in s.launched)
            && (forall order :: order in s.launched ==> order in s.consumed)
  {
    RunKeepsInv(c, steps);
  }

  ghost predicate Grown(s: State, e: State) {
    && s.now <= e.now && s.log <= e.log
    && s.core.consumed <= e.core.consumed && s.core.launched <= e.core.launched && s.core.streams <= e.core.streams
  }

  lemma CreatorGrows(c: Config, s: Core, t: ThreadId, act: CreatorAct)
    requires NextCreator(c, s, t, act).Some?
    ensures var e := NextCreator(c, s, t, act).value;
            e == s.(creators := e.creators, records := e.records, invoices := e.invoices)
  {}

  lemma ListenerGrows(c: Config, s: Core, act: ListenerAct)
    requires StepListener(c, s, act).Some?
    ensures var e := StepListener(c, s, act).value;
            && e == s.(listener := e.listener, records := e.records, openers := e.openers,
                       consumed := e.consumed, launched := e.launched)
            && s.consumed <= e.consumed && s.launched <= e.launched
  {
    match (s.listener, act)
    case (CancelRemove(h), RemoveFile(true)) =>
    case (SettledRemove(order), RemoveFile(true)) =>
    case (Launch(order), StartOpener(t)) =>
    case _ =>
  }

  lemma StepGrows(c: Config, s: State, step: Step)
    requires Apply(c, s, step).Some?
    ensures Grown(s, Apply(c, s, step).value)
  {
    match step
    case CreatorStep(t, act) =>
      if NextCreator(c, s.core, t, act).Some? {
        CreatorGrows(c, s.core, t, act);
      }
    case ListenerStep(act) => ListenerGrows(c, s.core, act);
    case OpenerStep(t, act) =>
    case CleanStep =>
    case EnvStep(act) =>
  }

  // The histories only grow, so what AtMostOnce says of the end of a run covers all of it.
  lemma {:induction false} HistoryGrows(c: Config, s: State, steps: seq<Step>)
    requires Exec(c, s, steps).Some?
    ensures Grown(s, Exec(c, s, steps).value)
  {
    if steps != [] {
      var n := |steps| - 1;
      HistoryGrows(c, s, steps[..n]);
      StepGrows(c, Exec(c, s, steps[..n]).value, steps[n]);
    }
  }

  // ---- the right channel ----

  // Every launch is for the node and size of the request behind the paid invoice, whose
  // payment request had been returned to the client, and its fee was paid.
  lemma RightChannel(c: Config, steps: seq<Step>, order: Order)
    requires Exec(c, INIT, steps).Some? && order in Exec(c, INIT, steps).value.core.launched
    ensures var s := Exec(c, INIT, steps).value.core;
            && order.hash in s.invoices && s.invoices[order.hash].issued
            && s.invoices[order.hash].request == Some(order.inv)
            && s.invoices[order.hash].status == Settled(order.paid)
            && PaysFor(c, order.inv, order.paid)
  {
    RunKeepsInv(c, steps);
  }

  // For a payment request that was returned to a client, the record holds exactly what was
  // asked for until the listener consumes it on payment or the invoice is canceled.
  lemma IssuedImpliesRecorded(c: Config, steps: seq<Step>, h: Hash, req: WaitingInvoice)
    requires Exec(c, INIT, steps).Some?
    requires Own(Exec(c, INIT, steps).value.core.invoices, h, req) && Exec(c, INIT, steps).value.core.invoices[h].issued
    ensures var s := Exec(c, INIT, steps).value.core;
            && (Recorded(s.records, h, req) || s.invoices[h].status == Canceled || h in Hashes(s.consumed))
            && (s.invoices[h].status == Open ==> Recorded(s.records, h, req))
  {
    RunKeepsInv(c, steps);
  }

  // After a settlement the record is gone exactly when it has been consumed, and that
  // takes a sufficient payment: an underpaid record stays in place for good.
  lemma SettledRecordStays(c: Config, steps: seq<Step>, h: Hash, req: WaitingInvoice, paid: nat)
    requires Exec(c, INIT, steps).Some?
    requires Own(Exec(c, INIT, steps).value.core.invoices, h, req)
    requires Exec(c, INIT, steps).value.core.invoices[h].status == Settled(paid)
    ensures var s := Exec(c, INIT, steps).value.core;
            && (Recorded(s.records, h, req) <==> h !in Hashes(s.consumed))
            && (h in s.records <==> h !in Hashes(s.consumed))
            && (!PaysFor(c, req, paid) ==> Recorded(s.records, h, req))
  {
    RunKeepsInv(c, steps);
  }

  // A damaged record file is never met by a payment: the listener only stops when the
  // file system itself fails.
  lemma ListenerStopsOnlyOnFaults(c: Config, steps: seq<Step>, act: ListenerAct)
    requires Exec(c, INIT, steps).Some?
    requires StepListener(c, Exec(c, INIT, steps).value.core, act).Some?
    requires StepListener(c, Exec(c, INIT, steps).value.core, act).value.listener == Stopped
    ensures act == RemoveFile(false) || act == ReadFile(false)
  {
    RunKeepsInv(c, steps);
    var s := Exec(c, INIT, steps).value.core;
    match s.listener
    case SettledRead(h, paid) => assert h in s.records ==> s.records[h].Readable?;
    case _ =>
  }

  // ---- a paid event ends in a launch ----

  predicate Undisturbed(step: Step) {
    && step != EnvStep(CrashRestart)
    && step != ListenerStep(RemoveFile(false))
    && step != ListenerStep(ReadFile(false))
  }

  function ListenerSteps(steps: seq<Step>): nat {
    if steps == [] then 0
    else ListenerSteps(steps[..|steps| - 1]) + (if steps[|steps| - 1].ListenerStep? then 1 else 0)
  }

  // How far the listener is with a paid order after k of its steps.
  ghost predicate Progress(s: Core, order: Order, k: nat) {
    if k == 0 then s.listener == SettledRead(order.hash, order.paid) && order.hash !in Hashes(s.consumed)
    else if k == 1 then s.listener == SettledRemove(order)
    else if k == 2 then s.listener == Launch(order)
    else order in s.launched
  }

  lemma ListenerProgresses(c: Config, s: Core, order: Order, k: nat, act: ListenerAct)
    requires Inv(c, s) && Backed(c, s.invoices, order) && Progress(s, order, k)
    requires Undisturbed(ListenerStep(act)) && StepListener(c, s, act).Some?
    ensures StepListener(c, s, act).value.invoices == s.invoices
    ensures Progress(StepListener(c, s, act).value, order, k + 1)
  {
    if k == 0 {
      assert Recorded(s.records, order.hash, order.inv);
    } else if k >= 3 {
      ListenerGrows(c, s, act);
    }
  }

  lemma CreatorKeepsBacked(c: Config, s: Core, t: ThreadId, act: CreatorAct, order: Order)
    requires Backed(c, s.invoices, order) && NextCreator(c, s, t, act).Some?
    ensures Backed(c, NextCreator(c, s, t, act).value.invoices, order)
  {}

  lemma CreatorProgresses(c: Config, s: State, t: ThreadId, act: CreatorAct, order: Order, k: nat)
    requires Backed(c, s.core.invoices, order) && Progress(s.core, order, k) && StepCreator(c, s, t, act).Some?
    ensures var e := StepCreator(c, s, t, act).value.core; Backed(c, e.invoices, order) && Progress(e, order, k)
  {
    if NextCreator(c, s.core, t, act).Some? {
      CreatorGrows(c, s.core, t, act);
      CreatorKeepsBacked(c, s.core, t, act, order);
    }
  }

  lemma OthersProgress(c: Config, s: State, order: Order, k: nat, step: Step)
    requires Backed(c, s.core.invoices, order) && Progress(s.core, order, k)
    requires !step.ListenerStep? && Undisturbed(step) && Apply(c, s, step).Some?
    ensures Backed(c, Apply(c, s, step).value.core.invoices, order)
    ensures Progress(Apply(c, s, step).value.core, order, k)
  {
    match step
    case CreatorStep(t, act) => CreatorProgresses(c, s, t, act, order, k);
    case OpenerStep(t, act) =>
    case CleanStep =>
    case EnvStep(act) =>
      if NextLedger(s.core.invoices, act).Some? {
        LedgerKeepsBacked(c, s.core.invoices, act, order);
      }
  }

  lemma LedgerKeepsBacked(c: Config, invoices: Ledger, act: EnvAct, order: Order)
    requires Backed(c, invoices, order) && NextLedger(invoices, act).Some?
    ensures Backed(c, NextLedger(invoices, act).value, order)
  {}

  // Once the listener has received the event of a sufficient payment on a request, three
  // more steps of its own launch openChannel for exactly that node and size, whatever all
  // other threads, events and clients do in between.
  lemma {:induction false} PaidEventLaunches(c: Config, s: State, order: Order, steps: seq<Step>)
    requires Inv(c, s.core) && Backed(c, s.core.invoices, order) && Progress(s.core, order, 0)
    requires Exec(c, s, steps).Some? && forall i :: 0 <= i < |steps| ==> Undisturbed(steps[i])
    ensures var e := Exec(c, s, steps).value.core;
            && Inv(c, e) && Backed(c, e.invoices, order)
            && Progress(e, order, ListenerSteps(steps))
            && (ListenerSteps(steps) >= 3 ==> order in e.launched)
  {
    if steps != [] {
      var n := |steps| - 1;
      PaidEventLaunches(c, s, order, steps[..n]);
      var mid := Exec(c, s, steps[..n]).value;
      StepKeepsInv(c, mid, steps[n]);
      match steps[n]
      case ListenerStep(act) => ListenerProgresses(c, mid.core, order, ListenerSteps(steps[..n]), act);
      case _ => OthersProgress(c, mid, order, ListenerSteps(steps[..n]), steps[n]);
    }
  }

  // The premise of PaidEventLaunches is met whenever such an event is delivered and its
  // order has not been consumed before.
  lemma DeliveryStartsProgress(c: Config, steps: seq<Step>, h: Hash, req: WaitingInvoice, paid: nat)
    requires Exec(c, INIT, steps).Some?
    requires var s := Exec(c, INIT, steps).value.core;
             Own(s.invoices, h, req) && PaysFor(c, req, paid) && h !in Hashes(s.consumed)
    requires Exec(c, INIT, steps + [ListenerStep(Deliver(SettledEvent(h, paid)))]).Some?
    ensures var s' := Exec(c, INIT, steps + [ListenerStep(Deliver(SettledEvent(h, paid)))]).value.core;
            Inv(c, s') && Backed(c, s'.invoices, Order(h, req, paid)) && Progress(s', Order(h, req, paid), 0)
  {
    var longer := steps + [ListenerStep(Deliver(SettledEvent(h, paid)))];
    assert longer[..|longer| - 1] == steps;
    RunKeepsInv(c, longer);
    EventStartsProgress(c, Exec(c, INIT, steps).value.core, h, req, paid);
  }

  lemma EventStartsProgress(c: Config, s: Core, h: Hash, req: WaitingInvoice, paid: nat)
    requires Own(s.invoices, h, req) && PaysFor(c, req, paid) && h !in Hashes(s.consumed)
    requires StepListener(c, s, Deliver(SettledEvent(h, paid))).Some?
    ensures var e := StepListener(c, s, Deliver(SettledEvent(h, paid))).value;
            Backed(c, e.invoices, Order(h, req, paid)) && Progress(e, Order(h, req, paid), 0)
  {}

  // ---- what the machine lets happen ----

  // The environment is as free as the outside world: time passes and the server crashes at
  // any point, an issued invoice may be paid any amount, an open one may be canceled, and a
  // foreign one appear. Nothing else happens to the ledger.
  lemma EnvironmentIsFree(c: Config, s: State, h: Hash, paid: nat, elapsed: nat)
    ensures Apply(c, s, EnvStep(Tick(elapsed))) == Some(s.(now := s.now + elapsed))
    ensures Apply(c, s, EnvStep(Settle(h, paid))).Some? <==>
              h in s.core.invoices && s.core.invoices[h].issued && s.core.invoices[h].status == Open
    ensures Apply(c, s, EnvStep(Cancel(h))).Some? <==> h in s.core.invoices && s.core.invoices[h].status == Open
    ensures Apply(c, s, EnvStep(AddForeign(h, paid))) ==
              if h in s.core.invoices then None
              else Some(s.(core := s.core.(invoices := s.core.invoices[h := Invoice(None, paid, true, Open)])))
    ensures Apply(c, s, EnvStep(Settle(h, paid))).Some? ==>
              Apply(c, s, EnvStep(Settle(h, paid))).value.core.invoices ==
              s.core.invoices[h := Invoice(s.core.invoices[h].request, s.core.invoices[h].value, true, Settled(paid))]
    ensures Apply(c, s, EnvStep(Cancel(h))).Some? ==>
              Apply(c, s, EnvStep(Cancel(h))).value.core.invoices ==
              s.core.invoices[h := Invoice(s.core.invoices[h].request, s.core.invoices[h].value, s.core.invoices[h].issued, Canceled)]
    ensures var e := Apply(c, s, EnvStep(CrashRestart));
            && e.Some? && e.value.pending == map[] && e.value.now == s.now
            && e.value.core == Core(s.core.records, s.core.invoices, map[], Disconnected, map[],
                                    s.core.consumed, s.core.launched, s.core.streams)
  {}

  // The stream may drop whenever the listener waits for an event, a listener without one may
  // subscribe again, and every event that agrees with the ledger may come, again and again.
  lemma StreamIsFree(c: Config, s: State, h: Hash, paid: nat)
    ensures s.core.listener == Disconnected ==>
              && Apply(c, s, ListenerStep(Subscribe(true))) == Some(s.(core := s.core.(listener := Receiving)))
              && Apply(c, s, ListenerStep(Subscribe(false))) == Some(s)
    ensures s.core.listener == Receiving ==>
              && Apply(c, s, ListenerStep(DropStream)) == Some(s.(core := s.core.(listener := Disconnected)))
              && (Apply(c, s, ListenerStep(Deliver(SettledEvent(h, paid)))).Some? <==>
                    h in s.core.invoices && s.core.invoices[h].status == Settled(paid))
              && (Apply(c, s, ListenerStep(Deliver(CanceledEvent(h)))).Some? <==>
                    h in s.core.invoices && s.core.invoices[h].status == Canceled)
  {}
}
