// What every interleaving of the protocol keeps: at most one channel per payment, the
// right channel, and no channel for less than its fee.
module ProtocolSafety {
  import opened Wrappers
  import opened Policy
  import opened Widths
  import opened Protocol

  // ---- vocabulary ----

  type Ledger = map<Hash, Invoice>
  type Files = map<Hash, Stored>

  ghost function Hashes(q: seq<Order>): set<Hash> {
    set i | 0 <= i < |q| :: q[i].hash
  }

  ghost predicate DistinctHashes(q: seq<Order>) {
    forall i, j :: 0 <= i < j < |q| ==> q[i].hash != q[j].hash
  }

  ghost predicate Within(q: seq<Order>, whole: seq<Order>) {
    forall i :: 0 <= i < |q| ==> q[i] in whole
  }

  // The hash that a CreateInvoice thread holds.
  function HeldHash(pc: CreatorPc): Option<Hash> {
    match pc
    case AtWrite(h) => Some(h)
    case AtReturn(h) => Some(h)
    case _ => None
  }

  predicate Own(invoices: Ledger, h: Hash, req: WaitingInvoice) {
    h in invoices && invoices[h].request == Some(req)
  }

  predicate Recorded(records: Files, h: Hash, req: WaitingInvoice) {
    h in records && records[h] == Readable(req)
  }

  predicate HasStatus(invoices: Ledger, h: Hash, status: InvoiceStatus) {
    h in invoices && invoices[h].status == status
  }

  // ---- the inductive invariant, field by field ----

  // Record files belong to requests of the ledger.
  ghost predicate RecordsInv(records: Files, invoices: Ledger) {
    forall h :: h in records ==>
      && h in invoices
      && match records[h]
         case Readable(inv) => invoices[h].request == Some(inv)
         case Unreadable => invoices[h].request.Some? && !invoices[h].issued
  }

  ghost predicate LedgerInv(invoices: Ledger, records: Files, consumed: set<Hash>) {
    forall h :: h in invoices ==>
      && (invoices[h].status.Settled? ==> invoices[h].issued)
      && (invoices[h].issued && invoices[h].request.Some? ==>
            || Recorded(records, h, invoices[h].request.value)
            || invoices[h].status == Canceled
            || h in consumed)
  }

  ghost predicate CreatorInv(creator: Creator, records: Files, invoices: Ledger) {
    match creator.pc
    case AtWrite(h) => Own(invoices, h, creator.req) && !invoices[h].issued && h !in records
    case AtReturn(h) =>
      && Own(invoices, h, creator.req) && !invoices[h].issued
      && (Recorded(records, h, creator.req) || (h !in records && invoices[h].status == Canceled))
    case _ => true
  }

  ghost predicate CreatorsInv(creators: map<ThreadId, Creator>, records: Files, invoices: Ledger) {
    && (forall t :: t in creators ==> CreatorInv(creators[t], records, invoices))
    && (forall t, u :: t in creators && u in creators && t != u && HeldHash(creators[t].pc).Some? ==>
          HeldHash(creators[t].pc) != HeldHash(creators[u].pc))
  }

  // An order stands for a payment of the ledger on a record made for that request.
  predicate Backed(c: Config, invoices: Ledger, order: Order) {
    && Own(invoices, order.hash, order.inv)
    && HasStatus(invoices, order.hash, Settled(order.paid))
    && PaysFor(c, order.inv, order.paid)
  }

  ghost predicate ConsumedInv(c: Config, consumed: seq<Order>, records: Files, invoices: Ledger) {
    && DistinctHashes(consumed)
    && (forall i :: 0 <= i < |consumed| ==> Backed(c, invoices, consumed[i]) && consumed[i].hash !in records)
  }

  ghost predicate Chosen(part: seq<Order>, whole: seq<Order>) {
    DistinctHashes(part) && Within(part, whole)
  }

  ghost predicate ListenerInv(c: Config, listener: Listener, records: Files, invoices: Ledger,
                              consumed: seq<Order>, launched: set<Hash>)
  {
    match listener
    case CancelRemove(h) => HasStatus(invoices, h, Canceled)
    case SettledRead(h, paid) => HasStatus(invoices, h, Settled(paid))
    case SettledRemove(order) => Backed(c, invoices, order) && Recorded(records, order.hash, order.inv)
    case Launch(order) => order in consumed && order.hash !in launched
    case _ => true
  }

  predicate MayStillOpen(pc: OpenerPc) {
    !pc.Updates? && !pc.Ended?
  }

  ghost predicate OpenersInv(openers: map<ThreadId, Opener>, launched: seq<Order>, streams: set<Hash>) {
    && (forall t :: t in openers ==>
          openers[t].order in launched && (MayStillOpen(openers[t].pc) ==> openers[t].order.hash !in streams))
    && (forall t, u :: t in openers && u in openers && t != u ==> openers[t].order.hash != openers[u].order.hash)
  }

  ghost predicate Inv(c: Config, s: Core) {
    && RecordsInv(s.records, s.invoices)
    && LedgerInv(s.invoices, s.records, Hashes(s.consumed))
    && CreatorsInv(s.creators, s.records, s.invoices)
    && ConsumedInv(c, s.consumed, s.records, s.invoices)
    && Chosen(s.launched, s.consumed)
    && Chosen(s.streams, s.launched)
    && ListenerInv(c, s.listener, s.records, s.invoices, s.consumed, Hashes(s.launched))
    && OpenersInv(s.openers, s.launched, Hashes(s.streams))
  }

  lemma HashesSnoc(q: seq<Order>, order: Order)
    ensures Hashes(q + [order]) == Hashes(q) + {order.hash}
  {
    var r := q + [order];
    assert r[|q|] == order;
    assert forall i :: 0 <= i < |q| ==> r[i] == q[i];
  }

  lemma ChosenSnoc(part: seq<Order>, whole: seq<Order>, order: Order)
    requires Chosen(part, whole) && order in whole && order.hash !in Hashes(part)
    ensures Chosen(part + [order], whole)
  {
    var r := part + [order];
    forall i | 0 <= i < |part| ensures r[i].hash != order.hash {
      assert part[i].hash in Hashes(part);
    }
  }

  lemma HashesWithin(part: seq<Order>, whole: seq<Order>)
    requires Within(part, whole)
    ensures Hashes(part) <= Hashes(whole)
  {
    forall i | 0 <= i < |part| ensures part[i].hash in Hashes(whole) {
      assert part[i] in whole;
    }
  }

  // ---- what each kind of update keeps ----

  lemma CreatorLeaves(creators: map<ThreadId, Creator>, records: Files, invoices: Ledger, t: ThreadId)
    requires CreatorsInv(creators, records, invoices)
    ensures CreatorsInv(creators - {t}, records, invoices)
  {}

  lemma CreatorMoves(creators: map<ThreadId, Creator>, records: Files, invoices: Ledger, t: ThreadId, creator: Creator)
    requires CreatorsInv(creators, records, invoices)
    requires CreatorInv(creator, records, invoices)
    requires HeldHash(creator.pc).Some? ==>
               forall u :: u in creators && u != t ==> HeldHash(creators[u].pc) != HeldHash(creator.pc)
    ensures CreatorsInv(creators[t := creator], records, invoices)
  {}

  // A thread that holds no hash goes on, or any thread returns.
  lemma CreatorGoesOn(c: Config, s: Core, t: ThreadId, on: bool, pc: CreatorPc)
    requires Inv(c, s) && t in s.creators && (on ==> HeldHash(pc).None?)
    ensures Inv(c, GoOn(s, t, on, pc))
  {
    if on {
      CreatorMoves(s.creators, s.records, s.invoices, t, s.creators[t].(pc := pc));
    } else {
      CreatorLeaves(s.creators, s.records, s.invoices, t);
    }
  }

  // A new invoice that is neither settled nor an issued request.
  lemma InvoiceAdded(c: Config, s: Core, h: Hash, inv: Invoice)
    requires Inv(c, s) && h !in s.invoices && inv.status == Open && (inv.issued ==> inv.request.None?)
    ensures Inv(c, s.(invoices := s.invoices[h := inv]))
    ensures forall t :: t in s.creators ==> HeldHash(s.creators[t].pc) != Some(h)
  {
    var invoices := s.invoices[h := inv];
    assert RecordsInv(s.records, invoices);
    assert LedgerInv(invoices, s.records, Hashes(s.consumed));
    assert CreatorsInv(s.creators, s.records, invoices);
    assert ConsumedInv(c, s.consumed, s.records, invoices);
    assert ListenerInv(c, s.listener, s.records, invoices, s.consumed, Hashes(s.launched));
  }

  lemma InvoiceIssued(c: Config, s: Core, t: ThreadId, h: Hash)
    requires Inv(c, s) && t in s.creators && s.creators[t].pc == AtReturn(h)
    ensures h in s.invoices
    ensures Inv(c, s.(creators := s.creators - {t}, invoices := s.invoices[h := s.invoices[h].(issued := true)]))
  {
    assert CreatorInv(s.creators[t], s.records, s.invoices);
    var invoices := s.invoices[h := s.invoices[h].(issued := true)];
    var creators := s.creators - {t};
    assert RecordsInv(s.records, invoices);
    assert LedgerInv(invoices, s.records, Hashes(s.consumed));
    forall u | u in creators ensures CreatorInv(creators[u], s.records, invoices) {
      assert HeldHash(s.creators[u].pc) != Some(h);
    }
    assert ConsumedInv(c, s.consumed, s.records, invoices);
    assert ListenerInv(c, s.listener, s.records, invoices, s.consumed, Hashes(s.launched));
  }

  lemma RecordWritten(c: Config, s: Core, t: ThreadId, h: Hash, stored: Stored)
    requires Inv(c, s) && t in s.creators && s.creators[t].pc == AtWrite(h)
    requires stored.Readable? ==> stored.inv == s.creators[t].req
    ensures Inv(c, s.(creators := s.creators - {t}, records := s.records[h := stored]))
    ensures stored.Readable? ==>
              Inv(c, s.(creators := s.creators[t := Creator(s.creators[t].req, AtReturn(h))], records := s.records[h := stored]))
  {
    assert CreatorInv(s.creators[t], s.records, s.invoices);
    var records := s.records[h := stored];
    var creators := s.creators - {t};
    assert RecordsInv(records, s.invoices);
    assert LedgerInv(s.invoices, records, Hashes(s.consumed));
    forall u | u in creators ensures CreatorInv(creators[u], records, s.invoices) {
      assert HeldHash(s.creators[u].pc) != Some(h);
    }
    assert CreatorsInv(creators, records, s.invoices);
    if stored.Readable? {
      CreatorMoves(creators, records, s.invoices, t, Creator(s.creators[t].req, AtReturn(h)));
      assert creators[t := Creator(s.creators[t].req, AtReturn(h))] == s.creators[t := Creator(s.creators[t].req, AtReturn(h))];
    }
    assert ConsumedInv(c, s.consumed, records, s.invoices);
    assert ListenerInv(c, s.listener, records, s.invoices, s.consumed, Hashes(s.launched));
  }

  lemma InvoiceStatusChanged(c: Config, s: Core, h: Hash, status: InvoiceStatus)
    requires Inv(c, s) && HasStatus(s.invoices, h, Open) && (status.Settled? ==> s.invoices[h].issued)
    ensures Inv(c, s.(invoices := s.invoices[h := s.invoices[h].(status := status)]))
  {
    var invoices := s.invoices[h := s.invoices[h].(status := status)];
    assert RecordsInv(s.records, invoices);
    assert LedgerInv(invoices, s.records, Hashes(s.consumed));
    assert CreatorsInv(s.creators, s.records, invoices);
    assert ConsumedInv(c, s.consumed, s.records, invoices);
    assert ListenerInv(c, s.listener, s.records, invoices, s.consumed, Hashes(s.launched));
  }

  lemma RecordCanceled(c: Config, s: Core, h: Hash)
    requires Inv(c, s) && s.listener == CancelRemove(h)
    ensures Inv(c, s.(records := s.records - {h}, listener := Receiving))
  {
    var records := s.records - {h};
    assert RecordsInv(records, s.invoices);
    assert LedgerInv(s.invoices, records, Hashes(s.consumed));
    assert CreatorsInv(s.creators, records, s.invoices);
    assert ConsumedInv(c, s.consumed, records, s.invoices);
  }

  lemma RecordConsumed(c: Config, s: Core, order: Order)
    requires Inv(c, s) && s.listener == SettledRemove(order)
    ensures Inv(c, s.(records := s.records - {order.hash}, consumed := s.consumed + [order], listener := Launch(order)))
  {
    var records := s.records - {order.hash};
    var consumed := s.consumed + [order];
    HashesSnoc(s.consumed, order);
    assert RecordsInv(records, s.invoices);
    assert LedgerInv(s.invoices, records, Hashes(consumed));
    assert CreatorsInv(s.creators, records, s.invoices);
    forall i | 0 <= i < |s.consumed| ensures s.consumed[i].hash != order.hash {}
    assert ConsumedInv(c, consumed, records, s.invoices);
    assert Chosen(s.launched, consumed);
    HashesWithin(s.launched, s.consumed);
  }

  lemma OpenerStarted(c: Config, s: Core, t: ThreadId, order: Order)
    requires Inv(c, s) && s.listener == Launch(order) && t !in s.openers
    ensures Inv(c, s.(openers := s.openers[t := Opener(order, AtCheck)], launched := s.launched + [order], listener := Receiving))
  {
    var launched := s.launched + [order];
    ChosenSnoc(s.launched, s.consumed, order);
    forall u | u in s.openers ensures s.openers[u].order.hash != order.hash {}
    HashesWithin(s.streams, s.launched);
    assert Chosen(s.streams, launched);
  }

  // The part of the invariant that openChannel threads can disturb.
  ghost predicate StreamsInv(s: Core) {
    Chosen(s.streams, s.launched) && OpenersInv(s.openers, s.launched, Hashes(s.streams))
  }

  lemma OpenerMoved(s: Core, t: ThreadId, pc: OpenerPc)
    requires StreamsInv(s) && t in s.openers
    requires MayStillOpen(pc) || pc.Updates? ==> MayStillOpen(s.openers[t].pc) || s.openers[t].pc == pc
    ensures StreamsInv(MoveOpener(s, t, pc))
  {
    var order := s.openers[t].order;
    if pc.Updates? && !s.openers[t].pc.Updates? {
      HashesSnoc(s.streams, order);
      ChosenSnoc(s.streams, s.launched, order);
    }
  }

  lemma NextOpenerMayMove(c: Config, opener: Opener, act: OpenerAct)
    requires NextOpener(c, opener, act).Some?
    ensures var pc := NextOpener(c, opener, act).value;
            MayStillOpen(pc) || pc.Updates? ==> MayStillOpen(opener.pc) || opener.pc == pc
  {}

  // ---- one step keeps the invariant, thread by thread ----

  lemma CreatorKeepsInv(c: Config, s: Core, t: ThreadId, act: CreatorAct)
    requires Inv(c, s) && NextCreator(c, s, t, act).Some?
    ensures Inv(c, NextCreator(c, s, t, act).value)
  {
    if t !in s.creators {
      CreatorMoves(s.creators, s.records, s.invoices, t, Creator(act.req, AtPolicy));
    } else {
      match Verdict(c, s.creators[t], act)
      case Some((on, next)) => CreatorGoesOn(c, s, t, on, next);
      case None => InvoicingKeepsInv(c, s, t, act);
    }
  }

  lemma InvoicingKeepsInv(c: Config, s: Core, t: ThreadId, act: CreatorAct)
    requires Inv(c, s) && t in s.creators && NextInvoicing(c, s, t, act).Some?
    ensures Inv(c, NextInvoicing(c, s, t, act).value)
  {
    var req := s.creators[t].req;
    match (s.creators[t].pc, act)
    case (AtAddInvoice, AddInvoice(None)) => CreatorGoesOn(c, s, t, false, AtAddInvoice);
    case (AtAddInvoice, AddInvoice(Some(h))) =>
      var inv := Invoice(Some(req), AsInt64(AmountForNewChan(c, req.channelSize)), false, Open);
      InvoiceAdded(c, s, h, inv);
      CreatorMoves(s.creators, s.records, s.invoices[h := inv], t, Creator(req, AtWrite(h)));
    case (AtWrite(h), Write(Written)) => RecordWritten(c, s, t, h, Readable(req));
    case (AtWrite(h), Write(PartlyWritten)) => RecordWritten(c, s, t, h, Unreadable);
    case (AtWrite(h), Write(WrittenButFailed)) => RecordWritten(c, s, t, h, Readable(req));
    case (AtWrite(h), Write(NotWritten)) => CreatorGoesOn(c, s, t, false, AtWrite(h));
    case (AtReturn(h), Return) => InvoiceIssued(c, s, t, h);
    case _ =>
  }

  lemma ListenerMoves(c: Config, s: Core, act: ListenerAct)
    requires RecordsInv(s.records, s.invoices)
    requires ListenerInv(c, s.listener, s.records, s.invoices, s.consumed, Hashes(s.launched))
    requires NextListener(c, s.listener, s.records, s.invoices, act).Some?
    ensures var next := NextListener(c, s.listener, s.records, s.invoices, act).value;
            ListenerInv(c, next, s.records, s.invoices, s.consumed, Hashes(s.launched))
  {}

  lemma ListenerKeepsInv(c: Config, s: Core, act: ListenerAct)
    requires Inv(c, s) && StepListener(c, s, act).Some?
    ensures Inv(c, StepListener(c, s, act).value)
  {
    match (s.listener, act)
    case (CancelRemove(h), RemoveFile(true)) => RecordCanceled(c, s, h);
    case (SettledRemove(order), RemoveFile(true)) => RecordConsumed(c, s, order);
    case (Launch(order), StartOpener(t)) => OpenerStarted(c, s, t, order);
    case _ => ListenerMoves(c, s, act);
  }

  lemma LedgerKeepsInv(c: Config, s: Core, act: EnvAct)
    requires Inv(c, s) && NextLedger(s.invoices, act).Some?
    ensures Inv(c, s.(invoices := NextLedger(s.invoices, act).value))
  {
    match act
    case Settle(h, paid) => InvoiceStatusChanged(c, s, h, Settled(paid));
    case Cancel(h) => InvoiceStatusChanged(c, s, h, Canceled);
    case AddForeign(h, value) => InvoiceAdded(c, s, h, Invoice(None, value, true, Open));
    case _ =>
  }

  lemma CrashKeepsInv(c: Config, s: Core)
    requires Inv(c, s)
    ensures Inv(c, s.(creators := map[], listener := Disconnected, openers := map[]))
  {}

  lemma StepKeepsInv(c: Config, s: State, step: Step)
    requires Inv(c, s.core) && Apply(c, s, step).Some?
    ensures Inv(c, Apply(c, s, step).value.core)
  {
    var core := s.core;
    match step
    case CreatorStep(t, act) =>
      if t in core.creators && core.creators[t].pc.AtReserve? && act.Reserve? {
        CreatorGoesOn(c, core, t, true, AtAddInvoice);
        CreatorGoesOn(c, core, t, false, AtReserve);
      } else {
        CreatorKeepsInv(c, core, t, act);
      }
    case ListenerStep(act) => ListenerKeepsInv(c, core, act);
    case OpenerStep(t, act) =>
      match NextOpener(c, core.openers[t], act) {
        case Some(pc) => NextOpenerMayMove(c, core.openers[t], act); OpenerMoved(core, t, pc);
        case None =>
      }
    case CleanStep =>
    case EnvStep(CrashRestart) => CrashKeepsInv(c, core);
    case EnvStep(Tick(_)) =>
    case EnvStep(act) => LedgerKeepsInv(c, core, act);
  }

  lemma {:induction false} RunKeepsInv(c: Config, steps: seq<Step>)
    requires Exec(c, INIT, steps).Some?
    ensures Inv(c, Exec(c, INIT, steps).value.core)
  {
    if steps != [] {
      var prefix := steps[..|steps| - 1];
      RunKeepsInv(c, prefix);
      StepKeepsInv(c, Exec(c, INIT, prefix).value, steps[|steps| - 1]);
    }
  }
}
