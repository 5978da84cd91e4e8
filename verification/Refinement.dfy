// What the threads of the protocol machine do when left alone is what the server's methods do.
module Refinement {
  import opened Wrappers
  import opened Policy
  import opened Widths
  import opened Dcrlnd
  import opened Protocol
  import opened Server

  // ---- listener ----

  // The event that brings an update.
  function EventOf(u: InvoiceUpdate): Event {
    match u.state
    case InvoiceCanceled => CanceledEvent(u.rHash)
    case InvoiceSettled => SettledEvent(u.rHash, u.amtPaidAtoms)
    case _ => OtherEvent
  }

  predicate AgreesWithLedger(invoices: map<Hash, Invoice>, event: Event) {
    match event
    case CanceledEvent(h) => h in invoices && invoices[h].status == Canceled
    case SettledEvent(h, paid) => h in invoices && invoices[h].status == Settled(paid)
    case OtherEvent => true
  }

  ghost predicate ByListener(steps: seq<Step>) {
    forall i :: 0 <= i < |steps| ==> steps[i].ListenerStep?
  }

  // The listener's steps one by one.
  lemma ListenerCons(c: Config, s: State, act: ListenerAct, next: Core, rest: seq<Step>)
    requires StepListener(c, s.core, act) == Some(next)
    ensures Exec(c, s, [ListenerStep(act)] + rest) == Exec(c, s.(core := next), rest)
  {
    ExecCons(c, s, ListenerStep(act), s.(core := next), rest);
  }

  // The state of the machine after an update has been handled, its order taken by thread t.
  function AfterHandling(s: Core, h: Handled, t: ThreadId): Core {
    var rest := s.(records := h.records, listener := if h.failed then Stopped else Receiving);
    match h.order
    case None => rest
    case Some(order) => rest.(consumed := s.consumed + [order], openers := s.openers[t := Opener(order, AtCheck)],
                              launched := s.launched + [order])
  }

  // What the listener is about to do once an update's event has arrived.
  function Delivered(u: InvoiceUpdate): Listener {
    match u.state
    case InvoiceCanceled => CancelRemove(u.rHash)
    case InvoiceSettled => SettledRead(u.rHash, u.amtPaidAtoms)
    case _ => Receiving
  }

  // A sufficient payment: read the record, remove it, launch.
  lemma PurchaseRefinesMachine(c: Config, s: State, u: InvoiceUpdate, t: ThreadId) returns (steps: seq<Step>)
    requires s.core.listener == Delivered(u) && t !in s.core.openers && IsPurchase(c, s.core.records, u)
    ensures ByListener(steps)
    ensures Exec(c, s, steps) == Some(s.(core := AfterHandling(s.core, Handle(c, s.core.records, u), t)))
  {
    var order := OrderOf(s.core.records, u);
    var s2 := s.core.(listener := SettledRemove(order));
    steps := RemovalRefinesMachine(c, s.(core := s2), u, t, order);
    ListenerCons(c, s, ReadFile(true), s2, steps);
    steps := [ListenerStep(ReadFile(true))] + steps;
  }

  lemma RemovalRefinesMachine(c: Config, s: State, u: InvoiceUpdate, t: ThreadId, order: Order)
    returns (steps: seq<Step>)
    requires s.core.listener == SettledRemove(order) && t !in s.core.openers
    ensures ByListener(steps)
    ensures Exec(c, s, steps) ==
            Some(s.(core := if !u.removable then s.core.(listener := Stopped)
                            else AfterHandling(s.core, Handled(s.core.records - {order.hash}, Some(order), false), t)))
  {
    if u.removable {
      var s3 := s.core.(records := s.core.records - {order.hash}, consumed := s.core.consumed + [order],
                        listener := Launch(order));
      var s4 := AfterHandling(s.core, Handled(s.core.records - {order.hash}, Some(order), false), t);
      ListenerCons(c, s.(core := s3), StartOpener(t), s4, []);
      ListenerCons(c, s, RemoveFile(true), s3, [ListenerStep(StartOpener(t))] + []);
      steps := [ListenerStep(RemoveFile(true))] + ([ListenerStep(StartOpener(t))] + []);
    } else {
      ListenerCons(c, s, RemoveFile(false), s.core.(listener := Stopped), []);
      steps := [ListenerStep(RemoveFile(false))] + [];
    }
  }

  // Any other update takes one more step at most.
  lemma NoPurchaseRefinesMachine(c: Config, s: State, u: InvoiceUpdate, t: ThreadId) returns (steps: seq<Step>)
    requires s.core.listener == Delivered(u) && !IsPurchase(c, s.core.records, u)
    ensures ByListener(steps)
    ensures Exec(c, s, steps) == Some(s.(core := AfterHandling(s.core, Handle(c, s.core.records, u), t)))
  {
    steps := [];
    if u.state == InvoiceCanceled || u.state == InvoiceSettled {
      var act := if u.state == InvoiceCanceled then RemoveFile(u.removable) else ReadFile(u.readable);
      ListenerCons(c, s, act, AfterHandling(s.core, Handle(c, s.core.records, u), t), []);
      steps := [ListenerStep(act)] + [];
    }
  }

  // Handling one update is a run of the machine's listener alone.
  lemma HandleRefinesMachine(c: Config, s: State, u: InvoiceUpdate, t: ThreadId) returns (steps: seq<Step>)
    requires s.core.listener == Receiving && t !in s.core.openers && AgreesWithLedger(s.core.invoices, EventOf(u))
    ensures ByListener(steps)
    ensures Exec(c, s, steps) == Some(s.(core := AfterHandling(s.core, Handle(c, s.core.records, u), t)))
  {
    var s1 := s.core.(listener := Delivered(u));
    if IsPurchase(c, s.core.records, u) {
      steps := PurchaseRefinesMachine(c, s.(core := s1), u, t);
    } else {
      steps := NoPurchaseRefinesMachine(c, s.(core := s1), u, t);
    }
    ListenerCons(c, s, Deliver(EventOf(u)), s1, steps);
    steps := [ListenerStep(Deliver(EventOf(u)))] + steps;
  }

  // ---- openChannel ----

  // The step that an opener takes next, its attempts answered by the script.
  function OpenerActFor(o: Opener, attempts: seq<Attempt>): Option<OpenerAct> {
    var node, size := o.order.inv.targetNode, o.order.inv.channelSize;
    match o.pc
    case TryPeers(k) => if k < |attempts| then Some(FindPeer(IsPeer(attempts[k].peers, node))) else None
    case TryUtxos(k) => if k < |attempts| then Some(FindUtxos(HasFunds(attempts[k].utxos, size))) else None
    case TryOpen(k) => if k < |attempts| then Some(CallOpen(attempts[k].accepted)) else None
    case Waiting(k) => if k < |attempts| then Some(EndWait(!attempts[k].canceled)) else None
    case _ => None
  }

  // How many steps an opener has left at most.
  function StepsLeft(pc: OpenerPc): nat {
    match pc
    case TryPeers(k) => if k < 3 then 4 * (3 - k) else 0
    case TryUtxos(k) => if k < 3 then 4 * (3 - k) - 1 else 0
    case TryOpen(k) => if k < 3 then 4 * (3 - k) - 2 else 0
    case Waiting(k) => if k < 3 then 4 * (3 - k) - 3 else 0
    case _ => 0
  }

  // Where an opener on its own ends up.
  function Outcome(c: Config, o: Opener, attempts: seq<Attempt>): OpenerPc
    decreases StepsLeft(o.pc)
  {
    if StepsLeft(o.pc) == 0 then o.pc
    else
      match OpenerActFor(o, attempts)
      case None => o.pc
      case Some(act) =>
        match NextOpener(c, o, act)
        case None => o.pc
        case Some(pc) => Outcome(c, o.(pc := pc), attempts)
  }

  // From attempt k on, the machine enters the update loop exactly when the retry loop's
  // contract says so; otherwise it ends.
  lemma {:induction false} RetryRefinesMachine(c: Config, o: Opener, attempts: seq<Attempt>, k: nat)
    requires |attempts| == MAX_ATTEMPTS && k < MAX_ATTEMPTS && o.pc == TryPeers(k)
    ensures Outcome(c, o, attempts) == if Succeeds(o.order.inv, attempts, k) then Updates else Ended
    decreases MAX_ATTEMPTS - k
  {
    OneAttempt(c, o, attempts, k);
    var inv, a := o.order.inv, attempts[k];
    if !Produces(inv, a) && k < MAX_ATTEMPTS - 1 && !a.canceled {
      RetryRefinesMachine(c, o.(pc := TryPeers(k + 1)), attempts, k + 1);
    }
  }

  // The schedule of the retry loop: any failure of the first or second attempt waits and
  // then leads to the next one, unless canceled; a failure of the third ends the thread.
  lemma RetrySchedule(c: Config, order: Order, k: nat)
    requires k <= 2
    ensures var next := if k <= 1 then Waiting(k) else Ended;
            && NextOpener(c, Opener(order, TryPeers(k)), FindPeer(false)) == Some(next)
            && NextOpener(c, Opener(order, TryUtxos(k)), FindUtxos(false)) == Some(next)
            && NextOpener(c, Opener(order, TryOpen(k)), CallOpen(false)) == Some(next)
    ensures NextOpener(c, Opener(order, TryPeers(k)), FindPeer(true)) == Some(TryUtxos(k))
    ensures NextOpener(c, Opener(order, TryUtxos(k)), FindUtxos(true)) == Some(TryOpen(k))
    ensures NextOpener(c, Opener(order, TryOpen(k)), CallOpen(true)) == Some(Updates)
    ensures NextOpener(c, Opener(order, Waiting(k)), EndWait(true)) == Some(TryPeers(k + 1))
    ensures NextOpener(c, Opener(order, Waiting(k)), EndWait(false)) == Some(Ended)
  {}

  // A thread that failed twice without being canceled makes a third attempt, and with it
  // obtains a stream or ends.
  lemma ThirdAttempt(c: Config, o: Opener, attempts: seq<Attempt>)
    requires |attempts| == 3 && o.pc == TryPeers(0)
    requires forall k :: 0 <= k < 2 ==> !Produces(o.order.inv, attempts[k]) && !attempts[k].canceled
    ensures Outcome(c, o, attempts) == Outcome(c, o.(pc := TryPeers(2)), attempts)
    ensures Outcome(c, o, attempts) == if Produces(o.order.inv, attempts[2]) then Updates else Ended
  {
    OneAttempt(c, o, attempts, 0);
    OneAttempt(c, o.(pc := TryPeers(1)), attempts, 1);
    OneAttempt(c, o.(pc := TryPeers(2)), attempts, 2);
  }

  lemma OneAttempt(c: Config, o: Opener, attempts: seq<Attempt>, k: nat)
    requires |attempts| == MAX_ATTEMPTS && k < MAX_ATTEMPTS && o.pc == TryPeers(k)
    ensures var inv, a := o.order.inv, attempts[k];
            Outcome(c, o, attempts) ==
            if Produces(inv, a) then Updates
            else if k == MAX_ATTEMPTS - 1 || a.canceled then Ended
            else Outcome(c, o.(pc := TryPeers(k + 1)), attempts)
  {
    var inv, a := o.order.inv, attempts[k];
    var failed := Outcome(c, o.(pc := AfterFailure(k)), attempts);
    if k < MAX_ATTEMPTS - 1 {
      var w := o.(pc := Waiting(k));
      assert Outcome(c, w.(pc := Ended), attempts) == Ended;
      assert w.(pc := TryPeers(k + 1)) == o.(pc := TryPeers(k + 1));
    }
    assert failed == if k == MAX_ATTEMPTS - 1 || a.canceled then Ended else Outcome(c, o.(pc := TryPeers(k + 1)), attempts);
    assert Outcome(c, o.(pc := TryOpen(k)), attempts) == if a.accepted then Updates else failed;
    assert Outcome(c, o.(pc := TryUtxos(k)), attempts) ==
           if HasFunds(a.utxos, inv.channelSize) then Outcome(c, o.(pc := TryOpen(k)), attempts) else failed;
  }

  // The updates of a stream, one machine step each until the thread ends.
  function Follow(c: Config, s: State, t: ThreadId, updates: seq<OpenUpdate>): State
    decreases |updates|
  {
    if updates == [] then s
    else
      match StepOpener(c, s, t, Update(updates[0]))
      case None => s
      case Some(next) => Follow(c, next, t, updates[1..])
  }

  lemma EndedStays(c: Config, s: State, t: ThreadId, updates: seq<OpenUpdate>)
    requires t in s.core.openers && s.core.openers[t].pc.Ended?
    ensures Follow(c, s, t, updates) == s
  {}

  // Following a stream frees the node exactly when the update loop's contract says so, and
  // obtains no further stream.
  lemma {:induction false} FollowRefinesMachine(c: Config, s: State, t: ThreadId, updates: seq<OpenUpdate>)
    requires t in s.core.openers && s.core.openers[t].pc.Updates?
    ensures var node := s.core.openers[t].order.inv.targetNode;
            var e := Follow(c, s, t, updates);
            && e.pending == (if SeesOpen(updates) then s.pending - {node} else s.pending)
            && e.core == s.core.(openers := e.core.openers)
    decreases |updates|
  {
    if updates != [] {
      var next := StepOpener(c, s, t, Update(updates[0])).value;
      if next.core.openers[t].pc.Ended? {
        EndedStays(c, next, t, updates[1..]);
      } else {
        FollowRefinesMachine(c, next, t, updates[1..]);
      }
    }
  }

  // ---- CreateInvoice ----

  // The step that a CreateInvoice call takes next, given its answers.
  function CreatorActFor(creator: Creator, c: Config, a: Answers): CreatorAct {
    var node, size := creator.req.targetNode, creator.req.channelSize;
    match creator.pc
    case AtPolicy => AskPolicy(a.listed)
    case AtPeers => AskPeers(IsPeer(a.peers, node))
    case AtUtxos => AskUtxos(HasFunds(a.utxos, size))
    case AtPendingChans => AskPendingChans(HasMaxPendingChannels(c, a.pendingOpen))
    case AtReserve => Reserve(if a.checked <= a.stamped then a.stamped - a.checked else 0)
    case AtAddInvoice => AddInvoice(a.added)
    case AtWrite(_) => Write(a.write)
    case AtReturn(_) => Return
  }

  // Lets one CreateInvoice call run alone until it returns.
  function Complete(c: Config, s: State, t: ThreadId, a: Answers, fuel: nat): Option<State>
    decreases fuel
  {
    if t !in s.core.creators then Some(s)
    else if fuel == 0 then None
    else
      match StepCreator(c, s, t, CreatorActFor(s.core.creators[t], c, a))
      case None => None
      case Some(next) => Complete(c, next, t, a, fuel - 1)
  }

  function Without(s: State, t: ThreadId): State {
    s.(core := s.core.(creators := s.core.creators - {t}))
  }

  function At(s: State, t: ThreadId, req: WaitingInvoice, pc: CreatorPc): State {
    s.(core := s.core.(creators := s.core.creators[t := Creator(req, pc)]))
  }

  lemma QueryStep(c: Config, s: State, t: ThreadId, req: WaitingInvoice, pc: CreatorPc, a: Answers, fuel: nat)
    requires Verdict(c, Creator(req, pc), CreatorActFor(Creator(req, pc), c, a)).Some?
    ensures var (on, next) := Verdict(c, Creator(req, pc), CreatorActFor(Creator(req, pc), c, a)).value;
            Complete(c, At(s, t, req, pc), t, a, fuel + 1) ==
            if on then Complete(c, At(s, t, req, next), t, a, fuel) else Some(Without(s, t))
  {
    var here := At(s, t, req, pc);
    var (on, next) := Verdict(c, Creator(req, pc), CreatorActFor(Creator(req, pc), c, a)).value;
    assert here.core.creators - {t} == s.core.creators - {t};
    assert here.core.creators[t := Creator(req, next)] == s.core.creators[t := Creator(req, next)];
    if !on {
      assert Complete(c, Without(s, t), t, a, fuel) == Some(Without(s, t));
    }
  }

  // Up to the reservation a request is refused without a trace, or gets there.
  lemma QueriesRefineMachine(c: Config, s: State, t: ThreadId, req: WaitingInvoice, a: Answers, fuel: nat)
    ensures Complete(c, At(s, t, req, AtPolicy), t, a, fuel + 4) ==
            if Admitted(c, req, a) then Complete(c, At(s, t, req, AtReserve), t, a, fuel) else Some(Without(s, t))
  {
    QueryStep(c, s, t, req, AtPolicy, a, fuel + 3);
    QueryStep(c, s, t, req, AtPeers, a, fuel + 2);
    QueryStep(c, s, t, req, AtUtxos, a, fuel + 1);
    QueryStep(c, s, t, req, AtPendingChans, a, fuel);
  }

  // ---- what one call does on its own ----

  function Stamped(s: State, req: WaitingInvoice, a: Answers): State {
    State(a.stamped, s.pending[req.targetNode := a.stamped], s.log + [Accepted(req.targetNode, a.stamped)], s.core)
  }

  function Recording(core: Core, h: Hash, inv: Invoice, req: WaitingInvoice, write: WriteOutcome): Core {
    core.(invoices := core.invoices[h := inv.(issued := write == Written)],
          records := AfterWrite(core.records, h, req, write))
  }

  function Created(c: Config, s: State, req: WaitingInvoice, a: Answers): State {
    if !Admitted(c, req, a) then s
    else if IsPending(c, s.pending, req.targetNode, s.now) then s.(log := s.log + [Rejected(req.targetNode)])
    else if a.added.None? then Stamped(s, req, a)
    else
      var inv := Invoice(Some(req), AsInt64(AmountForNewChan(c, req.channelSize)), false, Open);
      Stamped(s, req, a).(core := Recording(s.core, a.added.value, inv, req, a.write))
  }

  lemma ReserveRefinesMachine(c: Config, s: State, t: ThreadId, req: WaitingInvoice, a: Answers, fuel: nat)
    requires a.checked == s.now <= a.stamped
    ensures Complete(c, At(s, t, req, AtReserve), t, a, fuel + 1) ==
            if IsPending(c, s.pending, req.targetNode, s.now)
            then Some(Without(s, t).(log := s.log + [Rejected(req.targetNode)]))
            else Complete(c, At(Stamped(s, req, a), t, req, AtAddInvoice), t, a, fuel)
  {
    ReserveStep(c, s, t, req, a.stamped - a.checked);
  }

  lemma ReserveStep(c: Config, s: State, t: ThreadId, req: WaitingInvoice, elapsed: nat)
    ensures var node, stamp := req.targetNode, s.now + elapsed;
            StepCreator(c, At(s, t, req, AtReserve), t, Reserve(elapsed)) ==
            Some(if IsPending(c, s.pending, node, s.now) then Without(s, t).(log := s.log + [Rejected(node)])
                 else At(State(stamp, s.pending[node := stamp], s.log + [Accepted(node, stamp)], s.core), t, req, AtAddInvoice))
  {
    var here := At(s, t, req, AtReserve);
    assert here.core.creators - {t} == s.core.creators - {t};
    assert s.core.creators[t := Creator(req, AtAddInvoice)] == here.core.creators[t := Creator(req, AtAddInvoice)];
  }

  // The state of the call after its invoice exists.
  function Invoiced(s: State, t: ThreadId, req: WaitingInvoice, h: Hash, inv: Invoice): State {
    At(s.(core := s.core.(invoices := s.core.invoices[h := inv])), t, req, AtWrite(h))
  }

  lemma ReturnRefinesMachine(c: Config, s: State, t: ThreadId, req: WaitingInvoice, h: Hash, inv: Invoice, a: Answers)
    requires t !in s.core.creators && !inv.issued
    ensures var written := s.(core := s.core.(invoices := s.core.invoices[h := inv], records := s.core.records[h := Readable(req)]));
            Complete(c, At(written, t, req, AtReturn(h)), t, a, 1) == Some(s.(core := Recording(s.core, h, inv, req, Written)))
  {
    var written := s.(core := s.core.(invoices := s.core.invoices[h := inv], records := s.core.records[h := Readable(req)]));
    assert At(written, t, req, AtReturn(h)).core.creators - {t} == s.core.creators;
    assert written.core.invoices[h := inv.(issued := true)] == s.core.invoices[h := inv.(issued := true)];
  }

  lemma WriteRefinesMachine(c: Config, s: State, t: ThreadId, req: WaitingInvoice, h: Hash, inv: Invoice, a: Answers)
    requires t !in s.core.creators && !inv.issued
    ensures Complete(c, Invoiced(s, t, req, h, inv), t, a, 2) == Some(s.(core := Recording(s.core, h, inv, req, a.write)))
  {
    var s2 := Invoiced(s, t, req, h, inv);
    if a.write == Written {
      var s3 := s2.(core := s2.core.(creators := s2.core.creators[t := Creator(req, AtReturn(h))],
                                     records := s.core.records[h := Readable(req)]));
      assert StepCreator(c, s2, t, Write(Written)) == Some(s3);
      ReturnRefinesMachine(c, s, t, req, h, inv, a);
      assert s3.core.creators == s.core.creators[t := Creator(req, AtReturn(h))];
    } else {
      assert s2.core.creators - {t} == s.core.creators;
      assert inv.(issued := false) == inv;
    }
  }

  lemma InvoiceRefinesMachine(c: Config, s: State, t: ThreadId, req: WaitingInvoice, a: Answers)
    requires t !in s.core.creators && (a.added.Some? ==> a.added.value !in s.core.invoices)
    ensures var inv := Invoice(Some(req), AsInt64(AmountForNewChan(c, req.channelSize)), false, Open);
            Complete(c, At(s, t, req, AtAddInvoice), t, a, 3)
            == Some(if a.added.None? then s else s.(core := Recording(s.core, a.added.value, inv, req, a.write)))
  {
    var s1 := At(s, t, req, AtAddInvoice);
    assert s1.core.creators - {t} == s.core.creators;
    if a.added.Some? {
      var h := a.added.value;
      var inv := Invoice(Some(req), AsInt64(AmountForNewChan(c, req.channelSize)), false, Open);
      var s2 := Invoiced(s, t, req, h, inv);
      assert s1.core.creators[t := Creator(req, AtWrite(h))] == s2.core.creators;
      assert StepCreator(c, s1, t, AddInvoice(a.added)) == Some(s2);
      WriteRefinesMachine(c, s, t, req, h, inv, a);
    }
  }

  // A CreateInvoice call that runs alone ends, and leaves the machine as the method leaves
  // the server: the request is refused, or reserved, invoiced, recorded and issued.
  lemma CreateInvoiceRefinesMachine(c: Config, s: State, t: ThreadId, req: WaitingInvoice, a: Answers)
    requires t !in s.core.creators && a.checked == s.now <= a.stamped
    requires a.added.Some? ==> a.added.value !in s.core.invoices
    ensures Complete(c, At(s, t, req, AtPolicy), t, a, 8) == Some(Created(c, s, req, a))
    ensures var e := Created(c, s, req, a);
            var free := Admitted(c, req, a) && !IsPending(c, s.pending, req.targetNode, a.checked);
            && e.pending == (if free then s.pending[req.targetNode := a.stamped] else s.pending)
            && e.core.records == (if free && a.added.Some? then AfterWrite(s.core.records, a.added.value, req, a.write)
                                  else s.core.records)
            && (free && a.added.Some? ==>
                  e.core.invoices[a.added.value] == Invoice(Some(req), WantAtoms(c, req), a.write == Written, Open))
            && (!(free && a.added.Some?) ==> e.core == s.core)
  {
    QueriesRefineMachine(c, s, t, req, a, 4);
    assert s.core.creators - {t} == s.core.creators;
    if Admitted(c, req, a) {
      ReserveRefinesMachine(c, s, t, req, a, 3);
      if !IsPending(c, s.pending, req.targetNode, s.now) {
        InvoiceRefinesMachine(c, Stamped(s, req, a), t, req, a);
      }
    }
  }
}
