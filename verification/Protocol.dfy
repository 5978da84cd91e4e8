// The paid-invoice-to-channel protocol as a step machine.
//
// Threads: any number of CreateInvoice calls, one invoice listener, any number of
// openChannel calls, and one cleaner. They share `pending` (guarded by a mutex) and the
// record files. Each RPC, each file operation and each locked region is one step; the
// answers of the outside world are part of the step, so the next state is a function.
module Protocol {
  import opened Wrappers
  import opened Rpc
  import opened Policy
  import opened Widths

  type Hash = seq<byte>
  type ThreadId = nat
  type Time = int

  // ---- shared state ----

  // A record file; `Unreadable` is what a failed write may leave behind.
  datatype Stored = Readable(inv: WaitingInvoice) | Unreadable

  // An invoice in the ledger of the underlying node. `request` is present on invoices
  // made by CreateInvoice; `issued` once its payment request has left the server.
  datatype Invoice = Invoice(request: Option<WaitingInvoice>, value: int, issued: bool, status: InvoiceStatus)
  datatype InvoiceStatus = Open | Canceled | Settled(paid: nat)

  // A paid record: what the listener hands to openChannel.
  datatype Order = Order(hash: Hash, inv: WaitingInvoice, paid: nat)

  // ---- threads ----

  datatype Creator = Creator(req: WaitingInvoice, pc: CreatorPc)
  datatype CreatorPc =
    | AtPolicy | AtPeers | AtUtxos | AtPendingChans | AtReserve | AtAddInvoice
    | AtWrite(hash: Hash) | AtReturn(hash: Hash)

  datatype Listener =
    | Disconnected
    | Receiving
    | CancelRemove(hash: Hash)
    | SettledRead(hash: Hash, paid: nat)
    | SettledRemove(order: Order)
    | Launch(order: Order)
    | Stopped

  const MAX_ATTEMPTS := 3

  datatype Opener = Opener(order: Order, pc: OpenerPc)
  datatype OpenerPc =
    | AtCheck
    | TryPeers(attempt: nat) | TryUtxos(attempt: nat) | TryOpen(attempt: nat)
    | Waiting(attempt: nat)
    | Updates
    | Ended

  // What happened to the reservations of nodes, oldest first.
  datatype Entry = Accepted(node: NodeID, time: Time) | Rejected(node: NodeID) | ChanOpened(node: NodeID) | Restarted

  datatype Core = Core(
    records: map<Hash, Stored>,
    invoices: map<Hash, Invoice>,
    creators: map<ThreadId, Creator>,
    listener: Listener,
    openers: map<ThreadId, Opener>,
    // History: records removed on payment, openChannel launches, OpenChannel streams
    // obtained.
    consumed: seq<Order>,
    launched: seq<Order>,
    streams: seq<Order>)

  datatype State = State(now: Time, pending: map<NodeID, Time>, log: seq<Entry>, core: Core)

  const INIT := State(0, map[], [], Core(map[], map[], map[], Disconnected, map[], [], [], []))

  // ---- steps ----

  datatype CreatorAct =
    | Begin(req: WaitingInvoice)
    | AskPolicy(listed: Option<nat>)
    | AskPeers(connected: bool)
    | AskUtxos(enough: bool)
    | AskPendingChans(full: bool)
    | Reserve(elapsed: nat)
    | AddInvoice(answer: Option<Hash>)
    | Write(outcome: WriteOutcome)
    | Return

  // A write that fails may leave nothing, part of the record, or all of it.
  datatype WriteOutcome = Written | NotWritten | PartlyWritten | WrittenButFailed

  datatype ListenerAct =
    | Subscribe(connected: bool)
    | DropStream
    | Deliver(event: Event)
    | RemoveFile(done: bool)
    | ReadFile(readable: bool)
    | StartOpener(thread: ThreadId)

  datatype Event = CanceledEvent(hash: Hash) | SettledEvent(hash: Hash, paid: nat) | OtherEvent

  datatype OpenerAct =
    | Recheck(listed: Option<nat>)
    | FindPeer(connected: bool)
    | FindUtxos(enough: bool)
    | CallOpen(accepted: bool)
    | EndWait(elapsed: bool)
    | Update(update: OpenUpdate)

  datatype OpenUpdate = ChanPending | ChanOpen(txidReadable: bool) | OtherUpdate | EndOfStream

  datatype EnvAct =
    | Tick(elapsed: nat)
    | Settle(hash: Hash, paid: nat)
    | Cancel(hash: Hash)
    | AddForeign(hash: Hash, value: int)
    | CrashRestart

  datatype Step =
    | CreatorStep(t: ThreadId, cact: CreatorAct)
    | ListenerStep(lact: ListenerAct)
    | OpenerStep(t: ThreadId, oact: OpenerAct)
    | CleanStep
    | EnvStep(eact: EnvAct)

  // ---- the locked regions of pendingChans ----

  // The test `!t.Before(now - expiration)`.
  predicate Unexpired(c: Config, t: Time, now: Time) {
    t >= now - c.invoiceExpiration
  }

  predicate IsPending(c: Config, pending: map<NodeID, Time>, node: NodeID, now: Time) {
    node in pending && Unexpired(c, pending[node], now)
  }

  function Cleaned(c: Config, pending: map<NodeID, Time>, now: Time): map<NodeID, Time> {
    map n | n in pending && Unexpired(c, pending[n], now) :: pending[n]
  }

  // ---- transitions; None means that the step cannot happen ----

  function Lift(s: State, core: Option<Core>): Option<State> {
    match core
    case None => None
    case Some(next) => Some(s.(core := next))
  }

  function StepCreator(c: Config, s: State, t: ThreadId, act: CreatorAct): Option<State> {
    if t in s.core.creators && s.core.creators[t].pc.AtReserve? && act.Reserve?
    then Some(ReserveNode(c, s, t, act.elapsed))
    else Lift(s, NextCreator(c, s.core, t, act))
  }

  // hasPendingCreateChanReqs: one locked region that reads the clock for the test and,
  // `elapsed` later, again for the entry.
  function ReserveNode(c: Config, s: State, t: ThreadId, elapsed: nat): State
    requires t in s.core.creators
  {
    var node := s.core.creators[t].req.targetNode;
    if IsPending(c, s.pending, node, s.now) then
      s.(log := s.log + [Rejected(node)], core := GoOn(s.core, t, false, AtReserve))
    else
      var stamp := s.now + elapsed;
      State(stamp, s.pending[node := stamp], s.log + [Accepted(node, stamp)], GoOn(s.core, t, true, AtAddInvoice))
  }

  // The steps of CreateInvoice other than the reservation of its node.
  function NextCreator(c: Config, s: Core, t: ThreadId, act: CreatorAct): Option<Core> {
    if t !in s.creators then
      if act.Begin? then Some(s.(creators := s.creators[t := Creator(act.req, AtPolicy)])) else None
    else
      match Verdict(c, s.creators[t], act)
      case Some((on, next)) => Some(GoOn(s, t, on, next))
      case None => NextInvoicing(c, s, t, act)
  }

  // Whether a policy question is answered in favour of the request, and what comes next.
  function Verdict(c: Config, creator: Creator, act: CreatorAct): Option<(bool, CreatorPc)> {
    match (creator.pc, act)
    case (AtPolicy, AskPolicy(listed)) => Some((CanCreateChannel(c, creator.req, listed).None?, AtPeers))
    case (AtPeers, AskPeers(connected)) => Some((connected, AtUtxos))
    case (AtUtxos, AskUtxos(enough)) => Some((enough, AtPendingChans))
    case (AtPendingChans, AskPendingChans(full)) => Some((!full, AtReserve))
    case _ => None
  }

  // CreateInvoice from the invoice on.
  function NextInvoicing(c: Config, s: Core, t: ThreadId, act: CreatorAct): Option<Core>
    requires t in s.creators
  {
    var req := s.creators[t].req;
    match (s.creators[t].pc, act)
    case (AtAddInvoice, AddInvoice(None)) => Some(GoOn(s, t, false, AtAddInvoice))
    case (AtAddInvoice, AddInvoice(Some(h))) =>
      // The node hands out a payment hash only once.
      if h in s.invoices then None
      else
        var value := AsInt64(AmountForNewChan(c, req.channelSize));
        Some(GoOn(s, t, true, AtWrite(h)).(invoices := s.invoices[h := Invoice(Some(req), value, false, Open)]))
    case (AtWrite(h), Write(Written)) =>
      Some(GoOn(s, t, true, AtReturn(h)).(records := s.records[h := Readable(req)]))
    case (AtWrite(h), Write(NotWritten)) => Some(GoOn(s, t, false, AtWrite(h)))
    case (AtWrite(h), Write(PartlyWritten)) =>
      Some(GoOn(s, t, false, AtWrite(h)).(records := s.records[h := Unreadable]))
    case (AtWrite(h), Write(WrittenButFailed)) =>
      Some(GoOn(s, t, false, AtWrite(h)).(records := s.records[h := Readable(req)]))
    case (AtReturn(h), Return) =>
      if h !in s.invoices then None
      else Some(GoOn(s, t, false, AtReturn(h)).(invoices := s.invoices[h := s.invoices[h].(issued := true)]))
    case _ => None
  }

  // The thread moves on, or returns to its caller.
  function GoOn(s: Core, t: ThreadId, on: bool, pc: CreatorPc): Core
    requires t in s.creators
  {
    if on then s.(creators := s.creators[t := s.creators[t].(pc := pc)])
    else s.(creators := s.creators - {t})
  }

  function StepListener(c: Config, s: Core, act: ListenerAct): Option<Core> {
    match (s.listener, act)
    case (CancelRemove(h), RemoveFile(true)) => Some(s.(records := s.records - {h}, listener := Receiving))
    case (SettledRemove(order), RemoveFile(true)) =>
      Some(s.(records := s.records - {order.hash}, consumed := s.consumed + [order], listener := Launch(order)))
    case (Launch(order), StartOpener(t)) =>
      if t in s.openers then None
      else Some(s.(openers := s.openers[t := Opener(order, AtCheck)], launched := s.launched + [order], listener := Receiving))
    case _ =>
      match NextListener(c, s.listener, s.records, s.invoices, act)
      case Some(next) => Some(s.(listener := next))
      case None => None
  }

  // The listener steps that change nothing but the listener. Any event that agrees with
  // the ledger may arrive, any number of times.
  function NextListener(c: Config, listener: Listener, records: map<Hash, Stored>, invoices: map<Hash, Invoice>,
                        act: ListenerAct): Option<Listener>
  {
    match (listener, act)
    case (Disconnected, Subscribe(connected)) => Some(if connected then Receiving else Disconnected)
    case (Receiving, DropStream) => Some(Disconnected)
    case (Receiving, Deliver(CanceledEvent(h))) =>
      if h in invoices && invoices[h].status == Canceled then Some(CancelRemove(h)) else None
    case (Receiving, Deliver(SettledEvent(h, paid))) =>
      if h in invoices && invoices[h].status == Settled(paid) then Some(SettledRead(h, paid)) else None
    case (Receiving, Deliver(OtherEvent)) => Some(Receiving)
    case (CancelRemove(h), RemoveFile(false)) => Some(Stopped)
    case (SettledRemove(order), RemoveFile(false)) => Some(Stopped)
    case (SettledRead(h, paid), ReadFile(readable)) =>
      Some(if h !in records then Receiving
           else if !readable || records[h].Unreadable? then Stopped
           else if !PaysFor(c, records[h].inv, paid) then Receiving
           else SettledRemove(Order(h, records[h].inv, paid)))
    case _ => None
  }

  function StepOpener(c: Config, s: State, t: ThreadId, act: OpenerAct): Option<State> {
    if t !in s.core.openers then None
    else
      var opener := s.core.openers[t];
      if opener.pc.Updates? && act == Update(ChanOpen(true)) then
        var node := opener.order.inv.targetNode;
        Some(s.(pending := s.pending - {node}, log := s.log + [ChanOpened(node)]))
      else
        match NextOpener(c, opener, act)
        case None => None
        case Some(pc) => Some(s.(core := MoveOpener(s.core, t, pc)))
  }

  // Where openChannel goes next.
  function NextOpener(c: Config, opener: Opener, act: OpenerAct): Option<OpenerPc> {
    match (opener.pc, act)
    case (AtCheck, Recheck(listed)) =>
      Some(if CanCreateChannel(c, opener.order.inv, listed).None? then TryPeers(0) else Ended)
    case (TryPeers(k), FindPeer(connected)) => Some(if connected then TryUtxos(k) else AfterFailure(k))
    case (TryUtxos(k), FindUtxos(enough)) => Some(if enough then TryOpen(k) else AfterFailure(k))
    case (TryOpen(k), CallOpen(accepted)) => Some(if accepted then Updates else AfterFailure(k))
    case (Waiting(k), EndWait(elapsed)) => Some(if elapsed then TryPeers(k + 1) else Ended)
    case (Updates, Update(EndOfStream)) => Some(Ended)
    case (Updates, Update(ChanOpen(false))) => Some(Ended)
    case (Updates, Update(_)) => Some(Updates)
    case _ => None
  }

  // After an attempt that produced no stream.
  function AfterFailure(attempt: nat): OpenerPc {
    if attempt >= MAX_ATTEMPTS - 1 then Ended else Waiting(attempt)
  }

  // Entering the update loop is what obtaining a stream means.
  function MoveOpener(s: Core, t: ThreadId, pc: OpenerPc): Core
    requires t in s.openers
  {
    var opener := s.openers[t];
    s.(openers := s.openers[t := opener.(pc := pc)],
       streams := if pc.Updates? && !opener.pc.Updates? then s.streams + [opener.order] else s.streams)
  }

  function StepEnv(s: State, act: EnvAct): Option<State> {
    match act
    case Tick(elapsed) => Some(s.(now := s.now + elapsed))
    case CrashRestart =>
      // Records and the node's ledger survive; everything in memory is lost.
      Some(s.(pending := map[], log := s.log + [Restarted],
              core := s.core.(creators := map[], listener := Disconnected, openers := map[])))
    case _ =>
      match NextLedger(s.core.invoices, act)
      case Some(invoices) => Some(s.(core := s.core.(invoices := invoices)))
      case None => None
  }

  // What happens to invoices outside the server.
  function NextLedger(invoices: map<Hash, Invoice>, act: EnvAct): Option<map<Hash, Invoice>> {
    match act
    case Settle(h, paid) =>
      // An invoice can be paid once someone has its payment request.
      if h in invoices && invoices[h].issued && invoices[h].status == Open
      then Some(invoices[h := invoices[h].(status := Settled(paid))]) else None
    case Cancel(h) =>
      if h in invoices && invoices[h].status == Open
      then Some(invoices[h := invoices[h].(status := Canceled)]) else None
    case AddForeign(h, value) =>
      if h in invoices then None else Some(invoices[h := Invoice(None, value, true, Open)])
    case _ => None
  }

  function Apply(c: Config, s: State, step: Step): Option<State> {
    match step
    case CreatorStep(t, act) => StepCreator(c, s, t, act)
    case ListenerStep(act) => Lift(s, StepListener(c, s.core, act))
    case OpenerStep(t, act) => StepOpener(c, s, t, act)
    case CleanStep => Some(s.(pending := Cleaned(c, s.pending, s.now)))
    case EnvStep(act) => StepEnv(s, act)
  }

  // The state after a run of steps, None if some step could not happen.
  function Exec(c: Config, s: State, steps: seq<Step>): Option<State> {
    if steps == [] then Some(s)
    else
      match Exec(c, s, steps[..|steps| - 1])
      case None => None
      case Some(mid) => Apply(c, mid, steps[|steps| - 1])
  }

  // The states that some run from a fresh installation leads to.
  ghost predicate Reachable(c: Config, s: State) {
    exists steps: seq<Step> :: Exec(c, INIT, steps) == Some(s)
  }

  // Runs compose.
  lemma {:induction false} ExecConcat(c: Config, s: State, first: seq<Step>, second: seq<Step>)
    ensures Exec(c, s, first + second) ==
            (if Exec(c, s, first).None? then None else Exec(c, Exec(c, s, first).value, second))
  {
    if second == [] {
      assert first + second == first;
    } else {
      var n := |second| - 1;
      ExecConcat(c, s, first, second[..n]);
      assert (first + second)[..|first + second| - 1] == first + second[..n];
    }
  }

  lemma ExecCons(c: Config, s: State, step: Step, next: State, rest: seq<Step>)
    requires Apply(c, s, step) == Some(next)
    ensures Exec(c, s, [step] + rest) == Exec(c, next, rest)
  {
    assert [step][..0] == [];
    assert Exec(c, s, [step]) == Some(next);
    ExecConcat(c, s, [step], rest);
  }
}
