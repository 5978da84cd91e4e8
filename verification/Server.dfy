// The server object: the methods whose file operations and locked regions are the steps of
// the protocol machine. Answers of the outside world are parameters.
module Server {
  import opened Wrappers
  import opened Rpc
  import opened Policy
  import opened Widths
  import opened Dcrlnd
  import opened Protocol

  // ---- CreateInvoice ----

  // What the outside world tells one CreateInvoice call: the answers of the queries, the
  // two clock readings, and the fate of AddInvoice and of the record file.
  datatype Answers = Answers(
    listed: Option<nat>,
    peers: Option<seq<string>>,
    utxos: Option<seq<int>>,
    pendingOpen: Option<nat>,
    checked: Time,
    stamped: Time,
    added: Option<Hash>,
    write: WriteOutcome)

  datatype CreateError = Refused(reason: PolicyError) | AddInvoiceFailed | WriteFailed

  predicate IsPeer(peers: Option<seq<string>>, node: NodeID) {
    peers.Some? && NodeIDString(node) in peers.value
  }

  predicate HasFunds(utxos: Option<seq<int>>, chanSize: nat) {
    utxos.Some? && Total(utxos.value) > chanSize
  }

  predicate SaneUtxos(utxos: Option<seq<int>>) {
    utxos.Some? ==> Int64Amounts(utxos.value)
  }

  // The queries speak for the request.
  predicate Admitted(c: Config, req: WaitingInvoice, a: Answers) {
    && CanCreateChannel(c, req, a.listed).None?
    && IsPeer(a.peers, req.targetNode)
    && HasFunds(a.utxos, req.channelSize)
    && !HasMaxPendingChannels(c, a.pendingOpen)
  }

  // The record files once a write has ended one way or another.
  function AfterWrite(records: map<Hash, Stored>, h: Hash, inv: WaitingInvoice, outcome: WriteOutcome): map<Hash, Stored> {
    match outcome
    case Written => records[h := Readable(inv)]
    case WrittenButFailed => records[h := Readable(inv)]
    case PartlyWritten => records[h := Unreadable]
    case NotWritten => records
  }

  // ---- listenToInvoices ----

  datatype InvoiceState = InvoiceOpen | InvoiceSettled | InvoiceCanceled | InvoiceAccepted

  // An update from the subscription, and what the file system will do about it.
  datatype InvoiceUpdate = InvoiceUpdate(state: InvoiceState, rHash: Hash, amtPaidAtoms: nat,
                                         readable: bool, removable: bool)

  // errNotExists, or any other failure to read a record.
  datatype ReadError = NotExists | ReadFailed

  // The files after an update, the order to open a channel for, and whether the listener fails.
  datatype Handled = Handled(records: map<Hash, Stored>, order: Option<Order>, failed: bool)

  function Handle(c: Config, records: map<Hash, Stored>, u: InvoiceUpdate): Handled {
    match u.state
    case InvoiceCanceled =>
      if u.removable then Handled(records - {u.rHash}, None, false) else Handled(records, None, true)
    case InvoiceSettled =>
      if u.rHash !in records then Handled(records, None, false)
      else if !u.readable || records[u.rHash].Unreadable? then Handled(records, None, true)
      else if !PaysFor(c, records[u.rHash].inv, u.amtPaidAtoms) then Handled(records, None, false)
      else if !u.removable then Handled(records, None, true)
      else Handled(records - {u.rHash}, Some(Order(u.rHash, records[u.rHash].inv, u.amtPaidAtoms)), false)
    case _ => Handled(records, None, false)
  }

  // Handling updates one by one until one fails; the orders are those launched.
  function HandleAll(c: Config, records: map<Hash, Stored>, updates: seq<InvoiceUpdate>)
    : (map<Hash, Stored>, seq<Order>, bool)
  {
    if updates == [] then (records, [], false)
    else
      var n := |updates| - 1;
      var (files, orders, failed) := HandleAll(c, records, updates[..n]);
      if failed then (files, orders, true)
      else
        var h := Handle(c, files, updates[n]);
        (h.records, if h.order.Some? then orders + [h.order.value] else orders, h.failed)
  }

  // A sufficient payment on a readable record, and the order it makes.
  predicate IsPurchase(c: Config, records: map<Hash, Stored>, u: InvoiceUpdate) {
    && u.state == InvoiceSettled && u.readable && u.rHash in records && records[u.rHash].Readable?
    && PaysFor(c, records[u.rHash].inv, u.amtPaidAtoms)
  }

  function OrderOf(records: map<Hash, Stored>, u: InvoiceUpdate): Order
    requires u.rHash in records && records[u.rHash].Readable?
  {
    Order(u.rHash, records[u.rHash].inv, u.amtPaidAtoms)
  }

  // No update cancels the invoice of a hash or pays for its record.
  predicate Untouched(c: Config, records: map<Hash, Stored>, updates: seq<InvoiceUpdate>, h: Hash) {
    forall i :: 0 <= i < |updates| && updates[i].rHash == h ==>
      updates[i].state != InvoiceCanceled && !IsPurchase(c, records, updates[i])
  }

  // The i-th update is the first to dispose of its record, by paying for it.
  predicate BuysAt(c: Config, records: map<Hash, Stored>, updates: seq<InvoiceUpdate>, i: int, order: Order) {
    && 0 <= i < |updates| && IsPurchase(c, records, updates[i]) && order == OrderOf(records, updates[i])
    && Untouched(c, records, updates[..i], order.hash)
  }

  // The fees of the recorded sizes fit an int64.
  ghost predicate FeesRepresentable(c: Config, records: map<Hash, Stored>) {
    0.0 <= c.feeRate && forall h :: h in records && records[h].Readable? ==>
      (records[h].inv.channelSize as real * c.feeRate).Floor < TWO_TO_THE_63
  }

  // A settlement of at least the exact fee on a readable record.
  ghost predicate IsPaid(rate: real, records: map<Hash, Stored>, u: InvoiceUpdate) {
    && u.state == InvoiceSettled && u.readable && u.rHash in records && records[u.rHash].Readable?
    && u.amtPaidAtoms >= (records[u.rHash].inv.channelSize as real * rate).Floor
  }

  // The i-th update pays for the order, and none before it cancels or pays for the same record.
  ghost predicate FirstPaid(rate: real, records: map<Hash, Stored>, updates: seq<InvoiceUpdate>, i: int, order: Order) {
    && 0 <= i < |updates| && IsPaid(rate, records, updates[i])
    && order.hash == updates[i].rHash && order.paid == updates[i].amtPaidAtoms && Readable(order.inv) == records[order.hash]
    && forall j :: 0 <= j < i && updates[j].rHash == order.hash ==>
         updates[j].state != InvoiceCanceled && !IsPaid(rate, records, updates[j])
  }

  // ---- openChannel ----

  // What one attempt meets, and whether the context ends during the wait that follows it.
  datatype Attempt = Attempt(peers: Option<seq<string>>, utxos: Option<seq<int>>, accepted: bool, canceled: bool)

  predicate Produces(winv: WaitingInvoice, a: Attempt) {
    IsPeer(a.peers, winv.targetNode) && HasFunds(a.utxos, winv.channelSize) && a.accepted
  }

  // From attempt k on, some attempt is the first to produce a stream, and the context does
  // not end before it.
  predicate Succeeds(winv: WaitingInvoice, attempts: seq<Attempt>, k: nat) {
    exists i :: k <= i < |attempts| && Produces(winv, attempts[i])
                && forall j :: k <= j < i ==> !Produces(winv, attempts[j]) && !attempts[j].canceled
  }

  // The first update that ends the stream or opens the channel decides.
  lemma {:induction false} SeesOpenExactly(updates: seq<OpenUpdate>)
    ensures SeesOpen(updates) <==>
              exists i :: 0 <= i < |updates| && updates[i] == ChanOpen(true)
                          && forall j :: 0 <= j < i ==> updates[j] != EndOfStream && updates[j] != ChanOpen(false)
    decreases |updates|
  {
    if updates != [] {
      var rest := updates[1..];
      SeesOpenExactly(rest);
      if SeesOpen(rest) && updates[0] != EndOfStream && updates[0] != ChanOpen(false) {
        var i :| 0 <= i < |rest| && rest[i] == ChanOpen(true)
                 && forall j :: 0 <= j < i ==> rest[j] != EndOfStream && rest[j] != ChanOpen(false);
        assert updates[i + 1] == ChanOpen(true);
        assert forall j :: 0 < j < i + 1 ==> updates[j] == rest[j - 1];
      }
      if i :| 0 < i < |updates| && updates[i] == ChanOpen(true)
              && forall j :: 0 <= j < i ==> updates[j] != EndOfStream && updates[j] != ChanOpen(false) {
        assert rest[i - 1] == ChanOpen(true);
        assert forall j :: 0 <= j < i - 1 ==> rest[j] == updates[j + 1];
      }
    }
  }

  // The update loop deletes the reservation when it meets a readable ChanOpen.
  predicate SeesOpen(updates: seq<OpenUpdate>) {
    updates != [] && updates[0] != EndOfStream && updates[0] != ChanOpen(false)
    && (updates[0] == ChanOpen(true) || SeesOpen(updates[1..]))
  }

  class Server {
    const c: Config
    var pendingChans: map<NodeID, Time>
    var records: map<Hash, Stored>

    // New: reservations start empty, record files are found as they are.
    constructor (c: Config, files: map<Hash, Stored>)
      ensures this.c == c && pendingChans == map[] && records == files
    {
      this.c := c;
      pendingChans := map[];
      records := files;
    }

    method HasPendingCreateChanReqs(node: NodeID, checked: Time, stamped: Time) returns (pending: bool)
      modifies this`pendingChans
      ensures pending <==> IsPending(c, old(pendingChans), node, checked)
      ensures pending <==> node in old(pendingChans) && old(pendingChans)[node] >= checked - c.invoiceExpiration
      ensures pendingChans == if pending then old(pendingChans) else old(pendingChans)[node := stamped]
    {
      if node in pendingChans && !(pendingChans[node] < checked - c.invoiceExpiration) {
        return true;
      }
      pendingChans := pendingChans[node := stamped];
      return false;
    }

    // One round of the cleaner in Run.
    method CleanUp(now: Time) returns (count: nat)
      modifies this`pendingChans
      ensures pendingChans == Cleaned(c, old(pendingChans), now)
      // What is left is not older than the expiration, and what is gone is.
      ensures forall n :: n in pendingChans <==> n in old(pendingChans) && old(pendingChans)[n] >= now - c.invoiceExpiration
      ensures forall n :: n in pendingChans ==> pendingChans[n] == old(pendingChans)[n]
      ensures count == |old(pendingChans).Keys| - |pendingChans.Keys|
    {
      var limit := now - c.invoiceExpiration;
      var keys := pendingChans.Keys;
      count := 0;
      ghost var before := pendingChans;
      while keys != {}
        invariant keys <= pendingChans.Keys <= before.Keys
        invariant forall n :: n in pendingChans ==> pendingChans[n] == before[n]
        invariant forall n :: n in before && n !in keys ==> (n in pendingChans <==> Unexpired(c, before[n], now))
        invariant count + |pendingChans.Keys| == |before.Keys|
        decreases keys
      {
        var k :| k in keys;
        keys := keys - {k};
        if pendingChans[k] < limit {
          ghost var was := pendingChans.Keys;
          pendingChans := pendingChans - {k};
          count := count + 1;
          assert pendingChans.Keys == was - {k};
        }
      }
    }

    method WriteJsonFile(h: Hash, inv: WaitingInvoice, outcome: WriteOutcome) returns (ok: bool)
      modifies this`records
      ensures ok <==> outcome == Written
      ensures records == AfterWrite(old(records), h, inv, outcome)
      ensures forall g :: g != h ==> (g in records <==> g in old(records)) && (g in records ==> records[g] == old(records)[g])
      ensures outcome == Written || outcome == WrittenButFailed ==> h in records && records[h] == Readable(inv)
      ensures outcome == PartlyWritten ==> h in records && records[h] == Unreadable
      ensures outcome == NotWritten ==> records == old(records)
    {
      match outcome {
        case Written => records := records[h := Readable(inv)];
        case WrittenButFailed => records := records[h := Readable(inv)];
        case PartlyWritten => records := records[h := Unreadable];
        case NotWritten =>
      }
      return outcome == Written;
    }

    method ReadJsonFile(h: Hash, readable: bool) returns (r: Result<WaitingInvoice, ReadError>)
      ensures r == Err(NotExists) <==> h !in records
      ensures r.Ok? <==> h in records && readable && records[h].Readable?
      ensures r.Ok? ==> records[h] == Readable(r.value)
    {
      if h !in records {
        return Err(NotExists);
      }
      if !readable || records[h].Unreadable? {
        return Err(ReadFailed);
      }
      return Ok(records[h].inv);
    }

    method RemoveFile(h: Hash, removable: bool) returns (ok: bool)
      modifies this`records
      ensures ok <==> removable
      ensures records == if ok then old(records) - {h} else old(records)
    {
      if removable {
        records := records - {h};
      }
      return removable;
    }

    // `asked` is the value of the invoice requested from the node, if any.
    method CreateInvoice(node: NodeID, chanSize: nat, a: Answers)
      returns (r: Result<Hash, CreateError>, asked: Option<int>)
      requires c.maxChanSize <= MAX_DCRLND_CHAN_SIZE && SaneUtxos(a.utxos)
      modifies this
      ensures var req := WaitingInvoice(node, chanSize);
              var free := Admitted(c, req, a) && !IsPending(c, old(pendingChans), node, a.checked);
              && (r.Err? && r.error.Refused? <==> !free)
              && (r == Err(AddInvoiceFailed) <==> free && a.added.None?)
              && (r.Ok? <==> free && a.added.Some? && a.write == Written)
              && (r.Ok? ==> a.added == Some(r.value))
              && asked == (if free then Some(WantAtoms(c, req)) else None)
              && pendingChans == (if free then old(pendingChans)[node := a.stamped] else old(pendingChans))
              && records == (if free && a.added.Some? then AfterWrite(old(records), a.added.value, req, a.write)
                             else old(records))
      // In terms of the answers: the checks are made in order, the first that fails gives the
      // reason, and the node is reserved by the last of them.
      ensures var policy := CanCreateChannel(c, WaitingInvoice(node, chanSize), a.listed);
              var connected := a.peers.Some? && NodeIDString(node) in a.peers.value;
              var funded := a.utxos.Some? && Total(a.utxos.value) > chanSize;
              var room := a.pendingOpen.Some? && a.pendingOpen.value < c.maxPendingChans;
              var reserved := node in old(pendingChans) && old(pendingChans)[node] >= a.checked - c.invoiceExpiration;
              && (policy.Some? ==> r == Err(Refused(policy.value)))
              && (r == Err(Refused(PeerUnconnected)) <==> policy.None? && !connected)
              && (r == Err(Refused(NotEnoughUtxos)) <==> policy.None? && connected && !funded)
              && (r == Err(Refused(TooManyPendingChans)) <==> policy.None? && connected && funded && !room)
              && (r == Err(Refused(HasPendingOpenChan)) <==> policy.None? && connected && funded && room && reserved)
              && (r == Err(AddInvoiceFailed) <==> policy.None? && connected && funded && room && !reserved && a.added.None?)
              && (r.Ok? <==> policy.None? && connected && funded && room && !reserved && a.added.Some? && a.write == Written)
      // While fees fit an int64, the invoice is for the fee of the size.
      ensures asked.Some? && 0.0 <= c.feeRate && (chanSize as real * c.feeRate).Floor < TWO_TO_THE_63 ==>
                asked.value == (chanSize as real * c.feeRate).Floor
    {
      var invRecord := WaitingInvoice(node, chanSize);
      var err := CanCreateChannel(c, invRecord, a.listed);
      if err.None? {
        var connected := IsConnectedToNode(a.peers, node);
        err := if connected then None else Some(PeerUnconnected);
      }
      if err.None? {
        var enough := HasUnspentForNewChannel(a.utxos, chanSize);
        err := if enough then None else Some(NotEnoughUtxos);
      }
      if err.None? && HasMaxPendingChannels(c, a.pendingOpen) {
        err := Some(TooManyPendingChans);
      }
      if err.None? {
        var pending := HasPendingCreateChanReqs(node, a.checked, a.stamped);
        err := if pending then Some(HasPendingOpenChan) else None;
      }
      if err.Some? {
        return Err(Refused(err.value)), None;
      }
      var amount := AmountForNewChan(c, chanSize);
      asked := Some(AsInt64(amount));
      if 0.0 <= c.feeRate && (chanSize as real * c.feeRate).Floor < TWO_TO_THE_63 {
        FeeUncast(c, invRecord);
      }
      if a.added.None? {
        return Err(AddInvoiceFailed), asked;
      }
      var written := WriteJsonFile(a.added.value, invRecord, a.write);
      if !written {
        return Err(WriteFailed), asked;
      }
      return Ok(a.added.value), asked;
    }

    // One connection of listenToInvoices: the updates that arrive before the stream ends.
    method ListenToInvoices(updates: seq<InvoiceUpdate>) returns (launched: seq<Order>, failed: bool)
      modifies this`records
      ensures (records, launched, failed) == HandleAll(c, old(records), updates)
      // Unless it fails it launches, once for each record whose first disposal is a payment
      // of at least the fee, exactly the node and size of that record.
      ensures !failed && FeesRepresentable(c, old(records)) ==>
                forall order :: order in launched <==>
                  exists i :: FirstPaid(c.feeRate, old(records), updates, i, order)
    {
      launched := [];
      ghost var before := records;
      var i := 0;
      while i < |updates|
        invariant 0 <= i <= |updates|
        invariant (records, launched, false) == HandleAll(c, before, updates[..i])
      {
        var inv := updates[i];
        assert updates[..i + 1][..i] == updates[..i];
        ghost var next := updates[..i + 1];
        i := i + 1;
        match inv.state {
          case InvoiceCanceled =>
            var removed := RemoveFile(inv.rHash, inv.removable);
            if !removed {
              HandleAllStops(c, before, updates, i);
              return launched, true;
            }
          case InvoiceSettled =>
            var read := ReadJsonFile(inv.rHash, inv.readable);
            if read == Err(NotExists) {
              continue;
            }
            if read.Err? {
              HandleAllStops(c, before, updates, i);
              return launched, true;
            }
            var winv := read.value;
            if inv.amtPaidAtoms < WantAtoms(c, winv) {
              continue;
            }
            var removed := RemoveFile(inv.rHash, inv.removable);
            if !removed {
              HandleAllStops(c, before, updates, i);
              return launched, true;
            }
            launched := launched + [Order(inv.rHash, winv, inv.amtPaidAtoms)];
          case _ =>
        }
      }
      assert updates[..i] == updates;
      if FeesRepresentable(c, before) {
        LaunchesPaid(c, before, updates);
      }
      return launched, false;
    }

    // openChannel up to the end of its update stream. `attempt` counts from 0 as the loop
    // variable does; `waits` lists the delays begun, in seconds.
    method OpenChannel(winv: WaitingInvoice, listed: Option<nat>, attempts: seq<Attempt>, updates: seq<OpenUpdate>)
      returns (streamed: bool, attempt: nat, waits: seq<nat>)
      requires |attempts| == 3 && c.maxChanSize <= MAX_DCRLND_CHAN_SIZE
      requires forall i :: 0 <= i < 3 ==> SaneUtxos(attempts[i].utxos)
      modifies this`pendingChans
      // A stream is followed exactly when the policy still holds and some attempt was the
      // first to produce one, none before it having been canceled.
      ensures streamed <==> CanCreateChannel(c, winv, listed).None? && Succeeds(winv, attempts, 0)
      ensures streamed <==>
                && CanCreateChannel(c, winv, listed).None?
                && (|| Produces(winv, attempts[0])
                    || (!attempts[0].canceled
                        && (Produces(winv, attempts[1]) || (!attempts[1].canceled && Produces(winv, attempts[2])))))
      // Attempts are made in order, at most three of them, the second after 30 seconds and
      // the third after 60 more.
      ensures attempt <= 2 && |waits| <= 2 && (forall i :: 0 <= i < |waits| ==> waits[i] == 30 * (i + 1))
      ensures forall j :: 0 <= j < attempt ==> !Produces(winv, attempts[j]) && !attempts[j].canceled
      ensures CanCreateChannel(c, winv, listed).Some? ==> attempt == 0 && waits == []
      ensures streamed ==> Produces(winv, attempts[attempt]) && |waits| == attempt
      ensures !streamed && CanCreateChannel(c, winv, listed).None? ==>
                || (attempt == 2 && |waits| == 2)
                || (attempt < 2 && attempts[attempt].canceled && |waits| == attempt + 1)
      ensures pendingChans == if streamed && SeesOpen(updates) then old(pendingChans) - {winv.targetNode} else old(pendingChans)
    {
      waits, attempt, streamed := [], 0, false;
      if CanCreateChannel(c, winv, listed).Some? {
        return;
      }
      while attempt < MAX_ATTEMPTS
        invariant attempt < MAX_ATTEMPTS && !streamed
        invariant |waits| == attempt && forall i :: 0 <= i < attempt ==> waits[i] == 30 * (i + 1)
        invariant forall j :: 0 <= j < attempt ==> !Produces(winv, attempts[j]) && !attempts[j].canceled
        invariant pendingChans == old(pendingChans)
        decreases MAX_ATTEMPTS - attempt
      {
        streamed := AttemptOpen(winv, attempts[attempt]);
        if streamed {
          break;
        }
        if attempt == MAX_ATTEMPTS - 1 {
          return;
        }
        waits := waits + [30 * (attempt + 1)];
        if attempts[attempt].canceled {
          return;
        }
        attempt := attempt + 1;
      }
      FollowUpdates(winv.targetNode, updates);
    }

    method AttemptOpen(winv: WaitingInvoice, a: Attempt) returns (ok: bool)
      requires winv.channelSize <= MAX_DCRLND_CHAN_SIZE && SaneUtxos(a.utxos)
      ensures ok <==> Produces(winv, a)
      ensures ok <==>
                && a.peers.Some? && NodeIDString(winv.targetNode) in a.peers.value
                && a.utxos.Some? && Total(a.utxos.value) > winv.channelSize
                && a.accepted
    {
      var connected := IsConnectedToNode(a.peers, winv.targetNode);
      if !connected {
        return false;
      }
      var enough := HasUnspentForNewChannel(a.utxos, winv.channelSize);
      return enough && a.accepted;
    }

    method FollowUpdates(node: NodeID, updates: seq<OpenUpdate>)
      modifies this`pendingChans
      ensures pendingChans == if SeesOpen(updates) then old(pendingChans) - {node} else old(pendingChans)
      ensures var opens := exists i :: 0 <= i < |updates| && updates[i] == ChanOpen(true)
                             && forall j :: 0 <= j < i ==> updates[j] != EndOfStream && updates[j] != ChanOpen(false);
              pendingChans == if opens then old(pendingChans) - {node} else old(pendingChans)
    {
      SeesOpenExactly(updates);
      var i := 0;
      ghost var before := pendingChans;
      ghost var seen := false;
      while i < |updates|
        invariant 0 <= i <= |updates|
        invariant pendingChans == if seen then before - {node} else before
        invariant SeesOpen(updates) <==> seen || SeesOpen(updates[i..])
      {
        var update := updates[i];
        assert updates[i..][1..] == updates[i + 1..];
        i := i + 1;
        match update {
          case EndOfStream => return;
          case ChanOpen(txidReadable) =>
            if !txidReadable {
              return;
            }
            pendingChans := pendingChans - {node};
            seen := true;
          case _ =>
        }
      }
    }
  }

  // A failure ends the handling of a connection.
  lemma {:induction false} HandleAllStops(c: Config, records: map<Hash, Stored>, updates: seq<InvoiceUpdate>, i: nat)
    requires i <= |updates| && HandleAll(c, records, updates[..i]).2
    ensures HandleAll(c, records, updates) == HandleAll(c, records, updates[..i])
    decreases |updates|
  {
    if i == |updates| {
      assert updates[..i] == updates;
    } else {
      var n := |updates| - 1;
      assert updates[..n][..i] == updates[..i];
      HandleAllStops(c, records, updates[..n], i);
    }
  }

  lemma UntouchedSnoc(c: Config, records: map<Hash, Stored>, updates: seq<InvoiceUpdate>, h: Hash)
    requires updates != []
    ensures var last := updates[|updates| - 1];
            Untouched(c, records, updates, h) <==>
              && Untouched(c, records, updates[..|updates| - 1], h)
              && (last.rHash == h ==> last.state != InvoiceCanceled && !IsPurchase(c, records, last))
  {
    var n := |updates| - 1;
    assert forall i :: 0 <= i < n ==> updates[..n][i] == updates[i];
  }

  // A connection that does not fail leaves exactly the records that no update cancels or
  // pays for.
  lemma {:induction false} RecordsLeft(c: Config, records: map<Hash, Stored>, updates: seq<InvoiceUpdate>)
    requires !HandleAll(c, records, updates).2
    ensures HandleAll(c, records, updates).0 == map h | h in records && Untouched(c, records, updates, h) :: records[h]
  {
    if updates != [] {
      var n := |updates| - 1;
      RecordsLeft(c, records, updates[..n]);
      forall h ensures h in HandleAll(c, records, updates).0 <==> h in records && Untouched(c, records, updates, h) {
        UntouchedSnoc(c, records, updates, h);
      }
    }
  }

  lemma BuysAtSnoc(c: Config, records: map<Hash, Stored>, updates: seq<InvoiceUpdate>, i: int, order: Order)
    requires updates != [] && i < |updates| - 1
    ensures BuysAt(c, records, updates, i, order) <==> BuysAt(c, records, updates[..|updates| - 1], i, order)
  {
    if 0 <= i {
      assert updates[..|updates| - 1][..i] == updates[..i];
    }
  }

  ghost predicate Bought(c: Config, records: map<Hash, Stored>, updates: seq<InvoiceUpdate>, order: Order) {
    exists i :: BuysAt(c, records, updates, i, order)
  }

  lemma BoughtSnoc(c: Config, records: map<Hash, Stored>, updates: seq<InvoiceUpdate>, order: Order)
    requires updates != []
    ensures Bought(c, records, updates, order) <==>
              Bought(c, records, updates[..|updates| - 1], order) || BuysAt(c, records, updates, |updates| - 1, order)
  {
    var n := |updates| - 1;
    if i :| BuysAt(c, records, updates, i, order) {
      if i < n {
        BuysAtSnoc(c, records, updates, i, order);
      }
    }
    if i :| BuysAt(c, records, updates[..n], i, order) {
      BuysAtSnoc(c, records, updates, i, order);
    }
  }

  // It launches exactly one channel for each record whose first disposal is a sufficient
  // payment, with the node and size of the record.
  lemma {:induction false} LaunchesExactly(c: Config, records: map<Hash, Stored>, updates: seq<InvoiceUpdate>)
    requires !HandleAll(c, records, updates).2
    ensures var orders := HandleAll(c, records, updates).1;
            && (forall order :: order in orders <==> Bought(c, records, updates, order))
            && (forall i, j :: 0 <= i < j < |orders| ==> orders[i].hash != orders[j].hash)
  {
    if updates != [] {
      var n := |updates| - 1;
      LaunchesExactly(c, records, updates[..n]);
      RecordsLeft(c, records, updates[..n]);
      var (files, orders, _) := HandleAll(c, records, updates[..n]);
      forall order | order in orders ensures order.hash !in files {
        BoughtIsGone(c, records, updates[..n], order);
      }
      forall order ensures order in HandleAll(c, records, updates).1 <==> Bought(c, records, updates, order) {
        BoughtSnoc(c, records, updates, order);
      }
    }
  }

  lemma BoughtIsGone(c: Config, records: map<Hash, Stored>, updates: seq<InvoiceUpdate>, order: Order)
    requires Bought(c, records, updates, order)
    ensures !Untouched(c, records, updates, order.hash)
  {}

  // One update, in its own terms and in those of its record: what it launches and removes,
  // and when it makes the listener fail.
  lemma UpdateExactly(c: Config, records: map<Hash, Stored>, u: InvoiceUpdate)
    requires 0.0 <= c.feeRate
    requires u.rHash in records && records[u.rHash].Readable? ==>
               (records[u.rHash].inv.channelSize as real * c.feeRate).Floor < 9_223_372_036_854_775_808
    ensures var (files, orders, failed) := HandleAll(c, records, [u]);
            var known := u.rHash in records;
            var intact := known && u.readable && records[u.rHash].Readable?;
            var paid := intact && u.amtPaidAtoms >= (records[u.rHash].inv.channelSize as real * c.feeRate).Floor;
            var canceled, settled := u.state == InvoiceCanceled, u.state == InvoiceSettled;
            && (failed <==> (canceled && !u.removable) || (settled && known && (!intact || (paid && !u.removable))))
            && (settled && paid && u.removable ==>
                  orders == [Order(u.rHash, records[u.rHash].inv, u.amtPaidAtoms)])
            && (!(settled && paid && u.removable) ==> orders == [])
            && files == if u.removable && (canceled || (settled && paid)) then records - {u.rHash} else records
  {
    if u.rHash in records && records[u.rHash].Readable? {
      AcceptedExactly(c, records[u.rHash].inv, u.amtPaidAtoms);
    }
    assert [u][..0] == [];
    assert HandleAll(c, records, [u][..0]) == (records, [], false);
  }

  lemma PaidIsPurchase(c: Config, records: map<Hash, Stored>, u: InvoiceUpdate)
    requires FeesRepresentable(c, records)
    ensures IsPurchase(c, records, u) <==> IsPaid(c.feeRate, records, u)
  {
    if u.rHash in records && records[u.rHash].Readable? {
      AcceptedExactly(c, records[u.rHash].inv, u.amtPaidAtoms);
    }
  }

  lemma FirstPaidBuys(c: Config, records: map<Hash, Stored>, updates: seq<InvoiceUpdate>, i: int, order: Order)
    requires FeesRepresentable(c, records)
    ensures FirstPaid(c.feeRate, records, updates, i, order) <==> BuysAt(c, records, updates, i, order)
  {
    if 0 <= i < |updates| {
      forall j | 0 <= j <= i ensures IsPurchase(c, records, updates[j]) <==> IsPaid(c.feeRate, records, updates[j]) {
        PaidIsPurchase(c, records, updates[j]);
      }
      assert forall j :: 0 <= j < i ==> updates[..i][j] == updates[j];
    }
  }

  // LaunchesExactly in terms of exact fees.
  lemma LaunchesPaid(c: Config, records: map<Hash, Stored>, updates: seq<InvoiceUpdate>)
    requires FeesRepresentable(c, records) && !HandleAll(c, records, updates).2
    ensures forall order :: order in HandleAll(c, records, updates).1 <==>
              exists i :: FirstPaid(c.feeRate, records, updates, i, order)
  {
    LaunchesExactly(c, records, updates);
    forall order ensures Bought(c, records, updates, order) <==>
                         exists i :: FirstPaid(c.feeRate, records, updates, i, order)
    {
      forall i ensures FirstPaid(c.feeRate, records, updates, i, order) <==> BuysAt(c, records, updates, i, order) {
        FirstPaidBuys(c, records, updates, i, order);
      }
    }
  }
}
