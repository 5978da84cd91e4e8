// The reservations of nodes in pendingChans: the cleaner cannot be noticed, and accepted
// reservations for one node are spaced apart.
module Reservations {
  import opened Wrappers
  import opened Rpc
  import opened Policy
  import opened Protocol
  
  // ---- the cleaner is invisible ----

  // What a node's entry means to hasPendingCreateChanReqs, now or at any later time.
  function LiveEntry(c: Config, pending: map<NodeID, Time>, now: Time, node: NodeID): Option<Time> {
    if IsPending(c, pending, node, now) then Some(pending[node]) else None
  }

  ghost predicate SameLive(c: Config, p: map<NodeID, Time>, q: map<NodeID, Time>, now: Time) {
    forall node: NodeID :: LiveEntry(c, p, now, node) == LiveEntry(c, q, now, node)
  }

  // The states are equal but for expired entries of pendingChans.
  ghost predicate Agree(c: Config, s: State, t: State) {
    t == s.(pending := t.pending) && SameLive(c, s.pending, t.pending, s.now)
  }

  ghost predicate AgreeAfter(c: Config, s: Option<State>, t: Option<State>) {
    s.Some? == t.Some? && (s.Some? ==> Agree(c, s.value, t.value))
  }

  lemma LiveLater(c: Config, p: map<NodeID, Time>, q: map<NodeID, Time>, now: Time, later: Time)
    requires SameLive(c, p, q, now) && now <= later
    ensures SameLive(c, p, q, later)
  {
    forall node: NodeID ensures LiveEntry(c, p, later, node) == LiveEntry(c, q, later, node) {
      assert LiveEntry(c, p, now, node) == LiveEntry(c, q, now, node);
    }
  }

  lemma LiveStamped(c: Config, p: map<NodeID, Time>, q: map<NodeID, Time>, now: Time, node: NodeID, stamp: Time)
    requires SameLive(c, p, q, now)
    ensures SameLive(c, p[node := stamp], q[node := stamp], now)
  {
    var p', q' := p[node := stamp], q[node := stamp];
    forall n: NodeID ensures LiveEntry(c, p', now, n) == LiveEntry(c, q', now, n) {
      assert LiveEntry(c, p, now, n) == LiveEntry(c, q, now, n);
    }
  }

  lemma LiveDeleted(c: Config, p: map<NodeID, Time>, q: map<NodeID, Time>, now: Time, node: NodeID)
    requires SameLive(c, p, q, now)
    ensures SameLive(c, p - {node}, q - {node}, now)
  {
    forall n: NodeID ensures LiveEntry(c, p - {node}, now, n) == LiveEntry(c, q - {node}, now, n) {
      assert LiveEntry(c, p, now, n) == LiveEntry(c, q, now, n);
    }
  }

  lemma CleanAgrees(c: Config, s: State)
    ensures Agree(c, s.(pending := Cleaned(c, s.pending, s.now)), s)
  {}

  lemma ReserveAgrees(c: Config, s: State, t: State, thread: ThreadId, elapsed: nat)
    requires Agree(c, s, t) && thread in s.core.creators
    ensures Agree(c, ReserveNode(c, s, thread, elapsed), ReserveNode(c, t, thread, elapsed))
  {
    var node := s.core.creators[thread].req.targetNode;
    assert LiveEntry(c, s.pending, s.now, node) == LiveEntry(c, t.pending, t.now, node);
    LiveStamped(c, s.pending, t.pending, s.now, node, s.now + elapsed);
    LiveLater(c, s.pending[node := s.now + elapsed], t.pending[node := s.now + elapsed], s.now, s.now + elapsed);
  }

  lemma StepAgrees(c: Config, s: State, t: State, step: Step)
    requires Agree(c, s, t) && !step.CleanStep?
    ensures AgreeAfter(c, Apply(c, s, step), Apply(c, t, step))
  {
    match step
    case CreatorStep(thread, act) =>
      if thread in s.core.creators && act.Reserve? {
        ReserveAgrees(c, s, t, thread, act.elapsed);
      }
    case ListenerStep(act) =>
    case OpenerStep(thread, act) =>
      if thread in s.core.openers {
        LiveDeleted(c, s.pending, t.pending, s.now, s.core.openers[thread].order.inv.targetNode);
      }
    case EnvStep(Tick(elapsed)) => LiveLater(c, s.pending, t.pending, s.now, s.now + elapsed);
    case EnvStep(act) =>
  }

  function WithoutCleaning(steps: seq<Step>): seq<Step> {
    if steps == [] then []
    else
      var n := |steps| - 1;
      WithoutCleaning(steps[..n]) + (if steps[n].CleanStep? then [] else [steps[n]])
  }

  lemma {:induction false} CleaningDropped(c: Config, s: State, steps: seq<Step>)
    ensures AgreeAfter(c, Exec(c, s, steps), Exec(c, s, WithoutCleaning(steps)))
  {
    if steps != [] {
      var n := |steps| - 1;
      CleaningDropped(c, s, steps[..n]);
      var bare := WithoutCleaning(steps[..n]);
      if steps[n].CleanStep? {
        assert WithoutCleaning(steps) == bare;
        if Exec(c, s, bare).Some? {
          CleanAgrees(c, Exec(c, s, steps[..n]).value);
        }
      } else {
        assert WithoutCleaning(steps)[..|bare|] == bare;
        if Exec(c, s, bare).Some? {
          StepAgrees(c, Exec(c, s, steps[..n]).value, Exec(c, s, bare).value, steps[n]);
        }
      }
    }
  }

  // Insert or delete cleaner runs anywhere: the run stays possible, every reservation gets
  // the same answer at the same time, and the threads, records, ledger and histories that
  // result are the same.
  lemma CleanupInvisible(c: Config, s: State, first: seq<Step>, second: seq<Step>)
    requires WithoutCleaning(first) == WithoutCleaning(second)
    ensures Exec(c, s, first).Some? <==> Exec(c, s, second).Some?
    ensures Exec(c, s, first).Some? ==>
              && Agree(c, Exec(c, s, first).value, Exec(c, s, second).value)
              && Exec(c, s, first).value.log == Exec(c, s, second).value.log
  {
    CleaningDropped(c, s, first);
    CleaningDropped(c, s, second);
  }

  // ---- reservations for one node are spaced apart ----

  // An entry after which a new reservation for the node may follow at once.
  predicate Frees(entry: Entry, node: NodeID) {
    entry == ChanOpened(node) || entry == Restarted
  }

  // The time of the latest reservation of a node that is still in force in the log.
  function LastReservation(log: seq<Entry>, node: NodeID): Option<Time> {
    if log == [] then None
    else
      var entry := log[|log| - 1];
      if entry.Accepted? && entry.node == node then Some(entry.time)
      else if Frees(entry, node) then None
      else LastReservation(log[..|log| - 1], node)
  }

  ghost predicate Spaced(c: Config, log: seq<Entry>) {
    forall i, j :: 0 <= i < j < |log| && log[i].Accepted? && log[j].Accepted? && log[i].node == log[j].node ==>
      || log[j].time - log[i].time > c.invoiceExpiration
      || (exists k :: i < k < j && Frees(log[k], log[i].node))
  }

  // The map knows every reservation in force, unless the cleaner saw it expire.
  ghost predicate PendingMatches(c: Config, s: State, node: NodeID) {
    match LastReservation(s.log, node)
    case None => node !in s.pending
    case Some(t) => if node in s.pending then s.pending[node] == t else t < s.now - c.invoiceExpiration
  }

  ghost predicate ReservationsInv(c: Config, s: State) {
    Spaced(c, s.log) && forall node: NodeID :: PendingMatches(c, s, node)
  }

  lemma LastSnoc(log: seq<Entry>, entry: Entry, node: NodeID)
    ensures LastReservation(log + [entry], node) ==
            if entry.Accepted? && entry.node == node then Some(entry.time)
            else if Frees(entry, node) then None
            else LastReservation(log, node)
  {
    assert (log + [entry])[..|log|] == log;
  }

  // No unfreed reservation of the node is later than its last one.
  lemma {:induction false} LastIsLatest(c: Config, log: seq<Entry>, node: NodeID, i: nat)
    requires 0 <= c.invoiceExpiration && Spaced(c, log)
    requires i < |log| && log[i].Accepted? && log[i].node == node
    requires forall k :: i < k < |log| ==> !Frees(log[k], node)
    ensures LastReservation(log, node).Some? && log[i].time <= LastReservation(log, node).value
  {
    var n := |log| - 1;
    if i < n {
      if log[n].Accepted? && log[n].node == node {
        assert log[n].time - log[i].time > c.invoiceExpiration;
      } else {
        assert Spaced(c, log[..n]);
        LastIsLatest(c, log[..n], node, i);
      }
    }
  }

  lemma SpacedSnoc(c: Config, log: seq<Entry>, entry: Entry)
    requires 0 <= c.invoiceExpiration && Spaced(c, log)
    requires entry.Accepted? ==>
               match LastReservation(log, entry.node)
               case None => true
               case Some(t) => entry.time - t > c.invoiceExpiration
    ensures Spaced(c, log + [entry])
  {
    var grown := log + [entry];
    forall i, j | 0 <= i < j < |grown| && grown[i].Accepted? && grown[j].Accepted? && grown[i].node == grown[j].node
      ensures grown[j].time - grown[i].time > c.invoiceExpiration
              || (exists k :: i < k < j && Frees(grown[k], grown[i].node))
    {
      if j < |log| {
        assert log[i] == grown[i] && log[j] == grown[j];
        assert forall k :: i < k < j ==> grown[k] == log[k];
      } else if forall k :: i < k < j ==> !Frees(grown[k], grown[i].node) {
        assert forall k :: i < k < |log| ==> log[k] == grown[k];
        LastIsLatest(c, log, entry.node, i);
      }
    }
  }

  lemma ReserveKeepsReservations(c: Config, s: State, t: ThreadId, elapsed: nat)
    requires 0 <= c.invoiceExpiration && ReservationsInv(c, s) && t in s.core.creators
    ensures ReservationsInv(c, ReserveNode(c, s, t, elapsed))
  {
    var node := s.core.creators[t].req.targetNode;
    var s' := ReserveNode(c, s, t, elapsed);
    var entry := s'.log[|s.log|];
    assert PendingMatches(c, s, node);
    SpacedSnoc(c, s.log, entry);
    forall n: NodeID ensures PendingMatches(c, s', n) {
      assert PendingMatches(c, s, n);
      LastSnoc(s.log, entry, n);
    }
  }

  lemma ChanOpenKeepsReservations(c: Config, s: State, node: NodeID)
    requires 0 <= c.invoiceExpiration && ReservationsInv(c, s)
    ensures ReservationsInv(c, s.(pending := s.pending - {node}, log := s.log + [ChanOpened(node)]))
  {
    var s' := s.(pending := s.pending - {node}, log := s.log + [ChanOpened(node)]);
    SpacedSnoc(c, s.log, ChanOpened(node));
    forall n: NodeID ensures PendingMatches(c, s', n) {
      assert PendingMatches(c, s, n);
      LastSnoc(s.log, ChanOpened(node), n);
    }
  }

  lemma CleanKeepsReservations(c: Config, s: State)
    requires ReservationsInv(c, s)
    ensures ReservationsInv(c, s.(pending := Cleaned(c, s.pending, s.now)))
  {
    var s' := s.(pending := Cleaned(c, s.pending, s.now));
    forall n: NodeID ensures PendingMatches(c, s', n) {
      assert PendingMatches(c, s, n);
    }
  }

  lemma CrashKeepsReservations(c: Config, s: State)
    requires 0 <= c.invoiceExpiration && ReservationsInv(c, s)
    ensures ReservationsInv(c, s.(pending := map[], log := s.log + [Restarted]))
  {
    var s' := s.(pending := map[], log := s.log + [Restarted]);
    SpacedSnoc(c, s.log, Restarted);
    forall n: NodeID ensures PendingMatches(c, s', n) {
      assert PendingMatches(c, s, n);
      LastSnoc(s.log, Restarted, n);
    }
  }

  lemma TickKeepsReservations(c: Config, s: State, elapsed: nat)
    requires ReservationsInv(c, s)
    ensures ReservationsInv(c, s.(now := s.now + elapsed))
  {
    var s' := s.(now := s.now + elapsed);
    forall n: NodeID ensures PendingMatches(c, s', n) {
      assert PendingMatches(c, s, n);
    }
  }

  lemma CoreIrrelevant(c: Config, s: State, core: Core)
    requires ReservationsInv(c, s)
    ensures ReservationsInv(c, s.(core := core))
  {
    forall n: NodeID ensures PendingMatches(c, s.(core := core), n) {
      assert PendingMatches(c, s, n);
    }
  }

  lemma StepKeepsReservations(c: Config, s: State, step: Step)
    requires 0 <= c.invoiceExpiration && ReservationsInv(c, s) && Apply(c, s, step).Some?
    ensures ReservationsInv(c, Apply(c, s, step).value)
  {
    var core := Apply(c, s, step).value.core;
    CoreIrrelevant(c, s, core);
    match step
    case CreatorStep(t, act) =>
      if t in s.core.creators && s.core.creators[t].pc.AtReserve? && act.Reserve? {
        ReserveKeepsReservations(c, s, t, act.elapsed);
      }
    case ListenerStep(act) =>
    case OpenerStep(t, act) =>
      if s.core.openers[t].pc.Updates? && act == Update(ChanOpen(true)) {
        ChanOpenKeepsReservations(c, s, s.core.openers[t].order.inv.targetNode);
      }
    case CleanStep => CleanKeepsReservations(c, s);
    case EnvStep(Tick(elapsed)) => TickKeepsReservations(c, s, elapsed);
    case EnvStep(CrashRestart) => CrashKeepsReservations(c, s.(core := core));
    case EnvStep(act) =>
  }

  lemma {:induction false} RunKeepsReservations(c: Config, steps: seq<Step>)
    requires 0 <= c.invoiceExpiration && Exec(c, INIT, steps).Some?
    ensures ReservationsInv(c, Exec(c, INIT, steps).value)
  {
    if steps != [] {
      var n := |steps| - 1;
      RunKeepsReservations(c, steps[..n]);
      StepKeepsReservations(c, Exec(c, INIT, steps[..n]).value, steps[n]);
    }
  }

  // The answer of hasPendingCreateChanReqs is exactly what the log says: reject when the
  // node's latest reservation in force has not expired.
  lemma ReservationAnswer(c: Config, steps: seq<Step>, node: NodeID)
    requires 0 <= c.invoiceExpiration && Exec(c, INIT, steps).Some?
    ensures var s := Exec(c, INIT, steps).value;
            IsPending(c, s.pending, node, s.now) <==>
            match LastReservation(s.log, node)
            case None => false
            case Some(t) => t >= s.now - c.invoiceExpiration
  {
    RunKeepsReservations(c, steps);
    assert PendingMatches(c, Exec(c, INIT, steps).value, node);
  }

  // Any two accepted reservations for one node carry times more than the invoice
  // expiration apart, or an opened channel to it was processed, or the server restarted,
  // between them.
  lemma ReservationSpacing(c: Config, steps: seq<Step>, i: nat, j: nat)
    requires 0 <= c.invoiceExpiration && Exec(c, INIT, steps).Some?
    requires var log := Exec(c, INIT, steps).value.log;
             i < j < |log| && log[i].Accepted? && log[j].Accepted? && log[i].node == log[j].node
    ensures var log := Exec(c, INIT, steps).value.log;
            || log[j].time - log[i].time > c.invoiceExpiration
            || (exists k :: i < k < j && Frees(log[k], log[i].node))
  {
    RunKeepsReservations(c, steps);
  }
}
