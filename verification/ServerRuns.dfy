// Every call of a server method is a run of the protocol machine in which no other thread
// takes a step, so what holds of all runs holds of all sequences of calls.
module ServerRuns {
  import opened Wrappers
  import opened Policy
  import opened Protocol
  import opened ProtocolSafety
  import opened Server
  import opened Refinement

  // ---- runs ----

  // A run from a fresh installation leads to reachable states only, and the empty run to one.
  lemma RunsReach(c: Config, steps: seq<Step>)
    requires Exec(c, INIT, steps).Some?
    ensures Reachable(c, INIT) && Reachable(c, Exec(c, INIT, steps).value)
    ensures INIT == State(0, map[], [], Core(map[], map[], map[], Disconnected, map[], [], [], []))
  {
    assert Exec(c, INIT, []) == Some(INIT);
  }

  lemma ReachableFrom(c: Config, s: State, steps: seq<Step>)
    requires Reachable(c, s) && Exec(c, s, steps).Some?
    ensures Reachable(c, Exec(c, s, steps).value)
  {
    var before: seq<Step> :| Exec(c, INIT, before) == Some(s);
    ExecConcat(c, INIT, before, steps);
    assert Exec(c, INIT, before + steps) == Exec(c, s, steps);
  }

  lemma ReachableKeepsInv(c: Config, s: State)
    requires Reachable(c, s)
    ensures Inv(c, s.core)
  {
    var steps: seq<Step> :| Exec(c, INIT, steps) == Some(s);
    RunKeepsInv(c, steps);
  }

  // There always is another thread to start.
  lemma {:induction false} ThreadsBelow(used: set<ThreadId>) returns (bound: ThreadId)
    ensures forall t :: t in used ==> t < bound
  {
    if used == {} {
      bound := 0;
    } else {
      var u :| u in used;
      var rest := ThreadsBelow(used - {u});
      bound := if rest <= u then u + 1 else rest;
      forall t | t in used ensures t < bound {
        assert t != u ==> t in used - {u};
      }
    }
  }

  // ---- one connection of the listener ----

  ghost predicate IsOpening(openers: map<ThreadId, Opener>, order: Order) {
    exists t :: t in openers && openers[t] == Opener(order, AtCheck)
  }

  // Every order has a thread that is about to open its channel; the threads before go on.
  ghost predicate Started(before: map<ThreadId, Opener>, after: map<ThreadId, Opener>, orders: seq<Order>) {
    && (forall t :: t in before ==> t in after && after[t] == before[t])
    && (forall i :: 0 <= i < |orders| ==> IsOpening(after, orders[i]))
  }

  // What a connection with these updates makes of the machine.
  ghost predicate AfterConnection(c: Config, s: State, updates: seq<InvoiceUpdate>, e: State) {
    var (files, orders, failed) := HandleAll(c, s.core.records, updates);
    && e == s.(core := s.core.(records := files, listener := if failed then Stopped else Receiving,
                               consumed := s.core.consumed + orders, launched := s.core.launched + orders,
                               openers := e.core.openers))
    && Started(s.core.openers, e.core.openers, orders)
  }

  lemma AfterOneMore(c: Config, s: State, updates: seq<InvoiceUpdate>, mid: State, t: ThreadId)
    requires updates != [] && AfterConnection(c, s, updates[..|updates| - 1], mid)
    requires mid.core.listener == Receiving && t !in mid.core.openers
    ensures AfterConnection(c, s, updates,
                            mid.(core := AfterHandling(mid.core, Handle(c, mid.core.records, updates[|updates| - 1]), t)))
  {
    var n := |updates| - 1;
    var h := Handle(c, mid.core.records, updates[n]);
    var orders := HandleAll(c, s.core.records, updates[..n]).1;
    if h.order.Some? {
      var order := h.order.value;
      assert s.core.consumed + orders + [order] == s.core.consumed + (orders + [order]);
      assert s.core.launched + orders + [order] == s.core.launched + (orders + [order]);
      StartOne(s.core.openers, mid.core.openers, orders, t, order);
    }
  }

  lemma StartOne(before: map<ThreadId, Opener>, openers: map<ThreadId, Opener>, orders: seq<Order>, t: ThreadId, order: Order)
    requires Started(before, openers, orders) && t !in openers
    ensures Started(before, openers[t := Opener(order, AtCheck)], orders + [order])
  {
    var after := openers[t := Opener(order, AtCheck)];
    forall i | 0 <= i < |orders| ensures IsOpening(after, orders[i]) {
      assert IsOpening(openers, orders[i]);
      var u :| u in openers && openers[u] == Opener(orders[i], AtCheck);
      assert after[u] == Opener(orders[i], AtCheck);
    }
    assert after[t] == Opener(order, AtCheck);
  }

  // A call of ListenToInvoices is a run of the machine's listener: from the same records it
  // ends with the same records, launches and failure, and a thread for every launch.
  lemma {:induction false} ConnectionRuns(c: Config, s: State, updates: seq<InvoiceUpdate>) returns (steps: seq<Step>)
    requires s.core.listener == Receiving
    requires forall i :: 0 <= i < |updates| ==> AgreesWithLedger(s.core.invoices, EventOf(updates[i]))
    ensures ByListener(steps)
    ensures Exec(c, s, steps).Some? && AfterConnection(c, s, updates, Exec(c, s, steps).value)
    decreases |updates|
  {
    steps := [];
    if updates != [] {
      var n := |updates| - 1;
      steps := ConnectionRuns(c, s, updates[..n]);
      var mid := Exec(c, s, steps).value;
      if mid.core.listener == Receiving {
        var t := ThreadsBelow(mid.core.openers.Keys);
        var more := HandleRefinesMachine(c, mid, updates[n], t);
        AfterOneMore(c, s, updates, mid, t);
        ExecConcat(c, s, steps, more);
        steps := steps + more;
      }
    } else {
      assert s.core.consumed + [] == s.core.consumed && s.core.launched + [] == s.core.launched;
    }
  }

  // In every reachable state one connection launches pairwise distinct orders, none launched
  // before, each settled in full on an invoice of its own request; the state after it is
  // reachable again.
  lemma ConnectionLaunchesOnce(c: Config, s: State, updates: seq<InvoiceUpdate>)
    requires Reachable(c, s) && s.core.listener == Receiving
    requires forall i :: 0 <= i < |updates| ==> AgreesWithLedger(s.core.invoices, EventOf(updates[i]))
    ensures exists e :: Reachable(c, e) && AfterConnection(c, s, updates, e)
    ensures var orders := HandleAll(c, s.core.records, updates).1;
            && DistinctHashes(s.core.launched + orders)
            && forall order :: order in orders ==> Backed(c, s.core.invoices, order)
  {
    var steps := ConnectionRuns(c, s, updates);
    var e := Exec(c, s, steps).value;
    ReachableFrom(c, s, steps);
    ReachableKeepsInv(c, e);
    var orders := HandleAll(c, s.core.records, updates).1;
    forall order | order in orders ensures Backed(c, s.core.invoices, order) {
      assert order in e.core.consumed;
    }
  }

  // ---- openChannel ----

  ghost predicate ByOpener(t: ThreadId, steps: seq<Step>) {
    forall i :: 0 <= i < |steps| ==> steps[i].OpenerStep? && steps[i].t == t
  }

  lemma MoveTwice(s: Core, t: ThreadId, first: OpenerPc, second: OpenerPc)
    requires t in s.openers && !s.openers[t].pc.Updates? && !first.Updates?
    ensures MoveOpener(MoveOpener(s, t, first), t, second) == MoveOpener(s, t, second)
  {
    var opener := s.openers[t];
    assert s.openers[t := opener.(pc := first)][t := opener.(pc := second)] == s.openers[t := opener.(pc := second)];
  }

  lemma MoveNowhere(s: Core, t: ThreadId)
    requires t in s.openers
    ensures MoveOpener(s, t, s.openers[t].pc) == s
  {
    assert s.openers[t := s.openers[t]] == s.openers;
  }

  // The attempts of a thread on its own are a run that moves it to their outcome.
  lemma {:induction false} AttemptsRun(c: Config, s: State, t: ThreadId, attempts: seq<Attempt>) returns (steps: seq<Step>)
    requires t in s.core.openers && !s.core.openers[t].pc.Updates?
    ensures ByOpener(t, steps)
    ensures Exec(c, s, steps) == Some(s.(core := MoveOpener(s.core, t, Outcome(c, s.core.openers[t], attempts))))
    decreases StepsLeft(s.core.openers[t].pc)
  {
    var o := s.core.openers[t];
    steps := [];
    MoveNowhere(s.core, t);
    if StepsLeft(o.pc) > 0 && OpenerActFor(o, attempts).Some? {
      var act := OpenerActFor(o, attempts).value;
      var pc := NextOpener(c, o, act).value;
      var next := s.(core := MoveOpener(s.core, t, pc));
      var rest := [];
      if !pc.Updates? {
        rest := AttemptsRun(c, next, t, attempts);
        MoveTwice(s.core, t, pc, Outcome(c, o.(pc := pc), attempts));
      }
      ExecCons(c, s, OpenerStep(t, act), next, rest);
      steps := [OpenerStep(t, act)] + rest;
    }
  }

  lemma {:induction false} FollowRuns(c: Config, s: State, t: ThreadId, updates: seq<OpenUpdate>) returns (steps: seq<Step>)
    ensures ByOpener(t, steps)
    ensures Exec(c, s, steps) == Some(Follow(c, s, t, updates))
    decreases |updates|
  {
    steps := [];
    if updates != [] && StepOpener(c, s, t, Update(updates[0])).Some? {
      var next := StepOpener(c, s, t, Update(updates[0])).value;
      var rest := FollowRuns(c, next, t, updates[1..]);
      ExecCons(c, s, OpenerStep(t, Update(updates[0])), next, rest);
      steps := [OpenerStep(t, Update(updates[0]))] + rest;
    }
  }

  // The policy check and the attempts lead to the update loop exactly when OpenChannel
  // follows a stream, and to the end otherwise.
  lemma RequestRuns(c: Config, s: State, t: ThreadId, listed: Option<nat>, attempts: seq<Attempt>) returns (steps: seq<Step>)
    requires t in s.core.openers && s.core.openers[t].pc == AtCheck && |attempts| == MAX_ATTEMPTS
    ensures ByOpener(t, steps)
    ensures var inv := s.core.openers[t].order.inv;
            var streamed := CanCreateChannel(c, inv, listed).None? && Succeeds(inv, attempts, 0);
            Exec(c, s, steps) == Some(s.(core := MoveOpener(s.core, t, if streamed then Updates else Ended)))
  {
    var o := s.core.openers[t];
    var pc := if CanCreateChannel(c, o.order.inv, listed).None? then TryPeers(0) else Ended;
    var next := s.(core := MoveOpener(s.core, t, pc));
    var rest := [];
    if pc == TryPeers(0) {
      RetryRefinesMachine(c, o.(pc := pc), attempts, 0);
      rest := AttemptsRun(c, next, t, attempts);
      MoveTwice(s.core, t, pc, Outcome(c, o.(pc := pc), attempts));
    }
    ExecCons(c, s, OpenerStep(t, Recheck(listed)), next, rest);
    steps := [OpenerStep(t, Recheck(listed))] + rest;
  }

  // A call of OpenChannel is a run of the machine's thread, from its policy check through
  // its attempts to the end of its stream: the node is freed and a stream obtained exactly
  // when the method's contract says so, and nothing else changes.
  lemma OpenChannelRuns(c: Config, s: State, t: ThreadId, listed: Option<nat>, attempts: seq<Attempt>,
                        updates: seq<OpenUpdate>)
    returns (steps: seq<Step>)
    requires t in s.core.openers && s.core.openers[t].pc == AtCheck && |attempts| == MAX_ATTEMPTS
    ensures ByOpener(t, steps)
    ensures Exec(c, s, steps).Some?
    ensures var order := s.core.openers[t].order;
            var streamed := CanCreateChannel(c, order.inv, listed).None? && Succeeds(order.inv, attempts, 0);
            var e := Exec(c, s, steps).value;
            && e.pending == (if streamed && SeesOpen(updates) then s.pending - {order.inv.targetNode} else s.pending)
            && e.core == s.core.(openers := e.core.openers,
                                 streams := if streamed then s.core.streams + [order] else s.core.streams)
  {
    steps := RequestRuns(c, s, t, listed, attempts);
    var mid := Exec(c, s, steps).value;
    if mid.core.openers[t].pc.Updates? {
      FollowRefinesMachine(c, mid, t, updates);
      var more := FollowRuns(c, mid, t, updates);
      ExecConcat(c, s, steps, more);
      steps := steps + more;
    }
  }

  // In every reachable state a call obtains the first stream of its order or none.
  lemma OpenChannelStreamsOnce(c: Config, s: State, t: ThreadId, listed: Option<nat>, attempts: seq<Attempt>)
    requires Reachable(c, s) && t in s.core.openers && s.core.openers[t].pc == AtCheck && |attempts| == MAX_ATTEMPTS
    ensures var order := s.core.openers[t].order;
            CanCreateChannel(c, order.inv, listed).None? && Succeeds(order.inv, attempts, 0) ==>
              DistinctHashes(s.core.streams + [order])
  {
    var steps := RequestRuns(c, s, t, listed, attempts);
    ReachableFrom(c, s, steps);
    ReachableKeepsInv(c, Exec(c, s, steps).value);
  }

  // ---- CreateInvoice ----

  ghost predicate ByCreator(t: ThreadId, steps: seq<Step>) {
    forall i :: 0 <= i < |steps| ==> steps[i].CreatorStep? && steps[i].t == t
  }

  lemma {:induction false} CompleteRuns(c: Config, s: State, t: ThreadId, a: Answers, fuel: nat) returns (steps: seq<Step>)
    requires Complete(c, s, t, a, fuel).Some?
    ensures ByCreator(t, steps)
    ensures Exec(c, s, steps) == Complete(c, s, t, a, fuel)
    decreases fuel
  {
    steps := [];
    if t in s.core.creators {
      var act := CreatorActFor(s.core.creators[t], c, a);
      var next := StepCreator(c, s, t, act).value;
      var rest := CompleteRuns(c, next, t, a, fuel - 1);
      ExecCons(c, s, CreatorStep(t, act), next, rest);
      steps := [CreatorStep(t, act)] + rest;
    }
  }

  // A call of CreateInvoice is a run of one new thread.
  lemma CreateInvoiceRuns(c: Config, s: State, req: WaitingInvoice, a: Answers) returns (t: ThreadId, steps: seq<Step>)
    requires a.checked == s.now <= a.stamped && (a.added.Some? ==> a.added.value !in s.core.invoices)
    ensures t !in s.core.creators && ByCreator(t, steps)
    ensures Exec(c, s, steps) == Some(Created(c, s, req, a))
  {
    t := ThreadsBelow(s.core.creators.Keys);
    var next := At(s, t, req, AtPolicy);
    CreateInvoiceRefinesMachine(c, s, t, req, a);
    var rest := CompleteRuns(c, next, t, a, 8);
    ExecCons(c, s, CreatorStep(t, Begin(req)), next, rest);
    steps := [CreatorStep(t, Begin(req))] + rest;
  }

  // In every reachable state a call that returns a payment request leaves the record of
  // exactly that request behind it, and the state after any call is reachable again.
  lemma CreateInvoiceRecords(c: Config, s: State, req: WaitingInvoice, a: Answers)
    requires Reachable(c, s)
    requires a.checked == s.now <= a.stamped && (a.added.Some? ==> a.added.value !in s.core.invoices)
    ensures var e := Created(c, s, req, a);
            && Reachable(c, e)
            && Inv(c, e.core)
            && forall h :: h in e.core.invoices && e.core.invoices[h].issued && e.core.invoices[h].request.Some?
                           && e.core.invoices[h].status == Open ==>
                 Recorded(e.core.records, h, e.core.invoices[h].request.value)
  {
    var _, steps := CreateInvoiceRuns(c, s, req, a);
    ReachableFrom(c, s, steps);
    var e := Created(c, s, req, a);
    ReachableKeepsInv(c, e);
    forall h | h in e.core.invoices && e.core.invoices[h].issued && e.core.invoices[h].request.Some?
               && e.core.invoices[h].status == Open
      ensures Recorded(e.core.records, h, e.core.invoices[h].request.value)
    {
      assert forall i :: 0 <= i < |e.core.consumed| ==> Backed(c, e.core.invoices, e.core.consumed[i]);
    }
  }
}
