/** Every order in which what is in flight to a peer may be delivered: on the
    peer's side the snapshot may overtake updates that wait in the mailbox of its
    link manager (node.go:391-412, listener.go:397-418, remoteMailboxes.go:215-232). */
module DeliveryOrders {
  import opened Wrappers
  import opened Claims
  import opened Registry
  import opened Replay
  import opened Replication

  predicate Delivers(e: Event) { e.Broadcast? || e.Pump? || e.Receive? || e.Hop? || e.Process? }

  /** The schedule goes on with deliveries only. */
  ghost predicate Delivering(es: seq<Event>, es': seq<Event>) {
    es <= es' && forall i :: |es| <= i < |es'| ==> Delivers(es'[i])
  }

  lemma OvertakenBySent(s: Sys, start: Relation)
    requires SnapInv(s, start) && s.written.Some?
    ensures SnapsOf(Sent(s)) != [] && Overtaken(s) == s.dropped + Ahead(Sent(s))
  {
    AheadAppend(Sent(s), AsItems(s.outQ + s.pending));
  }

  lemma InvConnected(s: Sys, start: Relation)
    requires UpdatesInv(s) && SnapInv(s, start) && s.written.Some?
    ensures s.taken.Some? && s.connected && s.known
  {
  }

  lemma PumpKeepsAhead(s: Sys)
    requires s.connected && s.outQ != [] && SnapsOf(Sent(s)) != []
    ensures Ahead(Sent(Next(s, Pump).value)) == Ahead(Sent(s))
  {
    SentBySending(s, Pump);
    AheadAppend(Sent(s), [Upd(s.outQ[0])]);
  }

  lemma DeliveryKeepsHistory(s: Sys, e: Event)
    requires s.connected && s.known && Delivers(e) && Next(s, e).Some?
    ensures var s' := Next(s, e).value;
      s'.us == s.us && s'.local == s.local && s'.taken == s.taken && s'.written == s.written && s'.dropped == s.dropped
  {
  }

  /** Seen on all that was sent, or on the whole stream, the snapshot has moved alike. */
  lemma OvertakenAlike(s: Sys, s': Sys, start: Relation)
    requires SnapInv(s, start) && SnapInv(s', start) && s.written.Some? && s'.written.Some? && s'.dropped == s.dropped
    ensures Overtaken(s') - Overtaken(s) == Ahead(Sent(s')) - Ahead(Sent(s))
  {
    OvertakenBySent(s, start);
    OvertakenBySent(s', start);
  }

  lemma DeliveryMovesAhead(s: Sys, e: Event)
    requires s.connected && Delivers(e) && Next(s, e).Some? && SnapsOf(Sent(s)) != []
    ensures Ahead(Sent(Next(s, e).value)) <= Ahead(Sent(s))
  {
    if e.Pump? {
      PumpKeepsAhead(s);
    } else {
      SentSame(s, e);
    }
  }

  /** One delivery: fewer updates, if anything, are ahead of the snapshot. */
  lemma DeliveryOvertakes(s: Sys, e: Event, start: Relation)
    requires Inv(s, start) && s.written.Some? && Delivers(e) && Next(s, e).Some?
    ensures var s' := Next(s, e).value;
      && s'.us == s.us && s'.local == s.local && s'.taken == s.taken && s'.written == s.written
      && Overtaken(s') <= Overtaken(s)
  {
    var s' := Next(s, e).value;
    InvConnected(s, start);
    DeliveryKeepsHistory(s, e);
    assert SnapInv(s', start) by { StepKeepsInv(s, e, start); }
    assert Ahead(Sent(s')) <= Ahead(Sent(s)) by {
      OvertakenBySent(s, start);
      DeliveryMovesAhead(s, e);
    }
    OvertakenAlike(s, s', start);
  }

  lemma {:induction false} DeliveriesOvertake(start: Relation, es: seq<Event>, es': seq<Event>)
    requires Delivering(es, es') && Run(start, es').Some?
    requires Run(start, es).Some? ==> Run(start, es).value.written.Some?
    ensures Run(start, es).Some?
    ensures var s, s' := Run(start, es).value, Run(start, es').value;
      && s'.us == s.us && s'.local == s.local && s'.taken == s.taken && s'.written == s.written
      && Overtaken(s') <= Overtaken(s)
    decreases |es'|
  {
    if es' != es {
      var n := |es'| - 1;
      DeliveriesOvertake(start, es, es'[..n]);
      RunKeepsInv(start, es'[..n]);
      DeliveryOvertakes(Run(start, es'[..n]).value, es'[n], start);
    }
  }

  // ---------------------------------------------------------------- one order that overtakes nothing more

  /** How many deliveries there are still to make, at most. */
  function Load(s: Sys): nat {
    |s.regQ| + 2 * |s.hopQ| + 3 * |s.wire| + 4 * |s.outQ| + 5 * |s.pending|
  }

  /** The delivery nearest to the registry. */
  function Nearest(s: Sys): Event {
    if s.regQ != [] then Process
    else if s.hopQ != [] then Hop
    else if s.wire != [] then Receive
    else if s.outQ != [] then Pump
    else Broadcast
  }

  lemma NearestIsEnabled(s: Sys)
    requires s.connected && s.known && s.written.Some? && !Quiet(s)
    ensures Delivers(Nearest(s)) && Next(s, Nearest(s)).Some? && Load(Next(s, Nearest(s)).value) < Load(s)
  {
  }

  lemma NearestKeepsAhead(s: Sys)
    requires s.connected && s.known && SnapsOf(Sent(s)) != [] && Next(s, Nearest(s)).Some?
    ensures Ahead(Sent(Next(s, Nearest(s)).value)) == Ahead(Sent(s))
  {
    var e := Nearest(s);
    if e.Pump? {
      PumpKeepsAhead(s);
    } else if e.Hop? {
      SentByHop(s);
    } else if e.Receive? && s.wire[0].Upd? {
      SentByReceivingUpdate(s);
    } else if e.Receive? {
      SentByReceivingSnap(s);
      var x, rest := [s.wire[0]], s.wire[1..];
      assert AsItems(s.hopQ) == [] && [] + (x + rest) == x + ([] + rest);
    } else {
      assert Sent(Next(s, e).value) == Sent(s);
    }
  }

  lemma NearestOvertakesNothing(s: Sys, start: Relation)
    requires Inv(s, start) && s.written.Some? && Next(s, Nearest(s)).Some?
    ensures Overtaken(Next(s, Nearest(s)).value) == Overtaken(s)
  {
    var e := Nearest(s);
    var s' := Next(s, e).value;
    InvConnected(s, start);
    DeliveryKeepsHistory(s, e);
    assert SnapInv(s', start) by { StepKeepsInv(s, e, start); }
    assert Ahead(Sent(s')) == Ahead(Sent(s)) by {
      OvertakenBySent(s, start);
      NearestKeepsAhead(s);
    }
    OvertakenAlike(s, s', start);
  }

  lemma StepOn(start: Relation, es: seq<Event>, s: Sys) returns (es': seq<Event>)
    requires Run(start, es) == Some(s) && s.written.Some? && !Quiet(s)
    ensures |es'| == |es| + 1 && Delivering(es, es') && Run(start, es').Some?
    ensures var s' := Run(start, es').value;
      s'.written.Some? && Overtaken(s') == Overtaken(s) && Load(s') < Load(s)
  {
    var e := Nearest(s);
    assert Next(s, e).Some? && Delivers(e) && Load(Next(s, e).value) < Load(s)
           && Overtaken(Next(s, e).value) == Overtaken(s) by {
      RunKeepsInv(start, es);
      InvConnected(s, start);
      NearestIsEnabled(s);
      NearestOvertakesNothing(s, start);
    }
    Extend(start, es, e);
    es' := es + [e];
  }

  lemma {:induction false} DeliversAll(start: Relation, es: seq<Event>, s: Sys) returns (es': seq<Event>)
    requires Run(start, es) == Some(s) && s.written.Some?
    ensures Delivering(es, es') && Run(start, es').Some? && Quiet(Run(start, es').value)
    ensures Overtaken(Run(start, es').value) == Overtaken(s)
    decreases Load(s)
  {
    if Quiet(s) {
      es' := es;
    } else {
      var es1 := StepOn(start, es, s);
      es' := DeliversAll(start, es1, Run(start, es1).value);
    }
  }

  /** The peer ends up with the node's claims, as they are at s, whichever way all in flight is delivered. */
  ghost predicate AlwaysCatchesUp(start: Relation, es: seq<Event>, s: Sys) {
    forall es' :: Delivering(es, es') && Run(start, es').Some? && Quiet(Run(start, es').value) ==>
      Run(start, es').value.peer == s.local
  }

  /** Once the snapshot is on its way: every order of delivery brings the peer
      to the node's claims, if and only if no withdrawal processed after the
      snapshot was generated is ahead of it already; and some order gets there. */
  lemma EveryOrderCatchesUpIff(start: Relation, es: seq<Event>, s: Sys)
    requires Run(start, es) == Some(s) && s.written.Some?
    ensures s.taken.Some? && s.taken.value <= |s.us| && Overtaken(s) <= |s.us|
    ensures AlwaysCatchesUp(start, es, s) <==> NoneOvertaken(start, s.us, s.taken.value, Overtaken(s))
    ensures exists es' :: Delivering(es, es') && Run(start, es').Some? && Quiet(Run(start, es').value)
  {
    InFlightCatchesUp(start, es);
    var end := DeliversAll(start, es, s);
    DeliveriesOvertake(start, es, end);
    PeerAgreesIffNoneOvertaken(start, end);
    if NoneOvertaken(start, s.us, s.taken.value, Overtaken(s)) {
      forall es' | Delivering(es, es') && Run(start, es').Some? && Quiet(Run(start, es').value)
        ensures Run(start, es').value.peer == s.local
      {
        DeliveriesOvertake(start, es, es');
        PeerAgreesIffNoneOvertaken(start, es');
        FewerOvertaken(start, s.us, s.taken.value, Overtaken(s), Overtaken(Run(start, es').value));
      }
    }
  }
}
