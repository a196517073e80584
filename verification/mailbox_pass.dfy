/** What happens to a mailbox while its one receiver is in ReceiveMatch and has
    found nothing yet (mailbox.go:706-770): whole passes of its loop, with any
    number of senders in between. */
module MailboxPass {
  import opened Wrappers
  import opened MailboxSteps
  import opened MailboxOrder
  import opened MailboxLinear
  import MailboxNil

  /** In ReceiveMatch with matcher p, without a match so far. */
  predicate Looking(pc: Pc, p: Matcher) {
    && (pc.MatchTake? || pc.MatchLock? || pc.MatchDrain? || pc.MatchPrepend? || pc.MatchDecide? || pc.MatchScan?
        || pc.UnlockRetry?)
    && pc.p == p
  }

  /** Goroutine r has been so since the a-th step of the schedule. */
  ghost predicate LookingSince(threads: nat, tr: Trace, a: nat, r: nat, p: Matcher) {
    forall j :: a <= j <= |tr| && Run(threads, tr[..j]).Some? ==>
      r < |Run(threads, tr[..j]).value.pc| && Looking(Run(threads, tr[..j]).value.pc[r], p)
  }

  ghost predicate OnlyArrivals(events: seq<Event>) {
    forall i :: 0 <= i < |events| ==> events[i].Accepted? || events[i].Lost?
  }

  /** The plain queue from q on. */
  function ServeFrom(q: seq<Message>, events: seq<Event>): Option<seq<Message>> {
    if events == [] then Some(q)
    else
      match ServeFrom(q, events[..|events| - 1])
      case None => None
      case Some(q') => Serve(q', events[|events| - 1])
  }

  /** Without nil messages, only the arrivals show. */
  lemma {:induction false} ArrivalsAppend(q: seq<Message>, events: seq<Event>)
    requires OnlyArrivals(events) && ServeFrom(q, events).Some?
    requires forall i :: 0 <= i < |events| ==> events[i].Accepted?
    ensures ServeFrom(q, events) == Some(q + Sends(events))
  {
    if events == [] {
      assert q + [] == q;
    } else {
      var before, m := events[..|events| - 1], events[|events| - 1].m;
      ArrivalsAppend(q, before);
      assert q + Sends(before) + [m] == q + (Sends(before) + [m]);
    }
  }

  lemma {:induction false} SendsAppend(a: seq<Event>, b: seq<Event>)
    ensures Sends(a + b) == Sends(a) + Sends(b)
  {
    if b == [] {
      assert a + b == a;
    } else {
      assert (a + b)[..|a + b| - 1] == a + b[..|b| - 1];
      SendsAppend(a, b[..|b| - 1]);
    }
  }

  /** Every loss is among the events. */
  lemma {:induction false} LossesAreDropped(threads: nat, tr: Trace, i: nat)
    requires Run(threads, tr).Some? && i < |Run(threads, tr).value.box.events|
    requires Run(threads, tr).value.box.events[i].Lost?
    ensures Run(threads, tr).value.box.dropped > 0
    decreases |tr|
  {
    var n := |tr| - 1;
    var s := Run(threads, tr[..n]).value;
    StepRecordsEvent(s.box, tr[n].0, s.pc[tr[n].0], tr[n].1);
    MailboxNil.DropStep(s.box, tr[n].0, s.pc[tr[n].0], tr[n].1);
    if i < |s.box.events| {
      LossesAreDropped(threads, tr[..n], i);
    }
  }

  /** What a step records, while only r receives and r is still looking afterwards. */
  lemma StepArrives(s: State, t: nat, l: Label, r: nat, p: Matcher)
    requires t < |s.pc| && r < |s.pc| && Next(s, t, l).Some? && Solo(s, r)
    requires Looking(s.pc[r], p) && Looking(Next(s, t, l).value.pc[r], p)
    ensures OnlyArrivals(Recording(s.box, s.pc[t], l))
  {
    if t == r && l.Go? {
      LookingRecords(s.box, t, s.pc[t], p);
    }
  }

  lemma LookingRecords(b: Box, t: nat, pc: Pc, p: Matcher)
    requires Looking(pc, p) && MatchStep(b, t, pc).To? && Looking(MatchStep(b, t, pc).pc, p)
    ensures OnlyArrivals(Recording(b, pc, Go))
  {
  }

  lemma StepServesArrivals(s: State, t: nat, l: Label, r: nat, p: Matcher)
    requires Inv(s) && Solo(s, r) && t < |s.pc| && r < |s.pc| && Next(s, t, l).Some?
    requires Looking(s.pc[r], p) && Looking(Next(s, t, l).value.pc[r], p)
    requires !Next(s, t, l).value.box.closing
    ensures var s', added := Next(s, t, l).value, Recording(s.box, s.pc[t], l);
      && s'.box.events == s.box.events + added && OnlyArrivals(added) && |added| <= 1
      && (if added == [] then Queue(s', r) == Queue(s, r) else Serve(Queue(s, r), added[0]) == Some(Queue(s', r)))
  {
    var s' := Next(s, t, l).value;
    ClosingStays(s, t, l);
    StepRecordsEvent(s.box, t, s.pc[t], l);
    StepArrives(s, t, l, r, p);
    if s.pc[t].Holds() {
      InsideStepServes(s, t, l, r);
    } else {
      OutsideStepServes(s, t, l, r);
    }
  }

  /** From when a receiver started to look, up to any later point at which it
      still does: the queue, with the message in its hand in front, only gained
      the messages that were sent, and lost what the drain dropped. */
  lemma {:induction false} StillLookingKeepsQueue(threads: nat, tr: Trace, a: nat, r: nat, p: Matcher)
    requires Run(threads, tr).Some? && a <= |tr| && OnlyReceiver(tr, r) && LookingSince(threads, tr, a, r, p)
    requires !Run(threads, tr).value.box.closing
    ensures Run(threads, tr[..a]).Some?
    ensures var s0, s := Run(threads, tr[..a]).value, Run(threads, tr).value;
      && s0.box.events <= s.box.events
      && var added := s.box.events[|s0.box.events|..];
         OnlyArrivals(added) && ServeFrom(Queue(s0, r), added) == Some(Queue(s, r))
    decreases |tr|
  {
    if a == |tr| {
      assert tr[..a] == tr;
    } else {
      var n := |tr| - 1;
      var before := tr[..n];
      assert forall j :: 0 <= j <= n ==> before[..j] == tr[..j];
      RunKeepsInv(threads, before);
      var s, s' := Run(threads, before).value, Run(threads, tr).value;
      ClosingStays(s, tr[n].0, tr[n].1);
      StillLookingKeepsQueue(threads, before, a, r, p);
      RunKeepsOrderInv(threads, before, r);
      assert tr[..|tr|] == tr;
      StepServesArrivals(s, tr[n].0, tr[n].1, r, p);
      ServedFurther(Run(threads, tr[..a]).value, s, s', r, Recording(s.box, s.pc[tr[n].0], tr[n].1));
    }
  }

  lemma ServedFurther(s0: State, s: State, s': State, r: nat, more: seq<Event>)
    requires s0.box.events <= s.box.events && s'.box.events == s.box.events + more
    requires var added := s.box.events[|s0.box.events|..];
      OnlyArrivals(added) && ServeFrom(Queue(s0, r), added) == Some(Queue(s, r))
    requires OnlyArrivals(more) && |more| <= 1
    requires if more == [] then Queue(s', r) == Queue(s, r) else Serve(Queue(s, r), more[0]) == Some(Queue(s', r))
    ensures s0.box.events <= s'.box.events
    ensures var added := s'.box.events[|s0.box.events|..];
      OnlyArrivals(added) && ServeFrom(Queue(s0, r), added) == Some(Queue(s', r))
  {
    var added := s.box.events[|s0.box.events|..];
    assert s'.box.events[|s0.box.events|..] == added + more;
    if more == [] {
      assert added + more == added;
    } else {
      assert (added + more)[..|added|] == added;
    }
  }

  // ---------------------------------------------------------------- a pass that goes round again

  /** At the end of a pass without a match, nothing in the queue matches. */
  ghost predicate NothingMatches(s: State, r: nat) {
    r < |s.pc| && s.pc[r].UnlockRetry? ==> forall m :: m in Queue(s, r) ==> m !in s.pc[r].p
  }

  lemma StepKeepsNothingMatches(s: State, t: nat, l: Label, r: nat)
    requires Inv(s) && Solo(s, r) && NothingMatches(s, r) && t < |s.pc| && Next(s, t, l).Some?
    requires !Next(s, t, l).value.box.closing
    ensures NothingMatches(Next(s, t, l).value, r)
  {
    var s' := Next(s, t, l).value;
    if r < |s.pc| && s'.pc[r].UnlockRetry? {
      if t == r {
        assert s.pc[r].MatchScan?;
        MissedScan(s, r);
      } else {
        OthersKeepQueue(s, t, l, r);
      }
    }
  }

  /** While r holds the mutex and nobody else receives, nobody else changes the queue. */
  lemma OthersKeepQueue(s: State, t: nat, l: Label, r: nat)
    requires Inv(s) && Solo(s, r) && t < |s.pc| && r < |s.pc| && t != r && Next(s, t, l).Some?
    requires s.pc[r].UnlockRetry? && !Next(s, t, l).value.box.closing
    ensures Queue(Next(s, t, l).value, r) == Queue(s, r)
  {
    ClosingStays(s, t, l);
    assert s.pc[r].Holds() && !s.pc[t].Holds();
    StepRecordsEvent(s.box, t, s.pc[t], l);
    assert Recording(s.box, s.pc[t], l) == [];
    OutsideStepServes(s, t, l, r);
  }

  lemma {:induction false} RunKeepsNothingMatches(threads: nat, tr: Trace, r: nat)
    requires Run(threads, tr).Some? && OnlyReceiver(tr, r) && !Run(threads, tr).value.box.closing
    ensures NothingMatches(Run(threads, tr).value, r)
  {
    if tr != [] {
      var n := |tr| - 1;
      var s := Run(threads, tr[..n]).value;
      RunKeepsInv(threads, tr[..n]);
      ClosingStays(s, tr[n].0, tr[n].1);
      RunKeepsNothingMatches(threads, tr[..n], r);
      RunKeepsOrderInv(threads, tr[..n], r);
      StepKeepsNothingMatches(s, tr[n].0, tr[n].1, r);
    }
  }

  /** A pass of ReceiveMatch that goes round again, or several, with senders at
      work all the time: nothing now in the queue matches, and the queue is what
      the messages sent since, and the nils dropped, made of the queue at the
      start of the pass. */
  lemma MissedPassChangesNothing(threads: nat, tr: Trace, a: nat, r: nat, p: Matcher, s0: State, s: State)
    requires Run(threads, tr) == Some(s) && a <= |tr| && Run(threads, tr[..a]) == Some(s0)
    requires OnlyReceiver(tr, r) && LookingSince(threads, tr, a, r, p) && !s.box.closing
    requires r < |s.pc| && s.pc[r].UnlockRetry?
    ensures forall m :: m in Queue(s, r) ==> m !in p
    ensures s0.box.events <= s.box.events && var added := s.box.events[|s0.box.events|..];
      && OnlyArrivals(added) && ServeFrom(Queue(s0, r), added) == Some(Queue(s, r))
      && s.box.sent == s0.box.sent + Sends(added)
  {
    StillLookingKeepsQueue(threads, tr, a, r, p);
    RunKeepsNothingMatches(threads, tr, r);
    assert tr[..|tr|] == tr;
    SentIsRecorded(threads, tr);
    SentIsRecorded(threads, tr[..a]);
    SendsAppend(s0.box.events, s.box.events[|s0.box.events|..]);
    assert s0.box.events + s.box.events[|s0.box.events|..] == s.box.events;
  }

  /** In particular, without nil messages: the queue at the start, followed by what was sent since, in order. */
  lemma MissedPassOnlyGains(threads: nat, tr: Trace, a: nat, r: nat, p: Matcher, s0: State, s: State)
    requires Run(threads, tr) == Some(s) && a <= |tr| && Run(threads, tr[..a]) == Some(s0)
    requires OnlyReceiver(tr, r) && LookingSince(threads, tr, a, r, p) && !s.box.closing
    requires r < |s.pc| && s.pc[r].UnlockRetry? && Nil !in s.box.sent
    ensures s0.box.sent <= s.box.sent && Queue(s, r) == Queue(s0, r) + s.box.sent[|s0.box.sent|..]
  {
    MissedPassChangesNothing(threads, tr, a, r, p, s0, s);
    MailboxNil.OnlyNilIsDropped(threads, tr);
    var added := s.box.events[|s0.box.events|..];
    forall i | 0 <= i < |added| ensures added[i].Accepted? {
      if added[i].Lost? {
        LossesAreDropped(threads, tr, |s0.box.events| + i);
      }
    }
    ArrivalsAppend(Queue(s0, r), added);
  }
}
