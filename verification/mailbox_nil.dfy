/** The drain of ReceiveMatch throws a nil message away (mailbox.go:725-737):
    when that happens, that it can happen, and that it never does without a nil. */
module MailboxNil {
  import opened Wrappers
  import opened MailboxSteps
  import opened MailboxAlone
  import opened MailboxLeak

  /** The next step drains a nil message from the channel. */
  ghost predicate DrainsNil(s: State, t: nat, l: Label) {
    t < |s.pc| && s.pc[t].MatchDrain? && l.Go? && s.box.slot == Some(Nil)
  }

  lemma DropStep(b: Box, t: nat, pc: Pc, l: Label)
    requires Act(b, t, pc, l).To?
    ensures Act(b, t, pc, l).box.dropped ==
      b.dropped + if pc.MatchDrain? && l.Go? && b.slot == Some(Nil) then 1 else 0
  {
    if pc.Sending() {
    } else if pc.Matching() {
    } else {
    }
  }

  /** How often, in a run, a ReceiveMatch that holds a message drained a nil from the channel. */
  ghost function NilsDrained(threads: nat, tr: Trace): nat {
    if tr == [] then 0
    else
      var n := |tr| - 1;
      NilsDrained(threads, tr[..n]) +
        match Run(threads, tr[..n])
        case None => 0
        case Some(s) => if DrainsNil(s, tr[n].0, tr[n].1) then 1 else 0
  }

  /** Over whole runs, closed or not: messages are dropped exactly there. */
  lemma {:induction false} DroppedIffDrained(threads: nat, tr: Trace)
    requires Run(threads, tr).Some?
    ensures Run(threads, tr).value.box.dropped == NilsDrained(threads, tr)
  {
    if tr != [] {
      var n := |tr| - 1;
      var s := Run(threads, tr[..n]).value;
      DroppedIffDrained(threads, tr[..n]);
      DropStep(s.box, tr[n].0, s.pc[tr[n].0], tr[n].1);
    }
  }

  /** One goroutine takes a message in ReceiveMatch, and a nil is sent before it has the mutex. */
  lemma NilIsSent(m: Message, p: Matcher) returns (tr: Trace)
    ensures Run(3, tr).Some?
    ensures var s := Run(3, tr).value;
      && s.pc == [Idle, MatchLock(p, m), Idle] && s.box.lock.None?
      && Inside(s.box) == Contents(Some(Nil), false, [])
  {
    tr := MessageTaken(m, p);
    Extend(3, tr, 0, Begin(Send(Nil)));
    tr := tr + [(0, Begin(Send(Nil)))];
    var s := Run(3, tr).value;
    assert s.pc == [SendLock(Nil), MatchLock(p, m), Idle];
    var k := SendAlone(s, 0);
    tr := ExtendSteps(3, tr, 0, k);
    assert [] + [Nil] == [Nil] && [Nil][1..] == [];
    assert s.pc[0 := Idle] == [Idle, MatchLock(p, m), Idle];
  }

  /** So a schedule of three operations on an open mailbox loses a message. */
  lemma NilIsDropped(m: Message, p: Matcher) returns (tr: Trace)
    ensures Run(3, tr).Some?
    ensures var b := Run(3, tr).value.box; b.dropped > 0 && !b.shut && Nil in b.sent
  {
    tr := NilIsSent(m, p);
    var s := Run(3, tr).value;
    Extend(3, tr, 1, Go);
    tr := tr + [(1, Go)];
    Extend(3, tr, 1, Go);
    tr := tr + [(1, Go)];
    NothingIsMadeUp(3, tr);
  }

  // ---------------------------------------------------------------- nothing is made up

  /** What the goroutine, the channel and the slice hold was sent; a nil, if one was dropped. */
  ghost predicate Sourced(b: Box, pc: Pc) {
    && (b.slot.Some? ==> b.slot.value in b.sent)
    && (forall m :: m in b.messages ==> m in b.sent)
    && (forall m :: m in b.received ==> m in b.sent)
    && (forall m :: m in pc.Carried() ==> m in b.sent)
    && (b.dropped > 0 ==> Nil in b.sent)
  }

  lemma SendKeepsSourced(b: Box, t: nat, pc: Pc)
    requires pc.Sending() && SendStep(b, t, pc).To? && Sourced(b, pc)
    ensures Sourced(SendStep(b, t, pc).box, SendStep(b, t, pc).pc)
  {
  }

  lemma ReceiveKeepsSourced(b: Box, t: nat, pc: Pc)
    requires ReceiveStep(b, t, pc).To? && Sourced(b, pc)
    ensures Sourced(ReceiveStep(b, t, pc).box, ReceiveStep(b, t, pc).pc)
  {
  }

  lemma ScanKeepsSourced(b: Box, t: nat, pc: Pc)
    requires pc.MatchScan? && Sourced(b, pc)
    ensures Sourced(MatchStep(b, t, pc).box, MatchStep(b, t, pc).pc)
  {
  }

  lemma DrainKeepsSourced(b: Box, t: nat, pc: Pc)
    requires (pc.MatchDrain? || pc.MatchPrepend?) && Sourced(b, pc)
    ensures Sourced(MatchStep(b, t, pc).box, MatchStep(b, t, pc).pc)
  {
  }

  lemma MatchKeepsSourced(b: Box, t: nat, pc: Pc)
    requires pc.Matching() && MatchStep(b, t, pc).To? && Sourced(b, pc)
    ensures Sourced(MatchStep(b, t, pc).box, MatchStep(b, t, pc).pc)
  {
    if pc.MatchScan? {
      ScanKeepsSourced(b, t, pc);
    } else if pc.MatchDrain? || pc.MatchPrepend? {
      DrainKeepsSourced(b, t, pc);
    }
  }

  lemma CloseKeepsSourced(b: Box, t: nat, pc: Pc)
    requires CloseStep(b, t, pc).To? && Sourced(b, pc)
    ensures Sourced(CloseStep(b, t, pc).box, CloseStep(b, t, pc).pc)
  {
  }

  lemma ActKeepsSourced(b: Box, t: nat, pc: Pc, l: Label)
    requires Act(b, t, pc, l).To? && Sourced(b, pc)
    ensures Sourced(Act(b, t, pc, l).box, Act(b, t, pc, l).pc)
  {
    if l.Go? {
      if pc.Sending() {
        SendKeepsSourced(b, t, pc);
      } else if pc.Take? || pc.RecvLock? || pc.RecvRefill? || pc.RecvPop? {
        ReceiveKeepsSourced(b, t, pc);
      } else if pc.Matching() {
        MatchKeepsSourced(b, t, pc);
      } else {
        CloseKeepsSourced(b, t, pc);
      }
    }
  }

  lemma SentGrows(b: Box, t: nat, pc: Pc, l: Label)
    requires Act(b, t, pc, l).To?
    ensures b.sent <= Act(b, t, pc, l).box.sent
  {
    if pc.Sending() {
    } else if pc.Matching() {
    } else {
    }
  }

  /** Whatever runs, before or after a Close: every message received, held, on
      the channel or in the slice was sent. */
  lemma {:induction false} NothingIsMadeUp(threads: nat, tr: Trace)
    requires Run(threads, tr).Some?
    ensures var s := Run(threads, tr).value;
      Sourced(s.box, Idle) && forall t :: 0 <= t < |s.pc| ==> Sourced(s.box, s.pc[t])
  {
    if tr != [] {
      var n, t := |tr| - 1, tr[|tr| - 1].0;
      var s, s' := Run(threads, tr[..n]).value, Run(threads, tr).value;
      NothingIsMadeUp(threads, tr[..n]);
      ActKeepsSourced(s.box, t, s.pc[t], tr[n].1);
      SentGrows(s.box, t, s.pc[t], tr[n].1);
      forall u | 0 <= u < |s'.pc| ensures Sourced(s'.box, s'.pc[u]) {
        assert Sourced(s.box, s.pc[u]);
      }
    }
  }

  /** While no nil is sent, ReceiveMatch drops nothing. */
  lemma OnlyNilIsDropped(threads: nat, tr: Trace)
    requires Run(threads, tr).Some? && Nil !in Run(threads, tr).value.box.sent
    ensures Run(threads, tr).value.box.dropped == 0
  {
    NothingIsMadeUp(threads, tr);
  }
}
