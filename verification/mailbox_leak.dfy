/** ReceiveMatch returns at mailbox.go:729 without releasing the mutex.  This is
    when that happens, that it can happen, and what follows. */
module MailboxLeak {
  import opened Wrappers
  import opened MailboxSteps
  import opened MailboxAlone

  /** The step that leaves the mutex locked: a ReceiveMatch with a message in
      hand finds the channel closed. */
  lemma LeakingStep(threads: nat, tr: Trace, t: nat, l: Label)
    requires Run(threads, tr).Some? && !Run(threads, tr).value.box.leaked
    requires t < |Run(threads, tr).value.pc| && Next(Run(threads, tr).value, t, l).Some?
    ensures var s := Run(threads, tr).value;
      Next(s, t, l).value.box.leaked <==> s.pc[t].MatchDrain? && s.box.shut
  {
    RunKeepsInv(threads, tr);
    var s := Run(threads, tr).value;
    LockEffect(s.box, t, s.pc[t], l);
  }

  /** The mailbox is closed while a ReceiveMatch stands between its take and its lock. */
  ghost predicate ClosedInWindow(s: State) {
    s.box.shut && exists t :: 0 <= t < |s.pc| && s.pc[t].MatchLock?
  }

  /** At some point of the schedule. */
  ghost predicate Window(threads: nat, tr: Trace) {
    exists j :: 0 <= j <= |tr| && Run(threads, tr[..j]).Some? && ClosedInWindow(Run(threads, tr[..j]).value)
  }

  /** Such a ReceiveMatch has not come to its drain yet. */
  ghost predicate AboutToLeak(s: State) {
    s.box.shut && exists t :: 0 <= t < |s.pc| && (s.pc[t].MatchLock? || s.pc[t].MatchDrain?)
  }

  /** A step that is not the start of such a window cannot bring a leak about, and nothing averts one. */
  lemma StepInWindow(s: State, t: nat, l: Label)
    requires Inv(s) && t < |s.pc| && Next(s, t, l).Some?
    ensures var s' := Next(s, t, l).value;
      && (s.box.leaked || AboutToLeak(s) ==> s'.box.leaked || AboutToLeak(s'))
      && (s'.box.leaked || AboutToLeak(s') ==> s.box.leaked || AboutToLeak(s) || ClosedInWindow(s'))
  {
    var s' := Next(s, t, l).value;
    LockEffect(s.box, t, s.pc[t], l);
    OnlyCloseShuts(s.box, t, s.pc[t], l);
    if AboutToLeak(s) && !s.box.leaked {
      var u :| 0 <= u < |s.pc| && (s.pc[u].MatchLock? || s.pc[u].MatchDrain?);
      if u != t {
        assert s'.pc[u] == s.pc[u];
      } else if s.pc[u].MatchLock? {
        assert s'.pc[u].MatchDrain?;
      } else {
        assert s'.box.leaked;
      }
    }
    if AboutToLeak(s') && !s.box.leaked {
      var u :| 0 <= u < |s.pc| && (s'.pc[u].MatchLock? || s'.pc[u].MatchDrain?);
      assert u != t ==> s'.pc[u] == s.pc[u];
    }
  }

  /** Over whole runs: the mutex was left locked, or is about to be, exactly
      when a Close took effect between the take and the lock of a ReceiveMatch. */
  lemma {:induction false} LeaksIffClosedAfterTake(threads: nat, tr: Trace)
    requires Run(threads, tr).Some?
    ensures var s := Run(threads, tr).value; s.box.leaked || AboutToLeak(s) <==> Window(threads, tr)
  {
    if tr == [] {
      assert tr[..0] == tr;
    } else {
      var n := |tr| - 1;
      LeaksIffClosedAfterTake(threads, tr[..n]);
      RunKeepsInv(threads, tr[..n]);
      StepInWindow(Run(threads, tr[..n]).value, tr[n].0, tr[n].1);
      assert tr[..|tr|] == tr;
      assert forall j :: 0 <= j <= n ==> tr[..n][..j] == tr[..j];
      assert Window(threads, tr) <==> Window(threads, tr[..n]) || ClosedInWindow(Run(threads, tr).value);
    }
  }

  /** Afterwards the mutex stays locked for good, and nobody is inside. */
  lemma {:induction false} LeakIsForever(threads: nat, tr: Trace, i: nat)
    requires Run(threads, tr).Some? && i <= |tr|
    requires Run(threads, tr[..i]).Some? ==> Run(threads, tr[..i]).value.box.leaked
    ensures Run(threads, tr[..i]).Some?
    ensures var s := Run(threads, tr).value;
      && s.box.leaked && s.box.lock == Run(threads, tr[..i]).value.box.lock
      && s.box.sent == Run(threads, tr[..i]).value.box.sent
      && (forall t :: 0 <= t < |s.pc| ==> !s.pc[t].Holds())
    decreases |tr|
  {
    RunKeepsInv(threads, tr);
    if i == |tr| {
      assert tr[..i] == tr;
    } else {
      var n := |tr| - 1;
      assert tr[..n][..i] == tr[..i];
      LeakIsForever(threads, tr[..n], i);
      RunKeepsInv(threads, tr[..n]);
      var s, t := Run(threads, tr[..n]).value, tr[n].0;
      OutsideEffect(s.box, t, s.pc[t], tr[n].1);
      LockEffect(s.box, t, s.pc[t], tr[n].1);
    }
  }

  /** So every later Send or Close on that mailbox waits without end. */
  lemma LeakBlocksEveryLock(threads: nat, tr: Trace, t: nat)
    requires Run(threads, tr).Some? && Run(threads, tr).value.box.leaked
    requires t < |Run(threads, tr).value.pc|
    requires var pc := Run(threads, tr).value.pc[t]; pc.SendLock? || pc.CloseLock? || pc.RecvLock? || pc.MatchLock?
    ensures forall l :: Next(Run(threads, tr).value, t, l).None?
  {
    RunKeepsInv(threads, tr);
  }

  lemma Extend(threads: nat, tr: Trace, t: nat, l: Label)
    requires Run(threads, tr).Some? && t < |Run(threads, tr).value.pc|
    ensures Run(threads, tr + [(t, l)]) == Next(Run(threads, tr).value, t, l)
  {
    assert (tr + [(t, l)])[..|tr|] == tr;
  }

  lemma {:induction false} ExtendSteps(threads: nat, tr: Trace, t: nat, k: nat) returns (tr': Trace)
    requires Run(threads, tr).Some? && t < |Run(threads, tr).value.pc|
    requires Steps(Run(threads, tr).value, t, k).Some?
    ensures Run(threads, tr') == Steps(Run(threads, tr).value, t, k)
    decreases k
  {
    if k == 0 {
      tr' := tr;
    } else {
      var s := Run(threads, tr).value;
      StepsFirst(s, t, k);
      Extend(threads, tr, t, Go);
      assert Run(threads, tr + [(t, Go)]) == Next(s, t, Go);
      tr' := ExtendSteps(threads, tr + [(t, Go)], t, k - 1);
    }
  }

  /** A concrete schedule: one goroutine sends, a second takes the message in
      ReceiveMatch, a third closes the mailbox, and the second goes on. */
  lemma ClosingBetweenTakeAndLockLeaks(m: Message, p: Matcher) returns (tr: Trace)
    ensures Run(3, tr).Some?
    ensures var s := Run(3, tr).value; s.box.leaked && s.pc == [Idle, Idle, Idle]
  {
    tr := MessageTaken(m, p);
    Extend(3, tr, 2, Begin(Op.Close));
    tr := tr + [(2, Begin(Op.Close))];
    var k := CloseAlone(Run(3, tr).value, 2);
    tr := ExtendSteps(3, tr, 2, k);
    LockingClosedMailbox(Run(3, tr).value, 1);
    tr := ExtendSteps(3, tr, 1, 2);
  }

  lemma LockingClosedMailbox(s: State, t: nat)
    requires t < |s.pc| && s.pc[t].MatchLock? && s.box.lock.None? && s.box.shut && s.box.slot.None?
    ensures Steps(s, t, 2).Some?
    ensures Steps(s, t, 2).value == State(Reply(s.box, t, GotClosed).(lock := Some(t), leaked := true), s.pc[t := Idle])
  {
    var s1 := Next(s, t, Go).value;
    assert Steps(s1, t, 1) == Next(s1, t, Go);
  }

  lemma MessageTaken(m: Message, p: Matcher) returns (tr: Trace)
    ensures Run(3, tr).Some?
    ensures Run(3, tr).value.pc == [Idle, MatchLock(p, m), Idle]
    ensures Inside(Run(3, tr).value.box) == Contents(None, false, [])
    ensures Run(3, tr).value.box.lock.None?
  {
    Extend(3, [], 0, Begin(Send(m)));
    tr := [] + [(0, Begin(Send(m)))];
    var k := SendAlone(Run(3, tr).value, 0);
    tr := ExtendSteps(3, tr, 0, k);
    Extend(3, tr, 1, Begin(ReceiveMatch(p)));
    tr := tr + [(1, Begin(ReceiveMatch(p)))];
    Extend(3, tr, 1, Go);
    tr := tr + [(1, Go)];
  }
}
