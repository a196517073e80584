/** What the operations of a mailbox answer, when they have to wait, and that
    each position of MailboxSteps belongs to the operation that was begun
    (mailbox.go:527-545, 626-686, 706-770, 784-817). */
module MailboxAnswers {
  import opened Wrappers
  import opened MailboxSteps

  // ---------------------------------------------------------------- who waits for what

  predicate WaitsForMutex(pc: Pc) { pc.SendLock? || pc.RecvLock? || pc.MatchLock? || pc.CloseLock? }

  /** Waits for a message or the closing, in Receive or ReceiveMatch. */
  predicate WaitsForMessage(pc: Pc) { pc == Take(false) || pc.MatchTake? }

  /** While the mutex is not leaked, a goroutine in an operation can go on
      exactly unless it waits for a mutex that is held, or for a message while
      the mailbox is open and its channel empty; and there it can be cancelled. */
  lemma GoesOnIffNotWaiting(threads: nat, tr: Trace, t: nat)
    requires Run(threads, tr).Some? && !Run(threads, tr).value.box.leaked
    requires t < |Run(threads, tr).value.pc| && !Run(threads, tr).value.pc[t].Idle?
    ensures var s := Run(threads, tr).value; var b, pc := s.box, s.pc[t];
      && (Next(s, t, Go).Some? <==>
            !(WaitsForMutex(pc) && b.lock.Some?) && !(WaitsForMessage(pc) && !b.shut && b.slot.None?))
      && (Next(s, t, Cancel).Some? <==> WaitsForMessage(pc))
      && forall op :: Next(s, t, Begin(op)).None?
  {
    RunKeepsInv(threads, tr);
    var s := Run(threads, tr).value;
    var pc := s.pc[t];
    if pc.Holds() {
      assert PcInv(s.box, pc);
      InsideNeverBlocks(s.box, t, pc);
    } else {
      OutsideGoes(s.box, t, pc);
    }
  }

  lemma OutsideGoes(b: Box, t: nat, pc: Pc)
    requires !pc.Holds() && !pc.Idle?
    ensures Act(b, t, pc, Go).To? <==>
      !(WaitsForMutex(pc) && b.lock.Some?) && !(WaitsForMessage(pc) && !b.shut && b.slot.None?)
  {
  }

  lemma IdleOnlyBegins(b: Box, t: nat, op: Op)
    ensures Act(b, t, Idle, Begin(op)).To? && Act(b, t, Idle, Go).Stuck? && Act(b, t, Idle, Cancel).Stuck?
  {
  }

  // ---------------------------------------------------------------- which operation is running

  /** The operation that goroutine t began last, by the schedule alone. */
  function Current(tr: Trace, t: nat): Option<Op> {
    if tr == [] then None
    else
      var (u, l) := tr[|tr| - 1];
      if u == t && l.Begin? then Some(l.op) else Current(tr[..|tr| - 1], t)
  }

  /** The positions of each operation, with what it was called with. */
  predicate Belongs(op: Op, pc: Pc) {
    match pc
    case Idle => true
    case SendLock(m) => op == Send(m)
    case SendSelect(m) => op == Send(m)
    case SendAppend(m, _) => op == Send(m)
    case SendPutBack(_) => op.Send?
    case SendAppendEmpty(m) => op == Send(m)
    case SendPutHead => op.Send?
    case SendPop => op.Send?
    case Take(async) => if async then op.ReceiveAsync? else op.Receive?
    case RecvLock(_) => op.Receive? || op.ReceiveAsync?
    case RecvRefill(_) => op.Receive? || op.ReceiveAsync?
    case RecvPop(_) => op.Receive? || op.ReceiveAsync?
    case MatchTake(p) => op == ReceiveMatch(p)
    case MatchLock(p, _) => op == ReceiveMatch(p)
    case MatchDrain(p, _) => op == ReceiveMatch(p)
    case MatchPrepend(p, _, _) => op == ReceiveMatch(p)
    case MatchDecide(p, _) => op == ReceiveMatch(p)
    case MatchPop(v) => op.ReceiveMatch? && v in op.p
    case MatchScan(p) => op == ReceiveMatch(p)
    case UnlockRetry(p) => op == ReceiveMatch(p)
    case CloseLock => op.Close?
    case CloseDrain => op.Close?
    case CloseShut => op.Close?
    case CloseClear => op.Close?
    case Unlock(None) => op.Send? || op.Close?
    case Unlock(Some(v)) => op.Receive? || op.ReceiveAsync? || (op.ReceiveMatch? && v in op.p)
  }

  lemma StepStaysInOperation(b: Box, t: nat, pc: Pc, op: Op, l: Label)
    requires Act(b, t, pc, l).To? && Belongs(op, pc) && !l.Begin?
    ensures Belongs(op, Act(b, t, pc, l).pc)
  {
    if pc.Sending() {
    } else if pc.Matching() {
    } else {
    }
  }

  /** Whoever is not idle is where the operation it began last may be. */
  lemma {:induction false} RunKeepsOperations(threads: nat, tr: Trace, t: nat)
    requires Run(threads, tr).Some? && t < threads
    ensures |Run(threads, tr).value.pc| == threads
    ensures var pc := Run(threads, tr).value.pc[t];
      pc.Idle? || (Current(tr, t).Some? && Belongs(Current(tr, t).value, pc))
  {
    RunKeepsInv(threads, tr);
    if tr != [] {
      var n, u, l := |tr| - 1, tr[|tr| - 1].0, tr[|tr| - 1].1;
      RunKeepsOperations(threads, tr[..n], t);
      RunKeepsInv(threads, tr[..n]);
      var s := Run(threads, tr[..n]).value;
      if u == t && !l.Begin? {
        if s.pc[t].Idle? {
          IdleOnlyBegins(s.box, t, Close);
          assert false;
        }
        StepStaysInOperation(s.box, t, s.pc[t], Current(tr, t).value, l);
      }
    }
  }

  // ---------------------------------------------------------------- what they answer

  predicate Receives(op: Op) { op.Receive? || op.ReceiveAsync? || op.ReceiveMatch? }

  /** The channel is closed, and nothing is left on it. */
  predicate Over(b: Box) { b.shut && b.slot.None? }

  /** What the step of an operation answers, said of what it does: a receiver
      answers exactly when it returns. It gets the message that is counted as
      received, or it learns that the mailbox is closed exactly at a closed empty
      channel, or it was cancelled, or, in ReceiveAsync alone, there was nothing
      on the open channel. A send is accepted exactly when its message counts as sent. */
  ghost predicate AnswersRightly(op: Op, b: Box, t: nat, pc: Pc, l: Label, b': Box, pc': Pc) {
    var none, gone := b'.answers == b.answers, b'.answers == b.answers + [(t, GotClosed)];
    && (Receives(op) && l.Go? && (pc.Take? || pc.MatchTake? || pc.MatchDrain?) && Over(b) ==> gone && pc'.Idle?)
    && (gone ==> Receives(op) && l.Go? && Over(b) && pc'.Idle? && b'.received == b.received)
    && (Receives(op) && l.Cancel? ==> b'.answers == b.answers + [(t, GotCancelled)] && pc'.Idle?)
    && (Receives(op) && l.Go? && pc'.Idle? && !gone ==>
          || (op == ReceiveAsync && pc.Take? && !b.shut && b.slot.None? && b'.answers == b.answers + [(t, GotNothing)]
              && b'.received == b.received)
          || (exists v :: b'.received == b.received + [v] && b'.answers == b.answers + [(t, GotMessage(v))]
                && pc == Unlock(Some(v)) && (op.ReceiveMatch? ==> v in op.p)))
    && (Receives(op) && !pc'.Idle? ==> none && b'.received == b.received)
    && (op.Send? && pc.SendSelect? && l.Go? ==>
          if Over(b) then b'.answers == b.answers + [(t, SendRefused)] && b'.sent == b.sent
          else b'.answers == b.answers + [(t, SendAccepted)] && b'.sent == b.sent + [op.m])
    && (op.Send? && !pc.SendSelect? ==> none && b'.sent == b.sent)
    && (op.Close? ==> none)
  }

  lemma OneAnswerEach(b: Box, t: nat, a: Answer, a': Answer)
    ensures b.answers + [(t, a)] != b.answers
    ensures b.answers + [(t, a)] == b.answers + [(t, a')] <==> a == a'
  {
    assert |b.answers + [(t, a)]| == |b.answers| + 1;
    assert (b.answers + [(t, a)])[|b.answers|] == (t, a) && (b.answers + [(t, a')])[|b.answers|] == (t, a');
  }

  lemma SendAnswers(op: Op, b: Box, t: nat, pc: Pc)
    requires op.Send? && Belongs(op, pc) && !pc.Idle? && Act(b, t, pc, Go).To?
    ensures var o := Act(b, t, pc, Go); AnswersRightly(op, b, t, pc, Go, o.box, o.pc)
  {
    OneAnswerEach(b, t, SendAccepted, GotClosed);
    OneAnswerEach(b, t, SendRefused, GotClosed);
  }

  lemma PlainReceiveAnswers(op: Op, b: Box, t: nat, pc: Pc)
    requires (op.Receive? || op.ReceiveAsync?) && Belongs(op, pc) && !pc.Idle? && Act(b, t, pc, Go).To?
    ensures var o := Act(b, t, pc, Go); AnswersRightly(op, b, t, pc, Go, o.box, o.pc)
  {
    OneAnswerEach(b, t, GotNothing, GotClosed);
    if pc.Unlock? {
      OneAnswerEach(b, t, GotMessage(pc.out.value), GotClosed);
    } else {
      OneAnswerEach(b, t, GotClosed, GotClosed);
    }
  }

  lemma MatchAnswers(op: Op, b: Box, t: nat, pc: Pc)
    requires op.ReceiveMatch? && Belongs(op, pc) && !pc.Idle? && Act(b, t, pc, Go).To?
    ensures var o := Act(b, t, pc, Go); AnswersRightly(op, b, t, pc, Go, o.box, o.pc)
  {
    if pc.Unlock? {
      OneAnswerEach(b, t, GotMessage(pc.out.value), GotClosed);
    } else {
      OneAnswerEach(b, t, GotClosed, GotClosed);
    }
  }

  lemma CloseAnswers(op: Op, b: Box, t: nat, pc: Pc)
    requires op.Close? && Belongs(op, pc) && !pc.Idle? && Act(b, t, pc, Go).To?
    ensures var o := Act(b, t, pc, Go); AnswersRightly(op, b, t, pc, Go, o.box, o.pc)
  {
    OneAnswerEach(b, t, GotClosed, GotClosed);
  }

  lemma CancelAnswers(op: Op, b: Box, t: nat, pc: Pc)
    requires Belongs(op, pc) && Act(b, t, pc, Cancel).To?
    ensures var o := Act(b, t, pc, Cancel); AnswersRightly(op, b, t, pc, Cancel, o.box, o.pc)
  {
    OneAnswerEach(b, t, GotCancelled, GotClosed);
  }

  /** In every run, every step of every operation answers rightly. */
  lemma OperationsAnswerRightly(threads: nat, tr: Trace, t: nat, l: Label)
    requires Run(threads, tr).Some? && t < threads && !l.Begin?
    requires |Run(threads, tr).value.pc| == threads && Next(Run(threads, tr).value, t, l).Some?
    ensures Current(tr, t).Some?
    ensures var s, s' := Run(threads, tr).value, Next(Run(threads, tr).value, t, l).value;
      AnswersRightly(Current(tr, t).value, s.box, t, s.pc[t], l, s'.box, s'.pc[t])
  {
    RunKeepsOperations(threads, tr, t);
    var s := Run(threads, tr).value;
    if s.pc[t].Idle? {
      IdleOnlyBegins(s.box, t, Close);
      assert false;
    }
    var op := Current(tr, t).value;
    if l.Cancel? {
      CancelAnswers(op, s.box, t, s.pc[t]);
    } else {
      match op
      case Send(_) => SendAnswers(op, s.box, t, s.pc[t]);
      case Receive => PlainReceiveAnswers(op, s.box, t, s.pc[t]);
      case ReceiveAsync => PlainReceiveAnswers(op, s.box, t, s.pc[t]);
      case ReceiveMatch(_) => MatchAnswers(op, s.box, t, s.pc[t]);
      case Close => CloseAnswers(op, s.box, t, s.pc[t]);
    }
  }

  /** The beginning of an operation touches nothing. */
  lemma BeginTouchesNothing(b: Box, t: nat, pc: Pc, op: Op)
    requires Act(b, t, pc, Begin(op)).To?
    ensures pc.Idle? && Act(b, t, pc, Begin(op)).box == b
    ensures Belongs(op, Act(b, t, pc, Begin(op)).pc) && !Act(b, t, pc, Begin(op)).pc.Idle?
  {
  }

  // ---------------------------------------------------------------- after a Close

  /** Where a Close may be only once the channel is closed. */
  predicate PastShut(pc: Pc) { pc.Idle? || pc.CloseClear? || pc.Unlock? }

  lemma CloseHasShut(b: Box, t: nat, pc: Pc)
    requires Belongs(Close, pc) && !pc.Idle? && Act(b, t, pc, Go).To? && (PastShut(pc) ==> b.shut)
    ensures PastShut(Act(b, t, pc, Go).pc) ==> Act(b, t, pc, Go).box.shut
  {
  }

  /** Once a Close has returned, the mailbox is closed, and stays so. */
  lemma {:induction false} CloseCloses(threads: nat, tr: Trace, t: nat)
    requires Run(threads, tr).Some? && t < threads && Current(tr, t) == Some(Close)
    ensures |Run(threads, tr).value.pc| == threads
    ensures PastShut(Run(threads, tr).value.pc[t]) ==> Run(threads, tr).value.box.shut
  {
    RunKeepsInv(threads, tr);
    var n, u, l := |tr| - 1, tr[|tr| - 1].0, tr[|tr| - 1].1;
    RunKeepsInv(threads, tr[..n]);
    RunKeepsOperations(threads, tr[..n], t);
    var s := Run(threads, tr[..n]).value;
    OnlyCloseShuts(s.box, u, s.pc[u], l);
    if u == t && l.Begin? {
      assert Start(l.op) == CloseLock;
    } else {
      CloseCloses(threads, tr[..n], t);
      if u == t {
        CloseHasShut(s.box, t, s.pc[t]);
      }
    }
  }

  /** So from then on, who is to receive learns at once that the mailbox is closed. */
  lemma ClosedIsReported(threads: nat, tr: Trace, t: nat)
    requires Run(threads, tr).Some? && Run(threads, tr).value.box.shut
    requires t < |Run(threads, tr).value.pc|
    requires Run(threads, tr).value.pc[t].Take? || Run(threads, tr).value.pc[t].MatchTake?
    ensures var s := Run(threads, tr).value;
      && Next(s, t, Go).Some? && Next(s, t, Go).value.pc[t].Idle?
      && Next(s, t, Go).value.box.answers == s.box.answers + [(t, GotClosed)]
  {
    RunKeepsInv(threads, tr);
  }

  /** The messages among the answers, in order. */
  function GotOf(answers: seq<(nat, Answer)>): seq<Message> {
    if answers == [] then []
    else
      var a := answers[|answers| - 1].1;
      GotOf(answers[..|answers| - 1]) + if a.GotMessage? then [a.v] else []
  }

  lemma GotAppends(answers: seq<(nat, Answer)>, t: nat, a: Answer)
    ensures GotOf(answers + [(t, a)]) == GotOf(answers) + if a.GotMessage? then [a.v] else []
  {
    assert (answers + [(t, a)])[..|answers|] == answers;
  }

  /** The answer a step gives, if any, and what it adds to the messages received. */
  lemma StepAnswer(b: Box, t: nat, pc: Pc, l: Label) returns (a: Option<Answer>)
    requires Act(b, t, pc, l).To?
    ensures var b' := Act(b, t, pc, l).box;
      && b'.answers == (if a.Some? then b.answers + [(t, a.value)] else b.answers)
      && b'.received == b.received + if a.Some? && a.value.GotMessage? then [a.value.v] else []
  {
    a := if l.Cancel? then Some(GotCancelled)
         else if !l.Go? then None
         else if pc.SendSelect? then Some(if Over(b) then SendRefused else SendAccepted)
         else if pc.Unlock? then if pc.out.Some? then Some(GotMessage(pc.out.value)) else None
         else if (pc.Take? || pc.MatchTake? || pc.MatchDrain?) && Over(b) then Some(GotClosed)
         else if pc == Take(true) && b.slot.None? then Some(GotNothing)
         else None;
    if pc.Sending() {
    } else if pc.Matching() {
    } else {
    }
  }

  lemma StepKeepsGot(b: Box, t: nat, pc: Pc, l: Label)
    requires Act(b, t, pc, l).To? && b.received == GotOf(b.answers)
    ensures Act(b, t, pc, l).box.received == GotOf(Act(b, t, pc, l).box.answers)
  {
    var a := StepAnswer(b, t, pc, l);
    if a.Some? {
      GotAppends(b.answers, t, a.value);
    }
  }

  /** What counts as received are the messages answered. */
  lemma {:induction false} ReceivedAreAnswered(threads: nat, tr: Trace)
    requires Run(threads, tr).Some?
    ensures Run(threads, tr).value.box.received == GotOf(Run(threads, tr).value.box.answers)
  {
    if tr != [] {
      var n := |tr| - 1;
      var s := Run(threads, tr[..n]).value;
      ReceivedAreAnswered(threads, tr[..n]);
      StepKeepsGot(s.box, tr[n].0, s.pc[tr[n].0], tr[n].1);
    }
  }
}
