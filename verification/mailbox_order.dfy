/** What the users of a mailbox see over whole runs of MailboxSteps: no message
    is lost or made up, and messages come out in order. */
module MailboxOrder {
  import opened Wrappers
  import opened MailboxSteps

  // ---------------------------------------------------------------- conservation

  /** How often `x` occurs in `q`. */
  function Count(q: seq<Message>, x: Message): nat {
    if q == [] then 0 else (if q[0] == x then 1 else 0) + Count(q[1..], x)
  }

  lemma {:induction false} CountAppend(a: seq<Message>, b: seq<Message>, x: Message)
    ensures Count(a + b, x) == Count(a, x) + Count(b, x)
  {
    if a == [] {
      assert a + b == b;
    } else {
      assert (a + b)[1..] == a[1..] + b;
      CountAppend(a[1..], b, x);
    }
  }

  lemma {:induction false} CountIsMultiplicity(q: seq<Message>, x: Message)
    ensures Count(q, x) == multiset(q)[x]
  {
    if q != [] {
      assert q == [q[0]] + q[1..];
      CountIsMultiplicity(q[1..], x);
    }
  }

  lemma PairCount(v: Message, w: Message, x: Message)
    ensures Count([v, w], x) == Count([v], x) + Count([w], x)
  {
    assert [v, w] == [v] + [w];
    CountAppend([v], [w], x);
  }

  lemma HeadCount(q: seq<Message>, x: Message)
    requires q != []
    ensures Count(q, x) == Count([q[0]], x) + Count(q[1..], x)
  {
    assert q == [q[0]] + q[1..];
    CountAppend([q[0]], q[1..], x);
  }

  lemma WithoutCount(q: seq<Message>, i: nat, x: Message)
    requires i < |q|
    ensures Count(q, x) == Count([q[i]], x) + Count(Without(q, i), x)
  {
    assert q == q[..i] + ([q[i]] + q[i + 1..]);
    CountAppend(q[..i], [q[i]] + q[i + 1..], x);
    CountAppend([q[i]], q[i + 1..], x);
    CountAppend(q[..i], q[i + 1..], x);
  }

  /** How often `x` sits in the variables of the goroutines. */
  function Total(pcs: seq<Pc>, x: Message): nat {
    if pcs == [] then 0 else Count(pcs[0].Carried(), x) + Total(pcs[1..], x)
  }

  lemma {:induction false} TotalUpdate(pcs: seq<Pc>, t: nat, pc: Pc, x: Message)
    requires t < |pcs|
    ensures Total(pcs[t := pc], x) + Count(pcs[t].Carried(), x) == Total(pcs, x) + Count(pc.Carried(), x)
  {
    var q := pcs[t := pc];
    if t == 0 {
      assert q[1..] == pcs[1..];
    } else {
      TotalUpdate(pcs[1..], t - 1, pc, x);
      assert q[1..] == pcs[1..][t - 1 := pc];
    }
  }

  lemma {:induction false} TotalOfEmptyHands(pcs: seq<Pc>, x: Message)
    requires forall t :: 0 <= t < |pcs| ==> pcs[t].Carried() == []
    ensures Total(pcs, x) == 0
  {
    if pcs != [] {
      TotalOfEmptyHands(pcs[1..], x);
    }
  }

  function SlotSeq(b: Box): seq<Message> {
    if b.slot.Some? then [b.slot.value] else []
  }

  /** The slice, without a head that its mutex holder has already put on the channel. */
  function Slice(b: Box, holder: Pc): seq<Message> {
    if holder.Popping() && b.messages != [] then b.messages[1..] else b.messages
  }

  function Holder(s: State): Pc {
    if s.box.lock.Some? && s.box.lock.value < |s.pc| then s.pc[s.box.lock.value] else Idle
  }

  /** How often `x` was lost by the drain of ReceiveMatch. */
  function Drops(b: Box, x: Message): nat {
    if x == Nil then b.dropped else 0
  }

  /** The messages that the mailbox and one goroutine account for together. */
  function Sum(b: Box, pc: Pc, x: Message): nat {
    Count(b.received, x) + Count(pc.Carried(), x) + Count(SlotSeq(b), x) + Count(Slice(b, pc), x) + Drops(b, x)
  }

  ghost predicate Balanced(b: Box, pc: Pc, b': Box, pc': Pc, x: Message) {
    Count(b'.sent, x) + Sum(b, pc, x) == Count(b.sent, x) + Sum(b', pc', x)
  }

  lemma SendTakesConserve(b: Box, t: nat, pc: Pc, x: Message)
    requires SendStep(b, t, pc).To? && (pc.SendLock? || pc.SendSelect?)
    ensures Balanced(b, pc, SendStep(b, t, pc).box, SendStep(b, t, pc).pc, x)
  {
    if pc.SendSelect? {
      SelectConserves(b, t, pc, x);
    }
  }

  lemma SelectConserves(b: Box, t: nat, pc: Pc, x: Message)
    requires pc.SendSelect?
    ensures Balanced(b, pc, SendStep(b, t, pc).box, SendStep(b, t, pc).pc, x)
  {
    if b.slot.Some? || !b.shut {
      AcceptConserves(b, t, pc, x);
    }
  }

  lemma AcceptConserves(b: Box, t: nat, pc: Pc, x: Message)
    requires pc.SendSelect? && (b.slot.Some? || !b.shut)
    ensures Balanced(b, pc, SendStep(b, t, pc).box, SendStep(b, t, pc).pc, x)
  {
    var o := SendStep(b, t, pc);
    CountAppend(b.sent, [pc.m], x);
    assert o.box.sent == b.sent + [pc.m] && o.box.messages == b.messages && o.box.received == b.received;
    assert SlotSeq(o.box) == [] && pc.Carried() == [];
    if b.slot.Some? {
      PairCount(pc.m, b.slot.value, x);
      assert o.pc.Carried() == [pc.m, b.slot.value];
    } else {
      assert o.pc.Carried() == [pc.m];
    }
  }

  lemma SendAppendsConserve(b: Box, t: nat, pc: Pc, x: Message)
    requires SendStep(b, t, pc).To? && (pc.SendAppend? || pc.SendAppendEmpty?)
    ensures Balanced(b, pc, SendStep(b, t, pc).box, SendStep(b, t, pc).pc, x)
  {
    CountAppend(b.messages, [pc.m], x);
    if pc.SendAppend? {
      PairCount(pc.m, pc.prev, x);
    }
  }

  lemma SendPutsConserve(b: Box, t: nat, pc: Pc, x: Message)
    requires SendStep(b, t, pc).To? && (pc.SendPutBack? || pc.SendPutHead? || pc.SendPop?) && PcInv(b, pc)
    ensures Balanced(b, pc, SendStep(b, t, pc).box, SendStep(b, t, pc).pc, x)
  {
    if pc.SendPutHead? {
      HeadCount(b.messages, x);
    }
  }

  lemma RefillConserves(b: Box, t: nat, pc: Pc, x: Message)
    requires pc.RecvRefill? && ReceiveStep(b, t, pc).To? && PcInv(b, pc)
    ensures Balanced(b, pc, ReceiveStep(b, t, pc).box, ReceiveStep(b, t, pc).pc, x)
  {
    if b.messages != [] && b.slot.None? {
      HeadCount(b.messages, x);
    }
  }

  lemma ReceiveConserves(b: Box, t: nat, pc: Pc, x: Message)
    requires ReceiveStep(b, t, pc).To? && (pc.Holds() ==> PcInv(b, pc))
    ensures Balanced(b, pc, ReceiveStep(b, t, pc).box, ReceiveStep(b, t, pc).pc, x)
  {
    if pc.RecvRefill? {
      RefillConserves(b, t, pc, x);
    }
  }

  lemma DrainConserves(b: Box, t: nat, pc: Pc, x: Message)
    requires pc.MatchDrain? && b.slot.Some?
    ensures Balanced(b, pc, MatchStep(b, t, pc).box, MatchStep(b, t, pc).pc, x)
  {
    var o, v, w := MatchStep(b, t, pc), pc.v, b.slot.value;
    PairCount(v, w, x);
    assert SlotSeq(b) == [w] && SlotSeq(o.box) == [] && pc.Carried() == [v];
    assert o.pc.Carried() == if w == Nil then [v] else [v, w];
  }

  lemma MatchDrainConserves(b: Box, t: nat, pc: Pc, x: Message)
    requires pc.MatchDrain? && !b.shut
    ensures Balanced(b, pc, MatchStep(b, t, pc).box, MatchStep(b, t, pc).pc, x)
  {
    if b.slot.Some? {
      DrainConserves(b, t, pc, x);
    }
  }

  lemma MatchPrependConserves(b: Box, t: nat, pc: Pc, x: Message)
    requires pc.MatchPrepend?
    ensures Balanced(b, pc, MatchStep(b, t, pc).box, MatchStep(b, t, pc).pc, x)
  {
    PairCount(pc.v, pc.prev, x);
    CountAppend([pc.prev], b.messages, x);
  }

  lemma MatchDecideConserves(b: Box, t: nat, pc: Pc, x: Message)
    requires pc.MatchDecide? && MatchStep(b, t, pc).To?
    ensures Balanced(b, pc, MatchStep(b, t, pc).box, MatchStep(b, t, pc).pc, x)
  {
    var o := MatchStep(b, t, pc);
    assert o.box.messages == b.messages && o.box.received == b.received && o.box.sent == b.sent;
    assert o.pc.Carried() == if pc.v in pc.p then [pc.v] else [];
    if o.pc.MatchPop? {
      HeadCount(b.messages, x);
      assert Slice(o.box, o.pc) == b.messages[1..];
    } else {
      assert Slice(o.box, o.pc) == b.messages;
    }
  }

  lemma MatchScanConserves(b: Box, t: nat, pc: Pc, x: Message)
    requires pc.MatchScan?
    ensures Balanced(b, pc, MatchStep(b, t, pc).box, MatchStep(b, t, pc).pc, x)
  {
    var o, i := MatchStep(b, t, pc), FirstMatch(b.messages, pc.p);
    assert o.box.slot == b.slot && o.box.received == b.received && o.box.sent == b.sent;
    if i < |b.messages| {
      WithoutCount(b.messages, i, x);
      assert o.pc.Carried() == [b.messages[i]];
    }
  }

  lemma MatchRestConserves(b: Box, t: nat, pc: Pc, x: Message)
    requires MatchStep(b, t, pc).To? && !b.shut
    requires pc.MatchTake? || pc.MatchLock? || pc.MatchPop? || pc.UnlockRetry?
    ensures Balanced(b, pc, MatchStep(b, t, pc).box, MatchStep(b, t, pc).pc, x)
  {
  }

  /** One step moves messages between the goroutine, the channel and the slice. */
  lemma StepConserves(b: Box, t: nat, pc: Pc, l: Label, x: Message)
    requires Act(b, t, pc, l).To? && (pc.Holds() ==> PcInv(b, pc)) && !b.shut
    requires !Act(b, t, pc, l).box.closing
    ensures Balanced(b, pc, Act(b, t, pc, l).box, Act(b, t, pc, l).pc, x)
  {
    if l.Go? {
      if pc.SendLock? || pc.SendSelect? {
        SendTakesConserve(b, t, pc, x);
      } else if pc.SendAppend? || pc.SendAppendEmpty? {
        SendAppendsConserve(b, t, pc, x);
      } else if pc.Sending() {
        SendPutsConserve(b, t, pc, x);
      } else if pc.MatchDrain? {
        MatchDrainConserves(b, t, pc, x);
      } else if pc.MatchPrepend? {
        MatchPrependConserves(b, t, pc, x);
      } else if pc.MatchDecide? {
        MatchDecideConserves(b, t, pc, x);
      } else if pc.MatchScan? {
        MatchScanConserves(b, t, pc, x);
      } else if pc.Matching() {
        MatchRestConserves(b, t, pc, x);
      } else if pc.Take? || pc.RecvLock? || pc.RecvRefill? || pc.RecvPop? {
        ReceiveConserves(b, t, pc, x);
      } else if pc.Unlock? {
        CountAppend(b.received, if pc.out.Some? then [pc.out.value] else [], x);
      }
    }
  }

  ghost predicate Conserved(s: State, x: Message) {
    Count(s.box.sent, x)
      == Count(s.box.received, x) + Total(s.pc, x)
         + Count(SlotSeq(s.box), x) + Count(Slice(s.box, Holder(s)), x) + Drops(s.box, x)
  }

  /** Seen from the mutex holder or from the stepping goroutine, the slice changes alike. */
  lemma HolderKeepsSlice(s: State, t: nat, l: Label)
    requires Inv(s) && t < |s.pc| && Next(s, t, l).Some?
    ensures var s' := Next(s, t, l).value;
      if s.pc[t].Holds() then
        Slice(s.box, Holder(s)) == Slice(s.box, s.pc[t]) && Slice(s'.box, Holder(s')) == Slice(s'.box, s'.pc[t])
      else
        Slice(s.box, Holder(s)) == Slice(s'.box, Holder(s')) && Slice(s.box, s.pc[t]) == Slice(s'.box, s'.pc[t])
  {
    LockEffect(s.box, t, s.pc[t], l);
    if !s.pc[t].Holds() {
      OutsideEffect(s.box, t, s.pc[t], l);
    }
  }

  /** Whatever mix of Send, Receive, ReceiveAsync and ReceiveMatch runs, until
      a Close every message that was sent is received, in somebody's hand, on
      the channel or in the slice, or is a nil that the drain of ReceiveMatch
      dropped. */
  lemma {:induction false} MessagesConserved(threads: nat, tr: Trace, x: Message)
    requires Run(threads, tr).Some? && !Run(threads, tr).value.box.closing
    ensures Conserved(Run(threads, tr).value, x)
  {
    if tr == [] {
      TotalOfEmptyHands(Init(threads).pc, x);
    } else {
      var n, t, l := |tr| - 1, tr[|tr| - 1].0, tr[|tr| - 1].1;
      var s, s' := Run(threads, tr[..n]).value, Run(threads, tr).value;
      RunKeepsInv(threads, tr[..n]);
      ClosingStays(s, t, l);
      MessagesConserved(threads, tr[..n], x);
      StepConserves(s.box, t, s.pc[t], l, x);
      TotalUpdate(s.pc, t, s'.pc[t], x);
      HolderKeepsSlice(s, t, l);
    }
  }

  /** The messages in the variables of the goroutines. */
  function Hands(pcs: seq<Pc>): multiset<Message> {
    if pcs == [] then multiset{} else multiset(pcs[0].Carried()) + Hands(pcs[1..])
  }

  lemma {:induction false} HandsAreTotal(pcs: seq<Pc>, x: Message)
    ensures Hands(pcs)[x] == Total(pcs, x)
  {
    if pcs != [] {
      CountIsMultiplicity(pcs[0].Carried(), x);
      HandsAreTotal(pcs[1..], x);
    }
  }

  /** The same, of all messages at once: what was sent is, as a multiset, what
      was received, is in hand, on the channel or in the slice, and the nils dropped. */
  lemma ConservedAsMultiset(threads: nat, tr: Trace)
    requires Run(threads, tr).Some? && !Run(threads, tr).value.box.closing
    ensures var s := Run(threads, tr).value;
      multiset(s.box.sent) ==
        multiset(s.box.received) + Hands(s.pc) + multiset(SlotSeq(s.box)) + multiset(Slice(s.box, Holder(s)))
          + multiset{}[Nil := s.box.dropped]
  {
    var s := Run(threads, tr).value;
    var b, slice := s.box, Slice(s.box, Holder(s));
    forall x: Message
      ensures multiset(b.sent)[x] == (multiset(b.received) + Hands(s.pc) + multiset(SlotSeq(b)) + multiset(slice)
                                        + multiset{}[Nil := b.dropped])[x]
    {
      MessagesConserved(threads, tr, x);
      CountIsMultiplicity(b.sent, x);
      CountIsMultiplicity(b.received, x);
      CountIsMultiplicity(SlotSeq(b), x);
      CountIsMultiplicity(slice, x);
      HandsAreTotal(s.pc, x);
    }
  }

  lemma ClosingStays(s: State, t: nat, l: Label)
    requires Inv(s) && t < |s.pc| && Next(s, t, l).Some? && !Next(s, t, l).value.box.closing
    ensures !s.box.closing && !s.box.shut
  {
    if s.pc[t].Sending() {
    } else if s.pc[t].Matching() {
    } else {
    }
  }
}
