/** A mailbox is a queue: the events of a run of MailboxSteps, taken in order,
    are a history of a plain sequence, and the mailbox always holds what is left
    of that sequence. */
module MailboxLinear {
  import opened Wrappers
  import opened MailboxSteps
  import opened MailboxOrder

  /** The plain queue: send appends, Receive takes the head, ReceiveMatch takes
      the first message its matcher accepts.  None when the event is not one the
      queue allows.  Lost is the one departure from a queue: a nil message
      behind the head disappears. */
  function Serve(q: seq<Message>, e: Event): Option<seq<Message>> {
    match e
    case Accepted(m) => Some(q + [m])
    case Taken(v) => if q != [] && q[0] == v then Some(q[1..]) else None
    case Matched(p, v) =>
      var i := FirstMatch(q, p);
      if i < |q| && q[i] == v then Some(Without(q, i)) else None
    case Lost => if |q| >= 2 && q[1] == Nil then Some(Without(q, 1)) else None
  }

  function ServeAll(events: seq<Event>): Option<seq<Message>> {
    if events == [] then Some([])
    else
      match ServeAll(events[..|events| - 1])
      case None => None
      case Some(q) => Serve(q, events[|events| - 1])
  }

  /** What a mutex holder at `pc`, the channel and the slice hold, oldest first. */
  function View(b: Box, pc: Pc): seq<Message> {
    pc.Held() + SlotSeq(b) + pc.Rest(b.messages)
  }

  function HandOf(s: State, r: nat): seq<Message> {
    if r < |s.pc| then s.pc[r].InHand() else []
  }

  /** The logical queue: the message in the hand of ReceiveMatch (run by `r`),
      then the channel, then the slice. */
  function Queue(s: State, r: nat): seq<Message> {
    HandOf(s, r) + View(s.box, Holder(s))
  }

  // ---------------------------------------------------------------- which receivers run

  ghost predicate WithoutReceiveMatch(tr: Trace) {
    forall i :: 0 <= i < |tr| ==> !(tr[i].1.Begin? && tr[i].1.op.ReceiveMatch?)
  }

  ghost predicate OnlyReceiver(tr: Trace, r: nat) {
    forall i :: 0 <= i < |tr| && tr[i].1.Begin? && !tr[i].1.op.Send? && !tr[i].1.op.Close? ==> tr[i].0 == r
  }

  /** Either no ReceiveMatch runs at all, or `r` is the only receiver: the two
      ways of receiving that ReceiveMatch's documentation allows. */
  ghost predicate Disciplined(tr: Trace, r: nat) {
    WithoutReceiveMatch(tr) || OnlyReceiver(tr, r)
  }

  ghost predicate NoMatcher(s: State) {
    forall t :: 0 <= t < |s.pc| ==> !s.pc[t].Matching()
  }

  /** Only `r` receives; while it scans, the message it put back is still on the channel. */
  ghost predicate Solo(s: State, r: nat) {
    && (forall t :: 0 <= t < |s.pc| && t != r ==> !s.pc[t].Receiving())
    && (r < |s.pc| && s.pc[r].MatchScan? ==> s.box.slot.Some? && s.box.slot.value !in s.pc[r].p)
  }

  ghost predicate OrderInv(s: State, r: nat) {
    NoMatcher(s) || Solo(s, r)
  }

  lemma StepKeepsNoMatcher(s: State, t: nat, l: Label)
    requires NoMatcher(s) && t < |s.pc| && Next(s, t, l).Some?
    requires !(l.Begin? && l.op.ReceiveMatch?)
    ensures NoMatcher(Next(s, t, l).value)
  {
    if s.pc[t].Sending() {
    } else {
    }
  }

  lemma StepKeepsSolo(s: State, t: nat, l: Label, r: nat)
    requires Inv(s) && Solo(s, r) && t < |s.pc| && Next(s, t, l).Some?
    requires l.Begin? && !l.op.Send? && !l.op.Close? ==> t == r
    ensures Solo(Next(s, t, l).value, r)
  {
    if s.pc[t].Sending() {
    } else if s.pc[t].Matching() {
    } else {
    }
  }

  lemma {:induction false} RunKeepsOrderInv(threads: nat, tr: Trace, r: nat)
    requires Run(threads, tr).Some? && Disciplined(tr, r)
    ensures OrderInv(Run(threads, tr).value, r)
    ensures WithoutReceiveMatch(tr) ==> NoMatcher(Run(threads, tr).value)
    ensures OnlyReceiver(tr, r) ==> Solo(Run(threads, tr).value, r)
  {
    if tr != [] {
      var n := |tr| - 1;
      var s := Run(threads, tr[..n]).value;
      assert forall i :: 0 <= i < n ==> tr[..n][i] == tr[i];
      RunKeepsOrderInv(threads, tr[..n], r);
      RunKeepsInv(threads, tr[..n]);
      if WithoutReceiveMatch(tr) {
        StepKeepsNoMatcher(s, tr[n].0, tr[n].1);
      }
      if OnlyReceiver(tr, r) {
        StepKeepsSolo(s, tr[n].0, tr[n].1, r);
      }
    }
  }

  // ---------------------------------------------------------------- one step

  /** What one step does to the logical queue: nothing, or the event it records. */
  ghost predicate Served(q: seq<Message>, events: seq<Event>, q': seq<Message>, events': seq<Event>) {
    || (events' == events && q' == q)
    || (|events'| == |events| + 1 && events' == events + [events'[|events|]] && Serve(q, events'[|events|]) == Some(q'))
  }

  lemma SendViews(b: Box, t: nat, pc: Pc)
    requires pc.Sending() && SendStep(b, t, pc).To? && (pc.Holds() ==> PcInv(b, pc)) && !b.shut
    ensures var o := SendStep(b, t, pc);
      if pc.SendSelect? then
        o.box.events == b.events + [Accepted(pc.m)] && View(o.box, o.pc) == View(b, pc) + [pc.m]
      else o.box.events == b.events && View(o.box, o.pc) == View(b, pc)
  {
    if pc.SendLock? || pc.SendSelect? {
      SendSelectView(b, t, pc);
    } else if pc.SendAppend? || pc.SendAppendEmpty? {
      SendAppendView(b, t, pc);
    } else {
      SendPutView(b, t, pc);
    }
  }

  lemma SendSelectView(b: Box, t: nat, pc: Pc)
    requires (pc.SendLock? || pc.SendSelect?) && SendStep(b, t, pc).To? && !b.shut
    ensures var o := SendStep(b, t, pc);
      if pc.SendSelect? then
        o.box.events == b.events + [Accepted(pc.m)] && View(o.box, o.pc) == View(b, pc) + [pc.m]
      else o.box.events == b.events && View(o.box, o.pc) == View(b, pc)
  {
    if pc.SendSelect? {
      SelectView(b, t, pc);
    }
  }

  lemma SelectView(b: Box, t: nat, pc: Pc)
    requires pc.SendSelect? && !b.shut
    ensures var o := SendStep(b, t, pc);
      o.box.events == b.events + [Accepted(pc.m)] && View(o.box, o.pc) == View(b, pc) + [pc.m]
  {
    var o, q := SendStep(b, t, pc), SlotSeq(b);
    assert View(b, pc) == q + b.messages;
    assert o.box.slot.None? && o.box.messages == b.messages && o.pc.Held() == q;
    assert View(o.box, o.pc) == q + (b.messages + [pc.m]);
  }

  lemma SendAppendView(b: Box, t: nat, pc: Pc)
    requires (pc.SendAppend? || pc.SendAppendEmpty?) && SendStep(b, t, pc).To? && PcInv(b, pc)
    ensures var o := SendStep(b, t, pc); o.box.events == b.events && View(o.box, o.pc) == View(b, pc)
  {
  }

  lemma SendPutView(b: Box, t: nat, pc: Pc)
    requires (pc.SendPutBack? || pc.SendPutHead? || pc.SendPop?) && SendStep(b, t, pc).To? && PcInv(b, pc)
    ensures var o := SendStep(b, t, pc); o.box.events == b.events && View(o.box, o.pc) == View(b, pc)
  {
  }

  lemma ReceiveViews(b: Box, t: nat, pc: Pc)
    requires (pc.RecvRefill? || pc.RecvPop?) && ReceiveStep(b, t, pc).To? && PcInv(b, pc)
    ensures var o := ReceiveStep(b, t, pc);
      o.box.events == b.events && View(o.box, o.pc) == View(b, pc)
  {
  }

  lemma MatchDecideView(b: Box, t: nat, pc: Pc)
    requires pc.MatchDecide? && MatchStep(b, t, pc).To? && PcInv(b, pc)
    ensures var o := MatchStep(b, t, pc); var q := [pc.v] + b.messages;
      && pc.InHand() + View(b, pc) == q
      && if pc.v in pc.p then
           && o.box.events == b.events + [Matched(pc.p, pc.v)]
           && o.pc.InHand() + View(o.box, o.pc) == b.messages
           && Serve(q, Matched(pc.p, pc.v)) == Some(b.messages)
         else o.box.events == b.events && o.pc.InHand() + View(o.box, o.pc) == q
  {
    assert View(b, pc) == b.messages;
    if pc.v in pc.p {
      MatchAtHead(b.messages, pc.v, pc.p);
      AcceptView(b, t, pc);
    } else {
      RejectView(b, t, pc);
    }
  }

  lemma AcceptView(b: Box, t: nat, pc: Pc)
    requires pc.MatchDecide? && pc.v in pc.p && MatchStep(b, t, pc).To? && PcInv(b, pc)
    ensures var o := MatchStep(b, t, pc);
      && o.box.events == b.events + [Matched(pc.p, pc.v)]
      && o.pc.InHand() == [] && View(o.box, o.pc) == b.messages
  {
    var o := MatchStep(b, t, pc);
    if b.messages != [] {
      assert o.box.slot == Some(b.messages[0]) && o.pc.MatchPop?;
      assert View(o.box, o.pc) == [b.messages[0]] + b.messages[1..];
    }
  }

  lemma RejectView(b: Box, t: nat, pc: Pc)
    requires pc.MatchDecide? && pc.v !in pc.p && MatchStep(b, t, pc).To? && PcInv(b, pc)
    ensures var o := MatchStep(b, t, pc);
      o.box.events == b.events && o.pc.InHand() == [] && View(o.box, o.pc) == [pc.v] + b.messages
  {
  }

  lemma MatchAtHead(q: seq<Message>, v: Message, p: Matcher)
    requires v in p
    ensures Serve([v] + q, Matched(p, v)) == Some(q)
  {
    assert FirstMatch([v] + q, p) == 0;
    assert Without([v] + q, 0) == q;
  }

  lemma MatchScanView(b: Box, t: nat, pc: Pc)
    requires pc.MatchScan? && b.slot.Some? && b.slot.value !in pc.p
    ensures var o := MatchStep(b, t, pc); var i := FirstMatch(b.messages, pc.p);
      && View(b, pc) == [b.slot.value] + b.messages
      && if i < |b.messages| then
           && o.box.events == b.events + [Matched(pc.p, b.messages[i])]
           && Serve([b.slot.value] + b.messages, Matched(pc.p, b.messages[i])) == Some(View(o.box, o.pc))
         else o.box.events == b.events && View(o.box, o.pc) == View(b, pc)
  {
    var v, i := b.slot.value, FirstMatch(b.messages, pc.p);
    FirstMatchSkips(b.messages, v, pc.p);
    assert View(b, pc) == [v] + b.messages;
    if i < |b.messages| {
      assert View(MatchStep(b, t, pc).box, MatchStep(b, t, pc).pc) == [v] + Without(b.messages, i);
    }
  }

  lemma MatchDrainView(b: Box, t: nat, pc: Pc)
    requires pc.MatchDrain? && !b.shut
    ensures var o := MatchStep(b, t, pc);
      var q, q' := pc.InHand() + View(b, pc), o.pc.InHand() + View(o.box, o.pc);
      if b.slot == Some(Nil) then o.box.events == b.events + [Lost] && Serve(q, Lost) == Some(q')
      else o.box.events == b.events && q' == q
  {
    var o := MatchStep(b, t, pc);
    if b.slot.None? {
      assert View(b, pc) == View(o.box, o.pc) == b.messages;
    } else if b.slot.value != Nil {
      assert View(b, pc) == View(o.box, o.pc) == [b.slot.value] + b.messages;
    } else {
      SecondIsLost(pc.v, b.messages);
      assert View(b, pc) == [Nil] + b.messages && View(o.box, o.pc) == b.messages;
    }
  }

  lemma SecondIsLost(v: Message, rest: seq<Message>)
    ensures Serve([v] + ([Nil] + rest), Lost) == Some([v] + rest)
  {
    var q := [v] + ([Nil] + rest);
    assert q[..1] == [v] && q[2..] == rest;
  }

  lemma MatchRestViews(b: Box, t: nat, pc: Pc)
    requires (pc.MatchPrepend? || pc.MatchPop? || pc.UnlockRetry?) && MatchStep(b, t, pc).To? && PcInv(b, pc)
    ensures var o := MatchStep(b, t, pc);
      o.box.events == b.events && o.pc.InHand() + View(o.box, o.pc) == pc.InHand() + View(b, pc)
  {
  }

  /** A mutex holder outside ReceiveMatch: only an accepted send changes what is held. */
  lemma PlainServes(b: Box, t: nat, pc: Pc, l: Label)
    requires Act(b, t, pc, l).To? && pc.Holds() && PcInv(b, pc) && !b.shut && !pc.Matching()
    requires !Act(b, t, pc, l).box.closing
    ensures var o := Act(b, t, pc, l);
      && o.pc.InHand() == pc.InHand() == []
      && if pc.SendSelect? then
           o.box.events == b.events + [Accepted(pc.m)] && View(o.box, o.pc) == View(b, pc) + [pc.m]
         else o.box.events == b.events && View(o.box, o.pc) == View(b, pc)
  {
    if pc.Sending() {
      SendViews(b, t, pc);
    } else if pc.RecvRefill? || pc.RecvPop? {
      ReceiveViews(b, t, pc);
    }
  }

  lemma MatchScanServes(b: Box, t: nat, pc: Pc)
    requires pc.MatchScan? && b.slot.Some? && b.slot.value !in pc.p
    ensures var o := MatchStep(b, t, pc);
      Served(pc.InHand() + View(b, pc), b.events, o.pc.InHand() + View(o.box, o.pc), o.box.events)
  {
    var o := MatchStep(b, t, pc);
    MatchScanView(b, t, pc);
    assert pc.InHand() + View(b, pc) == View(b, pc);
    assert o.pc.InHand() + View(o.box, o.pc) == View(o.box, o.pc);
  }

  /** A mutex holder inside ReceiveMatch, seen with the message in its hand. */
  lemma MatchServes(b: Box, t: nat, pc: Pc, l: Label)
    requires Act(b, t, pc, l).To? && pc.Holds() && PcInv(b, pc) && !b.shut && pc.Matching()
    requires pc.MatchScan? ==> b.slot.Some? && b.slot.value !in pc.p
    ensures var o := Act(b, t, pc, l);
      Served(pc.InHand() + View(b, pc), b.events, o.pc.InHand() + View(o.box, o.pc), o.box.events)
  {
    if pc.MatchDecide? {
      MatchDecideView(b, t, pc);
    } else if pc.MatchScan? {
      MatchScanServes(b, t, pc);
    } else if pc.MatchDrain? {
      MatchDrainView(b, t, pc);
    } else {
      MatchRestViews(b, t, pc);
    }
  }

  /** A goroutine outside the critical sections takes the message at the head of the channel. */
  lemma TakeViews(b: Box, holder: Pc)
    requires b.slot.Some? && (holder.Holds() ==> PcInv(b, holder))
    ensures View(b, holder) == [b.slot.value] + View(b.(slot := None), holder)
  {
    assert holder.Held() == [];
  }

  lemma OutsideViews(b: Box, holder: Pc)
    requires !holder.Holds() || holder.SendSelect? || holder.RecvRefill? || holder.MatchDrain? || holder.CloseDrain?
    ensures View(b, holder) == View(b, Idle)
  {
  }

  /** What a step outside the critical sections does, apart from the mutex. */
  lemma OutsideServes(b: Box, t: nat, pc: Pc, l: Label)
    requires Act(b, t, pc, l).To? && !pc.Holds()
    ensures var o := Act(b, t, pc, l);
      if pc.Take? && l.Go? && b.slot.Some? then
        o.box == b.(slot := None, events := b.events + [Taken(b.slot.value)]) && o.pc.InHand() == pc.InHand() == []
      else if pc.MatchTake? && l.Go? && b.slot.Some? then
        o.box == b.(slot := None) && pc.InHand() == [] && o.pc.InHand() == [b.slot.value]
      else
        o.box == b.(lock := o.box.lock, answers := o.box.answers) && o.pc.InHand() == pc.InHand()
  {
    if pc.Sending() {
    } else if pc.Matching() {
    } else {
    }
  }

  lemma InsideStepServes(s: State, t: nat, l: Label, r: nat)
    requires Inv(s) && OrderInv(s, r) && t < |s.pc| && Next(s, t, l).Some? && s.pc[t].Holds()
    requires !Next(s, t, l).value.box.closing
    ensures var s' := Next(s, t, l).value; Served(Queue(s, r), s.box.events, Queue(s', r), s'.box.events)
  {
    var s', pc := Next(s, t, l).value, s.pc[t];
    ClosingStays(s, t, l);
    LockEffect(s.box, t, pc, l);
    assert PcInv(s.box, pc);
    if !s'.pc[t].Holds() {
      OutsideViews(s'.box, s'.pc[t]);
    }
    assert View(s'.box, Holder(s')) == View(s'.box, s'.pc[t]);
    if pc.Matching() {
      assert t == r;
      MatchServes(s.box, t, pc, l);
    } else {
      PlainServes(s.box, t, pc, l);
      var h := HandOf(s, r);
      assert HandOf(s', r) == h;
      if pc.SendSelect? {
        assert h + (View(s.box, pc) + [pc.m]) == h + View(s.box, pc) + [pc.m];
      }
    }
  }

  /** A take moves the head of the queue into the receiver's hand, or to the caller. */
  lemma TakeServes(s: State, t: nat, r: nat)
    requires Inv(s) && OrderInv(s, r) && t < |s.pc| && s.box.slot.Some? && (s.pc[t].Take? || s.pc[t].MatchTake?)
    requires Next(s, t, Go).Some? && !s.box.leaked
    ensures var s' := Next(s, t, Go).value; Served(Queue(s, r), s.box.events, Queue(s', r), s'.box.events)
  {
    var s' := Next(s, t, Go).value;
    OutsideServes(s.box, t, s.pc[t], Go);
    assert Holder(s') == Holder(s);
    TakeViews(s.box, Holder(s));
    assert HandOf(s, r) == [];
    assert Queue(s, r) == [s.box.slot.value] + View(s'.box, Holder(s));
  }

  lemma OutsideStepServes(s: State, t: nat, l: Label, r: nat)
    requires Inv(s) && OrderInv(s, r) && t < |s.pc| && Next(s, t, l).Some? && !s.pc[t].Holds()
    requires !s.box.leaked
    ensures var s' := Next(s, t, l).value; Served(Queue(s, r), s.box.events, Queue(s', r), s'.box.events)
  {
    var s', pc := Next(s, t, l).value, s.pc[t];
    if l.Go? && s.box.slot.Some? && (pc.Take? || pc.MatchTake?) {
      TakeServes(s, t, r);
    } else {
      OutsideServes(s.box, t, pc, l);
      OutsideEffect(s.box, t, pc, l);
      LockEffect(s.box, t, pc, l);
      assert HandOf(s', r) == HandOf(s, r);
      if s'.pc[t].Holds() {
        OutsideViews(s'.box, s'.pc[t]);
      } else {
        assert Holder(s') == Holder(s);
      }
    }
  }

  /** Until a Close, the events of every disciplined run form a history of a
      plain queue, and the mailbox holds exactly what that queue then holds. */
  lemma {:induction false} MailboxIsAQueue(threads: nat, tr: Trace, r: nat)
    requires Run(threads, tr).Some? && Disciplined(tr, r)
    requires !Run(threads, tr).value.box.closing
    ensures var s := Run(threads, tr).value; ServeAll(s.box.events) == Some(Queue(s, r))
  {
    if tr == [] {
      assert Queue(Init(threads), r) == [];
    } else {
      var n, t, l := |tr| - 1, tr[|tr| - 1].0, tr[|tr| - 1].1;
      var s, s' := Run(threads, tr[..n]).value, Run(threads, tr).value;
      assert forall i :: 0 <= i < n ==> tr[..n][i] == tr[i];
      RunKeepsInv(threads, tr[..n]);
      RunKeepsOrderInv(threads, tr[..n], r);
      ClosingStays(s, t, l);
      MailboxIsAQueue(threads, tr[..n], r);
      if s.pc[t].Holds() {
        InsideStepServes(s, t, l, r);
      } else {
        OutsideStepServes(s, t, l, r);
      }
      if s'.box.events != s.box.events {
        assert s'.box.events[..|s'.box.events| - 1] == s.box.events;
      }
    }
  }

  // ---------------------------------------------------------------- consequences

  /** The messages accepted by send, in the order of its critical sections. */
  function Sends(events: seq<Event>): seq<Message> {
    if events == [] then []
    else
      var e := events[|events| - 1];
      Sends(events[..|events| - 1]) + if e.Accepted? then [e.m] else []
  }

  /** The messages that left the queue for a caller, in order. */
  function Returns(events: seq<Event>): seq<Message> {
    if events == [] then []
    else
      var e := events[|events| - 1];
      Returns(events[..|events| - 1]) + if e.Taken? || e.Matched? then [e.v] else []
  }

  ghost predicate OnlyFifoEvents(events: seq<Event>) {
    forall i :: 0 <= i < |events| ==> events[i].Accepted? || events[i].Taken?
  }

  /** A history without ReceiveMatch leaves a queue whose past and present make up what was sent. */
  lemma {:induction false} FifoHistory(events: seq<Event>)
    requires ServeAll(events).Some? && OnlyFifoEvents(events)
    ensures Sends(events) == Returns(events) + ServeAll(events).value
  {
    if events != [] {
      var before, e := events[..|events| - 1], events[|events| - 1];
      FifoHistory(before);
      var q := ServeAll(before).value;
      if e.Taken? {
        assert q == [e.v] + q[1..];
        assert Returns(before) + q == Returns(before) + [e.v] + q[1..];
      } else {
        assert Returns(before) + q + [e.m] == Returns(before) + (q + [e.m]);
      }
    }
  }

  /** What a step adds to the events, and to the messages sent and returned. */
  ghost predicate Recorded(b: Box, b': Box, events: seq<Event>) {
    && b'.events == b.events + events
    && b'.sent == b.sent + Sends(events)
    && |events| <= 1
  }

  /** The event a step records, if any. */
  function Recording(b: Box, pc: Pc, l: Label): seq<Event> {
    if !l.Go? then []
    else if pc.SendSelect? && (b.slot.Some? || !b.shut) then [Accepted(pc.m)]
    else if pc.Take? && b.slot.Some? then [Taken(b.slot.value)]
    else if pc.MatchDrain? && b.slot == Some(Nil) then [Lost]
    else if pc.MatchDecide? && pc.v in pc.p then [Matched(pc.p, pc.v)]
    else if pc.MatchScan? && FirstMatch(b.messages, pc.p) < |b.messages| then
      [Matched(pc.p, b.messages[FirstMatch(b.messages, pc.p)])]
    else []
  }

  lemma StepRecordsEvent(b: Box, t: nat, pc: Pc, l: Label)
    requires Act(b, t, pc, l).To?
    ensures Act(b, t, pc, l).box.events == b.events + Recording(b, pc, l)
  {
    if pc.Sending() {
    } else if pc.Matching() {
    } else {
    }
  }

  lemma StepAddsSent(b: Box, t: nat, pc: Pc, l: Label)
    requires Act(b, t, pc, l).To?
    ensures Act(b, t, pc, l).box.sent ==
      b.sent + if pc.SendSelect? && l.Go? && (b.slot.Some? || !b.shut) then [pc.m] else []
  {
    if pc.Sending() {
    } else if pc.Matching() {
    } else {
    }
  }

  lemma StepRecords(b: Box, t: nat, pc: Pc, l: Label) returns (added: seq<Event>)
    requires Act(b, t, pc, l).To?
    ensures Recorded(b, Act(b, t, pc, l).box, added)
    ensures !pc.Matching() ==> OnlyFifoEvents(added)
  {
    StepRecordsEvent(b, t, pc, l);
    StepAddsSent(b, t, pc, l);
    added := Recording(b, pc, l);
    assert |added| == 1 ==> added[..0] == [];
  }

  lemma RecordsAppend(a: seq<Event>, b: seq<Event>)
    requires |b| <= 1
    ensures Sends(a + b) == Sends(a) + Sends(b)
    ensures Returns(a + b) == Returns(a) + Returns(b)
  {
    if b == [] {
      assert a + b == a;
    } else {
      assert (a + b)[..|a + b| - 1] == a;
      assert b[..0] == [];
    }
  }

  lemma StepRecordsSent(b: Box, t: nat, pc: Pc, l: Label)
    requires Act(b, t, pc, l).To? && b.sent == Sends(b.events)
    ensures var o := Act(b, t, pc, l); o.box.sent == Sends(o.box.events)
  {
    var added := StepRecords(b, t, pc, l);
    RecordsAppend(b.events, added);
  }

  lemma {:induction false} SentIsRecorded(threads: nat, tr: Trace)
    requires Run(threads, tr).Some?
    ensures var b := Run(threads, tr).value.box; b.sent == Sends(b.events)
  {
    if tr != [] {
      var n, t, l := |tr| - 1, tr[|tr| - 1].0, tr[|tr| - 1].1;
      var s := Run(threads, tr[..n]).value;
      SentIsRecorded(threads, tr[..n]);
      StepRecordsSent(s.box, t, s.pc[t], l);
    }
  }

  lemma {:induction false} PlainRunsHavePlainEvents(threads: nat, tr: Trace)
    requires Run(threads, tr).Some? && WithoutReceiveMatch(tr)
    ensures OnlyFifoEvents(Run(threads, tr).value.box.events)
  {
    if tr != [] {
      var n, t, l := |tr| - 1, tr[|tr| - 1].0, tr[|tr| - 1].1;
      var s := Run(threads, tr[..n]).value;
      PlainRunsHavePlainEvents(threads, tr[..n]);
      RunKeepsOrderInv(threads, tr[..n], threads);
      var added := StepRecords(s.box, t, s.pc[t], l);
    }
  }

  /** First in, first out: with any number of goroutines in send, Receive and
      ReceiveAsync, the messages taken so far, then one held by a send in
      progress, then the channel, then the slice are always the messages sent,
      in the order in which their sends held the mutex. */
  lemma FirstInFirstOut(threads: nat, tr: Trace)
    requires Run(threads, tr).Some? && !Run(threads, tr).value.box.closing
    requires WithoutReceiveMatch(tr)
    ensures var s := Run(threads, tr).value; s.box.sent == Returns(s.box.events) + View(s.box, Holder(s))
  {
    MailboxIsAQueue(threads, tr, threads);
    SentIsRecorded(threads, tr);
    PlainRunsHavePlainEvents(threads, tr);
    RunKeepsInv(threads, tr);
    var s := Run(threads, tr).value;
    FifoHistory(s.box.events);
    assert Queue(s, threads) == View(s.box, Holder(s));
  }

  lemma {:induction false} PrefixServes(events: seq<Event>, i: nat)
    requires ServeAll(events).Some? && i <= |events|
    ensures ServeAll(events[..i]).Some?
  {
    if i < |events| {
      PrefixServes(events[..|events| - 1], i);
      assert events[..|events| - 1][..i] == events[..i];
    } else {
      assert events[..i] == events;
    }
  }

  /** Event i returned the oldest message that its matcher accepts of those
      queued at the time, and left the others in order. */
  ghost predicate TookOldest(events: seq<Event>, i: nat)
    requires i < |events| && events[i].Matched?
  {
    && ServeAll(events[..i]).Some?
    && var q, k := ServeAll(events[..i]).value, FirstMatch(ServeAll(events[..i]).value, events[i].p);
    && k < |q| && q[k] == events[i].v && q[k] in events[i].p
    && (forall j :: 0 <= j < k ==> q[j] !in events[i].p)
    && ServeAll(events[..i + 1]) == Some(q[..k] + q[k + 1..])
  }

  lemma ServeAllNext(events: seq<Event>, i: nat)
    requires i < |events| && ServeAll(events[..i]).Some?
    ensures ServeAll(events[..i + 1]) == Serve(ServeAll(events[..i]).value, events[i])
  {
    assert events[..i + 1][..i] == events[..i];
  }

  lemma ServedIsOldest(q: seq<Message>, p: Matcher, v: Message)
    requires Serve(q, Matched(p, v)).Some?
    ensures var k := FirstMatch(q, p);
      && k < |q| && q[k] == v && q[k] in p && (forall j :: 0 <= j < k ==> q[j] !in p)
      && Serve(q, Matched(p, v)) == Some(q[..k] + q[k + 1..])
  {
  }

  lemma HistoryTakesOldest(events: seq<Event>, i: nat)
    requires ServeAll(events).Some? && i < |events| && events[i].Matched?
    ensures TookOldest(events, i)
  {
    PrefixServes(events, i);
    PrefixServes(events, i + 1);
    ServeAllNext(events, i);
    ServedIsOldest(ServeAll(events[..i]).value, events[i].p, events[i].v);
  }

  /** Every message ReceiveMatch returned was, at that moment, the oldest one in
      the queue that its matcher accepts, and all the others stayed in order. */
  lemma MatchedIsOldest(threads: nat, tr: Trace, r: nat)
    requires Run(threads, tr).Some? && Disciplined(tr, r)
    requires !Run(threads, tr).value.box.closing
    ensures var events := Run(threads, tr).value.box.events;
      forall i :: 0 <= i < |events| && events[i].Matched? ==> TookOldest(events, i)
  {
    MailboxIsAQueue(threads, tr, r);
    var events := Run(threads, tr).value.box.events;
    forall i | 0 <= i < |events| && events[i].Matched? ensures TookOldest(events, i) {
      HistoryTakesOldest(events, i);
    }
  }

  /** A scan without a match found nothing to return in the whole queue, and moved nothing. */
  lemma MissedScan(s: State, r: nat)
    requires Inv(s) && r < |s.pc| && Solo(s, r) && s.pc[r].MatchScan?
    requires Next(s, r, Go).Some? && Next(s, r, Go).value.pc[r].UnlockRetry?
    ensures Queue(Next(s, r, Go).value, r) == Queue(s, r)
    ensures forall m :: m in Queue(s, r) ==> m !in s.pc[r].p
  {
    var s' := Next(s, r, Go).value;
    assert PcInv(s.box, s.pc[r]);
    assert FirstMatch(s.box.messages, s.pc[r].p) == |s.box.messages|;
    assert s'.box == s.box && Holder(s) == s.pc[r] && Holder(s') == s'.pc[r];
    assert View(s.box, s.pc[r]) == [s.box.slot.value] + s.box.messages == View(s.box, s'.pc[r]);
  }

  /** The message on its way back to the caller. */
  function Returning(pc: Pc): seq<Message> {
    if pc.RecvLock? || pc.RecvRefill? || pc.RecvPop? || pc.MatchPop? then [pc.v]
    else if pc.Unlock? && pc.out.Some? then [pc.out.value]
    else []
  }

  /** What one goroutine gave back, or is about to give back, grows by what its step recorded. */
  lemma StepReturns(b: Box, t: nat, pc: Pc, l: Label)
    requires Act(b, t, pc, l).To? && b.received + Returning(pc) == Returns(b.events)
    ensures var o := Act(b, t, pc, l); o.box.received + Returning(o.pc) == Returns(o.box.events)
  {
    var added := StepRecords(b, t, pc, l);
    RecordsAppend(b.events, added);
    ReturningStep(b, t, pc, l, added);
  }

  lemma ReturningStep(b: Box, t: nat, pc: Pc, l: Label, added: seq<Event>)
    requires Act(b, t, pc, l).To? && Recorded(b, Act(b, t, pc, l).box, added)
    ensures var o := Act(b, t, pc, l);
      o.box.received + Returning(o.pc) == b.received + Returning(pc) + Returns(added)
  {
    if l.Go? && pc.Matching() {
      MatchReturning(b, t, pc, added);
    } else if l.Go? && pc.Sending() {
      SendReturning(b, t, pc, added);
    } else if l.Go? && pc.Take? {
      TakeReturning(b, t, pc, added);
    } else {
      assert added == Act(b, t, pc, l).box.events[|b.events|..] == [];
    }
  }

  lemma SendReturning(b: Box, t: nat, pc: Pc, added: seq<Event>)
    requires pc.Sending() && SendStep(b, t, pc).To? && Recorded(b, SendStep(b, t, pc).box, added)
    ensures var o := SendStep(b, t, pc);
      o.box.received == b.received && Returning(o.pc) == Returning(pc) == Returns(added) == []
  {
    assert added == SendStep(b, t, pc).box.events[|b.events|..];
    assert added == [] || (added == [added[0]] && added[..0] == []);
  }

  lemma TakeReturning(b: Box, t: nat, pc: Pc, added: seq<Event>)
    requires pc.Take? && ReceiveStep(b, t, pc).To? && Recorded(b, ReceiveStep(b, t, pc).box, added)
    ensures var o := ReceiveStep(b, t, pc);
      o.box.received == b.received && Returning(o.pc) == Returning(pc) + Returns(added)
  {
    assert added == ReceiveStep(b, t, pc).box.events[|b.events|..];
    assert added == [] || (added == [added[0]] && added[..0] == []);
  }

  lemma OneReturn(events: seq<Event>)
    requires |events| <= 1
    ensures Returns(events) ==
      if events != [] && (events[0].Taken? || events[0].Matched?) then [events[0].v] else []
  {
    if events != [] {
      assert events[..0] == [];
    }
  }

  lemma MatchReturns(b: Box, t: nat, pc: Pc)
    requires pc.Matching() && MatchStep(b, t, pc).To?
    ensures var o, e := MatchStep(b, t, pc), Recording(b, pc, Go);
      && o.box.received == b.received && |e| <= 1
      && Returning(o.pc) == Returning(pc) + (if e != [] && e[0].Matched? then [e[0].v] else [])
      && (e != [] ==> !e[0].Taken?)
  {
    if pc.MatchDecide? {
      DecideReturns(b, t, pc);
    } else if pc.MatchScan? {
      ScanReturns(b, t, pc);
    } else {
      assert Recording(b, pc, Go) == [] || Recording(b, pc, Go) == [Lost];
    }
  }

  lemma DecideReturns(b: Box, t: nat, pc: Pc)
    requires pc.MatchDecide? && MatchStep(b, t, pc).To?
    ensures var o := MatchStep(b, t, pc);
      && o.box.received == b.received && Returning(pc) == []
      && Returning(o.pc) == if pc.v in pc.p then [pc.v] else []
  {
  }

  lemma ScanReturns(b: Box, t: nat, pc: Pc)
    requires pc.MatchScan?
    ensures var o, i := MatchStep(b, t, pc), FirstMatch(b.messages, pc.p);
      && o.box.received == b.received && Returning(pc) == []
      && Returning(o.pc) == if i < |b.messages| then [b.messages[i]] else []
  {
  }

  lemma MatchReturning(b: Box, t: nat, pc: Pc, added: seq<Event>)
    requires pc.Matching() && MatchStep(b, t, pc).To? && Recorded(b, MatchStep(b, t, pc).box, added)
    ensures var o := MatchStep(b, t, pc);
      o.box.received == b.received && Returning(o.pc) == Returning(pc) + Returns(added)
  {
    MatchReturns(b, t, pc);
    assert added == Recording(b, pc, Go) by {
      StepRecordsEvent(b, t, pc, Go);
      assert (b.events + added)[|b.events|..] == added;
      assert (b.events + Recording(b, pc, Go))[|b.events|..] == Recording(b, pc, Go);
    }
    OneReturn(added);
  }

  lemma StepKeepsCallerOrder(s: State, t: nat, l: Label, r: nat)
    requires t < |s.pc| && r < |s.pc| && Next(s, t, l).Some? && Solo(s, r) && Solo(Next(s, t, l).value, r)
    requires s.box.received + Returning(s.pc[r]) == Returns(s.box.events)
    ensures var s' := Next(s, t, l).value; s'.box.received + Returning(s'.pc[r]) == Returns(s'.box.events)
  {
    var s' := Next(s, t, l).value;
    if t == r {
      StepReturns(s.box, t, s.pc[t], l);
    } else {
      assert s'.pc[t] == Act(s.box, t, s.pc[t], l).pc;
      OtherReturnsNothing(s.box, t, s.pc[t], l);
    }
  }

  lemma OtherReturnsNothing(b: Box, t: nat, pc: Pc, l: Label)
    requires Act(b, t, pc, l).To? && !pc.Receiving() && !Act(b, t, pc, l).pc.Receiving()
    ensures var o := Act(b, t, pc, l); o.box.received == b.received && Returns(o.box.events) == Returns(b.events)
  {
    var o := Act(b, t, pc, l);
    var added := StepRecords(b, t, pc, l);
    RecordsAppend(b.events, added);
    ReturningStep(b, t, pc, l, added);
    assert Returning(pc) == Returning(o.pc) == [];
    NothingMoreReceived(b, t, pc, l);
  }

  lemma NothingMoreReceived(b: Box, t: nat, pc: Pc, l: Label)
    requires Act(b, t, pc, l).To? && !pc.Receiving()
    ensures Act(b, t, pc, l).box.received == b.received
  {
  }

  /** A single receiver gets the messages in exactly the order of the events. */
  lemma {:induction false} CallerSeesEventOrder(threads: nat, tr: Trace, r: nat)
    requires Run(threads, tr).Some? && r < threads && OnlyReceiver(tr, r)
    ensures |Run(threads, tr).value.pc| == threads
    ensures var s := Run(threads, tr).value; s.box.received + Returning(s.pc[r]) == Returns(s.box.events)
  {
    RunKeepsInv(threads, tr);
    if tr != [] {
      var n := |tr| - 1;
      CallerSeesEventOrder(threads, tr[..n], r);
      RunKeepsInv(threads, tr[..n]);
      RunKeepsOrderInv(threads, tr[..n], r);
      RunKeepsOrderInv(threads, tr, r);
      StepKeepsCallerOrder(Run(threads, tr[..n]).value, tr[n].0, tr[n].1, r);
    }
  }
}
