/** One mailbox, shared by any number of goroutines, at the grain of single
    channel operations and mutex operations (mailbox.go).

    The queue of a mailbox is split between a channel of capacity one, `slot`,
    and a slice, `messages`.  Receivers take from the channel without holding
    the mutex and refill it later under the mutex. */
module MailboxSteps {
  import opened Wrappers

  /** A message is an interface value, which may be nil. */
  datatype Message = Nil | Value(n: int)

  /** A matcher is a pure predicate; it is given by the messages it accepts. */
  type Matcher = iset<Message>

  datatype Op = Send(m: Message) | Receive | ReceiveAsync | ReceiveMatch(p: Matcher) | Close

  /** Where a goroutine stands.  Names ending in Lock wait for the mutex. */
  datatype Pc =
    | Idle
    | SendLock(m: Message)
    | SendSelect(m: Message)
    | SendAppend(m: Message, prev: Message)
    | SendPutBack(prev: Message)
    | SendAppendEmpty(m: Message)
    | SendPutHead
    | SendPop
    | Take(async: bool)
    | RecvLock(v: Message)
    | RecvRefill(v: Message)
    | RecvPop(v: Message)
    | MatchTake(p: Matcher)
    | MatchLock(p: Matcher, v: Message)
    | MatchDrain(p: Matcher, v: Message)
    | MatchPrepend(p: Matcher, v: Message, prev: Message)
    | MatchDecide(p: Matcher, v: Message)
    | MatchPop(v: Message)
    | MatchScan(p: Matcher)
    | CloseLock
    | CloseDrain
    | CloseShut
    | CloseClear
    | Unlock(out: Option<Message>)
    | UnlockRetry(p: Matcher)
  {
    /** The goroutine is inside a critical section of the mailbox mutex. */
    predicate Holds() {
      SendSelect? || SendAppend? || SendPutBack? || SendAppendEmpty? || SendPutHead? || SendPop?
      || RecvRefill? || RecvPop? || MatchDrain? || MatchPrepend? || MatchDecide? || MatchPop? || MatchScan?
      || CloseDrain? || CloseShut? || CloseClear? || Unlock? || UnlockRetry?
    }

    /** Inside send. */
    predicate Sending() {
      SendLock? || SendSelect? || SendAppend? || SendPutBack? || SendAppendEmpty? || SendPutHead? || SendPop?
    }

    /** The mutex holder has emptied an open channel, and nobody else may put. */
    predicate OwnsChannel() {
      SendAppend? || SendPutBack? || SendAppendEmpty? || SendPutHead? || MatchPrepend? || MatchDecide? || CloseShut?
    }

    /** The goroutine has put messages[0] on the channel and not yet cut it off the slice. */
    predicate Popping() { SendPop? || RecvPop? || MatchPop? }

    /** Inside ReceiveMatch, apart from a matched return already decided. */
    predicate Matching() {
      MatchTake? || MatchLock? || MatchDrain? || MatchPrepend? || MatchDecide? || MatchPop? || MatchScan?
      || UnlockRetry?
    }

    predicate Receiving() {
      Take? || RecvLock? || RecvRefill? || RecvPop? || Matching() || (Unlock? && out.Some?)
    }

    /** The message ReceiveMatch took off the channel and has not decided about. */
    function InHand(): seq<Message> {
      if MatchLock? || MatchDrain? || MatchPrepend? || MatchDecide? then [v] else []
    }

    /** A message a mutex holder took off the channel, to go back ahead of the slice. */
    function Held(): seq<Message> {
      if SendAppend? || SendPutBack? || MatchPrepend? then [prev] else []
    }

    /** The slice as it will be once the holder finished with it. */
    function Rest(messages: seq<Message>): seq<Message> {
      if SendAppend? || SendAppendEmpty? then messages + [m]
      else if Popping() && messages != [] then messages[1..]
      else messages
    }

    /** Every message in the goroutine's own variables that is not also in the mailbox. */
    function Carried(): seq<Message> {
      match this
      case SendAppend(m, prev) => [m, prev]
      case SendPutBack(prev) => [prev]
      case SendAppendEmpty(m) => [m]
      case RecvLock(v) => [v]
      case RecvRefill(v) => [v]
      case RecvPop(v) => [v]
      case MatchLock(_, v) => [v]
      case MatchDrain(_, v) => [v]
      case MatchPrepend(_, v, prev) => [v, prev]
      case MatchDecide(_, v) => [v]
      case MatchPop(v) => [v]
      case Unlock(out) => if out.Some? then [out.value] else []
      case _ => []
    }

    /** Between taking from the channel and leaving a message on it, or closing. */
    predicate WillRefill() {
      SendAppend? || SendPutBack? || SendAppendEmpty? || SendPutHead?
      || RecvLock? || RecvRefill?
      || MatchLock? || MatchDrain? || MatchPrepend? || MatchDecide?
      || CloseShut?
    }
  }

  /** What a run shows to its users, in the order it took effect. */
  datatype Event =
    | Accepted(m: Message)
    | Taken(v: Message)
    | Matched(p: Matcher, v: Message)
    | Lost                    // the drain of ReceiveMatch threw a nil message away

  /** What an operation answers to its caller. A send's is on record as soon as it is decided. */
  datatype Answer = GotMessage(v: Message) | GotClosed | GotNothing | GotCancelled | SendAccepted | SendRefused

  /** The mailbox itself, with what has happened to it so far. */
  datatype Box = Box(
    slot: Option<Message>,
    shut: bool,
    messages: seq<Message>,
    lock: Option<nat>,
    closing: bool,          // a Close passed its select
    leaked: bool,           // a ReceiveMatch returned without unlocking
    events: seq<Event>,
    sent: seq<Message>,
    received: seq<Message>,
    dropped: nat,           // nil messages lost by ReceiveMatch's drain
    answers: seq<(nat, Answer)>
  )

  datatype State = State(box: Box, pc: seq<Pc>)

  datatype Label = Begin(op: Op) | Go | Cancel

  /** The outcome of a step: blocked (or a send on a closed channel, which
      would panic), or the mailbox and the goroutine's new position. */
  datatype Outcome = Stuck | To(box: Box, pc: Pc)

  function Init(threads: nat): State {
    State(Box(None, false, [], None, false, false, [], [], [], 0, []), seq(threads, _ => Idle))
  }

  function Start(op: Op): Pc {
    match op
    case Send(m) => SendLock(m)
    case Receive => Take(false)
    case ReceiveAsync => Take(true)
    case ReceiveMatch(p) => MatchTake(p)
    case Close => CloseLock
  }

  function FirstMatch(q: seq<Message>, p: Matcher): (i: nat)
    ensures i <= |q|
    ensures i < |q| ==> q[i] in p
    ensures forall j :: 0 <= j < i ==> q[j] !in p
  {
    if q == [] then 0 else if q[0] in p then 0 else 1 + FirstMatch(q[1..], p)
  }

  function Without(q: seq<Message>, i: nat): seq<Message>
    requires i < |q|
  {
    q[..i] + q[i + 1..]
  }

  lemma WithoutSkips(q: seq<Message>, v: Message, i: nat)
    requires i < |q|
    ensures Without([v] + q, 1 + i) == [v] + Without(q, i)
  {
    var all := [v] + q;
    assert all[..1 + i] == [v] + q[..i] && all[1 + i + 1..] == q[i + 1..];
  }

  lemma FirstMatchSkips(q: seq<Message>, v: Message, p: Matcher)
    requires v !in p
    ensures FirstMatch([v] + q, p) == 1 + FirstMatch(q, p)
    ensures FirstMatch(q, p) < |q| ==> Without([v] + q, 1 + FirstMatch(q, p)) == [v] + Without(q, FirstMatch(q, p))
  {
    assert ([v] + q)[1..] == q;
    if FirstMatch(q, p) < |q| {
      WithoutSkips(q, v, FirstMatch(q, p));
    }
  }

  /** Goroutine t's operation answers a. */
  function Reply(b: Box, t: nat, a: Answer): Box {
    b.(answers := b.answers + [(t, a)])
  }

  function Acquire(b: Box, t: nat, pc: Pc): Outcome {
    if b.lock == None then To(b.(lock := Some(t)), pc) else Stuck
  }

  function Put(b: Box, v: Message, pc: Pc): Outcome {
    if b.slot.None? && !b.shut then To(b.(slot := Some(v)), pc) else Stuck
  }

  /** messages = messages[1:], then the deferred unlock. */
  function Pop(b: Box, out: Option<Message>): Outcome {
    if b.messages == [] then Stuck else To(b.(messages := b.messages[1..]), Unlock(out))
  }

  /** The non-blocking refill under `len(m.messages) > 0`: the default branch when the channel is full. */
  function Refill(b: Box, done: Pc, popping: Pc): Outcome {
    if b.messages == [] || b.slot.Some? then To(b, done) else Put(b, b.messages[0], popping)
  }

  function SendStep(b: Box, t: nat, pc: Pc): Outcome {
    match pc
    case SendLock(m) => Acquire(b, t, SendSelect(m))
    case SendSelect(m) =>
      if b.slot.None? && b.shut then To(Reply(b, t, SendRefused), Unlock(None))
      else
        var ok := Reply(b, t, SendAccepted).(slot := None, sent := b.sent + [m], events := b.events + [Accepted(m)]);
        if b.slot.Some? then To(ok, SendAppend(m, b.slot.value)) else To(ok, SendAppendEmpty(m))
    case SendAppend(m, prev) => To(b.(messages := b.messages + [m]), SendPutBack(prev))
    case SendPutBack(prev) => Put(b, prev, Unlock(None))
    case SendAppendEmpty(m) => To(b.(messages := b.messages + [m]), SendPutHead)
    case SendPutHead => if b.messages == [] then Stuck else Put(b, b.messages[0], SendPop)
    case SendPop => Pop(b, None)
    case _ => Stuck
  }

  function ReceiveStep(b: Box, t: nat, pc: Pc): Outcome {
    match pc
    case Take(async) =>
      if b.slot.Some? then To(b.(slot := None, events := b.events + [Taken(b.slot.value)]), RecvLock(b.slot.value))
      else if b.shut then To(Reply(b, t, GotClosed), Idle)
      else if async then To(Reply(b, t, GotNothing), Idle)
      else Stuck
    case RecvLock(v) => Acquire(b, t, RecvRefill(v))
    case RecvRefill(v) => Refill(b, Unlock(Some(v)), RecvPop(v))
    case RecvPop(v) => Pop(b, Some(v))
    case _ => Stuck
  }

  function MatchStep(b: Box, t: nat, pc: Pc): Outcome {
    match pc
    case MatchTake(p) =>
      if b.slot.Some? then To(b.(slot := None), MatchLock(p, b.slot.value))
      else if b.shut then To(Reply(b, t, GotClosed), Idle)
      else Stuck
    case MatchLock(p, v) => Acquire(b, t, MatchDrain(p, v))
    case MatchDrain(p, v) =>
      if b.slot.Some? then
        if b.slot.value != Nil then To(b.(slot := None), MatchPrepend(p, v, b.slot.value))
        else To(b.(slot := None, dropped := b.dropped + 1, events := b.events + [Lost]), MatchDecide(p, v))
      else if b.shut then To(Reply(b, t, GotClosed).(leaked := true), Idle)
      else To(b, MatchDecide(p, v))
    case MatchPrepend(p, v, prev) => To(b.(messages := [prev] + b.messages), MatchDecide(p, v))
    case MatchDecide(p, v) =>
      if v in p then Refill(b.(events := b.events + [Matched(p, v)]), Unlock(Some(v)), MatchPop(v))
      else Put(b, v, MatchScan(p))
    case MatchPop(v) => Pop(b, Some(v))
    case MatchScan(p) =>
      var i := FirstMatch(b.messages, p);
      if i == |b.messages| then To(b, UnlockRetry(p))
      else To(b.(messages := Without(b.messages, i), events := b.events + [Matched(p, b.messages[i])]),
              Unlock(Some(b.messages[i])))
    case UnlockRetry(p) => To(b.(lock := None), MatchTake(p))
    case _ => Stuck
  }

  /** Close without its notices, and the unlock every operation defers. */
  function CloseStep(b: Box, t: nat, pc: Pc): Outcome {
    match pc
    case CloseLock => Acquire(b, t, CloseDrain)
    case CloseDrain =>
      if b.slot.None? && b.shut then To(b, Unlock(None)) else To(b.(slot := None, closing := true), CloseShut)
    case CloseShut => To(b.(shut := true), CloseClear)
    case CloseClear => To(b.(messages := []), Unlock(None))
    case Unlock(None) => To(b.(lock := None), Idle)
    case Unlock(Some(v)) => To(Reply(b, t, GotMessage(v)).(lock := None, received := b.received + [v]), Idle)
    case _ => Stuck
  }

  /** One step of goroutine `t` standing at `pc`. */
  function Act(b: Box, t: nat, pc: Pc, l: Label): Outcome {
    match l
    case Begin(op) => if pc.Idle? then To(b, Start(op)) else Stuck
    case Cancel => if pc.MatchTake? || (pc.Take? && !pc.async) then To(Reply(b, t, GotCancelled), Idle) else Stuck
    case Go =>
      if pc.Sending() then SendStep(b, t, pc)
      else if pc.Take? || pc.RecvLock? || pc.RecvRefill? || pc.RecvPop? then ReceiveStep(b, t, pc)
      else if pc.Matching() then MatchStep(b, t, pc)
      else CloseStep(b, t, pc)
  }

  function Next(s: State, t: nat, l: Label): Option<State>
    requires t < |s.pc|
  {
    match Act(s.box, t, s.pc[t], l)
    case Stuck => None
    case To(box, pc) => Some(State(box, s.pc[t := pc]))
  }

  type Trace = seq<(nat, Label)>

  /** The state after a schedule; None when the schedule asks for a step that is not enabled. */
  function Run(threads: nat, tr: Trace): Option<State> {
    if tr == [] then Some(Init(threads))
    else
      var n := |tr| - 1;
      match Run(threads, tr[..n])
      case None => None
      case Some(s) => if tr[n].0 < |s.pc| then Next(s, tr[n].0, tr[n].1) else None
  }

  // ---------------------------------------------------------------- invariants

  ghost predicate LockInv(s: State) {
    && (s.box.lock.Some? ==> s.box.lock.value < |s.pc|)
    && (!s.box.leaked ==> forall t :: 0 <= t < |s.pc| ==> (s.pc[t].Holds() <==> s.box.lock == Some(t)))
    && (s.box.leaked ==> s.box.lock.Some? && s.box.shut && forall t :: 0 <= t < |s.pc| ==> !s.pc[t].Holds())
  }

  /** What each point of a critical section knows about the channel and the slice. */
  ghost predicate PcInv(b: Box, pc: Pc) {
    && (pc.OwnsChannel() ==> b.slot.None? && !b.shut)
    && (pc.SendPutHead? || pc.Popping() ==> b.messages != [])
    && (pc.Popping() || pc.MatchScan? ==> !b.shut)
    && (pc.CloseClear? ==> b.shut)
    && (pc.Holds() && !pc.CloseClear? && b.shut ==> b.messages == [])
    && (pc.Holds() && !b.shut ==> (b.closing <==> pc.CloseShut?))
  }

  /** What holds of the mailbox while nobody is inside a critical section. */
  ghost predicate FreeInv(b: Box) {
    && (b.shut ==> b.messages == [])
    && (b.closing ==> b.shut)
  }

  ghost predicate DataInv(s: State) {
    && (forall t :: 0 <= t < |s.pc| && s.pc[t].Holds() ==> PcInv(s.box, s.pc[t]))
    && (s.box.shut ==> s.box.slot.None? && s.box.closing)
    && (s.box.lock.None? || s.box.leaked ==> FreeInv(s.box))
  }

  ghost predicate Inv(s: State) {
    LockInv(s) && DataInv(s)
  }

  /** The four ways a step may treat the mutex: leave it, take it, release it, leak it. */
  ghost predicate LockChange(b: Box, t: nat, pc: Pc, b': Box, pc': Pc) {
    if pc.MatchDrain? && b.slot.None? && b.shut then
      b'.lock == b.lock && b'.leaked && !pc'.Holds()
    else
      && b'.leaked == b.leaked
      && (if pc.Holds() == pc'.Holds() then b'.lock == b.lock
          else if pc.Holds() then b'.lock == None
          else b.lock == None && b'.lock == Some(t))
  }

  lemma LockEffect(b: Box, t: nat, pc: Pc, l: Label)
    requires Act(b, t, pc, l).To?
    ensures LockChange(b, t, pc, Act(b, t, pc, l).box, Act(b, t, pc, l).pc)
  {
    if pc.Sending() {
    } else if pc.Matching() {
    } else {
    }
  }

  /** A goroutine outside the critical sections can at most take from the channel. */
  lemma OutsideEffect(b: Box, t: nat, pc: Pc, l: Label)
    requires Act(b, t, pc, l).To? && !pc.Holds()
    ensures var o := Act(b, t, pc, l);
      && o.box.(lock := b.lock, slot := b.slot, events := b.events, answers := b.answers) == b
      && (o.box.slot == b.slot || o.box.slot.None?)
      && (!o.pc.Holds() || b.lock.None?)
      && (!o.pc.Holds() || o.pc.SendSelect? || o.pc.RecvRefill? || o.pc.MatchDrain? || o.pc.CloseDrain?)
  {
  }

  lemma OnlyCloseShuts(b: Box, t: nat, pc: Pc, l: Label)
    requires Act(b, t, pc, l).To?
    ensures Act(b, t, pc, l).box.shut == (b.shut || (pc.CloseShut? && l.Go?))
  {
    if pc.Sending() {
    } else if pc.Matching() {
    } else {
    }
  }

  lemma InsideSendEffect(b: Box, t: nat, pc: Pc)
    requires pc.Sending() && SendStep(b, t, pc).To? && pc.Holds() && PcInv(b, pc)
    requires b.shut ==> b.slot.None? && b.closing
    ensures var o := SendStep(b, t, pc); InsideKept(o.box, o.pc)
  {
  }

  lemma InsideMatchEffect(b: Box, t: nat, pc: Pc)
    requires pc.Matching() && MatchStep(b, t, pc).To? && pc.Holds() && PcInv(b, pc)
    requires b.shut ==> b.slot.None? && b.closing
    ensures var o := MatchStep(b, t, pc); InsideKept(o.box, o.pc)
  {
  }

  ghost predicate InsideKept(b: Box, pc: Pc) {
    && (pc.Holds() ==> PcInv(b, pc))
    && (!pc.Holds() ==> FreeInv(b))
    && (b.shut ==> b.slot.None? && b.closing)
  }

  lemma InsideEffect(b: Box, t: nat, pc: Pc, l: Label)
    requires Act(b, t, pc, l).To? && pc.Holds() && PcInv(b, pc) && (b.shut ==> b.slot.None? && b.closing)
    ensures var o := Act(b, t, pc, l); InsideKept(o.box, o.pc)
  {
    if pc.Sending() {
      InsideSendEffect(b, t, pc);
    } else if pc.Matching() {
      InsideMatchEffect(b, t, pc);
    }
  }

  lemma StepKeepsInv(s: State, t: nat, l: Label)
    requires Inv(s) && t < |s.pc| && Next(s, t, l).Some?
    ensures Inv(Next(s, t, l).value)
  {
    var s' := Next(s, t, l).value;
    LockEffect(s.box, t, s.pc[t], l);
    OnlyCloseShuts(s.box, t, s.pc[t], l);
    if s.pc[t].Holds() {
      InsideEffect(s.box, t, s.pc[t], l);
    } else {
      OutsideEffect(s.box, t, s.pc[t], l);
    }
  }

  lemma {:induction false} RunKeepsInv(threads: nat, tr: Trace)
    requires Run(threads, tr).Some?
    ensures Inv(Run(threads, tr).value) && |Run(threads, tr).value.pc| == threads
  {
    if tr != [] {
      var n := |tr| - 1;
      RunKeepsInv(threads, tr[..n]);
      StepKeepsInv(Run(threads, tr[..n]).value, tr[n].0, tr[n].1);
    }
  }

  // ---------------------------------------------------------------- progress

  /** A goroutine inside a critical section is never blocked: every put it
      makes finds the channel empty and open, so no put blocks and none panics. */
  lemma HolderNeverBlocks(threads: nat, tr: Trace, t: nat)
    requires Run(threads, tr).Some? && t < threads
    requires !Run(threads, tr).value.box.leaked
    requires Run(threads, tr).value.box.lock == Some(t)
    ensures |Run(threads, tr).value.pc| == threads
    ensures Next(Run(threads, tr).value, t, Go).Some?
  {
    RunKeepsInv(threads, tr);
    var s := Run(threads, tr).value;
    assert PcInv(s.box, s.pc[t]);
    InsideNeverBlocks(s.box, t, s.pc[t]);
  }

  lemma InsideNeverBlocks(b: Box, t: nat, pc: Pc)
    requires PcInv(b, pc) && pc.Holds()
    ensures Act(b, t, pc, Go).To?
  {
  }

  // ---------------------------------------------------------------- no stranded messages

  /** A message waits in the slice while the channel is empty and open. */
  predicate Starved(b: Box) {
    !b.shut && b.slot.None? && b.messages != []
  }

  ghost predicate NoneStranded(s: State) {
    Starved(s.box) ==> exists t :: 0 <= t < |s.pc| && s.pc[t].WillRefill()
  }

  /** A step leaves the channel empty over a non-empty slice only if its own
      goroutine is about to refill, or if the mailbox was like that before and
      the goroutine was not the one to refill it. */
  lemma StarvedOnlyByRefiller(b: Box, t: nat, pc: Pc, l: Label)
    requires Act(b, t, pc, l).To? && (pc.Holds() ==> PcInv(b, pc))
    requires Starved(Act(b, t, pc, l).box)
    ensures Act(b, t, pc, l).pc.WillRefill() || (Starved(b) && !pc.WillRefill())
  {
    if pc.Sending() {
    } else if pc.Matching() {
    } else {
    }
  }

  /** In every reachable state, an empty open channel over a non-empty slice
      means that some goroutine is between its take and its refill. */
  lemma {:induction false} MessagesNeverStranded(threads: nat, tr: Trace)
    requires Run(threads, tr).Some?
    ensures NoneStranded(Run(threads, tr).value)
  {
    if tr != [] {
      var n, t, l := |tr| - 1, tr[|tr| - 1].0, tr[|tr| - 1].1;
      MessagesNeverStranded(threads, tr[..n]);
      RunKeepsInv(threads, tr[..n]);
      var s := Run(threads, tr[..n]).value;
      var s' := Run(threads, tr).value;
      if Starved(s'.box) {
        StarvedOnlyByRefiller(s.box, t, s.pc[t], l);
        if s'.pc[t].WillRefill() {
        } else {
          var u :| 0 <= u < |s.pc| && s.pc[u].WillRefill();
          assert s'.pc[u].WillRefill();
        }
      }
    }
  }

  /** Nobody is in the middle of an operation: idle, waiting to send or to
      close, or waiting on the channel. */
  ghost predicate Quiescent(s: State) {
    forall t :: 0 <= t < |s.pc| ==>
      s.pc[t].Idle? || s.pc[t].SendLock? || s.pc[t].CloseLock? || s.pc[t].Take? || s.pc[t].MatchTake?
  }

  /** So a receiver that finds the channel of an open mailbox empty, while
      nobody is in the middle of an operation, missed nothing. */
  lemma QuiescentEmptyChannelIsEmptyMailbox(threads: nat, tr: Trace)
    requires Run(threads, tr).Some? && Quiescent(Run(threads, tr).value)
    requires Run(threads, tr).value.box.slot.None?
    ensures Run(threads, tr).value.box.messages == []
  {
    MessagesNeverStranded(threads, tr);
    RunKeepsInv(threads, tr);
    var s := Run(threads, tr).value;
    if s.box.shut && s.box.lock.Some? && !s.box.leaked {
      assert s.pc[s.box.lock.value].Holds();
    }
  }
}
