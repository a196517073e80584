/** Many mailboxes that watch each other, at the grain of mutex operations and
    table lookups: Close and OnCloseNotify hold a mailbox's mutex while they
    send to other mailboxes (mailbox.go:109-151, 473-502, 527-574, 784-838). */
module CloseSteps {
  import opened Wrappers

  /** What one goroutine runs.  An address with no mailbox cached is
      looked up in the table of mailboxes first: `lookup`. */
  datatype Task =
    | Close(m: nat)
    | Watch(m: nat, w: nat, lookup: bool, lookupTarget: bool)   // m.OnCloseNotify(w)
    | Unwatch(m: nat, w: nat, lookup: bool)                    // m.RemoveNotify(w)
    | Use(m: nat, lookup: bool)                                // send, or the refill of a receive

  /** The stages of addr.Send: read-lock the table, look up, unlock, then the target's mutex. */
  datatype Stage = Begin | Reading | Read(found: bool) | Want | In | Out

  datatype Pc =
    | Start
    | Announced                // first in line for the table's write lock: waits for the readers
    | Deleting                 // holds the table's write lock
    | Deleted
    | Resolving                // holds the table's read lock
    | Resolved(found: bool)
    | WantOwn                  // waits for the mutex of its mailbox m
    | Own                      // holds it, from here to Leaving
    | Shutting
    | Flagging
    | Notifying(rest: set<nat>)
    | Clearing
    | Sending(to: nat, rest: set<nat>, own: bool, at: Stage)
    | Leaving
    | Done
  {
    /** The goroutine holds the mutex of the mailbox it works on. */
    predicate HoldsOwn() {
      Own? || Shutting? || Flagging? || Notifying? || Clearing? || Leaving? || (Sending? && own)
    }

    /** The goroutine holds the mutex of the mailbox it sends to. */
    predicate HoldsTarget() { Sending? && (at.In? || at.Out?) }

    /** The goroutine keeps new readers out of the table. */
    predicate Writes() { Announced? || Deleting? || Deleted? }

    predicate Reads() { Resolving? || Resolved? || (Sending? && (at.Reading? || at.Read?)) }
  }

  datatype Box = Box(registered: bool, lock: Option<nat>, shut: bool, closed: bool, watchers: set<nat>)

  /** The mailboxes, the table's lock, and what happened: when each mailbox was
      first unregistered, and the notices delivered as (closed mailbox, receiver).
      The writer is the goroutine that has, or is first in line for, the write
      lock; a sync.RWMutex lets no new reader in from then on. */
  datatype Mem = Mem(
    boxes: seq<Box>,
    writer: Option<nat>,
    readers: set<nat>,
    clock: nat,
    gone: seq<nat>,
    notices: multiset<(nat, nat)>
  )

  datatype State = State(mem: Mem, pc: seq<Pc>)

  datatype Outcome = Stuck | To(mem: Mem, pc: Pc)

  function SetBox(mem: Mem, i: nat, b: Box): Mem
    requires i < |mem.boxes|
  {
    mem.(boxes := mem.boxes[i := b])
  }

  function LockBox(mem: Mem, i: nat, t: nat, pc: Pc): Outcome {
    if i < |mem.boxes| && mem.boxes[i].lock.None? then To(SetBox(mem, i, mem.boxes[i].(lock := Some(t))), pc) else Stuck
  }

  function UnlockBox(mem: Mem, i: nat, pc: Pc): Outcome {
    if i < |mem.boxes| then To(SetBox(mem, i, mem.boxes[i].(lock := None)), pc) else Stuck
  }

  function ReadLock(mem: Mem, t: nat, pc: Pc): Outcome {
    if mem.writer.None? then To(mem.(readers := mem.readers + {t}), pc) else Stuck
  }

  function Unregister(mem: Mem, i: nat): Mem
    requires i < |mem.boxes| == |mem.gone|
  {
    if mem.boxes[i].registered then
      SetBox(mem, i, mem.boxes[i].(registered := false)).(gone := mem.gone[i := mem.clock], clock := mem.clock + 1)
    else mem
  }

  /** After a send: the loop of Close goes on; onCloseNotify returns. */
  function AfterSend(task: Task, pc: Pc): Pc
    requires pc.Sending?
  {
    if task.Close? then Notifying(pc.rest) else if pc.own then Leaving else Done
  }

  function FirstStep(mem: Mem, task: Task, t: nat): Outcome {
    if task.Close? then
      if mem.writer.None? then To(mem.(writer := Some(t)), Announced) else Stuck
    else if task.lookup then ReadLock(mem, t, Resolving)
    else To(mem, WantOwn)
  }

  /** The address resolved to no mailbox: OnCloseNotify answers at once, the others have nothing to do. */
  function Unresolved(task: Task): Pc {
    if task.Watch? then Sending(task.w, {}, false, Begin) else Done
  }

  /** Holding the mutex of mailbox m, whose state is `b`. */
  function OwnStep(mem: Mem, task: Task): Outcome
    requires task.m < |mem.boxes|
  {
    var b := mem.boxes[task.m];
    match task
    case Close(m) => To(mem, if b.shut then Leaving else Shutting)
    case Watch(m, w, _, _) =>
      if b.closed then To(mem, Sending(w, {}, true, Begin))
      else To(SetBox(mem, m, b.(watchers := b.watchers + {w})), Leaving)
    case Unwatch(m, w, _) => To(SetBox(mem, m, b.(watchers := b.watchers - {w})), Leaving)
    case Use(_, _) => To(mem, Leaving)
  }

  function SendStep(mem: Mem, task: Task, t: nat, pc: Pc): Outcome
    requires pc.Sending?
  {
    match pc.at
    case Begin =>
      if task.Watch? && !task.lookupTarget then To(mem, pc.(at := Want)) else ReadLock(mem, t, pc.(at := Reading))
    case Reading => To(mem, pc.(at := Read(pc.to < |mem.boxes| && mem.boxes[pc.to].registered)))
    case Read(found) =>
      To(mem.(readers := mem.readers - {t}), if found then pc.(at := Want) else AfterSend(task, pc))
    case Want => LockBox(mem, pc.to, t, pc.(at := In))
    case In =>
      if pc.to < |mem.boxes| && !mem.boxes[pc.to].shut then
        To(mem.(notices := mem.notices + multiset{(task.m, pc.to)}), pc.(at := Out))
      else To(mem, pc.(at := Out))
    case Out => UnlockBox(mem, pc.to, AfterSend(task, pc))
  }

  /** One step of goroutine `t`; `w` is the watcher that Close's map range yields next. */
  function Act(mem: Mem, task: Task, t: nat, pc: Pc, w: nat): Outcome
    requires task.m < |mem.boxes| == |mem.gone|
  {
    var b := mem.boxes[task.m];
    match pc
    case Start => FirstStep(mem, task, t)
    case Announced => if mem.readers == {} then To(mem, Deleting) else Stuck
    case Deleting => To(Unregister(mem, task.m), Deleted)
    case Deleted => To(mem.(writer := None), WantOwn)
    case Resolving => To(mem, Resolved(b.registered))
    case Resolved(found) => To(mem.(readers := mem.readers - {t}), if found then WantOwn else Unresolved(task))
    case WantOwn => LockBox(mem, task.m, t, Own)
    case Own => OwnStep(mem, task)
    case Shutting => To(SetBox(mem, task.m, b.(shut := true)), Flagging)
    case Flagging => To(SetBox(mem, task.m, b.(closed := true)), Notifying(b.watchers))
    case Notifying(rest) =>
      if rest == {} then To(mem, Clearing)
      else if w in rest then To(mem, Sending(w, rest - {w}, true, Begin))
      else Stuck
    case Clearing => To(SetBox(mem, task.m, b.(watchers := {})), Leaving)
    case Sending(_, _, _, _) => SendStep(mem, task, t, pc)
    case Leaving => UnlockBox(mem, task.m, Done)
    case Done => Stuck
  }

  /** The tasks work on the `n` mailboxes there are. */
  ghost predicate Tasks(tasks: seq<Task>, n: nat) {
    forall t :: 0 <= t < |tasks| ==>
      tasks[t].m < n && (tasks[t].Watch? || tasks[t].Unwatch? ==> tasks[t].w < n)
  }

  predicate Shaped(s: State, tasks: seq<Task>) {
    && |s.pc| == |tasks| && |s.mem.gone| == |s.mem.boxes|
    && forall t :: 0 <= t < |tasks| ==> tasks[t].m < |s.mem.boxes|
  }

  function Next(s: State, tasks: seq<Task>, t: nat, w: nat): (r: Option<State>)
    requires Shaped(s, tasks) && t < |tasks|
    ensures r.Some? ==> Shaped(r.value, tasks) && |r.value.mem.boxes| == |s.mem.boxes|
  {
    match Act(s.mem, tasks[t], t, s.pc[t], w)
    case Stuck => None
    case To(mem, pc) => Some(State(mem, s.pc[t := pc]))
  }

  /** All mailboxes open, watching each other in any way: watchers[i] watch mailbox i. */
  function Init(watchers: seq<set<nat>>, tasks: seq<Task>): State {
    State(Mem(seq(|watchers|, i requires 0 <= i < |watchers| => Box(true, None, false, false, watchers[i])),
              None, {}, 0, seq(|watchers|, _ => 0), multiset{}),
          seq(|tasks|, _ => Start))
  }

  ghost predicate Setup(watchers: seq<set<nat>>, tasks: seq<Task>) {
    && Tasks(tasks, |watchers|)
    && forall i, w :: 0 <= i < |watchers| && w in watchers[i] ==> w < |watchers|
  }

  /** A schedule names the goroutine that steps, and the watcher it picks. */
  type Trace = seq<(nat, nat)>

  ghost function Run(watchers: seq<set<nat>>, tasks: seq<Task>, tr: Trace): (r: Option<State>)
    requires Setup(watchers, tasks)
    ensures r.Some? ==> Shaped(r.value, tasks) && |r.value.mem.boxes| == |watchers|
  {
    if tr == [] then Some(Init(watchers, tasks))
    else
      var n := |tr| - 1;
      match Run(watchers, tasks, tr[..n])
      case None => None
      case Some(s) => if tr[n].0 < |tasks| then Next(s, tasks, tr[n].0, tr[n].1) else None
  }

  // ---------------------------------------------------------------- who holds what

  ghost predicate Holds(pc: Pc, task: Task, i: nat) {
    (pc.HoldsOwn() && task.m == i) || (pc.HoldsTarget() && pc.to == i)
  }

  ghost predicate LockInv(s: State, tasks: seq<Task>)
    requires Shaped(s, tasks)
  {
    && (forall i :: 0 <= i < |s.mem.boxes| && s.mem.boxes[i].lock.Some? ==> s.mem.boxes[i].lock.value < |tasks|)
    && (forall i, t :: 0 <= i < |s.mem.boxes| && 0 <= t < |tasks| ==>
          (Holds(s.pc[t], tasks[t], i) <==> s.mem.boxes[i].lock == Some(t)))
    && (forall t :: 0 <= t < |tasks| ==> TwoMutexes(s.pc[t], tasks[t]))
  }

  /** A goroutine that holds two mutexes holds those of two mailboxes. */
  ghost predicate TwoMutexes(pc: Pc, task: Task) {
    pc.HoldsOwn() && pc.HoldsTarget() ==> pc.to != task.m
  }

  ghost predicate TableInv(s: State, tasks: seq<Task>)
    requires Shaped(s, tasks)
  {
    && (s.mem.writer.Some? ==> s.mem.writer.value < |tasks|)
    && (s.mem.writer.Some? && s.mem.readers != {} ==> s.pc[s.mem.writer.value].Announced?)
    && (forall t :: t in s.mem.readers ==> t < |tasks|)
    && (forall t :: 0 <= t < |tasks| ==> (s.pc[t].Writes() <==> s.mem.writer == Some(t)))
    && (forall t :: 0 <= t < |tasks| ==> (s.pc[t].Reads() <==> t in s.mem.readers))
  }

  /** Which positions each task can be at. */
  ghost predicate PcShape(mem: Mem, task: Task, pc: Pc) {
    && (pc.Writes() || pc.Shutting? || pc.Flagging? || pc.Notifying? || pc.Clearing? ==> task.Close?)
    && (pc.Sending? ==> task.Close? || task.Watch?)
    && (pc.Sending? ==> pc.to < |mem.boxes|)
    && (pc.Sending? && task.Watch? ==> pc.to == task.w && pc.rest == {})
    && (pc.Sending? && task.Close? ==> pc.own)
    && (pc.Resolving? || pc.Resolved? ==> !task.Close?)
    && (pc.Notifying? || pc.Sending? ==> forall w :: w in pc.rest ==> w < |mem.boxes|)
  }

  ghost predicate ShapeInv(s: State, tasks: seq<Task>)
    requires Shaped(s, tasks)
  {
    && (forall t :: 0 <= t < |tasks| ==> PcShape(s.mem, tasks[t], s.pc[t]))
    && (forall i, w :: 0 <= i < |s.mem.boxes| && w in s.mem.boxes[i].watchers ==> w < |s.mem.boxes|)
  }

  lemma SendKeepsShape(mem: Mem, task: Task, t: nat, pc: Pc)
    requires pc.Sending? && SendStep(mem, task, t, pc).To? && PcShape(mem, task, pc)
    ensures var o := SendStep(mem, task, t, pc);
      && |o.mem.boxes| == |mem.boxes| && PcShape(o.mem, task, o.pc)
      && forall i :: 0 <= i < |mem.boxes| ==> o.mem.boxes[i].watchers == mem.boxes[i].watchers
  {
  }

  lemma ActKeepsShape(mem: Mem, task: Task, t: nat, pc: Pc, w: nat)
    requires task.m < |mem.boxes| == |mem.gone| && Act(mem, task, t, pc, w).To?
    requires PcShape(mem, task, pc) && (task.Watch? ==> task.w < |mem.boxes|)
    requires forall x <- mem.boxes[task.m].watchers :: x < |mem.boxes|
    ensures var o := Act(mem, task, t, pc, w);
      && |o.mem.boxes| == |mem.boxes| && PcShape(o.mem, task, o.pc)
      && forall i, x :: 0 <= i < |mem.boxes| && x in o.mem.boxes[i].watchers && x !in mem.boxes[i].watchers ==>
           x < |mem.boxes|
  {
    if pc.Sending? {
      SendKeepsShape(mem, task, t, pc);
    } else if pc.Own? {
    } else {
    }
  }

  lemma StepKeepsShape(s: State, tasks: seq<Task>, t: nat, w: nat)
    requires Shaped(s, tasks) && t < |tasks| && Tasks(tasks, |s.mem.boxes|) && Next(s, tasks, t, w).Some?
    requires ShapeInv(s, tasks)
    ensures ShapeInv(Next(s, tasks, t, w).value, tasks)
  {
    ActKeepsShape(s.mem, tasks[t], t, s.pc[t], w);
  }

  /** What a step of goroutine t does to the table's lock. */
  ghost predicate TableLockChange(mem: Mem, t: nat, pc: Pc, mem': Mem, pc': Pc) {
    && mem'.writer == (if pc'.Writes() then Some(t) else if pc.Writes() then None else mem.writer)
    && mem'.readers == (if pc'.Reads() then mem.readers + {t} else mem.readers - {t})
    && (pc'.Writes() && !pc.Writes() ==> mem.writer.None? && pc'.Announced?)
    && (pc'.Writes() && pc.Writes() ==> mem.readers == {} || pc'.Announced?)
    && (pc'.Reads() && !pc.Reads() ==> mem.writer.None?)
  }

  lemma SendTableLock(mem: Mem, task: Task, t: nat, pc: Pc)
    requires pc.Sending? && SendStep(mem, task, t, pc).To? && PcShape(mem, task, pc)
    requires mem.writer != Some(t) && (pc.Reads() <==> t in mem.readers)
    ensures TableLockChange(mem, t, pc, SendStep(mem, task, t, pc).mem, SendStep(mem, task, t, pc).pc)
  {
  }

  lemma TableLockEffect(mem: Mem, task: Task, t: nat, pc: Pc, w: nat)
    requires task.m < |mem.boxes| == |mem.gone| && Act(mem, task, t, pc, w).To? && PcShape(mem, task, pc)
    requires (pc.Writes() <==> mem.writer == Some(t)) && (pc.Reads() <==> t in mem.readers)
    requires mem.writer == Some(t) && mem.readers != {} ==> pc.Announced?
    ensures TableLockChange(mem, t, pc, Act(mem, task, t, pc, w).mem, Act(mem, task, t, pc, w).pc)
  {
    if pc.Sending? {
      SendTableLock(mem, task, t, pc);
    } else if pc.Start? {
    } else {
    }
  }

  lemma StepKeepsTable(s: State, tasks: seq<Task>, t: nat, w: nat)
    requires Shaped(s, tasks) && t < |tasks| && Next(s, tasks, t, w).Some?
    requires ShapeInv(s, tasks) && TableInv(s, tasks)
    ensures TableInv(Next(s, tasks, t, w).value, tasks)
  {
    TableLockEffect(s.mem, tasks[t], t, s.pc[t], w);
  }

  /** A step leaves the mutex of mailbox i alone, takes it, or releases it. */
  ghost predicate LockChange(mem: Mem, task: Task, t: nat, pc: Pc, mem': Mem, pc': Pc, i: nat)
    requires i < |mem.boxes| == |mem'.boxes|
  {
    if Holds(pc', task, i) == Holds(pc, task, i) then mem'.boxes[i].lock == mem.boxes[i].lock
    else if Holds(pc', task, i) then mem.boxes[i].lock == None && mem'.boxes[i].lock == Some(t)
    else mem'.boxes[i].lock == None
  }

  lemma SendLockEffect(mem: Mem, task: Task, t: nat, pc: Pc, i: nat)
    requires task.m < |mem.boxes| == |mem.gone| && i < |mem.boxes|
    requires pc.Sending? && SendStep(mem, task, t, pc).To? && PcShape(mem, task, pc) && TwoMutexes(pc, task)
    requires pc.own ==> mem.boxes[task.m].lock == Some(t)
    ensures var o := SendStep(mem, task, t, pc);
      |o.mem.boxes| == |mem.boxes| && LockChange(mem, task, t, pc, o.mem, o.pc, i) && TwoMutexes(o.pc, task)
  {
  }

  lemma LockEffect(mem: Mem, task: Task, t: nat, pc: Pc, w: nat, i: nat)
    requires task.m < |mem.boxes| == |mem.gone| && i < |mem.boxes|
    requires Act(mem, task, t, pc, w).To? && PcShape(mem, task, pc) && TwoMutexes(pc, task)
    requires pc.HoldsOwn() ==> mem.boxes[task.m].lock == Some(t)
    ensures var o := Act(mem, task, t, pc, w);
      |o.mem.boxes| == |mem.boxes| && LockChange(mem, task, t, pc, o.mem, o.pc, i) && TwoMutexes(o.pc, task)
  {
    if pc.Sending? {
      SendLockEffect(mem, task, t, pc, i);
    }
  }

  lemma StepKeepsLocks(s: State, tasks: seq<Task>, t: nat, w: nat)
    requires Shaped(s, tasks) && t < |tasks| && Next(s, tasks, t, w).Some?
    requires ShapeInv(s, tasks) && LockInv(s, tasks)
    ensures LockInv(Next(s, tasks, t, w).value, tasks)
  {
    assert PcShape(s.mem, tasks[t], s.pc[t]);
    var s' := Next(s, tasks, t, w).value;
    assert TwoMutexes(s.pc[t], tasks[t]);
    assert s.pc[t].HoldsOwn() ==> Holds(s.pc[t], tasks[t], tasks[t].m);
    LockEffect(s.mem, tasks[t], t, s.pc[t], w, tasks[t].m);
    forall i | 0 <= i < |s'.mem.boxes|
      ensures s'.mem.boxes[i].lock.Some? ==> s'.mem.boxes[i].lock.value < |tasks|
      ensures forall u :: 0 <= u < |tasks| ==> (Holds(s'.pc[u], tasks[u], i) <==> s'.mem.boxes[i].lock == Some(u))
    {
      LockEffect(s.mem, tasks[t], t, s.pc[t], w, i);
      forall u | 0 <= u < |tasks|
        ensures Holds(s'.pc[u], tasks[u], i) <==> s'.mem.boxes[i].lock == Some(u)
      {
        assert Holds(s.pc[u], tasks[u], i) <==> s.mem.boxes[i].lock == Some(u);
        assert Holds(s.pc[t], tasks[t], i) <==> s.mem.boxes[i].lock == Some(t);
      }
    }
  }
}
