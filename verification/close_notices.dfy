/** A close notice is neither lost nor doubled: CloseSteps, seen by one watcher. */
module CloseNotices {
  import opened Wrappers
  import opened CloseSteps
  import opened CloseProgress

  // ---------------------------------------------------------------- the flags of Close

  ghost predicate PcFlags(b: Box, task: Task, pc: Pc) {
    && (pc.Shutting? ==> !b.shut)
    && (pc.Flagging? ==> b.shut && !b.closed)
    && (pc.Notifying? || pc.Clearing? || (pc.Sending? && pc.own) ==> b.closed)
    && (task.Close? && (pc.Leaving? || pc.Done?) ==> b.closed)
  }

  /** Between its two flags a mailbox is in the hands of the goroutine that closes it. */
  ghost predicate BoxFlags(s: State, tasks: seq<Task>, i: nat)
    requires Shaped(s, tasks) && i < |s.mem.boxes|
  {
    var b := s.mem.boxes[i];
    && (b.closed ==> b.shut)
    && (!b.shut || b.closed || (b.lock.Some? && b.lock.value < |tasks| &&
                                s.pc[b.lock.value].Flagging? && tasks[b.lock.value].m == i))
    && (b.shut || !b.registered ==> IsClosed(tasks, i))
  }

  ghost predicate FlagInv(s: State, tasks: seq<Task>)
    requires Shaped(s, tasks)
  {
    && (forall i :: 0 <= i < |s.mem.boxes| ==> BoxFlags(s, tasks, i))
    && (forall t :: 0 <= t < |tasks| ==> PcFlags(s.mem.boxes[tasks[t].m], tasks[t], s.pc[t]))
  }

  ghost predicate Basics(s: State, tasks: seq<Task>)
    requires Shaped(s, tasks)
  {
    ShapeInv(s, tasks) && LockInv(s, tasks) && FlagInv(s, tasks)
  }

  lemma MoverKeepsFlags(mem: Mem, task: Task, t: nat, pc: Pc, w: nat)
    requires task.m < |mem.boxes| == |mem.gone| && Act(mem, task, t, pc, w).To?
    requires PcShape(mem, task, pc) && PcFlags(mem.boxes[task.m], task, pc)
    requires mem.boxes[task.m].closed ==> mem.boxes[task.m].shut
    requires pc.Own? && mem.boxes[task.m].shut ==> mem.boxes[task.m].closed
    ensures |Act(mem, task, t, pc, w).mem.boxes| == |mem.boxes|
    ensures PcFlags(Act(mem, task, t, pc, w).mem.boxes[task.m], task, Act(mem, task, t, pc, w).pc)
  {
    TableEffect(mem, task, t, pc, w);
    if pc.Sending? {
    } else if pc.Own? {
    } else {
    }
  }

  lemma StepKeepsFlags(s: State, tasks: seq<Task>, t: nat, w: nat)
    requires Shaped(s, tasks) && t < |tasks| && Next(s, tasks, t, w).Some? && Basics(s, tasks)
    ensures FlagInv(Next(s, tasks, t, w).value, tasks)
  {
    var s', task, pc := Next(s, tasks, t, w).value, tasks[t], s.pc[t];
    var m := task.m;
    TableEffect(s.mem, task, t, pc, w);
    assert PcShape(s.mem, task, pc) && BoxFlags(s, tasks, m) && PcFlags(s.mem.boxes[m], task, pc);
    assert Holds(pc, task, m) ==> s.mem.boxes[m].lock == Some(t);
    MoverKeepsFlags(s.mem, task, t, pc, w);
    assert pc.Deleting? || pc.Shutting? ==> task == Close(m);
    assert TwoMutexes(pc, task);
    forall i | 0 <= i < |s'.mem.boxes| ensures BoxFlags(s', tasks, i) {
      assert BoxFlags(s, tasks, i);
      LockEffect(s.mem, task, t, pc, w, i);
      assert Holds(pc, task, i) ==> s.mem.boxes[i].lock == Some(t);
    }
    forall u | 0 <= u < |tasks| ensures PcFlags(s'.mem.boxes[tasks[u].m], tasks[u], s'.pc[u]) {
      assert PcFlags(s.mem.boxes[tasks[u].m], tasks[u], s.pc[u]);
      if u != t && tasks[u].m == m {
        assert Holds(s.pc[u], tasks[u], m) ==> s.mem.boxes[m].lock == Some(u);
      }
    }
  }

  lemma {:induction false} RunKeepsBasics(watchers: seq<set<nat>>, tasks: seq<Task>, tr: Trace)
    requires Setup(watchers, tasks) && Run(watchers, tasks, tr).Some?
    ensures Basics(Run(watchers, tasks, tr).value, tasks)
  {
    if tr != [] {
      var n := |tr| - 1;
      RunKeepsBasics(watchers, tasks, tr[..n]);
      var s := Run(watchers, tasks, tr[..n]).value;
      StepKeepsShape(s, tasks, tr[n].0, tr[n].1);
      StepKeepsLocks(s, tasks, tr[n].0, tr[n].1);
      StepKeepsFlags(s, tasks, tr[n].0, tr[n].1);
    }
  }

  // ---------------------------------------------------------------- one watcher of one mailbox

  /** Goroutine k is the only one that asks mailbox m to notify w, nobody
      withdraws that, and w did not watch m before. */
  ghost predicate OneRequest(watchers: seq<set<nat>>, tasks: seq<Task>, k: nat, m: nat, w: nat) {
    && k < |tasks| && tasks[k].Watch? && tasks[k].m == m && tasks[k].w == w && m != w
    && Setup(watchers, tasks) && w !in watchers[m]
    && (forall t :: 0 <= t < |tasks| && t != k && (tasks[t].Watch? || tasks[t].Unwatch?) && tasks[t].m == m ==>
          tasks[t].w != w)
  }

  /** And nobody closes w. */
  ghost predicate OneWatch(watchers: seq<set<nat>>, tasks: seq<Task>, k: nat, m: nat, w: nat) {
    OneRequest(watchers, tasks, k, m, w) && !IsClosed(tasks, w)
  }

  /** This closer of m has w on its list, or is about to deliver to it. */
  ghost predicate Owes(task: Task, pc: Pc, m: nat, w: nat) {
    && task == Close(m)
    && (|| (pc.Notifying? && w in pc.rest)
        || (pc.Sending? && (w in pc.rest || (pc.to == w && !pc.at.Out?))))
  }

  ghost predicate Owed(s: State, tasks: seq<Task>, m: nat, w: nat)
    requires Shaped(s, tasks) && m < |s.mem.boxes|
  {
    var h := s.mem.boxes[m].lock;
    h.Some? && h.value < |tasks| && Owes(tasks[h.value], s.pc[h.value], m, w)
  }

  /** How many notices of m's closing w has got. */
  function Told(mem: Mem, m: nat, w: nat): nat { mem.notices[(m, w)] }

  /** Where the one request and its one notice stand. */
  ghost predicate Once(s: State, tasks: seq<Task>, k: nat, m: nat, w: nat)
    requires Shaped(s, tasks) && k < |tasks| && m < |s.mem.boxes|
  {
    var told, owed, b, pc := Told(s.mem, m, w), Owed(s, tasks, m, w), s.mem.boxes[m], s.pc[k];
    if !pc.Leaving? && !pc.Done? then
      // the request is on its way, or is being answered directly
      !owed && w !in b.watchers && told == if pc.Sending? && pc.at.Out? then 1 else 0
    else if told == 0 then
      // the request is on record, or on the list of the goroutine that closes m
      if b.closed then owed else !owed && w in b.watchers
    else
      told == 1 && !owed && (w in b.watchers ==> b.closed)
  }

  /** The target, which nobody closes, is always found. */
  ghost predicate TargetFound(s: State, w: nat) {
    forall t :: 0 <= t < |s.pc| && s.pc[t].Sending? && s.pc[t].to == w && s.pc[t].at.Read? ==> s.pc[t].at.found
  }

  lemma PairEffect(mem: Mem, task: Task, t: nat, pc: Pc, pick: nat, m: nat, w: nat)
    requires task.m < |mem.boxes| == |mem.gone| && m < |mem.boxes| && w < |mem.boxes|
    requires Act(mem, task, t, pc, pick).To? && PcShape(mem, task, pc)
    ensures var o := Act(mem, task, t, pc, pick);
      && |o.mem.boxes| == |mem.boxes|
      && Told(o.mem, m, w) ==
           Told(mem, m, w)
             + (if pc.Sending? && pc.at.In? && task.m == m && pc.to == w && !mem.boxes[w].shut then 1 else 0)
      && (w in o.mem.boxes[m].watchers <==>
            if task.m == m && pc.Clearing? then false
            else if task.m == m && pc.Own? && task.Watch? && task.w == w && !mem.boxes[m].closed then true
            else if task.m == m && pc.Own? && task.Unwatch? && task.w == w then false
            else w in mem.boxes[m].watchers)
  {
    if pc.Sending? {
    } else if pc.Own? {
    } else {
    }
  }

  lemma StepKeepsTargetFound(s: State, tasks: seq<Task>, t: nat, pick: nat, w: nat)
    requires Shaped(s, tasks) && t < |tasks| && Next(s, tasks, t, pick).Some? && Basics(s, tasks)
    requires w < |s.mem.boxes| && !IsClosed(tasks, w) && TargetFound(s, w)
    ensures TargetFound(Next(s, tasks, t, pick).value, w)
  {
    assert BoxFlags(s, tasks, w);
    var s' := Next(s, tasks, t, pick).value;
    assert s'.pc[t].Sending? && s'.pc[t].to == w && s'.pc[t].at.Read? ==> s'.pc[t].at.found;
  }

  /** A step of the goroutine that asked. */
  lemma AskerKeepsOnce(s: State, tasks: seq<Task>, k: nat, pick: nat, m: nat, w: nat)
    requires Shaped(s, tasks) && k < |tasks| && Next(s, tasks, k, pick).Some? && Basics(s, tasks)
    requires m < |s.mem.boxes| && w < |s.mem.boxes| && !IsClosed(tasks, w) && TargetFound(s, w)
    requires tasks[k].Watch? && tasks[k].m == m && tasks[k].w == w && m != w
    requires Once(s, tasks, k, m, w)
    ensures |Next(s, tasks, k, pick).value.mem.boxes| == |s.mem.boxes|
    ensures Once(Next(s, tasks, k, pick).value, tasks, k, m, w)
  {
    var s', pc := Next(s, tasks, k, pick).value, s.pc[k];
    assert PcShape(s.mem, tasks[k], pc) && BoxFlags(s, tasks, m) && BoxFlags(s, tasks, w);
    assert PcFlags(s.mem.boxes[m], tasks[k], pc);
    PairEffect(s.mem, tasks[k], k, pc, pick, m, w);
    TableEffect(s.mem, tasks[k], k, pc, pick);
    assert TwoMutexes(pc, tasks[k]);
    assert Holds(pc, tasks[k], m) <==> s.mem.boxes[m].lock == Some(k);
    LockEffect(s.mem, tasks[k], k, pc, pick, m);
  }

  /** What a closer of m does for the watcher w: its list starts as the
      watchers of m, and w leaves it exactly when it is told. */
  lemma CloserEffect(mem: Mem, t: nat, pc: Pc, pick: nat, m: nat, w: nat)
    requires m < |mem.boxes| == |mem.gone| && w < |mem.boxes|
    requires Act(mem, Close(m), t, pc, pick).To? && PcShape(mem, Close(m), pc)
    requires pc.Sending? && pc.to == w && pc.at.Read? ==> pc.at.found
    requires !mem.boxes[w].shut
    ensures var o := Act(mem, Close(m), t, pc, pick);
      if pc.Flagging? then Owes(Close(m), o.pc, m, w) == (w in mem.boxes[m].watchers) && !Owes(Close(m), pc, m, w)
      else if pc.Sending? && pc.at.In? && pc.to == w then
        Owes(Close(m), pc, m, w) && Owes(Close(m), o.pc, m, w) == (w in pc.rest)
      else Owes(Close(m), o.pc, m, w) == Owes(Close(m), pc, m, w)
  {
    if pc.Sending? {
    } else {
    }
  }

  /** A list never names a watcher again that it is already sending to. */
  ghost predicate NoRepeat(pc: Pc) {
    pc.Sending? ==> pc.to !in pc.rest
  }

  lemma StepKeepsNoRepeat(s: State, tasks: seq<Task>, t: nat, pick: nat)
    requires Shaped(s, tasks) && t < |tasks| && Next(s, tasks, t, pick).Some?
    requires forall u :: 0 <= u < |tasks| ==> NoRepeat(s.pc[u])
    ensures forall u :: 0 <= u < |tasks| ==> NoRepeat(Next(s, tasks, t, pick).value.pc[u])
  {
    assert NoRepeat(s.pc[t]);
  }

  /** A step of a goroutine that closes m. */
  lemma CloserKeepsOnce(s: State, tasks: seq<Task>, t: nat, k: nat, pick: nat, m: nat, w: nat)
    requires Shaped(s, tasks) && t < |tasks| && Next(s, tasks, t, pick).Some? && Basics(s, tasks)
    requires m < |s.mem.boxes| && w < |s.mem.boxes| && !IsClosed(tasks, w) && TargetFound(s, w)
    requires k < |tasks| && t != k && m != w && tasks[t] == Close(m) && NoRepeat(s.pc[t])
    requires Once(s, tasks, k, m, w)
    ensures |Next(s, tasks, t, pick).value.mem.boxes| == |s.mem.boxes|
    ensures Once(Next(s, tasks, t, pick).value, tasks, k, m, w)
  {
    var s', pc := Next(s, tasks, t, pick).value, s.pc[t];
    assert PcShape(s.mem, tasks[t], pc) && BoxFlags(s, tasks, m) && BoxFlags(s, tasks, w);
    assert PcFlags(s.mem.boxes[m], tasks[t], pc);
    PairEffect(s.mem, tasks[t], t, pc, pick, m, w);
    TableEffect(s.mem, tasks[t], t, pc, pick);
    CloserEffect(s.mem, t, pc, pick, m, w);
    assert TwoMutexes(pc, tasks[t]);
    assert Holds(pc, tasks[t], m) <==> s.mem.boxes[m].lock == Some(t);
    LockEffect(s.mem, tasks[t], t, pc, pick, m);
    if s.mem.boxes[m].lock == Some(t) {
      assert Owed(s, tasks, m, w) == Owes(tasks[t], pc, m, w);
      assert Owed(s', tasks, m, w) == Owes(tasks[t], s'.pc[t], m, w);
    } else {
      assert Owed(s', tasks, m, w) == Owed(s, tasks, m, w);
    }
  }

  /** A step of a goroutine that neither closes m nor asks for this notice. */
  lemma OthersKeepOnce(s: State, tasks: seq<Task>, t: nat, k: nat, pick: nat, m: nat, w: nat)
    requires Shaped(s, tasks) && t < |tasks| && Next(s, tasks, t, pick).Some? && Basics(s, tasks)
    requires m < |s.mem.boxes| && w < |s.mem.boxes|
    requires k < |tasks| && t != k && m != w && tasks[t] != Close(m)
    requires (tasks[t].Watch? || tasks[t].Unwatch?) && tasks[t].m == m ==> tasks[t].w != w
    requires Once(s, tasks, k, m, w)
    ensures |Next(s, tasks, t, pick).value.mem.boxes| == |s.mem.boxes|
    ensures Once(Next(s, tasks, t, pick).value, tasks, k, m, w)
  {
    var s', pc, task := Next(s, tasks, t, pick).value, s.pc[t], tasks[t];
    assert PcShape(s.mem, task, pc);
    PairEffect(s.mem, task, t, pc, pick, m, w);
    TableEffect(s.mem, task, t, pc, pick);
    assert TwoMutexes(pc, task);
    assert Holds(pc, task, m) <==> s.mem.boxes[m].lock == Some(t);
    assert pc.HoldsOwn() ==> Holds(pc, task, task.m) && s.mem.boxes[task.m].lock == Some(t);
    LockEffect(s.mem, task, t, pc, pick, m);
    assert Owed(s', tasks, m, w) == Owed(s, tasks, m, w);
  }

  lemma {:induction false} RunKeepsOnce(watchers: seq<set<nat>>, tasks: seq<Task>, tr: Trace, k: nat, m: nat, w: nat)
    requires OneWatch(watchers, tasks, k, m, w) && Run(watchers, tasks, tr).Some?
    ensures var s := Run(watchers, tasks, tr).value;
      Once(s, tasks, k, m, w) && TargetFound(s, w) && forall u :: 0 <= u < |tasks| ==> NoRepeat(s.pc[u])
  {
    if tr != [] {
      var n, t, pick := |tr| - 1, tr[|tr| - 1].0, tr[|tr| - 1].1;
      RunKeepsOnce(watchers, tasks, tr[..n], k, m, w);
      RunKeepsBasics(watchers, tasks, tr[..n]);
      var s := Run(watchers, tasks, tr[..n]).value;
      StepKeepsTargetFound(s, tasks, t, pick, w);
      StepKeepsNoRepeat(s, tasks, t, pick);
      if t == k {
        AskerKeepsOnce(s, tasks, k, pick, m, w);
      } else if tasks[t] == Close(m) {
        CloserKeepsOnce(s, tasks, t, k, pick, m, w);
      } else {
        OthersKeepOnce(s, tasks, t, k, pick, m, w);
      }
    }
  }

  /** At no point of any schedule has the watcher got more than one notice; and
      once everybody is done it has got exactly one if the mailbox was closed,
      and none, but is on record, if it was not.  The mailboxes may watch each
      other in any way, and any number of other goroutines may close, watch and
      use any of them (but not close w or speak for w at m). */
  lemma NoticeExactlyOnce(watchers: seq<set<nat>>, tasks: seq<Task>, tr: Trace, k: nat, m: nat, w: nat, s: State)
    requires OneWatch(watchers, tasks, k, m, w) && Run(watchers, tasks, tr) == Some(s)
    ensures Told(s.mem, m, w) <= 1
    ensures (forall t :: 0 <= t < |tasks| ==> s.pc[t].Done?) ==>
      if IsClosed(tasks, m) then Told(s.mem, m, w) == 1
      else Told(s.mem, m, w) == 0 && w in s.mem.boxes[m].watchers
  {
    RunKeepsOnce(watchers, tasks, tr, k, m, w);
    RunKeepsBasics(watchers, tasks, tr);
    assert BoxFlags(s, tasks, m);
    if forall t :: 0 <= t < |tasks| ==> s.pc[t].Done? {
      if IsClosed(tasks, m) {
        var t :| 0 <= t < |tasks| && tasks[t] == Close(m);
        assert PcFlags(s.mem.boxes[m], tasks[t], s.pc[t]);
      } else if Told(s.mem, m, w) == 1 {
        NotToldUnlessGone(watchers, tasks, tr, k, m, w);
      }
    }
  }

  /** A notice is only ever sent about a mailbox that some task closes. */
  lemma {:induction false} NotToldUnlessGone(watchers: seq<set<nat>>, tasks: seq<Task>, tr: Trace, k: nat, m: nat,
                                             w: nat)
    requires OneWatch(watchers, tasks, k, m, w) && Run(watchers, tasks, tr).Some? && !IsClosed(tasks, m)
    ensures var s := Run(watchers, tasks, tr).value;
      && Told(s.mem, m, w) == 0
      && (forall t :: 0 <= t < |tasks| && tasks[t].m == m ==> !s.pc[t].Sending? && s.pc[t] != Resolved(false))
  {
    if tr != [] {
      var n, t, pick := |tr| - 1, tr[|tr| - 1].0, tr[|tr| - 1].1;
      NotToldUnlessGone(watchers, tasks, tr[..n], k, m, w);
      RunKeepsBasics(watchers, tasks, tr[..n]);
      var s := Run(watchers, tasks, tr[..n]).value;
      assert BoxFlags(s, tasks, m) && PcShape(s.mem, tasks[t], s.pc[t]);
      assert tasks[t].Close? ==> tasks[t] == Close(tasks[t].m);
      PairEffect(s.mem, tasks[t], t, s.pc[t], pick, m, w);
    }
  }

  // ---------------------------------------------------------------- a watcher that may close as well

  /** Where the one request stands, when its notice may find no one to take it. */
  ghost predicate AtMost(s: State, tasks: seq<Task>, k: nat, m: nat, w: nat)
    requires Shaped(s, tasks) && k < |tasks| && m < |s.mem.boxes|
  {
    var told, owed, b, pc := Told(s.mem, m, w), Owed(s, tasks, m, w), s.mem.boxes[m], s.pc[k];
    if !pc.Leaving? && !pc.Done? then
      !owed && w !in b.watchers && told <= if pc.Sending? && pc.at.Out? then 1 else 0
    else
      && told <= 1 && (owed ==> told == 0 && b.closed)
      && (told == 1 && w in b.watchers ==> b.closed)
  }

  /** A closer has w on its list only if w watches m, and no longer once it went for w's mutex. */
  lemma CloserListEffect(mem: Mem, t: nat, pc: Pc, pick: nat, m: nat, w: nat)
    requires m < |mem.boxes| == |mem.gone|
    requires Act(mem, Close(m), t, pc, pick).To? && PcShape(mem, Close(m), pc)
    ensures var o := Act(mem, Close(m), t, pc, pick);
      && (Owes(Close(m), o.pc, m, w) ==> Owes(Close(m), pc, m, w) || (pc.Flagging? && w in mem.boxes[m].watchers))
      && (pc.Sending? && pc.at.In? && pc.to == w ==>
            Owes(Close(m), pc, m, w) && (Owes(Close(m), o.pc, m, w) ==> w in pc.rest))
  {
    if pc.Sending? {
    } else {
    }
  }

  lemma AskerKeepsAtMost(s: State, tasks: seq<Task>, k: nat, pick: nat, m: nat, w: nat)
    requires Shaped(s, tasks) && k < |tasks| && Next(s, tasks, k, pick).Some? && Basics(s, tasks)
    requires m < |s.mem.boxes| && w < |s.mem.boxes|
    requires tasks[k].Watch? && tasks[k].m == m && tasks[k].w == w && m != w
    requires AtMost(s, tasks, k, m, w)
    ensures |Next(s, tasks, k, pick).value.mem.boxes| == |s.mem.boxes|
    ensures AtMost(Next(s, tasks, k, pick).value, tasks, k, m, w)
  {
    var pc := s.pc[k];
    assert PcShape(s.mem, tasks[k], pc) && BoxFlags(s, tasks, m);
    assert PcFlags(s.mem.boxes[m], tasks[k], pc);
    PairEffect(s.mem, tasks[k], k, pc, pick, m, w);
    TableEffect(s.mem, tasks[k], k, pc, pick);
    assert TwoMutexes(pc, tasks[k]);
    assert Holds(pc, tasks[k], m) <==> s.mem.boxes[m].lock == Some(k);
    LockEffect(s.mem, tasks[k], k, pc, pick, m);
  }

  lemma CloserKeepsAtMost(s: State, tasks: seq<Task>, t: nat, k: nat, pick: nat, m: nat, w: nat)
    requires Shaped(s, tasks) && t < |tasks| && Next(s, tasks, t, pick).Some? && Basics(s, tasks)
    requires m < |s.mem.boxes| && w < |s.mem.boxes|
    requires k < |tasks| && t != k && m != w && tasks[t] == Close(m) && NoRepeat(s.pc[t])
    requires AtMost(s, tasks, k, m, w)
    ensures |Next(s, tasks, t, pick).value.mem.boxes| == |s.mem.boxes|
    ensures AtMost(Next(s, tasks, t, pick).value, tasks, k, m, w)
  {
    var s', pc := Next(s, tasks, t, pick).value, s.pc[t];
    assert PcShape(s.mem, tasks[t], pc) && BoxFlags(s, tasks, m);
    assert PcFlags(s.mem.boxes[m], tasks[t], pc);
    PairEffect(s.mem, tasks[t], t, pc, pick, m, w);
    TableEffect(s.mem, tasks[t], t, pc, pick);
    CloserListEffect(s.mem, t, pc, pick, m, w);
    assert TwoMutexes(pc, tasks[t]);
    assert Holds(pc, tasks[t], m) <==> s.mem.boxes[m].lock == Some(t);
    LockEffect(s.mem, tasks[t], t, pc, pick, m);
    if s.mem.boxes[m].lock == Some(t) {
      assert Owed(s, tasks, m, w) == Owes(tasks[t], pc, m, w);
      assert Owed(s', tasks, m, w) ==> Owes(tasks[t], s'.pc[t], m, w);
    } else {
      assert Owed(s', tasks, m, w) == Owed(s, tasks, m, w);
    }
  }

  lemma OthersKeepAtMost(s: State, tasks: seq<Task>, t: nat, k: nat, pick: nat, m: nat, w: nat)
    requires Shaped(s, tasks) && t < |tasks| && Next(s, tasks, t, pick).Some? && Basics(s, tasks)
    requires m < |s.mem.boxes| && w < |s.mem.boxes|
    requires k < |tasks| && t != k && m != w && tasks[t] != Close(m)
    requires (tasks[t].Watch? || tasks[t].Unwatch?) && tasks[t].m == m ==> tasks[t].w != w
    requires AtMost(s, tasks, k, m, w)
    ensures |Next(s, tasks, t, pick).value.mem.boxes| == |s.mem.boxes|
    ensures AtMost(Next(s, tasks, t, pick).value, tasks, k, m, w)
  {
    var s', pc, task := Next(s, tasks, t, pick).value, s.pc[t], tasks[t];
    assert PcShape(s.mem, task, pc);
    PairEffect(s.mem, task, t, pc, pick, m, w);
    TableEffect(s.mem, task, t, pc, pick);
    assert TwoMutexes(pc, task);
    assert Holds(pc, task, m) <==> s.mem.boxes[m].lock == Some(t);
    assert pc.HoldsOwn() ==> Holds(pc, task, task.m) && s.mem.boxes[task.m].lock == Some(t);
    LockEffect(s.mem, task, t, pc, pick, m);
    assert Owed(s', tasks, m, w) == Owed(s, tasks, m, w);
  }

  lemma {:induction false} RunKeepsAtMost(watchers: seq<set<nat>>, tasks: seq<Task>, tr: Trace, k: nat, m: nat, w: nat)
    requires OneRequest(watchers, tasks, k, m, w) && Run(watchers, tasks, tr).Some?
    ensures var s := Run(watchers, tasks, tr).value;
      AtMost(s, tasks, k, m, w) && forall u :: 0 <= u < |tasks| ==> NoRepeat(s.pc[u])
  {
    if tr != [] {
      var n, t, pick := |tr| - 1, tr[|tr| - 1].0, tr[|tr| - 1].1;
      RunKeepsAtMost(watchers, tasks, tr[..n], k, m, w);
      RunKeepsBasics(watchers, tasks, tr[..n]);
      var s := Run(watchers, tasks, tr[..n]).value;
      StepKeepsNoRepeat(s, tasks, t, pick);
      if t == k {
        AskerKeepsAtMost(s, tasks, k, pick, m, w);
      } else if tasks[t] == Close(m) {
        CloserKeepsAtMost(s, tasks, t, k, pick, m, w);
      } else {
        OthersKeepAtMost(s, tasks, t, k, pick, m, w);
      }
    }
  }

  /** Whatever closes, the watcher included, it gets no second notice. */
  lemma NoticeAtMostOnce(watchers: seq<set<nat>>, tasks: seq<Task>, tr: Trace, k: nat, m: nat, w: nat, s: State)
    requires OneRequest(watchers, tasks, k, m, w) && Run(watchers, tasks, tr) == Some(s)
    ensures Told(s.mem, m, w) <= 1
  {
    RunKeepsAtMost(watchers, tasks, tr, k, m, w);
  }

  // ---------------------------------------------------------------- a mailbox that is not found

  /** Goroutine t looked for its mailbox, or is yet to, when it had left the table: it is nowhere near its mutex. */
  ghost predicate OffMailbox(s: State, tasks: seq<Task>, t: nat)
    requires Shaped(s, tasks) && t < |tasks|
  {
    var pc := s.pc[t];
    && !s.mem.boxes[tasks[t].m].registered
    && (pc.Start? || pc.Resolving? || pc == Resolved(false) || pc.Done? || (pc.Sending? && !pc.own))
  }

  lemma StepKeepsOff(s: State, tasks: seq<Task>, t: nat, u: nat, w: nat)
    requires Shaped(s, tasks) && u < |tasks| && Next(s, tasks, u, w).Some? && ShapeInv(s, tasks)
    requires t < |tasks| && !tasks[t].Close? && tasks[t].lookup && OffMailbox(s, tasks, t)
    ensures OffMailbox(Next(s, tasks, u, w).value, tasks, t)
  {
    TableEffect(s.mem, tasks[u], u, s.pc[u], w);
    assert PcShape(s.mem, tasks[t], s.pc[t]);
  }

  /** Whoever begins to look up a mailbox that has left the table never comes
      to its mutex; it answers a request for a notice itself, or has nothing to do. */
  lemma {:induction false} GoneIsNotFound(watchers: seq<set<nat>>, tasks: seq<Task>, tr: Trace, tr': Trace, t: nat)
    requires Setup(watchers, tasks) && Run(watchers, tasks, tr).Some? && tr <= tr' && Run(watchers, tasks, tr').Some?
    requires t < |tasks| && !tasks[t].Close? && tasks[t].lookup && Run(watchers, tasks, tr).value.pc[t].Start?
    requires !Run(watchers, tasks, tr).value.mem.boxes[tasks[t].m].registered
    ensures OffMailbox(Run(watchers, tasks, tr').value, tasks, t)
    decreases tr'
  {
    if tr' != tr {
      var n := |tr'| - 1;
      GoneIsNotFound(watchers, tasks, tr, tr'[..n], t);
      RunKeepsBasics(watchers, tasks, tr'[..n]);
      StepKeepsOff(Run(watchers, tasks, tr'[..n]).value, tasks, t, tr'[n].0, tr'[n].1);
    }
  }
}
