/** Concurrent Close calls never wait for each other in a circle, and all of
    them return, unless OnCloseNotify is given targets that are cached: CloseSteps
    over every way mailboxes may watch each other. */
module CloseProgress {
  import opened Wrappers
  import opened CloseSteps

  // ---------------------------------------------------------------- who may come to wait for whom

  /** Some task closes mailbox i. */
  ghost predicate IsClosed(tasks: seq<Task>, i: nat) {
    exists t :: 0 <= t < |tasks| && tasks[t] == Close(i)
  }

  /** Mailbox m may have w to notify: from the start, or because somebody asks for it. */
  ghost predicate MayNotify(watchers: seq<set<nat>>, tasks: seq<Task>, m: nat, w: nat) {
    || (m < |watchers| && w in watchers[m])
    || exists t :: 0 <= t < |tasks| && tasks[t].Watch? && tasks[t].m == m && tasks[t].w == w
  }

  /** Both are closed, and the first may have the second to notify. */
  ghost predicate Edge(watchers: seq<set<nat>>, tasks: seq<Task>, m: nat, w: nat) {
    IsClosed(tasks, m) && IsClosed(tasks, w) && MayNotify(watchers, tasks, m, w)
  }

  /** Somebody asks m to notify w with an address that has w's mailbox cached,
      so that w is found even when it has left the table. */
  ghost predicate CachedEdge(tasks: seq<Task>, m: nat, w: nat) {
    && IsClosed(tasks, m) && IsClosed(tasks, w)
    && exists t :: 0 <= t < |tasks| && tasks[t].Watch? && tasks[t].m == m && tasks[t].w == w && !tasks[t].lookupTarget
  }

  ghost predicate IsPath(watchers: seq<set<nat>>, tasks: seq<Task>, p: seq<nat>) {
    p != [] && forall k :: 0 <= k < |p| - 1 ==> Edge(watchers, tasks, p[k], p[k + 1])
  }

  /** No circle of closed mailboxes passes through a cached target. */
  ghost predicate NoCachedCycle(watchers: seq<set<nat>>, tasks: seq<Task>) {
    forall p :: IsPath(watchers, tasks, p) ==> !CachedEdge(tasks, p[|p| - 1], p[0])
  }

  // ---------------------------------------------------------------- the invariant

  ghost predicate BoxOrder(mem: Mem, i: nat)
    requires i < |mem.boxes| == |mem.gone|
  {
    && (mem.boxes[i].shut ==> !mem.boxes[i].registered)
    && (mem.boxes[i].closed ==> mem.boxes[i].shut)
    && (!mem.boxes[i].registered ==> mem.gone[i] < mem.clock)
  }

  /** The goroutine looks at a target that was registered after its own mailbox had gone. */
  predicate Committed(task: Task, pc: Pc) {
    && pc.Sending? && pc.own && !(task.Watch? && !task.lookupTarget)
    && (pc.at == Read(true) || pc.at.Want? || pc.at.In? || pc.at.Out?)
  }

  ghost predicate PcOrder(mem: Mem, task: Task, pc: Pc)
    requires task.m < |mem.boxes| == |mem.gone|
  {
    && (task.Close? && !pc.Start? && !pc.Announced? && !pc.Deleting? ==> !mem.boxes[task.m].registered)
    && (pc.Sending? && pc.own ==> !mem.boxes[task.m].registered)
    && (pc.Flagging? ==> mem.boxes[task.m].shut)
    && (Committed(task, pc) ==>
          pc.to < |mem.boxes| && (mem.boxes[pc.to].registered || mem.gone[task.m] < mem.gone[pc.to]))
  }

  ghost predicate OrderInv(s: State, tasks: seq<Task>)
    requires Shaped(s, tasks)
  {
    && (forall i :: 0 <= i < |s.mem.boxes| ==> BoxOrder(s.mem, i))
    && (forall i :: 0 <= i < |s.mem.boxes| && !s.mem.boxes[i].registered ==> IsClosed(tasks, i))
    && (forall t :: 0 <= t < |tasks| ==> PcOrder(s.mem, tasks[t], s.pc[t]))
  }

  /** The watchers a mailbox has, and those its closer still has to notify, are edges. */
  ghost predicate ListInv(s: State, watchers: seq<set<nat>>, tasks: seq<Task>)
    requires Shaped(s, tasks)
  {
    && (forall i, w :: 0 <= i < |s.mem.boxes| && w in s.mem.boxes[i].watchers ==> MayNotify(watchers, tasks, i, w))
    && (forall t, w :: 0 <= t < |tasks| && tasks[t].Close? && w in ToNotify(s.pc[t]) ==>
          MayNotify(watchers, tasks, tasks[t].m, w))
  }

  function ToNotify(pc: Pc): set<nat> {
    if pc.Notifying? then pc.rest else if pc.Sending? then pc.rest + {pc.to} else {}
  }

  ghost predicate Inv(s: State, watchers: seq<set<nat>>, tasks: seq<Task>)
    requires Shaped(s, tasks)
  {
    && ShapeInv(s, tasks) && TableInv(s, tasks) && LockInv(s, tasks) && OrderInv(s, tasks)
    && ListInv(s, watchers, tasks)
  }

  /** Only the deletion at the start of Close touches the table and its clock;
      only the closing steps set `shut` and `closed`. */
  lemma TableEffect(mem: Mem, task: Task, t: nat, pc: Pc, w: nat)
    requires task.m < |mem.boxes| == |mem.gone| && Act(mem, task, t, pc, w).To?
    ensures var o := Act(mem, task, t, pc, w);
      && |o.mem.boxes| == |mem.boxes| == |o.mem.gone|
      && (if pc.Deleting? && mem.boxes[task.m].registered then
            && !o.mem.boxes[task.m].registered
            && o.mem.gone == mem.gone[task.m := mem.clock] && o.mem.clock == mem.clock + 1
          else
            o.mem.gone == mem.gone && o.mem.clock == mem.clock)
      && (forall i :: 0 <= i < |mem.boxes| ==>
            && o.mem.boxes[i].registered == (mem.boxes[i].registered && !(pc.Deleting? && i == task.m))
            && o.mem.boxes[i].shut == (mem.boxes[i].shut || (pc.Shutting? && i == task.m))
            && o.mem.boxes[i].closed == (mem.boxes[i].closed || (pc.Flagging? && i == task.m)))
  {
    if pc.Sending? {
    } else if pc.Start? {
    } else {
    }
  }

  lemma StepKeepsBoxOrder(s: State, tasks: seq<Task>, t: nat, w: nat, i: nat)
    requires Shaped(s, tasks) && t < |tasks| && Next(s, tasks, t, w).Some?
    requires ShapeInv(s, tasks) && LockInv(s, tasks) && OrderInv(s, tasks) && i < |s.mem.boxes|
    ensures |Next(s, tasks, t, w).value.mem.boxes| == |s.mem.boxes|
    ensures BoxOrder(Next(s, tasks, t, w).value.mem, i)
    ensures !Next(s, tasks, t, w).value.mem.boxes[i].registered ==> IsClosed(tasks, i)
  {
    TableEffect(s.mem, tasks[t], t, s.pc[t], w);
    assert PcShape(s.mem, tasks[t], s.pc[t]);
    assert PcOrder(s.mem, tasks[t], s.pc[t]);
    assert BoxOrder(s.mem, i);
    if s.pc[t].Deleting? {
      assert tasks[t] == Close(tasks[t].m);
    }
  }

  /** A goroutine that does not move keeps what it knows: what was unregistered
      stays so, and what is unregistered now is later than everything before. */
  lemma OthersKeepPcOrder(mem: Mem, task: Task, t: nat, pc: Pc, w: nat, task': Task, pc': Pc)
    requires task.m < |mem.boxes| == |mem.gone| && Act(mem, task, t, pc, w).To?
    requires task'.m < |mem.boxes| && BoxOrder(mem, task'.m) && PcOrder(mem, task', pc')
    ensures |Act(mem, task, t, pc, w).mem.boxes| == |mem.boxes| == |Act(mem, task, t, pc, w).mem.gone|
    ensures PcOrder(Act(mem, task, t, pc, w).mem, task', pc')
  {
    TableEffect(mem, task, t, pc, w);
  }

  lemma MoverKeepsPcOrder(mem: Mem, task: Task, t: nat, pc: Pc, w: nat)
    requires task.m < |mem.boxes| == |mem.gone| && Act(mem, task, t, pc, w).To?
    requires PcShape(mem, task, pc) && PcOrder(mem, task, pc) && BoxOrder(mem, task.m)
    ensures |Act(mem, task, t, pc, w).mem.boxes| == |mem.boxes| == |Act(mem, task, t, pc, w).mem.gone|
    ensures PcOrder(Act(mem, task, t, pc, w).mem, task, Act(mem, task, t, pc, w).pc)
  {
    TableEffect(mem, task, t, pc, w);
    if pc.Sending? {
    } else if pc.Own? {
    } else {
    }
  }

  lemma StepKeepsOrder(s: State, tasks: seq<Task>, t: nat, w: nat)
    requires Shaped(s, tasks) && t < |tasks| && Next(s, tasks, t, w).Some?
    requires Tasks(tasks, |s.mem.boxes|)
    requires ShapeInv(s, tasks) && LockInv(s, tasks) && OrderInv(s, tasks)
    ensures OrderInv(Next(s, tasks, t, w).value, tasks)
  {
    var s' := Next(s, tasks, t, w).value;
    TableEffect(s.mem, tasks[t], t, s.pc[t], w);
    forall i | 0 <= i < |s'.mem.boxes|
      ensures BoxOrder(s'.mem, i) && (!s'.mem.boxes[i].registered ==> IsClosed(tasks, i))
    {
      StepKeepsBoxOrder(s, tasks, t, w, i);
    }
    forall u | 0 <= u < |tasks| ensures PcOrder(s'.mem, tasks[u], s'.pc[u]) {
      assert PcOrder(s.mem, tasks[u], s.pc[u]) && BoxOrder(s.mem, tasks[u].m);
      if u == t {
        assert PcShape(s.mem, tasks[t], s.pc[t]);
        MoverKeepsPcOrder(s.mem, tasks[t], t, s.pc[t], w);
      } else {
        OthersKeepPcOrder(s.mem, tasks[t], t, s.pc[t], w, tasks[u], s.pc[u]);
      }
    }
  }

  /** What a step does to the lists of those to notify. */
  lemma ListEffect(mem: Mem, task: Task, t: nat, pc: Pc, w: nat)
    requires task.m < |mem.boxes| == |mem.gone| && Act(mem, task, t, pc, w).To? && PcShape(mem, task, pc)
    ensures var o := Act(mem, task, t, pc, w);
      && |o.mem.boxes| == |mem.boxes|
      && (forall i, x :: 0 <= i < |mem.boxes| && x in o.mem.boxes[i].watchers ==>
            x in mem.boxes[i].watchers || (task.Watch? && i == task.m && x == task.w))
      && (task.Close? ==> ToNotify(o.pc) <= ToNotify(pc) + mem.boxes[task.m].watchers)
  {
    if pc.Sending? {
    } else if pc.Own? {
    } else {
    }
  }

  lemma StepKeepsLists(s: State, watchers: seq<set<nat>>, tasks: seq<Task>, t: nat, w: nat)
    requires Shaped(s, tasks) && t < |tasks| && Next(s, tasks, t, w).Some?
    requires ShapeInv(s, tasks) && ListInv(s, watchers, tasks)
    ensures ListInv(Next(s, tasks, t, w).value, watchers, tasks)
  {
    var s' := Next(s, tasks, t, w).value;
    ListEffect(s.mem, tasks[t], t, s.pc[t], w);
    forall i, x | 0 <= i < |s'.mem.boxes| && x in s'.mem.boxes[i].watchers
      ensures MayNotify(watchers, tasks, i, x)
    {
    }
    forall u, x | 0 <= u < |tasks| && tasks[u].Close? && x in ToNotify(s'.pc[u])
      ensures MayNotify(watchers, tasks, tasks[u].m, x)
    {
      assert u != t ==> s'.pc[u] == s.pc[u];
    }
  }

  lemma {:induction false} RunKeepsInv(watchers: seq<set<nat>>, tasks: seq<Task>, tr: Trace)
    requires Setup(watchers, tasks) && Run(watchers, tasks, tr).Some?
    ensures Inv(Run(watchers, tasks, tr).value, watchers, tasks)
  {
    if tr != [] {
      var n := |tr| - 1;
      RunKeepsInv(watchers, tasks, tr[..n]);
      var s := Run(watchers, tasks, tr[..n]).value;
      StepKeepsShape(s, tasks, tr[n].0, tr[n].1);
      StepKeepsTable(s, tasks, tr[n].0, tr[n].1);
      StepKeepsLocks(s, tasks, tr[n].0, tr[n].1);
      StepKeepsOrder(s, tasks, tr[n].0, tr[n].1);
      StepKeepsLists(s, watchers, tasks, tr[n].0, tr[n].1);
    }
  }

  // ---------------------------------------------------------------- progress

  ghost predicate Enabled(s: State, tasks: seq<Task>, t: nat)
    requires Shaped(s, tasks) && t < |tasks|
  {
    exists w :: Next(s, tasks, t, w).Some?
  }

  predicate Running(pc: Pc) { !pc.Start? && !pc.Done? }

  /** The only positions where a goroutine can be blocked. */
  predicate Waits(pc: Pc, task: Task) {
    || pc.Start? || pc.Announced? || pc.WantOwn? || pc.Done?
    || (pc.Sending? && (pc.at.Want? || (pc.at.Begin? && !(task.Watch? && !task.lookupTarget))))
  }

  lemma OnlyWaitersBlock(s: State, tasks: seq<Task>, t: nat)
    requires Shaped(s, tasks) && ShapeInv(s, tasks) && t < |tasks| && !Waits(s.pc[t], tasks[t])
    ensures Enabled(s, tasks, t)
  {
    assert PcShape(s.mem, tasks[t], s.pc[t]);
    var w :| s.pc[t].Notifying? && s.pc[t].rest != {} ==> w in s.pc[t].rest;
    assert Next(s, tasks, t, w).Some?;
  }

  /** Somebody who reads the table can go on, and without readers whoever is to write it can. */
  lemma TableHolderMoves(s: State, tasks: seq<Task>) returns (t: nat)
    requires Shaped(s, tasks) && ShapeInv(s, tasks) && TableInv(s, tasks)
    requires s.mem.writer.Some? || s.mem.readers != {}
    ensures t < |tasks| && Running(s.pc[t]) && Enabled(s, tasks, t)
  {
    if s.mem.readers != {} {
      t :| t in s.mem.readers;
      OnlyWaitersBlock(s, tasks, t);
    } else {
      t := s.mem.writer.value;
      if s.pc[t].Announced? {
        assert Next(s, tasks, t, 0).Some?;
      } else {
        OnlyWaitersBlock(s, tasks, t);
      }
    }
  }

  /** In state s, the goroutine that holds i's mutex may wait for to's: either to
      has left the table later than i, or its mailbox was cached. */
  ghost predicate WaitEdge(mem: Mem, watchers: seq<set<nat>>, tasks: seq<Task>, i: nat, to: nat)
    requires |mem.boxes| == |mem.gone|
  {
    && i < |mem.boxes| && to < |mem.boxes| && Edge(watchers, tasks, i, to)
    && (CachedEdge(tasks, i, to) || mem.gone[i] < mem.gone[to])
  }

  ghost predicate WaitPath(mem: Mem, watchers: seq<set<nat>>, tasks: seq<Task>, p: seq<nat>)
    requires |mem.boxes| == |mem.gone|
  {
    p != [] && p[0] < |mem.boxes| && forall k :: 0 <= k < |p| - 1 ==> WaitEdge(mem, watchers, tasks, p[k], p[k + 1])
  }

  lemma {:induction false} LaterAlong(mem: Mem, watchers: seq<set<nat>>, tasks: seq<Task>, p: seq<nat>, k: nat)
    requires |mem.boxes| == |mem.gone| && WaitPath(mem, watchers, tasks, p) && k < |p|
    requires forall j :: 0 <= j < |p| - 1 ==> !CachedEdge(tasks, p[j], p[j + 1])
    ensures p[k] < |mem.boxes| && mem.gone[p[0]] <= mem.gone[p[k]]
  {
    if k > 0 {
      LaterAlong(mem, watchers, tasks, p, k - 1);
      assert WaitEdge(mem, watchers, tasks, p[k - 1], p[k]);
    }
  }

  /** A circle, started somewhere else. */
  lemma Rotated(watchers: seq<set<nat>>, tasks: seq<Task>, p: seq<nat>, k: nat)
    requires IsPath(watchers, tasks, p) && Edge(watchers, tasks, p[|p| - 1], p[0]) && k < |p| - 1
    ensures IsPath(watchers, tasks, p[k + 1..] + p[..k + 1])
  {
    var n, q := |p| - 1, p[k + 1..] + p[..k + 1];
    forall j | 0 <= j < |q| - 1 ensures Edge(watchers, tasks, q[j], q[j + 1]) {
      if j < n - k - 1 {
        assert Edge(watchers, tasks, p[k + 1 + j], p[k + 1 + j + 1]);
      } else if j > n - k - 1 {
        assert Edge(watchers, tasks, p[j - (n - k)], p[j - (n - k) + 1]);
      }
    }
  }

  /** Waiting never closes a circle: without a cached target in it the times
      would increase all around, and with one it is a circle that was excluded. */
  lemma NoWaitCycle(mem: Mem, watchers: seq<set<nat>>, tasks: seq<Task>, p: seq<nat>)
    requires |mem.boxes| == |mem.gone| && NoCachedCycle(watchers, tasks)
    requires WaitPath(mem, watchers, tasks, p)
    ensures !WaitEdge(mem, watchers, tasks, p[|p| - 1], p[0])
  {
    var n := |p| - 1;
    if WaitEdge(mem, watchers, tasks, p[n], p[0]) {
      assert IsPath(watchers, tasks, p) by {
        assert forall k :: 0 <= k < n ==> WaitEdge(mem, watchers, tasks, p[k], p[k + 1]);
      }
      if k :| 0 <= k < n && CachedEdge(tasks, p[k], p[k + 1]) {
        Rotated(watchers, tasks, p, k);
        assert false;
      }
      LaterAlong(mem, watchers, tasks, p, n);
    }
  }

  ghost predicate NoRepeats(p: seq<nat>) {
    forall j, k :: 0 <= j < k < |p| ==> p[j] != p[k]
  }

  lemma {:induction false} NoRepeatsFits(p: seq<nat>, n: nat)
    requires NoRepeats(p) && forall k :: 0 <= k < |p| ==> p[k] < n
    ensures |p| <= n
    decreases n
  {
    if p != [] {
      var last := p[|p| - 1];
      var swapped := seq(|p| - 1, k requires 0 <= k < |p| - 1 => if p[k] == n - 1 then last else p[k]);
      NoRepeatsFits(swapped, n - 1);
    }
  }

  /** The holder of a mutex, when it waits for another one of an unregistered mailbox, has an edge to it. */
  lemma HolderHasEdge(s: State, watchers: seq<set<nat>>, tasks: seq<Task>, i: nat)
    requires Shaped(s, tasks) && Inv(s, watchers, tasks)
    requires i < |s.mem.boxes| && s.mem.boxes[i].lock.Some?
    ensures s.mem.boxes[i].lock.value < |tasks|
    ensures var pc := s.pc[s.mem.boxes[i].lock.value];
      pc.Sending? && pc.at.Want? ==>
        && pc.to < |s.mem.boxes|
        && (!s.mem.boxes[pc.to].registered ==> WaitEdge(s.mem, watchers, tasks, i, pc.to))
  {
    var t := s.mem.boxes[i].lock.value;
    var task, pc := tasks[t], s.pc[t];
    assert Holds(pc, task, i);
    assert PcOrder(s.mem, task, pc) && PcShape(s.mem, task, pc);
    if pc.Sending? && pc.at.Want? {
      assert pc.own && task.m == i;
      assert task.Close? ==> pc.to in ToNotify(pc);
      assert MayNotify(watchers, tasks, i, pc.to);
    }
  }

  /** Goroutine t is in the middle of an operation and can take a step. */
  ghost predicate Moves(s: State, tasks: seq<Task>, t: nat)
    requires Shaped(s, tasks)
  {
    t < |tasks| && Running(s.pc[t]) && Enabled(s, tasks, t)
  }

  /** Whoever holds the mutex of a mailbox that is still in the table waits for nothing. */
  lemma OpenHolderMoves(s: State, watchers: seq<set<nat>>, tasks: seq<Task>, i: nat) returns (t: nat)
    requires Shaped(s, tasks) && Inv(s, watchers, tasks)
    requires i < |s.mem.boxes| && s.mem.boxes[i].lock.Some? && s.mem.boxes[i].registered
    ensures Moves(s, tasks, t)
  {
    t := s.mem.boxes[i].lock.value;
    assert Holds(s.pc[t], tasks[t], i);
    assert PcOrder(s.mem, tasks[t], s.pc[t]);
    OnlyWaitersBlock(s, tasks, t);
  }

  /** A goroutine in the middle of an operation can step, or the table's lock
      keeps it and somebody can step there, or it waits for a mutex. */
  lemma RunningMovesOrWaits(s: State, watchers: seq<set<nat>>, tasks: seq<Task>, u: nat) returns (t: nat)
    requires Shaped(s, tasks) && Inv(s, watchers, tasks) && u < |tasks| && Running(s.pc[u])
    ensures var task, pc := tasks[u], s.pc[u];
      || Moves(s, tasks, t)
      || (pc.WantOwn? && s.mem.boxes[task.m].lock.Some?)
      || (pc.Sending? && pc.at.Want? && pc.to < |s.mem.boxes| && s.mem.boxes[pc.to].lock.Some?)
  {
    var task, pc := tasks[u], s.pc[u];
    t := u;
    assert PcShape(s.mem, task, pc);
    if !Waits(pc, task) {
      OnlyWaitersBlock(s, tasks, u);
    } else if (pc.Announced? || (pc.Sending? && pc.at.Begin?)) && (s.mem.writer.Some? || s.mem.readers != {}) {
      t := TableHolderMoves(s, tasks);
    } else {
      assert Next(s, tasks, u, 0).Some? || pc.WantOwn? || (pc.Sending? && pc.at.Want?);
    }
  }

  /** The holder of a mutex can step, or somebody else can, or it waits along an edge. */
  lemma HolderMovesOrWaits(s: State, watchers: seq<set<nat>>, tasks: seq<Task>, i: nat) returns (t: nat, to: nat)
    requires Shaped(s, tasks) && Inv(s, watchers, tasks)
    requires i < |s.mem.boxes| && s.mem.boxes[i].lock.Some?
    ensures || Moves(s, tasks, t)
            || (to < |s.mem.boxes| && WaitEdge(s.mem, watchers, tasks, i, to) && s.mem.boxes[to].lock.Some?)
  {
    var u := s.mem.boxes[i].lock.value;
    HolderHasEdge(s, watchers, tasks, i);
    assert Holds(s.pc[u], tasks[u], i);
    t := RunningMovesOrWaits(s, watchers, tasks, u);
    to := if s.pc[u].Sending? then s.pc[u].to else i;
    if !Moves(s, tasks, t) && s.mem.boxes[to].registered {
      t := OpenHolderMoves(s, watchers, tasks, to);
    }
  }

  /** A mailbox that the last one of p leads to has not been on the way. */
  lemma NotOnPath(mem: Mem, watchers: seq<set<nat>>, tasks: seq<Task>, p: seq<nat>, to: nat)
    requires |mem.boxes| == |mem.gone| && NoCachedCycle(watchers, tasks) && WaitPath(mem, watchers, tasks, p)
    requires WaitEdge(mem, watchers, tasks, p[|p| - 1], to)
    ensures to !in p && WaitPath(mem, watchers, tasks, p + [to])
  {
    if k :| 0 <= k < |p| && p[k] == to {
      assert forall j :: k <= j < |p| - 1 ==> WaitEdge(mem, watchers, tasks, p[j], p[j + 1]);
      assert k > 0 ==> WaitEdge(mem, watchers, tasks, p[k - 1], p[k]);
      NoWaitCycle(mem, watchers, tasks, p[k..]);
    }
  }

  /** Follow the goroutine that holds the mutex of the last mailbox of p, the
      mailbox it waits for, the holder of that one's mutex, and so on: since
      waiting closes no circle, the chain ends at someone who can move. */
  lemma {:induction false} MutexHolderMoves(s: State, watchers: seq<set<nat>>, tasks: seq<Task>, p: seq<nat>)
    returns (t: nat)
    requires Shaped(s, tasks) && Inv(s, watchers, tasks) && NoCachedCycle(watchers, tasks)
    requires WaitPath(s.mem, watchers, tasks, p) && NoRepeats(p)
    requires forall k :: 0 <= k < |p| ==> p[k] < |s.mem.boxes|
    requires s.mem.boxes[p[|p| - 1]].lock.Some?
    ensures Moves(s, tasks, t)
    decreases |s.mem.boxes| - |p|
  {
    var to: nat;
    t, to := HolderMovesOrWaits(s, watchers, tasks, p[|p| - 1]);
    if !Moves(s, tasks, t) {
      NotOnPath(s.mem, watchers, tasks, p, to);
      NoRepeatsFits(p + [to], |s.mem.boxes|);
      t := MutexHolderMoves(s, watchers, tasks, p + [to]);
    }
  }

  /** Among the goroutines that are in the middle of an operation, one can always take a step. */
  lemma SomeoneMoves(watchers: seq<set<nat>>, tasks: seq<Task>, tr: Trace, u: nat) returns (t: nat)
    requires Setup(watchers, tasks) && NoCachedCycle(watchers, tasks) && Run(watchers, tasks, tr).Some?
    requires u < |tasks| && Running(Run(watchers, tasks, tr).value.pc[u])
    ensures Moves(Run(watchers, tasks, tr).value, tasks, t)
  {
    RunKeepsInv(watchers, tasks, tr);
    var s := Run(watchers, tasks, tr).value;
    t := RunningMovesOrWaits(s, watchers, tasks, u);
    if !Moves(s, tasks, t) {
      t := MutexHolderMoves(s, watchers, tasks, [if s.pc[u].WantOwn? then tasks[u].m else s.pc[u].to]);
    }
  }

  // ---------------------------------------------------------------- every schedule ends

  function StageFuel(at: Stage): nat {
    match at
    case Begin => 6
    case Reading => 5
    case Read(_) => 4
    case Want => 3
    case In => 2
    case Out => 1
  }

  /** A bound on the steps a goroutine still has to take, with n mailboxes. */
  function Fuel(pc: Pc, n: nat): nat {
    match pc
    case Start => 8 * n + 11
    case Announced => 8 * n + 10
    case Deleting => 8 * n + 9
    case Deleted => 8 * n + 8
    case Resolving => 8 * n + 9
    case Resolved(_) => 8 * n + 8
    case WantOwn => 8 * n + 7
    case Own => 8 * n + 6
    case Shutting => 8 * n + 5
    case Flagging => 8 * n + 4
    case Notifying(rest) => 8 * |rest| + 3
    case Clearing => 2
    case Sending(_, rest, _, at) => 8 * |rest| + 3 + StageFuel(at)
    case Leaving => 1
    case Done => 0
  }

  lemma {:induction false} AtMost(watchers: set<nat>, n: nat)
    requires forall w :: w in watchers ==> w < n
    ensures |watchers| <= n
  {
    if n > 0 {
      AtMost(watchers - {n - 1}, n - 1);
      assert watchers <= (watchers - {n - 1}) + {n - 1};
    }
  }

  lemma SendUsesFuel(mem: Mem, task: Task, t: nat, pc: Pc, n: nat)
    requires pc.Sending? && SendStep(mem, task, t, pc).To?
    ensures Fuel(SendStep(mem, task, t, pc).pc, n) < Fuel(pc, n)
  {
  }

  lemma CloseUsesFuel(mem: Mem, task: Task, t: nat, pc: Pc, w: nat)
    requires task.m < |mem.boxes| == |mem.gone| && Act(mem, task, t, pc, w).To?
    requires pc.Shutting? || pc.Flagging? || pc.Notifying? || pc.Clearing? || pc.Leaving?
    requires |mem.boxes[task.m].watchers| <= |mem.boxes|
    ensures Fuel(Act(mem, task, t, pc, w).pc, |mem.boxes|) < Fuel(pc, |mem.boxes|)
  {
    if pc.Notifying? && w in pc.rest {
      assert |pc.rest - {w}| == |pc.rest| - 1;
    }
  }

  lemma StepUsesFuel(mem: Mem, task: Task, t: nat, pc: Pc, w: nat)
    requires task.m < |mem.boxes| == |mem.gone| && Act(mem, task, t, pc, w).To?
    requires |mem.boxes[task.m].watchers| <= |mem.boxes|
    ensures Fuel(Act(mem, task, t, pc, w).pc, |mem.boxes|) < Fuel(pc, |mem.boxes|)
  {
    if pc.Sending? {
      SendUsesFuel(mem, task, t, pc, |mem.boxes|);
    } else if pc.Shutting? || pc.Flagging? || pc.Notifying? || pc.Clearing? || pc.Leaving? {
      CloseUsesFuel(mem, task, t, pc, w);
    }
  }

  function TotalFuel(pcs: seq<Pc>, n: nat): nat {
    if pcs == [] then 0 else Fuel(pcs[0], n) + TotalFuel(pcs[1..], n)
  }

  lemma {:induction false} TotalFuelUpdate(pcs: seq<Pc>, n: nat, t: nat, pc: Pc)
    requires t < |pcs|
    ensures TotalFuel(pcs[t := pc], n) + Fuel(pcs[t], n) == TotalFuel(pcs, n) + Fuel(pc, n)
  {
    var q := pcs[t := pc];
    if t == 0 {
      assert q[1..] == pcs[1..];
    } else {
      TotalFuelUpdate(pcs[1..], n, t - 1, pc);
      assert q[1..] == pcs[1..][t - 1 := pc];
    }
  }

  lemma {:induction false} FuelAtStart(pcs: seq<Pc>, n: nat)
    requires forall t :: 0 <= t < |pcs| ==> pcs[t].Start?
    ensures TotalFuel(pcs, n) == |pcs| * (8 * n + 11)
  {
    if pcs != [] {
      FuelAtStart(pcs[1..], n);
    }
  }

  lemma {:induction false} RunUsesFuel(watchers: seq<set<nat>>, tasks: seq<Task>, tr: Trace)
    requires Setup(watchers, tasks) && Run(watchers, tasks, tr).Some?
    ensures |tr| + TotalFuel(Run(watchers, tasks, tr).value.pc, |watchers|) <= |tasks| * (8 * |watchers| + 11)
  {
    if tr == [] {
      FuelAtStart(Init(watchers, tasks).pc, |watchers|);
    } else {
      var n, t := |tr| - 1, tr[|tr| - 1].0;
      RunUsesFuel(watchers, tasks, tr[..n]);
      RunKeepsInv(watchers, tasks, tr[..n]);
      var s := Run(watchers, tasks, tr[..n]).value;
      AtMost(s.mem.boxes[tasks[t].m].watchers, |watchers|);
      StepUsesFuel(s.mem, tasks[t], t, s.pc[t], tr[n].1);
      TotalFuelUpdate(s.pc, |watchers|, t, Run(watchers, tasks, tr).value.pc[t]);
    }
  }

  ghost predicate Halted(s: State, tasks: seq<Task>)
    requires Shaped(s, tasks)
  {
    forall t :: 0 <= t < |tasks| ==> !Enabled(s, tasks, t)
  }

  ghost predicate Finished(s: State) {
    forall t :: 0 <= t < |s.pc| ==> s.pc[t].Done?
  }

  /** Every schedule has a bounded number of steps, and one that cannot go on
      has finished everything: no Close waits for ever, whoever watches whom. */
  lemma EveryScheduleFinishes(watchers: seq<set<nat>>, tasks: seq<Task>, tr: Trace, s: State)
    requires Setup(watchers, tasks) && NoCachedCycle(watchers, tasks) && Run(watchers, tasks, tr) == Some(s)
    ensures |tr| <= |tasks| * (8 * |watchers| + 11)
    ensures Halted(s, tasks) ==> Finished(s)
  {
    RunUsesFuel(watchers, tasks, tr);
    if Halted(s, tasks) {
      forall t | 0 <= t < |tasks| ensures s.pc[t].Done? {
        if !s.pc[t].Done? {
          var u := UnfinishedMoves(watchers, tasks, tr, t);
        }
      }
    }
  }

  lemma UnfinishedMoves(watchers: seq<set<nat>>, tasks: seq<Task>, tr: Trace, t: nat) returns (u: nat)
    requires Setup(watchers, tasks) && NoCachedCycle(watchers, tasks) && Run(watchers, tasks, tr).Some?
    requires t < |tasks| && !Run(watchers, tasks, tr).value.pc[t].Done?
    ensures u < |tasks| && Enabled(Run(watchers, tasks, tr).value, tasks, u)
  {
    RunKeepsInv(watchers, tasks, tr);
    var s := Run(watchers, tasks, tr).value;
    if Running(s.pc[t]) {
      u := SomeoneMoves(watchers, tasks, tr, t);
    } else if s.mem.writer.Some? || s.mem.readers != {} {
      u := TableHolderMoves(s, tasks);
    } else {
      u := t;
      assert Next(s, tasks, t, 0).Some?;
    }
  }

  lemma Extend(watchers: seq<set<nat>>, tasks: seq<Task>, tr: Trace, t: nat, w: nat)
    requires Setup(watchers, tasks) && Run(watchers, tasks, tr).Some? && t < |tasks|
    ensures Run(watchers, tasks, tr + [(t, w)]) == Next(Run(watchers, tasks, tr).value, tasks, t, w)
  {
    assert (tr + [(t, w)])[..|tr|] == tr;
  }
}
