/** Where Close calls may come to wait for ever: a circle of closed mailboxes
    that passes through a cached target always has a schedule that hangs, so
    that the condition of CloseProgress is exact. */
module CloseHang {
  import opened Wrappers
  import opened CloseSteps
  import opened CloseProgress

  // ---------------------------------------------------------------- one goroutine on its own

  /** Goroutine t, from where the others stand as in base, takes a step. */
  lemma Move(watchers: seq<set<nat>>, tasks: seq<Task>, tr: Trace, base: seq<Pc>, t: nat, mem: Mem, pc: Pc, w: nat)
    returns (tr': Trace)
    requires Setup(watchers, tasks) && t < |tasks| && |base| == |tasks|
    requires Run(watchers, tasks, tr) == Some(State(mem, base[t := pc]))
    requires tasks[t].m < |mem.boxes| == |mem.gone| && Act(mem, tasks[t], t, pc, w).To?
    ensures var o := Act(mem, tasks[t], t, pc, w); Run(watchers, tasks, tr') == Some(State(o.mem, base[t := o.pc]))
  {
    Extend(watchers, tasks, tr, t, w);
    tr' := tr + [(t, w)];
    var o := Act(mem, tasks[t], t, pc, w);
    assert base[t := pc][t := o.pc] == base[t := o.pc];
  }

  ghost predicate At(watchers: seq<set<nat>>, tasks: seq<Task>, tr: Trace, base: seq<Pc>, t: nat, mem: Mem, pc: Pc)
  {
    && Setup(watchers, tasks) && t < |tasks| && |base| == |tasks|
    && |mem.boxes| == |mem.gone| == |watchers|
    && Run(watchers, tasks, tr) == Some(State(mem, base[t := pc]))
  }

  /** Nobody reads or writes the table. */
  predicate Calm(mem: Mem) { mem.writer.None? && mem.readers == {} }

  /** Up to the table lookup and past it, in four steps to the target's mutex or in three to the end of the send. */
  lemma LooksUp(watchers: seq<set<nat>>, tasks: seq<Task>, tr: Trace, base: seq<Pc>, t: nat, mem: Mem, pc: Pc)
    returns (tr': Trace)
    requires At(watchers, tasks, tr, base, t, mem, pc) && Calm(mem)
    requires pc.Sending? && pc.at.Begin? && pc.to < |mem.boxes| && tasks[t].Close?
    ensures At(watchers, tasks, tr', base, t, mem,
               if mem.boxes[pc.to].registered then pc.(at := Want) else Notifying(pc.rest))
  {
    var found := mem.boxes[pc.to].registered;
    var reading := mem.(readers := mem.readers + {t});
    tr' := Move(watchers, tasks, tr, base, t, mem, pc, 0);
    tr' := Move(watchers, tasks, tr', base, t, reading, pc.(at := Reading), 0);
    tr' := Move(watchers, tasks, tr', base, t, reading, pc.(at := Read(found)), 0);
    assert mem.readers + {t} - {t} == mem.readers;
  }

  /** From waiting for a free mutex, the notice is delivered and the mutex let go. */
  lemma Delivers(watchers: seq<set<nat>>, tasks: seq<Task>, tr: Trace, base: seq<Pc>, t: nat, mem: Mem, pc: Pc)
    returns (tr': Trace, mem': Mem)
    requires At(watchers, tasks, tr, base, t, mem, pc) && Calm(mem)
    requires pc.Sending? && pc.at.Want? && pc.to < |mem.boxes| && mem.boxes[pc.to].lock.None? && tasks[t].Close?
    ensures At(watchers, tasks, tr', base, t, mem', Notifying(pc.rest)) && Calm(mem') && mem'.boxes == mem.boxes
  {
    var locked := SetBox(mem, pc.to, mem.boxes[pc.to].(lock := Some(t)));
    tr' := Move(watchers, tasks, tr, base, t, mem, pc, 0);
    tr', mem' := Enters(watchers, tasks, tr', base, t, locked, pc.(at := In));
    tr' := Move(watchers, tasks, tr', base, t, mem', pc.(at := Out), 0);
    mem' := SetBox(mem', pc.to, mem.boxes[pc.to]);
    assert mem'.boxes == mem.boxes;
  }

  lemma Enters(watchers: seq<set<nat>>, tasks: seq<Task>, tr: Trace, base: seq<Pc>, t: nat, mem: Mem, pc: Pc)
    returns (tr': Trace, mem': Mem)
    requires At(watchers, tasks, tr, base, t, mem, pc) && Calm(mem) && pc.Sending? && pc.at.In?
    ensures At(watchers, tasks, tr', base, t, mem', pc.(at := Out)) && Calm(mem') && mem'.boxes == mem.boxes
  {
    tr' := Move(watchers, tasks, tr, base, t, mem, pc, 0);
    mem' := SendStep(mem, tasks[t], t, pc).mem;
  }

  /** Whoever still has its mailbox in the table has its mutex free. */
  ghost predicate Free(mem: Mem, rest: set<nat>) {
    forall x :: x in rest ==> x < |mem.boxes| && (mem.boxes[x].registered ==> mem.boxes[x].lock.None?)
  }

  lemma {:induction false} NotifiesAll(watchers: seq<set<nat>>, tasks: seq<Task>, tr: Trace, base: seq<Pc>, t: nat,
                                       mem: Mem, rest: set<nat>) returns (tr': Trace, mem': Mem)
    requires At(watchers, tasks, tr, base, t, mem, Notifying(rest)) && Calm(mem) && tasks[t].Close? && Free(mem, rest)
    ensures At(watchers, tasks, tr', base, t, mem', Clearing) && Calm(mem') && mem'.boxes == mem.boxes
    decreases rest
  {
    if rest == {} {
      tr' := Move(watchers, tasks, tr, base, t, mem, Notifying(rest), 0);
      mem' := mem;
    } else {
      var x :| x in rest;
      var pc := Sending(x, rest - {x}, true, Begin);
      tr' := Move(watchers, tasks, tr, base, t, mem, Notifying(rest), x);
      tr' := LooksUp(watchers, tasks, tr', base, t, mem, pc);
      mem' := mem;
      if mem.boxes[x].registered {
        tr', mem' := Delivers(watchers, tasks, tr', base, t, mem, pc.(at := Want));
      }
      tr', mem' := NotifiesAll(watchers, tasks, tr', base, t, mem', rest - {x});
    }
  }

  /** An open mailbox that nobody works on. */
  function Open(ws: set<nat>): Box { Box(true, None, false, false, ws) }

  /** Close takes its mailbox out of the table. */
  lemma Unregisters(watchers: seq<set<nat>>, tasks: seq<Task>, tr: Trace, base: seq<Pc>, t: nat, mem: Mem)
    returns (tr': Trace, mem': Mem)
    requires At(watchers, tasks, tr, base, t, mem, Start) && Calm(mem) && tasks[t].Close?
    requires tasks[t].m < |mem.boxes| && mem.boxes[tasks[t].m].registered
    ensures At(watchers, tasks, tr', base, t, mem', WantOwn) && Calm(mem')
    ensures mem'.boxes == mem.boxes[tasks[t].m := mem.boxes[tasks[t].m].(registered := false)]
  {
    var announced := mem.(writer := Some(t));
    tr' := Move(watchers, tasks, tr, base, t, mem, Start, 0);
    tr' := Move(watchers, tasks, tr', base, t, announced, Announced, 0);
    tr' := Move(watchers, tasks, tr', base, t, announced, Deleting, 0);
    var deleted := Unregister(announced, tasks[t].m);
    tr' := Move(watchers, tasks, tr', base, t, deleted, Deleted, 0);
    mem' := deleted.(writer := None);
  }

  /** And then locks it and shuts it. */
  lemma Shuts(watchers: seq<set<nat>>, tasks: seq<Task>, tr: Trace, base: seq<Pc>, t: nat, mem: Mem, ws: set<nat>)
    returns (tr': Trace, mem': Mem)
    requires At(watchers, tasks, tr, base, t, mem, WantOwn) && Calm(mem) && tasks[t].Close?
    requires tasks[t].m < |mem.boxes| && mem.boxes[tasks[t].m] == Box(false, None, false, false, ws)
    ensures At(watchers, tasks, tr', base, t, mem', Notifying(ws)) && Calm(mem')
    ensures mem'.boxes == mem.boxes[tasks[t].m := Box(false, Some(t), true, true, ws)]
  {
    var m, b := tasks[t].m, Box(false, Some(t), false, false, ws);
    tr' := Move(watchers, tasks, tr, base, t, mem, WantOwn, 0);
    var mem1 := SetBox(mem, m, b);
    tr' := Move(watchers, tasks, tr', base, t, mem1, Own, 0);
    tr' := Move(watchers, tasks, tr', base, t, mem1, Shutting, 0);
    var mem2 := SetBox(mem1, m, b.(shut := true));
    tr' := Move(watchers, tasks, tr', base, t, mem2, Flagging, 0);
    mem' := SetBox(mem2, m, b.(shut := true, closed := true));
    assert mem'.boxes == mem.boxes[m := Box(false, Some(t), true, true, ws)];
  }

  lemma CloserArrives(watchers: seq<set<nat>>, tasks: seq<Task>, tr: Trace, base: seq<Pc>, t: nat, mem: Mem,
                      ws: set<nat>) returns (tr': Trace, mem': Mem)
    requires At(watchers, tasks, tr, base, t, mem, Start) && Calm(mem) && tasks[t].Close?
    requires tasks[t].m < |mem.boxes| && mem.boxes[tasks[t].m] == Open(ws)
    ensures At(watchers, tasks, tr', base, t, mem', Notifying(ws)) && Calm(mem')
    ensures mem'.boxes == mem.boxes[tasks[t].m := Box(false, Some(t), true, true, ws)]
  {
    tr', mem' := Unregisters(watchers, tasks, tr, base, t, mem);
    tr', mem' := Shuts(watchers, tasks, tr', base, t, mem', ws);
    assert mem'.boxes == mem.boxes[tasks[t].m := Box(false, Some(t), true, true, ws)];
  }

  /** Close, all of it, while every mailbox in the table is free. */
  lemma CloserFinishes(watchers: seq<set<nat>>, tasks: seq<Task>, tr: Trace, base: seq<Pc>, t: nat, mem: Mem,
                       ws: set<nat>) returns (tr': Trace, mem': Mem)
    requires At(watchers, tasks, tr, base, t, mem, Start) && Calm(mem) && tasks[t].Close?
    requires tasks[t].m < |mem.boxes| && mem.boxes[tasks[t].m] == Open(ws) && Free(mem, ws)
    ensures At(watchers, tasks, tr', base, t, mem', Done) && Calm(mem')
    ensures mem'.boxes == mem.boxes[tasks[t].m := Box(false, None, true, true, {})]
  {
    var m := tasks[t].m;
    tr', mem' := CloserArrives(watchers, tasks, tr, base, t, mem, ws);
    assert Free(mem', ws);
    tr', mem' := NotifiesAll(watchers, tasks, tr', base, t, mem', ws);
    tr' := Move(watchers, tasks, tr', base, t, mem', Clearing, 0);
    mem' := SetBox(mem', m, Box(false, Some(t), true, true, {}));
    tr' := Move(watchers, tasks, tr', base, t, mem', Leaving, 0);
    mem' := SetBox(mem', m, Box(false, None, true, true, {}));
    assert mem'.boxes == mem.boxes[m := Box(false, None, true, true, {})];
  }

  /** Close up to the mutex of one of those to notify. */
  lemma CloserWaits(watchers: seq<set<nat>>, tasks: seq<Task>, tr: Trace, base: seq<Pc>, t: nat, mem: Mem,
                    ws: set<nat>, x: nat) returns (tr': Trace, mem': Mem)
    requires At(watchers, tasks, tr, base, t, mem, Start) && Calm(mem) && tasks[t].Close?
    requires tasks[t].m < |mem.boxes| && mem.boxes[tasks[t].m] == Open(ws)
    requires x in ws && x < |mem.boxes| && x != tasks[t].m && mem.boxes[x].registered
    ensures At(watchers, tasks, tr', base, t, mem', Sending(x, ws - {x}, true, Want)) && Calm(mem')
    ensures mem'.boxes == mem.boxes[tasks[t].m := Box(false, Some(t), true, true, ws)]
  {
    tr', mem' := CloserArrives(watchers, tasks, tr, base, t, mem, ws);
    tr' := Move(watchers, tasks, tr', base, t, mem', Notifying(ws), x);
    tr' := LooksUp(watchers, tasks, tr', base, t, mem', Sending(x, ws - {x}, true, Begin));
  }

  /** OnCloseNotify up to the mutex of its mailbox, which is still in the table. */
  lemma WatchArrives(watchers: seq<set<nat>>, tasks: seq<Task>, tr: Trace, base: seq<Pc>, t: nat, mem: Mem)
    returns (tr': Trace)
    requires At(watchers, tasks, tr, base, t, mem, Start) && Calm(mem) && tasks[t].Watch?
    requires tasks[t].m < |mem.boxes| && mem.boxes[tasks[t].m].registered
    ensures At(watchers, tasks, tr', base, t, mem, WantOwn)
  {
    tr' := Move(watchers, tasks, tr, base, t, mem, Start, 0);
    if tasks[t].lookup {
      var reading := mem.(readers := mem.readers + {t});
      tr' := Move(watchers, tasks, tr', base, t, reading, Resolving, 0);
      tr' := Move(watchers, tasks, tr', base, t, reading, Resolved(true), 0);
      assert mem.readers + {t} - {t} == mem.readers;
    }
  }

  /** OnCloseNotify of an open mailbox puts the target on record. */
  lemma WatchRegisters(watchers: seq<set<nat>>, tasks: seq<Task>, tr: Trace, base: seq<Pc>, t: nat, mem: Mem,
                       ws: set<nat>) returns (tr': Trace, mem': Mem)
    requires At(watchers, tasks, tr, base, t, mem, Start) && Calm(mem) && tasks[t].Watch?
    requires tasks[t].m < |mem.boxes| && mem.boxes[tasks[t].m] == Open(ws)
    ensures At(watchers, tasks, tr', base, t, mem', Done) && Calm(mem')
    ensures mem'.boxes == mem.boxes[tasks[t].m := Open(ws + {tasks[t].w})]
  {
    var m := tasks[t].m;
    tr' := WatchArrives(watchers, tasks, tr, base, t, mem);
    tr' := Move(watchers, tasks, tr', base, t, mem, WantOwn, 0);
    mem' := SetBox(mem, m, Open(ws).(lock := Some(t)));
    tr' := Move(watchers, tasks, tr', base, t, mem', Own, 0);
    mem' := SetBox(mem', m, Open(ws + {tasks[t].w}).(lock := Some(t)));
    tr' := Move(watchers, tasks, tr', base, t, mem', Leaving, 0);
    mem' := SetBox(mem', m, Open(ws + {tasks[t].w}));
    assert mem'.boxes == mem.boxes[m := Open(ws + {tasks[t].w})];
  }

  /** OnCloseNotify of a closed mailbox, with a cached target, goes for the target's mutex with its own in hand. */
  lemma WatchWaits(watchers: seq<set<nat>>, tasks: seq<Task>, tr: Trace, base: seq<Pc>, t: nat, mem: Mem)
    returns (tr': Trace, mem': Mem)
    requires At(watchers, tasks, tr, base, t, mem, WantOwn) && tasks[t].Watch? && !tasks[t].lookupTarget
    requires tasks[t].m < |mem.boxes| && mem.boxes[tasks[t].m] == Box(false, None, true, true, {})
    ensures At(watchers, tasks, tr', base, t, mem', Sending(tasks[t].w, {}, true, Want))
    ensures mem'.boxes == mem.boxes[tasks[t].m := Box(false, Some(t), true, true, {})]
  {
    tr' := Move(watchers, tasks, tr, base, t, mem, WantOwn, 0);
    mem' := SetBox(mem, tasks[t].m, Box(false, Some(t), true, true, {}));
    tr' := Move(watchers, tasks, tr', base, t, mem', Own, 0);
    tr' := Move(watchers, tasks, tr', base, t, mem', Sending(tasks[t].w, {}, true, Begin), 0);
  }

  // ---------------------------------------------------------------- a circle closes

  /** A path with the same ends that meets no mailbox twice. */
  lemma {:induction false} Straight(watchers: seq<set<nat>>, tasks: seq<Task>, p: seq<nat>) returns (q: seq<nat>)
    requires IsPath(watchers, tasks, p)
    ensures IsPath(watchers, tasks, q) && NoRepeats(q) && q[0] == p[0] && q[|q| - 1] == p[|p| - 1]
    decreases |p|
  {
    if j, k :| 0 <= j < k < |p| && p[j] == p[k] {
      var shorter := p[..j] + p[k..];
      forall i | 0 <= i < |shorter| - 1 ensures Edge(watchers, tasks, shorter[i], shorter[i + 1]) {
        if i < j {
          assert Edge(watchers, tasks, p[i], p[i + 1]);
        } else {
          assert Edge(watchers, tasks, p[i - j + k], p[i - j + k + 1]);
        }
      }
      q := Straight(watchers, tasks, shorter);
    } else {
      q := p;
    }
  }

  /** The mutex of mailbox i is held by a goroutine that works on i and waits for the mutex of x. */
  ghost predicate Blocked(s: State, tasks: seq<Task>, i: nat, x: nat)
    requires Shaped(s, tasks)
  {
    && i < |s.mem.boxes| && s.mem.boxes[i].lock.Some? && s.mem.boxes[i].lock.value < |tasks|
    && var t := s.mem.boxes[i].lock.value;
       tasks[t].m == i && s.pc[t].Sending? && s.pc[t].own && s.pc[t].at.Want? && s.pc[t].to == x
  }

  /** Along p, up to its j-th mailbox, each is held by its closer, which waits
      for the next one; nothing else has happened but OnCloseNotify calls for
      these, and goroutine c, which has looked up its mailbox. */
  ghost predicate Jammed(s: State, watchers: seq<set<nat>>, tasks: seq<Task>, p: seq<nat>, c: nat, j: nat)
    requires Shaped(s, tasks) && |s.mem.boxes| == |watchers| && j < |p| && c < |tasks|
  {
    && Calm(s.mem)
    && (forall i :: 0 <= i < j ==> Blocked(s, tasks, p[i], p[i + 1]) && !s.mem.boxes[p[i]].registered)
    && (forall x :: 0 <= x < |watchers| && x !in p[..j] ==>
          s.mem.boxes[x] == Open(s.mem.boxes[x].watchers) && watchers[x] <= s.mem.boxes[x].watchers)
    && (forall t :: 0 <= t < |tasks| && t != c ==> s.pc[t].Start? || tasks[t].m in p[..j])
    && s.pc[c].WantOwn?
  }

  /** Goroutine c asks the last mailbox of p to notify the first one, which is cached. */
  ghost predicate Circle(watchers: seq<set<nat>>, tasks: seq<Task>, p: seq<nat>, c: nat) {
    && Setup(watchers, tasks) && IsPath(watchers, tasks, p) && NoRepeats(p)
    && (forall k :: 0 <= k < |p| ==> IsClosed(tasks, p[k]))
    && c < |tasks| && tasks[c].Watch? && tasks[c].m == p[|p| - 1] && tasks[c].w == p[0] && !tasks[c].lookupTarget
  }

  lemma StartsJam(watchers: seq<set<nat>>, tasks: seq<Task>, p: seq<nat>, c: nat) returns (tr: Trace, s: State)
    requires Circle(watchers, tasks, p, c)
    ensures Run(watchers, tasks, tr) == Some(s) && Jammed(s, watchers, tasks, p, c, 0)
  {
    var s0 := Init(watchers, tasks);
    assert s0.pc[c := Start] == s0.pc;
    tr := WatchArrives(watchers, tasks, [], s0.pc, c, s0.mem);
    s := State(s0.mem, s0.pc[c := WantOwn]);
  }

  /** Only mailbox m's watchers changed, and only goroutines that work on m moved. */
  ghost predicate Recorded(s: State, tasks: seq<Task>, m: nat, s': State)
    requires Shaped(s, tasks) && Shaped(s', tasks) && m < |s.mem.boxes| == |s'.mem.boxes|
  {
    && Calm(s'.mem)
    && (forall x :: 0 <= x < |s.mem.boxes| && x != m ==> s'.mem.boxes[x] == s.mem.boxes[x])
    && (forall t :: 0 <= t < |tasks| && tasks[t].m != m ==> s'.pc[t] == s.pc[t])
  }

  /** The next mailbox of p is among those that mailbox p[j] has to notify, or is made so. */
  lemma Records(watchers: seq<set<nat>>, tasks: seq<Task>, p: seq<nat>, c: nat, j: nat, tr: Trace, s: State)
    returns (tr': Trace, s': State)
    requires Circle(watchers, tasks, p, c) && j < |p| - 1
    requires Run(watchers, tasks, tr) == Some(s) && Jammed(s, watchers, tasks, p, c, j)
    ensures p[j] < |watchers| && Run(watchers, tasks, tr') == Some(s') && p[j + 1] in s'.mem.boxes[p[j]].watchers
    ensures Recorded(s, tasks, p[j], s') && s'.mem.boxes[p[j]] == Open(s'.mem.boxes[p[j]].watchers)
    ensures forall t :: 0 <= t < |tasks| && tasks[t] == Close(p[j]) ==> s'.pc[t].Start?
  {
    var m, x := p[j], p[j + 1];
    assert Edge(watchers, tasks, m, x);
    assert m !in p[..j] && m != p[|p| - 1];
    if x in s.mem.boxes[m].watchers {
      tr', s' := tr, s;
    } else {
      var e :| 0 <= e < |tasks| && tasks[e].Watch? && tasks[e].m == m && tasks[e].w == x;
      assert s.pc[e := Start] == s.pc;
      var mem': Mem;
      tr', mem' := WatchRegisters(watchers, tasks, tr, s.pc, e, s.mem, s.mem.boxes[m].watchers);
      s' := State(mem', s.pc[e := Done]);
    }
  }

  /** The closer of mailbox p[j] takes its place in the jam. */
  lemma CloserJoins(watchers: seq<set<nat>>, tasks: seq<Task>, p: seq<nat>, c: nat, j: nat, s: State, s1: State,
                    d: nat, s': State, ws: set<nat>, rest: set<nat>)
    requires NoRepeats(p) && j < |p| - 1 && c < |tasks| && tasks[c].Watch? && tasks[c].m == p[|p| - 1]
    requires Shaped(s, tasks) && Shaped(s1, tasks) && Shaped(s', tasks)
    requires |s.mem.boxes| == |s1.mem.boxes| == |s'.mem.boxes| == |watchers|
    requires Jammed(s, watchers, tasks, p, c, j) && p[j] < |watchers| && d < |tasks| && tasks[d] == Close(p[j])
    requires Recorded(s, tasks, p[j], s1)
    requires Calm(s'.mem) && s'.mem.boxes == s1.mem.boxes[p[j] := Box(false, Some(d), true, true, ws)]
    requires s'.pc == s1.pc[d := Sending(p[j + 1], rest, true, Want)]
    ensures Jammed(s', watchers, tasks, p, c, j + 1)
  {
    var m := p[j];
    assert p[..j + 1] == p[..j] + [m];
    assert c != d && tasks[c].m != m;
    forall i | 0 <= i < j ensures Blocked(s', tasks, p[i], p[i + 1]) && !s'.mem.boxes[p[i]].registered {
      assert Blocked(s, tasks, p[i], p[i + 1]) && p[i] != m;
    }
    forall x | 0 <= x < |watchers| && x !in p[..j + 1]
      ensures s'.mem.boxes[x] == Open(s'.mem.boxes[x].watchers) && watchers[x] <= s'.mem.boxes[x].watchers
    {
      assert x !in p[..j] && x != m && s'.mem.boxes[x] == s.mem.boxes[x];
    }
    forall t | 0 <= t < |tasks| && t != c ensures s'.pc[t].Start? || tasks[t].m in p[..j + 1] {
      if tasks[t].m != m {
        assert s'.pc[t] == s.pc[t];
      }
    }
  }

  lemma JamsNext(watchers: seq<set<nat>>, tasks: seq<Task>, p: seq<nat>, c: nat, j: nat, tr: Trace, s: State)
    returns (tr': Trace, s': State)
    requires Circle(watchers, tasks, p, c) && j < |p| - 1
    requires Run(watchers, tasks, tr) == Some(s) && Jammed(s, watchers, tasks, p, c, j)
    ensures Run(watchers, tasks, tr') == Some(s') && Jammed(s', watchers, tasks, p, c, j + 1)
  {
    var m, x := p[j], p[j + 1];
    var s1: State, mem': Mem;
    tr', s1 := Records(watchers, tasks, p, c, j, tr, s);
    var d :| 0 <= d < |tasks| && tasks[d] == Close(m);
    var ws := s1.mem.boxes[m].watchers;
    assert s1.pc[d := Start] == s1.pc;
    assert x < |watchers| && x !in p[..j] && x != m && s1.mem.boxes[x].registered by {
      assert IsClosed(tasks, x);
    }
    tr', mem' := CloserWaits(watchers, tasks, tr', s1.pc, d, s1.mem, ws, x);
    s' := State(mem', s1.pc[d := Sending(x, ws - {x}, true, Want)]);
    CloserJoins(watchers, tasks, p, c, j, s, s1, d, s', ws, ws - {x});
  }

  lemma {:induction false} JamsUpTo(watchers: seq<set<nat>>, tasks: seq<Task>, p: seq<nat>, c: nat, j: nat)
    returns (tr: Trace, s: State)
    requires Circle(watchers, tasks, p, c) && j < |p|
    ensures Run(watchers, tasks, tr) == Some(s) && Jammed(s, watchers, tasks, p, c, j)
  {
    if j == 0 {
      tr, s := StartsJam(watchers, tasks, p, c);
    } else {
      tr, s := JamsUpTo(watchers, tasks, p, c, j - 1);
      tr, s := JamsNext(watchers, tasks, p, c, j - 1, tr, s);
    }
  }

  function After(p: seq<nat>, i: nat): nat
    requires i < |p|
  {
    if i + 1 < |p| then p[i + 1] else p[0]
  }

  /** Each mailbox of p is held by somebody who waits for the next one, all the way round. */
  ghost predicate Hung(s: State, tasks: seq<Task>, p: seq<nat>)
    requires Shaped(s, tasks)
  {
    forall i :: 0 <= i < |p| ==> Blocked(s, tasks, p[i], After(p, i))
  }

  /** The last mailbox of p is closed, and everything in the table is free. */
  lemma LastCloses(watchers: seq<set<nat>>, tasks: seq<Task>, p: seq<nat>, c: nat, tr: Trace, s: State)
    returns (tr': Trace, mem: Mem, d: nat)
    requires Circle(watchers, tasks, p, c) && Run(watchers, tasks, tr) == Some(s)
    requires Jammed(s, watchers, tasks, p, c, |p| - 1)
    ensures d < |tasks| && tasks[d] == Close(p[|p| - 1]) && p[|p| - 1] < |watchers|
    ensures At(watchers, tasks, tr', s.pc, d, mem, Done) && |s.mem.boxes| == |watchers|
    ensures mem.boxes == s.mem.boxes[p[|p| - 1] := Box(false, None, true, true, {})]
  {
    var n := |p| - 1;
    RunKeepsInv(watchers, tasks, tr);
    assert IsClosed(tasks, p[n]);
    d :| 0 <= d < |tasks| && tasks[d] == Close(p[n]);
    assert p[n] !in p[..n] && s.pc[d := Start] == s.pc;
    var ws := s.mem.boxes[p[n]].watchers;
    forall x | x in ws ensures x < |watchers| && (s.mem.boxes[x].registered ==> s.mem.boxes[x].lock.None?) {
      if i :| 0 <= i < n && p[i] == x {
        assert Blocked(s, tasks, p[i], p[i + 1]);
      }
    }
    tr', mem := CloserFinishes(watchers, tasks, tr, s.pc, d, s.mem, ws);
  }

  /** Two more goroutines moved, the closer of the last mailbox and c, and the circle is closed. */
  lemma CircleCloses(watchers: seq<set<nat>>, tasks: seq<Task>, p: seq<nat>, c: nat, s: State, d: nat, s': State)
    requires Circle(watchers, tasks, p, c) && Shaped(s, tasks) && Shaped(s', tasks)
    requires |s.mem.boxes| == |s'.mem.boxes| == |watchers| && Jammed(s, watchers, tasks, p, c, |p| - 1)
    requires p[|p| - 1] < |watchers| && d < |tasks| && tasks[d].m == p[|p| - 1]
    requires s'.mem.boxes == s.mem.boxes[p[|p| - 1] := Box(false, Some(c), true, true, {})]
    requires s'.pc == s.pc[d := Done][c := Sending(p[0], {}, true, Want)]
    ensures Hung(s', tasks, p)
  {
    var n := |p| - 1;
    forall i | 0 <= i < n ensures Blocked(s', tasks, p[i], After(p, i)) {
      assert Blocked(s, tasks, p[i], p[i + 1]) && p[i] != p[n];
    }
  }

  lemma CircleHangs(watchers: seq<set<nat>>, tasks: seq<Task>, p: seq<nat>, c: nat) returns (tr: Trace, s: State)
    requires Circle(watchers, tasks, p, c)
    ensures Run(watchers, tasks, tr) == Some(s) && Hung(s, tasks, p)
    ensures p[|p| - 1] < |s.mem.boxes| && s.mem.boxes[p[|p| - 1]].lock == Some(c)
  {
    var s1: State, mem: Mem, mem': Mem, d: nat;
    tr, s1 := JamsUpTo(watchers, tasks, p, c, |p| - 1);
    tr, mem, d := LastCloses(watchers, tasks, p, c, tr, s1);
    var base := s1.pc[d := Done];
    assert base[c := WantOwn] == base;
    tr, mem' := WatchWaits(watchers, tasks, tr, base, c, mem);
    s := State(mem', base[c := Sending(p[0], {}, true, Want)]);
    assert mem'.boxes == s1.mem.boxes[p[|p| - 1] := Box(false, Some(c), true, true, {})];
    CircleCloses(watchers, tasks, p, c, s1, d, s);
  }

  /** The holders of a circle's mutexes cannot step. */
  lemma HungCannotStep(s: State, tasks: seq<Task>, p: seq<nat>, i: nat, w: nat)
    requires Shaped(s, tasks) && Hung(s, tasks, p) && i < |p|
    ensures p[i] < |s.mem.boxes| && s.mem.boxes[p[i]].lock.Some? && s.mem.boxes[p[i]].lock.value < |tasks|
    ensures Next(s, tasks, s.mem.boxes[p[i]].lock.value, w).None?
  {
    var k := if i + 1 < |p| then i + 1 else 0;
    assert Blocked(s, tasks, p[i], After(p, i)) && Blocked(s, tasks, p[k], After(p, k));
  }

  /** Nothing anybody does gets such a circle moving again. */
  lemma StepKeepsHung(s: State, tasks: seq<Task>, p: seq<nat>, t: nat, w: nat)
    requires Shaped(s, tasks) && ShapeInv(s, tasks) && LockInv(s, tasks) && Hung(s, tasks, p)
    requires t < |tasks| && Next(s, tasks, t, w).Some?
    ensures Hung(Next(s, tasks, t, w).value, tasks, p) && SameHolders(s, Next(s, tasks, t, w).value, p)
  {
    var s' := Next(s, tasks, t, w).value;
    forall i | 0 <= i < |p|
      ensures Blocked(s', tasks, p[i], After(p, i)) && s'.mem.boxes[p[i]].lock == s.mem.boxes[p[i]].lock
    {
      HungCannotStep(s, tasks, p, i, w);
      StepKeepsBlocked(s, tasks, t, w, p[i], After(p, i));
    }
  }

  lemma StepKeepsBlocked(s: State, tasks: seq<Task>, t: nat, w: nat, i: nat, x: nat)
    requires Shaped(s, tasks) && ShapeInv(s, tasks) && LockInv(s, tasks) && Blocked(s, tasks, i, x)
    requires t < |tasks| && Next(s, tasks, t, w).Some? && s.mem.boxes[i].lock != Some(t)
    ensures Blocked(Next(s, tasks, t, w).value, tasks, i, x)
    ensures Next(s, tasks, t, w).value.mem.boxes[i].lock == s.mem.boxes[i].lock
  {
    assert PcShape(s.mem, tasks[t], s.pc[t]) && TwoMutexes(s.pc[t], tasks[t]);
    assert s.pc[t].HoldsOwn() ==> Holds(s.pc[t], tasks[t], tasks[t].m);
    LockEffect(s.mem, tasks[t], t, s.pc[t], w, i);
  }

  ghost predicate SameHolders(s: State, s': State, p: seq<nat>) {
    forall i :: 0 <= i < |p| ==>
      p[i] < |s.mem.boxes| && p[i] < |s'.mem.boxes| && s'.mem.boxes[p[i]].lock == s.mem.boxes[p[i]].lock
  }

  /** Whatever goes on from there, the goroutines of the circle never return. */
  lemma {:induction false} HungForEver(watchers: seq<set<nat>>, tasks: seq<Task>, p: seq<nat>, tr: Trace, tr': Trace)
    requires Setup(watchers, tasks) && Run(watchers, tasks, tr).Some? && Hung(Run(watchers, tasks, tr).value, tasks, p)
    requires tr <= tr' && Run(watchers, tasks, tr').Some?
    ensures Hung(Run(watchers, tasks, tr').value, tasks, p)
    ensures SameHolders(Run(watchers, tasks, tr).value, Run(watchers, tasks, tr').value, p)
    decreases tr'
  {
    if tr' == tr {
      assert forall i :: 0 <= i < |p| ==> Blocked(Run(watchers, tasks, tr).value, tasks, p[i], After(p, i));
    } else {
      var n := |tr'| - 1;
      HungForEver(watchers, tasks, p, tr, tr'[..n]);
      RunKeepsInv(watchers, tasks, tr'[..n]);
      StepKeepsHung(Run(watchers, tasks, tr'[..n]).value, tasks, p, tr'[n].0, tr'[n].1);
    }
  }

  lemma GoesOn(watchers: seq<set<nat>>, tasks: seq<Task>, tr: Trace, s: State) returns (tr': Trace)
    requires Setup(watchers, tasks) && Run(watchers, tasks, tr) == Some(s) && !Halted(s, tasks)
    ensures |tr'| == |tr| + 1 && tr <= tr' && Run(watchers, tasks, tr').Some?
    ensures |tr'| <= |tasks| * (8 * |watchers| + 11)
  {
    var t :| 0 <= t < |tasks| && Enabled(s, tasks, t);
    var w :| Next(s, tasks, t, w).Some?;
    Extend(watchers, tasks, tr, t, w);
    tr' := tr + [(t, w)];
    RunUsesFuel(watchers, tasks, tr');
  }

  /** Any schedule can be continued until nobody can step. */
  lemma RunsOut(watchers: seq<set<nat>>, tasks: seq<Task>, tr: Trace) returns (tr': Trace)
    requires Setup(watchers, tasks) && Run(watchers, tasks, tr).Some?
    ensures tr <= tr' && Run(watchers, tasks, tr').Some? && Halted(Run(watchers, tasks, tr').value, tasks)
  {
    tr' := tr;
    ghost var bound := |tasks| * (8 * |watchers| + 11);
    while !Halted(Run(watchers, tasks, tr').value, tasks)
      invariant tr <= tr' && Run(watchers, tasks, tr').Some?
      decreases bound - |tr'|
    {
      tr' := GoesOn(watchers, tasks, tr', Run(watchers, tasks, tr').value);
    }
  }

  /** Every schedule that cannot be continued has finished everything. */
  ghost predicate AlwaysFinishes(watchers: seq<set<nat>>, tasks: seq<Task>)
    requires Setup(watchers, tasks)
  {
    forall tr :: Run(watchers, tasks, tr).Some? && Halted(Run(watchers, tasks, tr).value, tasks) ==>
      Finished(Run(watchers, tasks, tr).value)
  }

  /** A circle of closed mailboxes through a cached target always has a schedule that hangs. */
  lemma CachedCycleHangs(watchers: seq<set<nat>>, tasks: seq<Task>, p: seq<nat>) returns (tr: Trace)
    requires Setup(watchers, tasks) && IsPath(watchers, tasks, p) && CachedEdge(tasks, p[|p| - 1], p[0])
    ensures Run(watchers, tasks, tr).Some?
    ensures Halted(Run(watchers, tasks, tr).value, tasks) && !Finished(Run(watchers, tasks, tr).value)
  {
    var q := Straight(watchers, tasks, p);
    var c :| && 0 <= c < |tasks| && tasks[c].Watch? && tasks[c].m == q[|q| - 1] && tasks[c].w == q[0]
             && !tasks[c].lookupTarget;
    forall k | 0 <= k < |q| ensures IsClosed(tasks, q[k]) {
      if k < |q| - 1 {
        assert Edge(watchers, tasks, q[k], q[k + 1]);
      }
    }
    var s: State;
    var jam: Trace;
    jam, s := CircleHangs(watchers, tasks, q, c);
    tr := RunsOut(watchers, tasks, jam);
    HungForEver(watchers, tasks, q, jam, tr);
    assert Blocked(Run(watchers, tasks, tr).value, tasks, q[0], After(q, 0));
  }

  /** Close, OnCloseNotify, RemoveNotify and the rest all return, on every
      schedule, if and only if no circle of closed mailboxes passes through a
      cached target. */
  lemma AlwaysFinishesIff(watchers: seq<set<nat>>, tasks: seq<Task>)
    requires Setup(watchers, tasks)
    ensures AlwaysFinishes(watchers, tasks) <==> NoCachedCycle(watchers, tasks)
  {
    if NoCachedCycle(watchers, tasks) {
      forall tr | Run(watchers, tasks, tr).Some? && Halted(Run(watchers, tasks, tr).value, tasks)
        ensures Finished(Run(watchers, tasks, tr).value)
      {
        EveryScheduleFinishes(watchers, tasks, tr, Run(watchers, tasks, tr).value);
      }
    } else {
      var p :| IsPath(watchers, tasks, p) && CachedEdge(tasks, p[|p| - 1], p[0]);
      var tr := CachedCycleHangs(watchers, tasks, p);
    }
  }

  /** A closed mailbox asked to notify its own cached address waits for the mutex it holds. */
  lemma CachedSelfTargetDeadlocks(watchers: seq<set<nat>>, tasks: seq<Task>, m: nat, c: nat) returns (tr: Trace)
    requires Setup(watchers, tasks) && IsClosed(tasks, m)
    requires c < |tasks| && tasks[c].Watch? && tasks[c].m == tasks[c].w == m && !tasks[c].lookupTarget
    ensures Run(watchers, tasks, tr).Some?
    ensures var s := Run(watchers, tasks, tr).value; Halted(s, tasks) && Running(s.pc[c])
  {
    var s: State;
    var jam: Trace;
    jam, s := CircleHangs(watchers, tasks, [m], c);
    tr := RunsOut(watchers, tasks, jam);
    HungForEver(watchers, tasks, [m], jam, tr);
    assert Blocked(Run(watchers, tasks, tr).value, tasks, [m][0], After([m], 0));
  }
}
