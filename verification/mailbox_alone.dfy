/** What each critical section of a mailbox does when it runs to its end: the
    effect of the steps of MailboxSteps as one function. */
module MailboxAlone {
  import opened Wrappers
  import opened MailboxSteps

  /** The channel and the slice. */
  datatype Contents = Contents(slot: Option<Message>, shut: bool, messages: seq<Message>) {
    /** Channel first, then the slice. */
    function Queue(): seq<Message> {
      (if slot.Some? then [slot.value] else []) + messages
    }

    /** Nobody is between a take and a refill. */
    predicate Settled() {
      (slot.None? ==> messages == []) && (shut ==> slot.None?)
    }
  }

  function Inside(b: Box): Contents {
    Contents(b.slot, b.shut, b.messages)
  }

  function AfterSend(c: Contents, m: Message): Contents {
    if c.shut && c.slot.None? then c
    else if c.slot.Some? then c.(messages := c.messages + [m])
    else Contents(Some((c.messages + [m])[0]), c.shut, (c.messages + [m])[1..])
  }

  function AfterRefill(c: Contents): Contents {
    if c.messages == [] || c.slot.Some? then c else Contents(Some(c.messages[0]), c.shut, c.messages[1..])
  }

  function AfterClose(c: Contents): Contents {
    if c.shut && c.slot.None? then c else Contents(None, true, [])
  }

  /** What the drain at the top of ReceiveMatch's critical section leaves in the slice. */
  function Drained(c: Contents): seq<Message> {
    if c.slot.Some? && c.slot.value != Nil then [c.slot.value] + c.messages else c.messages
  }

  /** The critical section of ReceiveMatch with `v` in hand: the contents after
      it, and the message to return, if any. */
  function AfterMatch(c: Contents, v: Message, p: Matcher): (Contents, Option<Message>) {
    var all := Drained(c);
    if v in p then
      (AfterRefill(Contents(None, c.shut, all)), Some(v))
    else
      var i := FirstMatch(all, p);
      if i < |all| then (Contents(Some(v), c.shut, Without(all, i)), Some(all[i]))
      else (Contents(Some(v), c.shut, all), None)
  }

  /** Goroutine `t` takes `k` steps of its own. */
  function Steps(s: State, t: nat, k: nat): Option<State>
    requires t < |s.pc|
    decreases k
  {
    if k == 0 then Some(s)
    else
      match Next(s, t, Go)
      case None => None
      case Some(s') => Steps(s', t, k - 1)
  }

  lemma StepsFirst(s: State, t: nat, k: nat)
    requires t < |s.pc| && k > 0
    ensures Next(s, t, Go).None? ==> Steps(s, t, k).None?
    ensures Next(s, t, Go).Some? ==>
      |Next(s, t, Go).value.pc| == |s.pc| && Steps(s, t, k) == Steps(Next(s, t, Go).value, t, k - 1)
  {
  }

  lemma {:induction false} StepsCompose(s: State, t: nat, j: nat, k: nat)
    requires t < |s.pc| && Steps(s, t, j).Some?
    ensures |Steps(s, t, j).value.pc| == |s.pc|
    ensures Steps(s, t, j + k) == Steps(Steps(s, t, j).value, t, k)
    decreases j
  {
    if j > 0 {
      var s1 := Next(s, t, Go).value;
      StepsFirst(s, t, j);
      assert Steps(s, t, j) == Steps(s1, t, j - 1);
      StepsCompose(s1, t, j - 1, k);
      assert Steps(s, t, j + k) == Steps(s1, t, j - 1 + k) by { StepsFirst(s, t, j + k); }
    }
  }

  /** The state in which `t`, alone, finished an operation and left `c` behind. */
  ghost predicate Finished(s: State, s': State, t: nat, c: Contents, pc: Pc)
    requires t < |s.pc|
  {
    Inside(s'.box) == c && s'.box.lock.None? && s'.box.leaked == s.box.leaked && s'.pc == s.pc[t := pc]
  }

  lemma StepsLast(s: State, t: nat, k: nat)
    requires t < |s.pc| && Steps(s, t, k).Some?
    ensures |Steps(s, t, k).value.pc| == |s.pc|
    ensures Steps(s, t, k + 1) == Next(Steps(s, t, k).value, t, Go)
  {
    StepsCompose(s, t, k, 1);
    var s' := Steps(s, t, k).value;
    assert Steps(s', t, 1) == Next(s', t, Go) by {
      if Next(s', t, Go).Some? {
        assert Steps(Next(s', t, Go).value, t, 0) == Next(s', t, Go);
      }
    }
  }

  /** The two steps of send up to its select. */
  lemma SendSelects(s: State, t: nat)
    requires t < |s.pc| && s.pc[t].SendLock? && s.box.lock.None?
    requires s.box.shut ==> s.box.slot.None?
    ensures Steps(s, t, 2).Some?
    ensures var s', m := Steps(s, t, 2).value, s.pc[t].m;
      && s'.box.lock == Some(t) && s'.box.leaked == s.box.leaked
      && Inside(s'.box) == (if s.box.shut then Inside(s.box) else Inside(s.box).(slot := None))
      && s'.pc == s.pc[t := if s.box.shut then Unlock(None)
                            else if s.box.slot.Some? then SendAppend(m, s.box.slot.value) else SendAppendEmpty(m)]
  {
    StepsLast(s, t, 0);
    StepsLast(s, t, 1);
  }

  /** From the select to the end, over a full or an empty channel. */
  lemma SendEnds(s: State, t: nat) returns (k: nat)
    requires t < |s.pc| && (s.pc[t].SendAppend? || s.pc[t].SendAppendEmpty?)
    requires s.box.lock == Some(t) && s.box.slot.None? && !s.box.shut
    ensures Steps(s, t, k).Some?
    ensures var all := s.box.messages + [s.pc[t].m];
      Finished(s, Steps(s, t, k).value, t,
        if s.pc[t].SendAppend? then Contents(Some(s.pc[t].prev), false, all)
        else Contents(Some(all[0]), false, all[1..]), Idle)
  {
    StepsLast(s, t, 0);
    StepsLast(s, t, 1);
    StepsLast(s, t, 2);
    k := 3;
    if s.pc[t].SendAppendEmpty? {
      StepsLast(s, t, 3);
      k := 4;
    }
  }

  lemma SendAlone(s: State, t: nat) returns (k: nat)
    requires t < |s.pc| && s.pc[t].SendLock? && s.box.lock.None?
    requires s.box.shut ==> s.box.slot.None?
    ensures Steps(s, t, k).Some?
    ensures Finished(s, Steps(s, t, k).value, t, AfterSend(Inside(s.box), s.pc[t].m), Idle)
  {
    SendSelects(s, t);
    if s.box.shut {
      StepsLast(s, t, 2);
      k := 3;
    } else {
      var j := SendEnds(Steps(s, t, 2).value, t);
      StepsCompose(s, t, 2, j);
      k := 2 + j;
    }
  }

  lemma RefillAlone(s: State, t: nat) returns (k: nat)
    requires t < |s.pc| && s.pc[t].RecvLock? && s.box.lock.None?
    requires s.box.shut ==> s.box.messages == []
    ensures Steps(s, t, k).Some?
    ensures Finished(s, Steps(s, t, k).value, t, AfterRefill(Inside(s.box)), Idle)
    ensures Steps(s, t, k).value.box.received == s.box.received + [s.pc[t].v]
  {
    var s1 := Next(s, t, Go).value;
    var s2 := Next(s1, t, Go).value;
    var s3 := Next(s2, t, Go).value;
    assert Steps(s1, t, 1) == Some(s2);
    assert Steps(s, t, 2) == Some(s2);
    StepsCompose(s, t, 2, 1);
    k := 3;
    if s.box.messages != [] && s.box.slot.None? {
      StepsCompose(s, t, 3, 1);
      k := 4;
    }
  }

  lemma CloseAlone(s: State, t: nat) returns (k: nat)
    requires t < |s.pc| && s.pc[t].CloseLock? && s.box.lock.None?
    ensures Steps(s, t, k).Some?
    ensures Finished(s, Steps(s, t, k).value, t, AfterClose(Inside(s.box)), Idle)
  {
    StepsLast(s, t, 0);
    StepsLast(s, t, 1);
    if s.box.shut && s.box.slot.None? {
      StepsLast(s, t, 2);
      k := 3;
    } else {
      var j := CloseEnds(Steps(s, t, 2).value, t);
      StepsCompose(s, t, 2, j);
      k := 2 + j;
    }
  }

  lemma CloseEnds(s: State, t: nat) returns (k: nat)
    requires t < |s.pc| && s.pc[t].CloseShut? && s.box.lock == Some(t) && s.box.slot.None?
    ensures Steps(s, t, k).Some?
    ensures Finished(s, Steps(s, t, k).value, t, Contents(None, true, []), Idle)
  {
    StepsLast(s, t, 0);
    StepsLast(s, t, 1);
    StepsLast(s, t, 2);
    k := 3;
  }

  /** Two steps take the drain to the decision, or three when a message is put in front of the slice. */
  lemma DrainAlone(s: State, t: nat) returns (k: nat)
    requires t < |s.pc| && s.pc[t].MatchLock? && s.box.lock.None? && !s.box.shut
    ensures Steps(s, t, k).Some?
    ensures var s' := Steps(s, t, k).value;
      && Inside(s'.box) == Contents(None, false, Drained(Inside(s.box)))
      && s'.box.lock == Some(t) && s'.box.leaked == s.box.leaked && s'.box.received == s.box.received
      && s'.pc == s.pc[t := MatchDecide(s.pc[t].p, s.pc[t].v)]
  {
    var s1 := Next(s, t, Go).value;
    var s2 := Next(s1, t, Go).value;
    assert Steps(s1, t, 1) == Some(s2);
    assert Steps(s, t, 2) == Some(s2);
    k := 2;
    if s.box.slot.Some? && s.box.slot.value != Nil {
      assert Steps(s2, t, 1) == Next(s2, t, Go);
      StepsCompose(s, t, 2, 1);
      k := 3;
    }
  }

  /** `s'` is where a decision about the message in hand may lead. */
  ghost predicate Decided(s: State, s': State, t: nat)
    requires t < |s.pc| && s.pc[t].MatchDecide?
  {
    var (c, out) := AfterMatch(Inside(s.box), s.pc[t].v, s.pc[t].p);
    && Finished(s, s', t, c, if out.Some? then Idle else MatchTake(s.pc[t].p))
    && s'.box.received == s.box.received + if out.Some? then [out.value] else []
  }

  lemma AcceptAlone(s: State, t: nat) returns (k: nat)
    requires t < |s.pc| && s.pc[t].MatchDecide? && s.pc[t].v in s.pc[t].p
    requires s.box.lock == Some(t) && !s.box.shut && s.box.slot.None?
    ensures Steps(s, t, k).Some? && Decided(s, Steps(s, t, k).value, t)
  {
    var s1 := Next(s, t, Go).value;
    var s2 := Next(s1, t, Go).value;
    assert Steps(s1, t, 1) == Some(s2);
    assert Steps(s, t, 2) == Some(s2);
    k := 2;
    if s.box.messages != [] {
      assert Steps(s2, t, 1) == Next(s2, t, Go);
      StepsCompose(s, t, 2, 1);
      k := 3;
    }
  }

  /** The search of the slice and the unlock. */
  lemma ScanAlone(s: State, t: nat)
    requires t < |s.pc| && s.pc[t].MatchScan? && s.box.lock == Some(t)
    ensures Steps(s, t, 2).Some?
    ensures var (s', p, q) := (Steps(s, t, 2).value, s.pc[t].p, s.box.messages);
      var i := FirstMatch(q, p);
      && Finished(s, s', t, Inside(s.box).(messages := if i < |q| then Without(q, i) else q),
                  if i < |q| then Idle else MatchTake(p))
      && s'.box.received == s.box.received + if i < |q| then [q[i]] else []
  {
    StepsLast(s, t, 0);
    StepsLast(s, t, 1);
  }

  lemma RejectAlone(s: State, t: nat) returns (k: nat)
    requires t < |s.pc| && s.pc[t].MatchDecide? && s.pc[t].v !in s.pc[t].p
    requires s.box.lock == Some(t) && !s.box.shut && s.box.slot.None?
    ensures Steps(s, t, k).Some? && Decided(s, Steps(s, t, k).value, t)
  {
    StepsLast(s, t, 0);
    var s1 := Steps(s, t, 1).value;
    assert s1 == State(s.box.(slot := Some(s.pc[t].v)), s.pc[t := MatchScan(s.pc[t].p)]);
    ScanAlone(s1, t);
    StepsCompose(s, t, 1, 2);
    k := 3;
  }

  /** The critical section of ReceiveMatch on an open mailbox, run to its end. */
  lemma MatchAlone(s: State, t: nat) returns (k: nat)
    requires t < |s.pc| && s.pc[t].MatchLock? && s.box.lock.None? && !s.box.shut
    ensures Steps(s, t, k).Some?
    ensures var (c, out) := AfterMatch(Inside(s.box), s.pc[t].v, s.pc[t].p);
      && Finished(s, Steps(s, t, k).value, t, c, if out.Some? then Idle else MatchTake(s.pc[t].p))
      && Steps(s, t, k).value.box.received == s.box.received + if out.Some? then [out.value] else []
  {
    var j := DrainAlone(s, t);
    var mid := Steps(s, t, j).value;
    var k' := 0;
    if s.pc[t].v in s.pc[t].p {
      k' := AcceptAlone(mid, t);
    } else {
      k' := RejectAlone(mid, t);
    }
    StepsCompose(s, t, j, k');
    k := j + k';
    assert Drained(Inside(mid.box)) == Drained(Inside(s.box));
  }
}
