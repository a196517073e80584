/** newLocalMailbox called by several goroutines at once (mailbox.go:444-445):
    an atomic add that gives out the next number, then an increment of the same
    counter that is not atomic. The numbers are those before the shift by eight
    bits; none is large enough to wrap. */
module Allocation {
  import opened Wrappers

  datatype Call = Added | Loaded(v: nat)

  datatype State = State(counter: nat, calls: map<nat, Call>, given: seq<nat>)

  datatype Event = Add(t: nat) | Load(t: nat) | Store(t: nat)

  function Next(s: State, e: Event): Option<State> {
    match e
    case Add(t) =>
      if t in s.calls then None
      else Some(State(s.counter + 1, s.calls[t := Added], s.given + [s.counter + 1]))
    case Load(t) =>
      if t in s.calls && s.calls[t] == Added then Some(s.(calls := s.calls[t := Loaded(s.counter)]))
      else None
    case Store(t) =>
      if t in s.calls && s.calls[t].Loaded? then Some(s.(counter := s.calls[t].v + 1, calls := s.calls - {t}))
      else None
  }

  const INIT := State(1, map[], [])

  function Run(es: seq<Event>): Option<State> {
    if es == [] then Some(INIT)
    else
      match Run(es[..|es| - 1])
      case None => None
      case Some(s) => Next(s, es[|es| - 1])
  }

  predicate Distinct(s: State) {
    forall i, j :: 0 <= i < j < |s.given| ==> s.given[i] != s.given[j]
  }

  /** No number given out is above the counter. */
  predicate Ahead(s: State) {
    forall i :: 0 <= i < |s.given| ==> s.given[i] <= s.counter
  }

  /** No increment is stored over a counter from which higher numbers were given out since. */
  ghost predicate StoresInTime(es: seq<Event>) {
    forall j :: 0 <= j <= |es| && Run(es[..j]).Some? ==> Ahead(Run(es[..j]).value)
  }

  lemma {:induction false} InTimeIsDistinct(es: seq<Event>)
    requires Run(es).Some? && StoresInTime(es)
    ensures Distinct(Run(es).value)
  {
    if es != [] {
      var n := |es| - 1;
      assert forall j :: 0 <= j <= n ==> es[..n][..j] == es[..j];
      InTimeIsDistinct(es[..n]);
      assert Ahead(Run(es[..n]).value);
    }
  }

  // ---------------------------------------------------------------- what may come after a state

  /** From state s on. */
  function After(s: State, es: seq<Event>): Option<State> {
    if es == [] then Some(s)
    else
      match After(s, es[..|es| - 1])
      case None => None
      case Some(s') => Next(s', es[|es| - 1])
  }

  /** The calls in progress in s go on in any way, and new ones make their atomic add. */
  ghost predicate Continuation(s: State, es: seq<Event>) {
    forall i :: 0 <= i < |es| ==> if es[i].Add? then es[i].t !in s.calls else es[i].t in s.calls
  }

  ghost predicate NeverRepeats(s: State) {
    forall es :: Continuation(s, es) && After(s, es).Some? ==> Distinct(After(s, es).value)
  }

  lemma {:induction false} AfterAppends(s: State, a: seq<Event>, b: seq<Event>)
    requires After(s, a).Some?
    ensures After(s, a + b) == After(After(s, a).value, b)
  {
    if b == [] {
      assert a + b == a;
    } else {
      assert (a + b)[..|a + b| - 1] == a + b[..|b| - 1];
      AfterAppends(s, a, b[..|b| - 1]);
    }
  }

  lemma AfterOne(s: State, e: Event)
    ensures After(s, [e]) == Next(s, e)
  {
    assert [e][..0] == [];
  }

  /** Without a call in progress, atomic adds give out higher and higher numbers. */
  lemma {:induction false} OnlyAddsFollow(s: State, es: seq<Event>)
    requires s.calls == map[] && Continuation(s, es) && After(s, es).Some?
    ensures var s' := After(s, es).value;
      && s'.counter == s.counter + |es| && |s'.given| == |s.given| + |es|
      && (forall i :: 0 <= i < |s.given| ==> s'.given[i] == s.given[i])
      && (forall i :: |s.given| <= i < |s'.given| ==> s'.given[i] == s.counter + (i - |s.given|) + 1)
  {
    if es != [] {
      OnlyAddsFollow(s, es[..|es| - 1]);
    }
  }

  /** n new calls, from t on. */
  function Adding(t: nat, n: nat): (es: seq<Event>)
    ensures |es| == n && forall i :: 0 <= i < n ==> es[i] == Add(t + i)
  {
    seq(n, i requires 0 <= i < n => Add(t + i))
  }

  lemma {:induction false} AddsHappen(s: State, t: nat, n: nat) returns (s': State)
    requires forall c <- s.calls :: c < t
    ensures After(s, Adding(t, n)) == Some(s')
    ensures (forall c <- s'.calls :: c < t + n) && forall c <- s.calls :: c in s'.calls && s'.calls[c] == s.calls[c]
    ensures |s'.given| == |s.given| + n && s'.counter == s.counter + n
    ensures forall i :: 0 <= i < |s.given| ==> s'.given[i] == s.given[i]
    ensures n > 0 ==> s'.given[|s'.given| - 1] == s'.counter
  {
    if n == 0 {
      s' := s;
    } else {
      s' := AddsHappen(s, t, n - 1);
      assert Adding(t, n)[..n - 1] == Adding(t, n - 1);
      s' := Next(s', Add(t + n - 1)).value;
    }
  }

  lemma BehindRepeats(s: State, t: nat) returns (es: seq<Event>)
    requires !Ahead(s) && forall c <- s.calls :: c < t
    ensures (forall i :: 0 <= i < |es| ==> es[i].Add? && es[i].t >= t) && Continuation(s, es)
    ensures After(s, es).Some? && !Distinct(After(s, es).value)
  {
    var i :| 0 <= i < |s.given| && s.given[i] > s.counter;
    var n := s.given[i] - s.counter;
    es := Adding(t, n);
    var s' := AddsHappen(s, t, n);
    assert s'.given[|s'.given| - 1] == s.given[i] == s'.given[i];
  }

  /** A call that has loaded the counter stores it after others have moved on. */
  lemma LoadedFallsBehind(s: State, t: nat, c: nat) returns (es: seq<Event>, s': State, t': nat)
    requires c in s.calls && s.calls[c].Loaded? && forall c <- s.calls :: c < t
    ensures Continuation(s, es) && After(s, es) == Some(s') && !Ahead(s')
    ensures t <= t' && forall c <- s'.calls :: c < t'
  {
    var v := s.calls[c].v;
    var n := if s.counter <= v then v + 2 - s.counter else 1 + s.counter;
    var s1 := AddsHappen(s, t, n);
    AfterAppends(s, Adding(t, n), [Store(c)]);
    AfterOne(s1, Store(c));
    es, s', t' := Adding(t, n) + [Store(c)], Next(s1, Store(c)).value, t + n;
    assert s'.given[|s'.given| - 1] == s1.counter > s'.counter;
  }

  lemma LoadedRepeats(s: State, t: nat, c: nat) returns (es: seq<Event>)
    requires c in s.calls && s.calls[c].Loaded? && forall c <- s.calls :: c < t
    ensures Continuation(s, es) && After(s, es).Some? && !Distinct(After(s, es).value)
  {
    var before, s', t' := LoadedFallsBehind(s, t, c);
    var more := BehindRepeats(s', t');
    AfterAppends(s, before, more);
    es := before + more;
  }

  lemma InProgressRepeats(s: State, t: nat, c: nat) returns (es: seq<Event>)
    requires c in s.calls && forall c <- s.calls :: c < t
    ensures Continuation(s, es) && After(s, es).Some? && !Distinct(After(s, es).value)
  {
    if s.calls[c].Loaded? {
      es := LoadedRepeats(s, t, c);
    } else {
      var s1 := Next(s, Load(c)).value;
      AfterOne(s, Load(c));
      assert s1.calls.Keys == s.calls.Keys;
      es := LoadedRepeats(s1, t, c);
      AfterAppends(s, [Load(c)], es);
      es := [Load(c)] + es;
    }
  }

  lemma {:induction false} SomethingAbove(keys: set<nat>) returns (t: nat)
    ensures forall c <- keys :: c < t
  {
    if keys == {} {
      t := 0;
    } else {
      var c :| c in keys;
      t := SomethingAbove(keys - {c});
      t := if c < t then t else c + 1;
      assert forall x <- keys :: x == c || x in keys - {c};
    }
  }

  /** No number is ever given out again, whatever the calls in progress and new
      ones do, exactly when no number given out is above the counter and no call is in progress. */
  lemma RepeatsIffBehindOrBusy(s: State)
    requires Distinct(s)
    ensures NeverRepeats(s) <==> Ahead(s) && s.calls == map[]
  {
    var t := SomethingAbove(s.calls.Keys);
    if s.calls != map[] {
      var c :| c in s.calls;
      var es := InProgressRepeats(s, t, c);
    } else if !Ahead(s) {
      var es := BehindRepeats(s, t);
    } else {
      forall es | Continuation(s, es) && After(s, es).Some? ensures Distinct(After(s, es).value) {
        OnlyAddsFollow(s, es);
      }
    }
  }

  // ---------------------------------------------------------------- what callers can see to

  /** No call starts while another one is in progress. */
  ghost predicate NoOverlap(es: seq<Event>) {
    forall j :: 0 <= j < |es| && es[j].Add? && Run(es[..j]).Some? ==> Run(es[..j]).value.calls == map[]
  }

  function Evens(n: nat): (q: seq<nat>)
    ensures |q| == n && forall i :: 0 <= i < n ==> q[i] == 2 * (i + 1)
  {
    if n == 0 then [] else Evens(n - 1) + [2 * n]
  }

  /** At most one call is in progress, and the numbers so far are the even ones. */
  ghost predicate Serial(s: State) {
    var n := |s.given|;
    && s.given == Evens(n)
    && (s.calls == map[] ==> s.counter == 2 * n + 1)
    && (s.calls != map[] ==> s.counter == 2 * n && |s.calls| == 1)
    && forall t :: t in s.calls && s.calls[t].Loaded? ==> s.calls[t].v == s.counter
  }

  lemma StepKeepsSerial(s: State, e: Event)
    requires Serial(s) && Next(s, e).Some? && (e.Add? ==> s.calls == map[])
    ensures Serial(Next(s, e).value)
  {
    if e.Store? {
      assert |s.calls - {e.t}| == 0;
    }
  }

  /** In any schedule, by any goroutines, in which calls do not overlap, the
      k-th number given out is 2k (MailboxIds.IdOf). */
  lemma {:induction false} OneByOneIsEven(es: seq<Event>)
    requires Run(es).Some? && NoOverlap(es)
    ensures Run(es).value.given == Evens(|Run(es).value.given|) && Serial(Run(es).value)
  {
    if es != [] {
      var n := |es| - 1;
      assert forall j :: 0 <= j <= n ==> es[..n][..j] == es[..j];
      assert NoOverlap(es[..n]) by {
        assert forall j :: 0 <= j < n ==> es[..n][j] == es[j];
      }
      OneByOneIsEven(es[..n]);
      StepKeepsSerial(Run(es[..n]).value, es[n]);
    }
  }

  lemma Extend(es: seq<Event>, e: Event)
    requires Run(es).Some?
    ensures Run(es + [e]) == Next(Run(es).value, e)
  {
    assert (es + [e])[..|es|] == es;
  }

  /** A schedule that gives out a number twice: one call is held up between
      loading and storing, while two others run and leave the counter at four. */
  lemma OverlappingCallsRepeat() returns (es: seq<Event>)
    ensures Run(es).Some? && Run(es).value.given == [2, 3, 5, 4, 5]
  {
    es := [];
    Extend(es, Add(1));
    es := es + [Add(1)];
    Extend(es, Load(1));
    es := es + [Load(1)];
    Extend(es, Add(2));
    es := es + [Add(2)];
    Extend(es, Load(2));
    es := es + [Load(2)];
    Extend(es, Store(2));
    es := es + [Store(2)];
    assert Run(es).value.given == [2, 3] && Run(es).value.counter == 4;
    Extend(es, Add(3));
    es := es + [Add(3)];
    Extend(es, Store(1));
    es := es + [Store(1)];
    assert Run(es).value.given == [2, 3, 5] && Run(es).value.counter == 3;
    Extend(es, Add(4));
    es := es + [Add(4)];
    Extend(es, Add(5));
    es := es + [Add(5)];
  }
}
