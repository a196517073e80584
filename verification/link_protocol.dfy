/** Remote links over one uninterrupted connection (remoteMailboxes.go:234-340,
    mailbox.go:559-574 and 784-838).  Node A's manager subscribes at most once to
    each mailbox of node B, for all its local watchers; subscribes, unsubscribes
    and close notices cross on the wire while mailboxes on B close at any time. */
module LinkProtocol {
  import opened Wrappers
  import opened LinkTable

  /** In the mailbox of B's manager: a message from A, or the closing of a mailbox on B. */
  datatype AtB = FromA(w: Wire) | Closing(r: Id)

  datatype Net = Net(
    a: State,                   // A's manager
    inA: seq<Input>,            // its mailbox
    ab: seq<Wire>,              // the wire from A to B
    inB: seq<AtB>,              // the mailbox of B's manager
    busy: Option<Wire>,         // B's manager found the mailbox and is about to lock it
    ba: seq<Id>,                // the wire from B to A: close notices
    gone: set<Id>,              // not, or no longer, in B's table of mailboxes
    closed: set<Id>,            // of those, the ones whose Close has passed its critical section
    watch: set<Id>              // mailboxes on B that will notify B's manager
  )

  datatype Event =
    | Request(i: Input)         // somebody on A links, unlinks or sends
    | AHandles
    | BReceives
    | BHandles                  // up to and including the table lookup
    | BActs                     // onCloseNotify or removeNotify under the mailbox's mutex
    | AReceives
    | Unregisters(r: Id)        // a mailbox on B starts to close
    | Closes(r: Id)             // and notifies, under its mutex

  /** `missing` are the ids that stand for no open mailbox on B at the start. */
  function Init(missing: set<Id>): Net {
    Net(EMPTY, [], [], [], None, [], missing, missing, {})
  }

  /** What one message handled by A's manager puts on the wire. */
  function Output(before: State, after: State): seq<Wire> {
    if |after.log| == |before.log| + 1 && after.log[|before.log|].Sent? then [after.log[|before.log|].w] else []
  }

  function Looked(n: Net, w: Wire): Net {
    match w
    case Subscribe(r) => if r in n.gone then n.(inB := n.inB + [Closing(r)]) else n.(busy := Some(w))
    case Unsubscribe(r) => if r in n.gone then n else n.(busy := Some(w))
    case Closed(_) => n
    case Message(_) => n
  }

  function Acted(n: Net, w: Wire): Net {
    match w
    case Subscribe(r) => if r in n.closed then n.(inB := n.inB + [Closing(r)]) else n.(watch := n.watch + {r})
    case Unsubscribe(r) => n.(watch := n.watch - {r})
    case Closed(_) => n
    case Message(_) => n
  }

  function Next(n: Net, e: Event): Option<Net> {
    match e
    case Request(i) =>
      if i.NotifyRemote? || i.UnnotifyRemote? || i.OutgoingMessage? then Some(n.(inA := n.inA + [i])) else None
    case AHandles =>
      if n.inA == [] then None
      else
        var a := Handle(n.a, n.inA[0], true);
        Some(n.(a := a, inA := n.inA[1..], ab := n.ab + Output(n.a, a)))
    case BReceives =>
      if n.ab == [] then None else Some(n.(ab := n.ab[1..], inB := n.inB + [FromA(n.ab[0])]))
    case BHandles =>
      if n.inB == [] || n.busy.Some? then None
      else
        var n1 := n.(inB := n.inB[1..]);
        if n.inB[0].FromA? then Some(Looked(n1, n.inB[0].w)) else Some(n1.(ba := n.ba + [n.inB[0].r]))
    case BActs =>
      if n.busy.None? then None else Some(Acted(n.(busy := None), n.busy.value))
    case AReceives =>
      if n.ba == [] then None else Some(n.(ba := n.ba[1..], inA := n.inA + [RemoteMailboxClosed(n.ba[0])]))
    case Unregisters(r) =>
      if r in n.gone then None else Some(n.(gone := n.gone + {r}))
    case Closes(r) =>
      if r !in n.gone || r in n.closed then None
      else if r in n.watch then
        Some(n.(closed := n.closed + {r}, watch := n.watch - {r}, inB := n.inB + [Closing(r)]))
      else Some(n.(closed := n.closed + {r}))
  }

  function Run(missing: set<Id>, es: seq<Event>): Option<Net> {
    if es == [] then Some(Init(missing))
    else
      match Run(missing, es[..|es| - 1])
      case None => None
      case Some(n) => Next(n, es[|es| - 1])
  }

  // ---------------------------------------------------------------- messages in flight

  /** Applying the subscribes and unsubscribes for r in `q`, in order, to a watch that is `on`. */
  function Replay(on: bool, q: seq<Wire>, r: Id): bool {
    if q == [] then on
    else
      var last := q[|q| - 1];
      if last == Subscribe(r) then true
      else if last == Unsubscribe(r) then false
      else Replay(on, q[..|q| - 1], r)
  }

  lemma {:induction false} ReplayAppends(on: bool, p: seq<Wire>, q: seq<Wire>, r: Id)
    ensures Replay(on, p + q, r) == Replay(Replay(on, p, r), q, r)
  {
    if q == [] {
      assert p + q == p;
    } else {
      assert (p + q)[..|p + q| - 1] == p + q[..|q| - 1];
      ReplayAppends(on, p, q[..|q| - 1], r);
    }
  }

  lemma {:induction false} ReplayMonotone(q: seq<Wire>, r: Id)
    ensures Replay(false, q, r) ==> Replay(true, q, r)
  {
    if q != [] {
      ReplayMonotone(q[..|q| - 1], r);
    }
  }

  /** The messages from A that wait in the mailbox of B's manager. */
  function Peers(inB: seq<AtB>): seq<Wire> {
    if inB == [] then []
    else
      var last := inB[|inB| - 1];
      Peers(inB[..|inB| - 1]) + if last.FromA? then [last.w] else []
  }

  lemma {:induction false} PeersAppends(p: seq<AtB>, q: seq<AtB>)
    ensures Peers(p + q) == Peers(p) + Peers(q)
  {
    if q == [] {
      assert p + q == p;
    } else {
      assert (p + q)[..|p + q| - 1] == p + q[..|q| - 1];
      PeersAppends(p, q[..|q| - 1]);
    }
  }

  lemma PeersOfOne(x: AtB)
    ensures Peers([x]) == if x.FromA? then [x.w] else []
  {
    assert [x][..0] == [];
  }

  /** Everything on its way from A to B, oldest first. */
  function Flight(n: Net): seq<Wire> {
    (if n.busy.Some? then [n.busy.value] else []) + Peers(n.inB) + n.ab
  }

  /** Whether B's manager will be notified of r's closing once A's messages have arrived. */
  function WillWatch(n: Net, r: Id): bool {
    Replay(r in n.watch, Flight(n), r)
  }

  /** A close notice for r is on its way to A's manager. */
  predicate NoticeComing(n: Net, r: Id) {
    Closing(r) in n.inB || r in n.ba || RemoteMailboxClosed(r) in n.inA
  }

  /** A has somebody waiting for r. */
  predicate Wanted(n: Net, r: Id) { LinkedTo(n.a.links, r) != {} }

  ghost predicate CoverAt(n: Net, r: Id) {
    && (Wanted(n, r) ==> NoticeComing(n, r) || WillWatch(n, r))
    && (NoticeComing(n, r) ==> r in n.gone)
    && (r !in n.gone ==> (Wanted(n, r) <==> WillWatch(n, r)))
    && (r in n.closed ==> r in n.gone && r !in n.watch)
    && (forall l :: n.a.told[(r, l)] > 0 ==> r in n.gone)
  }

  ghost predicate Cover(n: Net) {
    && Settled(n.a)
    && !n.a.panicked
    && forall r :: CoverAt(n, r)
  }

  // ---------------------------------------------------------------- steps keep the cover

  lemma ReplayOne(on: bool, w: Wire, r: Id)
    ensures Replay(on, [w], r) == if w == Subscribe(r) then true else if w == Unsubscribe(r) then false else on
  {
    assert [w][..0] == [];
  }

  /** What a message does at A for the watchers of r: a subscribe goes out when
      the first comes, an unsubscribe when the last leaves. */
  lemma HandleEffect(a: State, i: Input, r: Id)
    requires !a.panicked
    ensures var a' := Handle(a, i, true);
      var (was, now, out) := (LinkedTo(a.links, r) != {}, LinkedTo(a'.links, r) != {}, Output(a, a'));
      && !a'.panicked
      && (i.NotifyRemote? ==>
            if i.remote == r then now && out == (if was then [] else [Subscribe(r)])
            else now == was && (out == [] || out == [Subscribe(i.remote)]))
      && (i.UnnotifyRemote? ==>
            if i.remote == r then out == (if was && !now then [Unsubscribe(r)] else []) && (now ==> was)
            else now == was && (out == [] || out == [Unsubscribe(i.remote)]))
      && (i.RemoteMailboxClosed? ==> out == [] && now == (was && i.remote != r))
      && (i.MailboxClosed? ==> out == [Closed(i.local)] && now == was)
      && (i.OutgoingMessage? ==> out == [Message(i.target)] && now == was)
      && (Stops(i) ==> out == [] && now == was)
  {
  }

  lemma HandleTells(a: State, i: Input, p: (Id, Id))
    requires !i.RemoteMailboxClosed? || i.remote != p.0
    ensures Handle(a, i, true).told[p] == a.told[p]
  {
    if i.RemoteMailboxClosed? {
      assert p !in set l | l in LinkedTo(a.links, i.remote) :: (i.remote, l);
    }
  }

  lemma AHandlesKeeps(n: Net, r: Id)
    requires n.inA != [] && !n.a.panicked && CoverAt(n, r)
    ensures CoverAt(Next(n, AHandles).value, r)
  {
    var n', i := Next(n, AHandles).value, n.inA[0];
    var out := Output(n.a, n'.a);
    HandleEffect(n.a, i, r);
    assert n.inA == [i] + n.inA[1..];
    assert Flight(n') == Flight(n) + out;
    ReplayAppends(r in n.watch, Flight(n), out, r);
    if out != [] {
      ReplayOne(WillWatch(n, r), out[0], r);
      assert out == [out[0]];
    }
    if i != RemoteMailboxClosed(r) {
      forall l ensures n'.a.told[(r, l)] == n.a.told[(r, l)] {
        HandleTells(n.a, i, (r, l));
      }
    }
  }

  lemma ReceivingKeepsFlight(n: Net)
    requires n.ab != []
    ensures Flight(Next(n, BReceives).value) == Flight(n)
  {
    var w, rest := n.ab[0], n.ab[1..];
    var busy, peers := if n.busy.Some? then [n.busy.value] else [], Peers(n.inB);
    assert Peers(n.inB + [FromA(w)]) == peers + [w] by {
      PeersAppends(n.inB, [FromA(w)]);
      PeersOfOne(FromA(w));
    }
    assert n.ab == [w] + rest;
    assert busy + (peers + [w]) + rest == busy + peers + ([w] + rest);
  }

  lemma BReceivesKeeps(n: Net, r: Id)
    requires n.ab != [] && CoverAt(n, r)
    ensures CoverAt(Next(n, BReceives).value, r)
  {
    var n' := Next(n, BReceives).value;
    ReceivingKeepsFlight(n);
    assert WillWatch(n', r) == WillWatch(n, r) && NoticeComing(n', r) == NoticeComing(n, r);
  }

  /** The first message in flight, taken out. */
  lemma ReplayHead(on: bool, w: Wire, rest: seq<Wire>, r: Id)
    ensures Replay(on, [w] + rest, r) ==
      Replay(if w == Subscribe(r) then true else if w == Unsubscribe(r) then false else on, rest, r)
  {
    ReplayAppends(on, [w], rest, r);
    ReplayOne(on, w, r);
  }

  /** The first message in B's manager's mailbox, seen in flight. */
  lemma FlightHead(n: Net)
    requires n.inB != [] && n.busy.None?
    ensures var x, tail := n.inB[0], Peers(n.inB[1..]) + n.ab;
      Flight(n) == if x.FromA? then [x.w] + tail else tail
  {
    var x, rest := n.inB[0], n.inB[1..];
    assert n.inB == [x] + rest;
    PeersAppends([x], rest);
    PeersOfOne(x);
  }

  lemma FlightAfterLookup(n: Net)
    requires n.inB != [] && n.busy.None? && n.inB[0].FromA?
    ensures var n', tail := Next(n, BHandles).value, Peers(n.inB[1..]) + n.ab;
      Flight(n') == if n'.busy.Some? then [n.inB[0].w] + tail else tail
  {
    var n', x, rest := Next(n, BHandles).value, n.inB[0], n.inB[1..];
    if x.w.Subscribe? && x.w.r in n.gone {
      PeersAppends(rest, [Closing(x.w.r)]);
      PeersOfOne(Closing(x.w.r));
    }
  }

  /** B's side moved; A's stays covered for r when a notice that was coming still
      is, and a watch that got lost is that of a mailbox that answers with one. */
  lemma CoverCarries(n: Net, n': Net, r: Id)
    requires CoverAt(n, r) && n'.a == n.a && n'.gone == n.gone && n'.closed == n.closed
    requires r in n.closed ==> r !in n'.watch
    requires NoticeComing(n, r) ==> NoticeComing(n', r)
    requires NoticeComing(n', r) ==> NoticeComing(n, r) || r in n.gone
    requires WillWatch(n', r) == WillWatch(n, r) || r in n.gone
    requires WillWatch(n, r) ==> WillWatch(n', r) || NoticeComing(n', r)
    ensures CoverAt(n', r)
  {
  }

  lemma LookedNotice(n: Net, r: Id)
    requires n.inB != [] && n.busy.None? && n.inB[0].FromA?
    ensures var n', w := Next(n, BHandles).value, n.inB[0].w;
      NoticeComing(n', r) <==> NoticeComing(n, r) || (w == Subscribe(r) && r in n.gone)
  {
    assert n.inB == [n.inB[0]] + n.inB[1..];
  }

  /** Without its first message, a flight watches the same, unless that message was about r. */
  lemma WithoutHead(on: bool, w: Wire, rest: seq<Wire>, r: Id)
    ensures Replay(on, [w] + rest, r) != Replay(on, rest, r) ==> w == Subscribe(r) || w == Unsubscribe(r)
    ensures Replay(on, [w] + rest, r) && !Replay(on, rest, r) ==> w == Subscribe(r)
  {
    ReplayHead(on, w, rest, r);
    ReplayMonotone(rest, r);
  }

  lemma LookedOrGone(n: Net)
    requires n.inB != [] && n.busy.None? && n.inB[0].FromA?
    ensures var n', w := Next(n, BHandles).value, n.inB[0].w;
      n'.watch == n.watch && (n'.busy.Some? || w.Closed? || w.Message? || w.r in n.gone)
  {
  }

  lemma LookedFlights(n: Net)
    requires n.inB != [] && n.busy.None? && n.inB[0].FromA?
    ensures var n', w, tail := Next(n, BHandles).value, n.inB[0].w, Peers(n.inB[1..]) + n.ab;
      && Flight(n) == [w] + tail && n'.watch == n.watch
      && (Flight(n') == [w] + tail || Flight(n') == tail)
      && (Flight(n') == [w] + tail || (w.Closed? || w.Message? || w.r in n.gone))
  {
    var n', w, tail := Next(n, BHandles).value, n.inB[0].w, Peers(n.inB[1..]) + n.ab;
    LookedOrGone(n);
    assert Flight(n) == [w] + tail by { FlightHead(n); }
    assert Flight(n') == (if n'.busy.Some? then [w] + tail else tail) by { FlightAfterLookup(n); }
  }

  lemma LookedWatch(n: Net, r: Id)
    requires n.inB != [] && n.busy.None? && n.inB[0].FromA?
    ensures var n', w := Next(n, BHandles).value, n.inB[0].w;
      && (WillWatch(n', r) == WillWatch(n, r) || r in n.gone)
      && (WillWatch(n, r) ==> WillWatch(n', r) || (w == Subscribe(r) && r in n.gone))
  {
    LookedFlights(n);
    WithoutHead(r in n.watch, n.inB[0].w, Peers(n.inB[1..]) + n.ab, r);
  }

  lemma LookedKeeps(n: Net, r: Id)
    requires n.inB != [] && n.busy.None? && n.inB[0].FromA? && CoverAt(n, r)
    ensures CoverAt(Next(n, BHandles).value, r)
  {
    LookedNotice(n, r);
    LookedWatch(n, r);
    CoverCarries(n, Next(n, BHandles).value, r);
  }

  lemma BHandlesKeeps(n: Net, r: Id)
    requires n.inB != [] && n.busy.None? && CoverAt(n, r)
    ensures CoverAt(Next(n, BHandles).value, r)
  {
    if n.inB[0].FromA? {
      LookedKeeps(n, r);
    } else {
      FlightHead(n);
      assert n.inB == [n.inB[0]] + n.inB[1..];
      assert Flight(Next(n, BHandles).value) == Flight(n);
    }
  }

  lemma FlightAfterAct(n: Net)
    requires n.busy.Some?
    ensures Flight(n) == [n.busy.value] + (Peers(n.inB) + n.ab)
    ensures Flight(Next(n, BActs).value) == Peers(n.inB) + n.ab
  {
    var w := n.busy.value;
    if w.Subscribe? && w.r in n.closed {
      PeersAppends(n.inB, [Closing(w.r)]);
      PeersOfOne(Closing(w.r));
    }
  }

  lemma ActedWatch(n: Net, r: Id)
    requires n.busy.Some?
    ensures var n', w := Next(n, BActs).value, n.busy.value;
      WillWatch(n', r) == WillWatch(n, r) || (w == Subscribe(r) && r in n.closed)
  {
    FlightAfterAct(n);
    ReplayHead(r in n.watch, n.busy.value, Peers(n.inB) + n.ab, r);
  }

  lemma ActedNotice(n: Net, r: Id)
    requires n.busy.Some?
    ensures var n', w := Next(n, BActs).value, n.busy.value;
      NoticeComing(n', r) <==> NoticeComing(n, r) || (w == Subscribe(r) && r in n.closed)
  {
  }

  lemma BActsKeeps(n: Net, r: Id)
    requires n.busy.Some? && CoverAt(n, r)
    ensures CoverAt(Next(n, BActs).value, r)
  {
    ActedWatch(n, r);
    ActedNotice(n, r);
    CoverCarries(n, Next(n, BActs).value, r);
  }

  lemma ClosesKeeps(n: Net, x: Id, r: Id)
    requires Next(n, Event.Closes(x)).Some? && CoverAt(n, r)
    ensures CoverAt(Next(n, Event.Closes(x)).value, r)
  {
    var n' := Next(n, Event.Closes(x)).value;
    if x in n.watch {
      PeersAppends(n.inB, [Closing(x)]);
      PeersOfOne(Closing(x));
      assert Closing(x) in n'.inB;
    }
    assert Flight(n') == Flight(n);
  }

  lemma StepKeepsCover(n: Net, e: Event)
    requires Cover(n) && Next(n, e).Some?
    ensures Cover(Next(n, e).value)
  {
    var n' := Next(n, e).value;
    if e.AHandles? {
      HandleKeepsSettled(n.a, n.inA[0], true);
      HandleEffect(n.a, n.inA[0], 0);
    }
    forall r ensures CoverAt(n', r) {
      assert CoverAt(n, r);
      match e
      case Request(i) => assert Flight(n') == Flight(n);
      case AHandles => AHandlesKeeps(n, r);
      case BReceives => BReceivesKeeps(n, r);
      case BHandles => BHandlesKeeps(n, r);
      case BActs => BActsKeeps(n, r);
      case AReceives => assert Flight(n') == Flight(n);
      case Unregisters(x) => assert Flight(n') == Flight(n);
      case Closes(x) => ClosesKeeps(n, x, r);
    }
  }

  lemma {:induction false} RunKeepsCover(missing: set<Id>, es: seq<Event>)
    requires Run(missing, es).Some?
    ensures Cover(Run(missing, es).value)
  {
    if es == [] {
      var n := Init(missing);
      assert forall p :: SettledAt(n.a, p);
      assert forall r :: CoverAt(n, r);
    } else {
      RunKeepsCover(missing, es[..|es| - 1]);
      StepKeepsCover(Run(missing, es[..|es| - 1]).value, es[|es| - 1]);
    }
  }

  // ---------------------------------------------------------------- what A's watchers can rely on

  lemma {:induction false} OnlySubscribeTurnsOn(q: seq<Wire>, r: Id)
    requires Replay(false, q, r)
    ensures Subscribe(r) in q
  {
    if q[|q| - 1] != Subscribe(r) {
      OnlySubscribeTurnsOn(q[..|q| - 1], r);
    }
  }

  /** No notice is lost: in every reachable state, a remote mailbox that somebody
      on A waits for is watched by B's manager (once what is in flight has
      arrived), or a close notice for it is on its way back; and if it has
      closed, either that notice or a subscribe, which will be answered by one,
      is on its way. */
  lemma NoNoticeIsLost(missing: set<Id>, es: seq<Event>, r: Id)
    requires Run(missing, es).Some? && Wanted(Run(missing, es).value, r)
    ensures var n := Run(missing, es).value;
      if r in n.closed then NoticeComing(n, r) || Subscribe(r) in Flight(n)
      else if r in n.gone then NoticeComing(n, r) || WillWatch(n, r)
      else WillWatch(n, r)
  {
    RunKeepsCover(missing, es);
    var n := Run(missing, es).value;
    assert CoverAt(n, r);
    if r in n.closed && !NoticeComing(n, r) {
      OnlySubscribeTurnsOn(Flight(n), r);
    }
  }

  /** No notice is made up: nobody is told, or about to be told, of the closing of an open mailbox. */
  lemma NoNoticeIsInvented(missing: set<Id>, es: seq<Event>, r: Id, l: Id)
    requires Run(missing, es).Some? && r !in Run(missing, es).value.gone
    ensures var n := Run(missing, es).value; n.a.told[(r, l)] == 0 && !NoticeComing(n, r)
  {
    RunKeepsCover(missing, es);
    assert CoverAt(Run(missing, es).value, r);
  }

  /** B's manager hears of the closing of r exactly when r, on closing, has it
      on record, or when its subscribe comes too late: r has left the table
      before the lookup, or has closed before its mutex was free. */
  lemma NoticesAnswerSubscriptions(n: Net, e: Event, r: Id)
    requires Next(n, e).Some?
    ensures Next(n, e).value.inB == (if e == BHandles then n.inB[1..] else n.inB) + [Closing(r)] <==>
      || (e == Event.Closes(r) && r in n.watch)
      || (e == BHandles && n.inB[0] == FromA(Subscribe(r)) && r in n.gone)
      || (e == BActs && n.busy == Some(Subscribe(r)) && r in n.closed)
  {
    var q, q' := if e == BHandles then n.inB[1..] else n.inB, Next(n, e).value.inB;
    assert q' == q || (|q'| == |q| + 1 && q' == q + [q'[|q|]]);
    assert (q + [Closing(r)])[|q|] == Closing(r) && |q + [Closing(r)]| == |q| + 1;
  }

  predicate Quiet(n: Net) {
    n.inA == [] && n.ab == [] && n.inB == [] && n.busy.None? && n.ba == []
  }

  /** When nothing is in flight: for an open mailbox, A has watchers exactly when
      B's manager is subscribed; for a closed one, A has none left, and every
      link to it that was ever asked for has been withdrawn or answered, once. */
  lemma QuietStateAgrees(missing: set<Id>, es: seq<Event>, r: Id, l: Id)
    requires Run(missing, es).Some? && Quiet(Run(missing, es).value)
    ensures var n := Run(missing, es).value;
      && (r !in n.gone ==> (Wanted(n, r) <==> r in n.watch))
      && (r in n.closed ==> !Wanted(n, r) && n.a.made[(r, l)] == n.a.told[(r, l)] + n.a.cut[(r, l)])
  {
    RunKeepsCover(missing, es);
    var n := Run(missing, es).value;
    assert CoverAt(n, r) && SettledAt(n.a, (r, l));
    assert Flight(n) == [];
  }

  // ---------------------------------------------------------------- delivery comes to an end

  /** How many deliveries a message can still cause, itself included. */
  function WeightAtB(x: AtB): nat {
    if x.FromA? then 6 else 4
  }

  function WeightAtA(i: Input): nat {
    if i.RemoteMailboxClosed? || Stops(i) then 2 else 9
  }

  function LoadAtB(q: seq<AtB>): nat {
    if q == [] then 0 else WeightAtB(q[0]) + LoadAtB(q[1..])
  }

  function LoadAtA(q: seq<Input>): nat {
    if q == [] then 0 else WeightAtA(q[0]) + LoadAtA(q[1..])
  }

  lemma {:induction false} LoadAtBAppends(q: seq<AtB>, x: AtB)
    ensures LoadAtB(q + [x]) == LoadAtB(q) + WeightAtB(x)
  {
    if q == [] {
      assert [x][1..] == [];
      assert q + [x] == [x];
    } else {
      assert (q + [x])[1..] == q[1..] + [x];
      LoadAtBAppends(q[1..], x);
    }
  }

  lemma {:induction false} LoadAtAAppends(q: seq<Input>, i: Input)
    ensures LoadAtA(q + [i]) == LoadAtA(q) + WeightAtA(i)
  {
    if q == [] {
      assert [i][1..] == [];
      assert q + [i] == [i];
    } else {
      assert (q + [i])[1..] == q[1..] + [i];
      LoadAtAAppends(q[1..], i);
    }
  }

  /** A bound on the deliveries still to come, while nobody links, unlinks or closes. */
  function Backlog(n: Net): nat {
    LoadAtA(n.inA) + 7 * |n.ab| + LoadAtB(n.inB) + (if n.busy.Some? then 5 else 0) + 3 * |n.ba|
  }

  predicate Delivers(e: Event) {
    e.AHandles? || e.BReceives? || e.BHandles? || e.BActs? || e.AReceives?
  }

  lemma DeliveryShrinksBacklog(n: Net, e: Event)
    requires Delivers(e) && Next(n, e).Some? && !n.a.panicked
    ensures Backlog(Next(n, e).value) < Backlog(n)
  {
    match e
    case AHandles =>
      HandleEffect(n.a, n.inA[0], 0);
    case BReceives =>
      LoadAtBAppends(n.inB, FromA(n.ab[0]));
    case BHandles =>
      if n.inB[0].FromA? && n.inB[0].w.Subscribe? {
        LoadAtBAppends(n.inB[1..], Closing(n.inB[0].w.r));
      }
    case BActs =>
      if n.busy.value.Subscribe? {
        LoadAtBAppends(n.inB, Closing(n.busy.value.r));
      }
    case AReceives =>
      LoadAtAAppends(n.inA, RemoteMailboxClosed(n.ba[0]));
  }

  /** Where no delivery is left to make, nothing is in flight. */
  lemma NoDeliveryLeftIsQuiet(n: Net)
    requires forall e :: Delivers(e) ==> Next(n, e).None?
    ensures Quiet(n)
  {
    assert Next(n, AHandles).None? && Next(n, BReceives).None? && Next(n, AReceives).None?;
    assert Next(n, BActs).None? && Next(n, BHandles).None?;
  }

  /** Deliveries alone come to an end, so the agreement of QuietStateAgrees is
      always reached once nobody links, unlinks or closes for long enough. */
  lemma {:induction false} DeliveryEnds(missing: set<Id>, es: seq<Event>, more: seq<Event>)
    requires Run(missing, es + more).Some?
    requires forall i :: 0 <= i < |more| ==> Delivers(more[i])
    ensures Run(missing, es).Some?
    ensures |more| + Backlog(Run(missing, es + more).value) <= Backlog(Run(missing, es).value)
    decreases more
  {
    if more == [] {
      assert es + more == es;
    } else {
      var k := |more| - 1;
      assert (es + more)[..|es + more| - 1] == es + more[..k];
      DeliveryEnds(missing, es, more[..k]);
      RunKeepsCover(missing, es + more[..k]);
      DeliveryShrinksBacklog(Run(missing, es + more[..k]).value, more[k]);
    }
  }
}
