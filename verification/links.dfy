/** The link table of a remoteMailboxes (remoteMailboxes.go:36-43, 157-363):
    which local mailboxes wait for the closing of which remote ones, and what
    each message does to it. */
module LinkTable {
  type Id = nat

  /** Remote mailbox to the local mailboxes linked to it; an inner set may be empty. */
  type Links = map<Id, set<Id>>

  /** What arrives in the manager's mailbox.  What came in over the wire for a
      local mailbox, and what only tests send, is left out: neither the table nor
      the wire is touched by it. */
  datatype Input =
    | NotifyRemote(remote: Id, local: Id)
    | UnnotifyRemote(remote: Id, local: Id)
    | RemoteMailboxClosed(remote: Id)
    | MailboxClosed(local: Id)          // a local mailbox the other node waits for
    | OutgoingMessage(target: Id)       // a message for a mailbox of the other node
    | Terminate
    | OwnMailboxClosed

  datatype Wire = Subscribe(r: Id) | Unsubscribe(r: Id) | Closed(r: Id) | Message(r: Id)

  /** A log entry: a message put on the wire, or a close notice that was acted on. */
  datatype Entry = Sent(w: Wire) | Heard(r: Id)

  /** The table and its history.  Pairs are (remote, local): `made` counts the
      links asked for, `cut` those withdrawn, `told` the MailboxClosed(remote)
      sent to local. */
  datatype State = State(
    links: Links,
    log: seq<Entry>,
    told: multiset<(Id, Id)>,
    made: multiset<(Id, Id)>,
    cut: multiset<(Id, Id)>,
    panicked: bool
  )

  const EMPTY := State(map[], [], multiset{}, multiset{}, multiset{}, false)

  function LinkedTo(links: Links, r: Id): set<Id> {
    if r in links then links[r] else {}
  }

  function Linked(links: Links): set<(Id, Id)> {
    set r, l | r in links && l in links[r] :: (r, l)
  }

  /** rm.send: when it fails, nothing is on the wire. */
  function Emit(s: State, w: Wire, ok: bool): State {
    if ok then s.(log := s.log + [Sent(w)]) else s
  }

  function AfterNotify(s: State, r: Id, l: Id, ok: bool): State {
    var before := LinkedTo(s.links, r);
    if l in before then s
    else
      var s1 := s.(made := s.made + multiset{(r, l)});
      if before == {} then
        var s2 := Emit(s1.(links := s1.links[r := {}]), Subscribe(r), ok);
        if ok then s2.(links := s2.links[r := {l}])
        else s2.(told := s2.told + multiset{(r, l)}, panicked := true)
      else s1.(links := s1.links[r := before + {l}])
  }

  function AfterUnnotify(s: State, r: Id, l: Id, ok: bool): State {
    var before := LinkedTo(s.links, r);
    if before == {} then s
    else
      var s1 := s.(links := s.links[r := before - {l}],
                   cut := if l in before then s.cut + multiset{(r, l)} else s.cut);
      if before - {l} == {} then Emit(s1, Unsubscribe(r), ok) else s1
  }

  function AfterRemoteClosed(s: State, r: Id): State {
    var before := LinkedTo(s.links, r);
    if before == {} then s
    else
      s.(links := s.links - {r},
         log := s.log + [Heard(r)],
         told := s.told + multiset(set l | l in before :: (r, l)))
  }

  /** One message; `ok` says whether the sends it makes succeed. */
  function Handle(s: State, i: Input, ok: bool): State {
    match i
    case NotifyRemote(r, l) => AfterNotify(s, r, l, ok)
    case UnnotifyRemote(r, l) => AfterUnnotify(s, r, l, ok)
    case RemoteMailboxClosed(r) => AfterRemoteClosed(s, r)
    case MailboxClosed(l) => Emit(s, Closed(l), ok)
    case OutgoingMessage(r) => Emit(s, Message(r), ok)
    case Terminate => s
    case OwnMailboxClosed => s
  }

  predicate Stops(i: Input) { i.Terminate? || i.OwnMailboxClosed? }

  /** The dispatch loop of Serve, up to a stop or the panic of a failed subscribe. */
  function Dispatch(s: State, inbox: seq<(Input, bool)>): State
    decreases inbox
  {
    if inbox == [] || Stops(inbox[0].0) then s
    else
      var s' := Handle(s, inbox[0].0, inbox[0].1);
      if s'.panicked then s' else Dispatch(s', inbox[1..])
  }

  /** The deferred function: tell every live link, and start afresh. */
  function Flush(s: State): State {
    s.(links := map[], told := s.told + multiset(Linked(s.links)))
  }

  // ---------------------------------------------------------------- every link is answered once

  predicate IsLinked(links: Links, p: (Id, Id)) {
    p.1 in LinkedTo(links, p.0)
  }

  ghost predicate SettledAt(s: State, p: (Id, Id)) {
    s.made[p] == s.told[p] + s.cut[p] + if IsLinked(s.links, p) then 1 else 0
  }

  /** Each link ever made is still live, was withdrawn, or was answered, exactly once. */
  ghost predicate Settled(s: State) {
    forall p :: SettledAt(s, p)
  }

  lemma NotifyKeepsSettled(s: State, r: Id, l: Id, ok: bool, p: (Id, Id))
    requires SettledAt(s, p)
    ensures SettledAt(AfterNotify(s, r, l, ok), p)
  {
  }

  lemma UnnotifyKeepsSettled(s: State, r: Id, l: Id, ok: bool, p: (Id, Id))
    requires SettledAt(s, p)
    ensures SettledAt(AfterUnnotify(s, r, l, ok), p)
  {
  }

  lemma RemoteClosedKeepsSettled(s: State, r: Id, p: (Id, Id))
    requires SettledAt(s, p)
    ensures SettledAt(AfterRemoteClosed(s, r), p)
  {
    var pairs := set l | l in LinkedTo(s.links, r) :: (r, l);
    assert p in pairs <==> p.0 == r && IsLinked(s.links, p);
  }

  lemma HandleKeepsSettled(s: State, i: Input, ok: bool)
    requires Settled(s)
    ensures Settled(Handle(s, i, ok))
  {
    forall p ensures SettledAt(Handle(s, i, ok), p) {
      assert SettledAt(s, p);
      match i
      case NotifyRemote(r, l) => NotifyKeepsSettled(s, r, l, ok, p);
      case UnnotifyRemote(r, l) => UnnotifyKeepsSettled(s, r, l, ok, p);
      case RemoteMailboxClosed(r) => RemoteClosedKeepsSettled(s, r, p);
      case _ =>
    }
  }

  lemma {:induction false} DispatchKeepsSettled(s: State, inbox: seq<(Input, bool)>)
    requires Settled(s)
    ensures Settled(Dispatch(s, inbox))
    decreases inbox
  {
    if inbox != [] && !Stops(inbox[0].0) {
      HandleKeepsSettled(s, inbox[0].0, inbox[0].1);
      if !Handle(s, inbox[0].0, inbox[0].1).panicked {
        DispatchKeepsSettled(Handle(s, inbox[0].0, inbox[0].1), inbox[1..]);
      }
    }
  }

  /** However Serve ends (a stop, its own mailbox closed, the panic of a failed
      subscribe), and whatever came before: the table is empty, and every link
      ever asked for was either withdrawn or told of the closing, exactly once. */
  lemma ServeAnswersEveryLink(s: State, inbox: seq<(Input, bool)>, p: (Id, Id))
    requires Settled(s)
    ensures var s' := Flush(Dispatch(s, inbox));
      s'.links == map[] && s'.made[p] == s'.told[p] + s'.cut[p] && Settled(s')
  {
    DispatchKeepsSettled(s, inbox);
    var d := Dispatch(s, inbox);
    forall q ensures SettledAt(Flush(d), q) && Flush(d).made[q] == Flush(d).told[q] + Flush(d).cut[q] {
      assert SettledAt(d, q);
      assert q in Linked(d.links) <==> IsLinked(d.links, q);
    }
  }

  // ---------------------------------------------------------------- the wire

  /** Whether the other side holds our subscription to r, by the log; None when
      the log repeats a Subscribe or an Unsubscribe. */
  datatype Subscription = Off | On | Broken

  function Track(log: seq<Entry>, r: Id): Subscription {
    if log == [] then Off
    else
      var before := Track(log[..|log| - 1], r);
      match log[|log| - 1]
      case Sent(Subscribe(x)) => if x != r then before else if before == Off then On else Broken
      case Sent(Unsubscribe(x)) => if x != r then before else if before == On then Off else Broken
      case Sent(Closed(_)) => before
      case Sent(Message(_)) => before
      case Heard(x) => if x != r then before else if before == On then Off else Broken
  }

  ghost predicate TrackedAt(s: State, r: Id) {
    Track(s.log, r) == if LinkedTo(s.links, r) != {} then On else Off
  }

  ghost predicate Tracked(s: State) {
    forall r :: TrackedAt(s, r)
  }

  lemma TrackAppends(log: seq<Entry>, e: Entry, r: Id)
    ensures Track(log + [e], r) ==
      if e.Sent? && (e.w.Closed? || e.w.Message?) then Track(log, r)
      else if (if e.Heard? then e.r else e.w.r) != r then Track(log, r)
      else if e.Sent? && e.w.Subscribe? then if Track(log, r) == Off then On else Broken
      else if Track(log, r) == On then Off else Broken
  {
    assert (log + [e])[..|log|] == log;
  }

  lemma NotifyKeepsTracked(s: State, x: Id, l: Id, r: Id)
    requires TrackedAt(s, r)
    ensures TrackedAt(AfterNotify(s, x, l, true), r)
  {
    TrackAppends(s.log, Sent(Subscribe(x)), r);
  }

  lemma UnnotifyKeepsTracked(s: State, x: Id, l: Id, r: Id)
    requires TrackedAt(s, r)
    ensures TrackedAt(AfterUnnotify(s, x, l, true), r)
  {
    TrackAppends(s.log, Sent(Unsubscribe(x)), r);
  }

  lemma RemoteClosedKeepsTracked(s: State, x: Id, r: Id)
    requires TrackedAt(s, r)
    ensures TrackedAt(AfterRemoteClosed(s, x), r)
  {
    TrackAppends(s.log, Heard(x), r);
  }

  lemma HandleKeepsTracked(s: State, i: Input)
    requires Tracked(s)
    ensures Tracked(Handle(s, i, true))
  {
    forall r ensures TrackedAt(Handle(s, i, true), r) {
      assert TrackedAt(s, r);
      match i
      case NotifyRemote(x, l) => NotifyKeepsTracked(s, x, l, r);
      case UnnotifyRemote(x, l) => UnnotifyKeepsTracked(s, x, l, r);
      case RemoteMailboxClosed(x) => RemoteClosedKeepsTracked(s, x, r);
      case MailboxClosed(x) => TrackAppends(s.log, Sent(Closed(x)), r);
      case OutgoingMessage(x) => TrackAppends(s.log, Sent(Message(x)), r);
      case _ =>
    }
  }

  /** With sends that succeed, subscribes and unsubscribes for r strictly
      alternate between close notices, and the last of them says whether
      anybody is linked to r, whatever the number and order of requests. */
  lemma {:induction false} SubscriptionFollowsLinks(s: State, inbox: seq<(Input, bool)>, r: Id)
    requires Tracked(s) && forall i :: 0 <= i < |inbox| ==> inbox[i].1
    ensures TrackedAt(Dispatch(s, inbox), r)
    decreases inbox
  {
    if inbox != [] && !Stops(inbox[0].0) {
      HandleKeepsTracked(s, inbox[0].0);
      if !Handle(s, inbox[0].0, true).panicked {
        SubscriptionFollowsLinks(Handle(s, inbox[0].0, true), inbox[1..], r);
      }
    }
  }

  lemma LoggedOne(log: seq<Entry>, e: Entry, f: Entry)
    ensures log != log + [e] && (log + [e] == log + [f] <==> e == f)
  {
    assert (log + [e])[|log|] == e && (log + [f])[|log|] == f && |log + [e]| == |log| + 1;
  }

  /** What a message puts on the log, if anything. */
  lemma LogGrows(s: State, i: Input)
    ensures var s' := Handle(s, i, true);
      match i
      case NotifyRemote(x, _) =>
        s'.log == if LinkedTo(s.links, x) == {} then s.log + [Sent(Subscribe(x))] else s.log
      case UnnotifyRemote(x, l) =>
        s'.log == if LinkedTo(s.links, x) != {} && LinkedTo(s.links, x) - {l} == {} then s.log + [Sent(Unsubscribe(x))]
                  else s.log
      case RemoteMailboxClosed(x) => s'.log == s.log || s'.log == s.log + [Heard(x)]
      case MailboxClosed(x) => s'.log == s.log + [Sent(Closed(x))]
      case OutgoingMessage(x) => s'.log == s.log + [Sent(Message(x))]
      case _ => s'.log == s.log
  {
  }

  /** A subscribe is sent exactly when the first link to r is made, an
      unsubscribe exactly when the last one is withdrawn. */
  lemma WireEdges(s: State, i: Input, r: Id)
    ensures var s' := Handle(s, i, true);
      && (s'.log == s.log + [Sent(Subscribe(r))] <==>
            i.NotifyRemote? && LinkedTo(s.links, r) == {} && LinkedTo(s'.links, r) != {})
      && (s'.log == s.log + [Sent(Unsubscribe(r))] <==>
            i.UnnotifyRemote? && LinkedTo(s.links, r) != {} && LinkedTo(s'.links, r) == {})
  {
    LogGrows(s, i);
    var sub, unsub := Sent(Subscribe(r)), Sent(Unsubscribe(r));
    LoggedOne(s.log, sub, unsub);
    match i
    case NotifyRemote(x, _) =>
      LoggedOne(s.log, Sent(Subscribe(x)), sub);
      LoggedOne(s.log, Sent(Subscribe(x)), unsub);
    case UnnotifyRemote(x, _) =>
      LoggedOne(s.log, Sent(Unsubscribe(x)), sub);
      LoggedOne(s.log, Sent(Unsubscribe(x)), unsub);
    case RemoteMailboxClosed(x) =>
      LoggedOne(s.log, Heard(x), sub);
      LoggedOne(s.log, Heard(x), unsub);
    case MailboxClosed(x) =>
      LoggedOne(s.log, Sent(Closed(x)), sub);
      LoggedOne(s.log, Sent(Closed(x)), unsub);
    case OutgoingMessage(x) =>
      LoggedOne(s.log, Sent(Message(x)), sub);
      LoggedOne(s.log, Sent(Message(x)), unsub);
    case _ => LoggedOne(s.log, unsub, sub);
  }
}
