/** What becomes of each request to link or unlink, seen from the requests alone:
    the link table, one wire subscription for all watchers of a remote mailbox,
    against a plain set of links (remoteMailboxes.go:157-311). */
module LinkRequests {
  import opened LinkTable

  // ---------------------------------------------------------------- one message

  /** A link asked for is in the table afterwards, next to all others, whoever else is linked. */
  lemma NotifyLinks(s: State, r: Id, l: Id, ok: bool)
    requires ok || LinkedTo(s.links, r) != {}
    ensures var s' := AfterNotify(s, r, l, ok);
      && Linked(s'.links) == Linked(s.links) + {(r, l)}
      && s'.made == s.made + (if (r, l) in Linked(s.links) then multiset{} else multiset{(r, l)})
      && s'.cut == s.cut && s'.told == s.told && s'.panicked == s.panicked
  {
  }

  /** When the first subscribe fails, the requester is told, once, and nothing is linked. */
  lemma FailedNotifyTells(s: State, r: Id, l: Id)
    requires LinkedTo(s.links, r) == {}
    ensures var s' := AfterNotify(s, r, l, false);
      && Linked(s'.links) == Linked(s.links) && s'.panicked && s'.log == s.log
      && s'.told == s.told + multiset{(r, l)} && s'.made == s.made + multiset{(r, l)} && s'.cut == s.cut
  {
  }

  lemma LinkedAfterUpdate(links: Links, r: Id, locals: set<Id>, p: (Id, Id))
    ensures p in Linked(links[r := locals]) <==> if p.0 == r then p.1 in locals else p in Linked(links)
  {
  }

  /** A link withdrawn is out of the table, whoever else is linked, and it counts as cut if it was in. */
  lemma UnnotifyUnlinks(s: State, r: Id, l: Id, ok: bool)
    ensures var s' := AfterUnnotify(s, r, l, ok);
      && Linked(s'.links) == Linked(s.links) - {(r, l)}
      && s'.cut == s.cut + (if (r, l) in Linked(s.links) then multiset{(r, l)} else multiset{})
      && s'.made == s.made && s'.told == s.told && s'.panicked == s.panicked
  {
    var s', before := AfterUnnotify(s, r, l, ok), LinkedTo(s.links, r);
    forall p ensures p in Linked(s'.links) <==> p in Linked(s.links) - {(r, l)} {
      if before != {} {
        LinkedAfterUpdate(s.links, r, before - {l}, p);
      }
    }
  }

  /** The links to a closed mailbox are told and gone, and no others. */
  lemma ClosingTells(s: State, r: Id)
    ensures var s' := AfterRemoteClosed(s, r);
      && (forall p :: p in Linked(s'.links) <==> p in Linked(s.links) && p.0 != r)
      && (forall p :: s'.told[p] == s.told[p] + if p in Linked(s.links) && p.0 == r then 1 else 0)
      && s'.made == s.made && s'.cut == s.cut && s'.panicked == s.panicked
  {
    var pairs := set l | l in LinkedTo(s.links, r) :: (r, l);
    assert forall p :: p in pairs <==> p in Linked(s.links) && p.0 == r;
  }

  /** What failed to be sent is not on the wire. */
  lemma FailedSendsLeaveTheWire(s: State, i: Input, w: Wire)
    ensures Sent(w) in Handle(s, i, false).log ==> Sent(w) in s.log
  {
  }

  /** Payload and close notices go out as they are, and touch nothing else. */
  lemma OthersAreForwarded(s: State, x: Id)
    ensures Handle(s, OutgoingMessage(x), true) == s.(log := s.log + [Sent(Message(x))])
    ensures Handle(s, MailboxClosed(x), true) == s.(log := s.log + [Sent(Closed(x))])
  {
  }

  // ---------------------------------------------------------------- runs

  type Inbox = seq<(Input, bool)>

  /** The messages up to the first that stops the manager, or whose subscribe fails. */
  function Handled(s: State, inbox: Inbox): Inbox
    decreases inbox
  {
    if inbox == [] || inbox[0].0.Terminate? || inbox[0].0.OwnMailboxClosed? then []
    else if Handle(s, inbox[0].0, inbox[0].1).panicked then [inbox[0]]
    else [inbox[0]] + Handled(Handle(s, inbox[0].0, inbox[0].1), inbox[1..])
  }

  /** Whether p is to be linked after the messages, by what they ask: the last
      one about p decides, or else how it was at the start. */
  function Live(h: Inbox, p: (Id, Id), start: bool): bool {
    if h == [] then start
    else
      var i := h[|h| - 1].0;
      if i == NotifyRemote(p.0, p.1) then true
      else if i == UnnotifyRemote(p.0, p.1) || i == RemoteMailboxClosed(p.0) then false
      else Live(h[..|h| - 1], p, start)
  }

  /** How often p was asked for while it was not linked. */
  function Asked(h: Inbox, p: (Id, Id), start: bool): nat {
    if h == [] then 0
    else
      var before, i := h[..|h| - 1], h[|h| - 1].0;
      Asked(before, p, start) + if i == NotifyRemote(p.0, p.1) && !Live(before, p, start) then 1 else 0
  }

  /** How often p was withdrawn while it was linked. */
  function Withdrawn(h: Inbox, p: (Id, Id), start: bool): nat {
    if h == [] then 0
    else
      var before, i := h[..|h| - 1], h[|h| - 1].0;
      Withdrawn(before, p, start) + if i == UnnotifyRemote(p.0, p.1) && Live(before, p, start) then 1 else 0
  }

  /** How often p's remote mailbox closed while p was linked. */
  function Closings(h: Inbox, p: (Id, Id), start: bool): nat {
    if h == [] then 0
    else
      var before, i := h[..|h| - 1], h[|h| - 1].0;
      Closings(before, p, start) + if i == RemoteMailboxClosed(p.0) && Live(before, p, start) then 1 else 0
  }

  /** A link is asked for, withdrawn and closed upon in turn. */
  lemma {:induction false} AskedAddsUp(h: Inbox, p: (Id, Id), start: bool)
    ensures (if start then 1 else 0) + Asked(h, p, start)
         == Withdrawn(h, p, start) + Closings(h, p, start) + if Live(h, p, start) then 1 else 0
  {
    if h != [] {
      AskedAddsUp(h[..|h| - 1], p, start);
    }
  }

  /** The state after handled messages, one after the other. */
  function HandleAll(s: State, h: Inbox): State
    decreases h
  {
    if h == [] then s else HandleAll(Handle(s, h[0].0, h[0].1), h[1..])
  }

  lemma {:induction false} HandleLast(s: State, h: Inbox, x: (Input, bool))
    ensures HandleAll(s, h + [x]) == Handle(HandleAll(s, h), x.0, x.1)
    decreases h
  {
    if h == [] {
      HandleOne(s, x);
      assert h + [x] == [x];
    } else {
      assert (h + [x])[0] == h[0] && (h + [x])[1..] == h[1..] + [x];
      HandleLast(Handle(s, h[0].0, h[0].1), h[1..], x);
    }
  }

  lemma HandleOne(s: State, x: (Input, bool))
    ensures HandleAll(s, [x]) == Handle(s, x.0, x.1)
  {
    assert [x][1..] == [];
  }

  lemma HandleAllFirst(s: State, x: (Input, bool), h: Inbox)
    ensures HandleAll(s, [x] + h) == HandleAll(Handle(s, x.0, x.1), h)
  {
    assert ([x] + h)[0] == x && ([x] + h)[1..] == h;
  }

  /** No message but the last made the manager panic. */
  ghost predicate PanicsAtMostLast(s: State, h: Inbox) {
    forall k :: 0 <= k < |h| ==> !HandleAll(s, h[..k]).panicked
  }

  /** Dispatch does what the handled messages do. */
  lemma {:induction false} DispatchHandles(s: State, inbox: Inbox)
    ensures Dispatch(s, inbox) == HandleAll(s, Handled(s, inbox))
    decreases inbox
  {
    if inbox != [] && !inbox[0].0.Terminate? && !inbox[0].0.OwnMailboxClosed? {
      var x := inbox[0];
      var s1 := Handle(s, x.0, x.1);
      if s1.panicked {
        HandleOne(s, x);
      } else {
        DispatchHandles(s1, inbox[1..]);
        HandleAllFirst(s, x, Handled(s1, inbox[1..]));
      }
    }
  }

  /** They are all messages up to the first that stops the manager or makes it panic, and none after. */
  lemma {:induction false} HandledIsPrefix(s: State, inbox: Inbox)
    ensures var h := Handled(s, inbox);
      && h <= inbox
      && (forall k :: 0 <= k < |h| ==> h[k].0 != Terminate && h[k].0 != OwnMailboxClosed)
      && (|h| < |inbox| ==> HandleAll(s, h).panicked || inbox[|h|].0 == Terminate || inbox[|h|].0 == OwnMailboxClosed)
    decreases inbox
  {
    if inbox != [] && !inbox[0].0.Terminate? && !inbox[0].0.OwnMailboxClosed? {
      var x := inbox[0];
      var s1 := Handle(s, x.0, x.1);
      if s1.panicked {
        HandleOne(s, x);
      } else {
        HandledIsPrefix(s1, inbox[1..]);
        HandleAllFirst(s, x, Handled(s1, inbox[1..]));
      }
    }
  }

  lemma {:induction false} HandledUntilPanic(s: State, inbox: Inbox)
    requires !s.panicked
    ensures PanicsAtMostLast(s, Handled(s, inbox))
    decreases inbox
  {
    if inbox != [] && !inbox[0].0.Terminate? && !inbox[0].0.OwnMailboxClosed? {
      var x, h := inbox[0], Handled(s, inbox);
      var s1 := Handle(s, x.0, x.1);
      if !s1.panicked {
        var rest := Handled(s1, inbox[1..]);
        HandledUntilPanic(s1, inbox[1..]);
        forall k | 0 <= k < |h| ensures !HandleAll(s, h[..k]).panicked {
          if k > 0 {
            assert h[..k] == [x] + rest[..k - 1];
            HandleAllFirst(s, x, rest[..k - 1]);
          }
        }
      }
    }
  }

  /** After handled messages, a pair is in the table exactly as the requests have
      it, and was told exactly when its mailbox closed; when the last one
      panicked, the pair it was about was told instead. */
  ghost predicate AsAsked(s: State, h: Inbox, p: (Id, Id)) {
    var d, start := HandleAll(s, h), p in Linked(s.links);
    && d.told[p] + (if p in Linked(d.links) then 1 else 0)
         == s.told[p] + Closings(h, p, start) + (if Live(h, p, start) then 1 else 0)
    && d.cut[p] == s.cut[p] + Withdrawn(h, p, start) && d.made[p] == s.made[p] + Asked(h, p, start)
    && (!d.panicked ==> (p in Linked(d.links) <==> Live(h, p, start)))
  }

  /** Whether p is to be linked after one message. */
  function LiveAfter(i: Input, p: (Id, Id), was: bool): bool {
    if i == NotifyRemote(p.0, p.1) then true
    else if i == UnnotifyRemote(p.0, p.1) || i == RemoteMailboxClosed(p.0) then false
    else was
  }

  function One(b: bool): nat { if b then 1 else 0 }

  /** One message, as the requests have it. */
  ghost predicate OneAsAsked(d: State, i: Input, d': State, p: (Id, Id)) {
    var was, live := p in Linked(d.links), LiveAfter(i, p, p in Linked(d.links));
    && d'.told[p] + One(p in Linked(d'.links)) == d.told[p] + One(i == RemoteMailboxClosed(p.0) && was) + One(live)
    && d'.cut[p] == d.cut[p] + One(i == UnnotifyRemote(p.0, p.1) && was)
    && d'.made[p] == d.made[p] + One(i == NotifyRemote(p.0, p.1) && !was)
    && (!d'.panicked ==> (p in Linked(d'.links) <==> live))
  }

  lemma StepAsAsked(d: State, i: Input, ok: bool, p: (Id, Id))
    requires !d.panicked
    ensures OneAsAsked(d, i, Handle(d, i, ok), p)
  {
    match i
    case NotifyRemote(r, l) =>
      if ok || LinkedTo(d.links, r) != {} { NotifyLinks(d, r, l, ok); } else { FailedNotifyTells(d, r, l); }
    case UnnotifyRemote(r, l) => UnnotifyUnlinks(d, r, l, ok);
    case RemoteMailboxClosed(r) => ClosingTells(d, r);
    case _ =>
  }

  /** What the last message adds to the requests. */
  lemma RequestsGrow(h: Inbox, p: (Id, Id), start: bool)
    requires h != []
    ensures var before, i := h[..|h| - 1], h[|h| - 1].0;
      var was := Live(before, p, start);
      && Live(h, p, start) == LiveAfter(i, p, was)
      && Asked(h, p, start) == Asked(before, p, start) + One(i == NotifyRemote(p.0, p.1) && !was)
      && Withdrawn(h, p, start) == Withdrawn(before, p, start) + One(i == UnnotifyRemote(p.0, p.1) && was)
      && Closings(h, p, start) == Closings(before, p, start) + One(i == RemoteMailboxClosed(p.0) && was)
  {
  }

  lemma {:induction false} RunIsAsAsked(s: State, h: Inbox, p: (Id, Id))
    requires PanicsAtMostLast(s, h)
    ensures AsAsked(s, h, p)
  {
    if h != [] {
      var n, i := |h| - 1, h[|h| - 1].0;
      var before := h[..n];
      assert forall k :: 0 <= k < n ==> before[..k] == h[..k];
      RunIsAsAsked(s, before, p);
      assert !HandleAll(s, before).panicked;
      StepAsAsked(HandleAll(s, before), i, h[n].1, p);
      HandleLast(s, before, h[n]);
      assert h == before + [h[n]];
      RequestsGrow(h, p, p in Linked(s.links));
      OneMore(s, h, p);
    }
  }

  lemma OneMore(s: State, h: Inbox, p: (Id, Id))
    requires h != [] && AsAsked(s, h[..|h| - 1], p) && !HandleAll(s, h[..|h| - 1]).panicked
    requires OneAsAsked(HandleAll(s, h[..|h| - 1]), h[|h| - 1].0, HandleAll(s, h), p)
    ensures AsAsked(s, h, p)
  {
    RequestsGrow(h, p, p in Linked(s.links));
  }

  /** However Serve ends, for every pair, by the requests alone: it is told once
      for each closing of its mailbox while it was linked, and once more if it
      was linked, or its link failed, at the end; and each time it was asked for
      it was told or withdrawn, once. */
  lemma ServeTellsAsAsked(s: State, inbox: Inbox, p: (Id, Id))
    requires !s.panicked && Linked(s.links) == {}
    ensures var h, end := Handled(s, inbox), Flush(Dispatch(s, inbox));
      && end.told[p] == s.told[p] + Closings(h, p, false) + (if Live(h, p, false) then 1 else 0)
      && end.told[p] - s.told[p] + Withdrawn(h, p, false) == Asked(h, p, false)
      && end.links == map[]
  {
    var h := Handled(s, inbox);
    DispatchHandles(s, inbox);
    HandledUntilPanic(s, inbox);
    RunIsAsAsked(s, h, p);
    AskedAddsUp(h, p, false);
  }

  ghost predicate TellsAsAsked(s: State, inbox: Inbox, end: State) {
    var h := Handled(s, inbox);
    forall p :: end.told[p] == s.told[p] + Closings(h, p, false) + One(Live(h, p, false))
  }

  lemma ServeTellsAllAsAsked(s: State, inbox: Inbox)
    requires !s.panicked && Linked(s.links) == {}
    ensures TellsAsAsked(s, inbox, Flush(Dispatch(s, inbox)))
  {
    forall p {
      ServeTellsAsAsked(s, inbox, p);
    }
  }

  lemma {:induction false} WithdrawnStays(h: Inbox, p: (Id, Id), start: bool, k: nat)
    requires k <= |h| && !Live(h[..k], p, start)
    requires forall j :: k <= j < |h| ==> h[j].0 != NotifyRemote(p.0, p.1)
    ensures !Live(h, p, start) && Closings(h, p, start) == Closings(h[..k], p, start)
  {
    if k == |h| {
      assert h[..k] == h;
    } else {
      var n := |h| - 1;
      assert h[..n][..k] == h[..k];
      WithdrawnStays(h[..n], p, start, k);
    }
  }

  /** Who withdrew, and did not ask again, is told of no closing after that. */
  lemma NotToldAfterWithdrawal(s: State, inbox: Inbox, p: (Id, Id), k: nat)
    requires !s.panicked && Linked(s.links) == {}
    requires k < |Handled(s, inbox)| && Handled(s, inbox)[k].0 == UnnotifyRemote(p.0, p.1)
    requires forall j :: k < j < |Handled(s, inbox)| ==> Handled(s, inbox)[j].0 != NotifyRemote(p.0, p.1)
    ensures Flush(Dispatch(s, inbox)).told[p] == s.told[p] + Closings(Handled(s, inbox)[..k], p, false)
  {
    var h := Handled(s, inbox);
    assert h[..k + 1][..k] == h[..k];
    WithdrawnStays(h, p, false, k + 1);
    ServeTellsAsAsked(s, inbox, p);
  }
}
