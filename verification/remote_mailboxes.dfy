/** The remoteMailboxes object: the dispatch loop of Serve over the link table
    it updates in place (remoteMailboxes.go:157-363). */
module RemoteMailboxes {
  import opened LinkTable
  import opened LinkRequests

  /** The pairs already told, with those of r, which is no longer among the remaining ones. */
  ghost function WithLinksOf(done: set<(Id, Id)>, links: Links, rest: set<Id>, r: Id): (more: set<(Id, Id)>)
    requires r in links && r !in rest
    requires forall p :: p in done <==> p.0 !in rest + {r} && IsLinked(links, p)
    ensures forall p :: p in more <==> p.0 !in rest && IsLinked(links, p)
    ensures multiset(more) == multiset(done) + multiset(set l | l in links[r] :: (r, l))
  {
    var own := set l | l in links[r] :: (r, l);
    assert forall p :: p in own <==> p.0 == r && IsLinked(links, p);
    assert done !! own;
    done + own
  }

  class Manager {
    var linksToRemote: Links
    var log: seq<Entry>              // put on the wire, and close notices acted on
    var told: seq<(Id, Id)>          // MailboxClosed(remote) sent to local, in order
    var panicked: bool
    ghost var made: multiset<(Id, Id)>
    ghost var cut: multiset<(Id, Id)>

    ghost function View(): State
      reads this
    {
      State(linksToRemote, log, multiset(told), made, cut, panicked)
    }

    constructor ()
      ensures View() == EMPTY
    {
      linksToRemote, log, told, panicked := map[], [], [], false;
      made, cut := multiset{}, multiset{};
    }

    /** send (120-151): `ok` is the outcome the connection gives it. */
    method Send(w: Wire, ok: bool)
      modifies this`log
      ensures View() == Emit(old(View()), w, ok)
    {
      if ok {
        log := log + [Sent(w)];
      }
    }

    /** The local address is sent MailboxClosed(remote). */
    method Tell(remote: Id, local: Id)
      modifies this`told
      ensures told == old(told) + [(remote, local)]
      ensures multiset(told) == multiset(old(told)) + multiset{(remote, local)}
    {
      told := told + [(remote, local)];
    }

    method NotifyRemote(remote: Id, local: Id, ok: bool)
      modifies this
      ensures View() == AfterNotify(old(View()), remote, local, ok)
    {
      var links := {};
      if remote in linksToRemote {
        links := linksToRemote[remote];
        if local in links {
          return;
        }
      } else {
        linksToRemote := linksToRemote[remote := {}];
      }
      made := made + multiset{(remote, local)};
      if links == {} {
        Send(Subscribe(remote), ok);
        if !ok {
          Tell(remote, local);
          panicked := true;
          assert linksToRemote == old(linksToRemote)[remote := {}];
          return;
        }
      }
      linksToRemote := linksToRemote[remote := links + {local}];
      assert linksToRemote == old(linksToRemote)[remote := links + {local}];
      assert {} + {local} == {local};
    }

    method UnnotifyRemote(remote: Id, local: Id, ok: bool)
      modifies this
      ensures View() == AfterUnnotify(old(View()), remote, local, ok)
      ensures Linked(linksToRemote) == old(Linked(linksToRemote)) - {(remote, local)} && told == old(told)
    {
      UnnotifyUnlinks(View(), remote, local, ok);
      if remote !in linksToRemote || linksToRemote[remote] == {} {
        return;
      }
      if local in linksToRemote[remote] {
        cut := cut + multiset{(remote, local)};
      }
      linksToRemote := linksToRemote[remote := linksToRemote[remote] - {local}];
      if linksToRemote[remote] == {} {
        Send(Unsubscribe(remote), ok);
      }
    }

    /** The loop over the local mailboxes linked to one remote mailbox. */
    method TellAll(remote: Id, locals: set<Id>)
      modifies this`told
      ensures multiset(told) == multiset(old(told)) + multiset(set l | l in locals :: (remote, l))
    {
      var rest := locals;
      ghost var done: set<(Id, Id)> := {};
      while rest != {}
        invariant rest <= locals
        invariant done == set l | l in locals - rest :: (remote, l)
        invariant multiset(told) == multiset(old(told)) + multiset(done)
        decreases |rest|
      {
        var l :| l in rest;
        Tell(remote, l);
        rest := rest - {l};
        assert (remote, l) !in done;
        done := done + {(remote, l)};
      }
      assert done == set l | l in locals :: (remote, l);
    }

    method RemoteMailboxClosed(remote: Id)
      modifies this
      ensures View() == AfterRemoteClosed(old(View()), remote)
    {
      if remote !in linksToRemote || linksToRemote[remote] == {} {
        return;
      }
      TellAll(remote, linksToRemote[remote]);
      log := log + [Heard(remote)];
      linksToRemote := linksToRemote - {remote};
    }

    /** The loop of the deferred function (159-167). */
    method TellEveryLink(links: Links)
      modifies this`told
      ensures multiset(told) == multiset(old(told)) + multiset(Linked(links))
    {
      var rest := links.Keys;
      ghost var done: set<(Id, Id)> := {};
      while rest != {}
        invariant rest <= links.Keys
        invariant forall p :: p in done <==> p.0 !in rest && IsLinked(links, p)
        invariant multiset(told) == multiset(old(told)) + multiset(done)
        decreases |rest|
      {
        var r :| r in rest;
        TellAll(r, links[r]);
        rest := rest - {r};
        done := WithLinksOf(done, links, rest, r);
      }
      assert done == Linked(links) by {
        assert forall p :: p in Linked(links) <==> IsLinked(links, p);
      }
    }

    /** The deferred function (158-169). */
    method Flush()
      modifies this`told, this`linksToRemote
      ensures View() == LinkTable.Flush(old(View()))
    {
      TellEveryLink(linksToRemote);
      linksToRemote := map[];
    }

    /** One turn of the dispatch switch. */
    method Process(msg: Input, ok: bool)
      requires !Stops(msg)
      modifies this
      ensures View() == Handle(old(View()), msg, ok)
      ensures msg.NotifyRemote? && ok ==>
                Linked(linksToRemote) == old(Linked(linksToRemote)) + {(msg.remote, msg.local)}
      ensures msg.UnnotifyRemote? ==>
                Linked(linksToRemote) == old(Linked(linksToRemote)) - {(msg.remote, msg.local)}
    {
      if msg.NotifyRemote? && ok {
        NotifyLinks(View(), msg.remote, msg.local, ok);
      }
      match msg {
        case NotifyRemote(r, l) => NotifyRemote(r, l, ok);
        case UnnotifyRemote(r, l) => UnnotifyRemote(r, l, ok);
        case RemoteMailboxClosed(r) => RemoteMailboxClosed(r);
        case MailboxClosed(l) => Send(Closed(l), ok);
        case OutgoingMessage(r) => Send(Message(r), ok);
      }
    }

    /** Serve: dispatch until a stop, the closing of the manager's own mailbox
        or the panic of a failed subscribe, then run the deferred function. */
    method Serve(inbox: seq<(Input, bool)>)
      modifies this
      ensures View() == LinkTable.Flush(Dispatch(old(View()).(panicked := false), inbox))
      ensures old(Linked(linksToRemote)) == {} ==> TellsAsAsked(old(View()).(panicked := false), inbox, View())
    {
      panicked := false;
      ghost var start := View();
      var i := 0;
      while i < |inbox| && !panicked
        invariant i <= |inbox|
        invariant Dispatch(start, inbox) == if panicked then View() else Dispatch(View(), inbox[i..])
      {
        var (msg, ok) := inbox[i];
        assert inbox[i..][0] == inbox[i] && inbox[i..][1..] == inbox[i + 1..];
        if Stops(msg) {
          break;
        }
        Process(msg, ok);
        i := i + 1;
      }
      Flush();
      if Linked(start.links) == {} {
        ServeTellsAllAsAsked(start, inbox);
      }
    }
  }
}
