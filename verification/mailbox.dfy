/** The Mailbox object (mailbox.go:516-817) between its critical sections: no
    other goroutine holds a message while one of these methods runs. */
module MailboxObject {
  import opened Wrappers
  import opened MailboxSteps
  import opened MailboxAlone

  datatype Received = Empty | Got(m: Message) | ClosedNotice(id: nat)

  /** One pass of ReceiveMatch, with nobody else at work, removes the first match of the queue, if there is one. */
  lemma PassRemovesFirstMatch(c: Contents, p: Matcher)
    requires c.Settled() && !c.shut && c.slot.Some?
    ensures var (after, out) := AfterMatch(c.(slot := None), c.slot.value, p);
      var i := FirstMatch(c.Queue(), p);
      && after.Settled() && !after.shut
      && if i < |c.Queue()| then out == Some(c.Queue()[i]) && after.Queue() == Without(c.Queue(), i)
         else out == None && after == c
  {
    if c.slot.value in p {
      PassTakesHead(c, p);
    } else {
      FirstMatchSkips(c.messages, c.slot.value, p);
    }
  }

  lemma PassTakesHead(c: Contents, p: Matcher)
    requires !c.shut && c.slot.Some? && c.slot.value in p
    ensures var (after, out) := AfterMatch(c.(slot := None), c.slot.value, p);
      && after.Settled() && !after.shut && after.Queue() == Without(c.Queue(), 0)
      && FirstMatch(c.Queue(), p) == 0 && out == Some(c.Queue()[0])
  {
    var rest := c.messages;
    assert c.Queue() == [c.slot.value] + rest;
    assert Without(c.Queue(), 0) == rest;
    assert Drained(c.(slot := None)) == rest;
    assert AfterRefill(Contents(None, false, rest)).Queue() == rest by {
      if rest != [] {
        assert rest == [rest[0]] + rest[1..];
      }
    }
  }

  class Mailbox {
    const id: nat
    var nextMessage: Option<Message>       // the channel's buffer
    var channelClosed: bool
    var messages: seq<Message>
    var notificationAddresses: set<nat>
    var closed: bool

    function Inner(): Contents
      reads this
    {
      Contents(nextMessage, channelClosed, messages)
    }

    ghost predicate Valid()
      reads this
    {
      && Inner().Settled()
      && (closed <==> channelClosed)
      && (closed ==> messages == [] && notificationAddresses == {})
    }

    constructor (id: nat)
      ensures Valid() && this.id == id && !closed && Inner().Queue() == [] && notificationAddresses == {}
    {
      this.id := id;
      nextMessage, channelClosed, messages, notificationAddresses, closed := None, false, [], {}, false;
    }

    /** send (527-545). */
    method Send(m: Message) returns (ok: bool)
      requires Valid()
      modifies this`nextMessage, this`messages
      ensures Valid()
      ensures ok <==> !closed
      ensures Inner() == AfterSend(old(Inner()), m)
      ensures Inner().Queue() == old(Inner().Queue()) + if ok then [m] else []
    {
      if nextMessage.Some? {
        var prevMsg := nextMessage;
        nextMessage := None;
        messages := messages + [m];
        nextMessage := prevMsg;
        ok := true;
      } else if channelClosed {
        ok := false;
      } else {
        messages := messages + [m];
        nextMessage := Some(messages[0]);
        messages := messages[1..];
        ok := true;
      }
    }

    /** The refill that ends Receive and ReceiveAsync (645-651, 677-683). */
    method Refill()
      requires closed <==> channelClosed
      requires channelClosed ==> messages == [] && nextMessage.None?
      modifies this`nextMessage, this`messages
      ensures Inner() == AfterRefill(old(Inner())) && Inner().Queue() == old(Inner().Queue())
    {
      if |messages| > 0 {
        if nextMessage.None? {
          nextMessage := Some(messages[0]);
          messages := messages[1..];
        }
      }
    }

    /** ReceiveAsync (659-686); Receive is the same once a message or a Close is there to receive. */
    method ReceiveAsync() returns (r: Received)
      requires Valid()
      modifies this`nextMessage, this`messages
      ensures Valid()
      ensures closed ==> r == ClosedNotice(id) && Inner() == old(Inner())
      ensures !closed && old(Inner().Queue()) == [] ==> r == Empty && Inner() == old(Inner())
      ensures !closed && old(Inner().Queue()) != [] ==>
                r == Got(old(Inner().Queue())[0]) && Inner().Queue() == old(Inner().Queue())[1..]
    {
      if nextMessage.Some? {
        var msg := nextMessage.value;
        nextMessage := None;
        Refill();
        r := Got(msg);
      } else if channelClosed {
        r := ClosedNotice(id);
      } else {
        r := Empty;
      }
    }

    /** The search of the slice in ReceiveMatch (757-766). */
    method Scan(p: Matcher) returns (out: Option<Message>)
      modifies this`messages
      ensures var q := old(messages); var k := FirstMatch(q, p);
        if k < |q| then out == Some(q[k]) && messages == Without(q, k) else out == None && messages == q
    {
      var i := 0;
      ghost var all := messages;
      while i < |messages|
        invariant i <= |messages| && messages == all
        invariant FirstMatch(all, p) == i + FirstMatch(all[i..], p)
      {
        if messages[i] in p {
          out := Some(messages[i]);
          messages := messages[..i] + messages[i + 1..];
          return;
        }
        assert all[i..][1..] == all[i + 1..];
        i := i + 1;
      }
      out := None;
    }

    /** The critical section of ReceiveMatch on an open mailbox (722-768). */
    method MatchLocked(msg: Message, p: Matcher) returns (out: Option<Message>)
      requires !channelClosed
      modifies this`nextMessage, this`messages
      ensures (Inner(), out) == AfterMatch(old(Inner()), msg, p)
    {
      if nextMessage.Some? {
        var prevMsg := nextMessage.value;
        nextMessage := None;
        if prevMsg != Nil {
          messages := [prevMsg] + messages;
        }
      }
      if msg in p {
        if |messages| > 0 {
          nextMessage := Some(messages[0]);
          messages := messages[1..];
        }
        return Some(msg);
      }
      nextMessage := Some(msg);
      out := Scan(p);
    }

    /** One pass of the loop of ReceiveMatch, when the channel holds a message (712-769). */
    method MatchPass(p: Matcher) returns (out: Option<Message>)
      requires Valid() && !closed && nextMessage.Some?
      modifies this`nextMessage, this`messages
      ensures Valid()
      ensures var q := old(Inner().Queue()); var i := FirstMatch(q, p);
        if i < |q| then out == Some(q[i]) && Inner().Queue() == Without(q, i)
        else out == None && Inner() == old(Inner())
    {
      PassRemovesFirstMatch(Inner(), p);
      var msg := nextMessage.value;
      nextMessage := None;
      out := MatchLocked(msg, p);
    }

    /** MessageCount (609-618) leaves out the message on the channel, so it is
        the number of messages only when there are none. */
    method MessageCount() returns (n: nat)
      requires Valid()
      ensures closed ==> n == 0
      ensures n == |Inner().Queue()| - (if Inner().Queue() == [] then 0 else 1)
      ensures n == |Inner().Queue()| <==> Inner().Queue() == []
    {
      if !closed {
        return |messages|;
      }
      return 0;
    }

    /** onCloseNotify (559-574): the notice to send at once, if the mailbox is closed. */
    method OnCloseNotify(target: nat) returns (notice: Option<nat>)
      requires Valid()
      modifies this`notificationAddresses
      ensures Valid()
      ensures notice == if closed then Some(id) else None
      ensures notificationAddresses == old(notificationAddresses) + if closed then {} else {target}
    {
      if closed {
        return Some(id);
      }
      notificationAddresses := notificationAddresses + {target};
      notice := None;
    }

    /** removeNotify (597-604). */
    method RemoveNotify(target: nat)
      requires Valid()
      modifies this`notificationAddresses
      ensures Valid() && notificationAddresses == old(notificationAddresses) - {target}
    {
      notificationAddresses := notificationAddresses - {target};
    }

    /** Close (784-817): the notices it sends, one for each watcher. */
    method Close() returns (notices: seq<(nat, nat)>)
      requires Valid()
      modifies this`nextMessage, this`messages, this`channelClosed, this`notificationAddresses, this`closed
      ensures Valid() && closed
      ensures Inner() == AfterClose(old(Inner())) && Inner().Queue() == [] && notificationAddresses == {}
      ensures forall i, j :: 0 <= i < j < |notices| ==> notices[i] != notices[j]
      ensures forall n :: n in notices <==> n.0 in old(notificationAddresses) && n.1 == id
    {
      notices := [];
      if nextMessage.Some? {
        nextMessage := None;
      } else if channelClosed {
        return;
      }
      channelClosed := true;
      closed := true;
      var rest := notificationAddresses;
      while rest != {}
        invariant rest <= notificationAddresses == old(notificationAddresses)
        invariant forall n :: n in notices <==> n.0 in notificationAddresses && n.0 !in rest && n.1 == id
        invariant forall i, j :: 0 <= i < j < |notices| ==> notices[i] != notices[j]
        decreases |rest|
      {
        var w :| w in rest;
        notices := notices + [(w, id)];
        rest := rest - {w};
      }
      notificationAddresses := {};
      messages := [];
    }
  }
}
