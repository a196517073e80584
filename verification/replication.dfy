/** Bringing a newly connected peer up to date with one node's own claims
    (node.go:149-162, 345-416; listener.go:241-254, 351-418; registry.go:305-337,
    366-419, 460-468; remoteMailboxes.go:120-151, 208-232): a snapshot written
    straight to the connection, and updates that pass through the link manager of
    either side, over one uninterrupted connection. */
module Replication {
  import opened Wrappers
  import opened Claims
  import opened Registry
  import opened Replay

  datatype Item = Upd(u: Update) | Snap(claims: Relation)

  datatype Sys = Sys(
    local: Relation,            // the node's own claims
    pending: seq<Update>,       // applied by its registry, not yet handed to toOtherNodes
    known: bool,                // the peer is among the node registries
    connected: bool,            // the link manager has its connection
    snap: Option<Relation>,     // a snapshot generated and not yet encoded
    outQ: seq<Update>,          // the mailbox of the node's link manager
    wire: seq<Item>,            // the connection
    hopQ: seq<Update>,          // the mailbox of the peer's link manager
    regQ: seq<Item>,            // the mailbox of the peer's registry
    peer: Relation,             // the peer's claims for the node
    // history
    us: seq<Update>,            // all updates the node's registry applied
    dropped: nat,               // how many of them were dropped before the connection was up
    taken: Option<nat>,         // how many had been applied when the snapshot was generated
    written: Option<nat>,       // how many were dropped or on their way when it was encoded
    arrived: seq<Item>          // everything that reached the mailbox of the peer's registry
  )

  datatype Event =
    | Local(us: seq<Update>)    // the registry applies a message: one update, or a mailbox's removals
    | Broadcast                 // toOtherNodes, one update
    | AddPeer                   // addNodeRegistry
    | SetConnection
    | Generate                  // generateAllNodeClaims
    | Encode
    | Pump                      // the link manager handles an update
    | Receive                   // the peer decodes from the connection
    | Hop                       // the peer's link manager passes an update to the registry
    | Process                   // the peer's registry handles a message

  function Init(start: Relation): Sys {
    Sys(start, [], false, false, None, [], [], [], [], {}, [], 0, None, None, [])
  }

  function Absorb(r: Relation, x: Item): Relation {
    match x
    case Upd(u) => Apply(r, [u])
    case Snap(claims) => r + claims
  }

  function UpdatesOf(q: seq<Item>): seq<Update> {
    if q == [] then []
    else UpdatesOf(q[..|q| - 1]) + if q[|q| - 1].Upd? then [q[|q| - 1].u] else []
  }

  function AsItems(us: seq<Update>): (q: seq<Item>)
    ensures |q| == |us| && forall i :: 0 <= i < |us| ==> q[i] == Upd(us[i])
  {
    seq(|us|, i requires 0 <= i < |us| => Upd(us[i]))
  }

  /** Everything put on the connection, in one order in which it may reach the peer's registry. */
  function Sent(s: Sys): seq<Item> {
    s.arrived + (AsItems(s.hopQ) + s.wire)
  }

  /** How many of the node's updates were dropped, or have been put on the connection. */
  function Written(s: Sys): nat {
    s.dropped + |UpdatesOf(Sent(s))|
  }

  function Next(s: Sys, e: Event): Option<Sys> {
    match e
    case Local(us) =>
      if s.pending != [] then None
      else Some(s.(local := Apply(s.local, us), pending := us, us := s.us + us))
    case Broadcast =>
      if s.pending == [] then None
      else if s.known then Some(s.(pending := s.pending[1..], outQ := s.outQ + [s.pending[0]]))
      else Some(s.(pending := s.pending[1..], dropped := s.dropped + 1))
    case AddPeer => if s.known then None else Some(s.(known := true))
    case SetConnection => if !s.known || s.connected then None else Some(s.(connected := true))
    case Generate =>
      if !s.connected || s.taken.Some? then None
      else Some(s.(snap := Some(s.local), taken := Some(|s.us|)))
    case Encode =>
      if s.snap.None? then None
      else Some(s.(snap := None, wire := s.wire + [Snap(s.snap.value)], written := Some(Written(s))))
    case Pump =>
      if s.outQ == [] then None
      else if s.connected then Some(s.(outQ := s.outQ[1..], wire := s.wire + [Upd(s.outQ[0])]))
      else Some(s.(outQ := s.outQ[1..], dropped := s.dropped + 1))
    case Receive =>
      if s.wire == [] then None
      else if s.wire[0].Upd? then Some(s.(wire := s.wire[1..], hopQ := s.hopQ + [s.wire[0].u]))
      else Some(s.(wire := s.wire[1..], regQ := s.regQ + [s.wire[0]], arrived := s.arrived + [s.wire[0]]))
    case Hop =>
      if s.hopQ == [] then None
      else Some(s.(hopQ := s.hopQ[1..], regQ := s.regQ + [Upd(s.hopQ[0])], arrived := s.arrived + [Upd(s.hopQ[0])]))
    case Process =>
      if s.regQ == [] then None
      else Some(s.(regQ := s.regQ[1..], peer := Absorb(s.peer, s.regQ[0])))
  }

  function Run(start: Relation, es: seq<Event>): Option<Sys> {
    if es == [] then Some(Init(start))
    else
      match Run(start, es[..|es| - 1])
      case None => None
      case Some(s) => Next(s, es[|es| - 1])
  }

  // ---------------------------------------------------------------- sequences of items

  function AbsorbAll(r: Relation, q: seq<Item>): Relation {
    if q == [] then r else Absorb(AbsorbAll(r, q[..|q| - 1]), q[|q| - 1])
  }

  function SnapsOf(q: seq<Item>): seq<Relation> {
    if q == [] then []
    else SnapsOf(q[..|q| - 1]) + if q[|q| - 1].Snap? then [q[|q| - 1].claims] else []
  }

  lemma {:induction false} ItemsAppend(a: seq<Item>, b: seq<Item>)
    ensures UpdatesOf(a + b) == UpdatesOf(a) + UpdatesOf(b)
    ensures SnapsOf(a + b) == SnapsOf(a) + SnapsOf(b)
  {
    if b == [] {
      assert a + b == a;
    } else {
      assert (a + b)[..|a + b| - 1] == a + b[..|b| - 1];
      ItemsAppend(a, b[..|b| - 1]);
    }
  }

  lemma {:induction false} AbsorbAppend(r: Relation, a: seq<Item>, b: seq<Item>)
    ensures AbsorbAll(r, a + b) == AbsorbAll(AbsorbAll(r, a), b)
  {
    if b == [] {
      assert a + b == a;
    } else {
      assert (a + b)[..|a + b| - 1] == a + b[..|b| - 1];
      AbsorbAppend(r, a, b[..|b| - 1]);
    }
  }

  lemma OneItem(x: Item)
    ensures UpdatesOf([x]) == if x.Upd? then [x.u] else []
    ensures SnapsOf([x]) == if x.Snap? then [x.claims] else []
    ensures forall r :: AbsorbAll(r, [x]) == Absorb(r, x)
  {
    assert [x][..0] == [];
  }

  /** The first item of a queue, taken out. */
  lemma HeadItem(q: seq<Item>)
    requires q != []
    ensures UpdatesOf(q) == (if q[0].Upd? then [q[0].u] else []) + UpdatesOf(q[1..])
    ensures SnapsOf(q) == (if q[0].Snap? then [q[0].claims] else []) + SnapsOf(q[1..])
  {
    assert q == [q[0]] + q[1..];
    OneItem(q[0]);
    ItemsAppend([q[0]], q[1..]);
  }

  /** How many updates come before the first snapshot. */
  function Ahead(q: seq<Item>): nat {
    if q == [] || q[0].Snap? then 0 else 1 + Ahead(q[1..])
  }

  lemma {:induction false} AbsorbUpdates(r: Relation, q: seq<Item>)
    requires SnapsOf(q) == []
    ensures AbsorbAll(r, q) == Apply(r, UpdatesOf(q)) && |UpdatesOf(q)| == |q|
  {
    if q != [] {
      AbsorbUpdates(r, q[..|q| - 1]);
      ApplyAppends(r, UpdatesOf(q[..|q| - 1]), [q[|q| - 1].u]);
    }
  }

  lemma {:induction false} AheadAppend(a: seq<Item>, b: seq<Item>)
    ensures Ahead(a) <= |a| && (SnapsOf(a) == [] ==> Ahead(a) == |a|)
    ensures Ahead(a + b) == if SnapsOf(a) == [] then |a| + Ahead(b) else Ahead(a)
  {
    if a == [] {
      assert a + b == b;
    } else {
      assert (a + b)[1..] == a[1..] + b;
      HeadItem(a);
      AheadAppend(a[1..], b);
    }
  }

  /** A stream with one snapshot in it: updates, the snapshot, updates. */
  lemma {:induction false} SplitAtSnap(q: seq<Item>, claims: Relation)
    requires SnapsOf(q) == [claims]
    ensures Ahead(q) < |q| && q[Ahead(q)] == Snap(claims)
    ensures SnapsOf(q[..Ahead(q)]) == [] && SnapsOf(q[Ahead(q) + 1..]) == []
  {
    HeadItem(q);
    if q[0].Snap? {
      assert SnapsOf(q)[0] == q[0].claims;
      assert SnapsOf(q[1..]) == SnapsOf(q)[1..];
      assert q[..0] == [];
    } else {
      assert SnapsOf(q[1..]) == SnapsOf(q);
      SplitAtSnap(q[1..], claims);
      var k := Ahead(q);
      assert q[1..][..k - 1] == q[1..k] && q[1..][k..] == q[k + 1..];
      assert q[..k][1..] == q[1..k];
      HeadItem(q[..k]);
    }
  }

  lemma AbsorbBoth(r: Relation, a: seq<Item>, b: seq<Item>)
    requires SnapsOf(b) == []
    ensures AbsorbAll(r, a + b) == Apply(AbsorbAll(r, a), UpdatesOf(b))
  {
    AbsorbAppend(r, a, b);
    AbsorbUpdates(AbsorbAll(r, a), b);
  }

  lemma AbsorbSnap(r: Relation, a: seq<Item>, snap: Relation)
    requires SnapsOf(a) == []
    ensures AbsorbAll(r, a + [Snap(snap)]) == Apply(r, UpdatesOf(a)) + snap
  {
    AbsorbAppend(r, a, [Snap(snap)]);
    AbsorbUpdates(r, a);
    OneItem(Snap(snap));
  }

  lemma UpdatesAround(a: seq<Item>, x: Item, b: seq<Item>)
    requires x.Snap?
    ensures UpdatesOf(a + [x] + b) == UpdatesOf(a) + UpdatesOf(b)
  {
    OneItem(x);
    ItemsAppend(a, [x]);
    var most := a + [x];
    ItemsAppend(most, b);
  }

  lemma AbsorbAround(r: Relation, before: seq<Item>, snap: Relation, after: seq<Item>)
    requires SnapsOf(before) == [] && SnapsOf(after) == []
    ensures AbsorbAll(r, before + [Snap(snap)] + after) == Apply(Apply(r, UpdatesOf(before)) + snap, UpdatesOf(after))
  {
    AbsorbSnap(r, before, snap);
    var most := before + [Snap(snap)];
    AbsorbBoth(r, most, after);
  }

  /** What a stream does to a peer without claims is what Replay.Delivered says. */
  lemma StreamDelivers(q: seq<Item>, start: Relation, us: seq<Update>, d: nat, g: nat)
    requires d <= |us| && g <= |us|
    requires UpdatesOf(q) == us[d..] && SnapsOf(q) == [Apply(start, us[..g])]
    ensures d + Ahead(q) <= |us|
    ensures AbsorbAll({}, q) == Delivered(start, us, d, g, d + Ahead(q))
  {
    var snap, k := Apply(start, us[..g]), Ahead(q);
    var before, after := SplitStream(q, snap);
    var a, b := UpdatesOf(before), UpdatesOf(after);
    assert UpdatesOf(q) == a + b by { UpdatesAround(before, Snap(snap), after); }
    assert AbsorbAll({}, q) == Apply(Apply({}, a) + snap, b) by { AbsorbAround({}, before, snap, after); }
    DeliveredParts(start, us, d, g, k, a, b);
  }

  lemma DeliveredParts(start: Relation, us: seq<Update>, d: nat, g: nat, k: nat, a: seq<Update>, b: seq<Update>)
    requires d <= |us| && g <= |us| && us[d..] == a + b && |a| == k
    ensures d + k <= |us| && Delivered(start, us, d, g, d + k) == Apply(Apply({}, a) + Apply(start, us[..g]), b)
  {
    SplitUpdates(us, d, k, a, b);
  }

  lemma SplitStream(q: seq<Item>, snap: Relation) returns (before: seq<Item>, after: seq<Item>)
    requires SnapsOf(q) == [snap]
    ensures q == before + [Snap(snap)] + after && |before| == Ahead(q) == |UpdatesOf(before)|
    ensures SnapsOf(before) == [] && SnapsOf(after) == []
  {
    SplitAtSnap(q, snap);
    before, after := q[..Ahead(q)], q[Ahead(q) + 1..];
    AbsorbUpdates({}, before);
  }

  lemma SplitUpdates(us: seq<Update>, d: nat, k: nat, a: seq<Update>, b: seq<Update>)
    requires d <= |us| && us[d..] == a + b && |a| == k
    ensures d + k <= |us| && us[d..d + k] == a && us[d + k..] == b
  {
    assert us[d..d + k] == us[d..][..k] && us[d + k..] == us[d..][k..];
  }

  // ---------------------------------------------------------------- the invariant

  /** What is sent and what is still to be handed over make up the updates not dropped. */
  ghost predicate UpdatesAt(sent: seq<Item>, rest: seq<Update>, us: seq<Update>, dropped: nat) {
    dropped <= |us| && UpdatesOf(sent) + rest == us[dropped..]
  }

  ghost predicate UpdatesInv(s: Sys) {
    && UpdatesAt(Sent(s), s.outQ + s.pending, s.us, s.dropped)
    && (!s.known ==> s.outQ == [] && !s.connected)
    && (!s.connected ==> s.wire == [] && s.hopQ == [] && s.arrived == [])
  }

  /** There is at most one snapshot; it was taken when no more updates would be
      dropped, and not more updates are ahead of it than when it was written. */
  ghost predicate SnapAt(sent: seq<Item>, snap: Option<Relation>, taken: Option<nat>, written: Option<nat>,
                         us: seq<Update>, dropped: nat, start: Relation) {
    && (taken.Some? ==> dropped <= taken.value <= |us|)
    && SnapsOf(sent) + (if snap.Some? then [snap.value] else [])
         == (if taken.Some? && taken.value <= |us| then [Apply(start, us[..taken.value])] else [])
    && (written.Some? <==> taken.Some? && snap.None?)
    && (written.Some? ==> dropped + Ahead(sent) <= written.value)
  }

  ghost predicate SnapInv(s: Sys, start: Relation) {
    (s.taken.Some? ==> s.connected) && SnapAt(Sent(s), s.snap, s.taken, s.written, s.us, s.dropped, start)
  }

  ghost predicate PeerInv(arrived: seq<Item>, regQ: seq<Item>, peer: Relation) {
    && |regQ| <= |arrived| && regQ == arrived[|arrived| - |regQ|..]
    && peer == AbsorbAll({}, arrived[..|arrived| - |regQ|])
  }

  ghost predicate Inv(s: Sys, start: Relation) {
    && s.local == Apply(start, s.us)
    && UpdatesInv(s) && SnapInv(s, start) && PeerInv(s.arrived, s.regQ, s.peer)
  }

  // what a step does to all that was sent

  lemma SentBySending(s: Sys, e: Event)
    requires Next(s, e).Some? && (e.Encode? || (e.Pump? && s.connected))
    ensures Sent(Next(s, e).value) == Sent(s) + [if e.Encode? then Snap(s.snap.value) else Upd(s.outQ[0])]
  {
  }

  lemma SentByHop(s: Sys)
    requires s.hopQ != []
    ensures Sent(Next(s, Hop).value) == Sent(s)
  {
    var x, h := Upd(s.hopQ[0]), AsItems(s.hopQ[1..]);
    assert AsItems(s.hopQ) == [x] + h;
    assert s.arrived + [x] + (h + s.wire) == s.arrived + ([x] + h + s.wire);
  }

  lemma SentByReceivingUpdate(s: Sys)
    requires s.wire != [] && s.wire[0].Upd?
    ensures Sent(Next(s, Receive).value) == Sent(s)
  {
    var hop, hop' := AsItems(s.hopQ), AsItems(s.hopQ + [s.wire[0].u]);
    assert hop' == hop + [s.wire[0]];
    assert hop' + s.wire[1..] == hop + s.wire;
  }

  lemma SentByReceivingSnap(s: Sys)
    requires s.wire != [] && s.wire[0].Snap?
    ensures var hop, x, rest := AsItems(s.hopQ), s.wire[0], s.wire[1..];
      && Sent(s) == s.arrived + (hop + ([x] + rest))
      && Sent(Next(s, Receive).value) == s.arrived + ([x] + (hop + rest))
  {
    assert s.wire == [s.wire[0]] + s.wire[1..];
  }

  lemma {:induction false} UpdatesOnly(us: seq<Update>)
    ensures UpdatesOf(AsItems(us)) == us && SnapsOf(AsItems(us)) == []
  {
    if us != [] {
      UpdatesOnly(us[..|us| - 1]);
      assert AsItems(us)[..|us| - 1] == AsItems(us[..|us| - 1]);
    }
  }

  lemma FourParts(a: seq<Item>, b: seq<Item>, c: seq<Item>, d: seq<Item>)
    ensures UpdatesOf(a + (b + (c + d))) == UpdatesOf(a) + (UpdatesOf(b) + (UpdatesOf(c) + UpdatesOf(d)))
    ensures SnapsOf(a + (b + (c + d))) == SnapsOf(a) + (SnapsOf(b) + (SnapsOf(c) + SnapsOf(d)))
  {
    var y := c + d;
    ItemsAppend(c, d);
    var x := b + y;
    ItemsAppend(b, y);
    ItemsAppend(a, x);
  }

  /** Moving updates behind a snapshot. */
  lemma AheadShrinks(a: seq<Item>, hop: seq<Item>, x: Item, rest: seq<Item>)
    requires x.Snap?
    ensures Ahead(a + ([x] + (hop + rest))) <= Ahead(a + (hop + ([x] + rest)))
  {
    var p, q := [x] + (hop + rest), hop + ([x] + rest);
    assert p[0] == x;
    AheadAppend(a, p);
    AheadAppend(a, q);
  }

  /** A snapshot goes straight to the registry, past the updates in the peer's link manager. */
  lemma SnapOvertakes(a: seq<Item>, hop: seq<Item>, x: Item, rest: seq<Item>)
    requires x.Snap? && SnapsOf(hop) == []
    ensures var q, q' := a + (hop + ([x] + rest)), a + ([x] + (hop + rest));
      UpdatesOf(q') == UpdatesOf(q) && SnapsOf(q') == SnapsOf(q) && Ahead(q') <= Ahead(q)
  {
    OneItem(x);
    FourParts(a, hop, [x], rest);
    FourParts(a, [x], hop, rest);
    SwapMiddle(UpdatesOf(a), UpdatesOf(hop), [], UpdatesOf(rest));
    SwapMiddle(SnapsOf(a), [], SnapsOf([x]), SnapsOf(rest));
    AheadShrinks(a, hop, x, rest);
  }

  lemma SwapMiddle<T>(a: seq<T>, b: seq<T>, c: seq<T>, d: seq<T>)
    requires b == [] || c == []
    ensures a + (b + (c + d)) == a + (c + (b + d))
  {
    assert b + c == c + b;
    assert b + (c + d) == c + (b + d);
  }

  lemma SentSame(s: Sys, e: Event)
    requires Next(s, e).Some? && !e.Encode? && (e.Pump? ==> !s.connected)
    ensures var q, q' := Sent(s), Sent(Next(s, e).value);
      UpdatesOf(q') == UpdatesOf(q) && SnapsOf(q') == SnapsOf(q) && Ahead(q') <= Ahead(q)
  {
    match e
    case Hop => SentByHop(s);
    case Receive =>
      if s.wire[0].Upd? {
        SentByReceivingUpdate(s);
      } else {
        SentByReceivingSnap(s);
        UpdatesOnly(s.hopQ);
        SnapOvertakes(s.arrived, AsItems(s.hopQ), s.wire[0], s.wire[1..]);
      }
    case _ =>
  }

  lemma UpdatesAtAfter(sent: seq<Item>, x: Item, rest: seq<Update>, us: seq<Update>, dropped: nat)
    requires UpdatesAt(sent, if x.Upd? then [x.u] + rest else rest, us, dropped)
    ensures UpdatesAt(sent + [x], rest, us, dropped)
  {
    ItemsAppend(sent, [x]);
    OneItem(x);
  }

  lemma DropKeepsUpdates(rest: seq<Update>, us: seq<Update>, dropped: nat)
    requires UpdatesAt([], rest, us, dropped) && rest != []
    ensures UpdatesAt([], rest[1..], us, dropped + 1)
  {
    assert us[dropped..] == rest;
    assert us[dropped..][1..] == us[dropped + 1..];
  }

  lemma LocalKeepsUpdates(s: Sys, us: seq<Update>)
    requires UpdatesInv(s) && s.pending == []
    ensures UpdatesInv(Next(s, Local(us)).value)
  {
    assert (s.us + us)[s.dropped..] == s.us[s.dropped..] + us;
    assert s.outQ + us == s.outQ + s.pending + us;
  }

  lemma BroadcastKeepsUpdates(s: Sys)
    requires UpdatesInv(s) && s.pending != []
    ensures UpdatesInv(Next(s, Broadcast).value)
  {
    if s.known {
      assert s.outQ + [s.pending[0]] + s.pending[1..] == s.outQ + s.pending;
    } else {
      assert s.outQ + s.pending == s.pending && Sent(s) == [];
      DropKeepsUpdates(s.pending, s.us, s.dropped);
    }
  }

  lemma EncodeKeepsUpdates(s: Sys)
    requires UpdatesInv(s) && s.snap.Some? && s.connected
    ensures UpdatesInv(Next(s, Encode).value)
  {
    SentBySending(s, Encode);
    UpdatesAtAfter(Sent(s), Snap(s.snap.value), s.outQ + s.pending, s.us, s.dropped);
  }

  lemma PumpKeepsUpdates(s: Sys)
    requires UpdatesInv(s) && s.outQ != []
    ensures UpdatesInv(Next(s, Pump).value)
  {
    var rest := s.outQ[1..] + s.pending;
    assert s.outQ + s.pending == [s.outQ[0]] + rest;
    if s.connected {
      SentBySending(s, Pump);
      UpdatesAtAfter(Sent(s), Upd(s.outQ[0]), rest, s.us, s.dropped);
    } else {
      assert Sent(s) == [] && (s.outQ + s.pending)[1..] == rest;
      DropKeepsUpdates(s.outQ + s.pending, s.us, s.dropped);
    }
  }

  lemma StepKeepsUpdates(s: Sys, e: Event)
    requires UpdatesInv(s) && Next(s, e).Some?
    requires s.snap.Some? ==> s.connected
    ensures UpdatesInv(Next(s, e).value)
  {
    match e
    case Local(us) => LocalKeepsUpdates(s, us);
    case Broadcast => BroadcastKeepsUpdates(s);
    case Encode => EncodeKeepsUpdates(s);
    case Pump => PumpKeepsUpdates(s);
    case _ => SentSame(s, e);
  }

  lemma ArrivalKeepsPeer(arrived: seq<Item>, regQ: seq<Item>, peer: Relation, x: Item)
    requires PeerInv(arrived, regQ, peer)
    ensures PeerInv(arrived + [x], regQ + [x], peer)
  {
    var n := |arrived| - |regQ|;
    assert (arrived + [x])[..n] == arrived[..n];
    assert (arrived + [x])[n..] == arrived[n..] + [x];
  }

  lemma ProcessKeepsPeer(arrived: seq<Item>, regQ: seq<Item>, peer: Relation)
    requires PeerInv(arrived, regQ, peer) && regQ != []
    ensures PeerInv(arrived, regQ[1..], Absorb(peer, regQ[0]))
  {
    var n := |arrived| - |regQ|;
    assert arrived[..n + 1] == arrived[..n] + [regQ[0]];
    AbsorbAppend({}, arrived[..n], [regQ[0]]);
    OneItem(regQ[0]);
    assert arrived[n..][1..] == arrived[n + 1..];
  }

  lemma StepKeepsPeer(s: Sys, e: Event)
    requires PeerInv(s.arrived, s.regQ, s.peer) && Next(s, e).Some?
    ensures var s' := Next(s, e).value; PeerInv(s'.arrived, s'.regQ, s'.peer)
  {
    match e
    case Process => ProcessKeepsPeer(s.arrived, s.regQ, s.peer);
    case Receive => ArrivalKeepsPeer(s.arrived, s.regQ, s.peer, s.wire[0]);
    case Hop => ArrivalKeepsPeer(s.arrived, s.regQ, s.peer, Upd(s.hopQ[0]));
    case _ =>
  }

  lemma SnapAtAfterUpdate(q: seq<Item>, u: Update, snap: Option<Relation>, taken: Option<nat>, written: Option<nat>,
                          us: seq<Update>, dropped: nat, start: Relation)
    requires SnapAt(q, snap, taken, written, us, dropped, start)
    ensures SnapAt(q + [Upd(u)], snap, taken, written, us, dropped, start)
  {
    ItemsAppend(q, [Upd(u)]);
    OneItem(Upd(u));
    AheadAppend(q, [Upd(u)]);
  }

  lemma SnapAtAfterSnap(q: seq<Item>, claims: Relation, taken: Option<nat>, us: seq<Update>, dropped: nat,
                        start: Relation)
    requires SnapAt(q, Some(claims), taken, None, us, dropped, start)
    ensures SnapAt(q + [Snap(claims)], None, taken, Some(dropped + |UpdatesOf(q)|), us, dropped, start)
  {
    assert |SnapsOf(q)| == 0 && taken.Some?;
    ItemsAppend(q, [Snap(claims)]);
    OneItem(Snap(claims));
    AheadAppend(q, [Snap(claims)]);
    AbsorbUpdates({}, q);
  }

  lemma SnapAtGrows(q: seq<Item>, snap: Option<Relation>, taken: Option<nat>, written: Option<nat>,
                    us: seq<Update>, more: seq<Update>, dropped: nat, start: Relation)
    requires SnapAt(q, snap, taken, written, us, dropped, start)
    ensures SnapAt(q, snap, taken, written, us + more, dropped, start)
  {
    if taken.Some? {
      assert (us + more)[..taken.value] == us[..taken.value];
    }
  }

  lemma EncodeKeepsSnap(s: Sys, start: Relation)
    requires SnapInv(s, start) && s.snap.Some?
    ensures SnapInv(Next(s, Encode).value, start)
  {
    SentBySending(s, Encode);
    SnapAtAfterSnap(Sent(s), s.snap.value, s.taken, s.us, s.dropped, start);
  }

  lemma PumpKeepsSnap(s: Sys, start: Relation)
    requires SnapInv(s, start) && s.outQ != []
    ensures SnapInv(Next(s, Pump).value, start)
  {
    if s.connected {
      SentBySending(s, Pump);
      SnapAtAfterUpdate(Sent(s), s.outQ[0], s.snap, s.taken, s.written, s.us, s.dropped, start);
    } else {
      SentSame(s, Pump);
    }
  }

  lemma GenerateKeepsSnap(s: Sys, start: Relation)
    requires s.local == Apply(start, s.us) && UpdatesInv(s) && SnapInv(s, start) && Next(s, Generate).Some?
    ensures SnapInv(Next(s, Generate).value, start)
  {
    assert s.us[..|s.us|] == s.us;
    assert Sent(Next(s, Generate).value) == Sent(s);
  }

  lemma LocalKeepsSnap(s: Sys, us: seq<Update>, start: Relation)
    requires SnapInv(s, start) && s.pending == []
    ensures SnapInv(Next(s, Local(us)).value, start)
  {
    SnapAtGrows(Sent(s), s.snap, s.taken, s.written, s.us, us, s.dropped, start);
    assert Sent(Next(s, Local(us)).value) == Sent(s);
  }

  lemma SnapAtFor(q: seq<Item>, q': seq<Item>, snap: Option<Relation>, taken: Option<nat>, written: Option<nat>,
                  us: seq<Update>, dropped: nat, start: Relation)
    requires SnapAt(q, snap, taken, written, us, dropped, start)
    requires SnapsOf(q') == SnapsOf(q) && Ahead(q') <= Ahead(q)
    ensures SnapAt(q', snap, taken, written, us, dropped, start)
  {
  }

  lemma HopKeepsSnap(s: Sys, start: Relation)
    requires SnapInv(s, start) && s.hopQ != []
    ensures SnapInv(Next(s, Hop).value, start)
  {
    SentByHop(s);
  }

  lemma ReceiveKeepsSnap(s: Sys, start: Relation)
    requires SnapInv(s, start) && s.wire != []
    ensures SnapInv(Next(s, Receive).value, start)
  {
    var q, q' := Sent(s), Sent(Next(s, Receive).value);
    if s.wire[0].Upd? {
      SentByReceivingUpdate(s);
    } else {
      assert SnapsOf(q') == SnapsOf(q) && Ahead(q') <= Ahead(q) by { SentSame(s, Receive); }
      SnapAtFor(q, q', s.snap, s.taken, s.written, s.us, s.dropped, start);
    }
  }

  lemma OthersKeepSnap(s: Sys, e: Event, start: Relation)
    requires SnapInv(s, start) && Next(s, e).Some?
    requires e.Broadcast? || e.AddPeer? || e.SetConnection? || e.Process?
    requires !s.known ==> !s.connected
    ensures SnapInv(Next(s, e).value, start)
  {
    assert Sent(Next(s, e).value) == Sent(s);
  }

  lemma StepKeepsSnap(s: Sys, e: Event, start: Relation)
    requires s.local == Apply(start, s.us) && UpdatesInv(s) && SnapInv(s, start) && Next(s, e).Some?
    ensures SnapInv(Next(s, e).value, start)
  {
    match e
    case Local(us) => LocalKeepsSnap(s, us, start);
    case Encode => EncodeKeepsSnap(s, start);
    case Generate => GenerateKeepsSnap(s, start);
    case Pump => PumpKeepsSnap(s, start);
    case Receive => ReceiveKeepsSnap(s, start);
    case Hop => HopKeepsSnap(s, start);
    case _ => OthersKeepSnap(s, e, start);
  }

  lemma StepKeepsInv(s: Sys, e: Event, start: Relation)
    requires Inv(s, start) && Next(s, e).Some?
    ensures Inv(Next(s, e).value, start)
  {
    StepKeepsUpdates(s, e);
    StepKeepsPeer(s, e);
    StepKeepsSnap(s, e, start);
    StepKeepsLocal(s, e, start);
  }

  lemma StepKeepsLocal(s: Sys, e: Event, start: Relation)
    requires s.local == Apply(start, s.us) && Next(s, e).Some?
    ensures Next(s, e).value.local == Apply(start, Next(s, e).value.us)
  {
    if e.Local? {
      ApplyAppends(start, s.us, e.us);
    }
  }

  lemma {:induction false} RunKeepsInv(start: Relation, es: seq<Event>)
    requires Run(start, es).Some?
    ensures Inv(Run(start, es).value, start)
  {
    if es != [] {
      RunKeepsInv(start, es[..|es| - 1]);
      StepKeepsInv(Run(start, es[..|es| - 1]).value, es[|es| - 1], start);
    }
  }

  // ---------------------------------------------------------------- the peer catches up

  /** Everything that will reach the peer's registry, in one order in which it may. */
  function Stream(s: Sys): seq<Item> {
    Sent(s) + AsItems(s.outQ + s.pending)
  }

  /** Where, among all updates, the snapshot takes effect at the peer. */
  function Overtaken(s: Sys): nat {
    s.dropped + Ahead(Stream(s))
  }

  lemma StreamUpdates(s: Sys)
    requires UpdatesInv(s)
    ensures UpdatesOf(Stream(s)) == s.us[s.dropped..]
  {
    UpdatesOnly(s.outQ + s.pending);
    ItemsAppend(Sent(s), AsItems(s.outQ + s.pending));
  }

  lemma StreamSnap(s: Sys, start: Relation)
    requires SnapInv(s, start) && s.written.Some?
    ensures s.taken.Some? && s.dropped <= s.taken.value <= |s.us|
    ensures SnapsOf(Stream(s)) == [Apply(start, s.us[..s.taken.value])]
    ensures Overtaken(s) <= s.written.value
  {
    UpdatesOnly(s.outQ + s.pending);
    ItemsAppend(Sent(s), AsItems(s.outQ + s.pending));
    AheadAppend(Sent(s), AsItems(s.outQ + s.pending));
  }

  lemma StreamCatchesUp(q: seq<Item>, start: Relation, us: seq<Update>, d: nat, g: nat)
    requires d <= g <= |us| && UpdatesOf(q) == us[d..] && SnapsOf(q) == [Apply(start, us[..g])]
    ensures d + Ahead(q) <= |us|
    ensures AbsorbAll({}, q) == Apply(start, us) <==> NoneOvertaken(start, us, g, d + Ahead(q))
  {
    StreamDelivers(q, start, us, d, g);
    CatchesUpIffNoneOvertaken(start, us, d, g, d + Ahead(q));
  }

  lemma StateCatchesUp(s: Sys, start: Relation)
    requires UpdatesInv(s) && SnapInv(s, start) && s.written.Some?
    ensures s.taken.Some? && s.taken.value <= |s.us| && Overtaken(s) <= |s.us|
    ensures AbsorbAll({}, Stream(s)) == Apply(start, s.us) <==>
      NoneOvertaken(start, s.us, s.taken.value, Overtaken(s))
  {
    StreamUpdates(s);
    StreamSnap(s, start);
    StreamCatchesUp(Stream(s), start, s.us, s.dropped, s.taken.value);
  }

  /** Once the snapshot is on its way, delivering all that is in flight, in the
      order in which it was handed over, brings the peer to the node's current
      claims exactly when no withdrawal processed after the snapshot was
      generated gets to the peer before it (DeliveryOrders has the other orders). */
  lemma InFlightCatchesUp(start: Relation, es: seq<Event>)
    requires Run(start, es).Some? && Run(start, es).value.written.Some?
    ensures var s := Run(start, es).value;
      && s.taken.Some? && s.taken.value <= |s.us| && Overtaken(s) <= |s.us|
      && (AbsorbAll(s.peer, InFlight(s)) == s.local <==> NoneOvertaken(start, s.us, s.taken.value, Overtaken(s)))
  {
    RunKeepsInv(start, es);
    var s := Run(start, es).value;
    StateCatchesUp(s, start);
    StreamContinuesPeer(s);
  }

  /** Everything on its way to the peer's claims. */
  function InFlight(s: Sys): seq<Item> {
    s.regQ + (AsItems(s.hopQ) + s.wire + AsItems(s.outQ + s.pending))
  }

  /** The stream starts with what the peer has already absorbed. */
  lemma StreamContinuesPeer(s: Sys)
    requires PeerInv(s.arrived, s.regQ, s.peer)
    ensures AbsorbAll({}, Stream(s)) == AbsorbAll(s.peer, InFlight(s))
  {
    var n := |s.arrived| - |s.regQ|;
    var tail := AsItems(s.hopQ) + s.wire + AsItems(s.outQ + s.pending);
    assert s.arrived == s.arrived[..n] + s.regQ;
    assert Stream(s) == s.arrived + tail;
    assert s.arrived + tail == s.arrived[..n] + (s.regQ + tail);
    AbsorbAppend({}, s.arrived[..n], s.regQ + tail);
  }

  predicate Quiet(s: Sys) {
    s.pending == [] && s.outQ == [] && s.wire == [] && s.hopQ == [] && s.regQ == [] && s.written.Some?
  }

  /** When nothing is in flight any more, over any interleaving of local
      updates with the steps that set up the connection: the peer holds exactly
      the node's claims, if and only if no withdrawal overtook the snapshot. */
  lemma PeerAgreesIffNoneOvertaken(start: Relation, es: seq<Event>)
    requires Run(start, es).Some? && Quiet(Run(start, es).value)
    ensures var s := Run(start, es).value;
      && s.taken.Some? && s.taken.value <= |s.us| && Overtaken(s) <= |s.us|
      && (s.peer == s.local <==> NoneOvertaken(start, s.us, s.taken.value, Overtaken(s)))
  {
    InFlightCatchesUp(start, es);
    assert InFlight(Run(start, es).value) == [];
  }

  /** No update is put on the connection while a snapshot waits to be encoded. */
  ghost predicate NothingPumpedBetween(start: Relation, es: seq<Event>) {
    forall j :: 0 <= j < |es| && es[j].Pump? && Run(start, es[..j]).Some? ==> Run(start, es[..j]).value.snap.None?
  }

  ghost predicate Prompt(s: Sys) {
    && (s.snap.Some? && s.taken.Some? ==> Written(s) <= s.taken.value)
    && (s.written.Some? && s.taken.Some? ==> s.written.value <= s.taken.value)
  }

  lemma GenerateIsPrompt(s: Sys)
    requires UpdatesInv(s) && Next(s, Generate).Some? && s.written.None?
    ensures Prompt(Next(s, Generate).value)
  {
    assert |s.us[s.dropped..]| == |s.us| - s.dropped;
    assert Sent(Next(s, Generate).value) == Sent(s);
  }

  lemma DeliveryIsPrompt(s: Sys, e: Event)
    requires Next(s, e).Some? && Prompt(s) && (e.Receive? || e.Hop?)
    ensures Prompt(Next(s, e).value)
  {
    assert Written(Next(s, e).value) == Written(s) by { SentSame(s, e); }
  }

  lemma OthersArePrompt(s: Sys, e: Event)
    requires Next(s, e).Some? && Prompt(s) && (s.taken.Some? ==> s.known)
    requires e.Local? || e.Broadcast? || e.AddPeer? || e.SetConnection? || e.Process?
    ensures Prompt(Next(s, e).value)
  {
    assert Sent(Next(s, e).value) == Sent(s);
  }

  lemma StepKeepsPrompt(s: Sys, e: Event, start: Relation)
    requires UpdatesInv(s) && SnapInv(s, start) && Next(s, e).Some? && Prompt(s)
    requires e.Pump? ==> s.snap.None?
    ensures Prompt(Next(s, e).value)
  {
    match e
    case Receive => DeliveryIsPrompt(s, e);
    case Hop => DeliveryIsPrompt(s, e);
    case Generate => GenerateIsPrompt(s);
    case Encode =>
    case Pump =>
    case _ => OthersArePrompt(s, e);
  }

  lemma {:induction false} PromptRuns(start: Relation, es: seq<Event>)
    requires Run(start, es).Some? && NothingPumpedBetween(start, es)
    ensures Prompt(Run(start, es).value)
  {
    if es != [] {
      var n := |es| - 1;
      assert forall j :: 0 <= j < n ==> es[..n][j] == es[j] && es[..n][..j] == es[..j];
      PromptRuns(start, es[..n]);
      RunKeepsInv(start, es[..n]);
      StepKeepsPrompt(Run(start, es[..n]).value, es[n], start);
    }
  }

  /** So the peer always ends up with the node's claims when no update is put on
      the connection between generating the snapshot and encoding it; whatever
      else happens in between, before and after. */
  lemma PromptSnapshotConverges(start: Relation, es: seq<Event>)
    requires Run(start, es).Some? && Quiet(Run(start, es).value) && NothingPumpedBetween(start, es)
    ensures Run(start, es).value.peer == Run(start, es).value.local
  {
    RunKeepsInv(start, es);
    PromptRuns(start, es);
    StreamSnap(Run(start, es).value, start);
    PeerAgreesIffNoneOvertaken(start, es);
  }

  // ---------------------------------------------------------------- a withdrawal that overtakes the snapshot

  lemma Extend(start: Relation, es: seq<Event>, e: Event)
    requires Run(start, es).Some?
    ensures Run(start, es + [e]) == Next(Run(start, es).value, e)
  {
    assert (es + [e])[..|es|] == es;
  }

  lemma ApplyOne(r: Relation, u: Update)
    ensures Apply(r, [u]) == if u.RegisterName? then r + {u.p} else r - {u.p}
  {
    assert [u][..0] == [];
  }

  lemma ConnectAndGenerate(p: Claim) returns (es: seq<Event>)
    ensures Run({p}, es) ==
      Some(Sys({p}, [], true, true, Some({p}), [], [], [], [], {}, [], 0, Some(0), None, []))
  {
    Extend({p}, [], AddPeer);
    es := [] + [AddPeer];
    Extend({p}, es, SetConnection);
    es := es + [SetConnection];
    Extend({p}, es, Generate);
    es := es + [Generate];
  }

  lemma WithdrawAndBroadcast(p: Claim) returns (es: seq<Event>)
    ensures Run({p}, es) == Some(Sys({}, [], true, true, Some({p}), [UnregisterName(p)], [], [], [], {},
      [UnregisterName(p)], 0, Some(0), None, []))
  {
    var u := UnregisterName(p);
    ApplyOne({p}, u);
    assert {p} - {p} == {};
    es := ConnectAndGenerate(p);
    Extend({p}, es, Local([u]));
    assert [] + [u] == [u] && [u][1..] == [];
    es := es + [Local([u])];
    Extend({p}, es, Broadcast);
    es := es + [Broadcast];
  }

  lemma PumpIt(p: Claim) returns (es: seq<Event>)
    ensures Run({p}, es) == Some(Sys({}, [], true, true, Some({p}), [], [Upd(UnregisterName(p))], [], [], {},
      [UnregisterName(p)], 0, Some(0), None, []))
  {
    es := WithdrawAndBroadcast(p);
    Extend({p}, es, Pump);
    assert [UnregisterName(p)][1..] == [] && [] + [Upd(UnregisterName(p))] == [Upd(UnregisterName(p))];
    es := es + [Pump];
  }

  lemma PumpAndEncode(p: Claim) returns (es: seq<Event>)
    ensures Run({p}, es) == Some(Sys({}, [], true, true, None, [], [Upd(UnregisterName(p)), Snap({p})], [], [], {},
      [UnregisterName(p)], 0, Some(0), Some(1), []))
  {
    var x, y := Upd(UnregisterName(p)), Snap({p});
    es := PumpIt(p);
    OneItem(x);
    Extend({p}, es, Encode);
    assert [x] + [y] == [x, y] && Sent(Run({p}, es).value) == [x];
    es := es + [Encode];
  }

  lemma ArriveInOrder(p: Claim) returns (es: seq<Event>)
    ensures Run({p}, es) == Some(Sys({}, [], true, true, None, [], [], [], [Upd(UnregisterName(p)), Snap({p})], {},
      [UnregisterName(p)], 0, Some(0), Some(1), [Upd(UnregisterName(p)), Snap({p})]))
  {
    var u := UnregisterName(p);
    var x, y := Upd(u), Snap({p});
    es := PumpAndEncode(p);
    Extend({p}, es, Receive);
    assert [x, y][1..] == [y] && [] + [u] == [u];
    es := es + [Receive];
    Extend({p}, es, Hop);
    assert [u][1..] == [] && [] + [x] == [x];
    es := es + [Hop];
    Extend({p}, es, Receive);
    assert [y][1..] == [] && [x] + [y] == [x, y];
    es := es + [Receive];
  }

  /** A concrete schedule: the claim is withdrawn, and the withdrawal written to
      the connection, between generating the snapshot and encoding it; the peer
      keeps a claim that the node no longer has. */
  lemma WithdrawalOvertakesSnapshot(p: Claim) returns (es: seq<Event>)
    ensures Run({p}, es).Some? && Quiet(Run({p}, es).value)
    ensures Run({p}, es).value.local == {} && Run({p}, es).value.peer == {p}
  {
    var x, y := Upd(UnregisterName(p)), Snap({p});
    ApplyOne({}, UnregisterName(p));
    es := ArriveInOrder(p);
    Extend({p}, es, Process);
    assert [x, y][1..] == [y] && {} - {p} == {};
    es := es + [Process];
    Extend({p}, es, Process);
    assert [y][1..] == [] && {} + {p} == {p};
    es := es + [Process];
  }
}
