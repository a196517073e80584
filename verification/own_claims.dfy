/** The registry's messages are the steps of Replication: seen from one node's
    own claims, a message changes them as the updates announced to the peers
    say, and at a peer an update or a snapshot from the wire changes the claims
    held for that node as Replication.Absorb says (registry.go:305-337, 366-419,
    529-585, 694-716). */
module OwnClaims {
  import opened Wrappers
  import opened Ids
  import opened AddressCodec
  import opened Claims
  import opened Registry
  import opened Replay
  import opened Replication

  /** Where messages come from: those posted on this node name its own
      mailboxes, and those of other nodes theirs. */
  ghost predicate FromHere(m: Msg, here: NodeID) {
    match m
    case Register(node, p, local) => if local then node == here && NodeOf(p.1) == here else NodeOf(p.1) != here
    case Unregister(node, p, local) => if local then node == here else NodeOf(p.1) != here
    case UnregisterMailbox(id) => NodeOf(id) == here
    case ConnectionStatus(node, _) => node != here
    case AllNodeClaims(node, _) => node != here
    case _ => true
  }

  /** Names.Register, for an address that resolved to m; None is ErrCantGloballyRegister. */
  function RegisterCall(here: NodeID, name: Name, m: Cached): Option<Msg> {
    if m.Local? then Some(Msg.Register(here, (name, m.id), true)) else None
  }

  function UnregisterCall(here: NodeID, name: Name, m: Cached): Option<Msg> {
    if m.Unresolved? || m.Remote? then None else Some(Msg.Unregister(here, (name, m.id), true))
  }

  /** UnregisterMailbox, called for a mailbox that node says is gone; own is the registry's mailbox. */
  function UnregisterMailboxCall(here: NodeID, node: NodeID, id: MailboxID, own: MailboxID): Option<Msg> {
    if NodeOf(id) == node && node == here && own != id then Some(Msg.UnregisterMailbox(id)) else None
  }

  /** What the calls post. Register looks at the mailbox the address holds: for
      one that was cached it posts even when the mailbox has closed since.
      Unregister leaves out the mailboxes of other nodes only. Either message is
      from here when the mailbox is of this node, and so is what
      UnregisterMailbox posts. */
  lemma CallsAreFromHere(c: Server, m: Cached, id: MailboxID, name: Name, node: NodeID, own: MailboxID)
    requires Cache(m, Some(c), id).Some? && (m.Unresolved? || m.id == id)
    ensures var here, x := c.thisNode, Cache(m, Some(c), id).value;
      var (reg, unreg) := (RegisterCall(here, name, x), UnregisterCall(here, name, x));
      && (reg.Some? <==> m.Local? || (m.Unresolved? && NodeOf(id) == here && id in c.open))
      && (unreg.None? <==> m.Remote? || (m.Unresolved? && NodeOf(id) != here))
      && (reg.Some? ==> reg.value == Msg.Register(here, (name, id), true))
      && (unreg.Some? ==> unreg.value == Msg.Unregister(here, (name, id), true))
      && (reg.Some? ==> (FromHere(reg.value, here) <==> NodeOf(id) == here))
      && (unreg.Some? ==> FromHere(unreg.value, here))
    ensures var gone := UnregisterMailboxCall(c.thisNode, node, id, own);
      && (gone.Some? <==> NodeOf(id) == node == c.thisNode && id != own)
      && (gone.Some? ==> gone.value == Msg.UnregisterMailbox(id) && FromHere(gone.value, c.thisNode))
  {
  }

  lemma {:induction false} RemovalsApply(r: Relation, entries: seq<Claim>)
    ensures Apply(r, Removals(entries)) == r - SetOf(entries)
  {
    if entries != [] {
      var n := |entries| - 1;
      RemovalsApply(r, entries[..n]);
      assert Removals(entries)[..n] == Removals(entries[..n]);
      assert SetOf(entries) == SetOf(entries[..n]) + {entries[n]};
    }
  }

  /** This node's own claims change exactly by the updates its peers are told of. */
  lemma OwnClaimsFollowAnnounced(r: Relation, index: Index, m: Msg, here: NodeID)
    requires Covers(index, r) && FromHere(m, here)
    ensures OfNode(Step(r, m), here) == Apply(OfNode(r, here), Announced(m, here, index))
  {
    var own := OfNode(r, here);
    match m
    case Register(_, p, local) => if local { ApplyOne(own, RegisterName(p)); }
    case Unregister(_, p, local) => if local { ApplyOne(own, UnregisterName(p)); }
    case UnregisterMailbox(id) =>
      var entries := EntriesAt(index, id);
      EntriesOf(index, r, id);
      RemovalsApply(own, entries);
      assert OfNode(r - SetOf(entries), here) == own - SetOf(entries);
    case _ =>
  }

  /** What a peer takes off the wire, as an item of Replication. */
  function ItemOf(m: Msg): Option<Item> {
    match m
    case Register(_, p, false) => Some(Upd(RegisterName(p)))
    case Unregister(_, p, false) => Some(Upd(UnregisterName(p)))
    case AllNodeClaims(node, claims) => Some(Snap(OfNode(Rel(claims), node)))
    case _ => None
  }

  ghost predicate AboutNode(m: Msg, node: NodeID) {
    match m
    case Register(_, p, _) => NodeOf(p.1) == node
    case Unregister(_, p, _) => NodeOf(p.1) == node
    case AllNodeClaims(n, _) => n == node
    case _ => false
  }

  /** A peer's claims for the node follow the stream, and its other claims are left alone. */
  lemma PeerClaimsFollowStream(r: Relation, m: Msg, node: NodeID)
    requires ItemOf(m).Some? && AboutNode(m, node)
    ensures OfNode(Step(r, m), node) == Absorb(OfNode(r, node), ItemOf(m).value)
    ensures Step(r, m) - OfNode(Step(r, m), node) == r - OfNode(r, node)
  {
    match m
    case Register(_, p, _) => ApplyOne(OfNode(r, node), RegisterName(p));
    case Unregister(_, p, _) => ApplyOne(OfNode(r, node), UnregisterName(p));
    case _ =>
  }
}
