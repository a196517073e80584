/** The table of a node's mailboxes and the ids it gives out (mailbox.go:423-513). */
module MailboxIds {
  import opened Ids
  import opened MailboxObject

  const HALF := 0x80_0000_0000_0000   // 2 to the 55th

  /** The id of the k-th mailbox, counting from one: the counter starts at one
      and moves by two, each time before and after it is read. */
  function IdOf(node: NodeID, k: nat): MailboxID {
    (2 * k % MODULUS * 256 % MODULUS + node) % MODULUS
  }

  lemma IdParts(node: NodeID, k: nat)
    ensures NodeOf(IdOf(node, k)) == node
    ensures MailboxOnly(IdOf(node, k)) == 2 * (k % HALF)
    ensures MailboxOnly(IdOf(node, k)) <= MAX_MAILBOX_ID
  {
    var q, r := k / HALF, k % HALF;
    assert 2 * k * 256 == q * MODULUS + 512 * r;
    assert 2 * k % MODULUS * 256 % MODULUS == 512 * r by {
      var d := 2 * k / MODULUS;
      assert 2 * k % MODULUS * 256 == (q - 256 * d) * MODULUS + 512 * r;
    }
  }

  /** Ids repeat on one node with period 2 to the 55th, and never across nodes. */
  lemma IdsMeetIff(n: NodeID, k: nat, n': NodeID, k': nat)
    ensures IdOf(n, k) == IdOf(n', k') <==> n == n' && k % HALF == k' % HALF
  {
    IdParts(n, k);
    IdParts(n', k');
    assert forall id: MailboxID :: id == 256 * MailboxOnly(id) + NodeOf(id);
  }

  /** So the first 2 to the 55th ids are pairwise distinct, and all but the last
      of them decode to twice their number. */
  lemma FirstIdsAreDistinct(n: NodeID, k: nat, n': NodeID, k': nat)
    requires 1 <= k <= HALF && 1 <= k' <= HALF
    ensures IdOf(n, k) == IdOf(n', k') <==> n == n' && k == k'
    ensures MailboxOnly(IdOf(n, k)) == 2 * k <==> k < HALF
  {
    IdsMeetIff(n, k, n', k');
    IdParts(n, k);
  }

  /** Two steps of the counter. */
  lemma CounterMoves(k: nat)
    requires k > 0
    ensures ((1 + 2 * (k - 1)) % MODULUS + 1) % MODULUS == 2 * k % MODULUS
    ensures (2 * k % MODULUS + 1) % MODULUS == (1 + 2 * k) % MODULUS
  {
  }

  datatype Lookup = Here(mailbox: Mailbox) | NotLocalMailbox | MailboxClosed

  class Mailboxes {
    const nodeID: NodeID
    var nextMailboxID: MailboxID
    var mailboxes: map<MailboxID, Mailbox>
    ghost var made: nat

    ghost predicate Valid()
      reads this
    {
      && nextMailboxID == (1 + 2 * made) % MODULUS
      && forall id <- mailboxes :: mailboxes[id].id == id && exists k: nat | 1 <= k <= made :: id == IdOf(nodeID, k)
    }

    constructor (nodeID: NodeID)
      ensures Valid() && this.nodeID == nodeID && made == 0 && mailboxes == map[]
    {
      this.nodeID := nodeID;
      nextMailboxID, mailboxes, made := 1, map[], 0;
    }

    /** newLocalMailbox (443-463), not overlapped by another call of it. */
    method NewLocalMailbox() returns (m: Mailbox)
      requires Valid()
      modifies this
      ensures Valid() && made == old(made) + 1
      ensures fresh(m) && m.Valid() && !m.closed && m.id == IdOf(nodeID, made)
      ensures mailboxes == old(mailboxes)[m.id := m]
      ensures made <= HALF ==> m.id !in old(mailboxes) && forall k :: 1 <= k < made ==> m.id != IdOf(nodeID, k)
    {
      CounterMoves(made + 1);
      nextMailboxID := (nextMailboxID + 1) % MODULUS;
      var nextID := nextMailboxID;
      nextMailboxID := (nextMailboxID + 1) % MODULUS;
      made := made + 1;
      var id := (nextID * 256 % MODULUS + nodeID) % MODULUS;
      assert id == IdOf(nodeID, made);
      if made <= HALF {
        forall k | 1 <= k < made
          ensures IdOf(nodeID, made) != IdOf(nodeID, k)
        {
          FirstIdsAreDistinct(nodeID, made, nodeID, k);
        }
      }
      m := new Mailbox(id);
      mailboxes := mailboxes[id := m];
    }

    method UnregisterMailbox(id: MailboxID)
      requires Valid()
      modifies this`mailboxes
      ensures Valid() && mailboxes == old(mailboxes) - {id}
    {
      mailboxes := mailboxes - {id};
    }

    /** mailboxByID (488-502): the mailbox carries the id, or the caller learns why there is none. */
    method MailboxByID(id: MailboxID) returns (r: Lookup)
      requires Valid()
      ensures r.NotLocalMailbox? <==> NodeOf(id) != nodeID
      ensures r.MailboxClosed? <==> NodeOf(id) == nodeID && id !in mailboxes
      ensures r.Here? <==> id in mailboxes
      ensures r.Here? ==> r.mailbox == mailboxes[id] && r.mailbox.id == id
    {
      if id in mailboxes {
        ghost var k: nat :| 1 <= k <= made && id == IdOf(nodeID, k);
        IdParts(nodeID, k);
      }
      if NodeOf(id) != nodeID {
        return NotLocalMailbox;
      }
      if id !in mailboxes {
        return MailboxClosed;
      }
      return Here(mailboxes[id]);
    }
  }
}
