/** The name registry of one node: a map of claims, a reverse index and a
    counter, kept up to date message by message (registry.go:172-203, 285-460,
    496-527, 587-716, 742-778). */
module Registry {
  import opened Ids
  import opened Claims

  /** What the registry sends.  Peers are the registries of other nodes. */
  datatype Out =
    | ToPeer(node: NodeID, update: Update)
    | Conflict(to: MailboxID, name: Name)                 // MultipleClaim
    | ToSelf(update: Update)                              // an Unregister it posts to its own mailbox

  datatype Update = RegisterName(p: Claim) | UnregisterName(p: Claim)

  /** What arrives in the registry's mailbox. */
  datatype Msg =
    | Register(node: NodeID, p: Claim, local: bool)       // local: posted on this node, not decoded from the wire
    | Unregister(node: NodeID, p: Claim, local: bool)
    | UnregisterMailbox(id: MailboxID)
    | ConnectionStatus(node: NodeID, connected: bool)
    | AllNodeClaims(node: NodeID, claims: ClaimMap)
    | Synchronize
    | StopRegistry

  /** What each message does to the relation of claims. */
  function Step(r: Relation, m: Msg): Relation {
    match m
    case Register(_, p, _) => r + {p}
    case Unregister(_, p, _) => r - {p}
    case UnregisterMailbox(id) => set p | p in r && p.1 != id
    case ConnectionStatus(node, connected) => if connected then r else r - OfNode(r, node)
    case AllNodeClaims(node, claims) => r + OfNode(Rel(claims), node)
    case Synchronize => r
    case StopRegistry => r
  }

  /** Which claims there are after a message, one by one. */
  lemma StepKeepsClaim(r: Relation, m: Msg, q: Claim)
    ensures m.Register? ==> (q in Step(r, m) <==> q in r || q == m.p)
    ensures m.Unregister? ==> (q in Step(r, m) <==> q in r && q != m.p)
    ensures m.UnregisterMailbox? ==> (q in Step(r, m) <==> q in r && q.1 != m.id)
    ensures m.ConnectionStatus? && m.connected ==> (q in Step(r, m) <==> q in r)
    ensures m.ConnectionStatus? && !m.connected ==> (q in Step(r, m) <==> q in r && NodeOf(q.1) != m.node)
    ensures m.AllNodeClaims? ==>
      (q in Step(r, m) <==> q in r || (NodeOf(q.1) == m.node && q.1 in Claimants(m.claims, q.0)))
    ensures m.Synchronize? || m.StopRegistry? ==> (q in Step(r, m) <==> q in r)
  {
    if m.AllNodeClaims? {
      RelOf(m.claims, q);
    }
  }

  /** The messages up to a stop, applied in order. */
  function Fold(r: Relation, msgs: seq<Msg>): Relation
    decreases msgs
  {
    if msgs == [] || msgs[0].StopRegistry? then r else Fold(Step(r, msgs[0]), msgs[1..])
  }

  /** Nothing after a stop has any effect. */
  lemma {:induction false} FoldStops(r: Relation, before: seq<Msg>, after: seq<Msg>)
    ensures Fold(r, before + [StopRegistry] + after) == Fold(r, before)
    decreases before
  {
    var all := before + [StopRegistry] + after;
    if before == [] {
      assert all[0] == StopRegistry;
    } else {
      assert all[0] == before[0] && all[1..] == before[1..] + [StopRegistry] + after;
      FoldStops(Step(r, before[0]), before[1..], after);
    }
  }

  /** One MultipleClaim for each claimant. */
  function Conflicts(name: Name, claimants: set<MailboxID>): multiset<Out> {
    multiset(set i | i in claimants :: Conflict(i, name))
  }

  /** One message to itself for each claimant of its own node found closed;
      Unregister ignores the others. */
  function Withdrawals(name: Name, claimants: set<MailboxID>, here: NodeID, dead: set<MailboxID>): multiset<Out> {
    multiset(set i | i in claimants && i in dead && NodeOf(i) == here :: ToSelf(UnregisterName((name, i))))
  }

  lemma OneMoreClaimant(name: Name, claimants: set<MailboxID>, here: NodeID, dead: set<MailboxID>, i: MailboxID)
    requires i !in claimants
    ensures Conflicts(name, claimants + {i}) == Conflicts(name, claimants) + multiset{Conflict(i, name)}
    ensures Withdrawals(name, claimants + {i}, here, dead) == Withdrawals(name, claimants, here, dead)
              + if i in dead && NodeOf(i) == here then multiset{ToSelf(UnregisterName((name, i)))} else multiset{}
  {
    var all := claimants + {i};
    assert (set j | j in all :: Conflict(j, name)) ==
      (set j | j in claimants :: Conflict(j, name)) + {Conflict(i, name)};
    assert (set j | j in all && j in dead && NodeOf(j) == here :: ToSelf(UnregisterName((name, j)))) ==
      (set j | j in claimants && j in dead && NodeOf(j) == here :: ToSelf(UnregisterName((name, j))))
        + if i in dead && NodeOf(i) == here then {ToSelf(UnregisterName((name, i)))} else {};
  }

  /** The notices registerAll sends for one more claim on `claims`: when a local
      mailbox makes a name contested, or joins a contested one, every claimant
      is told, and those of this node found closed are unregistered by a message to itself. */
  function Notices(claims: ClaimMap, p: Claim, here: NodeID, dead: set<MailboxID>): multiset<Out> {
    var after := Claimants(Add(claims, p), p.0);
    if |after| > 1 && NodeOf(p.1) == here then Conflicts(p.0, after) + Withdrawals(p.0, after, here, dead)
    else multiset{}
  }

  function AllNotices(claims: ClaimMap, ps: seq<Claim>, here: NodeID, dead: set<MailboxID>): multiset<Out> {
    if ps == [] then multiset{}
    else
      var n := |ps| - 1;
      AllNotices(claims, ps[..n], here, dead) + Notices(AddAll(claims, ps[..n]), ps[n], here, dead)
  }

  // what is sent about contested names, said of the relation of claims

  /** A claim p just made by a mailbox of this node meets another claimant of its
      name, and mailbox i is one of the claimants. */
  ghost predicate Concerns(after: Relation, p: Claim, here: NodeID, n: Name, i: MailboxID) {
    && n == p.0 && NodeOf(p.1) == here && (n, i) in after
    && exists j: MailboxID :: j != p.1 && (n, j) in after
  }

  function Once(b: bool): nat { if b then 1 else 0 }

  /** One MultipleClaim to each mailbox concerned, one withdrawal of each of them
      that is of this node and closed, and nothing to other nodes. */
  ghost predicate TellsConcerned(sent: multiset<Out>, after: Relation, p: Claim, here: NodeID, dead: set<MailboxID>) {
    && (forall n: Name, i: MailboxID :: sent[Conflict(i, n)] == Once(Concerns(after, p, here, n, i)))
    && (forall n: Name, i: MailboxID :: sent[ToSelf(UnregisterName((n, i)))] ==
          Once(Concerns(after, p, here, n, i) && i in dead && NodeOf(i) == here))
    && (forall o :: o in sent ==> !o.ToPeer? && (o.ToSelf? ==> o.update.UnregisterName?))
  }

  lemma EveryNoticeOfOne(claims: ClaimMap, p: Claim, here: NodeID, dead: set<MailboxID>)
    ensures TellsConcerned(Notices(claims, p, here, dead), Rel(claims) + {p}, p, here, dead)
  {
    var sent, after := Notices(claims, p, here, dead), Rel(claims) + {p};
    forall n: Name, i: MailboxID
      ensures sent[Conflict(i, n)] == Once(Concerns(after, p, here, n, i))
      ensures sent[ToSelf(UnregisterName((n, i)))] ==
        Once(Concerns(after, p, here, n, i) && i in dead && NodeOf(i) == here)
    {
      NoticesAre(claims, p, here, dead, n, i, Conflict(i, n));
    }
    forall o | o in sent ensures !o.ToPeer? && (o.ToSelf? ==> o.update.UnregisterName?) {
      NoticesAre(claims, p, here, dead, p.0, p.1, o);
    }
  }

  lemma SeveralClaimants(c: ClaimMap, p: Claim)
    requires p in Rel(c)
    ensures |Claimants(c, p.0)| > 1 <==> exists j: MailboxID :: j != p.1 && (p.0, j) in Rel(c)
  {
    var ids := c[p.0];
    if |ids| > 1 {
      assert |ids - {p.1}| > 0;
      var j :| j in ids - {p.1};
      assert (p.0, j) in Rel(c);
    }
    if j: MailboxID :| j != p.1 && (p.0, j) in Rel(c) {
      assert |ids - {p.1}| > 0;
    }
  }

  /** Exactly what is sent for one more claim: one MultipleClaim to each claimant
      concerned, one withdrawal for each of this node's that is closed, and nothing else. */
  lemma NoticesAre(claims: ClaimMap, p: Claim, here: NodeID, dead: set<MailboxID>, n: Name, i: MailboxID, o: Out)
    ensures var sent, after := Notices(claims, p, here, dead), Rel(claims) + {p};
      && sent[Conflict(i, n)] == Once(Concerns(after, p, here, n, i))
      && sent[ToSelf(UnregisterName((n, i)))] == Once(Concerns(after, p, here, n, i) && i in dead && NodeOf(i) == here)
      && (o.ToPeer? || (o.ToSelf? && o.update.RegisterName?) ==> sent[o] == 0)
  {
    var c := Add(claims, p);
    AddIsUnion(claims, p);
    RelOf(c, p);
    RelOf(c, (p.0, i));
    SeveralClaimants(c, p);
    var ids := Claimants(c, p.0);
    var conflicts := set x | x in ids :: Conflict(x, p.0);
    var withdrawals := set x | x in ids && x in dead && NodeOf(x) == here :: ToSelf(UnregisterName((p.0, x)));
    assert Conflict(i, n) in conflicts <==> n == p.0 && i in ids;
    assert ToSelf(UnregisterName((n, i))) in withdrawals <==> n == p.0 && i in ids && i in dead && NodeOf(i) == here;
    assert Conflict(i, n) !in withdrawals && ToSelf(UnregisterName((n, i))) !in conflicts;
  }

  /** How often mailbox i is told of the name n while the claims ps are made one after the other. */
  ghost function TimesTold(r: Relation, ps: seq<Claim>, here: NodeID, n: Name, i: MailboxID): nat {
    if ps == [] then 0
    else
      var k := |ps| - 1;
      TimesTold(r, ps[..k], here, n, i) + Once(Concerns(r + SetOf(ps), ps[k], here, n, i))
  }

  lemma RelWithLast(claims: ClaimMap, ps: seq<Claim>)
    requires ps != []
    ensures Rel(AddAll(claims, ps[..|ps| - 1])) + {ps[|ps| - 1]} == Rel(claims) + SetOf(ps)
  {
    AddAllIsUnion(claims, ps[..|ps| - 1]);
    assert ps == ps[..|ps| - 1] + [ps[|ps| - 1]];
  }

  lemma LastNotices(claims: ClaimMap, ps: seq<Claim>, here: NodeID, dead: set<MailboxID>, n: Name, i: MailboxID)
    requires ps != []
    ensures var k := |ps| - 1;
      var sent := Notices(AddAll(claims, ps[..k]), ps[k], here, dead);
      var told := Concerns(Rel(claims) + SetOf(ps), ps[k], here, n, i);
      && sent[Conflict(i, n)] == Once(told)
      && sent[ToSelf(UnregisterName((n, i)))] == Once(told && i in dead && NodeOf(i) == here)
  {
    var k := |ps| - 1;
    RelWithLast(claims, ps);
    NoticesAre(AddAll(claims, ps[..k]), ps[k], here, dead, n, i, Conflict(i, n));
  }

  lemma {:induction false} AllNoticesAre(claims: ClaimMap, ps: seq<Claim>, here: NodeID, dead: set<MailboxID>, n: Name,
                                         i: MailboxID)
    ensures AllNotices(claims, ps, here, dead)[Conflict(i, n)] == TimesTold(Rel(claims), ps, here, n, i)
    ensures AllNotices(claims, ps, here, dead)[ToSelf(UnregisterName((n, i)))] ==
      if i in dead && NodeOf(i) == here then TimesTold(Rel(claims), ps, here, n, i) else 0
  {
    if ps != [] {
      var k := |ps| - 1;
      AllNoticesAre(claims, ps[..k], here, dead, n, i);
      LastNotices(claims, ps, here, dead, n, i);
    }
  }

  lemma EveryNotice(claims: ClaimMap, ps: seq<Claim>, here: NodeID, dead: set<MailboxID>)
    ensures forall n: Name, i: MailboxID ::
      AllNotices(claims, ps, here, dead)[Conflict(i, n)] == TimesTold(Rel(claims), ps, here, n, i)
  {
    forall n: Name, i: MailboxID {
      AllNoticesAre(claims, ps, here, dead, n, i);
    }
  }

  type Index = map<MailboxID, seq<Claim>>

  /** One more entry, at the end of those of its mailbox. */
  function Filed(index: Index, p: Claim): Index {
    index[p.1 := (if p.1 in index then index[p.1] else []) + [p]]
  }

  function FiledAll(index: Index, ps: seq<Claim>): Index {
    if ps == [] then index else Filed(FiledAll(index, ps[..|ps| - 1]), ps[|ps| - 1])
  }

  /** The entries about one mailbox. */
  function About(ps: seq<Claim>, id: MailboxID): seq<Claim> {
    if ps == [] then []
    else About(ps[..|ps| - 1], id) + if ps[|ps| - 1].1 == id then [ps[|ps| - 1]] else []
  }

  /** Each mailbox's entries are those it had, and then the new ones about it, in order. */
  lemma {:induction false} FiledInOrder(index: Index, ps: seq<Claim>, id: MailboxID)
    ensures EntriesAt(FiledAll(index, ps), id) == EntriesAt(index, id) + About(ps, id)
  {
    if ps != [] {
      FiledInOrder(index, ps[..|ps| - 1], id);
    }
  }

  /** Every claim has an entry under its mailbox; entries may be stale or repeated. */
  ghost predicate Covers(index: Index, r: Relation) {
    && (forall p :: p in r ==> p.1 in index && p in index[p.1])
    && (forall i, k :: i in index && 0 <= k < |index[i]| ==> index[i][k].1 == i)
  }

  /** One message to each peer. */
  function Broadcast(peers: set<NodeID>, update: Update): multiset<Out> {
    multiset(set n | n in peers :: ToPeer(n, update))
  }

  lemma OneMorePeer(peers: set<NodeID>, update: Update, n: NodeID)
    requires n !in peers
    ensures Broadcast(peers + {n}, update) == Broadcast(peers, update) + multiset{ToPeer(n, update)}
  {
    var all := peers + {n};
    assert (set m | m in all :: ToPeer(m, update)) == (set m | m in peers :: ToPeer(m, update)) + {ToPeer(n, update)};
  }

  function Broadcasts(peers: set<NodeID>, us: seq<Update>): multiset<Out> {
    if us == [] then multiset{}
    else Broadcasts(peers, us[..|us| - 1]) + Broadcast(peers, us[|us| - 1])
  }

  /** Each peer is sent each update as often as it is broadcast. */
  lemma {:induction false} BroadcastsReachPeers(peers: set<NodeID>, us: seq<Update>, n: NodeID, u: Update)
    requires n in peers
    ensures Broadcasts(peers, us)[ToPeer(n, u)] == multiset(us)[u]
  {
    if us != [] {
      var last := us[|us| - 1];
      BroadcastsReachPeers(peers, us[..|us| - 1], n, u);
      assert us == us[..|us| - 1] + [last];
      assert ToPeer(n, last) in set m | m in peers :: ToPeer(m, last);
    }
  }

  function Removals(entries: seq<Claim>): (us: seq<Update>)
    ensures |us| == |entries| && forall k :: 0 <= k < |us| ==> us[k] == UnregisterName(entries[k])
  {
    seq(|entries|, k requires 0 <= k < |entries| => UnregisterName(entries[k]))
  }

  lemma RemovalReachesPeer(peers: set<NodeID>, entries: seq<Claim>, n: NodeID, p: Claim)
    requires n in peers && p in entries
    ensures ToPeer(n, UnregisterName(p)) in Broadcasts(peers, Removals(entries))
  {
    BroadcastsReachPeers(peers, Removals(entries), n, UnregisterName(p));
    var k :| 0 <= k < |entries| && entries[k] == p;
    assert Removals(entries)[k] in multiset(Removals(entries));
  }

  function EntriesAt(index: Index, id: MailboxID): seq<Claim> {
    if id in index then index[id] else []
  }

  /** The updates that a registry passes on to its peers for a message. */
  function Announced(m: Msg, here: NodeID, index: Index): seq<Update> {
    match m
    case Register(node, p, local) => if local && node == here then [RegisterName(p)] else []
    case Unregister(node, p, local) => if local && node == here then [UnregisterName(p)] else []
    case UnregisterMailbox(id) => Removals(EntriesAt(index, id))
    case _ => []
  }

  lemma OneBroadcast(peers: set<NodeID>, u: Update)
    ensures Broadcasts(peers, [u]) == Broadcast(peers, u)
  {
    assert [u][..0] == [];
  }

  /** What else it sends: notices of contested names. */
  function NoticesFor(m: Msg, claims: ClaimMap, here: NodeID, dead: set<MailboxID>): multiset<Out> {
    if m.Register? then AllNotices(claims, [m.p], here, dead) else multiset{}
  }

  ghost predicate NoClaimTwice(ps: seq<Claim>) {
    forall j, k :: 0 <= j < k < |ps| ==> ps[j] != ps[k]
  }

  /** All of a registry that a message may change. */
  datatype Reg = Reg(claims: ClaimMap, index: Index, peers: map<NodeID, MailboxID>, outbox: multiset<Out>)

  /** A snapshot: its claims are registered once each, in some order. */
  ghost predicate SnapshotTurn(a: Reg, node: NodeID, anc: ClaimMap, here: NodeID, dead: set<MailboxID>, b: Reg) {
    exists re: seq<Claim> ::
      && SetOf(re) == OfNode(Rel(anc), node) && NoClaimTwice(re)
      && b.outbox == a.outbox + AllNotices(a.claims, re, here, dead) && b.index == FiledAll(a.index, re)
  }

  /** The index after any other message. */
  function IndexAfter(index: Index, m: Msg): Index {
    match m
    case Register(_, p, _) => Filed(index, p)
    case UnregisterMailbox(id) => index - {id}
    case _ => index
  }

  /** One message takes the registry from a to b. */
  ghost predicate Turn(a: Reg, m: Msg, here: NodeID, dead: set<MailboxID>, b: Reg) {
    && Rel(b.claims) == Step(Rel(a.claims), m)
    && b.peers == a.peers - (if m.ConnectionStatus? && !m.connected then {m.node} else {})
    && if m.AllNodeClaims? then SnapshotTurn(a, m.node, m.claims, here, dead, b)
       else
         && b.index == IndexAfter(a.index, m)
         && b.outbox == a.outbox + NoticesFor(m, a.claims, here, dead)
                          + Broadcasts(a.peers.Keys, Announced(m, here, a.index))
  }

  lemma FoldOne(r: Relation, msgs: seq<Msg>, k: nat)
    requires k < |msgs| && !msgs[k].StopRegistry?
    ensures Fold(r, msgs[k..]) == Fold(Step(r, msgs[k]), msgs[k + 1..])
  {
    assert msgs[k..][0] == msgs[k] && msgs[k..][1..] == msgs[k + 1..];
  }

  /** One state before each of the first messages, and one after them. */
  ghost predicate Turns(states: seq<Reg>, inbox: seq<Msg>, here: NodeID, dead: seq<set<MailboxID>>) {
    && 0 < |states| <= |inbox| + 1 && |dead| == |inbox|
    && forall k :: 0 <= k < |states| - 1 ==>
         !inbox[k].StopRegistry? && Turn(states[k], inbox[k], here, dead[k], states[k + 1])
  }

  /** A run of the registry, up to a stop or the end of the messages. */
  ghost predicate History(states: seq<Reg>, inbox: seq<Msg>, here: NodeID, dead: seq<set<MailboxID>>) {
    && Turns(states, inbox, here, dead)
    && (|states| <= |inbox| ==> inbox[|states| - 1].StopRegistry?)
  }

  /** The claims at the end of a run are those that the messages make of the claims at its k-th message. */
  lemma {:induction false} HistoryFolds(states: seq<Reg>, inbox: seq<Msg>, here: NodeID, dead: seq<set<MailboxID>>,
                                        k: nat)
    requires History(states, inbox, here, dead) && k < |states|
    ensures Rel(states[|states| - 1].claims) == Fold(Rel(states[k].claims), inbox[k..])
    decreases |states| - k
  {
    if k < |states| - 1 {
      FoldOne(Rel(states[k].claims), inbox, k);
      assert Turn(states[k], inbox[k], here, dead[k], states[k + 1]);
      HistoryFolds(states, inbox, here, dead, k + 1);
    } else if k < |inbox| {
      assert inbox[k..][0] == inbox[k];
    }
  }

  lemma OneMoreTurn(states: seq<Reg>, inbox: seq<Msg>, here: NodeID, dead: seq<set<MailboxID>>, b: Reg)
    requires Turns(states, inbox, here, dead) && |states| <= |inbox| && !inbox[|states| - 1].StopRegistry?
    requires Turn(states[|states| - 1], inbox[|states| - 1], here, dead[|states| - 1], b)
    ensures Turns(states + [b], inbox, here, dead)
  {
  }

  lemma {:induction false} NoNoticesForOthers(claims: ClaimMap, ps: seq<Claim>, here: NodeID, dead: set<MailboxID>)
    requires forall k :: 0 <= k < |ps| ==> NodeOf(ps[k].1) != here
    ensures AllNotices(claims, ps, here, dead) == multiset{}
  {
    if ps != [] {
      NoNoticesForOthers(claims, ps[..|ps| - 1], here, dead);
    }
  }

  /** Under a mailbox's id the index holds all of its claims, and only entries of its own. */
  lemma EntriesOf(index: Index, r: Relation, id: MailboxID)
    requires Covers(index, r)
    ensures var entries := EntriesAt(index, id);
      && (forall p :: p in r && p.1 == id ==> p in entries)
      && r - SetOf(entries) == Step(r, UnregisterMailbox(id))
      && Covers(index - {id}, r - SetOf(entries))
  {
  }

  lemma FiledCovers(index: Index, r: Relation, p: Claim)
    requires Covers(index, r)
    ensures Covers(Filed(index, p), r + {p})
  {
  }

  lemma NoNoticesForSnapshot(claims: ClaimMap, re: seq<Claim>, r: Relation, node: NodeID, here: NodeID,
                             dead: set<MailboxID>)
    requires SetOf(re) == OfNode(r, node) && node != here
    ensures AllNotices(claims, re, here, dead) == multiset{}
  {
    assert forall k :: 0 <= k < |re| ==> re[k] in SetOf(re);
    NoNoticesForOthers(claims, re, here, dead);
  }

  function OfThis(ids: set<MailboxID>, node: NodeID): set<MailboxID> {
    set i | i in ids && NodeOf(i) == node
  }

  /** A map that has, for each name, the claimants of one node stands for that node's claims. */
  lemma OwnClaimants(anc: ClaimMap, claims: ClaimMap, node: NodeID)
    requires forall n :: Claimants(anc, n) == if n in claims then OfThis(claims[n], node) else {}
    ensures Rel(anc) == OfNode(Rel(claims), node)
  {
    forall p ensures p in Rel(anc) <==> p in OfNode(Rel(claims), node) {
      RelOf(anc, p);
      RelOf(claims, p);
    }
  }

  class Names {
    const thisNode: NodeID
    var claims: ClaimMap
    var mailboxIDs: Index
    var multipleClaimCount: int
    var nodeRegistries: map<NodeID, MailboxID>
    var outbox: multiset<Out>          // everything sent so far

    function Relation(): Relation
      reads this
    {
      Rel(claims)
    }

    ghost function View(): Reg
      reads this
    {
      Reg(claims, mailboxIDs, nodeRegistries, outbox)
    }

    ghost predicate Valid()
      reads this
    {
      && NoEmpty(claims)
      && multipleClaimCount == |Contested(claims)|
      && Covers(mailboxIDs, Rel(claims))
    }

    constructor (node: NodeID)
      ensures Valid() && Relation() == {} && thisNode == node && nodeRegistries == map[] && outbox == multiset{}
    {
      thisNode := node;
      claims, mailboxIDs, multipleClaimCount, nodeRegistries, outbox := map[], map[], 0, map[], multiset{};
    }

    /** addNodeRegistry (255-265). */
    method AddNodeRegistry(node: NodeID, address: MailboxID)
      requires Valid()
      modifies this`nodeRegistries
      ensures Valid() && nodeRegistries == old(nodeRegistries)[node := address]
    {
      nodeRegistries := nodeRegistries[node := address];
    }

    /** The loop that tells every claimant of a contested name (619-643);
        `dead` are the mailboxes whose Send reports ErrMailboxClosed. */
    method TellClaimants(name: Name, claimants: set<MailboxID>, dead: set<MailboxID>)
      modifies this`outbox
      ensures outbox == old(outbox) + Conflicts(name, claimants) + Withdrawals(name, claimants, thisNode, dead)
    {
      var rest := claimants;
      ghost var done := {};
      while rest != {}
        invariant rest !! done && rest + done == claimants
        invariant outbox == old(outbox) + Conflicts(name, done) + Withdrawals(name, done, thisNode, dead)
        decreases |rest|
      {
        var i :| i in rest;
        OneMoreClaimant(name, done, thisNode, dead, i);
        outbox := outbox + multiset{Conflict(i, name)};
        if i in dead && NodeOf(i) == thisNode {
          outbox := outbox + multiset{ToSelf(UnregisterName((name, i)))};
        }
        rest, done := rest - {i}, done + {i};
      }
      assert done == claimants;
    }

    /** The two maps of one claim (605-614), and how many claimants its name had before and has now. */
    method Claim(p: Claims.Claim) returns (preCount: nat, postCount: nat)
      requires NoEmpty(claims) && Covers(mailboxIDs, Rel(claims))
      modifies this`claims, this`mailboxIDs
      ensures NoEmpty(claims) && Covers(mailboxIDs, Rel(claims))
      ensures claims == Add(old(claims), p) && mailboxIDs == Filed(old(mailboxIDs), p)
      ensures preCount == |Claimants(old(claims), p.0)| && postCount == |Claimants(claims, p.0)|
    {
      AddIsUnion(claims, p);
      FiledCovers(mailboxIDs, Rel(claims), p);
      mailboxIDs := mailboxIDs[p.1 := (if p.1 in mailboxIDs then mailboxIDs[p.1] else []) + [p]];
      var before := Claimants(claims, p.0);
      preCount := |before|;
      claims := claims[p.0 := before + {p.1}];
      postCount := |claims[p.0]|;
    }

    /** One turn of the loop of registerAll (604-650). */
    method RegisterOne(p: Claims.Claim, dead: set<MailboxID>)
      requires Valid()
      modifies this`claims, this`mailboxIDs, this`multipleClaimCount, this`outbox
      ensures Valid() && claims == Add(old(claims), p) && Relation() == old(Relation()) + {p}
      ensures mailboxIDs == Filed(old(mailboxIDs), p)
      ensures outbox == old(outbox) + Notices(old(claims), p, thisNode, dead)
      ensures exists sent :: outbox == old(outbox) + sent && TellsConcerned(sent, Relation(), p, thisNode, dead)
    {
      AddContested(claims, p);
      var preCount, postCount := Claim(p);
      if postCount > 1 && NodeOf(p.1) == thisNode {
        TellClaimants(p.0, Claimants(claims, p.0), dead);
      }
      if preCount <= 1 && postCount > 1 {
        multipleClaimCount := multipleClaimCount + 1;
      }
      AddIsUnion(old(claims), p);
      EveryNoticeOfOne(old(claims), p, thisNode, dead);
    }

    /** The loop of registerAll (604-650). */
    method RegisterEach(entries: seq<Claim>, dead: set<MailboxID>)
      requires Valid()
      modifies this`claims, this`mailboxIDs, this`multipleClaimCount, this`outbox
      ensures Valid() && claims == AddAll(old(claims), entries) && mailboxIDs == FiledAll(old(mailboxIDs), entries)
      ensures outbox == old(outbox) + AllNotices(old(claims), entries, thisNode, dead)
    {
      for k := 0 to |entries|
        invariant Valid() && claims == AddAll(old(claims), entries[..k])
        invariant mailboxIDs == FiledAll(old(mailboxIDs), entries[..k])
        invariant outbox == old(outbox) + AllNotices(old(claims), entries[..k], thisNode, dead)
      {
        RegisterOne(entries[k], dead);
        assert entries[..k + 1][..k] == entries[..k];
      }
      assert entries[..|entries|] == entries;
    }

    /** registerAll (600-651). */
    method RegisterAll(entries: seq<Claim>, dead: set<MailboxID>)
      requires Valid()
      modifies this`claims, this`mailboxIDs, this`multipleClaimCount, this`outbox
      ensures Valid() && Relation() == old(Relation()) + SetOf(entries)
      ensures mailboxIDs == FiledAll(old(mailboxIDs), entries)
      ensures outbox == old(outbox) + AllNotices(old(claims), entries, thisNode, dead)
      ensures forall n: Name, i: MailboxID :: outbox[Conflict(i, n)] ==
                old(outbox)[Conflict(i, n)] + TimesTold(old(Relation()), entries, thisNode, n, i)
    {
      RegisterEach(entries, dead);
      AddAllIsUnion(old(claims), entries);
      EveryNotice(old(claims), entries, thisNode, dead);
    }

    /** unregisterAll (669-692). */
    method UnregisterAll(entries: seq<Claim>)
      requires NoEmpty(claims) && multipleClaimCount == |Contested(claims)|
      modifies this`claims, this`multipleClaimCount
      ensures NoEmpty(claims) && multipleClaimCount == |Contested(claims)|
      ensures Relation() == old(Relation()) - SetOf(entries)
      ensures old(Valid()) ==> Valid()
    {
      for k := 0 to |entries|
        invariant NoEmpty(claims) && multipleClaimCount == |Contested(claims)|
        invariant claims == DropAll(old(claims), entries[..k])
      {
        var p := entries[k];
        assert entries[..k + 1][..k] == entries[..k];
        DropIsDifference(claims, p);
        DropContested(claims, p);
        if p.0 in claims {
          var before := claims;
          var preCount := |claims[p.0]|;
          claims := claims[p.0 := claims[p.0] - {p.1}];
          var postCount := |claims[p.0]|;
          if preCount > 1 && postCount <= 1 {
            multipleClaimCount := multipleClaimCount - 1;
          }
          if postCount == 0 {
            claims := claims - {p.0};
            assert claims == before - {p.0};
          }
        }
      }
      assert entries[..|entries|] == entries;
      DropAllIsDifference(old(claims), entries);
    }

    /** toOtherNodes (460-468). */
    method ToOtherNodes(update: Update)
      modifies this`outbox
      ensures outbox == old(outbox) + Broadcast(nodeRegistries.Keys, update)
    {
      var rest := nodeRegistries.Keys;
      ghost var done := {};
      while rest != {}
        invariant rest !! done && rest + done == nodeRegistries.Keys
        invariant outbox == old(outbox) + Broadcast(done, update)
        decreases |rest|
      {
        var n :| n in rest;
        OneMorePeer(done, update, n);
        outbox := outbox + multiset{ToPeer(n, update)};
        rest, done := rest - {n}, done + {n};
      }
      assert done == nodeRegistries.Keys;
    }

    /** The broadcast of a removal for each entry (708-714). */
    method ToOtherNodesAll(entries: seq<Claim>)
      modifies this`outbox
      ensures outbox == old(outbox) + Broadcasts(nodeRegistries.Keys, Removals(entries))
    {
      for k := 0 to |entries|
        invariant outbox == old(outbox) + Broadcasts(nodeRegistries.Keys, Removals(entries[..k]))
      {
        ToOtherNodes(UnregisterName(entries[k]));
        assert Removals(entries[..k + 1])[..k] == Removals(entries[..k]);
      }
      assert entries[..|entries|] == entries;
    }

    /** unregisterMailbox (695-716): all claims of the mailbox go, every other
        one stays, and each peer is told of each claim that went. */
    method UnregisterMailbox(id: MailboxID)
      requires Valid()
      modifies this`claims, this`mailboxIDs, this`multipleClaimCount, this`outbox
      ensures Valid()
      ensures Relation() == Step(old(Relation()), Msg.UnregisterMailbox(id))
      ensures forall p :: p in Relation() <==> p in old(Relation()) && p.1 != id
      ensures mailboxIDs == old(mailboxIDs) - {id}
      ensures outbox == old(outbox) + Broadcasts(nodeRegistries.Keys, Removals(old(EntriesAt(mailboxIDs, id))))
      ensures forall n, p :: n in nodeRegistries && p in old(Relation()) && p.1 == id ==>
                ToPeer(n, UnregisterName(p)) in outbox
    {
      var entries := if id in mailboxIDs then mailboxIDs[id] else [];
      EntriesOf(mailboxIDs, Rel(claims), id);
      mailboxIDs := mailboxIDs - {id};
      if |entries| > 0 {
        UnregisterAll(entries);
        ToOtherNodesAll(entries);
      }
      forall n, p | n in nodeRegistries && p in old(Relation()) && p.1 == id
        ensures ToPeer(n, UnregisterName(p)) in outbox
      {
        RemovalReachesPeer(nodeRegistries.Keys, entries, n, p);
      }
    }

    /** handleConnectionStatus (428-458): when a node goes down, its claims go and
        nothing else, and no more updates are sent to it. */
    method HandleConnectionStatus(node: NodeID, connected: bool)
      requires Valid()
      modifies this`claims, this`multipleClaimCount, this`nodeRegistries
      ensures Valid()
      ensures Relation() == Step(old(Relation()), ConnectionStatus(node, connected))
      ensures forall p :: p in Relation() <==> p in old(Relation()) && (connected || NodeOf(p.1) != node)
      ensures connected ==> claims == old(claims)
      ensures nodeRegistries == old(nodeRegistries) - if connected then {} else {node}
    {
      if connected {
        return;
      }
      var entries := Select(claims, node);
      nodeRegistries := nodeRegistries - {node};
      if |entries| > 0 {
        UnregisterAll(entries);
      }
    }

    /** generateAllNodeClaims (366-394): a snapshot of this node's own claims. */
    method GenerateAllNodeClaims() returns (anc: ClaimMap)
      requires Valid()
      ensures NoEmpty(anc) && Rel(anc) == OfNode(Relation(), thisNode)
    {
      anc := map[];
      var rest := claims.Keys;
      while rest != {}
        invariant rest <= claims.Keys && NoEmpty(anc)
        invariant forall n :: Claimants(anc, n) == if n in claims && n !in rest then OfThis(claims[n], thisNode) else {}
        decreases |rest|
      {
        var n :| n in rest;
        var ids := OfThis(claims[n], thisNode);
        if ids != {} {
          anc := anc[n := ids];
        }
        rest := rest - {n};
      }
      OwnClaimants(anc, claims, thisNode);
    }

    /** handleAllNodeClaims (396-419): claims of other nodes' mailboxes are left out. */
    method HandleAllNodeClaims(node: NodeID, anc: ClaimMap, dead: set<MailboxID>)
      requires Valid()
      modifies this`claims, this`mailboxIDs, this`multipleClaimCount, this`outbox
      ensures Valid()
      ensures Relation() == old(Relation()) + OfNode(Rel(anc), node)
      ensures SnapshotTurn(old(View()), node, anc, thisNode, dead, View()) && nodeRegistries == old(nodeRegistries)
      ensures node != thisNode ==> outbox == old(outbox)
    {
      var re := Select(anc, node);
      RegisterAll(re, dead);
      if node != thisNode {
        NoNoticesForSnapshot(old(claims), re, Rel(anc), node, thisNode, dead);
      }
    }

    /** LookupAll (496-520): the claimants of a name, each once. */
    method LookupAll(name: Name) returns (addresses: seq<MailboxID>)
      requires Valid()
      ensures forall i: MailboxID :: i in addresses <==> (name, i) in Relation()
      ensures forall j, k :: 0 <= j < k < |addresses| ==> addresses[j] != addresses[k]
    {
      addresses := [];
      if name !in claims {
        return;
      }
      var rest := claims[name];
      while rest != {}
        invariant rest <= claims[name]
        invariant forall i :: i in addresses <==> i in claims[name] && i !in rest
        invariant forall j, k :: 0 <= j < k < |addresses| ==> addresses[j] != addresses[k]
        decreases |rest|
      {
        var i :| i in rest;
        addresses := addresses + [i];
        rest := rest - {i};
      }
    }

    /** AddressCount (742-753): the number of claims. */
    method AddressCount() returns (count: nat)
      requires Valid()
      ensures count == |Relation()|
    {
      count := 0;
      var rest := claims.Keys;
      ghost var counted := {};
      while rest != {}
        invariant rest <= claims.Keys
        invariant counted == RelOn(claims, claims.Keys - rest)
        invariant count == |counted|
        decreases |rest|
      {
        var n :| n in rest;
        RelOnGrows(claims, claims.Keys - rest, n);
        assert claims.Keys - (rest - {n}) == claims.Keys - rest + {n};
        count := count + |claims[n]|;
        rest := rest - {n};
        counted := RelOn(claims, claims.Keys - rest);
      }
      assert claims.Keys - rest == claims.Keys;
      assert RelOn(claims, claims.Keys) == Rel(claims);
    }

    /** SeenNames (768-778): for each name, whether anybody claims it. */
    method SeenNames(names: seq<Name>) returns (seen: seq<bool>)
      requires Valid()
      ensures |seen| == |names|
      ensures forall k :: 0 <= k < |names| ==> (seen[k] <==> exists i: MailboxID :: (names[k], i) in Relation())
    {
      seen := [];
      for k := 0 to |names|
        invariant |seen| == k
        invariant forall j :: 0 <= j < k ==> (seen[j] <==> exists i: MailboxID :: (names[j], i) in Rel(claims))
      {
        HasClaimant(claims, names[k]);
        seen := seen + [names[k] in claims];
      }
    }

    /** MultipleClaimCount (522-527): the number of names with two claimants or more. */
    method MultipleClaimCount() returns (count: int)
      requires Valid()
      ensures count == |set p, q | p in Relation() && q in Relation() && p.0 == q.0 && p.1 != q.1 :: p.0|
    {
      count := multipleClaimCount;
      ContestedByRelation(claims);
    }

    /** A claim made on this node is passed on to its peers; one that came from a peer is not. */
    method RegisterMessage(node: NodeID, p: Claims.Claim, local: bool, dead: set<MailboxID>)
      requires Valid()
      modifies this`claims, this`mailboxIDs, this`multipleClaimCount, this`outbox
      ensures Valid() && Relation() == old(Relation()) + {p} && mailboxIDs == Filed(old(mailboxIDs), p)
      ensures outbox == old(outbox) + AllNotices(old(claims), [p], thisNode, dead)
                + Broadcasts(nodeRegistries.Keys, if local && node == thisNode then [RegisterName(p)] else [])
    {
      assert SetOf([p]) == {p};
      assert [p][..0] == [] && FiledAll(mailboxIDs, [p]) == Filed(mailboxIDs, p);
      OneBroadcast(nodeRegistries.Keys, RegisterName(p));
      RegisterAll([p], dead);
      if local && node == thisNode {
        ToOtherNodes(RegisterName(p));
      }
    }

    method UnregisterMessage(node: NodeID, p: Claims.Claim, local: bool)
      requires Valid()
      modifies this`claims, this`multipleClaimCount, this`outbox
      ensures Valid() && Relation() == old(Relation()) - {p}
      ensures outbox == old(outbox)
                + Broadcasts(nodeRegistries.Keys, if local && node == thisNode then [UnregisterName(p)] else [])
    {
      assert SetOf([p]) == {p};
      OneBroadcast(nodeRegistries.Keys, UnregisterName(p));
      UnregisterAll([p]);
      if local && node == thisNode {
        ToOtherNodes(UnregisterName(p));
      }
    }

    /** The messages other than a snapshot. */
    method Change(msg: Msg, dead: set<MailboxID>)
      requires Valid() && !msg.StopRegistry? && !msg.AllNodeClaims?
      modifies this`claims, this`mailboxIDs, this`multipleClaimCount, this`nodeRegistries, this`outbox
      ensures Valid()
      ensures Relation() == Step(old(Relation()), msg) && mailboxIDs == IndexAfter(old(mailboxIDs), msg)
      ensures nodeRegistries == old(nodeRegistries) - if msg.ConnectionStatus? && !msg.connected then {msg.node} else {}
      ensures outbox == old(outbox) + NoticesFor(msg, old(claims), thisNode, dead)
                + Broadcasts(old(nodeRegistries).Keys, Announced(msg, thisNode, old(mailboxIDs)))
    {
      ghost var peers, announced := nodeRegistries.Keys, Announced(msg, thisNode, mailboxIDs);
      match msg {
        case Register(node, p, local) =>
          assert announced == if local && node == thisNode then [RegisterName(p)] else [];
          RegisterMessage(node, p, local, dead);
        case Unregister(node, p, local) =>
          assert announced == if local && node == thisNode then [UnregisterName(p)] else [];
          UnregisterMessage(node, p, local);
        case UnregisterMailbox(id) =>
          assert announced == Removals(EntriesAt(mailboxIDs, id));
          UnregisterMailbox(id);
        case ConnectionStatus(node, connected) =>
          assert Broadcasts(peers, announced) == multiset{};
          HandleConnectionStatus(node, connected);
        case Synchronize =>
          assert Broadcasts(peers, announced) == multiset{};
      }
    }

    /** One turn of Serve's switch (305-354). */
    method Process(msg: Msg, dead: set<MailboxID>)
      requires Valid() && !msg.StopRegistry?
      modifies this`claims, this`mailboxIDs, this`multipleClaimCount, this`nodeRegistries, this`outbox
      ensures Valid()
      ensures Turn(old(View()), msg, thisNode, dead, View())
    {
      if msg.AllNodeClaims? {
        HandleAllNodeClaims(msg.node, msg.claims, dead);
      } else {
        Change(msg, dead);
      }
    }

    /** Serve (285-356): over any run of messages the maps, the index and the
        counter stay in step, each message has its effect on claims, peers and
        what is sent, and the claims are those that the messages make. */
    method Serve(inbox: seq<Msg>, dead: seq<set<MailboxID>>) returns (ghost states: seq<Reg>)
      requires Valid() && |dead| == |inbox|
      modifies this`claims, this`mailboxIDs, this`multipleClaimCount, this`nodeRegistries, this`outbox
      ensures Valid()
      ensures History(states, inbox, thisNode, dead)
      ensures states[0] == old(View()) && states[|states| - 1] == View()
      ensures Relation() == Fold(old(Relation()), inbox)
    {
      states := [View()];
      var k := 0;
      while k < |inbox| && !inbox[k].StopRegistry?
        invariant k <= |inbox| && Valid() && |states| == k + 1
        invariant states[0] == old(View()) && states[k] == View() && Turns(states, inbox, thisNode, dead)
      {
        Process(inbox[k], dead[k]);
        OneMoreTurn(states, inbox, thisNode, dead, View());
        states := states + [View()];
        k := k + 1;
      }
      HistoryFolds(states, inbox, thisNode, dead, 0);
      assert inbox[0..] == inbox;
    }
  }

  function RelOn(c: ClaimMap, names: set<Name>): Relation {
    set p | p in Rel(c) && p.0 in names
  }

  function ClaimsOn(n: Name, ids: set<MailboxID>): Relation {
    set i | i in ids :: (n, i)
  }

  lemma {:induction false} PairsOf(n: Name, ids: set<MailboxID>)
    ensures |ClaimsOn(n, ids)| == |ids|
  {
    if ids == {} {
      assert ClaimsOn(n, ids) == {};
    } else {
      var j :| j in ids;
      PairsOf(n, ids - {j});
      assert (n, j) !in ClaimsOn(n, ids - {j});
      assert ClaimsOn(n, ids) == ClaimsOn(n, ids - {j}) + {(n, j)};
    }
  }

  lemma RelOnGrows(c: ClaimMap, names: set<Name>, n: Name)
    requires n in c && n !in names
    ensures |RelOn(c, names + {n})| == |RelOn(c, names)| + |c[n]|
  {
    PairsOf(n, c[n]);
    var before, more := RelOn(c, names), ClaimsOn(n, c[n]);
    forall p ensures p in RelOn(c, names + {n}) <==> p in before + more {
      RelOf(c, p);
    }
    assert RelOn(c, names + {n}) == before + more;
    assert before !! more;
  }

  lemma HasClaimant(c: ClaimMap, n: Name)
    requires NoEmpty(c)
    ensures n in c <==> exists i: MailboxID :: (n, i) in Rel(c)
  {
    if n in c {
      var i :| i in c[n];
      assert (n, i) in Rel(c);
    }
  }

  lemma TwoOf(ids: set<MailboxID>)
    ensures |ids| > 1 <==> exists i, j :: i in ids && j in ids && i != j
  {
    if |ids| > 1 {
      var i :| i in ids;
      assert |ids - {i}| > 0;
      var j :| j in ids - {i};
      assert i in ids && j in ids && i != j;
    } else if i, j :| i in ids && j in ids && i != j {
      Smaller({i, j}, ids);
    }
  }

  /** Contested names, said of the relation alone. */
  lemma ContestedByRelation(c: ClaimMap)
    ensures Contested(c) == set p, q | p in Rel(c) && q in Rel(c) && p.0 == q.0 && p.1 != q.1 :: p.0
  {
    var pairs := set p, q | p in Rel(c) && q in Rel(c) && p.0 == q.0 && p.1 != q.1 :: p.0;
    forall n ensures n in Contested(c) <==> n in pairs {
      if n in c {
        TwoOf(c[n]);
        if i, j :| i in c[n] && j in c[n] && i != j {
          assert (n, i) in Rel(c) && (n, j) in Rel(c);
        }
      }
    }
  }

  // ---------------------------------------------------------------- disconnect and resync

  /** After a node-down message and the node's next snapshot, the claims held
      for that node are the node's own claims, whatever they were before, and
      all other claims are as they were.  The snapshot need not be trusted to
      hold only the node's claims. */
  lemma ResyncIsExact(peer: Relation, snapshot: ClaimMap, own: Relation, node: NodeID)
    requires OfNode(Rel(snapshot), node) == OfNode(own, node)
    ensures var after := Fold(peer, [ConnectionStatus(node, false), AllNodeClaims(node, snapshot)]);
      && OfNode(after, node) == OfNode(own, node)
      && after - OfNode(after, node) == peer - OfNode(peer, node)
  {
    var msgs := [ConnectionStatus(node, false), AllNodeClaims(node, snapshot)];
    assert msgs[1..] == [AllNodeClaims(node, snapshot)];
    assert msgs[1..][1..] == [];
    var down := peer - OfNode(peer, node);
    var after := down + OfNode(Rel(snapshot), node);
    assert Step(peer, msgs[0]) == down && Step(down, msgs[1]) == after;
    assert Fold(after, msgs[1..][1..]) == after;
    assert Fold(down, msgs[1..]) == after;
  }

  /** The loops over a map of claims that collect the entries of one node (399-416, 436-448). */
  method Select(claims: ClaimMap, node: NodeID) returns (entries: seq<Claim>)
    ensures SetOf(entries) == OfNode(Rel(claims), node) && NoClaimTwice(entries)
  {
    entries := [];
    var names := claims.Keys;
    while names != {}
      invariant names <= claims.Keys && NoClaimTwice(entries)
      invariant forall p :: p in entries <==> p.0 !in names && p.1 in Claimants(claims, p.0) && NodeOf(p.1) == node
      decreases |names|
    {
      var n :| n in names;
      var ids := claims[n];
      ghost var before := entries;
      while ids != {}
        invariant ids <= claims[n] && NoClaimTwice(entries)
        invariant forall p :: p in entries <==>
                    p in before || (p.0 == n && p.1 in claims[n] - ids && NodeOf(p.1) == node)
        decreases |ids|
      {
        var i :| i in ids;
        if NodeOf(i) == node {
          entries := entries + [(n, i)];
        }
        ids := ids - {i};
      }
      names := names - {n};
    }
    forall p ensures p in SetOf(entries) <==> p in OfNode(Rel(claims), node) {
      RelOf(claims, p);
    }
  }
}
