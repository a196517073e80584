/** Name claims as a relation between names and mailbox ids, and the map from
    names to sets that represents it (registry.go:185-192). */
module Claims {
  import opened Ids

  type Name = string

  type Claim = (Name, MailboxID)

  type Relation = set<Claim>

  type ClaimMap = map<Name, set<MailboxID>>

  function Rel(c: ClaimMap): Relation {
    set n, i | n in c && i in c[n] :: (n, i)
  }

  /** A name without claimants has no entry. */
  ghost predicate NoEmpty(c: ClaimMap) {
    forall n :: n in c ==> c[n] != {}
  }

  function Claimants(c: ClaimMap, n: Name): set<MailboxID> {
    if n in c then c[n] else {}
  }

  /** The names that more than one mailbox claims. */
  function Contested(c: ClaimMap): set<Name> {
    set n | n in c && |c[n]| > 1
  }

  function Add(c: ClaimMap, p: Claim): ClaimMap {
    c[p.0 := Claimants(c, p.0) + {p.1}]
  }

  function Drop(c: ClaimMap, p: Claim): ClaimMap {
    if p.0 !in c then c
    else if c[p.0] - {p.1} == {} then c - {p.0}
    else c[p.0 := c[p.0] - {p.1}]
  }

  lemma RelOf(c: ClaimMap, p: Claim)
    ensures p in Rel(c) <==> p.1 in Claimants(c, p.0)
  {
  }

  lemma AddIsUnion(c: ClaimMap, p: Claim)
    ensures Rel(Add(c, p)) == Rel(c) + {p}
    ensures NoEmpty(c) ==> NoEmpty(Add(c, p))
  {
    forall q ensures q in Rel(Add(c, p)) <==> q in Rel(c) + {p} {
      RelOf(c, q);
      RelOf(Add(c, p), q);
    }
  }

  /** A name becomes contested exactly when its claimants go from at most one to more. */
  lemma AddContested(c: ClaimMap, p: Claim)
    ensures |Contested(Add(c, p))| ==
      |Contested(c)| + if |Claimants(c, p.0)| <= 1 && |Claimants(Add(c, p), p.0)| > 1 then 1 else 0
  {
    var c' := Add(c, p);
    if |Claimants(c, p.0)| <= 1 {
      assert p.0 !in Contested(c);
      assert Contested(c') == Contested(c) + if |c'[p.0]| > 1 then {p.0} else {};
    } else {
      Smaller(Claimants(c, p.0), c'[p.0]);
      assert Contested(c') == Contested(c);
    }
  }

  lemma Smaller<T>(a: set<T>, b: set<T>)
    requires a <= b
    ensures |a| <= |b|
  {
    assert b == a + (b - a);
  }

  lemma DropIsDifference(c: ClaimMap, p: Claim)
    requires NoEmpty(c)
    ensures Rel(Drop(c, p)) == Rel(c) - {p}
    ensures NoEmpty(Drop(c, p))
  {
    forall q ensures q in Rel(Drop(c, p)) <==> q in Rel(c) - {p} {
      RelOf(c, q);
      RelOf(Drop(c, p), q);
    }
  }

  /** A name stops being contested exactly when its claimants go from more than one to at most one. */
  lemma DropContested(c: ClaimMap, p: Claim)
    ensures |Contested(Drop(c, p))| ==
      |Contested(c)| - if |Claimants(c, p.0)| > 1 && |Claimants(c, p.0) - {p.1}| <= 1 then 1 else 0
  {
    var c' := Drop(c, p);
    if p.0 in c {
      Smaller(c[p.0] - {p.1}, c[p.0]);
      if |c[p.0]| > 1 && |c[p.0] - {p.1}| <= 1 {
        assert Contested(c') == Contested(c) - {p.0};
      } else {
        assert Contested(c') == Contested(c);
      }
    }
  }

  function AddAll(c: ClaimMap, ps: seq<Claim>): ClaimMap {
    if ps == [] then c else Add(AddAll(c, ps[..|ps| - 1]), ps[|ps| - 1])
  }

  function DropAll(c: ClaimMap, ps: seq<Claim>): ClaimMap {
    if ps == [] then c else Drop(DropAll(c, ps[..|ps| - 1]), ps[|ps| - 1])
  }

  function SetOf(ps: seq<Claim>): Relation {
    set p | p in ps
  }

  lemma {:induction false} AddAllIsUnion(c: ClaimMap, ps: seq<Claim>)
    ensures Rel(AddAll(c, ps)) == Rel(c) + SetOf(ps)
    ensures NoEmpty(c) ==> NoEmpty(AddAll(c, ps))
  {
    if ps != [] {
      var n := |ps| - 1;
      AddAllIsUnion(c, ps[..n]);
      AddIsUnion(AddAll(c, ps[..n]), ps[n]);
      assert ps == ps[..n] + [ps[n]];
    }
  }

  lemma {:induction false} DropAllIsDifference(c: ClaimMap, ps: seq<Claim>)
    requires NoEmpty(c)
    ensures Rel(DropAll(c, ps)) == Rel(c) - SetOf(ps)
    ensures NoEmpty(DropAll(c, ps))
  {
    if ps != [] {
      var n := |ps| - 1;
      DropAllIsDifference(c, ps[..n]);
      DropIsDifference(DropAll(c, ps[..n]), ps[n]);
      assert ps == ps[..n] + [ps[n]];
    }
  }

  /** The claims of the mailboxes of one node. */
  function OfNode(r: Relation, node: NodeID): Relation {
    set p | p in r && NodeOf(p.1) == node
  }

  /** Two maps without empty sets that stand for the same relation are equal:
      the relation is all there is to a registry's claims. */
  lemma RelDeterminesMap(c: ClaimMap, d: ClaimMap)
    requires NoEmpty(c) && NoEmpty(d) && Rel(c) == Rel(d)
    ensures c == d
  {
    forall n ensures Claimants(c, n) == Claimants(d, n) {
      forall i: MailboxID ensures i in Claimants(c, n) <==> i in Claimants(d, n) {
        RelOf(c, (n, i));
        RelOf(d, (n, i));
      }
    }
    forall n ensures n in c <==> n in d {
      assert Claimants(c, n) == Claimants(d, n);
    }
    forall n | n in c ensures c[n] == d[n] {
      assert Claimants(c, n) == Claimants(d, n);
    }
  }
}
