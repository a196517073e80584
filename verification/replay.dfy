/** Catching up from a snapshot and a stream of updates: what the receiver ends
    up with, claim by claim. */
module Replay {
  import opened Wrappers
  import opened Claims
  import opened Registry

  /** Applying registrations and unregistrations in order. */
  function Apply(r: Relation, us: seq<Update>): Relation {
    if us == [] then r
    else
      var before := Apply(r, us[..|us| - 1]);
      match us[|us| - 1]
      case RegisterName(p) => before + {p}
      case UnregisterName(p) => before - {p}
  }

  lemma {:induction false} ApplyAppends(r: Relation, a: seq<Update>, b: seq<Update>)
    ensures Apply(r, a + b) == Apply(Apply(r, a), b)
  {
    if b == [] {
      assert a + b == a;
    } else {
      assert (a + b)[..|a + b| - 1] == a + b[..|b| - 1];
      ApplyAppends(r, a, b[..|b| - 1]);
    }
  }

  /** What the last update about p says: None when there is none. */
  function Last(us: seq<Update>, p: Claim): Option<bool> {
    if us == [] then None
    else if us[|us| - 1].p == p then Some(us[|us| - 1].RegisterName?)
    else Last(us[..|us| - 1], p)
  }

  /** A claim is decided by the last update about it, or else by the start. */
  lemma {:induction false} ApplyByLast(r: Relation, us: seq<Update>, p: Claim)
    ensures p in Apply(r, us) <==> if Last(us, p).Some? then Last(us, p).value else p in r
  {
    if us != [] {
      ApplyByLast(r, us[..|us| - 1], p);
    }
  }

  lemma {:induction false} LastAppends(a: seq<Update>, b: seq<Update>, p: Claim)
    ensures Last(a + b, p) == if Last(b, p).Some? then Last(b, p) else Last(a, p)
  {
    if b == [] {
      assert a + b == a;
    } else {
      assert (a + b)[..|a + b| - 1] == a + b[..|b| - 1];
      LastAppends(a, b[..|b| - 1], p);
    }
  }

  /** What a peer that held no claims of the node ends up with: updates number
      d to k, then the snapshot taken after update number g, as a union, then
      the rest. */
  function Delivered(start: Relation, us: seq<Update>, d: nat, g: nat, k: nat): Relation
    requires d <= k <= |us| && g <= |us|
  {
    Apply(Apply({}, us[d..k]) + Apply(start, us[..g]), us[k..])
  }

  /** No claim of the snapshot was withdrawn by an update that overtook it:
      one processed after the snapshot was taken, delivered before it, and not
      followed by another update about the claim. */
  ghost predicate NoneOvertaken(start: Relation, us: seq<Update>, g: nat, k: nat)
    requires g <= |us| && k <= |us|
  {
    g < k ==> forall p :: p in Apply(start, us[..g]) ==> Last(us[k..], p).Some? || Last(us[g..k], p) != Some(false)
  }

  lemma LastSplits(us: seq<Update>, i: nat, j: nat, p: Claim)
    requires i <= j <= |us|
    ensures Last(us[i..], p) == if Last(us[j..], p).Some? then Last(us[j..], p) else Last(us[i..j], p)
  {
    assert us[i..] == us[i..j] + us[j..];
    LastAppends(us[i..j], us[j..], p);
  }

  lemma LastSplitsWithin(us: seq<Update>, i: nat, j: nat, k: nat, p: Claim)
    requires i <= j <= k <= |us|
    ensures Last(us[i..k], p) == if Last(us[j..k], p).Some? then Last(us[j..k], p) else Last(us[i..j], p)
  {
    assert us[i..k] == us[i..j] + us[j..k];
    LastAppends(us[i..j], us[j..k], p);
  }

  /** One claim: delivered rightly unless an update that overtook the snapshot withdrew it. */
  lemma DeliveredAt(start: Relation, us: seq<Update>, d: nat, g: nat, k: nat, p: Claim)
    requires d <= k <= |us| && d <= g <= |us|
    ensures (p in Delivered(start, us, d, g, k) <==> p in Apply(start, us)) <==>
      !(g < k && p in Apply(start, us[..g]) && Last(us[k..], p).None? && Last(us[g..k], p) == Some(false))
  {
    var s := Apply(start, us[..g]);
    assert us[0..] == us && us[..g] == us[0..g];
    ApplyByLast(start, us, p);
    ApplyByLast(start, us[..g], p);
    ApplyByLast({}, us[d..k], p);
    ApplyByLast(Apply({}, us[d..k]) + s, us[k..], p);
    LastSplits(us, 0, g, p);
    LastSplitsWithin(us, 0, d, g, p);
    if k <= g {
      LastSplitsWithin(us, d, k, g, p);
      LastSplits(us, g, g, p);
      LastSplits(us, k, g, p);
    } else {
      LastSplitsWithin(us, d, g, k, p);
      LastSplits(us, g, k, p);
    }
  }

  /** The peer catches up exactly when no update that overtook the snapshot withdrew one of its claims. */
  lemma CatchesUpIffNoneOvertaken(start: Relation, us: seq<Update>, d: nat, g: nat, k: nat)
    requires d <= k <= |us| && d <= g <= |us|
    ensures Delivered(start, us, d, g, k) == Apply(start, us) <==> NoneOvertaken(start, us, g, k)
  {
    forall p
      ensures (p in Delivered(start, us, d, g, k) <==> p in Apply(start, us)) <==>
        !(g < k && p in Apply(start, us[..g]) && Last(us[k..], p).None? && Last(us[g..k], p) == Some(false))
    {
      DeliveredAt(start, us, d, g, k, p);
    }
    if Delivered(start, us, d, g, k) == Apply(start, us) && g < k {
      forall p | p in Apply(start, us[..g]) ensures Last(us[k..], p).Some? || Last(us[g..k], p) != Some(false) {
        DeliveredAt(start, us, d, g, k, p);
      }
    }
  }

  /** A snapshot that overtakes more updates on its way is overtaken by fewer, which can only help. */
  lemma FewerOvertaken(start: Relation, us: seq<Update>, g: nat, k: nat, fewer: nat)
    requires g <= |us| && fewer <= k <= |us| && NoneOvertaken(start, us, g, k)
    ensures NoneOvertaken(start, us, g, fewer)
  {
    if g < fewer {
      forall p | p in Apply(start, us[..g])
        ensures Last(us[fewer..], p).Some? || Last(us[g..fewer], p) != Some(false)
      {
        LastSplits(us, fewer, k, p);
        LastSplitsWithin(us, g, fewer, k, p);
      }
    }
  }

  /** In particular: a snapshot that no later update overtakes brings the peer
      up to date, whatever came before it, was lost before it, or follows it. */
  lemma SnapshotCatchesUp(start: Relation, us: seq<Update>, d: nat, g: nat, k: nat)
    requires d <= k <= g <= |us|
    ensures Delivered(start, us, d, g, k) == Apply(start, us)
  {
    CatchesUpIffNoneOvertaken(start, us, d, g, k);
  }

  /** Were the snapshot taken before updates start to flow, a registration in between would be lost. */
  lemma SnapshotTooEarlyLosesUpdates(start: Relation, us: seq<Update>, d: nat, g: nat, k: nat, p: Claim)
    requires g < d <= k <= |us|
    requires p !in Apply(start, us[..g]) && Last(us[g..d], p) == Some(true) && Last(us[d..], p).None?
    ensures p in Apply(start, us) && p !in Delivered(start, us, d, g, k)
  {
    assert us[0..] == us;
    ApplyByLast(start, us, p);
    LastSplits(us, 0, d, p);
    LastSplitsWithin(us, 0, g, d, p);
    LastSplits(us, d, k, p);
    ApplyByLast({}, us[d..k], p);
    ApplyByLast(Apply({}, us[d..k]) + Apply(start, us[..g]), us[k..], p);
  }
}
