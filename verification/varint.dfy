/** Unsigned LEB128 (section 7.6 of DWARF 4), as binary.PutUvarint and
    binary.Uvarint of the Go standard library have it for 64-bit numbers
    (used at mailbox.go:228, 236 and 257). */
module Varint {
  import opened Decimal
  import opened Ids

  /** PutUvarint: seven bits a byte, the lowest first, the top bit set on all but the last. */
  function PutUvarint(x: nat): seq<Byte> {
    if x < 128 then [x] else [128 + x % 128] + PutUvarint(x / 128)
  }

  /** The loop of Uvarint at its i-th byte, with x read so far and its shift as the power unit. */
  function Loop(s: seq<Byte>, i: nat, x: nat, unit: nat): (nat, int)
    requires i <= |s|
    decreases |s| - i
  {
    if i == |s| then (0, 0)
    else if s[i] < 128 then
      if i > 9 || (i == 9 && s[i] > 1) then (0, -(i + 1)) else (x + s[i] * unit, i + 1)
    else Loop(s, i + 1, x + (s[i] - 128) * unit, unit * 128)
  }

  /** Uvarint: the number and how many bytes it took; none when the bytes end
      too early, a negative count when the number is too large. */
  function Uvarint(s: seq<Byte>): (nat, int) { Loop(s, 0, 0, 1) }

  /** The position of the last byte of the number: the first without its top bit. */
  function Stop(s: seq<Byte>): (k: nat)
    ensures k <= |s| && (k < |s| ==> s[k] < 128)
    ensures forall i :: 0 <= i < k ==> s[i] >= 128
  {
    if s == [] || s[0] < 128 then 0 else 1 + Stop(s[1..])
  }

  /** The number that the groups of seven bits stand for. */
  function Groups(s: seq<Byte>): nat {
    if s == [] then 0 else s[0] % 128 + 128 * Groups(s[1..])
  }

  function Power128(k: nat): nat { if k == 0 then 1 else 128 * Power128(k - 1) }

  lemma Shift(x: nat, low: nat, unit: nat, rest: nat)
    ensures x + low * unit + unit * 128 * rest == x + unit * (low + 128 * rest)
  {
    assert unit * 128 * rest == unit * (128 * rest);
  }

  /** What is left to read at the i-th byte, when the number ends at byte e. */
  lemma {:induction false} LoopReadsGroups(s: seq<Byte>, i: nat, x: nat, unit: nat, e: nat)
    requires i <= e < |s| && s[e] < 128 && forall j :: i <= j < e ==> s[j] >= 128
    ensures Loop(s, i, x, unit) ==
      if e > 9 || (e == 9 && s[e] > 1) then (0, -(e + 1)) else (x + unit * Groups(s[i..e + 1]), e + 1)
    decreases e - i
  {
    var low := s[i] % 128;
    var number := s[i..e + 1];
    assert number[0] == s[i] && number[1..] == s[i + 1..e + 1];
    if i == e {
      Shift(x, low, unit, Groups([]));
    } else {
      LoopReadsGroups(s, i + 1, x + low * unit, unit * 128, e);
      Shift(x, low, unit, Groups(s[i + 1..e + 1]));
    }
  }

  lemma {:induction false} LoopFindsNoEnd(s: seq<Byte>, i: nat, x: nat, unit: nat)
    requires i <= |s| && forall j :: i <= j < |s| ==> s[j] >= 128
    ensures Loop(s, i, x, unit) == (0, 0)
    decreases |s| - i
  {
    if i < |s| {
      LoopFindsNoEnd(s, i + 1, x + (s[i] - 128) * unit, unit * 128);
    }
  }

  lemma {:induction false} GroupsBound(s: seq<Byte>)
    ensures Groups(s) < Power128(|s|)
    ensures s != [] ==> s[|s| - 1] % 128 * Power128(|s| - 1) <= Groups(s)
    ensures s != [] ==> Groups(s) < (s[|s| - 1] % 128 + 1) * Power128(|s| - 1)
  {
    if |s| == 1 {
      assert s[1..] == [];
    } else if s != [] {
      GroupsBound(s[1..]);
      var top, p := s[|s| - 1] % 128, Power128(|s| - 2);
      assert s[1..][|s| - 2] == s[|s| - 1];
      assert Power128(|s| - 1) == 128 * p;
      assert top * (128 * p) == 128 * (top * p);
      assert (top + 1) * (128 * p) == 128 * ((top + 1) * p);
    }
  }

  lemma PowersOf128()
    ensures Power128(9) == 0x8000_0000_0000_0000 && 2 * Power128(9) == MODULUS
    ensures forall k: nat | k <= 9 :: Power128(k) <= Power128(9)
  {
    assert Power128(1) == 128 && Power128(2) == 16384 && Power128(3) == 2097152 && Power128(4) == 268435456;
    assert Power128(5) == 34359738368 && Power128(6) == 4398046511104;
    assert Power128(7) == 562949953421312 && Power128(8) == 72057594037927936;
  }

  /** The test on the tenth byte is the test that the number fits 64 bits. */
  lemma TenthByteDecides(t: seq<Byte>)
    requires 0 < |t| <= 10 && t[|t| - 1] < 128
    ensures |t| == 10 && t[9] > 1 <==> Groups(t) >= MODULUS
  {
    GroupsBound(t);
    PowersOf128();
    var top, p := t[|t| - 1], Power128(|t| - 1);
    if |t| < 10 {
      assert (top + 1) * p <= 128 * p == Power128(|t|) <= Power128(9);
    }
  }

  /** What Uvarint makes of any bytes: the LEB128 number when it takes at most
      ten bytes and fits 64 bits, else 0; no bytes read only when no byte ends the number. */
  lemma UvarintIsLEB128(s: seq<Byte>)
    ensures var k := Stop(s); var (x, n) := Uvarint(s);
      && (n == 0 <==> k == |s|)
      && (n > 0 <==> k < |s| && k <= 9 && Groups(s[..k + 1]) < MODULUS)
      && (n > 0 ==> n == k + 1)
      && x == (if n > 0 then Groups(s[..k + 1]) else 0)
  {
    var k := Stop(s);
    if k == |s| {
      LoopFindsNoEnd(s, 0, 0, 1);
    } else {
      LoopReadsGroups(s, 0, 0, 1, k);
      if k <= 9 {
        TenthByteDecides(s[..k + 1]);
      }
    }
  }

  lemma {:induction false} PutUvarintHolds(x: nat)
    ensures PutUvarint(x) != [] && Stop(PutUvarint(x)) == |PutUvarint(x)| - 1
    ensures Groups(PutUvarint(x)) == x
  {
    if x >= 128 {
      PutUvarintHolds(x / 128);
      assert PutUvarint(x)[1..] == PutUvarint(x / 128);
    } else {
      assert PutUvarint(x)[1..] == [];
    }
  }

  lemma {:induction false} PutUvarintLength(x: nat, k: nat)
    requires k > 0 && x < Power128(k)
    ensures |PutUvarint(x)| <= k
  {
    if x >= 128 {
      PutUvarintLength(x / 128, k - 1);
    }
  }

  /** Every 64-bit number takes at most ten bytes and is read back from them, whatever follows. */
  lemma UvarintInverts(x: nat, rest: seq<Byte>)
    requires x < MODULUS
    ensures |PutUvarint(x)| <= 10
    ensures Uvarint(PutUvarint(x) + rest) == (x, |PutUvarint(x)|)
  {
    var s := PutUvarint(x);
    PowersOf128();
    assert Power128(10) == 128 * Power128(9);
    PutUvarintLength(x, 10);
    PutUvarintHolds(x);
    StopIgnoresRest(s, rest);
    UvarintIsLEB128(s + rest);
    assert (s + rest)[..|s|] == s;
  }

  lemma {:induction false} StopIgnoresRest(s: seq<Byte>, rest: seq<Byte>)
    requires Stop(s) < |s|
    ensures Stop(s + rest) == Stop(s)
  {
    if s[0] >= 128 {
      assert (s + rest)[1..] == s[1..] + rest;
      StopIgnoresRest(s[1..], rest);
    }
  }
}
