/** Decimal numbers as bytes: what the %d verb prints, and what
    strconv.ParseUint accepts in base 10 (used at mailbox.go:322, 326, 357 and 366). */
module Decimal {
  import opened Wrappers

  type Byte = n: nat | n < 256

  const ZERO: Byte := '0' as int

  predicate IsDigit(b: Byte) { ZERO <= b < ZERO + 10 }

  predicate AllDigits(s: seq<Byte>) { forall i :: 0 <= i < |s| ==> IsDigit(s[i]) }

  /** The %d verb. */
  function Digits(n: nat): seq<Byte> {
    if n < 10 then [ZERO + n] else Digits(n / 10) + [ZERO + n % 10]
  }

  /** The bytes of a text in ASCII. */
  function Ascii(s: string): (b: seq<Byte>)
    requires forall k :: 0 <= k < |s| ==> s[k] < 128 as char
    ensures |b| == |s| && forall k :: 0 <= k < |s| ==> b[k] == s[k] as int
  {
    seq(|s|, k requires 0 <= k < |s| => s[k] as int)
  }

  /** One digit, as a character. */
  lemma DigitIsCharacter(d: nat)
    requires d < 10
    ensures Digits(d) == ["0123456789"[d] as int]
  {
  }

  /** The number a string of digits stands for. */
  function Value(s: seq<Byte>): nat
    requires AllDigits(s)
  {
    if s == [] then 0 else 10 * Value(s[..|s| - 1]) + (s[|s| - 1] - ZERO)
  }

  /** strconv.ParseUint(s, 10, bits) for a largest value of max; both kinds of error are None. */
  function ParseUint(s: seq<Byte>, max: nat): Option<nat> {
    if s == [] || !AllDigits(s) || Value(s) > max then None else Some(Value(s))
  }

  function Zeros(k: nat): (s: seq<Byte>)
    ensures |s| == k && forall i :: 0 <= i < k ==> s[i] == ZERO
  {
    seq(k, i => ZERO)
  }

  function Power10(k: nat): nat { if k == 0 then 1 else 10 * Power10(k - 1) }

  lemma {:induction false} DigitsHasValue(n: nat)
    ensures Digits(n) != [] && AllDigits(Digits(n)) && Value(Digits(n)) == n
  {
    if n < 10 {
      assert Digits(n)[..0] == [];
    } else {
      DigitsHasValue(n / 10);
      assert Digits(n)[..|Digits(n)| - 1] == Digits(n / 10);
    }
  }

  lemma {:induction false} LeadingZeros(k: nat, s: seq<Byte>)
    requires AllDigits(s)
    ensures AllDigits(Zeros(k) + s) && Value(Zeros(k) + s) == Value(s)
  {
    var t := Zeros(k) + s;
    if s != [] {
      LeadingZeros(k, s[..|s| - 1]);
      assert t[..|t| - 1] == Zeros(k) + s[..|s| - 1];
    } else if k > 0 {
      LeadingZeros(k - 1, s);
      assert t[..|t| - 1] == Zeros(k - 1) + s;
    }
  }

  /** A string of digits is what %d prints for its value, behind some zeros. */
  lemma {:induction false} DigitsBehindZeros(s: seq<Byte>) returns (k: nat)
    requires s != [] && AllDigits(s)
    ensures s == Zeros(k) + Digits(Value(s))
  {
    var n, init := |s| - 1, s[..|s| - 1];
    if Value(init) == 0 {
      k := n;
      if init != [] {
        var j := DigitsBehindZeros(init);
        assert init == Zeros(j) + [ZERO];
      }
      assert init == Zeros(n);
      assert s == Zeros(n) + [s[n]];
    } else {
      k := DigitsBehindZeros(init);
      assert Digits(Value(s)) == Digits(Value(init)) + [s[n]];
      assert s == init + [s[n]];
    }
  }

  /** Exactly which byte strings ParseUint reads as n. */
  lemma ParseUintReads(s: seq<Byte>, max: nat, n: nat)
    ensures ParseUint(s, max) == Some(n) <==> n <= max && exists k: nat :: s == Zeros(k) + Digits(n)
  {
    DigitsHasValue(n);
    if ParseUint(s, max) == Some(n) {
      var k := DigitsBehindZeros(s);
    }
    if k: nat :| s == Zeros(k) + Digits(n) {
      LeadingZeros(k, Digits(n));
    }
  }

  lemma {:induction false} DigitsLength(n: nat, k: nat)
    requires n < Power10(k) && k > 0
    ensures 1 <= |Digits(n)| <= k
  {
    if n >= 10 {
      DigitsLength(n / 10, k - 1);
    }
  }
}
