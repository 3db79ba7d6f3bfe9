/** The nonce filter: which byte strings the issuer and the verifier accept. */
module Nonce {
  import opened Wrappers

  const MIN_NONCE_BYTES := 32

  function Repeat(u: seq<byte>, k: nat): seq<byte> {
    if k == 0 then [] else u + Repeat(u, k - 1)
  }

  function ByteValues(n: seq<byte>): set<byte> {
    set b | b in n
  }

  predicate OneByteValue(n: seq<byte>) {
    |ByteValues(n)| == 1
  }

  predicate RepeatsWidth(n: seq<byte>, width: nat)
    requires 0 < width <= |n|
  {
    |n| % width == 0 && n == Repeat(n[..width], |n| / width)
  }

  /** Long enough, more than one byte value, and no repeated block of 2, 4, 8 or 16 bytes. */
  predicate Accepted(n: seq<byte>) {
    && |n| >= MIN_NONCE_BYTES
    && !OneByteValue(n)
    && !RepeatsWidth(n, 2)
    && !RepeatsWidth(n, 4)
    && !RepeatsWidth(n, 8)
    && !RepeatsWidth(n, 16)
  }

  /** Not a proper power: no block, of any length, repeated two or more times. */
  ghost predicate Primitive(n: seq<byte>) {
    forall u: seq<byte>, k: nat :: k >= 2 ==> n != Repeat(u, k)
  }

  lemma {:induction false} RepeatLength(u: seq<byte>, k: nat)
    ensures |Repeat(u, k)| == |u| * k
  {
    if k > 0 {
      RepeatLength(u, k - 1);
    }
  }

  lemma {:induction false} PairedRepeat(u: seq<byte>, k: nat)
    ensures Repeat(u, 2 * k) == Repeat(u + u, k)
  {
    if k > 0 {
      PairedRepeat(u, k - 1);
      assert Repeat(u, 2 * k) == u + Repeat(u, 2 * k - 1);
      assert Repeat(u, 2 * k - 1) == u + Repeat(u, 2 * k - 2);
    }
  }

  /** A repeated block of width w is also a repeated block of width 2w, when that divides. */
  lemma DoubledWidth(n: seq<byte>, w: nat, k: nat)
    requires w > 0 && k >= 1 && 2 * w <= |n|
    requires n == Repeat(n[..w], 2 * k)
    ensures n == Repeat(n[..2 * w], k)
  {
    var u := n[..w];
    PairedRepeat(u, k);
    assert n == (u + u) + Repeat(u + u, k - 1);
    assert n[..2 * w] == u + u;
  }

  lemma {:induction false} AllEqualIsRepeat(n: seq<byte>, b: byte)
    requires forall i :: 0 <= i < |n| ==> n[i] == b
    ensures n == Repeat([b], |n|)
  {
    if |n| > 0 {
      AllEqualIsRepeat(n[1..], b);
      assert n == [b] + n[1..];
    }
  }

  lemma {:induction false} RepeatOfOne(b: byte, k: nat)
    ensures forall i :: 0 <= i < |Repeat([b], k)| ==> Repeat([b], k)[i] == b
  {
    if k > 0 {
      RepeatOfOne(b, k - 1);
    }
  }

  lemma OneValueMeansEqual(n: seq<byte>)
    requires |n| > 0
    ensures OneByteValue(n) <==> forall i :: 0 <= i < |n| ==> n[i] == n[0]
  {
    var values := ByteValues(n);
    assert n[0] in values;
    if |values| == 1 {
      forall i | 0 <= i < |n| ensures n[i] == n[0] {
        assert n[i] in values;
        assert |values - {n[0]}| == 0;
        assert n[i] !in values - {n[0]};
      }
    }
    if forall i :: 0 <= i < |n| ==> n[i] == n[0] {
      assert values == {n[0]};
    }
  }

  /** The bytes repeat with this period, which divides the length. */
  predicate HasPeriod(n: seq<byte>, width: nat) {
    0 < width <= |n| && |n| % width == 0 && forall i :: 0 <= i < |n| - width ==> n[i] == n[i + width]
  }

  lemma {:induction false} RepeatHasPeriod(u: seq<byte>, k: nat)
    requires u != [] && k >= 1
    ensures |Repeat(u, k)| == |u| * k && Repeat(u, k)[..|u|] == u
    ensures forall i :: 0 <= i < |Repeat(u, k)| - |u| ==> Repeat(u, k)[i] == Repeat(u, k)[i + |u|]
  {
    RepeatLength(u, k);
    if k == 1 {
      assert Repeat(u, 1) == u;
    } else {
      var rest := Repeat(u, k - 1);
      RepeatHasPeriod(u, k - 1);
      assert Repeat(u, k) == u + rest;
      forall i | 0 <= i < |u + rest| - |u| ensures (u + rest)[i] == (u + rest)[i + |u|] {
        assert (u + rest)[i + |u|] == rest[i];
        if i >= |u| {
          assert (u + rest)[i] == rest[i - |u|];
        } else {
          assert rest[i] == rest[..|u|][i];
        }
      }
    }
  }

  lemma {:induction false} PeriodIsRepeat(n: seq<byte>, width: nat, k: nat)
    requires 0 < width && k >= 1 && |n| == width * k
    requires forall i :: 0 <= i < |n| - width ==> n[i] == n[i + width]
    ensures n == Repeat(n[..width], k)
    decreases k
  {
    if k == 1 {
      assert n == n[..width];
      assert Repeat(n, 1) == n;
    } else {
      var rest := n[width..];
      assert |rest| == width * (k - 1);
      assert forall i :: 0 <= i < |rest| ==> rest[i] == n[i + width];
      assert width <= |rest| by { ProductAtLeast(width, k - 1); }
      assert rest[..width] == n[..width] by {
        assert forall i :: 0 <= i < width ==> rest[i] == n[i];
      }
      PeriodIsRepeat(rest, width, k - 1);
      assert n == n[..width] + rest;
    }
  }

  lemma ProductAtLeast(width: nat, k: nat)
    requires k >= 1
    ensures width <= width * k
  {
  }

  lemma RepeatsIffPeriod(n: seq<byte>, width: nat)
    requires 0 < width <= |n|
    ensures RepeatsWidth(n, width) <==> HasPeriod(n, width)
  {
    if |n| % width == 0 {
      var k := |n| / width;
      assert |n| == width * k && k >= 1;
      if n == Repeat(n[..width], k) {
        RepeatHasPeriod(n[..width], k);
      }
      if HasPeriod(n, width) {
        PeriodIsRepeat(n, width, k);
      }
    }
  }

  /**
   Which byte strings are accepted, of any length: 32 bytes or more, two of them different, and
   no period of 2, 4, 8 or 16 that divides the length.
   */
  lemma AcceptedIffAperiodic(n: seq<byte>)
    ensures Accepted(n) <==>
            && |n| >= 32 && (exists i :: 0 <= i < |n| && n[i] != n[0])
            && !HasPeriod(n, 2) && !HasPeriod(n, 4) && !HasPeriod(n, 8) && !HasPeriod(n, 16)
  {
    if |n| >= 32 {
      OneValueMeansEqual(n);
      RepeatsIffPeriod(n, 2);
      RepeatsIffPeriod(n, 4);
      RepeatsIffPeriod(n, 8);
      RepeatsIffPeriod(n, 16);
    }
  }

  lemma OneValueIffRepeat(n: seq<byte>)
    requires |n| > 0
    ensures OneByteValue(n) <==> n == Repeat(n[..1], |n|)
  {
    OneValueMeansEqual(n);
    assert n[..1] == [n[0]];
    if OneByteValue(n) {
      AllEqualIsRepeat(n, n[0]);
    }
    RepeatOfOne(n[0], |n|);
  }

  lemma TwoWideRepeatsAtFour(n: seq<byte>)
    requires |n| >= MIN_NONCE_BYTES && |n| % 16 == 0 && n == Repeat(n[..2], |n| / 2)
    ensures RepeatsWidth(n, 4)
  {
    DoubledWidth(n, 2, 4 * (|n| / 16));
  }

  lemma FourOrEightWideRepeats(n: seq<byte>)
    requires |n| >= MIN_NONCE_BYTES && |n| % 16 == 0 && (RepeatsWidth(n, 4) || RepeatsWidth(n, 8))
    ensures RepeatsWidth(n, 16)
  {
    var q := |n| / 16;
    if RepeatsWidth(n, 4) {
      DoubledWidth(n, 4, 2 * q);
    }
    DoubledWidth(n, 8, q);
  }

  /** Every block width the filter looks at divides 16, so the last test implies the others. */
  lemma NarrowBlocksRepeatAtSixteen(n: seq<byte>)
    requires |n| >= MIN_NONCE_BYTES && |n| % 16 == 0
    requires OneByteValue(n) || RepeatsWidth(n, 2) || RepeatsWidth(n, 4) || RepeatsWidth(n, 8)
    ensures RepeatsWidth(n, 16)
  {
    if OneByteValue(n) {
      OneValueIffRepeat(n);
      DoubledWidth(n, 1, 8 * (|n| / 16));
    }
    if OneByteValue(n) || RepeatsWidth(n, 2) {
      TwoWideRepeatsAtFour(n);
    }
    FourOrEightWideRepeats(n);
  }

  /** For every length divisible by 16 the whole filter is the width-16 test alone. */
  lemma WidthSixteenDecides(n: seq<byte>)
    requires |n| >= MIN_NONCE_BYTES && |n| % 16 == 0
    ensures Accepted(n) <==> !RepeatsWidth(n, 16)
  {
    if OneByteValue(n) || RepeatsWidth(n, 2) || RepeatsWidth(n, 4) || RepeatsWidth(n, 8) {
      NarrowBlocksRepeatAtSixteen(n);
    }
  }

  lemma ProperDivisorsOf32(w: nat, k: nat)
    requires w * k == 32 && k >= 2
    ensures w in {1, 2, 4, 8, 16}
  {
    assert w >= 1;
    assert (w - 1) * k >= 0 && w * (k - 2) >= 0;
    assert k <= 32 && w <= 16;
  }

  lemma RepeatsItsPrefix(n: seq<byte>, u: seq<byte>, k: nat)
    requires k >= 1 && n == Repeat(u, k)
    ensures |n| == |u| * k && |u| <= |n| && n[..|u|] == u
  {
    RepeatLength(u, k);
    assert n == u + Repeat(u, k - 1);
  }

  /** A 32-byte nonce, the length the issuer asks for, is accepted iff it is primitive. */
  lemma AcceptedIffPrimitive(n: seq<byte>)
    requires |n| == MIN_NONCE_BYTES
    ensures Accepted(n) <==> Primitive(n)
  {
    WidthSixteenDecides(n);
    if !Primitive(n) {
      var u, k :| k >= 2 && n == Repeat(u, k);
      RepeatsItsPrefix(n, u, k);
      ProperDivisorsOf32(|u|, k);
      if |u| == 1 {
        OneValueIffRepeat(n);
      }
      assert |n| / |u| == k;
      if |u| != 16 {
        NarrowBlocksRepeatAtSixteen(n);
      }
    }
    if RepeatsWidth(n, 16) {
      assert n == Repeat(n[..16], 2);
    }
  }
}
