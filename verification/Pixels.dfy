/**
 Decoding an X11 Z-pixmap into RGBA.  Words are unsigned 32-bit numbers; `&`, `|` and shifts are
 defined on their binary digits.  Offsets are computed in checked 64-bit arithmetic.
 */
module Pixels {

  type Byte = b: nat | b < 256

  const MAX_CAPTURE_BYTES := 8 * 1024 * 1024
  const USIZE_LIMIT := 0x1_0000_0000_0000_0000

  datatype ImageOrder = LsbFirst | MsbFirst

  datatype Visual = Visual(red: nat, green: nat, blue: nat)

  datatype Image = Image(data: seq<Byte>, width: nat, height: nat, stride: nat, bytesPerPixel: nat, order: ImageOrder, visual: Visual)

  // ---------------------------------------------------------------- binary digits

  function And(a: nat, b: nat): nat { if a == 0 || b == 0 then 0 else (a % 2) * (b % 2) + 2 * And(a / 2, b / 2) }

  function Or(a: nat, b: nat): nat {
    if a == 0 then b else if b == 0 then a else (if a % 2 == 1 || b % 2 == 1 then 1 else 0) + 2 * Or(a / 2, b / 2)
  }

  function Power(n: nat): (p: nat)
    ensures p >= 1
  {
    if n == 0 then 1 else 2 * Power(n - 1)
  }

  function TrailingZeros(mask: nat): nat
    requires mask > 0
  {
    if mask % 2 == 1 then 0 else 1 + TrailingZeros(mask / 2)
  }

  lemma {:induction false} AndBelow(a: nat, b: nat)
    ensures And(a, b) <= b && And(a, b) <= a
  {
    if a != 0 && b != 0 { AndBelow(a / 2, b / 2); }
  }

  // ---------------------------------------------------------------- products and quotients

  lemma MulGrows(p: nat, d: int)
    requires p > 0
    ensures d >= 1 ==> p * d >= p
    ensures d <= -1 ==> p * d <= -(p as int)
  {
    if d >= 1 { assert p * d == p + p * (d - 1); }
    else if d <= -1 { assert p * d == p * (d + 1) - p; }
  }

  lemma DivUnique(a: nat, p: nat, q: nat)
    requires p > 0 && q * p <= a < q * p + p
    ensures a / p == q && a % p == a - q * p
  {
    assert a == p * (a / p) + a % p;
    MulGrows(p, a / p - q);
    assert p * (a / p - q) == p * (a / p) - q * p;
  }

  lemma DivExact(q: nat, p: nat)
    requires p > 0
    ensures q * p / p == q && q * p % p == 0
  {
    DivUnique(q * p, p, q);
  }

  lemma DivMonotone(a: nat, b: nat, p: nat)
    requires p > 0 && a <= b
    ensures a / p <= b / p
  {
    assert a == p * (a / p) + a % p && b == p * (b / p) + b % p;
    MulGrows(p, a / p - b / p);
    assert p * (a / p - b / p) == p * (a / p) - p * (b / p);
  }

  lemma MulTwo(y: nat, p: nat)
    ensures y * (2 * p) == 2 * (y * p)
  {
  }

  lemma HalfDiv(x: nat, p: nat)
    requires p > 0
    ensures x / (2 * p) == x / 2 / p && x % (2 * p) == x % 2 + 2 * (x / 2 % p)
  {
    var q, r := x / 2 / p, x / 2 % p;
    assert x / 2 == p * q + r;
    MulTwo(q, p);
    assert x == q * (2 * p) + (2 * r + x % 2);
    DivUnique(x, 2 * p, q);
  }

  // ---------------------------------------------------------------- masks

  lemma {:induction false} ShiftByZeros(mask: nat)
    requires mask > 0
    ensures mask / Power(TrailingZeros(mask)) > 0
    ensures mask == mask / Power(TrailingZeros(mask)) * Power(TrailingZeros(mask))
  {
    if mask % 2 == 0 {
      ShiftByZeros(mask / 2);
      var p := Power(TrailingZeros(mask / 2));
      HalfDiv(mask, p);
      MulTwo(mask / 2 / p, p);
    }
  }

  /** Shifted-in bits do not meet those below them. */
  lemma {:induction false} OrAdds(a: nat, b: nat, k: nat)
    requires a < Power(k)
    ensures Or(a, b * Power(k)) == a + b * Power(k)
    decreases k
  {
    if a != 0 && b * Power(k) != 0 {
      assert k > 0;
      assert b * Power(k) == 2 * (b * Power(k - 1));
      OrAdds(a / 2, b, k - 1);
    }
  }

  /** `n` ones from bit `s` up. */
  function Mask(n: nat, s: nat): nat {
    if s > 0 then 2 * Mask(n, s - 1) else if n > 0 then 1 + 2 * Mask(n - 1, 0) else 0
  }

  lemma {:induction false} MaskIs(n: nat, s: nat)
    ensures Mask(n, 0) == Power(n) - 1 && Mask(n, s) == Mask(n, 0) * Power(s)
    decreases s, n
  {
    if s > 0 {
      MaskIs(n, s - 1);
      MulTwo(Mask(n, 0), Power(s - 1));
    } else if n > 0 {
      MaskIs(n - 1, 0);
    }
  }

  lemma {:induction false} ZerosOfMask(n: nat, s: nat)
    requires n > 0
    ensures Mask(n, s) > 0 && TrailingZeros(Mask(n, s)) == s
  {
    if s > 0 { ZerosOfMask(n, s - 1); }
  }

  lemma {:induction false} AndMask(x: nat, n: nat, s: nat)
    ensures And(x, Mask(n, s)) == x / Power(s) % Power(n) * Power(s)
    decreases s, n
  {
    if s > 0 {
      AndMask(x / 2, n, s - 1);
      AndDouble(x, Mask(n, s - 1));
      HalfDiv(x, Power(s - 1));
      MulTwo(x / Power(s) % Power(n), Power(s - 1));
    } else if n > 0 {
      AndMask(x / 2, n - 1, 0);
      assert Power(0) == 1 && x / 1 == x && x / 2 / 1 == x / 2;
      HalfDiv(x, Power(n - 1));
      AndOdd(x, Mask(n - 1, 0));
    }
  }

  lemma AndDouble(x: nat, m: nat)
    ensures And(x, 2 * m) == 2 * And(x / 2, m)
  {
  }

  lemma AndOdd(x: nat, m: nat)
    ensures And(x, 1 + 2 * m) == x % 2 + 2 * And(x / 2, m)
  {
  }

  // ---------------------------------------------------------------- scale_component

  function Rounded(value: nat, maximum: nat): nat
    requires maximum > 0
  {
    (value * 255 + maximum / 2) / maximum
  }

  function ChannelMaximum(mask: nat): (m: nat)
    requires mask > 0
    ensures m > 0
  {
    ShiftByZeros(mask);
    mask / Power(TrailingZeros(mask))
  }

  function ChannelValue(pixel: nat, mask: nat): nat
    requires mask > 0
  {
    And(pixel, mask) / Power(TrailingZeros(mask))
  }

  function ScaleComponent(pixel: nat, mask: nat): Byte {
    if mask == 0 then 0 else
      var r := Rounded(ChannelValue(pixel, mask), ChannelMaximum(mask));
      if r < 255 then r else 255
  }

  /** `r` is within half a step of 255 * value / maximum. */
  predicate Near(r: nat, value: nat, maximum: nat) {
    2 * (r * maximum) <= 2 * (255 * value) + maximum && 2 * (255 * value) <= 2 * (r * maximum) + maximum
  }

  /** The rounding error is at most half a step: the result is a nearest integer to 255 * value / maximum. */
  lemma RoundedIsNearest(value: nat, maximum: nat)
    requires maximum > 0
    ensures Near(Rounded(value, maximum), value, maximum)
  {
    var n, r := value * 255 + maximum / 2, Rounded(value, maximum);
    assert n == maximum * r + n % maximum;
  }

  lemma RoundedIsMonotone(value: nat, more: nat, maximum: nat)
    requires maximum > 0 && value <= more
    ensures Rounded(value, maximum) <= Rounded(more, maximum)
  {
    DivMonotone(value * 255 + maximum / 2, more * 255 + maximum / 2, maximum);
  }

  lemma RoundedEnds(maximum: nat)
    requires maximum > 0
    ensures Rounded(0, maximum) == 0 && Rounded(maximum, maximum) == 255
  {
    DivUnique(maximum / 2, maximum, 0);
    assert maximum * 255 == 255 * maximum;
    DivUnique(maximum * 255 + maximum / 2, maximum, 255);
  }

  /**
   For every pixel and every mask a channel is the rounded channel value, without clamping: at most
   half a step off, 0 for no bits and 255 for all bits of the mask.
   */
  lemma ScaleIsNearest(pixel: nat, mask: nat)
    requires mask > 0
    ensures var v, m, r := ChannelValue(pixel, mask), ChannelMaximum(mask), ScaleComponent(pixel, mask);
      && v <= m && r == Rounded(v, m) && Near(r, v, m)
      && (v == 0 ==> r == 0) && (v == m ==> r == 255)
  {
    AndBelow(pixel, mask);
    DivMonotone(And(pixel, mask), mask, Power(TrailingZeros(mask)));
    var v, m := ChannelValue(pixel, mask), ChannelMaximum(mask);
    RoundedIsNearest(v, m);
    RoundedIsMonotone(v, m, m);
    RoundedEnds(m);
  }

  /** A brighter channel value never scales to a darker component. */
  lemma ScaleIsMonotone(pixel: nat, other: nat, mask: nat)
    requires mask > 0 && ChannelValue(pixel, mask) <= ChannelValue(other, mask)
    ensures ScaleComponent(pixel, mask) <= ScaleComponent(other, mask)
  {
    RoundedIsMonotone(ChannelValue(pixel, mask), ChannelValue(other, mask), ChannelMaximum(mask));
  }

  /** For the usual mask, `n` ones from bit `s` up, the channel value is bits s to s + n - 1, and the maximum 2^n - 1. */
  lemma ChannelOfContiguous(pixel: nat, n: nat, s: nat)
    requires n > 0
    ensures var mask := Mask(n, s);
      mask > 0 && ChannelMaximum(mask) == Power(n) - 1 && ChannelValue(pixel, mask) == pixel / Power(s) % Power(n)
  {
    hide And, Power, Mask, TrailingZeros;
    ZerosOfMask(n, s);
    AndMask(pixel, n, s);
    MaskIs(n, s);
    DivExact(Mask(n, 0), Power(s));
    DivExact(pixel / Power(s) % Power(n), Power(s));
  }

  // ---------------------------------------------------------------- words

  /** The number whose base-256 digits are `bytes`, least significant first. */
  function LittleEndian(bytes: seq<Byte>): nat {
    if bytes == [] then 0 else LittleEndian(bytes[..|bytes| - 1]) + bytes[|bytes| - 1] * Power(8 * (|bytes| - 1))
  }

  /** ... most significant first. */
  function BigEndian(bytes: seq<Byte>): nat {
    if bytes == [] then 0 else BigEndian(bytes[..|bytes| - 1]) * 256 + bytes[|bytes| - 1]
  }

  function WordOf(bytes: seq<Byte>, order: ImageOrder): nat { if order.LsbFirst? then LittleEndian(bytes) else BigEndian(bytes) }

  lemma PowerOfByte(n: nat)
    ensures Power(8 * (n + 1)) == 256 * Power(8 * n)
  {
    assert Power(8 * n + 8) == 2 * Power(8 * n + 7);
    assert Power(8 * n + 6) == 2 * Power(8 * n + 5) && Power(8 * n + 7) == 2 * Power(8 * n + 6);
    assert Power(8 * n + 4) == 2 * Power(8 * n + 3) && Power(8 * n + 5) == 2 * Power(8 * n + 4);
    assert Power(8 * n + 2) == 2 * Power(8 * n + 1) && Power(8 * n + 3) == 2 * Power(8 * n + 2);
  }

  lemma PowerZero()
    ensures Power(0) == 1
  {
  }

  lemma MulBelow(a: nat, b: nat, p: nat)
    requires a <= b
    ensures a * p <= b * p
  {
  }

  lemma {:induction false} WordsFit(bytes: seq<Byte>)
    ensures LittleEndian(bytes) < Power(8 * |bytes|) && BigEndian(bytes) < Power(8 * |bytes|)
  {
    hide Power;
    PowerZero();
    if bytes != [] {
      var n := |bytes| - 1;
      WordsFit(bytes[..n]);
      PowerOfByte(n);
      MulBelow(bytes[n], 255, Power(8 * n));
    }
  }

  /** The two orders read each other's reversal. */
  lemma {:induction false} OrdersMirror(bytes: seq<Byte>, reversed: seq<Byte>)
    requires |reversed| == |bytes| && forall i :: 0 <= i < |bytes| ==> reversed[i] == bytes[|bytes| - 1 - i]
    ensures BigEndian(reversed) == LittleEndian(bytes)
  {
    if bytes != [] {
      var n := |bytes| - 1;
      OrdersMirror(bytes[..n], reversed[1..]);
      BigEndianFirst(reversed);
    }
  }

  lemma {:induction false} BigEndianFirst(bytes: seq<Byte>)
    requires bytes != []
    ensures BigEndian(bytes) == bytes[0] * Power(8 * (|bytes| - 1)) + BigEndian(bytes[1..])
  {
    hide Power;
    var n := |bytes| - 1;
    PowerZero();
    if n > 0 {
      BigEndianFirst(bytes[..n]);
      assert bytes[..n][1..] == bytes[1..][..n - 1] && bytes[1..][n - 1] == bytes[n];
      PowerOfByte(n - 1);
      MulAcross(bytes[0], Power(8 * (n - 1)));
    } else {
      assert bytes[1..] == [] && bytes[..n] == [];
    }
  }

  lemma MulAcross(a: nat, p: nat)
    ensures a * p * 256 == a * (256 * p)
  {
  }

  /** One step of either fold. */
  lemma FoldStep(bytes: seq<Byte>, i: nat)
    requires i < |bytes|
    ensures Or(LittleEndian(bytes[..i]), bytes[i] * Power(8 * i)) == LittleEndian(bytes[..i + 1])
    ensures Or(BigEndian(bytes[..i]) * 256, bytes[i]) == BigEndian(bytes[..i + 1])
  {
    hide Power, Or;
    WordsFit(bytes[..i]);
    assert bytes[..i + 1][..i] == bytes[..i];
    PowerZero();
    PowerOfByte(0);
    OrAdds(LittleEndian(bytes[..i]), bytes[i], 8 * i);
    OrCommutes(BigEndian(bytes[..i]) * 256, bytes[i]);
    OrAdds(bytes[i], BigEndian(bytes[..i]), 8);
  }

  /** The two folds of the decoder. */
  method ReadWord(bytes: seq<Byte>, order: ImageOrder) returns (raw: nat)
    requires |bytes| <= 4
    ensures raw == WordOf(bytes, order) && raw < 0x1_0000_0000
  {
    hide Power, Or, LittleEndian, BigEndian;
    raw := 0;
    var i := 0;
    NoBytes();
    assert bytes[..0] == [];
    while i < |bytes|
      invariant 0 <= i <= |bytes| && raw == WordOf(bytes[..i], order)
    {
      FoldStep(bytes, i);
      raw := if order == LsbFirst then Or(raw, bytes[i] * Power(8 * i)) else Or(raw * 256, bytes[i]);
      i := i + 1;
    }
    assert bytes[..i] == bytes;
    WordsFit(bytes);
    PowerMonotone(8 * |bytes|, 32);
    Power32();
  }

  lemma NoBytes()
    ensures LittleEndian([]) == 0 && BigEndian([]) == 0
  {
  }

  lemma Power32()
    ensures Power(32) == 0x1_0000_0000
  {
    PowerOfByte(0);
    PowerOfByte(1);
    PowerOfByte(2);
    PowerOfByte(3);
  }

  lemma {:induction false} PowerMonotone(a: nat, b: nat)
    requires a <= b
    ensures Power(a) <= Power(b)
  {
    if a < b { PowerMonotone(a, b - 1); }
  }

  lemma {:induction false} OrCommutes(a: nat, b: nat)
    ensures Or(a, b) == Or(b, a)
  {
    if a != 0 && b != 0 { OrCommutes(a / 2, b / 2); }
  }
}
