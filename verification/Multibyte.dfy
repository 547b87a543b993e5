/** Multi-byte arithmetic: chains of ADC; DAA over packed decimal bytes and of SBB over binary
    bytes, least significant byte first, compute the sums and differences of the numbers. */
module Multibyte {
  import opened Types
  import opened Alu

  // ---------- packed decimal ----------

  predicate Packed(v: byte) {
    v / 16 < 10 && v % 16 < 10
  }

  /** The number a packed byte stands for. */
  function Centimal(v: byte): nat {
    v / 16 * 10 + v % 16
  }

  predicate AllPacked(x: seq<byte>) {
    forall k :: 0 <= k < |x| ==> Packed(x[k])
  }

  function Decimal(x: seq<byte>): nat {
    if x == [] then 0 else Centimal(x[0]) + 100 * Decimal(x[1..])
  }

  function Power(base: nat, n: nat): nat {
    if n == 0 then 1 else base * Power(base, n - 1)
  }

  /** ADC of `b` to `a`, then DAA. */
  function AddDecimal(a: byte, b: byte, f: Status): Result {
    var sum := Add8(a, b, f.c, f);
    Daa8(sum.value, sum.f)
  }

  /** A corrected digit and the carry into the next one. */
  function Tens(n: nat): nat
    requires n < 20
  {
    if n > 9 then 1 else 0
  }

  function Units(n: nat): nat
    requires n < 20
  {
    if n > 9 then n - 10 else n
  }

  /** The nibbles and carries ADC leaves for DAA. */
  lemma SumNibbles(a: byte, b: byte, f: Status)
    ensures var low := a % 16 + b % 16 + Bit(f.c);
            var high := a / 16 + b / 16 + Bit(low > 15);
            var sum := Add8(a, b, f.c, f);
            && sum.value / 16 == Digit(high) && sum.value % 16 == Digit(low)
            && sum.f.ac == (low > 15) && sum.f.c == (high > 15)
  {
    var low := a % 16 + b % 16 + Bit(f.c);
    var high := a / 16 + b / 16 + Bit(low > 15);
    assert a + b + Bit(f.c) == 16 * high + Digit(low);
  }

  /** DAA turns the nibble sums into decimal digits with decimal carries. */
  lemma AdjustedDigits(a: byte, b: byte, f: Status)
    requires Packed(a) && Packed(b)
    ensures var low := a % 16 + b % 16 + Bit(f.c);
            var high := a / 16 + b / 16 + Tens(low);
            var r := AddDecimal(a, b, f);
            r.value == 16 * Units(high) + Units(low) && r.f.c == (high > 9)
  {
    SumNibbles(a, b, f);
    var sum := Add8(a, b, f.c, f);
  }

  /** One byte of decimal addition is exact: value and carry together are the sum. */
  lemma AddDecimalIsSum(a: byte, b: byte, f: Status)
    requires Packed(a) && Packed(b)
    ensures var r := AddDecimal(a, b, f);
            && Packed(r.value)
            && Centimal(r.value) + 100 * Bit(r.f.c) == Centimal(a) + Centimal(b) + Bit(f.c)
  {
    AdjustedDigits(a, b, f);
    var low := a % 16 + b % 16 + Bit(f.c);
    var high := a / 16 + b / 16 + Tens(low);
    var v := AddDecimal(a, b, f).value;
    assert v / 16 == Units(high) && v % 16 == Units(low);
  }

  datatype Chained = Chained(bytes: seq<byte>, f: Status)

  function AddDecimals(x: seq<byte>, y: seq<byte>, f: Status): (r: Chained)
    requires |x| == |y|
    ensures |r.bytes| == |x|
  {
    if x == [] then Chained([], f)
    else
      var first := AddDecimal(x[0], y[0], f);
      var rest := AddDecimals(x[1..], y[1..], first.f);
      Chained([first.value] + rest.bytes, rest.f)
  }

  lemma {:induction false} DecimalBound(x: seq<byte>)
    requires AllPacked(x)
    ensures Decimal(x) < Power(100, |x|)
  {
    if x != [] {
      DecimalBound(x[1..]);
      assert 100 * Decimal(x[1..]) + 100 <= 100 * Power(100, |x| - 1);
    }
  }

  /** For every length: the chain gives the packed decimal sum modulo 100^n, and its carry is the overflow. */
  lemma {:induction false} AddDecimalsIsSum(x: seq<byte>, y: seq<byte>, f: Status)
    requires |x| == |y| && AllPacked(x) && AllPacked(y)
    ensures var r := AddDecimals(x, y, f);
            && AllPacked(r.bytes)
            && Decimal(r.bytes) < Power(100, |x|)
            && Decimal(r.bytes) + (if r.f.c then Power(100, |x|) else 0) == Decimal(x) + Decimal(y) + Bit(f.c)
  {
    if x != [] {
      var first := AddDecimal(x[0], y[0], f);
      AddDecimalIsSum(x[0], y[0], f);
      AddDecimalsIsSum(x[1..], y[1..], first.f);
      var r := AddDecimals(x, y, f);
      var rest := AddDecimals(x[1..], y[1..], first.f);
      assert r.bytes == [first.value] + rest.bytes && r.bytes[1..] == rest.bytes;
    }
    DecimalBound(AddDecimals(x, y, f).bytes);
  }

  // ---------- binary ----------

  function Binary(x: seq<byte>): nat {
    if x == [] then 0 else x[0] + 0x100 * Binary(x[1..])
  }

  function SubBinaries(x: seq<byte>, y: seq<byte>, f: Status): (r: Chained)
    requires |x| == |y|
    ensures |r.bytes| == |x|
  {
    if x == [] then Chained([], f)
    else
      var first := Sub8(x[0], y[0], f.c, f);
      var rest := SubBinaries(x[1..], y[1..], first.f);
      Chained([first.value] + rest.bytes, rest.f)
  }

  lemma {:induction false} BinaryBound(x: seq<byte>)
    ensures Binary(x) < Power(0x100, |x|)
  {
    if x != [] {
      BinaryBound(x[1..]);
      assert 0x100 * Binary(x[1..]) + 0x100 <= 0x100 * Power(0x100, |x| - 1);
    }
  }

  /** For every length: an SBB chain gives the difference modulo 256^n. */
  lemma {:induction false} SubBinariesIsDifference(x: seq<byte>, y: seq<byte>, f: Status)
    requires |x| == |y|
    ensures var r := SubBinaries(x, y, f);
            Binary(r.bytes) - (if r.f.c then Power(0x100, |x|) else 0) == Binary(x) - Binary(y) - Bit(f.c)
  {
    if x != [] {
      var first := Sub8(x[0], y[0], f.c, f);
      SubBinariesIsDifference(x[1..], y[1..], first.f);
      var r := SubBinaries(x, y, f);
      assert r.bytes[1..] == SubBinaries(x[1..], y[1..], first.f).bytes;
    }
  }

  /** A subtraction chain as programs write it: SUB for the first byte, whatever the carry, then SBB. */
  function SubChain(x: seq<byte>, y: seq<byte>, f: Status): (r: Chained)
    requires |x| == |y| > 0
    ensures |r.bytes| == |x|
  {
    var first := Sub8(x[0], y[0], false, f);
    var rest := SubBinaries(x[1..], y[1..], first.f);
    Chained([first.value] + rest.bytes, rest.f)
  }

  /** The chain gives the difference modulo 256^n, its final carry decides the order of the numbers, and its bytes
      are all zero exactly when they are equal. */
  lemma SubBinariesDecidesOrder(x: seq<byte>, y: seq<byte>, f: Status)
    requires |x| == |y| > 0
    ensures var r := SubChain(x, y, f);
            && Binary(r.bytes) - (if r.f.c then Power(0x100, |x|) else 0) == Binary(x) - Binary(y)
            && (r.f.c <==> Binary(x) < Binary(y))
            && (Binary(r.bytes) == 0 <==> Binary(x) == Binary(y))
  {
    var first := Sub8(x[0], y[0], false, f);
    var r := SubChain(x, y, f);
    SubBinariesIsDifference(x[1..], y[1..], first.f);
    assert r.bytes[1..] == SubBinaries(x[1..], y[1..], first.f).bytes;
    BinaryBound(r.bytes);
    BinaryBound(x);
    BinaryBound(y);
  }
}
