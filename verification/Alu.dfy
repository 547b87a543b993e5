/** The arithmetic of the 8080, stated as the manual states it: sums, true
    differences with borrow, a two-step decimal adjust, and bitwise operations. */
module Alu {
  import opened Types

  /** The status register, a bitset of eight lanes: S Z 0 AC 0 P 1 C. */
  datatype Status = Status(c: bool, b1: bool, p: bool, b3: bool, ac: bool, b5: bool, z: bool, s: bool)

  datatype Result = Result(value: byte, f: Status)

  function Bit(b: bool): byte {
    if b then 1 else 0
  }

  function StatusByte(f: Status): byte {
    Bit(f.c) + 2 * (Bit(f.b1) + 2 * (Bit(f.p) + 2 * (Bit(f.b3)
    + 2 * (Bit(f.ac) + 2 * (Bit(f.b5) + 2 * (Bit(f.z) + 2 * Bit(f.s)))))))
  }

  function ByteStatus(v: byte): Status {
    var v1 := v / 2;
    var v2 := v1 / 2;
    var v3 := v2 / 2;
    var v4 := v3 / 2;
    var v5 := v4 / 2;
    var v6 := v5 / 2;
    Status(v % 2 == 1, v1 % 2 == 1, v2 % 2 == 1, v3 % 2 == 1, v4 % 2 == 1, v5 % 2 == 1, v6 % 2 == 1, v6 / 2 == 1)
  }

  /** The status word survives the trip through a byte, as in PUSH PSW and in a saved state. */
  lemma StatusRoundTrip(f: Status)
    ensures ByteStatus(StatusByte(f)) == f
  {
    var w6 := Bit(f.z) + 2 * Bit(f.s);
    var w5 := Bit(f.b5) + 2 * w6;
    var w4 := Bit(f.ac) + 2 * w5;
    var w3 := Bit(f.b3) + 2 * w4;
    var w2 := Bit(f.p) + 2 * w3;
    var w1 := Bit(f.b1) + 2 * w2;
    assert StatusByte(f) / 2 == w1 && w1 / 2 == w2 && w2 / 2 == w3 && w3 / 2 == w4 && w4 / 2 == w5 && w5 / 2 == w6;
  }

  /** The pattern the power-on value has and every instruction keeps: bit 1 set, bits 3 and 5 clear. */
  predicate Canonical(f: Status) {
    f.b1 && !f.b3 && !f.b5
  }

  function Canonicalise(f: Status): Status {
    f.(b1 := true, b3 := false, b5 := false)
  }

  function Ones(x: nat): nat {
    if x == 0 then 0 else x % 2 + Ones(x / 2)
  }

  /** Zero, sign, even parity and half carry of a result; the carry lane is left alone. */
  function Flagged(f: Status, r: byte, half: bool): Status {
    f.(z := r == 0, s := r >= 0x80, p := Ones(r) % 2 == 0, ac := half)
  }

  /** A nine-bit sum in an eight-bit register. */
  function Wrap(sum: nat): byte
    requires sum < 0x200
  {
    if sum < 0x100 then sum else sum - 0x100
  }

  function Add8(a: byte, b: byte, carry: bool, f: Status): Result {
    var sum := a + b + Bit(carry);
    Result(Wrap(sum), Flagged(f, Wrap(sum), a % 16 + b % 16 + Bit(carry) > 15).(c := sum > 0xFF))
  }

  /** Subtraction with borrow; the half-carry lane reports the absence of a half borrow. */
  function Sub8(a: byte, b: byte, borrow: bool, f: Status): Result {
    var r := if a >= b + Bit(borrow) then a - b - Bit(borrow) else a - b - Bit(borrow) + 0x100;
    Result(r, Flagged(f, r, a % 16 >= b % 16 + Bit(borrow)).(c := a < b + Bit(borrow)))
  }

  function Inc8(a: byte, f: Status): Result {
    var r := Wrap(a + 1);
    Result(r, Flagged(f, r, a % 16 == 15))
  }

  function Dec8(a: byte, f: Status): Result {
    var r := if a == 0 then 0xFF else a - 1;
    Result(r, Flagged(f, r, a % 16 != 0))
  }

  /** One place to the left, the top lane lost. */
  function Shifted(a: byte): (r: byte)
    ensures r <= 0xFE
  {
    if a < 0x80 then 2 * a else 2 * a - 0x100
  }

  /** A digit and the carry out of it. */
  function Digit(n: nat): nat {
    if n < 16 then n else n - 16
  }

  /** DAA, the two steps of the manual: correct the low digit, then the high digit with the carry from it. */
  function Daa8(a: byte, f: Status): Result {
    var low := a % 16 + (if a % 16 > 9 || f.ac then 6 else 0);
    var high := a / 16 + Bit(low > 15);
    var carry := high > 9 || f.c;
    var r := Digit(high + if carry then 6 else 0) * 16 + Digit(low);
    Result(r, Flagged(f, r, low > 15).(c := carry))
  }

  /** The width of an n-lane register. */
  function Pow2(n: nat): nat {
    if n == 0 then 1 else 2 * Pow2(n - 1)
  }

  /** Bitwise operations, lane by lane over an n-lane register. */
  function AndBits(n: nat, x: nat, y: nat): (r: nat)
    requires x < Pow2(n) && y < Pow2(n)
    ensures r < Pow2(n)
  {
    if n == 0 then 0 else 2 * AndBits(n - 1, x / 2, y / 2) + Bit(x % 2 == 1 && y % 2 == 1)
  }

  function OrBits(n: nat, x: nat, y: nat): (r: nat)
    requires x < Pow2(n) && y < Pow2(n)
    ensures r < Pow2(n)
  {
    if n == 0 then 0 else 2 * OrBits(n - 1, x / 2, y / 2) + Bit(x % 2 == 1 || y % 2 == 1)
  }

  function XorBits(n: nat, x: nat, y: nat): (r: nat)
    requires x < Pow2(n) && y < Pow2(n)
    ensures r < Pow2(n)
  {
    if n == 0 then 0 else 2 * XorBits(n - 1, x / 2, y / 2) + Bit(x % 2 != y % 2)
  }

  /** Lane `k` of a register. */
  predicate Lane(x: nat, k: nat)
    decreases k
  {
    if k == 0 then x % 2 == 1 else Lane(x / 2, k - 1)
  }

  /** Each lane of a result is the connective of the operands' lanes. */
  lemma {:induction false} LanesOfBits(n: nat, x: nat, y: nat, k: nat)
    requires x < Pow2(n) && y < Pow2(n) && k < n
    ensures Lane(AndBits(n, x, y), k) <==> Lane(x, k) && Lane(y, k)
    ensures Lane(OrBits(n, x, y), k) <==> Lane(x, k) || Lane(y, k)
    ensures Lane(XorBits(n, x, y), k) <==> Lane(x, k) != Lane(y, k)
    decreases n
  {
    HalfOfBits(n, x, y);
    if k > 0 {
      LanesOfBits(n - 1, x / 2, y / 2, k - 1);
    }
  }

  lemma HalfOfBits(n: nat, x: nat, y: nat)
    requires x < Pow2(n) && y < Pow2(n) && n > 0
    ensures AndBits(n, x, y) / 2 == AndBits(n - 1, x / 2, y / 2)
    ensures AndBits(n, x, y) % 2 == Bit(x % 2 == 1 && y % 2 == 1)
    ensures OrBits(n, x, y) / 2 == OrBits(n - 1, x / 2, y / 2) && OrBits(n, x, y) % 2 == Bit(x % 2 == 1 || y % 2 == 1)
    ensures XorBits(n, x, y) / 2 == XorBits(n - 1, x / 2, y / 2) && XorBits(n, x, y) % 2 == Bit(x % 2 != y % 2)
  {
  }

  /** A register is its lanes. */
  lemma {:induction false} LanesDecide(n: nat, x: nat, y: nat)
    requires x < Pow2(n) && y < Pow2(n) && forall k :: 0 <= k < n ==> Lane(x, k) == Lane(y, k)
    ensures x == y
    decreases n
  {
    if n > 0 {
      assert Lane(x, 0) == Lane(y, 0);
      forall k | 0 <= k < n - 1
        ensures Lane(x / 2, k) == Lane(y / 2, k)
      {
        assert Lane(x, k + 1) == Lane(y, k + 1);
      }
      LanesDecide(n - 1, x / 2, y / 2);
    }
  }

  lemma EightLanes()
    ensures Pow2(8) == 0x100
  {
    assert Pow2(4) == 16;
  }

  function And8(x: byte, y: byte, f: Status): Result {
    EightLanes();
    var r := AndBits(8, x, y);
    Result(r, Flagged(f, r, x / 8 % 2 == 1 || y / 8 % 2 == 1).(c := false))
  }

  function Xor8(x: byte, y: byte, f: Status): Result {
    EightLanes();
    var r := XorBits(8, x, y);
    Result(r, Flagged(f, r, false).(c := false))
  }

  function Or8(x: byte, y: byte, f: Status): Result {
    EightLanes();
    var r := OrBits(8, x, y);
    Result(r, Flagged(f, r, false).(c := false))
  }

  /** `v` is, lane by lane, the conjunction of `x` and `y`. */
  predicate IsAnd(n: nat, v: nat, x: nat, y: nat) {
    forall k :: 0 <= k < n ==> Lane(v, k) == (Lane(x, k) && Lane(y, k))
  }

  lemma AndIsLanes(n: nat, v: nat, x: nat, y: nat)
    requires v < Pow2(n) && x < Pow2(n) && y < Pow2(n)
    ensures v == AndBits(n, x, y) <==> IsAnd(n, v, x, y)
  {
    var w := AndBits(n, x, y);
    forall k | 0 <= k < n
      ensures Lane(w, k) == (Lane(x, k) && Lane(y, k))
    {
      LanesOfBits(n, x, y, k);
    }
    if IsAnd(n, v, x, y) {
      forall k | 0 <= k < n
        ensures Lane(v, k) == Lane(w, k)
      {
      }
      LanesDecide(n, v, w);
    }
  }

  /** `v` is, lane by lane, the disjunction of `x` and `y`. */
  predicate IsOr(n: nat, v: nat, x: nat, y: nat) {
    forall k :: 0 <= k < n ==> Lane(v, k) == (Lane(x, k) || Lane(y, k))
  }

  lemma OrIsLanes(n: nat, v: nat, x: nat, y: nat)
    requires v < Pow2(n) && x < Pow2(n) && y < Pow2(n)
    ensures v == OrBits(n, x, y) <==> IsOr(n, v, x, y)
  {
    var w := OrBits(n, x, y);
    forall k | 0 <= k < n
      ensures Lane(w, k) == (Lane(x, k) || Lane(y, k))
    {
      LanesOfBits(n, x, y, k);
    }
    if IsOr(n, v, x, y) {
      forall k | 0 <= k < n
        ensures Lane(v, k) == Lane(w, k)
      {
      }
      LanesDecide(n, v, w);
    }
  }

  /** `v` is, lane by lane, the difference of `x` and `y`. */
  predicate IsXor(n: nat, v: nat, x: nat, y: nat) {
    forall k :: 0 <= k < n ==> Lane(v, k) == (Lane(x, k) != Lane(y, k))
  }

  lemma XorIsLanes(n: nat, v: nat, x: nat, y: nat)
    requires v < Pow2(n) && x < Pow2(n) && y < Pow2(n)
    ensures v == XorBits(n, x, y) <==> IsXor(n, v, x, y)
  {
    var w := XorBits(n, x, y);
    forall k | 0 <= k < n
      ensures Lane(w, k) == (Lane(x, k) != Lane(y, k))
    {
      LanesOfBits(n, x, y, k);
    }
    if IsXor(n, v, x, y) {
      forall k | 0 <= k < n
        ensures Lane(v, k) == Lane(w, k)
      {
      }
      LanesDecide(n, v, w);
    }
  }

  /** ANA, ORA and XRA give the one byte that is, lane by lane, the connective of their operands. */
  lemma LogicByLanes(x: byte, y: byte, f: Status, v: byte)
    ensures v == And8(x, y, f).value <==> IsAnd(8, v, x, y)
    ensures v == Or8(x, y, f).value <==> IsOr(8, v, x, y)
    ensures v == Xor8(x, y, f).value <==> IsXor(8, v, x, y)
  {
    EightLanes();
    AndIsLanes(8, v, x, y);
    OrIsLanes(8, v, x, y);
    XorIsLanes(8, v, x, y);
  }
}
