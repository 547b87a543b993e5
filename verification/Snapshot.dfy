/** Saved machine states: gathering memory blocks into a byte string, scattering it back, the
    processor image, and the all-or-nothing load. */
module Snapshot {
  import opened Types
  import opened Alu
  import opened Core

  /** A block of memory: two 16-bit numbers, so offset + size may pass the top of memory. */
  datatype Block = Block(offset: word, size: word)

  // ---------- memory blocks ----------

  /** The addresses of `size` bytes from `offset`, wrapping as the 16-bit address of a read does. */
  function Span(offset: word, size: nat): (r: seq<word>)
    ensures |r| == size
    decreases size
  {
    if size == 0 then [] else [offset] + Span(Plus(offset, 1), size - 1)
  }

  function Total(blocks: seq<Block>): nat {
    if blocks == [] then 0 else blocks[0].size + Total(blocks[1..])
  }

  /** The addresses of all blocks in order; blocks may overlap. */
  function Addresses(blocks: seq<Block>): (r: seq<word>)
    ensures |r| == Total(blocks)
  {
    if blocks == [] then [] else Span(blocks[0].offset, blocks[0].size) + Addresses(blocks[1..])
  }

  function Gather(m: Mem, at: seq<word>): (r: seq<byte>)
    ensures |r| == |at|
  {
    if at == [] then [] else [m[at[0]]] + Gather(m, at[1..])
  }

  function Scatter(m: Mem, at: seq<word>, bytes: seq<byte>): Mem
    requires |at| == |bytes|
    decreases |at|
  {
    if at == [] then m else Scatter(m[at[0] := bytes[0]], at[1..], bytes[1..])
  }

  lemma {:induction false} GatherConcat(m: Mem, x: seq<word>, y: seq<word>)
    ensures Gather(m, x + y) == Gather(m, x) + Gather(m, y)
    decreases |x|
  {
    if x == [] {
      assert x + y == y;
    } else {
      assert (x + y)[0] == x[0] && (x + y)[1..] == x[1..] + y;
      GatherConcat(m, x[1..], y);
    }
  }

  lemma {:induction false} ScatterConcat(m: Mem, x: seq<word>, y: seq<word>, a: seq<byte>, b: seq<byte>)
    requires |x| == |a| && |y| == |b|
    ensures Scatter(m, x + y, a + b) == Scatter(Scatter(m, x, a), y, b)
    decreases |x|
  {
    if x == [] {
      assert x + y == y && a + b == b;
    } else {
      assert (x + y)[0] == x[0] && (x + y)[1..] == x[1..] + y;
      assert (a + b)[0] == a[0] && (a + b)[1..] == a[1..] + b;
      ScatterConcat(m[x[0] := a[0]], x[1..], y, a[1..], b);
    }
  }

  lemma {:induction false} SpanOneMore(offset: word, k: nat)
    requires k < 0x10000
    ensures Span(offset, k + 1) == Span(offset, k) + [Plus(offset, k)]
    decreases k
  {
    if k == 0 {
      assert Span(Plus(offset, 1), 0) == [];
    } else {
      SpanOneMore(Plus(offset, 1), k - 1);
    }
  }

  lemma GatherOneMore(m: Mem, offset: word, k: nat)
    requires k < 0x10000
    ensures Gather(m, Span(offset, k + 1)) == Gather(m, Span(offset, k)) + [m[Plus(offset, k)]]
  {
    SpanOneMore(offset, k);
    var x := Plus(offset, k);
    GatherConcat(m, Span(offset, k), [x]);
    assert [x][1..] == [];
    assert Gather(m, [x]) == [m[x]] + Gather(m, []);
  }

  lemma ScatterOneMore(m: Mem, offset: word, k: nat, bytes: seq<byte>, v: byte)
    requires k < 0x10000 && |bytes| == k
    ensures Scatter(m, Span(offset, k + 1), bytes + [v]) == Scatter(m, Span(offset, k), bytes)[Plus(offset, k) := v]
  {
    SpanOneMore(offset, k);
    var x := Plus(offset, k);
    ScatterConcat(m, Span(offset, k), [x], bytes, [v]);
    var n := Scatter(m, Span(offset, k), bytes);
    assert [x][1..] == [] && [v][1..] == [];
    assert Scatter(n, [x], [v]) == Scatter(n[x := v], [], []);
  }

  lemma {:induction false} AddressesOneMore(blocks: seq<Block>, i: nat)
    requires i < |blocks|
    ensures Addresses(blocks[..i + 1]) == Addresses(blocks[..i]) + Span(blocks[i].offset, blocks[i].size)
    decreases i
  {
    if i == 0 {
      assert blocks[..1][1..] == [] && blocks[..0] == [];
      assert Addresses(blocks[..1]) == Span(blocks[0].offset, blocks[0].size) + Addresses([]);
    } else {
      assert blocks[..i + 1][1..] == blocks[1..][..i] && blocks[..i][1..] == blocks[1..][..i - 1];
      AddressesOneMore(blocks[1..], i - 1);
    }
  }

  lemma {:induction false} TotalOfPrefix(blocks: seq<Block>, i: nat)
    requires i < |blocks|
    ensures Total(blocks[..i + 1]) == Total(blocks[..i]) + blocks[i].size <= Total(blocks)
    decreases i
  {
    if i == 0 {
      assert blocks[..1][1..] == [] && blocks[..0] == [];
    } else {
      assert blocks[..i + 1][1..] == blocks[1..][..i] && blocks[..i][1..] == blocks[1..][..i - 1];
      TotalOfPrefix(blocks[1..], i - 1);
    }
  }

  /** `x` is an address of one of the blocks. */
  ghost predicate InBlocks(blocks: seq<Block>, x: word) {
    exists i, k :: 0 <= i < |blocks| && 0 <= k < blocks[i].size && Plus(blocks[i].offset, k) == x
  }

  lemma {:induction false} SpanAt(offset: word, size: nat, k: nat)
    requires k < size <= 0xFFFF
    ensures Span(offset, size)[k] == Plus(offset, k)
    decreases size
  {
    if k > 0 {
      SpanAt(Plus(offset, 1), size - 1, k - 1);
    }
  }

  /** Byte `k` of block `i` stands behind the bytes of the blocks before it. */
  lemma {:induction false} AddressesAt(blocks: seq<Block>, i: nat, k: nat)
    requires i < |blocks| && k < blocks[i].size
    ensures Total(blocks[..i]) + k < Total(blocks)
    ensures Addresses(blocks)[Total(blocks[..i]) + k] == Plus(blocks[i].offset, k)
    decreases i
  {
    if i == 0 {
      assert blocks[..0] == [];
      SpanAt(blocks[0].offset, blocks[0].size, k);
    } else {
      assert blocks[..i][1..] == blocks[1..][..i - 1] && blocks[..i][0] == blocks[0];
      AddressesAt(blocks[1..], i - 1, k);
    }
  }

  lemma {:induction false} AddressInBlock(blocks: seq<Block>, j: nat) returns (i: nat, k: nat)
    requires j < Total(blocks)
    ensures i < |blocks| && k < blocks[i].size && Addresses(blocks)[j] == Plus(blocks[i].offset, k)
  {
    if j < blocks[0].size {
      i, k := 0, j;
      SpanAt(blocks[0].offset, blocks[0].size, k);
    } else {
      i, k := AddressInBlock(blocks[1..], j - blocks[0].size);
      i := i + 1;
    }
  }

  /** The addresses gathered are those of the blocks. */
  lemma AddressesAreBlocks(blocks: seq<Block>, x: word)
    ensures x in Addresses(blocks) <==> InBlocks(blocks, x)
  {
    if x in Addresses(blocks) {
      var j :| 0 <= j < |Addresses(blocks)| && Addresses(blocks)[j] == x;
      var i, k := AddressInBlock(blocks, j);
    }
    if InBlocks(blocks, x) {
      var i, k :| 0 <= i < |blocks| && 0 <= k < blocks[i].size && Plus(blocks[i].offset, k) == x;
      AddressesAt(blocks, i, k);
    }
  }

  lemma {:induction false} GatherAt(m: Mem, at: seq<word>, j: nat)
    requires j < |at|
    ensures Gather(m, at)[j] == m[at[j]]
  {
    if j > 0 {
      GatherAt(m, at[1..], j - 1);
    }
  }

  /** The string of the blocks: block after block, each from its offset on. */
  lemma BlockBytes(m: Mem, blocks: seq<Block>, i: nat, k: nat)
    requires i < |blocks| && k < blocks[i].size
    ensures |Gather(m, Addresses(blocks))| == Total(blocks) && Total(blocks[..i]) + k < Total(blocks)
    ensures Gather(m, Addresses(blocks))[Total(blocks[..i]) + k] == m[Plus(blocks[i].offset, k)]
  {
    AddressesAt(blocks, i, k);
    GatherAt(m, Addresses(blocks), Total(blocks[..i]) + k);
  }

  /** Two memories have the same string exactly if they have the same bytes in the blocks. */
  lemma SameStringIff(m: Mem, n: Mem, blocks: seq<Block>)
    ensures Gather(m, Addresses(blocks)) == Gather(n, Addresses(blocks))
            <==> forall x: word :: InBlocks(blocks, x) ==> m[x] == n[x]
  {
    var at := Addresses(blocks);
    if Gather(m, at) == Gather(n, at) {
      forall x: word | InBlocks(blocks, x)
        ensures m[x] == n[x]
      {
        AddressesAreBlocks(blocks, x);
        var j :| 0 <= j < |at| && at[j] == x;
        GatherAt(m, at, j);
        GatherAt(n, at, j);
      }
    }
    if forall x: word :: InBlocks(blocks, x) ==> m[x] == n[x] {
      forall j | 0 <= j < |at|
        ensures Gather(m, at)[j] == Gather(n, at)[j]
      {
        AddressesAreBlocks(blocks, at[j]);
        GatherAt(m, at, j);
        GatherAt(n, at, j);
      }
    }
  }

  /** Snapshot round trip: scattering what was gathered restores the gathered memory on every
      address of the blocks, however they overlap, and leaves every other address alone. */
  lemma {:induction false} ScatterGather(m: Mem, later: Mem, at: seq<word>, x: word)
    ensures Scatter(later, at, Gather(m, at))[x] == if x in at then m[x] else later[x]
    decreases |at|
  {
    if at != [] {
      var bytes := Gather(m, at);
      assert bytes[1..] == Gather(m, at[1..]);
      ScatterGather(m, later[at[0] := m[at[0]]], at[1..], x);
      assert at == [at[0]] + at[1..];
    }
  }

  /** What any byte string, gathered or not, leaves at an address of the blocks: the last byte it has for it. */
  lemma {:induction false} ScatterLast(m: Mem, at: seq<word>, bytes: seq<byte>, k: nat)
    requires |bytes| == |at| && k < |at|
    requires forall j :: k < j < |at| ==> at[j] != at[k]
    ensures Scatter(m, at, bytes)[at[k]] == bytes[k]
    decreases |at|
  {
    if k > 0 {
      ScatterLast(m[at[0] := bytes[0]], at[1..], bytes[1..], k - 1);
    } else {
      ScatterElsewhere(m[at[0] := bytes[0]], at[1..], bytes[1..], at[0]);
    }
  }

  lemma {:induction false} ScatterElsewhere(m: Mem, at: seq<word>, bytes: seq<byte>, x: word)
    requires |bytes| == |at| && x !in at
    ensures Scatter(m, at, bytes)[x] == m[x]
    decreases |at|
  {
    if at != [] {
      ScatterElsewhere(m[at[0] := bytes[0]], at[1..], bytes[1..], x);
    }
  }

  /** What the gathering loop of a save counts in: a 16-bit counter. */
  function Counter(offset: word, k: nat): word {
    (offset + k) % 0x10000
  }

  predicate Ends(b: Block, k: nat) {
    Counter(b.offset, k) >= b.offset + b.size
  }

  /** The gathering loop of a save ends exactly when the block stops short of the last address, and
      then after as many passes as the block has bytes. A block up to the very top of memory hangs it. */
  lemma GatherEnds(b: Block)
    ensures (exists k: nat :: Ends(b, k)) <==> b.offset + b.size <= 0xFFFF
    ensures b.offset + b.size <= 0xFFFF ==> Ends(b, b.size) && forall k: nat :: k < b.size ==> !Ends(b, k)
  {
    if b.offset + b.size <= 0xFFFF {
      assert Ends(b, b.size);
      forall k: nat | k < b.size ensures !Ends(b, k) {
        assert Counter(b.offset, k) == b.offset + k;
      }
    }
  }

  /** Every block stops short of the last address. */
  predicate Gatherable(blocks: seq<Block>) {
    forall k :: 0 <= k < |blocks| ==> blocks[k].offset + blocks[k].size <= 0xFFFF
  }

  // ---------- the processor image ----------

  datatype Image = Image(uuid: seq<byte>, a: byte, b: byte, c: byte, d: byte, e: byte, h: byte, l: byte, s: byte,
                         pc: word, sp: word)

  /** The interrupt flip-flop is not part of the image. */
  function SaveCpu(uuid: seq<byte>, u: Cpu): Image {
    Image(uuid, u.a, u.b, u.c, u.d, u.e, u.h, u.l, StatusByte(u.f), u.pc, u.sp)
  }

  /** Parsed text: each field present with a number, or missing. */
  datatype ImageText = ImageText(uuid: Option<seq<byte>>,
                                 a: Option<int>, b: Option<int>, c: Option<int>, d: Option<int>, e: Option<int>,
                                 h: Option<int>, l: Option<int>, s: Option<int>, pc: Option<int>, sp: Option<int>)

  function ImageAsText(i: Image): ImageText {
    ImageText(Some(i.uuid), Some(i.a), Some(i.b), Some(i.c), Some(i.d), Some(i.e), Some(i.h), Some(i.l), Some(i.s),
              Some(i.pc), Some(i.sp))
  }

  predicate Complete(t: ImageText) {
    && t.a.Some? && t.b.Some? && t.c.Some? && t.d.Some? && t.e.Some? && t.h.Some? && t.l.Some? && t.s.Some?
    && t.pc.Some? && t.sp.Some?
  }

  /** A number is narrowed to the width of its field. */
  function Narrow8(v: int): byte {
    if 0 <= v < 0x100 then v else v % 0x100
  }

  function Narrow16(v: int): word {
    if 0 <= v < 0x10000 then v else v % 0x10000
  }

  function LoadCpu(u: Cpu, t: ImageText): Cpu
    requires Complete(t)
  {
    Cpu(Narrow8(t.a.value), Narrow8(t.b.value), Narrow8(t.c.value), Narrow8(t.d.value), Narrow8(t.e.value),
        Narrow8(t.h.value), Narrow8(t.l.value), ByteStatus(Narrow8(t.s.value)),
        Narrow16(t.pc.value), Narrow16(t.sp.value), u.iff)
  }

  // ---------- the machine state ----------

  datatype Layout = Layout(rom: seq<Block>, ram: seq<Block>, memUuid: seq<byte>, cpuUuid: seq<byte>,
                           md5: seq<byte> -> seq<byte>)

  const NO_UUID: seq<byte> := [0, 0, 0, 0, 0, 0, 0, 0, 0, 0, 0, 0, 0, 0, 0, 0]

  datatype Saved = Saved(cpu: Image, memUuid: seq<byte>, rom: seq<byte>, ram: seq<byte>)

  /** The reply of a load handler: nothing, text that does not parse, or parsed text with fields
      that may be missing or fail to decode. */
  datatype Reply =
    | Nothing
    | Garbage
    | Parsed(cpu: ImageText, memUuid: Option<seq<byte>>, rom: Option<seq<byte>>, ram: Option<seq<byte>>)

  function AsReply(s: Saved): Reply {
    Parsed(ImageAsText(s.cpu), Some(s.memUuid), Some(s.rom), Some(s.ram))
  }

  function RomHash(y: Layout, m: Mem): seq<byte> {
    y.md5(Gather(m, Addresses(y.rom)))
  }

  predicate CanSave(y: Layout) {
    y.memUuid != NO_UUID
  }

  function Save(y: Layout, s: State): Saved {
    Saved(SaveCpu(y.cpuUuid, s.cpu), y.memUuid, RomHash(y, s.mem), Gather(s.mem, Addresses(y.ram)))
  }

  /** Everything a load checks. */
  predicate Acceptable(y: Layout, m: Mem, r: Reply) {
    && y.memUuid != NO_UUID
    && r.Parsed?
    && r.memUuid == Some(y.memUuid)
    && r.rom == Some(RomHash(y, m))
    && r.ram.Some? && |r.ram.value| == Total(y.ram)
    && r.cpu.uuid == Some(y.cpuUuid)
    && Complete(r.cpu)
  }

  function Load(y: Layout, s: State, r: Reply): State {
    if Acceptable(y, s.mem, r) then
      State(LoadCpu(s.cpu, r.cpu), Scatter(s.mem, Addresses(y.ram), r.ram.value))
    else s
  }

  /** A load takes each number of the text modulo the width of its register. */
  lemma LoadNarrows(u: Cpu, t: ImageText)
    requires Complete(t)
    ensures var v := LoadCpu(u, t);
            && v.a == t.a.value % 0x100 && v.b == t.b.value % 0x100 && v.c == t.c.value % 0x100
            && v.d == t.d.value % 0x100 && v.e == t.e.value % 0x100 && v.h == t.h.value % 0x100
            && v.l == t.l.value % 0x100 && v.f == ByteStatus(t.s.value % 0x100)
            && v.pc == t.pc.value % 0x10000 && v.sp == t.sp.value % 0x10000 && v.iff == u.iff
  {
  }

  /** Loading a saved processor restores every register but the flip-flop. */
  lemma LoadSavedCpu(uuid: seq<byte>, u: Cpu, v: Cpu)
    ensures Complete(ImageAsText(SaveCpu(uuid, u)))
    ensures LoadCpu(v, ImageAsText(SaveCpu(uuid, u))) == u.(iff := v.iff)
  {
    StatusRoundTrip(u.f);
  }

  /** Bit 1 of the number is set and bits 3 and 5 are clear. */
  predicate Bits(v: int) {
    var v3 := v / 2 / 2 / 2;
    v / 2 % 2 == 1 && v3 % 2 == 0 && v3 / 2 / 2 % 2 == 0
  }

  lemma Halve(b: int, a: int, k: int)
    requires b == a + 2 * k
    ensures b / 2 == a / 2 + k && b % 2 == a % 2
  {
  }

  /** The low bits do not see what lies above the byte. */
  lemma SameBits(v: int, w: int, q: int)
    requires v == w + 256 * q
    ensures Bits(v) <==> Bits(w)
  {
    Halve(v, w, 128 * q);
    Halve(v / 2, w / 2, 64 * q);
    Halve(v / 2 / 2, w / 2 / 2, 32 * q);
    Halve(v / 2 / 2 / 2, w / 2 / 2 / 2, 16 * q);
    Halve(v / 2 / 2 / 2 / 2, w / 2 / 2 / 2 / 2, 8 * q);
    Halve(v / 2 / 2 / 2 / 2 / 2, w / 2 / 2 / 2 / 2 / 2, 4 * q);
  }

  /** The bits of a number narrowed to a byte. */
  lemma NarrowBits(v: int)
    ensures Bits(Narrow8(v)) <==> Bits(v)
  {
    SameBits(v, Narrow8(v), v / 0x100);
  }

  /** A load does not force the pattern the way POP PSW does: afterwards the status word has its pattern exactly
      if the number in the text has bit 1 set and bits 3 and 5 clear. */
  lemma LoadPattern(u: Cpu, t: ImageText)
    requires Complete(t)
    ensures Canonical(LoadCpu(u, t).f) <==> Bits(t.s.value)
  {
    NarrowBits(t.s.value);
  }
}
