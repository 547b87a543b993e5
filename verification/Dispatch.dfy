/** The opcode switch of the interpreter, against the decode by bit fields. */
module Dispatch {
  import opened Types
  import opened Isa

  /** The switch of the interpreter, one case an opcode. */
  function Switch(op: byte): Instr {
    if op < 0x40 then SwitchLow(op)
    else if op < 0x80 then SwitchMove(op)
    else if op < 0xC0 then SwitchArith(op)
    else SwitchHigh(op)
  }

  function SwitchLow(op: byte): Instr
    requires 0x00 <= op <= 0x3F
  {
    match op
    case 0x00 => Nop
    case 0x01 => Lxi(BC)
    case 0x02 => Stax(BC)
    case 0x03 => Inx(BC)
    case 0x04 => Inr(R(B))
    case 0x05 => Dcr(R(B))
    case 0x06 => Mvi(R(B))
    case 0x07 => Rlc
    case 0x08 => Undefined
    case 0x09 => Dad(BC)
    case 0x0A => Ldax(BC)
    case 0x0B => Dcx(BC)
    case 0x0C => Inr(R(C))
    case 0x0D => Dcr(R(C))
    case 0x0E => Mvi(R(C))
    case 0x0F => Rrc
    case 0x10 => Undefined
    case 0x11 => Lxi(DE)
    case 0x12 => Stax(DE)
    case 0x13 => Inx(DE)
    case 0x14 => Inr(R(D))
    case 0x15 => Dcr(R(D))
    case 0x16 => Mvi(R(D))
    case 0x17 => Ral
    case 0x18 => Undefined
    case 0x19 => Dad(DE)
    case 0x1A => Ldax(DE)
    case 0x1B => Dcx(DE)
    case 0x1C => Inr(R(E))
    case 0x1D => Dcr(R(E))
    case 0x1E => Mvi(R(E))
    case 0x1F => Rar
    case 0x20 => Undefined
    case 0x21 => Lxi(HL)
    case 0x22 => Shld
    case 0x23 => Inx(HL)
    case 0x24 => Inr(R(H))
    case 0x25 => Dcr(R(H))
    case 0x26 => Mvi(R(H))
    case 0x27 => Daa
    case 0x28 => Undefined
    case 0x29 => Dad(HL)
    case 0x2A => Lhld
    case 0x2B => Dcx(HL)
    case 0x2C => Inr(R(L))
    case 0x2D => Dcr(R(L))
    case 0x2E => Mvi(R(L))
    case 0x2F => Cma
    case 0x30 => Undefined
    case 0x31 => Lxi(SP)
    case 0x32 => Sta
    case 0x33 => Inx(SP)
    case 0x34 => Inr(M)
    case 0x35 => Dcr(M)
    case 0x36 => Mvi(M)
    case 0x37 => Stc
    case 0x38 => Undefined
    case 0x39 => Dad(SP)
    case 0x3A => Lda
    case 0x3B => Dcx(SP)
    case 0x3C => Inr(R(A))
    case 0x3D => Dcr(R(A))
    case 0x3E => Mvi(R(A))
    case _ => Cmc
  }

  function SwitchMove(op: byte): Instr
    requires 0x40 <= op <= 0x7F
  {
    match op
    case 0x40 => Nop
    case 0x41 => Mov(B, C)
    case 0x42 => Mov(B, D)
    case 0x43 => Mov(B, E)
    case 0x44 => Mov(B, H)
    case 0x45 => Mov(B, L)
    case 0x46 => MovFromMemory(B)
    case 0x47 => Mov(B, A)
    case 0x48 => Mov(C, B)
    case 0x49 => Nop
    case 0x4A => Mov(C, D)
    case 0x4B => Mov(C, E)
    case 0x4C => Mov(C, H)
    case 0x4D => Mov(C, L)
    case 0x4E => MovFromMemory(C)
    case 0x4F => Mov(C, A)
    case 0x50 => Mov(D, B)
    case 0x51 => Mov(D, C)
    case 0x52 => Nop
    case 0x53 => Mov(D, E)
    case 0x54 => Mov(D, H)
    case 0x55 => Mov(D, L)
    case 0x56 => MovFromMemory(D)
    case 0x57 => Mov(D, A)
    case 0x58 => Mov(E, B)
    case 0x59 => Mov(E, C)
    case 0x5A => Mov(E, D)
    case 0x5B => Nop
    case 0x5C => Mov(E, H)
    case 0x5D => Mov(E, L)
    case 0x5E => MovFromMemory(E)
    case 0x5F => Mov(E, A)
    case 0x60 => Mov(H, B)
    case 0x61 => Mov(H, C)
    case 0x62 => Mov(H, D)
    case 0x63 => Mov(H, E)
    case 0x64 => Nop
    case 0x65 => Mov(H, L)
    case 0x66 => MovFromMemory(H)
    case 0x67 => Mov(H, A)
    case 0x68 => Mov(L, B)
    case 0x69 => Mov(L, C)
    case 0x6A => Mov(L, D)
    case 0x6B => Mov(L, E)
    case 0x6C => Mov(L, H)
    case 0x6D => Nop
    case 0x6E => MovFromMemory(L)
    case 0x6F => Mov(L, A)
    case 0x70 => MovToMemory(B)
    case 0x71 => MovToMemory(C)
    case 0x72 => MovToMemory(D)
    case 0x73 => MovToMemory(E)
    case 0x74 => MovToMemory(H)
    case 0x75 => MovToMemory(L)
    case 0x76 => Hlt
    case 0x77 => MovToMemory(A)
    case 0x78 => Mov(A, B)
    case 0x79 => Mov(A, C)
    case 0x7A => Mov(A, D)
    case 0x7B => Mov(A, E)
    case 0x7C => Mov(A, H)
    case 0x7D => Mov(A, L)
    case 0x7E => MovFromMemory(A)
    case _ => Nop
  }

  function SwitchArith(op: byte): Instr
    requires 0x80 <= op <= 0xBF
  {
    match op
    case 0x80 => Arith(Add, R(B))
    case 0x81 => Arith(Add, R(C))
    case 0x82 => Arith(Add, R(D))
    case 0x83 => Arith(Add, R(E))
    case 0x84 => Arith(Add, R(H))
    case 0x85 => Arith(Add, R(L))
    case 0x86 => Arith(Add, M)
    case 0x87 => Arith(Add, R(A))
    case 0x88 => Arith(Adc, R(B))
    case 0x89 => Arith(Adc, R(C))
    case 0x8A => Arith(Adc, R(D))
    case 0x8B => Arith(Adc, R(E))
    case 0x8C => Arith(Adc, R(H))
    case 0x8D => Arith(Adc, R(L))
    case 0x8E => Arith(Adc, M)
    case 0x8F => Arith(Adc, R(A))
    case 0x90 => Arith(Sub, R(B))
    case 0x91 => Arith(Sub, R(C))
    case 0x92 => Arith(Sub, R(D))
    case 0x93 => Arith(Sub, R(E))
    case 0x94 => Arith(Sub, R(H))
    case 0x95 => Arith(Sub, R(L))
    case 0x96 => Arith(Sub, M)
    case 0x97 => Arith(Sub, R(A))
    case 0x98 => Arith(Sbb, R(B))
    case 0x99 => Arith(Sbb, R(C))
    case 0x9A => Arith(Sbb, R(D))
    case 0x9B => Arith(Sbb, R(E))
    case 0x9C => Arith(Sbb, R(H))
    case 0x9D => Arith(Sbb, R(L))
    case 0x9E => Arith(Sbb, M)
    case 0x9F => Arith(Sbb, R(A))
    case 0xA0 => Arith(Ana, R(B))
    case 0xA1 => Arith(Ana, R(C))
    case 0xA2 => Arith(Ana, R(D))
    case 0xA3 => Arith(Ana, R(E))
    case 0xA4 => Arith(Ana, R(H))
    case 0xA5 => Arith(Ana, R(L))
    case 0xA6 => Arith(Ana, M)
    case 0xA7 => Arith(Ana, R(A))
    case 0xA8 => Arith(Xra, R(B))
    case 0xA9 => Arith(Xra, R(C))
    case 0xAA => Arith(Xra, R(D))
    case 0xAB => Arith(Xra, R(E))
    case 0xAC => Arith(Xra, R(H))
    case 0xAD => Arith(Xra, R(L))
    case 0xAE => Arith(Xra, M)
    case 0xAF => Arith(Xra, R(A))
    case 0xB0 => Arith(Ora, R(B))
    case 0xB1 => Arith(Ora, R(C))
    case 0xB2 => Arith(Ora, R(D))
    case 0xB3 => Arith(Ora, R(E))
    case 0xB4 => Arith(Ora, R(H))
    case 0xB5 => Arith(Ora, R(L))
    case 0xB6 => Arith(Ora, M)
    case 0xB7 => Arith(Ora, R(A))
    case 0xB8 => Arith(Cmp, R(B))
    case 0xB9 => Arith(Cmp, R(C))
    case 0xBA => Arith(Cmp, R(D))
    case 0xBB => Arith(Cmp, R(E))
    case 0xBC => Arith(Cmp, R(H))
    case 0xBD => Arith(Cmp, R(L))
    case 0xBE => Arith(Cmp, M)
    case _ => Arith(Cmp, R(A))
  }

  function SwitchHigh(op: byte): Instr
    requires 0xC0 <= op <= 0xFF
  {
    match op
    case 0xC0 => Ret(If(Zero, false))
    case 0xC1 => Pop(Pair(BC))
    case 0xC2 => Jmp(If(Zero, false))
    case 0xC3 => Jmp(Always)
    case 0xC4 => Call(If(Zero, false))
    case 0xC5 => Push(Pair(BC))
    case 0xC6 => ArithImmediate(Add)
    case 0xC7 => Rst(0)
    case 0xC8 => Ret(If(Zero, true))
    case 0xC9 => Ret(Always)
    case 0xCA => Jmp(If(Zero, true))
    case 0xCB => Undefined
    case 0xCC => Call(If(Zero, true))
    case 0xCD => Call(Always)
    case 0xCE => ArithImmediate(Adc)
    case 0xCF => Rst(1)
    case 0xD0 => Ret(If(Carry, false))
    case 0xD1 => Pop(Pair(DE))
    case 0xD2 => Jmp(If(Carry, false))
    case 0xD3 => Out
    case 0xD4 => Call(If(Carry, false))
    case 0xD5 => Push(Pair(DE))
    case 0xD6 => ArithImmediate(Sub)
    case 0xD7 => Rst(2)
    case 0xD8 => Ret(If(Carry, true))
    case 0xD9 => Undefined
    case 0xDA => Jmp(If(Carry, true))
    case 0xDB => In
    case 0xDC => Call(If(Carry, true))
    case 0xDD => SkipTwo
    case 0xDE => ArithImmediate(Sbb)
    case 0xDF => Rst(3)
    case 0xE0 => Ret(If(Parity, false))
    case 0xE1 => Pop(Pair(HL))
    case 0xE2 => Jmp(If(Parity, false))
    case 0xE3 => Xthl
    case 0xE4 => Call(If(Parity, false))
    case 0xE5 => Push(Pair(HL))
    case 0xE6 => ArithImmediate(Ana)
    case 0xE7 => Rst(4)
    case 0xE8 => Ret(If(Parity, true))
    case 0xE9 => Pchl
    case 0xEA => Jmp(If(Parity, true))
    case 0xEB => Xchg
    case 0xEC => Call(If(Parity, true))
    case 0xED => SkipTwo
    case 0xEE => ArithImmediate(Xra)
    case 0xEF => Rst(5)
    case 0xF0 => Ret(If(Sign, false))
    case 0xF1 => Pop(Psw)
    case 0xF2 => Jmp(If(Sign, false))
    case 0xF3 => Di
    case 0xF4 => Call(If(Sign, false))
    case 0xF5 => Push(Psw)
    case 0xF6 => ArithImmediate(Ora)
    case 0xF7 => Rst(6)
    case 0xF8 => Ret(If(Sign, true))
    case 0xF9 => Sphl
    case 0xFA => Jmp(If(Sign, true))
    case 0xFB => Ei
    case 0xFC => Call(If(Sign, true))
    case 0xFD => SkipTwo
    case 0xFE => ArithImmediate(Cmp)
    case _ => Rst(7)
  }

  lemma SwitchLowIsDecode(op: byte)
    requires op < 0x40
    ensures Switch(op) == Decode(op)
  {
    match op / 8
    case 0 =>
    case 1 =>
    case 2 =>
    case 3 =>
    case 4 =>
    case 5 =>
    case 6 =>
    case _ =>
  }

  lemma SwitchMoveIsDecode(op: byte)
    requires 0x40 <= op < 0x80
    ensures Switch(op) == Decode(op)
  {
    match op / 8
    case 8 =>
    case 9 =>
    case 10 =>
    case 11 =>
    case 12 =>
    case 13 =>
    case 14 =>
    case _ =>
  }

  lemma SwitchArithIsDecode(op: byte)
    requires 0x80 <= op < 0xC0
    ensures Switch(op) == Decode(op)
  {
    var row := op / 8 - 16;
    if op < 0xA0 {
      match row
      case 0 => assert AluField(row) == Add;
      case 1 => assert AluField(row) == Adc;
      case 2 => assert AluField(row) == Sub;
      case _ => assert AluField(row) == Sbb;
    } else {
      match row
      case 4 => assert AluField(row) == Ana;
      case 5 => assert AluField(row) == Xra;
      case 6 => assert AluField(row) == Ora;
      case _ => assert AluField(row) == Cmp;
    }
  }

  lemma SwitchHighIsDecode(op: byte)
    requires 0xC0 <= op
    ensures Switch(op) == Decode(op)
  {
    match op / 8
    case 24 =>
    case 25 =>
    case 26 =>
    case 27 =>
    case 28 =>
    case 29 =>
    case 30 =>
    case _ =>
  }

  /** Dispatcher regularity: the flat switch over 256 opcodes is the bit-field decode. */
  lemma SwitchIsDecode(op: byte)
    ensures Switch(op) == Decode(op)
  {
    if op < 0x40 {
      SwitchLowIsDecode(op);
    } else if op < 0x80 {
      SwitchMoveIsDecode(op);
    } else if op < 0xC0 {
      SwitchArithIsDecode(op);
    } else {
      SwitchHighIsDecode(op);
    }
  }
}
