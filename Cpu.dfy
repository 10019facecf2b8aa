/**
  The partial MOS 6502 step engine of src/cpu.c.

  The first half of the module states what one instruction does as pure
  functions over a register snapshot (`Registers`) and the bus; the second
  half is the `CPU` class, whose fields are the C `registers` struct and whose
  methods do what the C functions do, each proved to agree with its function.

  Deviations of the C code from a real 6502 are kept as written:
  ADC computes V from bit 7 of A against bit 7 of the sum and Z from the
  unreduced sum; BIT takes N and V from `A & val`; accumulator-mode ASL is
  handed the value 0; ASL never writes memory; no resolver ever reports a
  page crossing; and an invalid opcode returns 1, with no separate error signal.
*/
module Cpu {
  import opened Memory

  const NumIndexModes: nat := 9

  /** The opcode byte that marks a mode a mnemonic does not have. */
  const Absent: Byte := 0xFF

  /** The eight one-bit fields of `status_t`. */
  datatype Status = Status(
    carry: bool, zero: bool, interruptDisable: bool, decimalMode: bool,
    breakCmd: bool, unused: bool, overflow: bool, negative: bool)

  /** A snapshot of `registers_t`. */
  datatype Registers = Registers(A: Byte, X: Byte, Y: Byte, P: Status, SP: Byte, PC: Word)

  /** The execution routines the table points to. */
  datatype Mnemonic = ADC | AND | ASL | BCC | BCS | BEQ | BMI | BNE | BPL | BIT

  /** One row of the table: an opcode, a cycle count and an extra-cycle count per mode index
      (Acc, Imm, ZP, ZPX, Abs, AbsX, AbsY, IndX, IndY), and the routine (None is C's NULL). */
  datatype Instruction = Instruction(
    name: string, opcode: seq<Byte>, cycles: seq<nat>, extraCycles: seq<nat>,
    execute: Option<Mnemonic>)

  const InstructionTable: seq<Instruction> := [
    Instruction("ADC", [0xFF, 0x69, 0x65, 0x75, 0x6D, 0x7D, 0x79, 0x61, 0x71], [0, 2, 3, 4, 4, 4, 4, 6, 5], [0, 0, 0, 0, 0, 1, 1, 0, 1], Some(ADC)),
    Instruction("AND", [0xFF, 0x29, 0x25, 0x35, 0x2D, 0x3D, 0x39, 0x21, 0x31], [0, 2, 2, 3, 4, 4, 4, 6, 5], [0, 0, 0, 0, 0, 1, 1, 0, 1], Some(AND)),
    Instruction("ASL", [0x0A, 0xFF, 0x06, 0x16, 0x0E, 0x1E, 0xFF, 0xFF, 0xFF], [2, 0, 5, 6, 6, 7, 0, 0, 0], [0, 0, 0, 0, 0, 0, 0, 0, 0], Some(ASL)),
    Instruction("BCC", [0xFF, 0x90, 0xFF, 0xFF, 0xFF, 0xFF, 0xFF, 0xFF, 0xFF], [0, 2, 0, 0, 0, 0, 0, 0, 0], [0, 0, 0, 0, 0, 0, 0, 0, 0], Some(BCC)),
    Instruction("BCS", [0xFF, 0xB0, 0xFF, 0xFF, 0xFF, 0xFF, 0xFF, 0xFF, 0xFF], [0, 2, 0, 0, 0, 0, 0, 0, 0], [0, 0, 0, 0, 0, 0, 0, 0, 0], Some(BCS)),
    Instruction("BEQ", [0xFF, 0xF0, 0xFF, 0xFF, 0xFF, 0xFF, 0xFF, 0xFF, 0xFF], [0, 2, 0, 0, 0, 0, 0, 0, 0], [0, 0, 0, 0, 0, 0, 0, 0, 0], Some(BEQ)),
    Instruction("BMI", [0xFF, 0x30, 0xFF, 0xFF, 0xFF, 0xFF, 0xFF, 0xFF, 0xFF], [0, 2, 0, 0, 0, 0, 0, 0, 0], [0, 0, 0, 0, 0, 0, 0, 0, 0], Some(BMI)),
    Instruction("BNE", [0xFF, 0xD0, 0xFF, 0xFF, 0xFF, 0xFF, 0xFF, 0xFF, 0xFF], [0, 2, 0, 0, 0, 0, 0, 0, 0], [0, 0, 0, 0, 0, 0, 0, 0, 0], Some(BNE)),
    Instruction("BPL", [0xFF, 0x10, 0xFF, 0xFF, 0xFF, 0xFF, 0xFF, 0xFF, 0xFF], [0, 2, 0, 0, 0, 0, 0, 0, 0], [0, 0, 0, 0, 0, 0, 0, 0, 0], Some(BPL)),
    Instruction("BIT", [0xFF, 0xFF, 0x24, 0xFF, 0x2C, 0xFF, 0xFF, 0xFF, 0xFF], [0, 0, 3, 0, 4, 0, 0, 0, 0], [0, 0, 0, 0, 0, 0, 0, 0, 0], Some(BIT)),
    Instruction("???", [0xFF, 0xFF, 0xFF, 0xFF, 0xFF, 0xFF, 0xFF, 0xFF, 0xFF], [0, 0, 0, 0, 0, 0, 0, 0, 0], [0, 0, 0, 0, 0, 0, 0, 0, 0], None)
  ]

  /** Every row has one slot per mode index. */
  predicate RowShape(inst: Instruction)
  {
    |inst.opcode| == NumIndexModes && |inst.cycles| == NumIndexModes && |inst.extraCycles| == NumIndexModes
  }

  /** Row `i`, mode index `k` is a live slot holding opcode byte `op`. */
  predicate IsSlot(i: int, k: int, op: Byte)
  {
    0 <= i < |InstructionTable| && InstructionTable[i].execute.Some? &&
    RowShape(InstructionTable[i]) && 0 <= k < NumIndexModes && InstructionTable[i].opcode[k] == op
  }

  // ---------------------------------------------------------------- bit helpers

  /** `asSigned`: the int8_t reading of a byte (two's complement). */
  function AsSigned(v: Byte): (s: int)
    ensures -0x80 <= s < 0x80
    ensures (s - v) % 0x100 == 0
  {
    if v < 0x80 then v else v - 0x100
  }

  /** `MSB`: bit 7 of a 16-bit value. */
  function MSB(v: Word): (b: nat)
    ensures b <= 1
    ensures b == 1 <==> v % 0x100 >= 0x80
  {
    (v / 0x80) % 2
  }

  /** `MSB2`: bit 6 of a 16-bit value. */
  function MSB2(v: Word): (b: nat)
    ensures b <= 1
    ensures b == 1 <==> v % 0x80 >= 0x40
  {
    (v / 0x40) % 2
  }

  /** C's `&` on non-negative integers, one bit at a time from the bottom. */
  function BitAnd(a: nat, b: nat): (r: nat)
    ensures r <= a && r <= b
    decreases a
  {
    if a == 0 || b == 0 then 0
    else 2 * BitAnd(a / 2, b / 2) + (if a % 2 == 1 && b % 2 == 1 then 1 else 0)
  }

  /** Bit `k` of `x`, counted from the least significant. */
  function Bit(x: nat, k: nat): bool
  {
    if k == 0 then x % 2 == 1 else Bit(x / 2, k - 1)
  }

  lemma {:induction false} ZeroHasNoBits(k: nat)
    ensures !Bit(0, k)
  {
    if k > 0 {
      ZeroHasNoBits(k - 1);
    }
  }

  /** BitAnd is bitwise: each bit of the result is the conjunction of the operands' bits. */
  lemma {:induction false} BitAndBit(a: nat, b: nat, k: nat)
    ensures Bit(BitAnd(a, b), k) == (Bit(a, k) && Bit(b, k))
    decreases k
  {
    if a == 0 || b == 0 {
      ZeroHasNoBits(k);
    } else if k > 0 {
      BitAndBit(a / 2, b / 2, k - 1);
    }
  }

  /** Bits 7 and 6 of a byte, as comparisons. */
  lemma HighBits(x: Byte)
    ensures Bit(x, 7) <==> x >= 0x80
    ensures Bit(x, 6) <==> x % 0x80 >= 0x40
  {
    assert x / 2 / 2 == x / 4;
    assert x / 4 / 2 == x / 8;
    assert x / 8 / 2 == x / 0x10;
    assert x / 0x10 / 2 == x / 0x20;
    assert x / 0x20 / 2 == x / 0x40;
    assert x / 0x40 / 2 == x / 0x80;
    assert Bit(x, 7) == Bit(x / 2, 6);
    assert Bit(x / 2, 6) == Bit(x / 4, 5);
    assert Bit(x / 4, 5) == Bit(x / 8, 4);
    assert Bit(x / 8, 4) == Bit(x / 0x10, 3);
    assert Bit(x / 0x10, 3) == Bit(x / 0x20, 2);
    assert Bit(x / 0x20, 2) == Bit(x / 0x40, 1);
    assert Bit(x / 0x40, 1) == Bit(x / 0x80, 0);
    assert Bit(x, 6) == Bit(x / 2, 5);
    assert Bit(x / 2, 5) == Bit(x / 4, 4);
    assert Bit(x / 4, 4) == Bit(x / 8, 3);
    assert Bit(x / 8, 3) == Bit(x / 0x10, 2);
    assert Bit(x / 0x10, 2) == Bit(x / 0x20, 1);
    assert Bit(x / 0x20, 1) == Bit(x / 0x40, 0);
  }

  /** Bits 7 and 6 of `a & b` are those of `a` and `b` together. */
  lemma BitAndHighBits(a: Byte, b: Byte)
    ensures BitAnd(a, b) >= 0x80 <==> a >= 0x80 && b >= 0x80
    ensures BitAnd(a, b) % 0x80 >= 0x40 <==> a % 0x80 >= 0x40 && b % 0x80 >= 0x40
  {
    BitAndBit(a, b, 7);
    BitAndBit(a, b, 6);
    HighBits(a);
    HighBits(b);
    HighBits(BitAnd(a, b));
  }

  // ---------------------------------------------------------------- execution routines

  /** `ADC`: res = A + val + C as a 16-bit value, flags from res, A from its low byte. */
  function AdcEffect(r: Registers, val: Byte): (r': Registers)
    // the sum is completed: the new A and the carry out add up to the operands and carry in
    ensures r'.A + (if r'.P.carry then 0x100 else 0) == r.A + val + (if r.P.carry then 1 else 0)
    ensures r'.P.negative <==> r'.A >= 0x80
    // Z is set only by the unreduced sum 0 + 0 + 0, never by a sum that wraps to 0
    ensures r'.P.zero <==> r.A == 0 && val == 0 && !r.P.carry
    // V compares the sign of A before and after, whatever the sign of the operand
    ensures r'.P.overflow <==> (r.A >= 0x80) != (r'.A >= 0x80)
    ensures r'.P.interruptDisable == r.P.interruptDisable && r'.P.decimalMode == r.P.decimalMode
    ensures r'.P.breakCmd == r.P.breakCmd && r'.P.unused == r.P.unused
    ensures r'.X == r.X && r'.Y == r.Y && r'.SP == r.SP && r'.PC == r.PC
  {
    var res := r.A + val + (if r.P.carry then 1 else 0);
    r.(A := res % 0x100,
       P := r.P.(overflow := MSB(r.A) != MSB(res), negative := MSB(res) == 1,
                 zero := res == 0, carry := res > 0xFF))
  }

  /** `AND`: A &= val, N and Z from the new A. */
  function AndEffect(r: Registers, val: Byte): (r': Registers)
    ensures r'.A == BitAnd(r.A, val) && r'.A <= val
    ensures r'.P.negative <==> r'.A >= 0x80
    ensures r'.P.negative <==> r.A >= 0x80 && val >= 0x80
    ensures r'.P.zero <==> r'.A == 0
    ensures r'.P.(negative := r.P.negative, zero := r.P.zero) == r.P
    ensures r'.(A := r.A, P := r.P) == r
  {
    BitAndHighBits(r.A, val);
    var a := BitAnd(r.A, val);
    r.(A := a, P := r.P.(negative := MSB(a) == 1, zero := a == 0))
  }

  /** `ASL`: C takes bit 7 of val, A becomes val shifted left; memory is never written. */
  function AslEffect(r: Registers, val: Byte): (r': Registers)
    // the bit shifted out lands in C: 2 * val == A' + 256 * C'
    ensures 2 * val == r'.A + (if r'.P.carry then 0x100 else 0)
    ensures r'.A % 2 == 0
    ensures r'.P.negative <==> r'.A >= 0x80
    ensures r'.P.zero <==> r'.A == 0
    ensures r'.P.(carry := r.P.carry, negative := r.P.negative, zero := r.P.zero) == r.P
    ensures r'.(A := r.A, P := r.P) == r
  {
    // (val << 1) & 0xFE
    var a := (2 * val) % 0x100;
    r.(A := a, P := r.P.(carry := MSB(val) == 1, negative := MSB(a) == 1, zero := a == 0))
  }

  /** `BIT`: A unchanged; N, V and Z all taken from t = A & val, so N and V need the bit
      set in A as well as in val. */
  function BitEffect(r: Registers, val: Byte): (r': Registers)
    ensures r'.P.negative <==> r.A >= 0x80 && val >= 0x80
    ensures r'.P.overflow <==> r.A % 0x80 >= 0x40 && val % 0x80 >= 0x40
    ensures r'.P.zero <==> BitAnd(r.A, val) == 0
    ensures r'.P.(negative := r.P.negative, overflow := r.P.overflow, zero := r.P.zero) == r.P
    ensures r'.(P := r.P) == r
  {
    BitAndHighBits(r.A, val);
    var t := BitAnd(r.A, val);
    r.(P := r.P.(negative := MSB(t) == 1, overflow := MSB2(t) == 1, zero := t == 0))
  }

  /** `Branch`: when taken, PC moves by the signed offset modulo 2^16 and costs 1 extra
      cycle on the same page, 2 on another; when not taken nothing changes and it costs 0. */
  function BranchEffect(cond: bool, r: Registers, val: Byte): (res: (Registers, nat))
    ensures !cond ==> res == (r, 0)
    ensures cond ==> res.0 == r.(PC := res.0.PC)
    ensures cond ==> (res.0.PC - r.PC - AsSigned(val)) % 0x1_0000 == 0
    ensures cond ==> (res.1 == 1 <==> res.0.PC / 0x100 == r.PC / 0x100)
    ensures cond ==> (res.1 == 2 <==> res.0.PC / 0x100 != r.PC / 0x100)
  {
    if cond then
      var pc := (r.PC + AsSigned(val)) % 0x1_0000;
      (r.(PC := pc), if pc / 0x100 == r.PC / 0x100 then 1 else 2)
    else
      (r, 0)
  }

  /** The condition each branch wrapper hands to `Branch`. */
  function BranchCondition(mn: Mnemonic, p: Status): (taken: bool)
    requires IsBranch(mn)
    // the wrappers come in pairs that test one flag each, for set and for clear
    ensures mn in {BCC, BCS} ==> (taken <==> p.carry == (mn == BCS))
    ensures mn in {BEQ, BNE} ==> (taken <==> p.zero == (mn == BEQ))
    ensures mn in {BMI, BPL} ==> (taken <==> p.negative == (mn == BMI))
  {
    match mn
    case BCC => !p.carry
    case BCS => p.carry
    case BEQ => p.zero
    case BMI => p.negative
    case BNE => !p.zero
    case BPL => !p.negative
  }

  predicate IsBranch(mn: Mnemonic)
  {
    mn in {BCC, BCS, BEQ, BMI, BNE, BPL}
  }

  /** `inst->execute(val)`: the routine's effect and the extra cycles it returns. */
  function ExecEffect(mn: Mnemonic, r: Registers, val: Byte): (res: (Registers, nat))
    ensures !IsBranch(mn) ==> res.1 == 0 && res.0.PC == r.PC
    ensures IsBranch(mn) ==> res.0.(PC := r.PC) == r && res.1 <= 2
  {
    match mn
    case ADC => (AdcEffect(r, val), 0)
    case AND => (AndEffect(r, val), 0)
    case ASL => (AslEffect(r, val), 0)
    case BIT => (BitEffect(r, val), 0)
    case _ => BranchEffect(BranchCondition(mn, r.P), r, val)
  }

  // ---------------------------------------------------------------- addressing modes

  /** How many bytes after the opcode the resolver for mode index `ndx` consumes. */
  function OperandLength(ndx: nat): (n: nat)
    requires ndx < NumIndexModes
    ensures ndx == 0 ==> n == 0
    ensures ndx in {1, 2, 3, 7, 8} ==> n == 1
    ensures ndx in {4, 5, 6} ==> n == 2
  {
    if ndx == 0 then 0
    else if ndx in {4, 5, 6} then 2
    else 1
  }

  /** `(operand + index) & 0xFF`, the ZPX address and the IndX pointer: always in page zero. */
  function ZeroPageIndexed(base: Byte, index: Byte): (addr: Word)
    ensures addr < 0x100
    ensures (addr - base - index) % 0x100 == 0
  {
    (base + index) % 0x100
  }

  /** A 16-bit base plus an index register, truncated to uint16_t (AbsX, AbsY, IndY). */
  function Indexed(base: Word, index: Byte): (addr: Word)
    ensures (addr - base - index) % 0x1_0000 == 0
    ensures base + index < 0x1_0000 ==> addr == base + index
  {
    (base + index) % 0x1_0000
  }

  /** The address mode index `ndx` (2..8) reads its operand from, when the operand
      bytes start at r.PC. */
  function EffectiveAddress(ndx: nat, r: Registers, bus: Bus): (addr: Word)
    reads bus, bus.mem
    requires bus.Valid() && 2 <= ndx < NumIndexModes
    ensures ndx == 2 || ndx == 3 ==> addr < 0x100
    ensures ndx == 2 ==> addr == bus.Fetch(r.PC)
  {
    var b := bus.Fetch(r.PC);
    if ndx == 2 then b
    else if ndx == 3 then ZeroPageIndexed(b, r.X)
    else if ndx == 4 then bus.Fetch16(r.PC)
    else if ndx == 5 then Indexed(bus.Fetch16(r.PC), r.X)
    else if ndx == 6 then Indexed(bus.Fetch16(r.PC), r.Y)
    else if ndx == 7 then bus.Fetch16(ZeroPageIndexed(b, r.X))
    else Indexed(bus.Fetch16(b), r.Y)
  }

  /** The value the resolver for mode index `ndx` hands to the routine. */
  function Operand(ndx: nat, r: Registers, bus: Bus): (val: Byte)
    reads bus, bus.mem
    requires bus.Valid() && ndx < NumIndexModes
    ensures ndx == 0 ==> val == 0
    ensures ndx == 1 ==> val == bus.Fetch(r.PC)
    // zero-page operands come straight from work RAM, never from a register window
    ensures ndx == 2 || ndx == 3 ==> val == bus.mem[EffectiveAddress(ndx, r, bus)]
  {
    if ndx == 0 then 0
    else if ndx == 1 then bus.Fetch(r.PC)
    else bus.Fetch(EffectiveAddress(ndx, r, bus))
  }

  // ---------------------------------------------------------------- dispatch

  /** `runInstruction`, with PC just past the opcode: resolve, advance PC, execute;
      the count is the routine's extra cycles plus the mode's base cycles. */
  function RunEffect(inst: Instruction, ndx: nat, r: Registers, bus: Bus): (res: (Registers, int))
    reads bus, bus.mem
    requires bus.Valid() && RowShape(inst) && inst.execute.Some? && ndx < NumIndexModes
    ensures res.0.X == r.X && res.0.Y == r.Y && res.0.SP == r.SP
    ensures inst.cycles[ndx] <= res.1 <= inst.cycles[ndx] + 2
    ensures !IsBranch(inst.execute.value) ==>
      res.0.PC == (r.PC + OperandLength(ndx)) % 0x1_0000 && res.1 == inst.cycles[ndx]
  {
    var val := Operand(ndx, r, bus);
    var next := r.(PC := (r.PC + OperandLength(ndx)) % 0x1_0000);
    var executed := ExecEffect(inst.execute.value, next, val);
    (executed.0, executed.1 + inst.cycles[ndx])
  }

  /** `step`: fetch the opcode, advance PC, and run the slot the opcode decodes to;
      0xFF and unmatched bytes only advance PC and give 1. */
  function StepEffect(r: Registers, bus: Bus): (res: (Registers, int))
    reads bus, bus.mem
    requires bus.Valid()
    ensures res.0.X == r.X && res.0.Y == r.Y && res.0.SP == r.SP
    ensures res.1 >= 1
    ensures Decode(bus.Fetch(r.PC)).None? ==> res == (r.(PC := (r.PC + 1) % 0x1_0000), 1)
  {
    var opcode := bus.Fetch(r.PC);
    var next := r.(PC := (r.PC + 1) % 0x1_0000);
    match Decode(opcode)
    case Some((i, k)) =>
      DecodeMatchesTable(opcode, i, k);
      RunEffect(InstructionTable[i], k, next, bus)
    case None => (next, 1)
  }

  lemma RunEffectUnfolds(inst: Instruction, ndx: nat, r: Registers, bus: Bus)
    requires bus.Valid() && RowShape(inst) && inst.execute.Some? && ndx < NumIndexModes
    ensures var executed := ExecEffect(inst.execute.value, r.(PC := (r.PC + OperandLength(ndx)) % 0x1_0000), Operand(ndx, r, bus));
      RunEffect(inst, ndx, r, bus) == (executed.0, executed.1 + inst.cycles[ndx])
  {
  }

  /** The state `initCPU` establishes. */
  const PowerOn: Registers :=
    Registers(0, 0, 0, Status(false, false, false, false, false, false, false, false), 0xFF, 0xC000)

  // ---------------------------------------------------------------- properties

  /** The table has nine slots per row and a NULL sentinel exactly at its end. */
  lemma TableShape()
    ensures forall i :: 0 <= i < |InstructionTable| ==> RowShape(InstructionTable[i])
    ensures forall i :: 0 <= i < |InstructionTable| ==>
      (InstructionTable[i].execute.None? <==> i == |InstructionTable| - 1)
  {
  }

  /** The direct byte-keyed decode that the linear scan of `step` amounts to:
      the (row, mode index) holding each live opcode byte. */
  function Decode(op: Byte): (slot: Option<(nat, nat)>)
    ensures op == Absent ==> slot.None?
    ensures slot.Some? ==> IsSlot(slot.value.0, slot.value.1, op)
  {
    match op
    case 0x69 => Some((0, 1)) case 0x65 => Some((0, 2)) case 0x75 => Some((0, 3)) case 0x6D => Some((0, 4))
    case 0x7D => Some((0, 5)) case 0x79 => Some((0, 6)) case 0x61 => Some((0, 7)) case 0x71 => Some((0, 8))
    case 0x29 => Some((1, 1)) case 0x25 => Some((1, 2)) case 0x35 => Some((1, 3)) case 0x2D => Some((1, 4))
    case 0x3D => Some((1, 5)) case 0x39 => Some((1, 6)) case 0x21 => Some((1, 7)) case 0x31 => Some((1, 8))
    case 0x0A => Some((2, 0)) case 0x06 => Some((2, 2)) case 0x16 => Some((2, 3)) case 0x0E => Some((2, 4))
    case 0x1E => Some((2, 5))
    case 0x90 => Some((3, 1)) case 0xB0 => Some((4, 1)) case 0xF0 => Some((5, 1))
    case 0x30 => Some((6, 1)) case 0xD0 => Some((7, 1)) case 0x10 => Some((8, 1))
    case 0x24 => Some((9, 2)) case 0x2C => Some((9, 4))
    case _ => None
  }

  /** A live slot holding a byte other than the absent marker is exactly what Decode names. */
  lemma SlotDecodes(i: int, k: int, op: Byte)
    requires op != Absent && IsSlot(i, k, op)
    ensures Decode(op) == Some((i, k))
  {
    var row := InstructionTable[i].opcode;
    if i == 0 {} else if i == 1 {} else if i == 2 {} else if i == 3 {} else if i == 4 {}
    else if i == 5 {} else if i == 6 {} else if i == 7 {} else if i == 8 {} else {}
  }

  /** The scan and the decode agree in both directions. */
  lemma DecodeMatchesTable(op: Byte, i: int, k: int)
    ensures op != Absent && IsSlot(i, k, op) <==> Decode(op) == Some((i, k))
  {
    if op != Absent && IsSlot(i, k, op) {
      SlotDecodes(i, k, op);
    }
  }

  /** No opcode byte other than the absent marker sits in two live slots, so the scan
      in `step` selects a unique (row, mode). */
  lemma OpcodeSlotUnique(i: int, k: int, j: int, l: int, op: Byte)
    requires op != Absent && IsSlot(i, k, op) && IsSlot(j, l, op)
    ensures i == j && k == l
  {
    SlotDecodes(i, k, op);
    SlotDecodes(j, l, op);
  }

  /** The scan inside `step`: rows in order up to the NULL sentinel, in each row the nine
      mode slots in order, stopping at the first slot that holds the opcode. */
  method FindSlot(opcode: Byte) returns (found: bool, instNdx: nat, ndx: nat)
    ensures found ==> IsSlot(instNdx, ndx, opcode)
    ensures !found ==> forall i, k :: !IsSlot(i, k, opcode)
    ensures opcode != Absent ==> (found <==> Decode(opcode).Some?)
    ensures opcode != Absent && found ==> Decode(opcode) == Some((instNdx, ndx))
  {
    TableShape();
    instNdx := 0;
    while InstructionTable[instNdx].execute.Some?
      invariant 0 <= instNdx < |InstructionTable|
      invariant forall i, k :: 0 <= i < instNdx ==> !IsSlot(i, k, opcode)
      decreases |InstructionTable| - instNdx
    {
      for k := 0 to NumIndexModes
        invariant forall k' :: 0 <= k' < k ==> InstructionTable[instNdx].opcode[k'] != opcode
      {
        if InstructionTable[instNdx].opcode[k] == opcode {
          found, ndx := true, k;
          if opcode != Absent {
            SlotDecodes(instNdx, ndx, opcode);
          }
          return;
        }
      }
      instNdx := instNdx + 1;
    }
    found, ndx := false, 0;
  }

  /** A fetched 0xFF, or a byte that no live slot holds, runs nothing: PC moves past it
      and the count is 1. */
  lemma StepInvalid(r: Registers, bus: Bus)
    requires bus.Valid()
    requires bus.Fetch(r.PC) == Absent || forall i, k :: !IsSlot(i, k, bus.Fetch(r.PC))
    ensures StepEffect(r, bus) == (r.(PC := (r.PC + 1) % 0x1_0000), 1)
  {
  }

  /** StepEffect on an opcode that decodes is the slot's RunEffect, PC just past the opcode. */
  lemma StepDecoded(r: Registers, bus: Bus, i: nat, k: nat)
    requires bus.Valid() && Decode(bus.Fetch(r.PC)) == Some((i, k))
    ensures IsSlot(i, k, bus.Fetch(r.PC))
    ensures StepEffect(r, bus) == RunEffect(InstructionTable[i], k, r.(PC := (r.PC + 1) % 0x1_0000), bus)
  {
    DecodeMatchesTable(bus.Fetch(r.PC), i, k);
  }

  /** Base cycles of live slots: at least 2 everywhere, and branches live only in the
      immediate slot, at 2 cycles. */
  lemma SlotCycles(i: int, k: int, op: Byte)
    requires op != Absent && IsSlot(i, k, op)
    ensures 2 <= InstructionTable[i].cycles[k] <= 7
    ensures IsBranch(InstructionTable[i].execute.value) ==> k == 1 && InstructionTable[i].cycles[k] == 2
  {
    if i == 0 {} else if i == 1 {} else if i == 2 {} else if i == 3 {} else if i == 4 {}
    else if i == 5 {} else if i == 6 {} else if i == 7 {} else if i == 8 {} else {}
  }

  /** Every live slot costs at least two cycles, so a count of 1 comes from an invalid
      opcode and from nothing else. */
  lemma OneCycleMeansInvalid(r: Registers, bus: Bus)
    requires bus.Valid()
    ensures 1 <= StepEffect(r, bus).1 <= 7
    ensures StepEffect(r, bus).1 == 1 <==>
      (bus.Fetch(r.PC) == Absent || forall i, k :: !IsSlot(i, k, bus.Fetch(r.PC)))
  {
    var op := bus.Fetch(r.PC);
    match Decode(op)
    case None =>
      StepInvalid(r, bus);
    case Some((i, k)) =>
      StepDecoded(r, bus, i, k);
      SlotCycles(i, k, op);
      DecodeMatchesTable(op, i, k);
      RunEffectUnfolds(InstructionTable[i], k, r.(PC := (r.PC + 1) % 0x1_0000), bus);
  }

  /** Advancing PC past the opcode and then past the operand bytes, each modulo 2^16. */
  lemma AdvanceTwice(pc: Word, len: nat)
    requires len <= 2
    ensures ((pc + 1) % 0x1_0000 + len) % 0x1_0000 == (pc + 1 + len) % 0x1_0000
  {
    if pc + 1 == 0x1_0000 {
      assert (pc + 1) % 0x1_0000 == 0;
    } else {
      assert (pc + 1) % 0x1_0000 == pc + 1;
    }
  }

  /** A matched instruction other than a branch moves PC past the opcode and its operand
      bytes (modulo 2^16) and costs exactly the slot's base cycles. */
  lemma StepNonBranch(r: Registers, bus: Bus, i: int, k: int)
    requires bus.Valid() && bus.Fetch(r.PC) != Absent && IsSlot(i, k, bus.Fetch(r.PC))
    requires !IsBranch(InstructionTable[i].execute.value)
    ensures StepEffect(r, bus).0.PC == (r.PC + 1 + OperandLength(k)) % 0x1_0000
    ensures StepEffect(r, bus).1 == InstructionTable[i].cycles[k]
  {
    SlotDecodes(i, k, bus.Fetch(r.PC));
    StepDecoded(r, bus, i, k);
    var next := r.(PC := (r.PC + 1) % 0x1_0000);
    var past := next.(PC := (next.PC + OperandLength(k)) % 0x1_0000);
    var executed := ExecEffect(InstructionTable[i].execute.value, past, Operand(k, next, bus));
    RunEffectUnfolds(InstructionTable[i], k, next, bus);
    assert StepEffect(r, bus) == (executed.0, executed.1 + InstructionTable[i].cycles[k]);
    AdvanceTwice(r.PC, OperandLength(k));
  }

  /** A branch is always immediate-mode: not taken it moves PC past both bytes and costs 2;
      taken it adds the signed offset to that PC and costs 3 on the same page, 4 across. */
  lemma StepBranch(r: Registers, bus: Bus, i: int, k: int)
    requires bus.Valid() && bus.Fetch(r.PC) != Absent && IsSlot(i, k, bus.Fetch(r.PC))
    requires IsBranch(InstructionTable[i].execute.value)
    ensures k == 1
    ensures var past := (r.PC + 2) % 0x1_0000;
            var offset := AsSigned(bus.Fetch((r.PC + 1) % 0x1_0000));
            var target := (past + offset) % 0x1_0000;
            if BranchCondition(InstructionTable[i].execute.value, r.P) then
              StepEffect(r, bus) == (r.(PC := target), if target / 0x100 == past / 0x100 then 3 else 4)
            else
              StepEffect(r, bus) == (r.(PC := past), 2)
  {
    var op := bus.Fetch(r.PC);
    var mn := InstructionTable[i].execute.value;
    SlotDecodes(i, k, op);
    SlotCycles(i, k, op);
    StepDecoded(r, bus, i, k);
    var next := r.(PC := (r.PC + 1) % 0x1_0000);
    var past := next.(PC := (next.PC + 1) % 0x1_0000);
    var val := bus.Fetch((r.PC + 1) % 0x1_0000);
    assert Operand(1, next, bus) == val;
    RunEffectUnfolds(InstructionTable[i], 1, next, bus);
    var executed := BranchEffect(BranchCondition(mn, r.P), past, val);
    assert StepEffect(r, bus) == (executed.0, executed.1 + 2);
    AdvanceTwice(r.PC, 1);
  }

  /** Accumulator-mode ASL (0x0A) is handed 0: A and C end up 0, Z set, N clear. */
  lemma AccumulatorAsl(r: Registers, bus: Bus)
    requires bus.Valid() && bus.Fetch(r.PC) == 0x0A
    ensures StepEffect(r, bus) ==
      (r.(A := 0, P := r.P.(carry := false, negative := false, zero := true),
          PC := (r.PC + 1) % 0x1_0000), 2)
  {
    RunEffectUnfolds(InstructionTable[2], 0, r.(PC := (r.PC + 1) % 0x1_0000), bus);
  }

  /** ADC #$05 with A = 0x10 and C clear: A becomes 0x15, C, Z, N and V end up clear,
      PC moves past both bytes and the count is 2. */
  lemma AdcImmediateScenario(r: Registers, bus: Bus)
    requires bus.Valid() && bus.Fetch(r.PC) == 0x69 && bus.Fetch((r.PC + 1) % 0x1_0000) == 0x05
    requires r.A == 0x10 && !r.P.carry
    ensures StepEffect(r, bus) ==
      (r.(A := 0x15, P := r.P.(zero := false, negative := false, overflow := false),
          PC := (r.PC + 2) % 0x1_0000), 2)
  {
    var next := r.(PC := (r.PC + 1) % 0x1_0000);
    RunEffectUnfolds(InstructionTable[0], 1, next, bus);
    assert Operand(1, next, bus) == 0x05;
    AdvanceTwice(r.PC, 1);
  }

  /** Without the 0xFF test in `step`, the scan would stop at its very first slot, ADC's
      accumulator slot, and run ADC on the value 0 for 0 base cycles. */
  lemma AbsentMarksAdcAccumulator()
    ensures IsSlot(0, 0, Absent)
    ensures InstructionTable[0].execute == Some(ADC) && InstructionTable[0].cycles[0] == 0
  {
  }

  /** The state `initCPU` leaves: no register or flag set except SP = 0xFF, and the first
      opcode is fetched from the first byte of the PRG-ROM bank. */
  lemma PowerOnState(bus: Bus)
    requires bus.Valid()
    ensures PowerOn.A == 0 && PowerOn.X == 0 && PowerOn.Y == 0 && PowerOn.SP == 0xFF
    ensures !PowerOn.P.carry && !PowerOn.P.zero && !PowerOn.P.interruptDisable && !PowerOn.P.decimalMode
    ensures !PowerOn.P.breakCmd && !PowerOn.P.unused && !PowerOn.P.overflow && !PowerOn.P.negative
    ensures bus.Fetch(PowerOn.PC) == bus.mem[PrgBankBase]
  {
  }

  /** IndX forms its pointer in page zero but reads the pointer with `fetch16`, so a
      pointer at 0xFF takes its high byte from 0x100, not from 0x00 as `fetchZP16` would. */
  lemma IndirectPointerReadsPastPageZero(r: Registers, bus: Bus)
    requires bus.Valid() && ZeroPageIndexed(bus.Fetch(r.PC), r.X) == 0xFF
    ensures EffectiveAddress(7, r, bus) == bus.Fetch(0xFF) + bus.Fetch(0x100) * 0x100
    ensures EffectiveAddress(7, r, bus) == bus.FetchZP16(0xFF) <==> bus.Fetch(0x100) == bus.Fetch(0)
  {
  }

  // ---------------------------------------------------------------- the CPU object

  /** The `registers` struct; the bus is handed to every method that reads memory. */
  class CPU {
    var A: Byte
    var X: Byte
    var Y: Byte
    var P: Status
    var SP: Byte
    var PC: Word

    function Regs(): Registers
      reads this
    {
      Registers(A, X, Y, P, SP, PC)
    }

    /** A C static struct starts out zero-filled. */
    constructor ()
      ensures Regs() == Registers(0, 0, 0, Status(false, false, false, false, false, false, false, false), 0, 0)
    {
      A, X, Y, SP, PC := 0, 0, 0, 0, 0;
      P := Status(false, false, false, false, false, false, false, false);
    }

    /** `initCPU`. */
    method InitCPU()
      modifies this
      ensures Regs() == PowerOn
      ensures PC == PrgBankBase
    {
      A := 0;
      X := 0;
      Y := 0;
      P := Status(false, false, false, false, false, false, false, false);
      SP := 0xFF;
      PC := 0xC000;
    }

    /** `step`: fetch an opcode, reject 0xFF, run the first table slot holding it;
        anything else is an invalid opcode, which costs "1". */
    method Step(bus: Bus) returns (cycles: int)
      requires bus.Valid()
      modifies this
      ensures (Regs(), cycles) == StepEffect(old(Regs()), bus)
    {
      var opcode := FetchPC(bus);
      if opcode != 0xFF {
        var found, instNdx, ndx := FindSlot(opcode);
        if found {
          cycles := RunInstruction(bus, InstructionTable[instNdx], ndx);
          return;
        }
      }
      // invalid opcode
      cycles := 1;
    }

    /** `runInstruction`: resolve the operand by mode index, execute, add the base cycles
        and, had the resolver reported a page crossing, the extra cycles. */
    method RunInstruction(bus: Bus, inst: Instruction, ndx: nat) returns (cycles: int)
      requires bus.Valid() && RowShape(inst) && inst.execute.Some? && ndx < NumIndexModes
      modifies this
      ensures (Regs(), cycles) == RunEffect(inst, ndx, old(Regs()), bus)
    {
      var val, pageBoundary := ResolveOperand(bus, ndx);
      RunEffectUnfolds(inst, ndx, old(Regs()), bus);
      var extraCycles := inst.extraCycles[ndx];
      var extra := Execute(inst.execute.value, val);
      cycles := extra + inst.cycles[ndx] + (if pageBoundary != 0 then extraCycles else 0);
    }

    /** The `switch (ndx)` of `runInstruction`: mode index 0 gives val = pageBoundary = 0,
        the others call their resolver; every one of them leaves pageBoundary at 0. */
    method ResolveOperand(bus: Bus, ndx: nat) returns (val: Byte, pageBoundary: Byte)
      requires bus.Valid() && ndx < NumIndexModes
      modifies this`PC
      ensures pageBoundary == 0
      ensures val == Operand(ndx, old(Regs()), bus)
      ensures PC == (old(PC) + OperandLength(ndx)) % 0x1_0000
    {
      if ndx == 0 {
        val, pageBoundary := 0, 0;
      } else if ndx == 1 {
        val, pageBoundary := Imm(bus);
      } else if ndx == 2 {
        val, pageBoundary := ZP(bus);
      } else if ndx == 3 {
        val, pageBoundary := ZPX(bus);
      } else if ndx == 4 {
        val, pageBoundary := Abs(bus);
      } else if ndx == 5 {
        val, pageBoundary := AbsX(bus);
      } else if ndx == 6 {
        val, pageBoundary := AbsY(bus);
      } else if ndx == 7 {
        val, pageBoundary := IndX(bus);
      } else {
        val, pageBoundary := IndY(bus);
      }
    }

    /** `fetchPC`: the byte at PC, then PC++. */
    method FetchPC(bus: Bus) returns (b: Byte)
      requires bus.Valid()
      modifies this`PC
      ensures b == bus.Fetch(old(PC))
      ensures PC == (old(PC) + 1) % 0x1_0000
    {
      b := bus.Fetch(PC);
      PC := (PC + 1) % 0x1_0000;
    }

    /** `fetchPC16`: the little-endian word at PC, then PC += 2. */
    method FetchPC16(bus: Bus) returns (w: Word)
      requires bus.Valid()
      modifies this`PC
      ensures w == bus.Fetch16(old(PC))
      ensures PC == (old(PC) + 2) % 0x1_0000
    {
      w := bus.Fetch16(PC);
      PC := (PC + 2) % 0x1_0000;
    }

    method Imm(bus: Bus) returns (val: Byte, pageBoundary: Byte)
      requires bus.Valid()
      modifies this`PC
      ensures pageBoundary == 0
      ensures val == Operand(1, old(Regs()), bus)
      ensures PC == (old(PC) + OperandLength(1)) % 0x1_0000
    {
      pageBoundary := 0;
      val := FetchPC(bus);
    }

    method ZP(bus: Bus) returns (val: Byte, pageBoundary: Byte)
      requires bus.Valid()
      modifies this`PC
      ensures pageBoundary == 0
      ensures val == Operand(2, old(Regs()), bus)
      ensures PC == (old(PC) + OperandLength(2)) % 0x1_0000
    {
      pageBoundary := 0;
      var addr := FetchPC(bus);
      val := bus.Fetch(addr);
    }

    method ZPX(bus: Bus) returns (val: Byte, pageBoundary: Byte)
      requires bus.Valid()
      modifies this`PC
      ensures pageBoundary == 0
      ensures val == Operand(3, old(Regs()), bus)
      ensures PC == (old(PC) + OperandLength(3)) % 0x1_0000
    {
      pageBoundary := 0;
      var b := FetchPC(bus);
      val := bus.Fetch((b + X) % 0x100);           // (fetchPC() + X) & 0xFF
    }

    method Abs(bus: Bus) returns (val: Byte, pageBoundary: Byte)
      requires bus.Valid()
      modifies this`PC
      ensures pageBoundary == 0
      ensures val == Operand(4, old(Regs()), bus)
      ensures PC == (old(PC) + OperandLength(4)) % 0x1_0000
    {
      pageBoundary := 0;
      var addr := FetchPC16(bus);
      val := bus.Fetch(addr);
    }

    method AbsX(bus: Bus) returns (val: Byte, pageBoundary: Byte)
      requires bus.Valid()
      modifies this`PC
      ensures pageBoundary == 0
      ensures val == Operand(5, old(Regs()), bus)
      ensures PC == (old(PC) + OperandLength(5)) % 0x1_0000
    {
      pageBoundary := 0;
      var base := FetchPC16(bus);
      val := bus.Fetch((base + X) % 0x1_0000);
    }

    method AbsY(bus: Bus) returns (val: Byte, pageBoundary: Byte)
      requires bus.Valid()
      modifies this`PC
      ensures pageBoundary == 0
      ensures val == Operand(6, old(Regs()), bus)
      ensures PC == (old(PC) + OperandLength(6)) % 0x1_0000
    {
      pageBoundary := 0;
      var base := FetchPC16(bus);
      val := bus.Fetch((base + Y) % 0x1_0000);
    }

    method IndX(bus: Bus) returns (val: Byte, pageBoundary: Byte)
      requires bus.Valid()
      modifies this`PC
      ensures pageBoundary == 0
      ensures val == Operand(7, old(Regs()), bus)
      ensures PC == (old(PC) + OperandLength(7)) % 0x1_0000
    {
      pageBoundary := 0;
      var b := FetchPC(bus);
      val := bus.Fetch(bus.Fetch16((b + X) % 0x100));
    }

    method IndY(bus: Bus) returns (val: Byte, pageBoundary: Byte)
      requires bus.Valid()
      modifies this`PC
      ensures pageBoundary == 0
      ensures val == Operand(8, old(Regs()), bus)
      ensures PC == (old(PC) + OperandLength(8)) % 0x1_0000
    {
      pageBoundary := 0;
      var b := FetchPC(bus);
      val := bus.Fetch((bus.Fetch16(b) + Y) % 0x1_0000);
    }

    /** `inst->execute(val)`: the function pointer, dispatched on the mnemonic. */
    method Execute(mn: Mnemonic, val: Byte) returns (extra: int)
      modifies this`A, this`P, this`PC
      ensures (Regs(), extra) == ExecEffect(mn, old(Regs()), val)
    {
      match mn
      case ADC => extra := ADC(val);
      case AND => extra := AND(val);
      case ASL => extra := ASL(val);
      case BCC => extra := BCC(val);
      case BCS => extra := BCS(val);
      case BEQ => extra := BEQ(val);
      case BMI => extra := BMI(val);
      case BNE => extra := BNE(val);
      case BPL => extra := BPL(val);
      case BIT => extra := BIT(val);
    }

    method ADC(val: Byte) returns (extra: int)
      modifies this`A, this`P
      ensures Regs() == AdcEffect(old(Regs()), val) && extra == 0
    {
      var res := A + val + (if P.carry then 1 else 0);
      P := P.(overflow := MSB(A) != MSB(res));
      P := P.(negative := MSB(res) == 1);
      P := P.(zero := res == 0);
      P := P.(carry := res > 255);
      A := res % 0x100;                               // res & 0xFF
      extra := 0;
    }

    method AND(val: Byte) returns (extra: int)
      modifies this`A, this`P
      ensures Regs() == AndEffect(old(Regs()), val) && extra == 0
    {
      A := BitAnd(A, val);
      P := P.(negative := MSB(A) == 1);
      P := P.(zero := A == 0);
      extra := 0;
    }

    method ASL(val: Byte) returns (extra: int)
      modifies this`A, this`P
      ensures Regs() == AslEffect(old(Regs()), val) && extra == 0
    {
      P := P.(carry := MSB(val) == 1);
      A := (2 * val) % 0x100;                         // (val << 1) & 0xFE
      P := P.(negative := MSB(A) == 1);
      P := P.(zero := A == 0);
      extra := 0;
    }

    method Branch(cond: bool, val: Byte) returns (extra: int)
      modifies this`PC
      ensures (Regs(), extra) == BranchEffect(cond, old(Regs()), val)
    {
      if cond {
        var page := PC / 0x100;                       // PC & 0xFF00
        PC := (PC + AsSigned(val)) % 0x1_0000;
        return if PC / 0x100 == page then 1 else 2;
      }
      return 0;
    }

    method BCC(val: Byte) returns (extra: int)
      modifies this`PC
      ensures (Regs(), extra) == BranchEffect(!old(P.carry), old(Regs()), val)
    {
      extra := Branch(!P.carry, val);
    }

    method BCS(val: Byte) returns (extra: int)
      modifies this`PC
      ensures (Regs(), extra) == BranchEffect(old(P.carry), old(Regs()), val)
    {
      extra := Branch(P.carry, val);
    }

    method BEQ(val: Byte) returns (extra: int)
      modifies this`PC
      ensures (Regs(), extra) == BranchEffect(old(P.zero), old(Regs()), val)
    {
      extra := Branch(P.zero, val);
    }

    method BMI(val: Byte) returns (extra: int)
      modifies this`PC
      ensures (Regs(), extra) == BranchEffect(old(P.negative), old(Regs()), val)
    {
      extra := Branch(P.negative, val);
    }

    method BNE(val: Byte) returns (extra: int)
      modifies this`PC
      ensures (Regs(), extra) == BranchEffect(!old(P.zero), old(Regs()), val)
    {
      extra := Branch(!P.zero, val);
    }

    method BPL(val: Byte) returns (extra: int)
      modifies this`PC
      ensures (Regs(), extra) == BranchEffect(!old(P.negative), old(Regs()), val)
    {
      extra := Branch(!P.negative, val);
    }

    method BIT(val: Byte) returns (extra: int)
      modifies this`P
      ensures Regs() == BitEffect(old(Regs()), val) && extra == 0
    {
      var t := BitAnd(A, val);
      P := P.(negative := MSB(t) == 1);
      P := P.(overflow := MSB2(t) == 1);
      P := P.(zero := t == 0);
      extra := 0;
    }
  }
}
