/**
 * The instruction codec of the VIA C3 "alternate instruction set" (AIS)
 * assembler: typed instructions with optional operand slots, their encoding
 * into a fixed 6-byte unit (`0x62 0x80` and a little-endian 32-bit word) and
 * the decoding of such units.
 */
module Ais {
  import opened Wrappers

  newtype i8 = x: int | -128 <= x < 128

  /** A register operand: a raw index (validated only when encoded) or a symbolic name. */
  datatype Register = Index(index: bv8) | Name(name: string)

  datatype Const = Number(value: i8)

  datatype Offset = Number(value: i8)

  datatype Size = Bits16 | Bits32 | Bits8

  datatype Sel = Flat

  datatype SubOpXio = Norm

  datatype SubOpXls = Xio(io: SubOpXio)

  datatype AddrSize = Bits32

  /** The secondary function field: load-store/IO bits or ALU sub-operation bits. */
  datatype Function =
    | Xls(subOp: SubOpXls, addrSize: AddrSize, size: Size, sel: Sel)
    | Xalu(aluOp: SubOpXalu, dpCntl: DpCntl)

  datatype DpCntl = Word | Short | LL | HL | LH | HH

  datatype Opcode =
    | XJ
    | ORIU | ADDI | ANDIU | ANDIL | ANDI | ORI | XORI | XORIU
    | XALU | XALUI | XALUR | XALUIR
    | XMISC | XLEAI | XLEAD
    | XL | XL2 | XL3 | XLBI | XLDESC | XIOR | XPOPBR | XPOP
    | XS | XS2 | XPUSHI | XSI | XPUSHIP | XIOW | XSU | XPUSH

  datatype SubOpXalu =
    | SHL | SHR | SAR | ROL | ROR | RCL | RCR
    | INC | CMPS | DEC | IMUL | MUL | IDIV
    | ADD | ADC | SUB | SBB | AND | OR | XOR | NOR
    | CTC2 | SETCC | MFLOU | MFLOI

  /**
   * An instruction: the opcode and the optional operand slots. The slot the
   * source calls `function` is `funct` here (`function` is a Dafny keyword).
   */
  datatype Instruction = Instruction(
    opcode: Opcode,
    rs: Option<Register>,
    rt: Option<Register>,
    rd: Option<Register>,
    imm: Option<bv16>,
    constant: Option<Const>,
    offset: Option<Offset>,
    funct: Option<Function>)

  datatype AisError =
    | InvalidRegisterIndex(index: bv8)
    | InvalidRegisterName(name: string)
    | Unsupported(instr: Instruction)
    | MissingImmediate(instr: Instruction)
    | MissingRs(instr: Instruction)
    | MissingRt(instr: Instruction)
    | MissingRd(instr: Instruction)
    | MissingConstant(instr: Instruction)
    | MissingOffset(instr: Instruction)
    | MissingFunction(instr: Instruction)
    | DecodeError(bytes: seq<bv8>)
    | DecodeIssue
    | UnknownOpcode(bits: bv32)
    | UnknownSubOp(bits: bv32)

  /** The synchronisation header that starts every encoded unit. */
  const UnitHeader: seq<bv8> := [0x62, 0x80]

  /** The closed table of symbolic register names. */
  const RegisterNames: map<string, bv32> :=
    map["R4" := 4, "EAX" := 16, "ECX" := 17, "EDX" := 18, "EBX" := 19]

  // ---------------------------------------------------------------------------
  // Operand model

  /** The 5-bit register number, or why the register cannot be encoded. */
  function RegisterBits(r: Register): (b: Result<bv32, AisError>)
    ensures b.Success? ==> b.value < 32
    ensures r.Index? ==> (b.Success? <==> r.index <= 31)
    ensures r.Index? && b.Success? ==> b.value == r.index as bv32
    ensures r.Index? && b.Failure? ==> b.error == InvalidRegisterIndex(r.index)
    ensures r.Name? && b.Failure? ==> b.error == InvalidRegisterName(r.name)
  {
    match r
    case Index(x) => if x > 31 then Failure(InvalidRegisterIndex(x)) else Success(x as bv32)
    case Name(x) =>
      if x == "R4" then Success(4)
      else if x == "EAX" then Success(16)
      else if x == "ECX" then Success(17)
      else if x == "EDX" then Success(18)
      else if x == "EBX" then Success(19)
      else Failure(InvalidRegisterName(x))
  }

  predicate ValidRegister(r: Register) {
    RegisterBits(r).Success?
  }

  /** A register name is encodable exactly when it is in the table, and encodes to its entry. */
  lemma RegisterNameBits(name: string)
    ensures RegisterBits(Name(name)).Success? <==> name in RegisterNames
    ensures name in RegisterNames ==> RegisterBits(Name(name)).value == RegisterNames[name]
  {
  }

  // ---------------------------------------------------------------------------
  // Numeric codes of the enumerations (enum-to-code and code-to-enum tables)

  function SizeCode(s: Size): bv32 {
    match s
    case Bits16 => 0
    case Bits32 => 2
    case Bits8 => 1
  }

  function SelCode(s: Sel): bv32 {
    match s
    case Flat => 10
  }

  function SubOpXioCode(s: SubOpXio): bv32 {
    match s
    case Norm => 0
  }

  function AddrSizeCode(a: AddrSize): bv32 {
    match a
    case Bits32 => 3
  }

  function DpCntlCode(d: DpCntl): bv32 {
    match d
    case Word => 0
    case Short => 1
    case LL => 2
    case HL => 3
    case LH => 4
    case HH => 5
  }

  /** Control codes take three bits; only LH and HH use the high one. */
  lemma DpCntlCodeBound(d: DpCntl)
    ensures DpCntlCode(d) < 8
    ensures DpCntlCode(d) >= 4 <==> d == LH || d == HH
  {
  }

  function DpCntlFromBits(bits: bv32): (d: Option<DpCntl>)
    ensures d.Some? ==> DpCntlCode(d.value) == bits
  {
    if bits == 0 then Some(Word)
    else if bits == 1 then Some(Short)
    else if bits == 2 then Some(LL)
    else if bits == 3 then Some(HL)
    else if bits == 4 then Some(LH)
    else if bits == 5 then Some(HH)
    else None
  }

  function OpcodeCode(op: Opcode): bv32 {
    match op
    case XJ => 0x06
    case ORIU => 0x08
    case ADDI => 0x09
    case ANDIU => 0x0A
    case ANDIL => 0x0B
    case ANDI => 0x0C
    case ORI => 0x0D
    case XORI => 0x0E
    case XORIU => 0x0F
    case XALU => 0x20
    case XALUI => 0x21
    case XALUR => 0x22
    case XALUIR => 0x23
    case XMISC => 0x28
    case XLEAI => 0x2B
    case XLEAD => 0x2C
    case XL => 0x30
    case XL2 => 0x31
    case XL3 => 0x32
    case XLBI => 0x33
    case XLDESC => 0x34
    case XIOR => 0x35
    case XPOPBR => 0x36
    case XPOP => 0x37
    case XS => 0x38
    case XS2 => 0x39
    case XPUSHI => 0x3A
    case XSI => 0x3B
    case XPUSHIP => 0x3C
    case XIOW => 0x3D
    case XSU => 0x3E
    case XPUSH => 0x3F
  }

  /** The opcode whose code is `bits`, if any, looked up in three ranges of the table. */
  function OpcodeFromBits(bits: bv32): (op: Option<Opcode>)
    ensures op.Some? ==> OpcodeCode(op.value) == bits
  {
    if bits < 0x20 then JumpImmOpcodeFromBits(bits)
    else if bits < 0x30 then AluOpcodeFromBits(bits)
    else LoadStoreOpcodeFromBits(bits)
  }

  function JumpImmOpcodeFromBits(bits: bv32): (op: Option<Opcode>)
    ensures op.Some? ==> OpcodeCode(op.value) == bits
  {
    if bits == 0x06 then Some(XJ)
    else if bits == 0x08 then Some(ORIU)
    else if bits == 0x09 then Some(ADDI)
    else if bits == 0x0A then Some(ANDIU)
    else if bits == 0x0B then Some(ANDIL)
    else if bits == 0x0C then Some(ANDI)
    else if bits == 0x0D then Some(ORI)
    else if bits == 0x0E then Some(XORI)
    else if bits == 0x0F then Some(XORIU)
    else None
  }

  function AluOpcodeFromBits(bits: bv32): (op: Option<Opcode>)
    ensures op.Some? ==> OpcodeCode(op.value) == bits
  {
    if bits == 0x20 then Some(XALU)
    else if bits == 0x21 then Some(XALUI)
    else if bits == 0x22 then Some(XALUR)
    else if bits == 0x23 then Some(XALUIR)
    else if bits == 0x28 then Some(XMISC)
    else if bits == 0x2B then Some(XLEAI)
    else if bits == 0x2C then Some(XLEAD)
    else None
  }

  function LoadStoreOpcodeFromBits(bits: bv32): (op: Option<Opcode>)
    ensures op.Some? ==> OpcodeCode(op.value) == bits
  {
    if bits < 0x38 then LoadOpcodeFromBits(bits) else StoreOpcodeFromBits(bits)
  }

  function LoadOpcodeFromBits(bits: bv32): (op: Option<Opcode>)
    ensures op.Some? ==> OpcodeCode(op.value) == bits
  {
    if bits == 0x30 then Some(XL)
    else if bits == 0x31 then Some(XL2)
    else if bits == 0x32 then Some(XL3)
    else if bits == 0x33 then Some(XLBI)
    else if bits == 0x34 then Some(XLDESC)
    else if bits == 0x35 then Some(XIOR)
    else if bits == 0x36 then Some(XPOPBR)
    else if bits == 0x37 then Some(XPOP)
    else None
  }

  function StoreOpcodeFromBits(bits: bv32): (op: Option<Opcode>)
    ensures op.Some? ==> OpcodeCode(op.value) == bits
  {
    if bits == 0x38 then Some(XS)
    else if bits == 0x39 then Some(XS2)
    else if bits == 0x3A then Some(XPUSHI)
    else if bits == 0x3B then Some(XSI)
    else if bits == 0x3C then Some(XPUSHIP)
    else if bits == 0x3D then Some(XIOW)
    else if bits == 0x3E then Some(XSU)
    else if bits == 0x3F then Some(XPUSH)
    else None
  }

  function SubOpXaluCode(s: SubOpXalu): bv32 {
    match s
    case SHL => 0x00
    case SHR => 0x02
    case SAR => 0x03
    case ROL => 0x04
    case ROR => 0x05
    case RCL => 0x06
    case RCR => 0x07
    case INC => 0x08
    case CMPS => 0x09
    case DEC => 0x0A
    case IMUL => 0x0C
    case MUL => 0x0D
    case IDIV => 0x0E
    case ADD => 0x10
    case ADC => 0x11
    case SUB => 0x12
    case SBB => 0x13
    case AND => 0x14
    case OR => 0x15
    case XOR => 0x16
    case NOR => 0x17
    case CTC2 => 0x19
    case SETCC => 0x1D
    case MFLOU => 0x1E
    case MFLOI => 0x1F
  }

  /** The ALU sub-operation whose code is `bits`, if any. */
  function SubOpXaluFromBits(bits: bv32): (s: Option<SubOpXalu>)
    ensures s.Some? ==> SubOpXaluCode(s.value) == bits
  {
    if bits == 0x00 then Some(SHL)
    else if bits == 0x02 then Some(SHR)
    else if bits == 0x03 then Some(SAR)
    else if bits == 0x04 then Some(ROL)
    else if bits == 0x05 then Some(ROR)
    else if bits == 0x06 then Some(RCL)
    else if bits == 0x07 then Some(RCR)
    else if bits == 0x08 then Some(INC)
    else if bits == 0x09 then Some(CMPS)
    else if bits == 0x0A then Some(DEC)
    else if bits == 0x0C then Some(IMUL)
    else if bits == 0x0D then Some(MUL)
    else if bits == 0x0E then Some(IDIV)
    else if bits == 0x10 then Some(ADD)
    else if bits == 0x11 then Some(ADC)
    else if bits == 0x12 then Some(SUB)
    else if bits == 0x13 then Some(SBB)
    else if bits == 0x14 then Some(AND)
    else if bits == 0x15 then Some(OR)
    else if bits == 0x16 then Some(XOR)
    else if bits == 0x17 then Some(NOR)
    else if bits == 0x19 then Some(CTC2)
    else if bits == 0x1D then Some(SETCC)
    else if bits == 0x1E then Some(MFLOU)
    else if bits == 0x1F then Some(MFLOI)
    else None
  }

  /** Every opcode code fits the six-bit opcode field. */
  lemma OpcodeCodeBound(op: Opcode)
    ensures OpcodeCode(op) < 64
  {
  }

  lemma OpcodeCodeRoundTrip(op: Opcode)
    ensures OpcodeCode(op) < 64
    ensures OpcodeFromBits(OpcodeCode(op)) == Some(op)
  {
  }

  /** The code-to-opcode table is the exact inverse of the opcode-to-code table. */
  lemma OpcodeFromBitsExact(bits: bv32)
    ensures OpcodeFromBits(bits).None? <==> forall o :: OpcodeCode(o) != bits
  {
    forall o | OpcodeFromBits(bits).None?
      ensures OpcodeCode(o) != bits
    {
      OpcodeCodeRoundTrip(o);
    }
  }

  lemma SubOpXaluCodeRoundTrip(s: SubOpXalu)
    ensures SubOpXaluCode(s) < 32
    ensures SubOpXaluFromBits(SubOpXaluCode(s)) == Some(s)
  {
  }

  /** The code-to-sub-operation table is the exact inverse of the sub-operation-to-code table. */
  lemma SubOpXaluFromBitsExact(bits: bv32)
    ensures SubOpXaluFromBits(bits).None? <==> forall o :: SubOpXaluCode(o) != bits
  {
    forall o | SubOpXaluFromBits(bits).None?
      ensures SubOpXaluCode(o) != bits
    {
      SubOpXaluCodeRoundTrip(o);
    }
  }

  // ---------------------------------------------------------------------------
  // Instruction constructors

  function New(opcode: Opcode): Instruction {
    Instruction(opcode, None, None, None, None, None, None, None)
  }

  function IType(opcode: Opcode, dst: Register, src: Register, imm: bv16): Instruction {
    New(opcode).(rs := Some(src), rt := Some(dst), imm := Some(imm))
  }

  function Xalur(subOp: SubOpXalu, dpCntl: DpCntl, dst: Register, src: Register, extra: Register): Instruction {
    New(XALUR).(rs := Some(src), rd := Some(dst), rt := Some(extra), funct := Some(Xalu(subOp, dpCntl)))
  }

  function Xaluir(subOp: SubOpXalu, dpCntl: DpCntl, dst: Register, src: Register, constant: Const): Instruction {
    New(XALUIR).(rs := Some(src), rd := Some(dst), constant := Some(constant), funct := Some(Xalu(subOp, dpCntl)))
  }

  function XlsType(opcode: Opcode, rs: Register, base: Register, offset: Offset): Instruction {
    New(opcode).(rs := Some(rs), rt := Some(base), offset := Some(offset))
  }

  function Xiow(size: Size, port: Register, value: Register): Instruction {
    XlsType(XIOW, value, port, Offset.Number(0)).(funct := Some(Xls(Xio(Norm), AddrSize.Bits32, size, Flat)))
  }

  function Xior(size: Size, port: Register, value: Register): Instruction {
    XlsType(XIOR, value, port, Offset.Number(0)).(funct := Some(Xls(Xio(Norm), AddrSize.Bits32, size, Flat)))
  }

  function Xj(base: Register): Instruction {
    New(XJ).(rt := Some(base))
  }

  // ---------------------------------------------------------------------------
  // Format classes

  predicate IsIType(op: Opcode) {
    op.ORIU? || op.ADDI? || op.ANDIU? || op.ANDIL? || op.ANDI? || op.ORI? || op.XORI? || op.XORIU?
  }

  predicate IsXaluType(op: Opcode) {
    op.XALU? || op.XALUR?
  }

  predicate IsXaluiType(op: Opcode) {
    op.XALUI? || op.XALUIR?
  }

  predicate IsXioType(op: Opcode) {
    op.XIOR? || op.XIOW?
  }

  /** The five classes that the encoder and the decoder implement. */
  predicate HasLayout(op: Opcode) {
    IsIType(op) || IsXaluType(op) || IsXaluiType(op) || op.XJ? || IsXioType(op)
  }

  // ---------------------------------------------------------------------------
  // Field encoders

  /** Never fails: the opcode sits in bits 31-26. */
  function EncodeOpcode(i: Instruction): bv32 {
    OpcodeCode(i.opcode) << 26
  }

  function EncodeRs(i: Instruction): Result<bv32, AisError> {
    match i.rs
    case None => Failure(MissingRs(i))
    case Some(r) => var b :- RegisterBits(r); Success(b << 21)
  }

  function EncodeRt(i: Instruction): Result<bv32, AisError> {
    match i.rt
    case None => Failure(MissingRt(i))
    case Some(r) => var b :- RegisterBits(r); Success(b << 16)
  }

  function EncodeRd(i: Instruction): Result<bv32, AisError> {
    match i.rd
    case None => Failure(MissingRd(i))
    case Some(r) => var b :- RegisterBits(r); Success(b << 11)
  }

  function EncodeImm(i: Instruction): Result<bv32, AisError> {
    match i.imm
    case None => Failure(MissingImmediate(i))
    case Some(x) => Success(x as bv32)
  }

  /** A present constant always contributes zero bits: its layout is not implemented. */
  function EncodeConst(i: Instruction): Result<bv32, AisError> {
    match i.constant
    case None => Failure(MissingConstant(i))
    case Some(_) => Success(0)
  }

  /** Only a zero offset has an encoding. */
  function EncodeOffset(i: Instruction): Result<bv32, AisError> {
    match i.offset
    case None => Failure(MissingOffset(i))
    case Some(o) => if o.value == 0 then Success(0) else Failure(Unsupported(i))
  }

  /** Never fails: the IO sub-operation sits at bit 9. */
  function EncodeSubOpXls(subOp: SubOpXls): bv32 {
    match subOp
    case Xio(x) => SubOpXioCode(x) << 9
  }

  function XlsBits(subOp: SubOpXls, addrSize: AddrSize, size: Size, sel: Sel): bv32 {
    EncodeSubOpXls(subOp)
    | ((AddrSizeCode(addrSize) & 2) << 7)
    | ((SizeCode(size) & 0x6) << 5)
    | (SelCode(sel) << 2)
    | ((SizeCode(size) & 1) << 1)
    | (AddrSizeCode(addrSize) & 1)
  }

  function EncodeFunction(i: Instruction): Result<bv32, AisError> {
    match i.funct
    case None => Failure(MissingFunction(i))
    case Some(Xalu(subOp, dpCntl)) => Success(SubOpXaluCode(subOp) | (DpCntlCode(dpCntl) << 5))
    case Some(Xls(subOp, addrSize, size, sel)) => Success(XlsBits(subOp, addrSize, size, sel))
  }

  // ---------------------------------------------------------------------------
  // Class encoders: the slots are evaluated in source order and the first error wins

  function EncodeITypeWord(i: Instruction): Result<bv32, AisError> {
    var rs :- EncodeRs(i);
    var rt :- EncodeRt(i);
    var imm :- EncodeImm(i);
    Success(EncodeOpcode(i) | rs | rt | imm)
  }

  function EncodeXaluWord(i: Instruction): Result<bv32, AisError> {
    var rs :- EncodeRs(i);
    var rt :- EncodeRt(i);
    var rd :- EncodeRd(i);
    var f :- EncodeFunction(i);
    Success(EncodeOpcode(i) | rs | rt | rd | f)
  }

  function EncodeXaluiWord(i: Instruction): Result<bv32, AisError> {
    var rs :- EncodeRs(i);
    var c :- EncodeConst(i);
    var rd :- EncodeRd(i);
    var f :- EncodeFunction(i);
    Success(EncodeOpcode(i) | rs | c | rd | f)
  }

  /** A jump carries the fixed trailer 0b01_0001_00. */
  function EncodeXjWord(i: Instruction): Result<bv32, AisError> {
    var rt :- EncodeRt(i);
    Success(EncodeOpcode(i) | rt | 0x44)
  }

  function EncodeXioWord(i: Instruction): Result<bv32, AisError> {
    var rs :- EncodeRs(i);
    var base :- EncodeRt(i);
    var offset :- EncodeOffset(i);
    var f :- EncodeFunction(i);
    Success(EncodeOpcode(i) | rs | base | offset | f)
  }

  /** The 32-bit instruction word: the class of the opcode picks the encoder. */
  function EncodeWord(i: Instruction): Result<bv32, AisError> {
    if IsIType(i.opcode) then EncodeITypeWord(i)
    else if IsXaluType(i.opcode) then EncodeXaluWord(i)
    else if IsXaluiType(i.opcode) then EncodeXaluiWord(i)
    else if i.opcode == XJ then EncodeXjWord(i)
    else if IsXioType(i.opcode) then EncodeXioWord(i)
    else Failure(Unsupported(i))
  }

  // ---------------------------------------------------------------------------
  // Little-endian words

  function LeBytes(w: bv32): seq<bv8> {
    [(w & 0xFF) as bv8, ((w >> 8) & 0xFF) as bv8, ((w >> 16) & 0xFF) as bv8, ((w >> 24) & 0xFF) as bv8]
  }

  function WordFromLe(b: seq<bv8>): bv32
    requires |b| == 4
  {
    (b[0] as bv32) | ((b[1] as bv32) << 8) | ((b[2] as bv32) << 16) | ((b[3] as bv32) << 24)
  }

  lemma LeRoundTrip(w: bv32, b: seq<bv8>)
    ensures |LeBytes(w)| == 4 && WordFromLe(LeBytes(w)) == w
    ensures |b| == 4 ==> LeBytes(WordFromLe(b)) == b
  {
  }

  // ---------------------------------------------------------------------------
  // Encoding

  /** A successful encoding is the header followed by the word in little-endian order. */
  function Encode(i: Instruction): (r: Result<seq<bv8>, AisError>)
    ensures r.Success? <==> EncodeWord(i).Success?
    ensures r.Success? ==>
      |r.value| == 6 && r.value[..2] == UnitHeader && WordFromLe(r.value[2..6]) == EncodeWord(i).value
    ensures r.Failure? ==> r.error == EncodeWord(i).error
  {
    var word :- EncodeWord(i);
    LeRoundTrip(word, []);
    Success(UnitHeader + LeBytes(word))
  }

  // ---------------------------------------------------------------------------
  // Decoding

  function DecodeOpcode(word: bv32): (r: Result<Opcode, AisError>)
    ensures r.Success? ==> OpcodeCode(r.value) == word >> 26
    ensures r.Failure? ==> r.error == UnknownOpcode(word >> 26) && OpcodeFromBits(word >> 26).None?
  {
    var opcodeBits := (word >> 26) & 0x3F;
    match OpcodeFromBits(opcodeBits)
    case None => Failure(UnknownOpcode(opcodeBits))
    case Some(op) => Success(op)
  }

  /** Sub-operation from bits 4-0, data-path control from bits 6-5 only. */
  function DecodeXaluFunction(word: bv32): (r: Result<Function, AisError>)
    ensures r.Success? <==> SubOpXaluFromBits(word & 0x1F).Some?
    ensures r.Success? ==>
      r.value.Xalu? && SubOpXaluCode(r.value.aluOp) == word & 0x1F && DpCntlCode(r.value.dpCntl) == (word >> 5) & 3
    ensures r.Failure? ==> r.error == DecodeIssue
  {
    var subOpBits := word & 0x1F;
    var dpCntlBits := (word >> 5) & 0x3;
    match (SubOpXaluFromBits(subOpBits), DpCntlFromBits(dpCntlBits))
    case (None, _) => Failure(DecodeIssue)
    case (_, None) => Failure(DecodeIssue)
    case (Some(subOp), Some(dpCntl)) => Success(Xalu(subOp, dpCntl))
  }

  function RsBits(word: bv32): bv8 { ((word >> 21) & 0x1F) as bv8 }
  function RtBits(word: bv32): bv8 { ((word >> 16) & 0x1F) as bv8 }
  function RdBits(word: bv32): bv8 { ((word >> 11) & 0x1F) as bv8 }
  function ImmBits(word: bv32): bv16 { (word & 0xFFFF) as bv16 }

  /** The word carried by a unit that starts with at least six bytes. */
  function UnitWord(bytes: seq<bv8>): bv32
    requires |bytes| >= 6
  {
    WordFromLe(bytes[2..6])
  }

  /** What an I-type word decodes to: rs, rt and the immediate. */
  function ITypeFields(op: Opcode, word: bv32): Instruction {
    New(op).(rs := Some(Index(RsBits(word))), rt := Some(Index(RtBits(word))), imm := Some(ImmBits(word)))
  }

  /** What an XALU or XALUR word decodes to: the function and rs, rt, rd. */
  function XaluFields(op: Opcode, word: bv32, f: Function): Instruction {
    New(op).(funct := Some(f), rs := Some(Index(RsBits(word))), rt := Some(Index(RtBits(word))),
             rd := Some(Index(RdBits(word))))
  }

  /** What an XALUI or XALUIR word decodes to: the function and rs, rd; no constant. */
  function XaluiFields(op: Opcode, word: bv32, f: Function): Instruction {
    New(op).(funct := Some(f), rs := Some(Index(RsBits(word))), rd := Some(Index(RdBits(word))))
  }

  /** What a jump word decodes to: rt only. */
  function XjFields(word: bv32): Instruction {
    New(XJ).(rt := Some(Index(RtBits(word))))
  }

  /** What an XIOR or XIOW word decodes to: rs, rt and a zero offset; no function. */
  function XioFields(op: Opcode, word: bv32): Instruction {
    New(op).(rs := Some(Index(RsBits(word))), rt := Some(Index(RtBits(word))), offset := Some(Offset.Number(0)))
  }

  /** The class dispatch of the decoder; only the ALU function can fail to decode. */
  function DecodeFields(op: Opcode, word: bv32): (r: Result<Instruction, AisError>)
    requires HasLayout(op)
    ensures r.Success? ==> r.value.opcode == op
    ensures r.Failure? ==> r.error == DecodeIssue && (IsXaluType(op) || IsXaluiType(op))
  {
    if IsIType(op) then Success(ITypeFields(op, word))
    else if IsXaluType(op) then
      var f :- DecodeXaluFunction(word);
      Success(XaluFields(op, word, f))
    else if IsXaluiType(op) then
      var f :- DecodeXaluFunction(word);
      Success(XaluiFields(op, word, f))
    else if op == XJ then Success(XjFields(word))
    else Success(XioFields(op, word))
  }

  /** Decodes one unit from the front of `bytes`; the reported length is always 6. */
  function Decode(bytes: seq<bv8>): (r: Result<(Instruction, nat), AisError>)
    ensures r.Success? ==> |bytes| >= 6 && bytes[..2] == UnitHeader && r.value.1 == 6
    ensures r.Success? ==> OpcodeCode(r.value.0.opcode) == UnitWord(bytes) >> 26
    ensures |bytes| < 6 || bytes[..2] != UnitHeader ==> r == Failure(DecodeError(bytes))
  {
    if |bytes| < 6 then
      Failure(DecodeError(bytes))
    else if bytes[0..2] != UnitHeader then
      Failure(DecodeError(bytes))
    else
      var word := WordFromLe(bytes[2..6]);
      var opcode :- DecodeOpcode(word);
      if !HasLayout(opcode) then
        Failure(DecodeError(bytes))
      else
        var instr :- DecodeFields(opcode, word);
        Success((instr, 6))
  }

  // ---------------------------------------------------------------------------
  // Word layout: every field has its own bit range, so the OR is field-wise

  /** The register an encodable register decodes back as: its number as an index. */
  function AsIndex(r: Register): (x: Register)
    requires ValidRegister(r)
    ensures x.Index? && RegisterBits(x) == RegisterBits(r)
  {
    Index(RegisterBits(r).value as bv8)
  }

  /** The register fields of a word are five bits wide. */
  lemma FieldBitsBound(w: bv32)
    ensures RsBits(w) < 32 && RtBits(w) < 32 && RdBits(w) < 32
  {
  }

  /** A register field read back from a word is the index of the register that was encoded there. */
  lemma FieldAsIndex(r: Register, field: bv8)
    requires ValidRegister(r) && field as bv32 == RegisterBits(r).value
    ensures Index(field) == AsIndex(r)
  {
  }

  /** The decoded I-type instruction in terms of the registers its fields name. */
  lemma ITypeFieldsOf(op: Opcode, w: bv32, a: Register, b: Register)
    requires Index(RsBits(w)) == a && Index(RtBits(w)) == b
    ensures ITypeFields(op, w) == New(op).(rs := Some(a), rt := Some(b), imm := Some(ImmBits(w)))
  {
  }

  /** The decoded XALU instruction in terms of the registers its fields name. */
  lemma XaluFieldsOf(op: Opcode, w: bv32, f: Function, a: Register, b: Register, c: Register)
    requires Index(RsBits(w)) == a && Index(RtBits(w)) == b && Index(RdBits(w)) == c
    ensures XaluFields(op, w, f) == New(op).(rs := Some(a), rt := Some(b), rd := Some(c), funct := Some(f))
  {
  }

  /** The decoded IO instruction in terms of the registers its fields name. */
  lemma XioFieldsOf(op: Opcode, w: bv32, a: Register, b: Register)
    requires Index(RsBits(w)) == a && Index(RtBits(w)) == b
    ensures XioFields(op, w) == New(op).(rs := Some(a), rt := Some(b), offset := Some(Offset.Number(0)))
  {
  }

  /** ALU function bits: sub-operation in bits 4-0, data-path control in bits 7-5. */
  lemma XaluFunctionLayout(subOp: SubOpXalu, dpCntl: DpCntl)
    ensures var f := SubOpXaluCode(subOp) | (DpCntlCode(dpCntl) << 5);
      f < 0x100 && f & 0x1F == SubOpXaluCode(subOp) && f >> 5 == DpCntlCode(dpCntl)
  {
    SubOpXaluCodeRoundTrip(subOp);
  }

  /** IO function bits lie within bits 9-0. */
  lemma XlsFunctionLayout(subOp: SubOpXls, addrSize: AddrSize, size: Size, sel: Sel)
    ensures XlsBits(subOp, addrSize, size, sel) < 0x400
    ensures XlsBits(subOp, addrSize, size, sel) & 0x1 == 1
    ensures XlsBits(subOp, addrSize, size, sel) & 0x28 == 0x28
    ensures XlsBits(subOp, addrSize, size, sel) & 0x100 == 0x100
    ensures (XlsBits(subOp, addrSize, size, sel) & 0x40 != 0) <==> size == Size.Bits32
    ensures (XlsBits(subOp, addrSize, size, sel) & 0x2 != 0) <==> size == Size.Bits8
  {
  }

  /** Fields ORed into disjoint bit ranges: the opcode, three register numbers and the low eleven bits. */
  predicate Packed(w: bv32, op: bv32, a: bv32, b: bv32, c: bv32, low: bv32) {
    op < 64 && a < 32 && b < 32 && c < 32 && low < 0x800 &&
    w == (op << 26) | (a << 21) | (b << 16) | (c << 11) | low
  }

  /** An ALU word: the function bits are the sub-operation in bits 4-0 and the control in bits 7-5. */
  predicate XaluPacked(w: bv32, op: bv32, a: bv32, b: bv32, c: bv32, s: bv32, d: bv32) {
    s < 32 && d < 8 && Packed(w, op, a, b, c, s | (d << 5))
  }

  // Each read-back fact has a lemma of its own: the solver handles one bit-vector goal at a time cheaply.

  lemma PackedOp(w: bv32, op: bv32, a: bv32, b: bv32, c: bv32, low: bv32)
    requires Packed(w, op, a, b, c, low)
    ensures w >> 26 == op
  {
  }

  lemma PackedRs(w: bv32, op: bv32, a: bv32, b: bv32, c: bv32, low: bv32)
    requires Packed(w, op, a, b, c, low)
    ensures RsBits(w) == a as bv8
  {
  }

  lemma PackedRt(w: bv32, op: bv32, a: bv32, b: bv32, c: bv32, low: bv32)
    requires Packed(w, op, a, b, c, low)
    ensures RtBits(w) == b as bv8
  {
  }

  lemma PackedRd(w: bv32, op: bv32, a: bv32, b: bv32, c: bv32, low: bv32)
    requires Packed(w, op, a, b, c, low)
    ensures RdBits(w) == c as bv8
  {
  }

  lemma PackedLow(w: bv32, op: bv32, a: bv32, b: bv32, c: bv32, low: bv32)
    requires Packed(w, op, a, b, c, low)
    ensures w & 0x7FF == low
  {
  }

  /** Packed fields read back unchanged. */
  lemma FieldsReadBack(w: bv32, op: bv32, a: bv32, b: bv32, c: bv32, low: bv32)
    requires Packed(w, op, a, b, c, low)
    ensures w >> 26 == op
    ensures RsBits(w) == a as bv8 && RtBits(w) == b as bv8 && RdBits(w) == c as bv8
    ensures w & 0x7FF == low
  {
    PackedOp(w, op, a, b, c, low);
    PackedRs(w, op, a, b, c, low);
    PackedRt(w, op, a, b, c, low);
    PackedRd(w, op, a, b, c, low);
    PackedLow(w, op, a, b, c, low);
  }

  lemma FunctionSubOp(w: bv32, s: bv32, d: bv32)
    requires s < 32 && d < 8 && w & 0x7FF == s | (d << 5)
    ensures w & 0x1F == s
  {
  }

  lemma FunctionControl(w: bv32, s: bv32, d: bv32)
    requires s < 32 && d < 8 && w & 0x7FF == s | (d << 5)
    ensures (w >> 5) & 7 == d
  {
  }

  lemma FunctionHighClear(w: bv32, s: bv32, d: bv32)
    requires s < 32 && d < 8 && w & 0x7FF == s | (d << 5)
    ensures w & 0x700 == 0
  {
  }

  /** Packed ALU fields read back unchanged, and bits 10-8 are clear. */
  lemma XaluFieldsReadBack(w: bv32, op: bv32, a: bv32, b: bv32, c: bv32, s: bv32, d: bv32)
    requires XaluPacked(w, op, a, b, c, s, d)
    ensures w >> 26 == op
    ensures RsBits(w) == a as bv8 && RtBits(w) == b as bv8 && RdBits(w) == c as bv8
    ensures w & 0x1F == s && (w >> 5) & 7 == d && w & 0x700 == 0
  {
    FieldsReadBack(w, op, a, b, c, s | (d << 5));
    FunctionSubOp(w, s, d);
    FunctionControl(w, s, d);
    FunctionHighClear(w, s, d);
  }

  /** I-type fields ORed into disjoint bit ranges: the opcode, two register numbers and the immediate. */
  predicate ITypePacked(w: bv32, op: bv32, a: bv32, b: bv32, imm: bv16) {
    op < 64 && a < 32 && b < 32 && w == (op << 26) | (a << 21) | (b << 16) | (imm as bv32)
  }

  lemma ITypePackedOp(w: bv32, op: bv32, a: bv32, b: bv32, imm: bv16)
    requires ITypePacked(w, op, a, b, imm)
    ensures w >> 26 == op
  {
  }

  lemma ITypePackedRs(w: bv32, op: bv32, a: bv32, b: bv32, imm: bv16)
    requires ITypePacked(w, op, a, b, imm)
    ensures RsBits(w) == a as bv8
  {
  }

  lemma ITypePackedRt(w: bv32, op: bv32, a: bv32, b: bv32, imm: bv16)
    requires ITypePacked(w, op, a, b, imm)
    ensures RtBits(w) == b as bv8
  {
  }

  lemma ITypePackedImm(w: bv32, op: bv32, a: bv32, b: bv32, imm: bv16)
    requires ITypePacked(w, op, a, b, imm)
    ensures ImmBits(w) == imm
  {
  }

  /** Packed I-type fields read back unchanged; the immediate fills the low sixteen bits. */
  lemma ITypeReadBack(w: bv32, op: bv32, a: bv32, b: bv32, imm: bv16)
    requires ITypePacked(w, op, a, b, imm)
    ensures w >> 26 == op
    ensures RsBits(w) == a as bv8 && RtBits(w) == b as bv8 && ImmBits(w) == imm
  {
    ITypePackedOp(w, op, a, b, imm);
    ITypePackedRs(w, op, a, b, imm);
    ITypePackedRt(w, op, a, b, imm);
    ITypePackedImm(w, op, a, b, imm);
  }

  /** Function bits of either kind fit below bit 11. */
  lemma FunctionBitsBelow(i: Instruction, fn: bv32)
    requires EncodeFunction(i) == Success(fn)
    ensures fn < 0x800
    ensures i.funct.value.Xls? ==> fn < 0x400
  {
    match i.funct.value
    case Xalu(s, d) => XaluFunctionLayout(s, d);
    case Xls(s, a, z, l) => XlsFunctionLayout(s, a, z, l);
  }

  /** An I-type word packs the opcode, the two register numbers and the immediate. */
  lemma ITypeWord(i: Instruction, w: bv32, code: bv32)
    requires IsIType(i.opcode) && EncodeWord(i) == Success(w) && code == OpcodeCode(i.opcode)
    ensures i.rs.Some? && ValidRegister(i.rs.value) && i.rt.Some? && ValidRegister(i.rt.value) && i.imm.Some?
    ensures ITypePacked(w, code, RegisterBits(i.rs.value).value, RegisterBits(i.rt.value).value, i.imm.value)
  {
    OpcodeCodeBound(i.opcode);
  }

  /** The I-type encoder succeeds exactly when both registers are valid and the immediate is present. */
  lemma ITypeEncodable(i: Instruction)
    requires IsIType(i.opcode)
    ensures EncodeWord(i).Success? <==>
      i.rs.Some? && ValidRegister(i.rs.value) && i.rt.Some? && ValidRegister(i.rt.value) && i.imm.Some?
  {
  }

  /** An XALU or XALUR word with an ALU function packs opcode, rs, rt, rd, sub-operation and control. */
  lemma XaluWord(i: Instruction, w: bv32, code: bv32)
    requires IsXaluType(i.opcode) && EncodeWord(i) == Success(w) && code == OpcodeCode(i.opcode)
    requires i.funct.Some? && i.funct.value.Xalu?
    ensures i.rs.Some? && ValidRegister(i.rs.value) && i.rt.Some? && ValidRegister(i.rt.value)
    ensures i.rd.Some? && ValidRegister(i.rd.value)
    ensures XaluPacked(w, code, RegisterBits(i.rs.value).value, RegisterBits(i.rt.value).value,
                       RegisterBits(i.rd.value).value, SubOpXaluCode(i.funct.value.aluOp),
                       DpCntlCode(i.funct.value.dpCntl))
  {
    OpcodeCodeBound(i.opcode);
    SubOpXaluCodeRoundTrip(i.funct.value.aluOp);
    DpCntlCodeBound(i.funct.value.dpCntl);
  }

  /** An XALUI or XALUIR word with an ALU function: the constant contributes no bits, so rt stays clear. */
  lemma XaluiWord(i: Instruction, w: bv32, code: bv32)
    requires IsXaluiType(i.opcode) && EncodeWord(i) == Success(w) && code == OpcodeCode(i.opcode)
    requires i.funct.Some? && i.funct.value.Xalu?
    ensures i.rs.Some? && ValidRegister(i.rs.value) && i.constant.Some?
    ensures i.rd.Some? && ValidRegister(i.rd.value)
    ensures XaluPacked(w, code, RegisterBits(i.rs.value).value, 0, RegisterBits(i.rd.value).value,
                       SubOpXaluCode(i.funct.value.aluOp), DpCntlCode(i.funct.value.dpCntl))
  {
    OpcodeCodeBound(i.opcode);
    SubOpXaluCodeRoundTrip(i.funct.value.aluOp);
    DpCntlCodeBound(i.funct.value.dpCntl);
  }

  /** A jump carries only rt and the fixed trailer 0x44. */
  lemma XjLayout(i: Instruction)
    requires i.opcode == XJ
    ensures EncodeWord(i).Success? <==> i.rt.Some? && ValidRegister(i.rt.value)
    ensures EncodeWord(i).Success? ==>
      EncodeWord(i).value == (OpcodeCode(XJ) << 26) | (RegisterBits(i.rt.value).value << 16) | 0x44
  {
  }

  /** An XIOR or XIOW word: a zero offset, so bits 15-10 carry nothing but the function. */
  lemma XioWord(i: Instruction, w: bv32, code: bv32, fn: bv32)
    requires IsXioType(i.opcode) && EncodeWord(i) == Success(w)
    requires code == OpcodeCode(i.opcode) && EncodeFunction(i) == Success(fn)
    ensures i.rs.Some? && ValidRegister(i.rs.value) && i.rt.Some? && ValidRegister(i.rt.value)
    ensures i.offset == Some(Offset.Number(0))
    ensures Packed(w, code, RegisterBits(i.rs.value).value, RegisterBits(i.rt.value).value, 0, fn)
  {
    OpcodeCodeBound(i.opcode);
    FunctionBitsBelow(i, fn);
  }

  // ---------------------------------------------------------------------------
  // Encoding errors: a reference definition by ordered slot lists

  datatype Slot = RsSlot | RtSlot | RdSlot | ImmSlot | ConstSlot | OffsetSlot | FunctionSlot

  /** The slots each format class needs, in the order the encoder evaluates them. */
  function RequiredSlots(op: Opcode): (r: Option<seq<Slot>>)
    ensures r.Some? <==> HasLayout(op)
  {
    if IsIType(op) then Some([RsSlot, RtSlot, ImmSlot])
    else if IsXaluType(op) then Some([RsSlot, RtSlot, RdSlot, FunctionSlot])
    else if IsXaluiType(op) then Some([RsSlot, ConstSlot, RdSlot, FunctionSlot])
    else if op == XJ then Some([RtSlot])
    else if IsXioType(op) then Some([RsSlot, RtSlot, OffsetSlot, FunctionSlot])
    else None
  }

  function Trailer(op: Opcode): bv32 {
    if op == XJ then 0x44 else 0
  }

  function SlotBits(i: Instruction, s: Slot): Result<bv32, AisError> {
    match s
    case RsSlot => EncodeRs(i)
    case RtSlot => EncodeRt(i)
    case RdSlot => EncodeRd(i)
    case ImmSlot => EncodeImm(i)
    case ConstSlot => EncodeConst(i)
    case OffsetSlot => EncodeOffset(i)
    case FunctionSlot => EncodeFunction(i)
  }

  /** The bits each slot of `slots` contributes, or its error. */
  function SlotResults(i: Instruction, slots: seq<Slot>): (r: seq<Result<bv32, AisError>>)
    ensures |r| == |slots| && forall k :: 0 <= k < |slots| ==> r[k] == SlotBits(i, slots[k])
  {
    if slots == [] then [] else [SlotBits(i, slots[0])] + SlotResults(i, slots[1..])
  }

  /** Takes the results left to right, stopping at the first error, and ORs their bits. */
  function Combine(results: seq<Result<bv32, AisError>>): Result<bv32, AisError> {
    if results == [] then Success(0)
    else if results[0].Failure? then results[0]
    else
      var rest := Combine(results[1..]);
      if rest.Failure? then rest else Success(results[0].value | rest.value)
  }

  /** One more result in front: its error wins, else its bits are ORed onto the rest. */
  lemma CombineCons(r: Result<bv32, AisError>, rest: seq<Result<bv32, AisError>>)
    ensures Combine([r] + rest) ==
      if r.Failure? then r else if Combine(rest).Failure? then Combine(rest) else Success(r.value | Combine(rest).value)
  {
    assert ([r] + rest)[1..] == rest;
  }

  lemma CombineOne(x: Result<bv32, AisError>)
    ensures Combine([x]) == if x.Failure? then x else Success(x.value)
  {
    assert [x] == [x] + [];
    CombineCons(x, []);
  }

  lemma CombineThree(x: Result<bv32, AisError>, y: Result<bv32, AisError>, z: Result<bv32, AisError>)
    ensures Combine([x, y, z]) ==
      if x.Failure? then x else if y.Failure? then y else if z.Failure? then z
      else Success(x.value | y.value | z.value)
  {
    assert [x, y, z] == [x] + [y, z];
    assert [y, z] == [y] + [z];
    CombineCons(x, [y, z]);
    CombineCons(y, [z]);
    CombineOne(z);
    if x.Success? && y.Success? && z.Success? {
      OrRegroupThree(x.value, y.value, z.value);
    }
  }

  lemma CombineFour(w: Result<bv32, AisError>, x: Result<bv32, AisError>, y: Result<bv32, AisError>, z: Result<bv32, AisError>)
    ensures Combine([w, x, y, z]) ==
      if w.Failure? then w else if x.Failure? then x else if y.Failure? then y else if z.Failure? then z
      else Success(w.value | x.value | y.value | z.value)
  {
    assert [w, x, y, z] == [w] + [x, y, z];
    CombineCons(w, [x, y, z]);
    CombineThree(x, y, z);
    if w.Success? && x.Success? && y.Success? && z.Success? {
      OrRegroup(w.value, x.value, y.value, z.value);
    }
  }

  lemma OrRegroupThree(a: bv32, b: bv32, c: bv32)
    ensures a | (b | c) == a | b | c
  {
  }

  lemma OrRegroup(a: bv32, b: bv32, c: bv32, d: bv32)
    ensures a | (b | c | d) == a | b | c | d
  {
  }

  /** The word a class encoder yields from its combined slots. */
  function Assemble(i: Instruction, c: Result<bv32, AisError>): Result<bv32, AisError> {
    if c.Failure? then c else Success(EncodeOpcode(i) | c.value | Trailer(i.opcode))
  }

  lemma ITypeBySlots(i: Instruction)
    requires IsIType(i.opcode)
    ensures EncodeWord(i) == Assemble(i, Combine([EncodeRs(i), EncodeRt(i), EncodeImm(i)]))
  {
    CombineThree(EncodeRs(i), EncodeRt(i), EncodeImm(i));
  }

  lemma XaluBySlots(i: Instruction)
    requires IsXaluType(i.opcode)
    ensures EncodeWord(i) == Assemble(i, Combine([EncodeRs(i), EncodeRt(i), EncodeRd(i), EncodeFunction(i)]))
  {
    CombineFour(EncodeRs(i), EncodeRt(i), EncodeRd(i), EncodeFunction(i));
  }

  lemma XaluiBySlots(i: Instruction)
    requires IsXaluiType(i.opcode)
    ensures EncodeWord(i) == Assemble(i, Combine([EncodeRs(i), EncodeConst(i), EncodeRd(i), EncodeFunction(i)]))
  {
    CombineFour(EncodeRs(i), EncodeConst(i), EncodeRd(i), EncodeFunction(i));
  }

  lemma XjBySlots(i: Instruction)
    requires i.opcode == XJ
    ensures EncodeWord(i) == Assemble(i, Combine([EncodeRt(i)]))
  {
    CombineOne(EncodeRt(i));
  }

  lemma XioBySlots(i: Instruction)
    requires IsXioType(i.opcode)
    ensures EncodeWord(i) == Assemble(i, Combine([EncodeRs(i), EncodeRt(i), EncodeOffset(i), EncodeFunction(i)]))
  {
    CombineFour(EncodeRs(i), EncodeRt(i), EncodeOffset(i), EncodeFunction(i));
  }

  /** The class-by-class encoder agrees with the slot-list reference definition. */
  lemma EncodeWordBySlots(i: Instruction)
    ensures RequiredSlots(i.opcode).None? ==> EncodeWord(i) == Failure(Unsupported(i))
    ensures RequiredSlots(i.opcode).Some? ==>
      EncodeWord(i) == Assemble(i, Combine(SlotResults(i, RequiredSlots(i.opcode).value)))
  {
    var op := i.opcode;
    if IsIType(op) {
      assert SlotResults(i, [RsSlot, RtSlot, ImmSlot]) == [EncodeRs(i), EncodeRt(i), EncodeImm(i)];
      ITypeBySlots(i);
    } else if IsXaluType(op) {
      assert SlotResults(i, [RsSlot, RtSlot, RdSlot, FunctionSlot])
          == [EncodeRs(i), EncodeRt(i), EncodeRd(i), EncodeFunction(i)];
      XaluBySlots(i);
    } else if IsXaluiType(op) {
      assert SlotResults(i, [RsSlot, ConstSlot, RdSlot, FunctionSlot])
          == [EncodeRs(i), EncodeConst(i), EncodeRd(i), EncodeFunction(i)];
      XaluiBySlots(i);
    } else if op == XJ {
      assert SlotResults(i, [RtSlot]) == [EncodeRt(i)];
      XjBySlots(i);
    } else if IsXioType(op) {
      assert SlotResults(i, [RsSlot, RtSlot, OffsetSlot, FunctionSlot])
          == [EncodeRs(i), EncodeRt(i), EncodeOffset(i), EncodeFunction(i)];
      XioBySlots(i);
    }
  }

  lemma {:induction false} CombineFirstFailure(results: seq<Result<bv32, AisError>>, k: nat)
    requires k < |results|
    requires forall j :: 0 <= j < k ==> results[j].Success?
    requires results[k].Failure?
    ensures Combine(results) == results[k]
    decreases k
  {
    if k > 0 {
      assert forall j :: 0 <= j < k - 1 ==> results[1..][j] == results[j + 1];
      CombineFirstFailure(results[1..], k - 1);
    }
  }

  /** The first failing slot in evaluation order decides the error. */
  lemma FirstFailingSlot(i: Instruction, k: nat)
    requires RequiredSlots(i.opcode).Some? && k < |RequiredSlots(i.opcode).value|
    requires forall j :: 0 <= j < k ==> SlotBits(i, RequiredSlots(i.opcode).value[j]).Success?
    requires SlotBits(i, RequiredSlots(i.opcode).value[k]).Failure?
    ensures EncodeWord(i) == Failure(SlotBits(i, RequiredSlots(i.opcode).value[k]).error)
  {
    EncodeWordBySlots(i);
    CombineFirstFailure(SlotResults(i, RequiredSlots(i.opcode).value), k);
  }

  /** An empty slot reports its own Missing error; a bad register reports the register error. */
  lemma SlotErrors(i: Instruction)
    ensures i.rs.None? ==> SlotBits(i, RsSlot) == Failure(MissingRs(i))
    ensures i.rt.None? ==> SlotBits(i, RtSlot) == Failure(MissingRt(i))
    ensures i.rd.None? ==> SlotBits(i, RdSlot) == Failure(MissingRd(i))
    ensures i.imm.None? ==> SlotBits(i, ImmSlot) == Failure(MissingImmediate(i))
    ensures i.constant.None? ==> SlotBits(i, ConstSlot) == Failure(MissingConstant(i))
    ensures i.offset.None? ==> SlotBits(i, OffsetSlot) == Failure(MissingOffset(i))
    ensures i.funct.None? ==> SlotBits(i, FunctionSlot) == Failure(MissingFunction(i))
    ensures i.rs.Some? && !ValidRegister(i.rs.value) ==> SlotBits(i, RsSlot) == Failure(RegisterBits(i.rs.value).error)
    ensures i.rt.Some? && !ValidRegister(i.rt.value) ==> SlotBits(i, RtSlot) == Failure(RegisterBits(i.rt.value).error)
    ensures i.rd.Some? && !ValidRegister(i.rd.value) ==> SlotBits(i, RdSlot) == Failure(RegisterBits(i.rd.value).error)
    ensures i.offset.Some? && i.offset.value.value != 0 ==> SlotBits(i, OffsetSlot) == Failure(Unsupported(i))
  {
  }

  /** Opcodes outside the five implemented classes (XMISC, XL, XS, XPUSH, ...) have no encoding. */
  lemma UnsupportedOpcodes(i: Instruction)
    requires !HasLayout(i.opcode)
    ensures Encode(i) == Failure(Unsupported(i))
  {
  }

  /** A fully populated IO instruction with a non-zero offset is unsupported. */
  lemma NonZeroOffsetUnsupported(i: Instruction)
    requires IsXioType(i.opcode)
    requires i.rs.Some? && ValidRegister(i.rs.value) && i.rt.Some? && ValidRegister(i.rt.value)
    requires i.offset.Some? && i.offset.value.value != 0
    ensures Encode(i) == Failure(Unsupported(i))
  {
    FirstFailingSlot(i, 2);
  }

  // ---------------------------------------------------------------------------
  // Decoding outcomes

  /** An opcode field holding a known code decodes to that opcode. */
  lemma DecodeOpcodeOf(w: bv32, op: Opcode)
    requires OpcodeCode(op) == w >> 26
    ensures DecodeOpcode(w) == Success(op)
  {
    OpcodeCodeRoundTrip(op);
    assert (w >> 26) & 0x3F == w >> 26;
  }

  /** A headered unit with a known opcode: the class dispatch decides the rest. */
  lemma DecodeHeadered(bytes: seq<bv8>, w: bv32, op: Opcode)
    requires |bytes| >= 6 && bytes[..2] == UnitHeader && w == UnitWord(bytes) && OpcodeCode(op) == w >> 26
    ensures !HasLayout(op) ==> Decode(bytes) == Failure(DecodeError(bytes))
    ensures HasLayout(op) && DecodeFields(op, w).Failure? ==> Decode(bytes) == Failure(DecodeIssue)
    ensures HasLayout(op) && DecodeFields(op, w).Success? ==> Decode(bytes) == Success((DecodeFields(op, w).value, 6))
  {
    DecodeOpcodeOf(w, op);
    assert bytes[0..2] == bytes[..2];
  }

  lemma DecodeITypeUnit(bytes: seq<bv8>, w: bv32, op: Opcode)
    requires |bytes| >= 6 && bytes[..2] == UnitHeader && w == UnitWord(bytes) && OpcodeCode(op) == w >> 26
    requires IsIType(op)
    ensures Decode(bytes) == Success((ITypeFields(op, w), 6))
  {
    DecodeHeadered(bytes, w, op);
  }

  lemma DecodeXaluUnit(bytes: seq<bv8>, w: bv32, op: Opcode)
    requires |bytes| >= 6 && bytes[..2] == UnitHeader && w == UnitWord(bytes) && OpcodeCode(op) == w >> 26
    requires IsXaluType(op)
    ensures DecodeXaluFunction(w).Failure? ==> Decode(bytes) == Failure(DecodeIssue)
    ensures DecodeXaluFunction(w).Success? ==> Decode(bytes) == Success((XaluFields(op, w, DecodeXaluFunction(w).value), 6))
  {
    DecodeHeadered(bytes, w, op);
  }

  lemma DecodeXaluiUnit(bytes: seq<bv8>, w: bv32, op: Opcode)
    requires |bytes| >= 6 && bytes[..2] == UnitHeader && w == UnitWord(bytes) && OpcodeCode(op) == w >> 26
    requires IsXaluiType(op)
    ensures DecodeXaluFunction(w).Failure? ==> Decode(bytes) == Failure(DecodeIssue)
    ensures DecodeXaluFunction(w).Success? ==> Decode(bytes) == Success((XaluiFields(op, w, DecodeXaluFunction(w).value), 6))
  {
    DecodeHeadered(bytes, w, op);
  }

  lemma DecodeXjUnit(bytes: seq<bv8>, w: bv32)
    requires |bytes| >= 6 && bytes[..2] == UnitHeader && w == UnitWord(bytes) && OpcodeCode(XJ) == w >> 26
    ensures Decode(bytes) == Success((XjFields(w), 6))
  {
    DecodeHeadered(bytes, w, XJ);
  }

  lemma DecodeXioUnit(bytes: seq<bv8>, w: bv32, op: Opcode)
    requires |bytes| >= 6 && bytes[..2] == UnitHeader && w == UnitWord(bytes) && OpcodeCode(op) == w >> 26
    requires IsXioType(op)
    ensures Decode(bytes) == Success((XioFields(op, w), 6))
  {
    DecodeHeadered(bytes, w, op);
  }

  lemma DecodeUnknownOpcode(bytes: seq<bv8>)
    requires |bytes| >= 6 && bytes[..2] == UnitHeader
    requires OpcodeFromBits(UnitWord(bytes) >> 26).None?
    ensures Decode(bytes) == Failure(UnknownOpcode(UnitWord(bytes) >> 26))
  {
    assert (UnitWord(bytes) >> 26) & 0x3F == UnitWord(bytes) >> 26;
    assert bytes[0..2] == bytes[..2];
  }

  /** A known opcode with no decoding path (XL, XS, XMISC, ...) is a decode error. */
  lemma DecodeNoClass(bytes: seq<bv8>)
    requires |bytes| >= 6 && bytes[..2] == UnitHeader
    requires OpcodeFromBits(UnitWord(bytes) >> 26).Some?
    requires !HasLayout(OpcodeFromBits(UnitWord(bytes) >> 26).value)
    ensures Decode(bytes) == Failure(DecodeError(bytes))
  {
    DecodeHeadered(bytes, UnitWord(bytes), OpcodeFromBits(UnitWord(bytes) >> 26).value);
  }

  /** A successful decode depends on the first six bytes only. */
  lemma DecodeReadsSixBytes(bytes: seq<bv8>, tail: seq<bv8>)
    requires Decode(bytes).Success?
    ensures Decode(bytes[..6] + tail) == Decode(bytes)
  {
    var b := bytes[..6] + tail;
    assert b[..2] == bytes[..2];
    assert b[2..6] == bytes[2..6];
  }

  /** Decode reports an unknown sub-operation as DecodeIssue and never as UnknownSubOp. */
  lemma DecodeNeverUnknownSubOp(bytes: seq<bv8>)
    ensures Decode(bytes).Failure? ==> !Decode(bytes).error.UnknownSubOp?
  {
  }

  /** Sub-operation codes 0o01, 0o13 and 0o30 are not in the table. */
  lemma UnassignedSubOps(word: bv32)
    requires var s := word & 0x1F; s == 0x01 || s == 0x0B || s == 0x18
    ensures DecodeXaluFunction(word) == Failure(DecodeIssue)
  {
  }

  /** Data-path control is read from two bits: LH comes back as Word and HH as Short. */
  lemma DpCntlReadsTwoBits(subOp: SubOpXalu)
    ensures DecodeXaluFunction(SubOpXaluCode(subOp) | (DpCntlCode(LH) << 5)) == Success(Xalu(subOp, Word))
    ensures DecodeXaluFunction(SubOpXaluCode(subOp) | (DpCntlCode(HH) << 5)) == Success(Xalu(subOp, Short))
  {
    SubOpXaluCodeRoundTrip(subOp);
  }

  // ---------------------------------------------------------------------------
  // Round trips

  lemma UnitOf(w: bv32, bytes: seq<bv8>)
    requires bytes == UnitHeader + LeBytes(w)
    ensures |bytes| == 6 && bytes[..2] == UnitHeader && bytes[0..2] == UnitHeader && UnitWord(bytes) == w
  {
    LeRoundTrip(w, []);
    assert bytes[2..6] == LeBytes(w);
  }

  /** A six-byte unit is its header followed by the little-endian bytes of its word. */
  lemma UnitSplit(bytes: seq<bv8>)
    requires |bytes| == 6 && bytes[..2] == UnitHeader
    ensures bytes == UnitHeader + LeBytes(UnitWord(bytes))
  {
    LeRoundTrip(0, bytes[2..6]);
    assert bytes == bytes[..2] + bytes[2..6];
  }

  /** A word is the OR of its opcode, rs, rt and low sixteen bits. */
  lemma ITypeWordSplit(w: bv32)
    ensures ((w >> 26) << 26) | ((RsBits(w) as bv32) << 21) | ((RtBits(w) as bv32) << 16) | (ImmBits(w) as bv32) == w
  {
  }

  /** An I-type word re-encodes exactly from the instruction it decodes to. */
  lemma ITypeFieldsEncode(op: Opcode, w: bv32)
    requires IsIType(op) && OpcodeCode(op) == w >> 26
    ensures EncodeWord(ITypeFields(op, w)) == Success(w)
  {
    ITypeWordSplit(w);
  }

  /** A unit holding packed I-type fields decodes to them, with the registers as indices. */
  lemma ITypePackedDecode(bytes: seq<bv8>, w: bv32, op: Opcode, a: bv32, b: bv32, imm: bv16)
    requires IsIType(op) && bytes == UnitHeader + LeBytes(w)
    requires ITypePacked(w, OpcodeCode(op), a, b, imm)
    ensures Decode(bytes) ==
      Success((New(op).(rs := Some(Index(a as bv8)), rt := Some(Index(b as bv8)), imm := Some(imm)), 6))
  {
    ITypeReadBack(w, OpcodeCode(op), a, b, imm);
    UnitOf(w, bytes);
    DecodeITypeUnit(bytes, w, op);
  }

  /** I-type: decoding an encoding keeps opcode and imm; registers come back as indices. */
  lemma ITypeDecodeEncode(i: Instruction)
    requires IsIType(i.opcode) && Encode(i).Success?
    ensures ValidRegister(i.rs.value) && ValidRegister(i.rt.value) && i.imm.Some?
    ensures Decode(Encode(i).value) ==
      Success((New(i.opcode).(rs := Some(AsIndex(i.rs.value)), rt := Some(AsIndex(i.rt.value)), imm := i.imm), 6))
  {
    var w := EncodeWord(i).value;
    ITypeWord(i, w, OpcodeCode(i.opcode));
    ITypePackedDecode(Encode(i).value, w, i.opcode, RegisterBits(i.rs.value).value,
                      RegisterBits(i.rt.value).value, i.imm.value);
  }

  /** I-type: every unit with the header and an I-type opcode re-encodes to itself. */
  lemma ITypeEncodeDecode(bytes: seq<bv8>)
    requires |bytes| == 6 && bytes[..2] == UnitHeader
    requires OpcodeFromBits(UnitWord(bytes) >> 26).Some? && IsIType(OpcodeFromBits(UnitWord(bytes) >> 26).value)
    ensures Decode(bytes).Success? && Encode(Decode(bytes).value.0) == Success(bytes)
  {
    var w := UnitWord(bytes);
    var op := OpcodeFromBits(w >> 26).value;
    DecodeITypeUnit(bytes, w, op);
    ITypeFieldsEncode(op, w);
    UnitSplit(bytes);
  }

  /** A jump word re-encodes from what it decodes to, with only the opcode, rt and the trailer kept. */
  lemma XjFieldsEncode(w: bv32)
    requires OpcodeCode(XJ) == w >> 26
    ensures EncodeWord(XjFields(w)) == Success((w & 0xFC1F_0000) | 0x44)
  {
  }

  /** XJ: decoding an encoding gives rt as an index, and re-encoding gives the same bytes. */
  lemma XjRoundTrip(i: Instruction)
    requires i.opcode == XJ && Encode(i).Success?
    ensures ValidRegister(i.rt.value)
    ensures Decode(Encode(i).value) == Success((New(XJ).(rt := Some(AsIndex(i.rt.value))), 6))
    ensures Encode(Decode(Encode(i).value).value.0) == Encode(i)
  {
    XjLayout(i);
    var w := EncodeWord(i).value;
    var bytes := Encode(i).value;
    UnitOf(w, bytes);
    OpcodeCodeRoundTrip(XJ);
    DecodeXjUnit(bytes, w);
    XjFieldsEncode(w);
    assert RtBits(w) as bv32 == RegisterBits(i.rt.value).value;
    FieldAsIndex(i.rt.value, RtBits(w));
    assert (w & 0xFC1F_0000) | 0x44 == w;
  }

  /** A word is the OR of its opcode, register and ALU function fields outside bits 10-7. */
  lemma XaluWordSplit(w: bv32, code: bv32)
    requires code == w >> 26
    ensures (code << 26) | ((RsBits(w) as bv32) << 21) | ((RtBits(w) as bv32) << 16) | ((RdBits(w) as bv32) << 11)
            | ((w & 0x1F) | (((w >> 5) & 3) << 5)) == w & 0xFFFF_F87F
  {
  }

  /** Re-encoding a decoded XALU or XALUR word clears bits 10-7, which decoding does not read. */
  lemma XaluFieldsEncode(op: Opcode, w: bv32, f: Function)
    requires IsXaluType(op) && OpcodeCode(op) == w >> 26 && DecodeXaluFunction(w) == Success(f)
    ensures EncodeWord(XaluFields(op, w, f)) == Success(w & 0xFFFF_F87F)
  {
    var i := XaluFields(op, w, f);
    RegisterFieldsEncode(i, w);
    XaluFunctionEncode(i, w, f);
    XaluSlotsEncode(i, (RsBits(w) as bv32) << 21, (RtBits(w) as bv32) << 16, (RdBits(w) as bv32) << 11,
                    (w & 0x1F) | (((w >> 5) & 3) << 5));
    XaluWordSplit(w, OpcodeCode(op));
  }

  /** An XALU or XALUR word from its four slots. */
  lemma XaluSlotsEncode(i: Instruction, rs: bv32, rt: bv32, rd: bv32, f: bv32)
    requires IsXaluType(i.opcode)
    requires EncodeRs(i) == Success(rs) && EncodeRt(i) == Success(rt) && EncodeRd(i) == Success(rd)
    requires EncodeFunction(i) == Success(f)
    ensures EncodeWord(i) == Success(EncodeOpcode(i) | rs | rt | rd | f)
  {
  }

  /** The register slots of an instruction holding a word's register fields give those fields back. */
  lemma RegisterFieldsEncode(i: Instruction, w: bv32)
    requires i.rs == Some(Index(RsBits(w))) && i.rt == Some(Index(RtBits(w))) && i.rd == Some(Index(RdBits(w)))
    ensures EncodeRs(i) == Success((RsBits(w) as bv32) << 21)
    ensures EncodeRt(i) == Success((RtBits(w) as bv32) << 16)
    ensures EncodeRd(i) == Success((RdBits(w) as bv32) << 11)
  {
    FieldBitsBound(w);
  }

  /** The function slot of a decoded ALU function gives bits 4-0 and 6-5 of the word back. */
  lemma XaluFunctionEncode(i: Instruction, w: bv32, f: Function)
    requires DecodeXaluFunction(w) == Success(f) && i.funct == Some(f)
    ensures EncodeFunction(i) == Success((w & 0x1F) | (((w >> 5) & 3) << 5))
  {
  }

  /** Every XALU or XALUR unit that decodes re-encodes to itself with bits 10-7 of its word cleared. */
  lemma XaluEncodeDecode(bytes: seq<bv8>)
    requires |bytes| == 6 && bytes[..2] == UnitHeader
    requires OpcodeFromBits(UnitWord(bytes) >> 26).Some? && IsXaluType(OpcodeFromBits(UnitWord(bytes) >> 26).value)
    requires DecodeXaluFunction(UnitWord(bytes)).Success?
    ensures Decode(bytes).Success?
    ensures Encode(Decode(bytes).value.0) == Success(UnitHeader + LeBytes(UnitWord(bytes) & 0xFFFF_F87F))
  {
    var w := UnitWord(bytes);
    var op := OpcodeFromBits(w >> 26).value;
    DecodeXaluUnit(bytes, w, op);
    XaluFieldsEncode(op, w, DecodeXaluFunction(w).value);
  }

  /** The control decode keeps: LH loses its high bit to Word, HH to Short. */
  function LowDpCntl(d: DpCntl): (r: DpCntl)
    ensures DpCntlCode(r) == DpCntlCode(d) & 3
  {
    match d
    case LH => Word
    case HH => Short
    case _ => d
  }

  /** The function decoded from a word whose low bits hold an encoded ALU function. */
  lemma XaluFunctionDecode(w: bv32, f: Function)
    requires f.Xalu? && w & 0x1F == SubOpXaluCode(f.aluOp) && (w >> 5) & 7 == DpCntlCode(f.dpCntl)
    ensures DecodeXaluFunction(w) == Success(Xalu(f.aluOp, LowDpCntl(f.dpCntl)))
  {
    SubOpXaluCodeRoundTrip(f.aluOp);
    LowBitsOfThree(w >> 5);
  }

  /** A unit holding packed XALU fields decodes to them, with the high control bit dropped. */
  lemma XaluPackedDecode(bytes: seq<bv8>, w: bv32, op: Opcode, a: bv32, b: bv32, c: bv32, s: SubOpXalu, d: DpCntl)
    requires IsXaluType(op) && bytes == UnitHeader + LeBytes(w)
    requires XaluPacked(w, OpcodeCode(op), a, b, c, SubOpXaluCode(s), DpCntlCode(d))
    ensures Decode(bytes) == Success((New(op).(rs := Some(Index(a as bv8)), rt := Some(Index(b as bv8)),
                                               rd := Some(Index(c as bv8)), funct := Some(Xalu(s, LowDpCntl(d)))), 6))
  {
    XaluFieldsReadBack(w, OpcodeCode(op), a, b, c, SubOpXaluCode(s), DpCntlCode(d));
    UnitOf(w, bytes);
    XaluFunctionDecode(w, Xalu(s, d));
    DecodeXaluUnit(bytes, w, op);
  }

  /** Re-encoding a decoded packed XALU unit clears bit 7: the unit comes back exactly when the control is below LH. */
  lemma XaluPackedReencode(bytes: seq<bv8>, w: bv32, op: Opcode, a: bv32, b: bv32, c: bv32, s: SubOpXalu, d: DpCntl)
    requires IsXaluType(op) && bytes == UnitHeader + LeBytes(w)
    requires XaluPacked(w, OpcodeCode(op), a, b, c, SubOpXaluCode(s), DpCntlCode(d))
    ensures Decode(bytes).Success?
    ensures Encode(Decode(bytes).value.0) == Success(UnitHeader + LeBytes(w & 0xFFFF_FF7F))
    ensures Encode(Decode(bytes).value.0) == Success(bytes) <==> !(d == LH || d == HH)
  {
    XaluFieldsReadBack(w, OpcodeCode(op), a, b, c, SubOpXaluCode(s), DpCntlCode(d));
    UnitOf(w, bytes);
    XaluFunctionDecode(w, Xalu(s, d));
    DecodeXaluUnit(bytes, w, op);
    XaluFieldsEncode(op, w, Xalu(s, LowDpCntl(d)));
    BitsTenToEightClear(w);
    DpCntlCodeBound(d);
    BitSevenOfControl(w, DpCntlCode(d));
    LeInjective(w, w & 0xFFFF_FF7F);
  }

  /** Decoding an encoded XALU unit keeps every field except the high data-path control bit. */
  lemma XaluDecodeEncode(i: Instruction)
    requires IsXaluType(i.opcode) && Encode(i).Success?
    requires i.funct.Some? && i.funct.value.Xalu?
    ensures ValidRegister(i.rs.value) && ValidRegister(i.rt.value) && ValidRegister(i.rd.value)
    ensures Decode(Encode(i).value) ==
      Success((New(i.opcode).(rs := Some(AsIndex(i.rs.value)), rt := Some(AsIndex(i.rt.value)),
                              rd := Some(AsIndex(i.rd.value)), funct := Some(Xalu(i.funct.value.aluOp, LowDpCntl(i.funct.value.dpCntl)))), 6))
  {
    var w := EncodeWord(i).value;
    XaluWord(i, w, OpcodeCode(i.opcode));
    XaluPackedDecode(Encode(i).value, w, i.opcode, RegisterBits(i.rs.value).value, RegisterBits(i.rt.value).value,
                     RegisterBits(i.rd.value).value, i.funct.value.aluOp, i.funct.value.dpCntl);
  }

  /** An encoded XALU unit decodes, and re-encoding what it decodes to clears bit 7 of the word. */
  lemma XaluReencode(i: Instruction)
    requires IsXaluType(i.opcode) && Encode(i).Success?
    requires i.funct.Some? && i.funct.value.Xalu?
    ensures Decode(Encode(i).value).Success?
    ensures Encode(Decode(Encode(i).value).value.0) == Success(UnitHeader + LeBytes(EncodeWord(i).value & 0xFFFF_FF7F))
  {
    var w := EncodeWord(i).value;
    XaluWord(i, w, OpcodeCode(i.opcode));
    XaluPackedReencode(Encode(i).value, w, i.opcode, RegisterBits(i.rs.value).value, RegisterBits(i.rt.value).value,
                       RegisterBits(i.rd.value).value, i.funct.value.aluOp, i.funct.value.dpCntl);
  }

  /** XALU re-encodes to the same bytes after decoding exactly when its control is Word, Short, LL or HL. */
  lemma XaluRoundTrip(i: Instruction)
    requires IsXaluType(i.opcode) && Encode(i).Success?
    requires i.funct.Some? && i.funct.value.Xalu?
    ensures Decode(Encode(i).value).Success?
    ensures Encode(Decode(Encode(i).value).value.0) == Encode(i) <==>
      !(i.funct.value.dpCntl == LH || i.funct.value.dpCntl == HH)
  {
    var w := EncodeWord(i).value;
    XaluWord(i, w, OpcodeCode(i.opcode));
    XaluPackedReencode(Encode(i).value, w, i.opcode, RegisterBits(i.rs.value).value, RegisterBits(i.rt.value).value,
                       RegisterBits(i.rd.value).value, i.funct.value.aluOp, i.funct.value.dpCntl);
  }

  /** A decoded XALUI or XALUIR instruction has no constant, so re-encoding it fails. */
  lemma XaluiFieldsEncode(op: Opcode, w: bv32, f: Function)
    requires IsXaluiType(op)
    ensures EncodeWord(XaluiFields(op, w, f)) == Failure(MissingConstant(XaluiFields(op, w, f)))
  {
  }

  /** A unit holding packed XALUI fields decodes to rs, rd and the function, without rt or a constant. */
  lemma XaluiPackedDecode(bytes: seq<bv8>, w: bv32, op: Opcode, a: bv32, c: bv32, s: SubOpXalu, d: DpCntl)
    requires IsXaluiType(op) && bytes == UnitHeader + LeBytes(w)
    requires XaluPacked(w, OpcodeCode(op), a, 0, c, SubOpXaluCode(s), DpCntlCode(d))
    ensures Decode(bytes) == Success((New(op).(rs := Some(Index(a as bv8)), rd := Some(Index(c as bv8)),
                                               funct := Some(Xalu(s, LowDpCntl(d)))), 6))
    ensures Encode(Decode(bytes).value.0) == Failure(MissingConstant(Decode(bytes).value.0))
  {
    XaluFieldsReadBack(w, OpcodeCode(op), a, 0, c, SubOpXaluCode(s), DpCntlCode(d));
    UnitOf(w, bytes);
    XaluFunctionDecode(w, Xalu(s, d));
    DecodeXaluiUnit(bytes, w, op);
    XaluiFieldsEncode(op, w, Xalu(s, LowDpCntl(d)));
  }

  /** An encoded XALUI unit decodes without its constant and without rt, so it cannot be re-encoded. */
  lemma XaluiReencodeFails(i: Instruction)
    requires IsXaluiType(i.opcode) && Encode(i).Success?
    requires i.funct.Some? && i.funct.value.Xalu?
    ensures ValidRegister(i.rs.value) && ValidRegister(i.rd.value)
    ensures Decode(Encode(i).value) ==
      Success((New(i.opcode).(rs := Some(AsIndex(i.rs.value)), rd := Some(AsIndex(i.rd.value)),
                              funct := Some(Xalu(i.funct.value.aluOp, LowDpCntl(i.funct.value.dpCntl)))), 6))
    ensures var d := Decode(Encode(i).value).value.0; Encode(d) == Failure(MissingConstant(d))
  {
    var w := EncodeWord(i).value;
    XaluiWord(i, w, OpcodeCode(i.opcode));
    XaluiPackedDecode(Encode(i).value, w, i.opcode, RegisterBits(i.rs.value).value,
                      RegisterBits(i.rd.value).value, i.funct.value.aluOp, i.funct.value.dpCntl);
  }

  /** A decoded XIOR or XIOW instruction has no function, so re-encoding it fails. */
  lemma XioFieldsEncode(op: Opcode, w: bv32)
    requires IsXioType(op)
    ensures EncodeWord(XioFields(op, w)) == Failure(MissingFunction(XioFields(op, w)))
  {
  }

  /** A unit holding packed IO fields decodes to rs, rt and a zero offset; the function is not read. */
  lemma XioPackedDecode(bytes: seq<bv8>, w: bv32, op: Opcode, a: bv32, b: bv32, fn: bv32)
    requires IsXioType(op) && bytes == UnitHeader + LeBytes(w)
    requires Packed(w, OpcodeCode(op), a, b, 0, fn)
    ensures Decode(bytes) == Success((New(op).(rs := Some(Index(a as bv8)), rt := Some(Index(b as bv8)),
                                               offset := Some(Offset.Number(0))), 6))
    ensures Encode(Decode(bytes).value.0) == Failure(MissingFunction(Decode(bytes).value.0))
  {
    FieldsReadBack(w, OpcodeCode(op), a, b, 0, fn);
    UnitOf(w, bytes);
    DecodeXioUnit(bytes, w, op);
    XioFieldsEncode(op, w);
  }

  /** Decoding an encoded XIOR or XIOW unit keeps the opcode and registers; the function is not read back. */
  lemma XioDecodeEncode(i: Instruction)
    requires IsXioType(i.opcode) && Encode(i).Success?
    ensures ValidRegister(i.rs.value) && ValidRegister(i.rt.value)
    ensures Decode(Encode(i).value) ==
      Success((New(i.opcode).(rs := Some(AsIndex(i.rs.value)), rt := Some(AsIndex(i.rt.value)),
                              offset := Some(Offset.Number(0))), 6))
    ensures var d := Decode(Encode(i).value).value.0; Encode(d) == Failure(MissingFunction(d))
  {
    var w := EncodeWord(i).value;
    XioWord(i, w, OpcodeCode(i.opcode), EncodeFunction(i).value);
    XioPackedDecode(Encode(i).value, w, i.opcode, RegisterBits(i.rs.value).value,
                    RegisterBits(i.rt.value).value, EncodeFunction(i).value);
  }

  // ---------------------------------------------------------------------------
  // Bit facts about single fields

  lemma LowBitsOfThree(x: bv32)
    ensures (x & 7) & 3 == x & 3
  {
  }

  /** With bits 10-8 clear, clearing bits 10-7 and clearing bit 7 agree. */
  lemma BitsTenToEightClear(w: bv32)
    requires w & 0x700 == 0
    ensures w & 0xFFFF_F87F == w & 0xFFFF_FF7F
  {
  }

  /** Distinct words have distinct little-endian bytes. */
  lemma LeInjective(w: bv32, v: bv32)
    ensures UnitHeader + LeBytes(w) == UnitHeader + LeBytes(v) <==> w == v
  {
    LeRoundTrip(w, []);
    LeRoundTrip(v, []);
    assert (UnitHeader + LeBytes(w))[2..6] == LeBytes(w);
    assert (UnitHeader + LeBytes(v))[2..6] == LeBytes(v);
  }

  /** Bit 7 of a word is the high bit of the three-bit control field at bits 7-5. */
  lemma BitSevenOfControl(w: bv32, d: bv32)
    requires (w >> 5) & 7 == d
    ensures d < 4 ==> w & 0xFFFF_FF7F == w
    ensures d >= 4 ==> w & 0xFFFF_FF7F != w
  {
  }
}
