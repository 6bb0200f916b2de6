/**
 * One-pass assembler with backpatching (dynasm.rs).
 *
 * The assembler owns a byte buffer and a symbol table. Instructions are
 * appended as 6-byte AIS units; a load of a symbol's address leaves two
 * pending immediate references when the symbol is not yet bound, and binding
 * the symbol patches those units in place by decode, replace immediate,
 * re-encode.
 */
module DynAsm {
  import opened Wrappers
  import opened Ais

  datatype DynAsmError = AisError(error: Ais.AisError) | InvalidSym | SymbolRedefined | ResolveUnstable

  /** A symbol handle: its position in the symbol table. */
  datatype Sym = Sym(index: nat)

  datatype SymRefKind = HighImm | LowImm

  /** A pending reference: the unit at `offset` needs one half of the symbol's address as its immediate. */
  datatype SymRef = SymRef(kind: SymRefKind, offset: nat)

  datatype Symbol = Unresolved(refs: seq<SymRef>) | Resolved(addr: bv32)

  /** Bytes emitted before the AIS code: call 1f; 1: pop eax; add eax, 6; jmpai eax. */
  const Header: seq<bv8> := [0xE8, 0x00, 0x00, 0x00, 0x00, 0x58, 0x83, 0xC0, 0x06, 0x0F, 0x3F]

  /** Bytes emitted after the AIS code: ret. */
  const Footer: seq<bv8> := [0xC3]

  const U32Limit: int := 0x1_0000_0000

  // ---------------------------------------------------------------------------
  // Immediate halves

  /** The immediate a reference of this kind receives for `addr`. */
  function Half(kind: SymRefKind, addr: bv32): bv16 {
    match kind
    case LowImm => (addr & 0xFFFF) as bv16
    case HighImm => ((addr >> 16) & 0xFFFF) as bv16
  }

  /** The two halves a symbol load receives put the address back together. */
  lemma HalvesRecombine(addr: bv32)
    ensures (Half(LowImm, addr) as bv32) | ((Half(HighImm, addr) as bv32) << 16) == addr
  {
  }

  // ---------------------------------------------------------------------------
  // Patching one reference (Vec<u8>::sym_ref_resolve)

  /**
   * Decodes the unit at the reference's offset, replaces its immediate and
   * re-encodes it; on success the new bytes overwrite the old unit.
   */
  function ResolveRef(mem: seq<bv8>, r: SymRef, addr: bv32): (res: Result<seq<bv8>, DynAsmError>)
    requires r.offset <= |mem|
    ensures res.Success? ==>
      && r.offset + 6 <= |mem| && |res.value| == |mem|
      && res.value[..r.offset] == mem[..r.offset]
      && res.value[r.offset + 6..] == mem[r.offset + 6..]
  {
    match Decode(mem[r.offset..])
    case Failure(e) => Failure(AisError(e))
    case Success((instr, len)) =>
      var patched := instr.(imm := Some(Half(r.kind, addr)));
      match Encode(patched)
      case Failure(e) => Failure(AisError(e))
      case Success(newBytes) =>
        if |newBytes| != len then Failure(ResolveUnstable)
        else Success(mem[..r.offset] + newBytes + mem[r.offset + len..])
  }

  /** The stability check can never fire: decode and encode both use six bytes. */
  lemma ResolveNeverUnstable(mem: seq<bv8>, r: SymRef, addr: bv32)
    requires r.offset <= |mem|
    ensures ResolveRef(mem, r, addr) != Failure(ResolveUnstable)
  {
  }

  /** The I-type opcodes are exactly the codes 0x08 to 0x0F. */
  predicate IsITypeCode(bits: bv32) {
    0x08 <= bits <= 0x0F
  }

  lemma ITypeCodes(bits: bv32)
    ensures IsITypeCode(bits) <==> OpcodeFromBits(bits).Some? && IsIType(OpcodeFromBits(bits).value)
    ensures IsITypeCode(bits) ==> OpcodeCode(OpcodeFromBits(bits).value) == bits
  {
  }

  /** The unit at `off` is a headered I-type unit. */
  predicate IsIUnit(mem: seq<bv8>, off: nat) {
    && off + 6 <= |mem|
    && mem[off..off + 2] == UnitHeader
    && IsITypeCode(WordFromLe(mem[off + 2..off + 6]) >> 26)
  }

  /** Decoding an I-type unit in place. */
  lemma IUnitDecode(mem: seq<bv8>, off: nat)
    requires IsIUnit(mem, off)
    ensures var w := WordFromLe(mem[off + 2..off + 6]);
      var op := OpcodeFromBits(w >> 26).value;
      Decode(mem[off..]) ==
        Success((ITypeFields(op, w), 6))
  {
    var u := mem[off..];
    var w := WordFromLe(mem[off + 2..off + 6]);
    assert u[..2] == mem[off..off + 2];
    assert u[2..6] == mem[off + 2..off + 6];
    ITypeCodes(w >> 26);
    DecodeITypeUnit(u, w, OpcodeFromBits(w >> 26).value);
  }

  /** A decoding result with the immediate of the decoded instruction replaced. */
  function WithImm(d: Result<(Instruction, nat), Ais.AisError>, h: bv16): Result<(Instruction, nat), Ais.AisError> {
    match d
    case Success((i, n)) => Success((i.(imm := Some(h)), n))
    case Failure(e) => Failure(e)
  }

  /** Whether a unit is an I-type unit, and what it decodes to, depend only on its six bytes. */
  lemma IUnitFrame(mem: seq<bv8>, mem': seq<bv8>, off: nat)
    requires off + 6 <= |mem| && off + 6 <= |mem'| && mem[off..off + 6] == mem'[off..off + 6]
    ensures IsIUnit(mem, off) <==> IsIUnit(mem', off)
    ensures IsIUnit(mem, off) ==> Decode(mem[off..]) == Decode(mem'[off..])
  {
    assert mem[off..off + 2] == mem[off..off + 6][..2] == mem'[off..off + 2];
    assert mem[off + 2..off + 6] == mem[off..off + 6][2..] == mem'[off + 2..off + 6];
    if IsIUnit(mem, off) {
      IUnitDecode(mem, off);
      IUnitDecode(mem', off);
    }
  }

  /** The word of an I-type unit with its immediate replaced by `h`. */
  function PatchedWord(w: bv32, h: bv16): bv32 {
    ((w >> 26) << 26) | ((RsBits(w) as bv32) << 21) | ((RtBits(w) as bv32) << 16) | (h as bv32)
  }

  /** Replacing the immediate keeps the opcode, rs and rt fields. */
  lemma ImmPatchFields(w: bv32, h: bv16)
    ensures var w' := PatchedWord(w, h);
      w' >> 26 == w >> 26 && RsBits(w') == RsBits(w) && RtBits(w') == RtBits(w) && ImmBits(w') == h
  {
  }

  /** Replacing the immediate rewrites the two low bytes of the word and keeps the two high ones. */
  lemma ImmPatchBytes(w: bv32, h: bv16)
    ensures var w' := PatchedWord(w, h);
      && LeBytes(w')[2] == LeBytes(w)[2] && LeBytes(w')[3] == LeBytes(w)[3]
      && LeBytes(w')[0] == (h & 0xFF) as bv8
      && LeBytes(w')[1] == (h >> 8) as bv8
  {
  }

  /** ResolveRef in terms of what the unit decodes to and what the patched instruction encodes to. */
  lemma ResolveRefSteps(mem: seq<bv8>, r: SymRef, addr: bv32, i: Instruction, nb: seq<bv8>)
    requires r.offset <= |mem| && Decode(mem[r.offset..]) == Success((i, 6))
    requires Encode(i.(imm := Some(Half(r.kind, addr)))) == Success(nb) && |nb| == 6
    ensures ResolveRef(mem, r, addr) == Success(mem[..r.offset] + nb + mem[r.offset + 6..])
  {
  }

  /** An I-type instruction with index registers encodes to its word with the immediate replaced. */
  lemma PatchedEncode(w: bv32, h: bv16, op: Opcode, i: Instruction)
    requires OpcodeFromBits(w >> 26) == Some(op) && IsIType(op)
    requires i == New(op).(rs := Some(Index(RsBits(w))), rt := Some(Index(RtBits(w))), imm := Some(h))
    ensures Encode(i) == Success(UnitHeader + LeBytes(PatchedWord(w, h)))
  {
    ITypeCodes(w >> 26);
    ImmPatchFields(w, h);
    ITypeFieldsEncode(op, PatchedWord(w, h));
  }

  lemma ResolveIUnitValue(mem: seq<bv8>, r: SymRef, addr: bv32)
    requires IsIUnit(mem, r.offset)
    ensures ResolveRef(mem, r, addr) == Success(Splice(mem, r.offset, Half(r.kind, addr)))
  {
    var off := r.offset;
    var h := Half(r.kind, addr);
    var w := WordFromLe(mem[off + 2..off + 6]);
    ITypeCodes(w >> 26);
    var op := OpcodeFromBits(w >> 26).value;
    var i := New(op).(rs := Some(Index(RsBits(w))), rt := Some(Index(RtBits(w))), imm := Some(ImmBits(w)));
    IUnitDecode(mem, off);
    PatchedEncode(w, h, op, i.(imm := Some(h)));
    LeRoundTrip(PatchedWord(w, h), []);
    ResolveRefSteps(mem, r, addr, i, UnitHeader + LeBytes(PatchedWord(w, h)));
  }

  /** The bytes of a buffer whose I-type unit at `off` is replaced by the patched unit. */
  lemma SpliceBytes(mem: seq<bv8>, off: nat, h: bv16)
    requires IsIUnit(mem, off)
    ensures var w := WordFromLe(mem[off + 2..off + 6]);
      var m := mem[..off] + (UnitHeader + LeBytes(PatchedWord(w, h))) + mem[off + 6..];
      && |m| == |mem|
      && m[..off + 2] == mem[..off + 2]
      && m[off + 4..] == mem[off + 4..]
      && m[off + 2] == (h & 0xFF) as bv8
      && m[off + 3] == (h >> 8) as bv8
      && m[off..off + 2] == UnitHeader
      && m[off + 2..off + 6] == LeBytes(PatchedWord(w, h))
  {
    var w := WordFromLe(mem[off + 2..off + 6]);
    var w' := PatchedWord(w, h);
    ImmPatchBytes(w, h);
    LeRoundTrip(w, mem[off + 2..off + 6]);
    LeRoundTrip(w', []);
    var m := mem[..off] + (UnitHeader + LeBytes(w')) + mem[off + 6..];
    assert m[off..off + 2] == UnitHeader;
    assert m[off + 2..off + 6] == LeBytes(w');
    assert m[..off + 2] == mem[..off + 2];
    assert m[off + 4..] == mem[off + 4..] by {
      assert m[off + 4..off + 6] == LeBytes(w')[2..];
      assert LeBytes(w')[2..] == LeBytes(w)[2..];
    }
  }

  /** A unit whose word keeps the opcode field of an I-type unit is an I-type unit. */
  lemma SpliceIsIUnit(mem: seq<bv8>, off: nat, m: seq<bv8>, w: bv32, w': bv32)
    requires IsIUnit(mem, off) && off + 6 <= |m|
    requires w == WordFromLe(mem[off + 2..off + 6]) && w' >> 26 == w >> 26
    requires m[off..off + 2] == UnitHeader && m[off + 2..off + 6] == LeBytes(w')
    ensures IsIUnit(m, off) && WordFromLe(m[off + 2..off + 6]) == w'
  {
    LeRoundTrip(w', []);
  }

  /** Two I-type units whose words agree on opcode, rs and rt decode to the same instruction up to the immediate. */
  lemma SameFieldsDecode(mem: seq<bv8>, m: seq<bv8>, off: nat, w: bv32, w': bv32, h: bv16)
    requires IsIUnit(mem, off) && IsIUnit(m, off)
    requires w == WordFromLe(mem[off + 2..off + 6]) && w' == WordFromLe(m[off + 2..off + 6])
    requires w' >> 26 == w >> 26 && RsBits(w') == RsBits(w) && RtBits(w') == RtBits(w) && ImmBits(w') == h
    ensures Decode(m[off..]) == WithImm(Decode(mem[off..]), h)
  {
    IUnitDecode(m, off);
    IUnitDecode(mem, off);
  }

  /** The patched unit is still an I-type unit and decodes to the old instruction with the new immediate. */
  lemma SpliceDecode(mem: seq<bv8>, off: nat, h: bv16, m: seq<bv8>)
    requires IsIUnit(mem, off) && off + 6 <= |m|
    requires m[off..off + 2] == UnitHeader
    requires m[off + 2..off + 6] == LeBytes(PatchedWord(WordFromLe(mem[off + 2..off + 6]), h))
    ensures IsIUnit(m, off)
    ensures Decode(m[off..]) == WithImm(Decode(mem[off..]), h)
  {
    var w := WordFromLe(mem[off + 2..off + 6]);
    var w' := PatchedWord(w, h);
    ImmPatchFields(w, h);
    SpliceIsIUnit(mem, off, m, w, w');
    SameFieldsDecode(mem, m, off, w, w', h);
  }

  // ---------------------------------------------------------------------------
  // Patching a list of references in order (the loop of sym_resolve)

  /** Two units at these offsets do not overlap. */
  predicate Apart(a: nat, b: nat) {
    a + 6 <= b || b + 6 <= a
  }

  /** Every reference is within the buffer, as slicing the buffer at its offset demands. */
  predicate RefsInBounds(mem: seq<bv8>, refs: seq<SymRef>) {
    forall j :: 0 <= j < |refs| ==> refs[j].offset <= |mem|
  }

  /** Every reference points at an I-type unit, and no two references' units overlap. */
  predicate RefsValid(mem: seq<bv8>, refs: seq<SymRef>) {
    && (forall j :: 0 <= j < |refs| ==> IsIUnit(mem, refs[j].offset))
    && (forall j, k :: 0 <= j < |refs| && 0 <= k < |refs| && j != k ==> Apart(refs[j].offset, refs[k].offset))
  }

  /** Byte `p` is one of the two immediate bytes of some reference's unit. */
  predicate InImm(refs: seq<SymRef>, p: int) {
    refs != [] && (refs[0].offset + 2 <= p < refs[0].offset + 4 || InImm(refs[1..], p))
  }

  /**
   * Patches the references one after the other; the first failure stops the
   * loop and keeps the patches already made.
   */
  function PatchAll(mem: seq<bv8>, refs: seq<SymRef>, addr: bv32): (res: (seq<bv8>, Outcome<DynAsmError>))
    requires RefsInBounds(mem, refs)
    ensures |res.0| == |mem|
    decreases |refs|
  {
    if refs == [] then (mem, Pass)
    else
      match ResolveRef(mem, refs[0], addr)
      case Failure(e) => (mem, Fail(e))
      case Success(m) => PatchAll(m, refs[1..], addr)
  }

  /** A unit apart from every reference contains none of their immediate bytes. */
  lemma {:induction false} ApartNotInImm(refs: seq<SymRef>, o: nat, p: int)
    requires forall j :: 0 <= j < |refs| ==> Apart(o, refs[j].offset)
    requires o <= p < o + 6
    ensures !InImm(refs, p)
    decreases |refs|
  {
    if refs != [] {
      assert Apart(o, refs[0].offset);
      ApartNotInImm(refs[1..], o, p);
    }
  }

  /** A unit whose six bytes two buffers share is the same unit in both. */
  lemma SameUnit(a: seq<bv8>, b: seq<bv8>, o: nat)
    requires o + 6 <= |a| && |a| == |b|
    requires forall p :: o <= p < o + 6 ==> a[p] == b[p]
    ensures a[o..o + 6] == b[o..o + 6]
  {
  }

  /** After the first patch, the remaining references still point at I-type units. */
  lemma RestValid(mem: seq<bv8>, m: seq<bv8>, refs: seq<SymRef>)
    requires RefsValid(mem, refs) && refs != [] && |m| == |mem|
    requires forall p :: 0 <= p < |mem| && !(refs[0].offset + 2 <= p < refs[0].offset + 4) ==> m[p] == mem[p]
    ensures RefsValid(m, refs[1..])
  {
    var rest := refs[1..];
    forall j | 0 <= j < |rest|
      ensures IsIUnit(m, rest[j].offset)
    {
      var o := rest[j].offset;
      assert refs[j + 1] == rest[j];
      assert Apart(o, refs[0].offset);
      SameUnit(mem, m, o);
      IUnitFrame(mem, m, o);
    }
    forall j, k | 0 <= j < |rest| && 0 <= k < |rest| && j != k
      ensures Apart(rest[j].offset, rest[k].offset)
    {
      assert refs[j + 1] == rest[j] && refs[k + 1] == rest[k];
    }
  }

  /** The two immediate bytes of the unit at `o` hold `h`, low byte first. */
  predicate ImmWritten(m: seq<bv8>, o: nat, h: bv16) {
    o + 6 <= |m| && m[o + 2] == (h & 0xFF) as bv8 && m[o + 3] == (h >> 8) as bv8
  }

  /** The buffer with the I-type unit at `off` replaced by the unit whose immediate is `h`. */
  function Splice(mem: seq<bv8>, off: nat, h: bv16): seq<bv8>
    requires IsIUnit(mem, off)
  {
    mem[..off] + (UnitHeader + LeBytes(PatchedWord(WordFromLe(mem[off + 2..off + 6]), h))) + mem[off + 6..]
  }

  /** Splicing in a patched unit changes only the two immediate bytes, which then hold `h`. */
  lemma SpliceUntouched(mem: seq<bv8>, off: nat, h: bv16)
    requires IsIUnit(mem, off)
    ensures var m := Splice(mem, off, h);
      && |m| == |mem|
      && (forall p :: 0 <= p < |mem| && !(off + 2 <= p < off + 4) ==> m[p] == mem[p])
      && ImmWritten(m, off, h)
  {
    SpliceBytes(mem, off, h);
    var m := Splice(mem, off, h);
    forall p | 0 <= p < |mem| && !(off + 2 <= p < off + 4)
      ensures m[p] == mem[p]
    {
      if p < off + 2 {
        assert m[p] == m[..off + 2][p];
      } else {
        assert m[p] == m[off + 4..][p - (off + 4)];
      }
    }
  }

  /** Patching an I-type unit, byte by byte: only the two immediate bytes change. */
  lemma ResolveIUnitBytes(mem: seq<bv8>, r: SymRef, addr: bv32)
    requires IsIUnit(mem, r.offset)
    ensures ResolveRef(mem, r, addr).Success?
    ensures var m := ResolveRef(mem, r, addr).value;
      var h := Half(r.kind, addr);
      && |m| == |mem|
      && (forall p :: 0 <= p < |mem| && !(r.offset + 2 <= p < r.offset + 4) ==> m[p] == mem[p])
      && ImmWritten(m, r.offset, h)
  {
    ResolveIUnitValue(mem, r, addr);
    SpliceUntouched(mem, r.offset, Half(r.kind, addr));
  }

  /** A byte of a reference's own unit outside its immediate belongs to no reference's immediate. */
  lemma {:induction false} OwnUnitOutsideImm(refs: seq<SymRef>, j: nat, p: int)
    requires j < |refs|
    requires forall k :: 0 <= k < |refs| && k != j ==> Apart(refs[j].offset, refs[k].offset)
    requires refs[j].offset <= p < refs[j].offset + 6 && !(refs[j].offset + 2 <= p < refs[j].offset + 4)
    ensures !InImm(refs, p)
    decreases |refs|
  {
    var rest := refs[1..];
    if j == 0 {
      forall k | 0 <= k < |rest| ensures Apart(refs[0].offset, rest[k].offset) {
        assert rest[k] == refs[k + 1];
      }
      ApartNotInImm(rest, refs[0].offset, p);
    } else {
      assert Apart(refs[j].offset, refs[0].offset);
      forall k | 0 <= k < |rest| && k != j - 1 ensures Apart(rest[j - 1].offset, rest[k].offset) {
        assert rest[k] == refs[k + 1];
      }
      OwnUnitOutsideImm(rest, j - 1, p);
    }
  }

  /**
   * Patching valid references, byte by byte: it always succeeds, keeps the
   * length, changes no byte outside the references' immediates, and writes
   * each reference's half, low byte first, into its unit's immediate bytes.
   */
  lemma {:induction false} PatchAllBytes(mem: seq<bv8>, refs: seq<SymRef>, addr: bv32)
    requires RefsValid(mem, refs)
    ensures RefsInBounds(mem, refs)
    ensures PatchAll(mem, refs, addr).1 == Pass
    ensures var m := PatchAll(mem, refs, addr).0;
      forall p :: 0 <= p < |mem| && !InImm(refs, p) ==> m[p] == mem[p]
    ensures var m := PatchAll(mem, refs, addr).0;
      forall j :: 0 <= j < |refs| ==> ImmWritten(m, refs[j].offset, Half(refs[j].kind, addr))
    decreases |refs|
  {
    if refs != [] {
      var r := refs[0];
      ResolveIUnitBytes(mem, r, addr);
      var m1 := ResolveRef(mem, r, addr).value;
      RestValid(mem, m1, refs);
      var rest := refs[1..];
      PatchAllBytes(m1, rest, addr);
      var m := PatchAll(m1, rest, addr).0;
      assert PatchAll(mem, refs, addr) == PatchAll(m1, rest, addr);
      forall k | 0 <= k < |rest| ensures Apart(r.offset, rest[k].offset) {
        assert refs[k + 1] == rest[k];
      }
      ApartNotInImm(rest, r.offset, r.offset + 2);
      ApartNotInImm(rest, r.offset, r.offset + 3);
      forall j | 1 <= j < |refs|
        ensures ImmWritten(m, refs[j].offset, Half(refs[j].kind, addr))
      {
        assert refs[j] == rest[j - 1];
      }
    }
  }

  /** A unit whose immediate bytes alone were rewritten decodes to the old instruction with the new immediate. */
  lemma UnitRepatched(mem: seq<bv8>, m: seq<bv8>, o: nat, h: bv16)
    requires IsIUnit(mem, o) && o + 6 <= |m|
    requires m[o] == mem[o] && m[o + 1] == mem[o + 1] && m[o + 4] == mem[o + 4] && m[o + 5] == mem[o + 5]
    requires ImmWritten(m, o, h)
    ensures IsIUnit(m, o)
    ensures Decode(m[o..]) == WithImm(Decode(mem[o..]), h)
  {
    var w := WordFromLe(mem[o + 2..o + 6]);
    ImmPatchBytes(w, h);
    LeRoundTrip(w, mem[o + 2..o + 6]);
    LeRoundTrip(PatchedWord(w, h), []);
    assert m[o..o + 2] == mem[o..o + 2];
    assert m[o + 2..o + 6] == LeBytes(PatchedWord(w, h));
    SpliceDecode(mem, o, h, m);
  }

  /**
   * Patching an I-type unit succeeds and writes the half, low byte first, into
   * bytes 2 and 3 of the unit; every other byte of the buffer is untouched and
   * the unit decodes to the same instruction with the new immediate.
   */
  lemma ResolveIUnit(mem: seq<bv8>, r: SymRef, addr: bv32)
    requires IsIUnit(mem, r.offset)
    ensures ResolveRef(mem, r, addr).Success?
    ensures var m := ResolveRef(mem, r, addr).value;
      var h := Half(r.kind, addr);
      && |m| == |mem|
      && (forall p :: 0 <= p < |mem| && !(r.offset + 2 <= p < r.offset + 4) ==> m[p] == mem[p])
      && ImmWritten(m, r.offset, h)
      && IsIUnit(m, r.offset)
      && Decode(m[r.offset..]) == WithImm(Decode(mem[r.offset..]), h)
  {
    var o := r.offset;
    ResolveIUnitBytes(mem, r, addr);
    var m := ResolveRef(mem, r, addr).value;
    assert m[o] == mem[o] && m[o + 1] == mem[o + 1] && m[o + 4] == mem[o + 4] && m[o + 5] == mem[o + 5];
    UnitRepatched(mem, m, o, Half(r.kind, addr));
  }

  /**
   * Patching valid references always succeeds, and leaves every referenced
   * unit an I-type unit decoding to its old instruction with the new immediate.
   */
  lemma PatchAllEffect(mem: seq<bv8>, refs: seq<SymRef>, addr: bv32)
    requires RefsValid(mem, refs)
    ensures RefsInBounds(mem, refs)
    ensures PatchAll(mem, refs, addr).1 == Pass
    ensures var m := PatchAll(mem, refs, addr).0;
      forall j :: 0 <= j < |refs| ==>
        && IsIUnit(m, refs[j].offset)
        && Decode(m[refs[j].offset..]) ==
           WithImm(Decode(mem[refs[j].offset..]), Half(refs[j].kind, addr))
  {
    PatchAllBytes(mem, refs, addr);
    var m := PatchAll(mem, refs, addr).0;
    forall j | 0 <= j < |refs|
      ensures IsIUnit(m, refs[j].offset)
      ensures Decode(m[refs[j].offset..]) ==
        WithImm(Decode(mem[refs[j].offset..]), Half(refs[j].kind, addr))
    {
      var o := refs[j].offset;
      OwnUnitOutsideImm(refs, j, o);
      OwnUnitOutsideImm(refs, j, o + 1);
      OwnUnitOutsideImm(refs, j, o + 4);
      OwnUnitOutsideImm(refs, j, o + 5);
      var h := Half(refs[j].kind, addr);
      assert m[o] == mem[o] && m[o + 1] == mem[o + 1] && m[o + 4] == mem[o + 4] && m[o + 5] == mem[o + 5];
      assert ImmWritten(m, o, h);
      UnitRepatched(mem, m, o, h);
    }
  }


  // ---------------------------------------------------------------------------
  // The assembler's state and its operations as functions of the state

  /** The fields of the assembler: load address, emitted bytes and the symbol table. */
  datatype Asm = Asm(base: bv32, memory: seq<bv8>, symbols: seq<Symbol>)

  /** The pending references of a table entry; a resolved symbol has none. */
  function Refs(s: Symbol): seq<SymRef> {
    if s.Unresolved? then s.refs else []
  }

  /** Every pending reference lies within the buffer, as slicing the buffer at it demands. */
  predicate InBounds(a: Asm) {
    forall k :: 0 <= k < |a.symbols| ==> RefsInBounds(a.memory, Refs(a.symbols[k]))
  }

  /** The units of every reference end at or before `limit`. */
  predicate UnitsBefore(refs: seq<SymRef>, limit: int) {
    forall j :: 0 <= j < |refs| ==> refs[j].offset + 6 <= limit
  }

  /** Every pending reference lies in a unit that ends at or before `limit`. */
  predicate RefsBefore(a: Asm, limit: int) {
    forall k :: 0 <= k < |a.symbols| ==> UnitsBefore(Refs(a.symbols[k]), limit)
  }

  /** No unit of the first list overlaps a unit of the second. */
  predicate Disjoint(r1: seq<SymRef>, r2: seq<SymRef>) {
    forall j, j' :: 0 <= j < |r1| && 0 <= j' < |r2| ==> Apart(r1[j].offset, r2[j'].offset)
  }

  /**
   * The invariant of the assembler: every pending reference points at an
   * I-type unit, and no two pending references' units overlap.
   */
  predicate Patchable(a: Asm) {
    && InBounds(a)
    && (forall k :: 0 <= k < |a.symbols| ==> RefsValid(a.memory, Refs(a.symbols[k])))
    && (forall k, k' :: 0 <= k < |a.symbols| && 0 <= k' < |a.symbols| && k != k' ==>
          Disjoint(Refs(a.symbols[k]), Refs(a.symbols[k'])))
  }

  /** `gen`: append the encoding of the instruction, or report the encoder's error and change nothing. */
  function GenResult(a: Asm, i: Instruction): (r: (Asm, Outcome<DynAsmError>))
    ensures r.1.Pass? <==> Encode(i).Success?
    ensures r.1.Pass? ==>
      && r.0.base == a.base && r.0.symbols == a.symbols
      && |r.0.memory| == |a.memory| + 6
      && r.0.memory[..|a.memory|] == a.memory
      && r.0.memory[|a.memory|..] == Encode(i).value
    ensures r.1.Fail? ==> r.0 == a && r.1.error == AisError(Encode(i).error)
  {
    match Encode(i)
    case Success(bytes) => (a.(memory := a.memory + bytes), Pass)
    case Failure(e) => (a, Fail(AisError(e)))
  }

  /** `Symbols::get`: the table entry of a handle, or InvalidSym. */
  function Lookup(symbols: seq<Symbol>, s: Sym): (r: Result<Symbol, DynAsmError>)
    ensures r.Success? <==> s.index < |symbols|
    ensures r.Success? ==> r.value == symbols[s.index]
    ensures r.Failure? ==> r.error == InvalidSym
  {
    if s.index < |symbols| then Success(symbols[s.index]) else Failure(InvalidSym)
  }

  /**
   * `sym_resolve`: the entry becomes Resolved(addr) before its old value is
   * looked at; the pending references of an unresolved symbol are then patched
   * in order, and a symbol that was already resolved is reported as redefined.
   */
  function SymResolveResult(a: Asm, s: Sym, addr: bv32): (Asm, Outcome<DynAsmError>)
    requires InBounds(a)
  {
    match Lookup(a.symbols, s)
    case Failure(e) => (a, Fail(e))
    case Success(old_) =>
      var symbols := a.symbols[s.index := Resolved(addr)];
      match old_
      case Resolved(_) => (a.(symbols := symbols), Fail(SymbolRedefined))
      case Unresolved(refs) =>
        assert refs == Refs(a.symbols[s.index]);
        var (m, o) := PatchAll(a.memory, refs, addr);
        (a.(memory := m, symbols := symbols), o)
  }

  /**
   * `sym_fixup`: a reference to the last unit; it is queued on an unresolved
   * symbol and patched at once for a resolved one.
   */
  function SymFixupResult(a: Asm, s: Sym, kind: SymRefKind): (r: (Asm, Outcome<DynAsmError>))
    requires |a.memory| >= 6
    ensures |r.0.memory| == |a.memory| && r.0.base == a.base
  {
    var ref := SymRef(kind, |a.memory| - 6);
    match Lookup(a.symbols, s)
    case Failure(e) => (a, Fail(e))
    case Success(Unresolved(refs)) => (a.(symbols := a.symbols[s.index := Unresolved(refs + [ref])]), Pass)
    case Success(Resolved(addr)) =>
      match ResolveRef(a.memory, ref, addr)
      case Failure(e) => (a, Fail(e))
      case Success(m) => (a.(memory := m), Pass)
  }

  /** A fixup for an out-of-range handle fails with InvalidSym. */
  lemma FixupInvalid(a: Asm, s: Sym, kind: SymRefKind)
    requires |a.memory| >= 6 && s.index >= |a.symbols|
    ensures SymFixupResult(a, s, kind) == (a, Fail(InvalidSym))
  {
  }

  /** A fixup for an unresolved symbol queues the reference. */
  lemma FixupQueue(a: Asm, s: Sym, kind: SymRefKind)
    requires |a.memory| >= 6 && s.index < |a.symbols| && a.symbols[s.index].Unresolved?
    ensures SymFixupResult(a, s, kind) ==
      (a.(symbols := a.symbols[s.index := Unresolved(a.symbols[s.index].refs + [SymRef(kind, |a.memory| - 6)])]), Pass)
  {
  }

  /** A fixup for a resolved symbol patches the unit at once. */
  lemma FixupPatch(a: Asm, s: Sym, kind: SymRefKind)
    requires |a.memory| >= 6 && s.index < |a.symbols| && a.symbols[s.index].Resolved?
    ensures var res := ResolveRef(a.memory, SymRef(kind, |a.memory| - 6), a.symbols[s.index].addr);
      SymFixupResult(a, s, kind) == if res.Success? then (a.(memory := res.value), Pass) else (a, Fail(res.error))
  {
  }

  /** `new_sym`: a fresh unresolved entry with no references at the end of the table; its handle is its position. */
  function NewSymResult(a: Asm): (r: (Asm, Sym))
    ensures r.1.index == |a.symbols| && Lookup(r.0.symbols, r.1) == Success(Unresolved([]))
    ensures r.0.base == a.base && r.0.memory == a.memory
    ensures |r.0.symbols| == |a.symbols| + 1 && r.0.symbols[..|a.symbols|] == a.symbols
  {
    (a.(symbols := a.symbols + [Unresolved([])]), Sym(|a.symbols|))
  }

  /** The load address of the next byte; base + length is assumed not to overflow 32 bits. */
  function AddrOf(a: Asm): bv32
    requires a.base as int + |a.memory| < U32Limit
  {
    (|a.memory| as bv32) + a.base
  }

  /**
   * `new_sym_here`: a fresh symbol resolved to the current address (the
   * source unwraps the outcome). The address is that of the state before
   * `new_sym`, which leaves the buffer and the base alone.
   */
  function NewSymHereResult(a: Asm): (Asm, Sym)
    requires InBounds(a) && a.base as int + |a.memory| < U32Limit
  {
    var addr := AddrOf(a);
    var (a1, s) := NewSymResult(a);
    NewSymInBounds(a);
    (SymResolveResult(a1, s, addr).0, s)
  }

  /** `set_sym_here`: resolve the symbol to the current address. */
  function SetSymHereResult(a: Asm, s: Sym): (Asm, Outcome<DynAsmError>)
    requires InBounds(a) && a.base as int + |a.memory| < U32Limit
  {
    SymResolveResult(a, s, AddrOf(a))
  }

  /** `sym_addr`: the address of a resolved symbol, None for an unresolved one. */
  function SymAddrOf(a: Asm, s: Sym): (r: Result<Option<bv32>, DynAsmError>)
    ensures r.Failure? <==> s.index >= |a.symbols|
    ensures r.Success? ==> (r.value.Some? <==> a.symbols[s.index].Resolved?)
    ensures r.Success? && r.value.Some? ==> a.symbols[s.index] == Resolved(r.value.value)
  {
    match Lookup(a.symbols, s)
    case Failure(e) => Failure(e)
    case Success(Unresolved(_)) => Success(None)
    case Success(Resolved(addr)) => Success(Some(addr))
  }

  /** The register numbered zero, as `0.into()` builds it. */
  const R0: Register := Index(0)

  /** The register named "R4", as `"R4".into()` builds it. */
  const R4: Register := Name("R4")

  /**
   * `gen_load`: ORI alone when the high half is zero, ORIU alone when only the
   * low half is zero, and ORI then ORIU otherwise.
   */
  function GenLoadResult(a: Asm, dst: Register, imm: bv32): (Asm, Outcome<DynAsmError>) {
    var lowZero := imm & 0xFFFF == 0;
    var highZero := imm & 0xFFFF_0000 == 0;
    var low := (imm & 0xFFFF) as bv16;
    var high := ((imm >> 16) & 0xFFFF) as bv16;
    if !highZero && !lowZero then
      var (a1, o1) := GenResult(a, IType(ORI, dst, R0, low));
      if o1.Fail? then (a1, o1) else GenResult(a1, IType(ORIU, dst, dst, high))
    else if !highZero then GenResult(a, IType(ORIU, dst, R0, high))
    else GenResult(a, IType(ORI, dst, R0, low))
  }

  /**
   * `gen_load_symbol`: ORI and ORIU with the placeholder 0xDEAD, each followed
   * by a fixup of its immediate; the first error stops the sequence.
   */
  function GenLoadSymbolResult(a: Asm, dst: Register, s: Sym): (r: (Asm, Outcome<DynAsmError>))
    ensures r.1.Pass? ==> |r.0.memory| == |a.memory| + 12
  {
    var (a1, o1) := GenResult(a, IType(ORI, dst, R0, 0xDEAD));
    if o1.Fail? then (a1, o1) else
    var (a2, o2) := SymFixupResult(a1, s, LowImm);
    if o2.Fail? then (a2, o2) else
    var (a3, o3) := GenResult(a2, IType(ORIU, dst, dst, 0xDEAD));
    if o3.Fail? then (a3, o3) else
    SymFixupResult(a3, s, HighImm)
  }

  /** `gen_jump`: load the symbol's address into R4 and jump through it. */
  function GenJumpResult(a: Asm, s: Sym): (r: (Asm, Outcome<DynAsmError>))
    ensures r.1.Pass? ==> |r.0.memory| == |a.memory| + 18
  {
    var (a1, o1) := GenLoadSymbolResult(a, R4, s);
    if o1.Fail? then (a1, o1) else GenResult(a1, Xj(R4))
  }

  /** `gen_header`: the fixed x86 prologue; its bytes are opaque to the model. */
  function GenHeaderResult(a: Asm): (r: Asm)
    ensures |r.memory| == |a.memory| + 11
    ensures r.memory[..|a.memory|] == a.memory && r.memory[|a.memory|..] == Header
    ensures r.base == a.base && r.symbols == a.symbols
  {
    a.(memory := a.memory + Header)
  }

  /** `gen_footer`: the closing `ret`. */
  function GenFooterResult(a: Asm): (r: Asm)
    ensures |r.memory| == |a.memory| + 1
    ensures r.memory[..|a.memory|] == a.memory && r.memory[|a.memory|..] == [0xC3]
    ensures r.base == a.base && r.symbols == a.symbols
  {
    a.(memory := a.memory + Footer)
  }

  // ---------------------------------------------------------------------------
  // The invariant: pending references stay patchable

  /** A patchable buffer has its references in bounds and before its end. */
  lemma PatchableBefore(a: Asm)
    requires Patchable(a)
    ensures RefsBefore(a, |a.memory|)
  {
    forall k | 0 <= k < |a.symbols|
      ensures UnitsBefore(Refs(a.symbols[k]), |a.memory|)
    {
      var refs := Refs(a.symbols[k]);
      assert RefsValid(a.memory, refs);
      forall j | 0 <= j < |refs| ensures refs[j].offset + 6 <= |a.memory| {
        assert IsIUnit(a.memory, refs[j].offset);
      }
    }
  }

  /** References pointing at I-type units are in bounds. */
  lemma ValidInBounds(mem: seq<bv8>, refs: seq<SymRef>)
    requires RefsValid(mem, refs)
    ensures RefsInBounds(mem, refs) && UnitsBefore(refs, |mem|)
  {
    forall j | 0 <= j < |refs| ensures refs[j].offset + 6 <= |mem| {
      assert IsIUnit(mem, refs[j].offset);
    }
  }

  /** A fresh entry has no pending references, so the invariants carry over. */
  lemma NewSymInBounds(a: Asm)
    requires InBounds(a)
    ensures InBounds(NewSymResult(a).0)
  {
    var a1 := NewSymResult(a).0;
    forall k | 0 <= k < |a1.symbols| ensures RefsInBounds(a1.memory, Refs(a1.symbols[k])) {
      if k < |a.symbols| {
        assert a1.symbols[k] == a.symbols[k];
      }
    }
  }

  lemma NewSymPatchable(a: Asm)
    requires Patchable(a)
    ensures Patchable(NewSymResult(a).0)
  {
    var a1 := NewSymResult(a).0;
    NewSymInBounds(a);
    assert forall k :: 0 <= k < |a.symbols| ==> a1.symbols[k] == a.symbols[k];
    assert Refs(a1.symbols[|a.symbols|]) == [];
  }

  /** Appending bytes keeps every I-type unit and what it decodes to. */
  lemma RefsExtend(mem: seq<bv8>, tail: seq<bv8>, refs: seq<SymRef>)
    requires RefsValid(mem, refs)
    ensures RefsValid(mem + tail, refs)
  {
    forall j | 0 <= j < |refs| ensures IsIUnit(mem + tail, refs[j].offset) {
      var o := refs[j].offset;
      assert IsIUnit(mem, o);
      assert (mem + tail)[o..o + 6] == mem[o..o + 6] by {
        assert o + 6 <= |mem|;
        assert forall i | o <= i < o + 6 :: (mem + tail)[i] == mem[i];
      }
      IUnitFrame(mem, mem + tail, o);
    }
  }

  lemma AppendPatchable(a: Asm, tail: seq<bv8>)
    requires Patchable(a)
    ensures Patchable(a.(memory := a.memory + tail))
  {
    var a1 := a.(memory := a.memory + tail);
    forall k | 0 <= k < |a.symbols| ensures RefsValid(a1.memory, Refs(a.symbols[k])) && RefsInBounds(a1.memory, Refs(a.symbols[k])) {
      RefsExtend(a.memory, tail, Refs(a.symbols[k]));
      ValidInBounds(a1.memory, Refs(a.symbols[k]));
    }
  }

  /** An entry whose references did not change, over the same buffer, keeps the invariant. */
  lemma SameRefsPatchable(a: Asm, a1: Asm)
    requires Patchable(a) && a1.memory == a.memory && |a1.symbols| == |a.symbols|
    requires forall k :: 0 <= k < |a.symbols| ==> Refs(a1.symbols[k]) == Refs(a.symbols[k])
    ensures Patchable(a1)
  {
  }

  /** References whose units lie before the one rewritten range keep their units. */
  lemma RefsFrame(mem: seq<bv8>, m: seq<bv8>, refs: seq<SymRef>, lo: int, hi: int)
    requires RefsValid(mem, refs) && |m| == |mem| && UnitsBefore(refs, lo)
    requires forall p :: 0 <= p < |mem| && !(lo <= p < hi) ==> m[p] == mem[p]
    ensures RefsValid(m, refs)
  {
    forall j | 0 <= j < |refs| ensures IsIUnit(m, refs[j].offset) {
      var o := refs[j].offset;
      assert IsIUnit(mem, o);
      SameUnit(mem, m, o);
      IUnitFrame(mem, m, o);
    }
  }

  /** References apart from every patched reference keep their units when only the patched immediates change. */
  lemma RefsFrameImm(mem: seq<bv8>, m: seq<bv8>, refs: seq<SymRef>, patched: seq<SymRef>)
    requires RefsValid(mem, refs) && |m| == |mem| && Disjoint(refs, patched)
    requires forall p :: 0 <= p < |mem| && !InImm(patched, p) ==> m[p] == mem[p]
    ensures RefsValid(m, refs)
  {
    forall j | 0 <= j < |refs| ensures IsIUnit(m, refs[j].offset) {
      var o := refs[j].offset;
      assert IsIUnit(mem, o);
      forall p | o <= p < o + 6 ensures m[p] == mem[p] {
        forall j' | 0 <= j' < |patched| ensures Apart(o, patched[j'].offset) {
          assert Apart(refs[j].offset, patched[j'].offset);
        }
        ApartNotInImm(patched, o, p);
      }
      SameUnit(mem, m, o);
      IUnitFrame(mem, m, o);
    }
  }

  /** A reference to a unit after all others can join a valid list. */
  lemma RefsValidAppend(mem: seq<bv8>, refs: seq<SymRef>, r: SymRef)
    requires RefsValid(mem, refs) && IsIUnit(mem, r.offset) && UnitsBefore(refs, r.offset)
    ensures RefsValid(mem, refs + [r])
  {
    var rs := refs + [r];
    forall j | 0 <= j < |rs| ensures IsIUnit(mem, rs[j].offset) {
      if j < |refs| { assert rs[j] == refs[j]; }
    }
    forall j, k | 0 <= j < |rs| && 0 <= k < |rs| && j != k ensures Apart(rs[j].offset, rs[k].offset) {
      if j < |refs| { assert rs[j] == refs[j]; }
      if k < |refs| { assert rs[k] == refs[k]; }
    }
  }

  /** A reference to a unit after all of another list's units keeps the two lists disjoint. */
  lemma DisjointAppend(other: seq<SymRef>, refs: seq<SymRef>, r: SymRef)
    requires Disjoint(other, refs) && UnitsBefore(other, r.offset)
    ensures Disjoint(other, refs + [r]) && Disjoint(refs + [r], other)
  {
    var rs := refs + [r];
    forall j, j' | 0 <= j < |other| && 0 <= j' < |rs| ensures Apart(other[j].offset, rs[j'].offset) {
      if j' < |refs| { assert rs[j'] == refs[j']; }
    }
  }

  /** The two lists of two distinct entries of a patchable state are disjoint both ways. */
  lemma PatchableDisjoint(a: Asm, k: nat, k': nat)
    requires Patchable(a) && k < |a.symbols| && k' < |a.symbols| && k != k'
    ensures Disjoint(Refs(a.symbols[k]), Refs(a.symbols[k']))
  {
  }

  /** Queuing a reference to the last unit on a pending symbol keeps the invariant. */
  lemma FixupQueuePatchable(a: Asm, s: Sym, kind: SymRefKind)
    requires Patchable(a) && |a.memory| >= 6 && s.index < |a.symbols| && a.symbols[s.index].Unresolved?
    requires IsIUnit(a.memory, |a.memory| - 6) && RefsBefore(a, |a.memory| - 6)
    ensures Patchable(SymFixupResult(a, s, kind).0)
  {
    var L := |a.memory| - 6;
    var ref := SymRef(kind, L);
    var refs := a.symbols[s.index].refs;
    var a1 := SymFixupResult(a, s, kind).0;
    assert a1.symbols == a.symbols[s.index := Unresolved(refs + [ref])];
    assert Refs(a.symbols[s.index]) == refs;
    assert UnitsBefore(refs, L);
    RefsValidAppend(a.memory, refs, ref);
    ValidInBounds(a.memory, refs + [ref]);
    forall k | 0 <= k < |a.symbols| && k != s.index
      ensures Disjoint(Refs(a1.symbols[k]), Refs(a1.symbols[s.index]))
      ensures Disjoint(Refs(a1.symbols[s.index]), Refs(a1.symbols[k]))
    {
      assert a1.symbols[k] == a.symbols[k];
      PatchableDisjoint(a, k, s.index);
      assert UnitsBefore(Refs(a.symbols[k]), L);
      DisjointAppend(Refs(a.symbols[k]), refs, ref);
    }
    assert forall k :: 0 <= k < |a.symbols| && k != s.index ==> a1.symbols[k] == a.symbols[k];
  }

  /** Patching the last unit for a resolved symbol keeps the invariant: every pending unit lies before it. */
  lemma FixupPatchPatchable(a: Asm, s: Sym, kind: SymRefKind)
    requires Patchable(a) && |a.memory| >= 6 && s.index < |a.symbols| && a.symbols[s.index].Resolved?
    requires IsIUnit(a.memory, |a.memory| - 6) && RefsBefore(a, |a.memory| - 6)
    ensures Patchable(SymFixupResult(a, s, kind).0)
  {
    var L := |a.memory| - 6;
    var ref := SymRef(kind, L);
    var addr := a.symbols[s.index].addr;
    ResolveIUnitBytes(a.memory, ref, addr);
    var m := ResolveRef(a.memory, ref, addr).value;
    forall k | 0 <= k < |a.symbols| ensures RefsValid(m, Refs(a.symbols[k])) && RefsInBounds(m, Refs(a.symbols[k])) {
      assert UnitsBefore(Refs(a.symbols[k]), L);
      RefsFrame(a.memory, m, Refs(a.symbols[k]), L, L + 6);
      ValidInBounds(m, Refs(a.symbols[k]));
    }
    assert Patchable(a.(memory := m));
  }

  /**
   * `sym_fixup` keeps the invariant when the last unit is an I-type unit and
   * every pending reference lies before it.
   */
  lemma FixupPatchable(a: Asm, s: Sym, kind: SymRefKind)
    requires Patchable(a) && |a.memory| >= 6
    requires IsIUnit(a.memory, |a.memory| - 6) && RefsBefore(a, |a.memory| - 6)
    ensures Patchable(SymFixupResult(a, s, kind).0)
  {
    if s.index < |a.symbols| {
      if a.symbols[s.index].Unresolved? {
        FixupQueuePatchable(a, s, kind);
      } else {
        FixupPatchPatchable(a, s, kind);
      }
    }
  }

  /**
   * Resolving a symbol keeps the invariant: a redefinition changes no
   * reference list, and patching one symbol's units leaves every other
   * symbol's units alone, its own references being dropped.
   */
  lemma SymResolvePatchable(a: Asm, s: Sym, addr: bv32)
    requires Patchable(a)
    ensures Patchable(SymResolveResult(a, s, addr).0)
  {
    if s.index < |a.symbols| {
      var symbols := a.symbols[s.index := Resolved(addr)];
      match a.symbols[s.index]
      case Resolved(_) =>
        SameRefsPatchable(a, a.(symbols := symbols));
      case Unresolved(refs) =>
        assert Refs(a.symbols[s.index]) == refs;
        assert RefsValid(a.memory, refs);
        PatchAllBytes(a.memory, refs, addr);
        var m := PatchAll(a.memory, refs, addr).0;
        var a1 := a.(memory := m, symbols := symbols);
        assert SymResolveResult(a, s, addr).0 == a1;
        forall k | 0 <= k < |symbols|
          ensures RefsValid(m, Refs(symbols[k])) && RefsInBounds(m, Refs(symbols[k]))
        {
          if k != s.index {
            assert symbols[k] == a.symbols[k];
            PatchableDisjoint(a, k, s.index);
            RefsFrameImm(a.memory, m, Refs(a.symbols[k]), refs);
            ValidInBounds(m, Refs(symbols[k]));
          }
        }
        forall k, k' | 0 <= k < |symbols| && 0 <= k' < |symbols| && k != k'
          ensures Disjoint(Refs(symbols[k]), Refs(symbols[k']))
        {
          if k != s.index && k' != s.index {
            PatchableDisjoint(a, k, k');
          }
        }
    }
  }

  lemma GenPatchable(a: Asm, i: Instruction)
    requires Patchable(a)
    ensures Patchable(GenResult(a, i).0)
  {
    if Encode(i).Success? {
      AppendPatchable(a, Encode(i).value);
    }
  }

  lemma GenLoadPatchable(a: Asm, dst: Register, imm: bv32)
    requires Patchable(a)
    ensures Patchable(GenLoadResult(a, dst, imm).0)
  {
    var low := (imm & 0xFFFF) as bv16;
    GenPatchable(a, IType(ORI, dst, R0, low));
    GenPatchable(GenResult(a, IType(ORI, dst, R0, low)).0, IType(ORIU, dst, dst, ((imm >> 16) & 0xFFFF) as bv16));
    GenPatchable(a, IType(ORIU, dst, R0, ((imm >> 16) & 0xFFFF) as bv16));
  }

  // ---------------------------------------------------------------------------
  // Emitting I-type units

  /** The I-type opcodes' codes are 0x08 to 0x0F. */
  lemma ITypeCodeOf(op: Opcode)
    requires IsIType(op)
    ensures IsITypeCode(OpcodeCode(op))
  {
  }

  /** An encodable I-type instruction's word carries an I-type opcode code. */
  lemma EncodedIUnit(i: Instruction)
    requires IsIType(i.opcode) && Encode(i).Success?
    ensures IsITypeCode(EncodeWord(i).value >> 26)
  {
    var w := EncodeWord(i).value;
    ITypeWord(i, w, OpcodeCode(i.opcode));
    ITypePackedOp(w, OpcodeCode(i.opcode), RegisterBits(i.rs.value).value, RegisterBits(i.rt.value).value, i.imm.value);
    ITypeCodeOf(i.opcode);
  }

  /** One step of PatchAll over a suffix of the references. */
  lemma PatchAllStep(m: seq<bv8>, refs: seq<SymRef>, i: nat, addr: bv32)
    requires i < |refs| && RefsInBounds(m, refs[i..])
    ensures refs[i].offset <= |m|
    ensures ResolveRef(m, refs[i], addr).Failure? ==>
      PatchAll(m, refs[i..], addr) == (m, Fail(ResolveRef(m, refs[i], addr).error))
    ensures ResolveRef(m, refs[i], addr).Success? ==>
      && RefsInBounds(ResolveRef(m, refs[i], addr).value, refs[i + 1..])
      && PatchAll(m, refs[i..], addr) == PatchAll(ResolveRef(m, refs[i], addr).value, refs[i + 1..], addr)
  {
    assert refs[i..][0] == refs[i] && refs[i..][1..] == refs[i + 1..];
  }

  /** A unit appended to a buffer sits at the old length. */
  lemma IUnitAppended(mem: seq<bv8>, u: seq<bv8>, w: bv32)
    requires |u| == 6 && u[..2] == UnitHeader && WordFromLe(u[2..6]) == w && IsITypeCode(w >> 26)
    ensures IsIUnit(mem + u, |mem|) && WordFromLe((mem + u)[|mem| + 2..|mem| + 6]) == w
  {
    var m := mem + u;
    assert m[|mem|..|mem| + 2] == u[..2];
    assert m[|mem| + 2..|mem| + 6] == u[2..6];
  }

  /** `gen` of an encodable I-type instruction leaves an I-type unit at the old length. */
  lemma GenIUnit(a: Asm, i: Instruction)
    requires IsIType(i.opcode) && Encode(i).Success?
    ensures GenResult(a, i).1 == Pass && IsIUnit(GenResult(a, i).0.memory, |a.memory|)
  {
    EncodedIUnit(i);
    IUnitAppended(a.memory, Encode(i).value, EncodeWord(i).value);
    assert GenResult(a, i).0.memory == a.memory + Encode(i).value;
  }

  /** After an I-type unit is emitted, a reference to it may be recorded. */
  lemma FixupReady(a: Asm, i: Instruction)
    requires Patchable(a) && IsIType(i.opcode) && GenResult(a, i).1 == Pass
    ensures var a1 := GenResult(a, i).0;
      && Patchable(a1) && |a1.memory| >= 6
      && IsIUnit(a1.memory, |a1.memory| - 6) && RefsBefore(a1, |a1.memory| - 6)
  {
    GenPatchable(a, i);
    GenIUnit(a, i);
    PatchableBefore(a);
  }

  /** An I-type instruction with two valid registers encodes. */
  lemma ITypeEncodes(op: Opcode, dst: Register, src: Register, imm: bv16)
    requires IsIType(op) && ValidRegister(dst) && ValidRegister(src)
    ensures Encode(IType(op, dst, src, imm)).Success?
  {
    ITypeEncodable(IType(op, dst, src, imm));
  }

  /** An I-type instruction with an invalid destination fails on that register (rs, the source, is checked first). */
  lemma ITypeBadDst(op: Opcode, dst: Register, src: Register, imm: bv16)
    requires IsIType(op) && !ValidRegister(dst) && ValidRegister(src)
    ensures Encode(IType(op, dst, src, imm)) == Failure(RegisterBits(dst).error)
  {
  }

  /** Two packed I-type words differing in the immediate only: patching one gives the other. */
  lemma PatchPacked(w: bv32, w': bv32, code: bv32, x: bv32, y: bv32, imm: bv16, h: bv16)
    requires ITypePacked(w, code, x, y, imm) && ITypePacked(w', code, x, y, h)
    ensures PatchedWord(w, h) == w'
  {
    ITypeReadBack(w, code, x, y, imm);
  }

  /** Replacing the immediate of an encoded I-type word gives the word of the instruction with the new immediate. */
  lemma PatchedIType(op: Opcode, dst: Register, src: Register, imm: bv16, h: bv16)
    requires IsIType(op) && Encode(IType(op, dst, src, imm)).Success?
    ensures Encode(IType(op, dst, src, h)).Success?
    ensures PatchedWord(EncodeWord(IType(op, dst, src, imm)).value, h) == EncodeWord(IType(op, dst, src, h)).value
  {
    var i := IType(op, dst, src, imm);
    var i' := IType(op, dst, src, h);
    ITypeEncodable(i);
    ITypeEncodable(i');
    var w := EncodeWord(i).value;
    var w' := EncodeWord(i').value;
    ITypeWord(i, w, OpcodeCode(op));
    ITypeWord(i', w', OpcodeCode(op));
    PatchPacked(w, w', OpcodeCode(op), RegisterBits(src).value, RegisterBits(dst).value, imm, h);
  }

  /** Patching a unit just appended is appending the patched unit. */
  lemma SpliceAppended(mem: seq<bv8>, u: seq<bv8>, w: bv32, h: bv16)
    requires |u| == 6 && u[..2] == UnitHeader && WordFromLe(u[2..6]) == w && IsITypeCode(w >> 26)
    ensures IsIUnit(mem + u, |mem|)
    ensures Splice(mem + u, |mem|, h) == mem + (UnitHeader + LeBytes(PatchedWord(w, h)))
  {
    IUnitAppended(mem, u, w);
    var m := mem + u;
    assert m[..|mem|] == mem;
    assert m[|mem| + 6..] == [];
  }

  /** The bytes of an encoding are the header and the word's little-endian bytes. */
  lemma EncodeBytes(i: Instruction)
    requires Encode(i).Success?
    ensures Encode(i).value == UnitHeader + LeBytes(EncodeWord(i).value)
  {
  }

  /** Patching a unit just appended is appending the patched unit. */
  lemma PatchAppended(mem: seq<bv8>, u: seq<bv8>, w: bv32, kind: SymRefKind, addr: bv32)
    requires |u| == 6 && u[..2] == UnitHeader && WordFromLe(u[2..6]) == w && IsITypeCode(w >> 26)
    ensures ResolveRef(mem + u, SymRef(kind, |mem|), addr) ==
      Success(mem + (UnitHeader + LeBytes(PatchedWord(w, Half(kind, addr)))))
  {
    SpliceAppended(mem, u, w, Half(kind, addr));
    ResolveIUnitValue(mem + u, SymRef(kind, |mem|), addr);
  }

  /** The encoding of an I-type instruction with its immediate replaced, in terms of the placeholder encoding. */
  lemma PatchedITypeBytes(op: Opcode, dst: Register, src: Register, imm: bv16, h: bv16)
    requires IsIType(op) && Encode(IType(op, dst, src, imm)).Success?
    ensures Encode(IType(op, dst, src, h)) ==
      Success(UnitHeader + LeBytes(PatchedWord(EncodeWord(IType(op, dst, src, imm)).value, h)))
  {
    PatchedIType(op, dst, src, imm, h);
    EncodeBytes(IType(op, dst, src, h));
  }

  /** A fixup of a resolved symbol right after emitting an I-type unit is emitting it with the half already in place. */
  lemma FixupResolvedAppended(a: Asm, op: Opcode, dst: Register, src: Register, s: Sym, kind: SymRefKind, addr: bv32)
    requires IsIType(op) && ValidRegister(dst) && ValidRegister(src)
    requires Lookup(a.symbols, s) == Success(Resolved(addr))
    ensures var a1 := GenResult(a, IType(op, dst, src, 0xDEAD)).0;
      && |a1.memory| >= 6
      && SymFixupResult(a1, s, kind) ==
         (a.(memory := a.memory + Encode(IType(op, dst, src, Half(kind, addr))).value), Pass)
  {
    var i := IType(op, dst, src, 0xDEAD);
    ITypeEncodes(op, dst, src, 0xDEAD);
    var u := Encode(i).value;
    var w := EncodeWord(i).value;
    assert GenResult(a, i).0 == a.(memory := a.memory + u);
    EncodedIUnit(i);
    PatchAppended(a.memory, u, w, kind, addr);
    PatchedITypeBytes(op, dst, src, 0xDEAD, Half(kind, addr));
  }

  /** A fixup of an unresolved symbol queues a reference to the unit just emitted. */
  lemma FixupUnresolvedAppended(a: Asm, op: Opcode, dst: Register, src: Register, s: Sym, kind: SymRefKind, refs: seq<SymRef>)
    requires IsIType(op) && ValidRegister(dst) && ValidRegister(src)
    requires Lookup(a.symbols, s) == Success(Unresolved(refs))
    ensures var a1 := GenResult(a, IType(op, dst, src, 0xDEAD)).0;
      && |a1.memory| >= 6
      && SymFixupResult(a1, s, kind) ==
         (a1.(symbols := a.symbols[s.index := Unresolved(refs + [SymRef(kind, |a.memory|)])]), Pass)
  {
    ITypeEncodes(op, dst, src, 0xDEAD);
  }

  // ---------------------------------------------------------------------------
  // What the operations do

  /** An out-of-range handle: `sym_resolve` reports InvalidSym and changes nothing. */
  lemma SymResolveInvalid(a: Asm, s: Sym, addr: bv32)
    requires InBounds(a) && s.index >= |a.symbols|
    ensures SymResolveResult(a, s, addr) == (a, Fail(InvalidSym))
  {
  }

  /**
   * A symbol resolved twice: SymbolRedefined, the buffer untouched, but the
   * table already holds the new address.
   */
  lemma SymResolveRedefined(a: Asm, s: Sym, addr: bv32)
    requires InBounds(a) && s.index < |a.symbols| && a.symbols[s.index].Resolved?
    ensures var (a1, o) := SymResolveResult(a, s, addr);
      && o == Fail(SymbolRedefined)
      && a1.memory == a.memory && a1.base == a.base
      && SymAddrOf(a1, s) == Success(Some(addr))
      && |a1.symbols| == |a.symbols|
      && (forall k :: 0 <= k < |a.symbols| && k != s.index ==> a1.symbols[k] == a.symbols[k])
  {
  }

  /**
   * Resolving a pending symbol in a patchable state succeeds; afterwards the
   * symbol's address is known, each of its references decodes to its old
   * instruction with the matching half of the address as immediate, no byte
   * outside those immediates changed, and the invariant still holds.
   */
  lemma SymResolvePatches(a: Asm, s: Sym, addr: bv32)
    requires Patchable(a) && s.index < |a.symbols| && a.symbols[s.index].Unresolved?
    ensures var (a1, o) := SymResolveResult(a, s, addr);
      var refs := a.symbols[s.index].refs;
      && o == Pass
      && SymAddrOf(a1, s) == Success(Some(addr))
      && |a1.memory| == |a.memory| && a1.base == a.base
      && (forall j :: 0 <= j < |refs| ==>
            Decode(a1.memory[refs[j].offset..]) == WithImm(Decode(a.memory[refs[j].offset..]), Half(refs[j].kind, addr)))
      && (forall p :: 0 <= p < |a.memory| && !InImm(refs, p) ==> a1.memory[p] == a.memory[p])
      && Patchable(a1)
  {
    var refs := a.symbols[s.index].refs;
    assert Refs(a.symbols[s.index]) == refs;
    PatchAllEffect(a.memory, refs, addr);
    PatchAllBytes(a.memory, refs, addr);
    SymResolvePatchable(a, s, addr);
  }

  /** `new_sym_here` cannot fail: the fresh symbol has no references, and it is bound to the current address. */
  lemma NewSymHereResolves(a: Asm)
    requires InBounds(a) && a.base as int + |a.memory| < U32Limit
    ensures var (a1, s) := NewSymResult(a);
      InBounds(a1) && SymResolveResult(a1, s, AddrOf(a)).1 == Pass
    ensures var (a2, s) := NewSymHereResult(a);
      && s.index == |a.symbols| && a2.memory == a.memory && a2.base == a.base
      && a2.symbols == a.symbols + [Resolved(AddrOf(a))]
      && SymAddrOf(a2, s) == Success(Some(AddrOf(a)))
  {
    var (a1, s) := NewSymResult(a);
    NewSymInBounds(a);
    var addr := AddrOf(a);
    assert a1.symbols[s.index] == Unresolved([]);
    assert PatchAll(a1.memory, [], addr) == (a.memory, Pass);
    var r := SymResolveResult(a1, s, addr);
    assert r == (a1.(symbols := a1.symbols[s.index := Resolved(addr)]), Pass);
    assert a1.symbols[s.index := Resolved(addr)] == a.symbols + [Resolved(addr)];
  }

  lemma NewSymHerePatchable(a: Asm)
    requires Patchable(a) && a.base as int + |a.memory| < U32Limit
    ensures Patchable(NewSymHereResult(a).0)
  {
    var (a1, s) := NewSymResult(a);
    NewSymPatchable(a);
    SymResolvePatchable(a1, s, AddrOf(a));
  }

  /** The loads `gen_load` emits for `imm`: each step's opcode and immediate. */
  function LoadPlan(imm: bv32): (p: seq<(Opcode, bv16)>)
    ensures 1 <= |p| <= 2
  {
    var low := (imm & 0xFFFF) as bv16;
    var high := (imm >> 16) as bv16;
    if high == 0 then [(ORI, low)]
    else if low == 0 then [(ORIU, high)]
    else [(ORI, low), (ORIU, high)]
  }

  /** The 32-bit value a plan's immediates make up: ORI supplies the low half, ORIU the high half. */
  function PlanValue(p: seq<(Opcode, bv16)>): bv32 {
    if p == [] then 0
    else (if p[0].0 == ORIU then (p[0].1 as bv32) << 16 else p[0].1 as bv32) | PlanValue(p[1..])
  }

  /** With the high half clear, the low half alone is the value. */
  lemma LowHalfOnly(imm: bv32)
    requires (imm >> 16) as bv16 == 0
    ensures ((imm & 0xFFFF) as bv16) as bv32 == imm
  {
  }

  /** With the low half clear, the high half shifted up is the value. */
  lemma HighHalfOnly(imm: bv32)
    requires (imm & 0xFFFF) as bv16 == 0
    ensures (((imm >> 16) as bv16) as bv32) << 16 == imm
  {
  }

  lemma OrZero(x: bv32)
    ensures x | 0 == x
  {
  }

  /** The two halves together are the value. */
  lemma BothHalves(imm: bv32)
    ensures (((imm & 0xFFFF) as bv16) as bv32) | ((((imm >> 16) as bv16) as bv32) << 16) == imm
  {
  }

  /** The value of a one-step and of a two-step plan. */
  lemma PlanValueOne(op: Opcode, h: bv16)
    ensures PlanValue([(op, h)]) == if op == ORIU then (h as bv32) << 16 else h as bv32
  {
    var p := [(op, h)];
    assert p[1..] == [];
    OrZero(if op == ORIU then (h as bv32) << 16 else h as bv32);
  }

  lemma PlanValueTwo(low: bv16, high: bv16)
    ensures PlanValue([(ORI, low), (ORIU, high)]) == (low as bv32) | ((high as bv32) << 16)
  {
    var p := [(ORI, low), (ORIU, high)];
    assert p[1..] == [(ORIU, high)];
    PlanValueOne(ORIU, high);
  }

  lemma PlanValueLowOnly(imm: bv32)
    requires (imm >> 16) as bv16 == 0
    ensures PlanValue(LoadPlan(imm)) == imm
  {
    var low := (imm & 0xFFFF) as bv16;
    assert LoadPlan(imm) == [(ORI, low)];
    PlanValueOne(ORI, low);
    LowHalfOnly(imm);
  }

  lemma PlanValueHighOnly(imm: bv32)
    requires (imm >> 16) as bv16 != 0 && (imm & 0xFFFF) as bv16 == 0
    ensures PlanValue(LoadPlan(imm)) == imm
  {
    var high := (imm >> 16) as bv16;
    assert LoadPlan(imm) == [(ORIU, high)];
    PlanValueOne(ORIU, high);
    HighHalfOnly(imm);
  }

  lemma PlanValueBoth(imm: bv32)
    requires (imm >> 16) as bv16 != 0 && (imm & 0xFFFF) as bv16 != 0
    ensures PlanValue(LoadPlan(imm)) == imm
  {
    var low := (imm & 0xFFFF) as bv16;
    var high := (imm >> 16) as bv16;
    assert LoadPlan(imm) == [(ORI, low), (ORIU, high)];
    PlanValueTwo(low, high);
    BothHalves(imm);
  }

  /** The emitted immediates put `imm` back together: low | high << 16 == imm. */
  lemma LoadPlanValue(imm: bv32)
    ensures PlanValue(LoadPlan(imm)) == imm
  {
    if (imm >> 16) as bv16 == 0 {
      PlanValueLowOnly(imm);
    } else if (imm & 0xFFFF) as bv16 == 0 {
      PlanValueHighOnly(imm);
    } else {
      PlanValueBoth(imm);
    }
  }

  /** The instructions of a plan: the first loads from R0, later ones OR into the destination itself. */
  function PlanInstructions(dst: Register, p: seq<(Opcode, bv16)>, src: Register): (r: seq<Instruction>)
    ensures |r| == |p|
  {
    if p == [] then [] else [IType(p[0].0, dst, src, p[0].1)] + PlanInstructions(dst, p[1..], dst)
  }

  /** The bytes of a sequence of instructions, or the first encoding error. */
  function EncodeAll(ins: seq<Instruction>): (r: Result<seq<bv8>, Ais.AisError>)
    ensures r.Success? ==> |r.value| == 6 * |ins|
  {
    if ins == [] then Success([])
    else if Encode(ins[0]).Failure? then Failure(Encode(ins[0]).error)
    else
      var rest := EncodeAll(ins[1..]);
      if rest.Failure? then rest else Success(Encode(ins[0]).value + rest.value)
  }

  /** One more instruction in front: its error wins, else its unit comes before the rest. */
  lemma EncodeAllCons(i: Instruction, rest: seq<Instruction>)
    ensures EncodeAll([i] + rest) ==
      if Encode(i).Failure? then Failure(Encode(i).error)
      else if EncodeAll(rest).Failure? then EncodeAll(rest)
      else Success(Encode(i).value + EncodeAll(rest).value)
  {
    assert ([i] + rest)[1..] == rest;
  }

  /**
   * `gen_load` emits exactly the plan: with a valid destination it succeeds
   * and appends the plan's units (6 or 12 bytes); with an invalid one it
   * fails on that register and changes nothing.
   */
  lemma GenLoadEmits(a: Asm, dst: Register, imm: bv32)
    ensures var (a1, o) := GenLoadResult(a, dst, imm);
      var ins := PlanInstructions(dst, LoadPlan(imm), R0);
      && (ValidRegister(dst) ==>
            && o == Pass && EncodeAll(ins).Success?
            && a1 == a.(memory := a.memory + EncodeAll(ins).value))
      && (!ValidRegister(dst) ==> a1 == a && o == Fail(AisError(RegisterBits(dst).error)))
  {
    if ValidRegister(dst) {
      GenLoadValid(a, dst, imm);
    } else {
      GenLoadInvalid(a, dst, imm);
    }
  }

  lemma GenLoadValid(a: Asm, dst: Register, imm: bv32)
    requires ValidRegister(dst)
    ensures var ins := PlanInstructions(dst, LoadPlan(imm), R0);
      && EncodeAll(ins).Success?
      && GenLoadResult(a, dst, imm) == (a.(memory := a.memory + EncodeAll(ins).value), Pass)
  {
    var low := (imm & 0xFFFF) as bv16;
    var high := (imm >> 16) as bv16;
    LoadHalves(imm);
    if high == 0 {
      GenOneUnit(a, ORI, dst, low);
    } else if low == 0 {
      GenOneUnit(a, ORIU, dst, high);
    } else {
      GenTwoUnits(a, dst, low, high);
    }
  }

  lemma GenLoadInvalid(a: Asm, dst: Register, imm: bv32)
    requires !ValidRegister(dst)
    ensures GenLoadResult(a, dst, imm) == (a, Fail(AisError(RegisterBits(dst).error)))
  {
    var low := (imm & 0xFFFF) as bv16;
    var high := ((imm >> 16) & 0xFFFF) as bv16;
    ITypeBadDst(ORI, dst, R0, low);
    ITypeBadDst(ORIU, dst, R0, high);
  }

  /** The zero tests and the high-half expression of `gen_load` in terms of the two halves. */
  lemma LoadHalves(imm: bv32)
    ensures ((imm >> 16) & 0xFFFF) as bv16 == (imm >> 16) as bv16
    ensures (imm & 0xFFFF_0000 == 0) <==> (imm >> 16) as bv16 == 0
    ensures (imm & 0xFFFF == 0) <==> (imm & 0xFFFF) as bv16 == 0
  {
    HighHalfMask(imm);
    HighZero(imm);
    LowZero(imm);
  }

  lemma HighHalfMask(imm: bv32)
    ensures ((imm >> 16) & 0xFFFF) as bv16 == (imm >> 16) as bv16
  {
  }

  lemma HighZero(imm: bv32)
    ensures (imm & 0xFFFF_0000 == 0) <==> (imm >> 16) as bv16 == 0
  {
  }

  lemma LowZero(imm: bv32)
    ensures (imm & 0xFFFF == 0) <==> (imm & 0xFFFF) as bv16 == 0
  {
  }

  /** A one-step plan emits its single unit. */
  lemma GenOneUnit(a: Asm, op: Opcode, dst: Register, h: bv16)
    requires IsIType(op) && ValidRegister(dst)
    ensures var ins := PlanInstructions(dst, [(op, h)], R0);
      EncodeAll(ins).Success? && GenResult(a, IType(op, dst, R0, h)) == (a.(memory := a.memory + EncodeAll(ins).value), Pass)
  {
    var i := IType(op, dst, R0, h);
    ITypeEncodes(op, dst, R0, h);
    var p := [(op, h)];
    assert p[1..] == [];
    var ins := PlanInstructions(dst, p, R0);
    assert ins == [i] && ins[1..] == [];
    assert EncodeAll(ins[1..]) == Success([]);
    assert EncodeAll(ins) == Success(Encode(i).value + []);
    assert Encode(i).value + [] == Encode(i).value;
  }

  /** A two-step plan emits ORI from R0, then ORIU from the destination itself. */
  lemma GenTwoUnits(a: Asm, dst: Register, low: bv16, high: bv16)
    requires ValidRegister(dst)
    ensures var ins := PlanInstructions(dst, [(ORI, low), (ORIU, high)], R0);
      var a1 := GenResult(a, IType(ORI, dst, R0, low)).0;
      && EncodeAll(ins).Success?
      && GenResult(a, IType(ORI, dst, R0, low)).1 == Pass
      && GenResult(a1, IType(ORIU, dst, dst, high)) == (a.(memory := a.memory + EncodeAll(ins).value), Pass)
  {
    ITypeEncodes(ORI, dst, R0, low);
    ITypeEncodes(ORIU, dst, dst, high);
    var i1 := IType(ORI, dst, R0, low);
    var i2 := IType(ORIU, dst, dst, high);
    PlanPair(dst, low, high);
    GenPair(a, i1, i2);
  }

  /** Emitting two encodable instructions appends their units, one after the other. */
  lemma GenPair(a: Asm, i1: Instruction, i2: Instruction)
    requires Encode(i1).Success? && Encode(i2).Success?
    ensures EncodeAll([i1, i2]).Success? && GenResult(a, i1).1 == Pass
    ensures GenResult(GenResult(a, i1).0, i2) == (a.(memory := a.memory + EncodeAll([i1, i2]).value), Pass)
  {
    EncodeAllPair(i1, i2);
    GenAppend(a, i1);
    var a1 := a.(memory := a.memory + Encode(i1).value);
    GenAppend(a1, i2);
    assert a1.memory + Encode(i2).value == a.memory + (Encode(i1).value + Encode(i2).value);
  }

  /** Emitting an encodable instruction appends its unit. */
  lemma GenAppend(a: Asm, i: Instruction)
    requires Encode(i).Success?
    ensures GenResult(a, i) == (a.(memory := a.memory + Encode(i).value), Pass)
  {
  }

  /** The two loads of a two-step plan. */
  lemma PlanPair(dst: Register, low: bv16, high: bv16)
    ensures PlanInstructions(dst, [(ORI, low), (ORIU, high)], R0) == [IType(ORI, dst, R0, low), IType(ORIU, dst, dst, high)]
  {
    var p := [(ORI, low), (ORIU, high)];
    assert p[1..] == [(ORIU, high)] && p[1..][1..] == [];
  }

  /** Two encodable instructions encode to their units one after the other. */
  lemma EncodeAllPair(i1: Instruction, i2: Instruction)
    requires Encode(i1).Success? && Encode(i2).Success?
    ensures EncodeAll([i1, i2]) == Success(Encode(i1).value + Encode(i2).value)
  {
    assert [i1, i2] == [i1] + [i2] && [i2] == [i2] + [];
    EncodeAllCons(i1, [i2]);
    EncodeAllCons(i2, []);
    assert Encode(i2).value + [] == Encode(i2).value;
  }

  /** The first unit `gen_load_symbol` emits, with the immediate `h`. */
  function LowUnit(dst: Register, h: bv16): Instruction {
    IType(ORI, dst, R0, h)
  }

  /** The second unit `gen_load_symbol` emits, with the immediate `h`. */
  function HighUnit(dst: Register, h: bv16): Instruction {
    IType(ORIU, dst, dst, h)
  }

  /** An invalid destination: nothing is emitted and the register error is reported. */
  lemma GenLoadSymbolBadDst(a: Asm, dst: Register, s: Sym)
    requires !ValidRegister(dst)
    ensures GenLoadSymbolResult(a, dst, s) == (a, Fail(AisError(RegisterBits(dst).error)))
  {
    ITypeBadDst(ORI, dst, R0, 0xDEAD);
  }

  /** An invalid handle: the first unit is already written when InvalidSym is reported. */
  lemma GenLoadSymbolInvalidSym(a: Asm, dst: Register, s: Sym)
    requires ValidRegister(dst) && s.index >= |a.symbols|
    ensures GenLoadSymbolResult(a, dst, s) ==
      (a.(memory := a.memory + Encode(LowUnit(dst, 0xDEAD)).value), Fail(InvalidSym))
  {
    ITypeEncodes(ORI, dst, R0, 0xDEAD);
  }

  /**
   * A pending symbol: both units are emitted with the placeholder and two
   * references are queued, the low half at the old length L and the high half at L + 6.
   */
  lemma GenLoadSymbolUnresolved(a: Asm, dst: Register, s: Sym)
    requires ValidRegister(dst) && s.index < |a.symbols| && a.symbols[s.index].Unresolved?
    ensures var L := |a.memory|;
      var refs := a.symbols[s.index].refs;
      GenLoadSymbolResult(a, dst, s) ==
        (a.(memory := a.memory + Encode(LowUnit(dst, 0xDEAD)).value + Encode(HighUnit(dst, 0xDEAD)).value,
            symbols := a.symbols[s.index := Unresolved(refs + [SymRef(LowImm, L), SymRef(HighImm, L + 6)])]),
         Pass)
  {
    var refs := a.symbols[s.index].refs;
    var L := |a.memory|;
    var lo := SymRef(LowImm, L);
    var hi := SymRef(HighImm, L + 6);
    FixupUnresolvedAppended(a, ORI, dst, R0, s, LowImm, refs);
    var a1 := GenResult(a, LowUnit(dst, 0xDEAD)).0;
    var a2 := a1.(symbols := a.symbols[s.index := Unresolved(refs + [lo])]);
    assert SymFixupResult(a1, s, LowImm) == (a2, Pass);
    assert Lookup(a2.symbols, s) == Success(Unresolved(refs + [lo]));
    FixupUnresolvedAppended(a2, ORIU, dst, dst, s, HighImm, refs + [lo]);
    var a3 := GenResult(a2, HighUnit(dst, 0xDEAD)).0;
    assert |a2.memory| == L + 6;
    assert SymFixupResult(a3, s, HighImm) == (a3.(symbols := a2.symbols[s.index := Unresolved(refs + [lo] + [hi])]), Pass);
    assert refs + [lo] + [hi] == refs + [lo, hi];
    assert a2.symbols[s.index := Unresolved(refs + [lo] + [hi])] == a.symbols[s.index := Unresolved(refs + [lo, hi])];
  }

  /** A resolved symbol: the two units are emitted with the two halves of its address, and no reference is queued. */
  lemma GenLoadSymbolResolved(a: Asm, dst: Register, s: Sym)
    requires ValidRegister(dst) && s.index < |a.symbols| && a.symbols[s.index].Resolved?
    ensures var addr := a.symbols[s.index].addr;
      GenLoadSymbolResult(a, dst, s) ==
        (a.(memory := a.memory + Encode(LowUnit(dst, Half(LowImm, addr))).value
                               + Encode(HighUnit(dst, Half(HighImm, addr))).value),
         Pass)
  {
    var addr := a.symbols[s.index].addr;
    FixupResolvedAppended(a, ORI, dst, R0, s, LowImm, addr);
    var a2 := a.(memory := a.memory + Encode(LowUnit(dst, Half(LowImm, addr))).value);
    FixupResolvedAppended(a2, ORIU, dst, dst, s, HighImm, addr);
  }

  /** Emitting an I-type unit and fixing it up for a valid handle passes and keeps the invariant. */
  lemma GenFixupPatchable(a: Asm, op: Opcode, dst: Register, src: Register, s: Sym, kind: SymRefKind)
    requires Patchable(a) && IsIType(op) && ValidRegister(dst) && ValidRegister(src) && s.index < |a.symbols|
    ensures var a1 := GenResult(a, IType(op, dst, src, 0xDEAD)).0;
      && GenResult(a, IType(op, dst, src, 0xDEAD)).1 == Pass && |a1.memory| >= 6
      && SymFixupResult(a1, s, kind).1 == Pass
      && Patchable(SymFixupResult(a1, s, kind).0)
  {
    var i := IType(op, dst, src, 0xDEAD);
    ITypeEncodes(op, dst, src, 0xDEAD);
    var a1 := GenResult(a, i).0;
    GenPatchable(a, i);
    GenIUnit(a, i);
    PatchableBefore(a);
    assert RefsBefore(a1, |a1.memory| - 6);
    FixupPatchable(a1, s, kind);
    if a.symbols[s.index].Unresolved? {
      FixupUnresolvedAppended(a, op, dst, src, s, kind, a.symbols[s.index].refs);
    } else {
      FixupResolvedAppended(a, op, dst, src, s, kind, a.symbols[s.index].addr);
    }
  }

  /** `gen_load_symbol` keeps the invariant. */
  lemma GenLoadSymbolPatchable(a: Asm, dst: Register, s: Sym)
    requires Patchable(a)
    ensures Patchable(GenLoadSymbolResult(a, dst, s).0)
  {
    if !ValidRegister(dst) {
      GenLoadSymbolBadDst(a, dst, s);
    } else if s.index >= |a.symbols| {
      GenLoadSymbolInvalidSym(a, dst, s);
      GenPatchable(a, LowUnit(dst, 0xDEAD));
    } else {
      GenFixupPatchable(a, ORI, dst, R0, s, LowImm);
      var a2 := SymFixupResult(GenResult(a, LowUnit(dst, 0xDEAD)).0, s, LowImm).0;
      assert |a2.symbols| == |a.symbols| by {
        if a.symbols[s.index].Unresolved? {
          FixupUnresolvedAppended(a, ORI, dst, R0, s, LowImm, a.symbols[s.index].refs);
        } else {
          FixupResolvedAppended(a, ORI, dst, R0, s, LowImm, a.symbols[s.index].addr);
        }
      }
      GenFixupPatchable(a2, ORIU, dst, dst, s, HighImm);
    }
  }

  /**
   * `gen_jump` on a valid handle: the 12 bytes of the symbol load into R4,
   * then an XJ unit that decodes to a jump through register 4.
   */
  lemma GenJumpEmits(a: Asm, s: Sym)
    requires s.index < |a.symbols|
    ensures var (a1, o) := GenJumpResult(a, s);
      var L := |a.memory|;
      && o == Pass && |a1.memory| == L + 18
      && a1.memory[..L + 12] == GenLoadSymbolResult(a, R4, s).0.memory
      && a1.memory[L + 12..] == Encode(Xj(R4)).value
      && Decode(a1.memory[L + 12..]) == Success((New(XJ).(rt := Some(Index(4))), 6))
  {
    RegisterNameBits("R4");
    assert ValidRegister(R4);
    if a.symbols[s.index].Unresolved? {
      GenLoadSymbolUnresolved(a, R4, s);
    } else {
      GenLoadSymbolResolved(a, R4, s);
    }
    XjLayout(Xj(R4));
    XjRoundTrip(Xj(R4));
  }

  lemma GenJumpPatchable(a: Asm, s: Sym)
    requires Patchable(a)
    ensures Patchable(GenJumpResult(a, s).0)
  {
    GenLoadSymbolPatchable(a, R4, s);
    GenPatchable(GenLoadSymbolResult(a, R4, s).0, Xj(R4));
  }

  // ---------------------------------------------------------------------------
  // The assembler object: the buffer and the table are updated in place

  class DynAsm {
    var base: bv32
    var memory: seq<bv8>
    var symbols: seq<Symbol>

    /** The fields as a value: the state the functions above act on. */
    function State(): Asm
      reads this
    {
      Asm(base, memory, symbols)
    }

    /** Every pending reference can be patched. */
    predicate Valid()
      reads this
    {
      Patchable(State())
    }

    /** `new`: an empty buffer and table at the given load address. */
    constructor(base: bv32)
      ensures State() == Asm(base, [], []) && Valid()
    {
      this.base := base;
      memory := [];
      symbols := [];
    }

    /** `sym_ref_resolve`: decode the unit at the reference, replace its immediate, re-encode it and copy it back. */
    method SymRefResolve(r: SymRef, addr: bv32) returns (o: Outcome<DynAsmError>)
      requires r.offset <= |memory|
      modifies this
      ensures base == old(base) && symbols == old(symbols)
      ensures o.Pass? <==> ResolveRef(old(memory), r, addr).Success?
      ensures o.Pass? ==> memory == ResolveRef(old(memory), r, addr).value
      ensures o.Fail? ==> memory == old(memory) && o.error == ResolveRef(old(memory), r, addr).error
    {
      var decoded := Decode(memory[r.offset..]);
      if decoded.Failure? {
        return Fail(AisError(decoded.error));
      }
      var (instr, len) := decoded.value;
      var patched := instr.(imm := Some(Half(r.kind, addr)));
      var newBytes := Encode(patched);
      if newBytes.Failure? {
        return Fail(AisError(newBytes.error));
      }
      if |newBytes.value| != len {
        return Fail(ResolveUnstable);
      }
      memory := memory[..r.offset] + newBytes.value + memory[r.offset + len..];
      return Pass;
    }

    /** The loop of `sym_resolve`: patch the references in order, stopping at the first failure. */
    method PatchRefs(refs: seq<SymRef>, addr: bv32) returns (o: Outcome<DynAsmError>)
      requires RefsInBounds(memory, refs)
      modifies this
      ensures base == old(base) && symbols == old(symbols)
      ensures (memory, o) == PatchAll(old(memory), refs, addr)
    {
      var i := 0;
      while i < |refs|
        invariant 0 <= i <= |refs|
        invariant base == old(base) && symbols == old(symbols)
        invariant |memory| == |old(memory)| && RefsInBounds(memory, refs[i..])
        invariant PatchAll(memory, refs[i..], addr) == PatchAll(old(memory), refs, addr)
      {
        PatchAllStep(memory, refs, i, addr);
        o := SymRefResolve(refs[i], addr);
        if o.Fail? {
          return;
        }
        i := i + 1;
      }
      return Pass;
    }

    /** `sym_resolve`: the entry is replaced first, then the old entry's references are patched in order. */
    method SymResolve(s: Sym, addr: bv32) returns (o: Outcome<DynAsmError>)
      requires Valid()
      modifies this
      ensures (State(), o) == SymResolveResult(old(State()), s, addr)
      ensures Valid()
    {
      SymResolvePatchable(State(), s, addr);
      if s.index >= |symbols| {
        return Fail(InvalidSym);
      }
      var old_ := symbols[s.index];
      assert RefsInBounds(memory, Refs(old_));
      symbols := symbols[s.index := Resolved(addr)];
      match old_
      case Resolved(_) =>
        return Fail(SymbolRedefined);
      case Unresolved(refs) =>
        o := PatchRefs(refs, addr);
    }

    /**
     * `sym_fixup`: record a reference to the last unit. Its callers have just
     * emitted an I-type unit there, after every pending reference.
     */
    method SymFixup(s: Sym, kind: SymRefKind) returns (o: Outcome<DynAsmError>)
      requires Valid() && |memory| >= 6
      requires IsIUnit(memory, |memory| - 6) && RefsBefore(State(), |memory| - 6)
      modifies this
      ensures (State(), o) == SymFixupResult(old(State()), s, kind)
      ensures Valid()
    {
      ghost var a := State();
      FixupPatchable(a, s, kind);
      var ref := SymRef(kind, |memory| - 6);
      if s.index >= |symbols| {
        FixupInvalid(a, s, kind);
        return Fail(InvalidSym);
      }
      match symbols[s.index]
      case Unresolved(refs) =>
        FixupQueue(a, s, kind);
        symbols := symbols[s.index := Unresolved(refs + [ref])];
        return Pass;
      case Resolved(addr) =>
        FixupPatch(a, s, kind);
        o := SymRefResolve(ref, addr);
    }

    /** `new_sym`: a fresh unresolved symbol. */
    method NewSym() returns (s: Sym)
      requires Valid()
      modifies this
      ensures (State(), s) == NewSymResult(old(State()))
      ensures Valid()
    {
      NewSymPatchable(State());
      symbols := symbols + [Unresolved([])];
      s := Sym(|symbols| - 1);
    }

    /** `new_sym_here`: a fresh symbol bound to the current address; binding it cannot fail. */
    method NewSymHere() returns (s: Sym)
      requires Valid() && base as int + |memory| < U32Limit
      modifies this
      ensures (State(), s) == NewSymHereResult(old(State()))
      ensures Valid()
    {
      ghost var a := State();
      NewSymHereResolves(a);
      var addr := AddrOf(State());
      s := NewSym();
      var o := SymResolve(s, addr);
      assert o == Pass;
    }

    /** `sym_addr`: reads the table and changes nothing. */
    method SymAddr(s: Sym) returns (r: Result<Option<bv32>, DynAsmError>)
      ensures r == SymAddrOf(State(), s)
    {
      if s.index >= |symbols| {
        return Failure(InvalidSym);
      }
      match symbols[s.index]
      case Unresolved(_) =>
        r := Success(None);
      case Resolved(addr) =>
        r := Success(Some(addr));
    }

    /** `set_sym_here`: bind the symbol to the current address. */
    method SetSymHere(s: Sym) returns (o: Outcome<DynAsmError>)
      requires Valid() && base as int + |memory| < U32Limit
      modifies this
      ensures (State(), o) == SetSymHereResult(old(State()), s)
      ensures Valid()
    {
      o := SymResolve(s, AddrOf(State()));
    }

    /** `gen`: append one encoded instruction. */
    method Gen(i: Instruction) returns (o: Outcome<DynAsmError>)
      requires Valid()
      modifies this
      ensures (State(), o) == GenResult(old(State()), i)
      ensures Valid()
    {
      GenPatchable(State(), i);
      var bytes := Encode(i);
      if bytes.Failure? {
        return Fail(AisError(bytes.error));
      }
      memory := memory + bytes.value;
      return Pass;
    }

    /** `gen_load`: load a 32-bit constant with one or two immediate instructions. */
    method GenLoad(dst: Register, imm: bv32) returns (o: Outcome<DynAsmError>)
      requires Valid()
      modifies this
      ensures (State(), o) == GenLoadResult(old(State()), dst, imm)
      ensures Valid()
    {
      var lowZero := imm & 0xFFFF == 0;
      var highZero := imm & 0xFFFF_0000 == 0;
      if !highZero && !lowZero {
        o := Gen(IType(ORI, dst, R0, (imm & 0xFFFF) as bv16));
        if o.Fail? {
          return;
        }
        o := Gen(IType(ORIU, dst, dst, ((imm >> 16) & 0xFFFF) as bv16));
      } else if !highZero {
        o := Gen(IType(ORIU, dst, R0, ((imm >> 16) & 0xFFFF) as bv16));
      } else {
        o := Gen(IType(ORI, dst, R0, (imm & 0xFFFF) as bv16));
      }
    }

    /** `gen_load_symbol`: load a symbol's address, patched now or when the symbol is bound. */
    method GenLoadSymbol(dst: Register, s: Sym) returns (o: Outcome<DynAsmError>)
      requires Valid()
      modifies this
      ensures (State(), o) == GenLoadSymbolResult(old(State()), dst, s)
      ensures Valid()
    {
      ghost var a := State();
      o := Gen(IType(ORI, dst, R0, 0xDEAD));
      if o.Fail? {
        return;
      }
      FixupReady(a, IType(ORI, dst, R0, 0xDEAD));
      o := SymFixup(s, LowImm);
      if o.Fail? {
        return;
      }
      ghost var a2 := State();
      o := Gen(IType(ORIU, dst, dst, 0xDEAD));
      if o.Fail? {
        return;
      }
      FixupReady(a2, IType(ORIU, dst, dst, 0xDEAD));
      o := SymFixup(s, HighImm);
    }

    /** `gen_jump`: jump to a symbol through R4. */
    method GenJump(s: Sym) returns (o: Outcome<DynAsmError>)
      requires Valid()
      modifies this
      ensures (State(), o) == GenJumpResult(old(State()), s)
      ensures Valid()
    {
      o := GenLoadSymbol(R4, s);
      if o.Fail? {
        return;
      }
      o := Gen(Xj(R4));
    }

    /** `gen_header`: append the fixed prologue. */
    method GenHeader()
      requires Valid()
      modifies this
      ensures State() == GenHeaderResult(old(State()))
      ensures Valid()
    {
      AppendPatchable(State(), Header);
      memory := memory + Header;
    }

    /** `gen_footer`: append the closing `ret`. */
    method GenFooter()
      requires Valid()
      modifies this
      ensures State() == GenFooterResult(old(State()))
      ensures Valid()
    {
      AppendPatchable(State(), Footer);
      memory := memory + Footer;
    }
  }
}
