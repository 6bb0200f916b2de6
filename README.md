# LLJam0001 cores in Dafny

This project models the computational cores of four LowLevelJam 0001 submissions in Dafny and proves properties of them.

- **The VIA C3 AIS assembler** (`Ais`, `DynAsm`). `Ais` is the instruction codec. An `Instruction` is a record with optional fields. `Encode` packs it into a 32-bit word and emits the two header bytes `0x62 0x80`, then the word in little-endian order. `Decode` reads such a six-byte unit back.
- **The AIS dynamic assembler** (`DynAsm`). The assembler is a class: a load address, an output buffer and a symbol table. It emits instructions and loads constants and symbol addresses. An unresolved symbol queues references, and binding the symbol later patches the 16-bit immediate of each referenced unit in place. `DynAsm.Patchable` is the class invariant: every pending reference points at an I-type unit, and no two pending units overlap.
- **Salsa20 on the RP2040** (`Salsa20`, `Salsa20Vector`). The word-level reference definitions follow the Salsa20 specification: quarter round, row, column and double rounds, the hash, the key expansion, and the exclusive-or encryption. The C code's in-place procedures are methods on arrays, proved against those definitions. `Salsa20Vector` evaluates the stub program's known-answer test: key word 0 is 0x80, the four keystream blocks 0, 3, 4 and 7, and their printed byte-swapped words.
- **CRC-8** (`Crc8`). The checksum of the same submission, LSB first, with polynomial 0x8C, a zero start value and no final XOR. It is the loop method plus a byte-by-byte reference definition.
- **Conway's Life on a Launchpad Pro** (`Life`). It also uses the shared pad and timer helpers in `Pads`. The 100-entry pad array, the generation computed into a second array, the 500-call timer and the toggle on a press.
- **The Launchpad logic-gate simulator** (`LogicGates`), and its earlier template version (`LogicTemplate`). Pads are cells: INPUT, GATE or EMPTY. Side buttons select what a held button configures. The timer scans rows 1 to 8 in place and routes each row's last value to its right-hand button. `Scan` names the grid at every point of that scan, so that the methods' loop invariants and the lemmas about the final grid speak about the same states.

`Wrappers` holds the `Result`, `Option` and `Outcome` types the modules share.

Integers from the source are modelled at their width:
- `u32`/`uint32_t` words are `bv32`, so `+` wraps modulo 2^32 as in C.
- `u64` is `bv64` and bytes are `bv8`.
- The Launchpad `u8` is `Pads.U8`, with `Pads.Wrap` where the source relies on the wrap at 0.

## Model

| member | source | states |
|---|---|---|
| Ais.RegisterBits | submissions/via_c3_ais_asm/ais_asm/src/ais.rs:33-46 | an index encodes exactly when it is at most 31, to itself, else InvalidRegisterIndex; a failing name gives InvalidRegisterName; every success is below 32 |
| Ais.RegisterNameBits | submissions/via_c3_ais_asm/ais_asm/src/ais.rs:37-44 | a name is encodable exactly when it is one of R4, EAX, ECX, EDX, EBX, and then encodes to 4, 16, 17, 18, 19 |
| Ais.DpCntlCodeBound | submissions/via_c3_ais_asm/ais_asm/src/ais.rs:106-114 | control codes are below 8, and only LH and HH use the third bit |
| Ais.DpCntlFromBits | submissions/via_c3_ais_asm/ais_asm/src/ais.rs:106-114 | a control found for some bits has exactly those bits as its code |
| Ais.OpcodeFromBits | submissions/via_c3_ais_asm/ais_asm/src/ais.rs:116-158 | an opcode found for some bits has exactly those bits as its code |
| Ais.SubOpXaluFromBits | submissions/via_c3_ais_asm/ais_asm/src/ais.rs:160-188 | a sub-operation found for some bits has exactly those bits as its code |
| Ais.OpcodeCodeBound | submissions/via_c3_ais_asm/ais_asm/src/ais.rs:116-158 | every opcode code fits the six-bit opcode field |
| Ais.OpcodeCodeRoundTrip | submissions/via_c3_ais_asm/ais_asm/src/ais.rs:116-158 | looking up an opcode's code gives the opcode back |
| Ais.OpcodeFromBitsExact | submissions/via_c3_ais_asm/ais_asm/src/ais.rs:502-505 | the lookup fails exactly for the bits that are no opcode's code |
| Ais.SubOpXaluCodeRoundTrip | submissions/via_c3_ais_asm/ais_asm/src/ais.rs:160-188 | a sub-operation's code fits five bits, and looking it up gives the sub-operation back |
| Ais.SubOpXaluFromBitsExact | submissions/via_c3_ais_asm/ais_asm/src/ais.rs:494-500 | the lookup fails exactly for the bits that are no sub-operation's code |
| Ais.LeRoundTrip | submissions/via_c3_ais_asm/ais_asm/src/ais.rs:439-442 | the four little-endian bytes of a word read back as the word, and four bytes read as a word give the bytes back |
| Ais.Encode | submissions/via_c3_ais_asm/ais_asm/src/ais.rs:398-443 | encoding succeeds exactly when the word encoder does; the result is 6 bytes: the header 0x62 0x80, then the little-endian word; an error is the word encoder's error |
| Ais.DecodeOpcode | submissions/via_c3_ais_asm/ais_asm/src/ais.rs:502-505 | a decoded opcode has the top six bits as its code; a failure is UnknownOpcode of those bits, and they are no opcode's code |
| Ais.DecodeXaluFunction | submissions/via_c3_ais_asm/ais_asm/src/ais.rs:494-500 | succeeds exactly when bits 4-0 are a sub-operation code; the result has that sub-operation and the control of bits 6-5; a failure is DecodeIssue |
| Ais.DecodeFields | submissions/via_c3_ais_asm/ais_asm/src/ais.rs:465-488 | the class dispatch keeps the opcode, and fails only for the two ALU classes, with DecodeIssue |
| Ais.Decode | submissions/via_c3_ais_asm/ais_asm/src/ais.rs:445-491 | success needs 6 bytes and the header, reports length 6 and an opcode whose code is the word's top six bits; a short input or a wrong header is DecodeError of the input |
| Ais.AsIndex | submissions/via_c3_ais_asm/ais_asm/src/ais.rs:460-463 | the register an encodable register reads back as is an index with the same encoding |
| Ais.FieldAsIndex | submissions/via_c3_ais_asm/ais_asm/src/ais.rs:460-463 | a register field read back from a word is the index of the register that was encoded there |
| Ais.ITypeFieldsOf | submissions/via_c3_ais_asm/ais_asm/src/ais.rs:465-468 | a decoded I-type instruction in terms of the registers its fields name |
| Ais.XaluFieldsOf | submissions/via_c3_ais_asm/ais_asm/src/ais.rs:469-473 | a decoded XALU instruction in terms of the registers its fields name |
| Ais.XioFieldsOf | submissions/via_c3_ais_asm/ais_asm/src/ais.rs:480-485 | a decoded IO instruction in terms of the registers its fields name |
| Ais.XaluFunctionLayout | submissions/via_c3_ais_asm/ais_asm/src/ais.rs:383 | the ALU function bits lie below bit 8, with the sub-operation in bits 4-0 and the control in bits 7-5 |
| Ais.XlsFunctionLayout | submissions/via_c3_ais_asm/ais_asm/src/ais.rs:384-392 | the IO function bits lie below bit 10, with the fixed bits 0, 3, 5 and 8 set and the size in bits 6 and 1 |
| Ais.FieldsReadBack | submissions/via_c3_ais_asm/ais_asm/src/ais.rs:314-340 | fields ORed into the opcode, rs, rt, rd and low ranges read back unchanged: the ranges are disjoint |
| Ais.XaluFieldsReadBack | submissions/via_c3_ais_asm/ais_asm/src/ais.rs:406-413 | a packed ALU word gives back opcode, registers, sub-operation and control, and bits 10-8 are clear |
| Ais.ITypeReadBack | submissions/via_c3_ais_asm/ais_asm/src/ais.rs:399-405 | a packed I-type word gives back opcode, rs, rt and the 16-bit immediate |
| Ais.FunctionBitsBelow | submissions/via_c3_ais_asm/ais_asm/src/ais.rs:377-396 | function bits of either kind fit below bit 11, IO ones below bit 10 |
| Ais.ITypeWord | submissions/via_c3_ais_asm/ais_asm/src/ais.rs:399-405 | an encoded I-type word had both registers valid and an immediate, and packs opcode, rs, rt and imm into their ranges |
| Ais.ITypeEncodable | submissions/via_c3_ais_asm/ais_asm/src/ais.rs:399-405 | an I-type word encodes exactly when rs and rt are present and valid and the immediate is present |
| Ais.XaluWord | submissions/via_c3_ais_asm/ais_asm/src/ais.rs:406-413 | an encoded XALU word had rs, rt, rd valid, and packs opcode, rs, rt, rd, sub-operation and control << 5 |
| Ais.XaluiWord | submissions/via_c3_ais_asm/ais_asm/src/ais.rs:414-421 | an encoded XALUI word had a constant, which contributes no bits, so the rt field is 0 |
| Ais.XjLayout | submissions/via_c3_ais_asm/ais_asm/src/ais.rs:422-426 | a jump encodes exactly when rt is valid, to the opcode, rt and the fixed trailer 0x44 |
| Ais.XioWord | submissions/via_c3_ais_asm/ais_asm/src/ais.rs:427-434 | an encoded IO word had a zero offset, and packs opcode, rs, rt and the function bits with bits 15-11 clear |
| Ais.RequiredSlots | submissions/via_c3_ais_asm/ais_asm/src/ais.rs:398-437 | exactly the five implemented classes have a slot list |
| Ais.SlotResults | submissions/via_c3_ais_asm/ais_asm/src/ais.rs:318-375 | the results are the slot encoders applied to each slot in order |
| Ais.EncodeWordBySlots | submissions/via_c3_ais_asm/ais_asm/src/ais.rs:398-437 | the word encoder is the slot-list reference definition: the class's slots evaluated in order, the first error winning, and Unsupported for the other opcodes |
| Ais.FirstFailingSlot | submissions/via_c3_ais_asm/ais_asm/src/ais.rs:398-437 | the first slot that fails, in evaluation order, decides the encoder's error |
| Ais.SlotErrors | submissions/via_c3_ais_asm/ais_asm/src/ais.rs:318-367 | an empty slot gives its own Missing error, an invalid register gives the register's error, and a non-zero offset gives Unsupported |
| Ais.UnsupportedOpcodes | submissions/via_c3_ais_asm/ais_asm/src/ais.rs:435-437 | an opcode outside the five classes encodes to Unsupported |
| Ais.NonZeroOffsetUnsupported | submissions/via_c3_ais_asm/ais_asm/src/ais.rs:356-367 | an IO instruction with valid registers and a non-zero offset encodes to Unsupported |
| Ais.DecodeOpcodeOf | submissions/via_c3_ais_asm/ais_asm/src/ais.rs:502-505 | top bits holding an opcode's code decode to that opcode |
| Ais.DecodeHeadered | submissions/via_c3_ais_asm/ais_asm/src/ais.rs:450-491 | a headered unit with a known opcode: no class gives DecodeError, a failing function gives DecodeIssue, otherwise the class's fields with length 6 |
| Ais.DecodeITypeUnit | submissions/via_c3_ais_asm/ais_asm/src/ais.rs:465-468 | an I-type unit decodes to rs, rt and the immediate, as indices |
| Ais.DecodeXaluUnit | submissions/via_c3_ais_asm/ais_asm/src/ais.rs:469-473 | an XALU unit decodes to the function and rs, rt, rd, or fails with DecodeIssue |
| Ais.DecodeXaluiUnit | submissions/via_c3_ais_asm/ais_asm/src/ais.rs:474-477 | an XALUI unit decodes to the function and rs, rd only, or fails with DecodeIssue |
| Ais.DecodeXjUnit | submissions/via_c3_ais_asm/ais_asm/src/ais.rs:478-479 | a jump unit decodes to rt only |
| Ais.DecodeXioUnit | submissions/via_c3_ais_asm/ais_asm/src/ais.rs:480-485 | an IO unit decodes to rs, rt and a zero offset, without a function |
| Ais.DecodeUnknownOpcode | submissions/via_c3_ais_asm/ais_asm/src/ais.rs:457 | top bits that are no opcode's code give UnknownOpcode of those bits |
| Ais.DecodeNoClass | submissions/via_c3_ais_asm/ais_asm/src/ais.rs:486-488 | a known opcode outside the five classes gives DecodeError of the input |
| Ais.DecodeReadsSixBytes | submissions/via_c3_ais_asm/ais_asm/src/ais.rs:445-491 | a successful decode depends on the first six bytes only |
| Ais.DecodeNeverUnknownSubOp | submissions/via_c3_ais_asm/ais_asm/src/ais.rs:494-500 | decode never reports UnknownSubOp |
| Ais.UnassignedSubOps | submissions/via_c3_ais_asm/ais_asm/src/ais.rs:494-500 | sub-operation bits 0o01, 0o13 and 0o30 give DecodeIssue |
| Ais.DpCntlReadsTwoBits | submissions/via_c3_ais_asm/ais_asm/src/ais.rs:494-500 | the control is read from two bits: LH decodes as Word and HH as Short |
| Ais.UnitSplit | submissions/via_c3_ais_asm/ais_asm/src/ais.rs:450-455 | a six-byte unit with the header is the header followed by its word's little-endian bytes |
| Ais.ITypeFieldsEncode | submissions/via_c3_ais_asm/ais_asm/src/ais.rs:399-405 | the instruction an I-type word decodes to re-encodes to the same word |
| Ais.ITypePackedDecode | submissions/via_c3_ais_asm/ais_asm/src/ais.rs:465-468 | a unit holding packed I-type fields decodes to them, with the registers as indices |
| Ais.ITypeDecodeEncode | submissions/via_c3_ais_asm/ais_asm/src/ais.rs:399-405 | decoding an I-type encoding keeps opcode and imm and gives rs, rt back as indices of their encodings |
| Ais.ITypeEncodeDecode | submissions/via_c3_ais_asm/ais_asm/src/ais.rs:460-468 | every six-byte unit with the header and an I-type opcode decodes and re-encodes to itself |
| Ais.XjFieldsEncode | submissions/via_c3_ais_asm/ais_asm/src/ais.rs:422-426 | a decoded jump word re-encodes to its opcode and rt fields with the trailer |
| Ais.XjRoundTrip | submissions/via_c3_ais_asm/ais_asm/src/ais.rs:422-426 | decoding a jump's encoding gives rt as an index, and re-encoding gives the same bytes |
| Ais.XaluFieldsEncode | submissions/via_c3_ais_asm/ais_asm/src/ais.rs:406-413 | re-encoding a decoded XALU word clears bits 10-7, which decoding does not read |
| Ais.XaluEncodeDecode | submissions/via_c3_ais_asm/ais_asm/src/ais.rs:469-473 | every XALU unit whose function decodes re-encodes to itself with bits 10-7 of its word cleared |
| Ais.LowDpCntl | submissions/via_c3_ais_asm/ais_asm/src/ais.rs:496 | the control decode keeps: the code's low two bits |
| Ais.XaluFunctionDecode | submissions/via_c3_ais_asm/ais_asm/src/ais.rs:494-500 | a word with an encoded ALU function decodes to its sub-operation and the control's low two bits |
| Ais.XaluPackedDecode | submissions/via_c3_ais_asm/ais_asm/src/ais.rs:469-473 | a unit holding packed XALU fields decodes to them, with the control's high bit dropped |
| Ais.XaluPackedReencode | submissions/via_c3_ais_asm/ais_asm/src/ais.rs:406-413 | re-encoding a decoded packed XALU unit clears bit 7, and gives the unit back exactly when the control is not LH or HH |
| Ais.XaluDecodeEncode | submissions/via_c3_ais_asm/ais_asm/src/ais.rs:469-473 | decoding an XALU encoding keeps every field except the control's high bit, with registers as indices |
| Ais.XaluReencode | submissions/via_c3_ais_asm/ais_asm/src/ais.rs:406-413 | re-encoding a decoded XALU encoding gives its word with bit 7 cleared |
| Ais.XaluRoundTrip | submissions/via_c3_ais_asm/ais_asm/src/ais.rs:406-413 | an XALU encoding decodes and re-encodes to the same bytes exactly when the control is Word, Short, LL or HL |
| Ais.XaluiFieldsEncode | submissions/via_c3_ais_asm/ais_asm/src/ais.rs:474-477 | a decoded XALUI instruction has no constant, so re-encoding fails with MissingConstant |
| Ais.XaluiPackedDecode | submissions/via_c3_ais_asm/ais_asm/src/ais.rs:474-477 | a packed XALUI unit decodes to rs, rd and the function, and re-encoding that fails with MissingConstant |
| Ais.XaluiReencodeFails | submissions/via_c3_ais_asm/ais_asm/src/ais.rs:348-354 | an XALUI encoding decodes without its constant and rt, and that cannot be re-encoded |
| Ais.XioFieldsEncode | submissions/via_c3_ais_asm/ais_asm/src/ais.rs:480-485 | a decoded IO instruction has no function, so re-encoding fails with MissingFunction |
| Ais.XioPackedDecode | submissions/via_c3_ais_asm/ais_asm/src/ais.rs:480-485 | a packed IO unit decodes to rs, rt and a zero offset, and re-encoding that fails with MissingFunction |
| Ais.XioDecodeEncode | submissions/via_c3_ais_asm/ais_asm/src/ais.rs:427-434 | decoding an IO encoding keeps opcode and registers; the function is not read back and re-encoding fails |
| Ais.LeInjective | submissions/via_c3_ais_asm/ais_asm/src/ais.rs:439-442 | two units are equal exactly when their words are |
| Ais.BitSevenOfControl | submissions/via_c3_ais_asm/ais_asm/src/ais.rs:383 | bit 7 of an ALU word is the control's high bit: clear for controls below 4, set otherwise |
| DynAsm.HalvesRecombine | submissions/via_c3_ais_asm/ais_asm/src/dynasm.rs:66-73 | the low and high immediates a symbol reference receives put the address back together |
| DynAsm.ResolveRef | submissions/via_c3_ais_asm/ais_asm/src/dynasm.rs:58-85 | a successful patch keeps the length and every byte outside the six bytes of the unit |
| DynAsm.ResolveNeverUnstable | submissions/via_c3_ais_asm/ais_asm/src/dynasm.rs:76-79 | the ResolveUnstable check never fires |
| DynAsm.ITypeCodes | submissions/via_c3_ais_asm/ais_asm/src/ais.rs:292-304 | the I-type opcodes are exactly those with codes 0x08 to 0x0F |
| DynAsm.IUnitDecode | submissions/via_c3_ais_asm/ais_asm/src/dynasm.rs:60-63 | an I-type unit in the buffer decodes in place to its fields |
| DynAsm.IUnitFrame | submissions/via_c3_ais_asm/ais_asm/src/dynasm.rs:60-63 | whether a unit is an I-type unit, and what it decodes to, depend only on its six bytes |
| DynAsm.ImmPatchFields | submissions/via_c3_ais_asm/ais_asm/src/dynasm.rs:66-73 | replacing the immediate keeps opcode, rs and rt |
| DynAsm.ImmPatchBytes | submissions/via_c3_ais_asm/ais_asm/src/dynasm.rs:76-82 | replacing the immediate rewrites the two low bytes of the word to the immediate and keeps the two high ones |
| DynAsm.ResolveRefSteps | submissions/via_c3_ais_asm/ais_asm/src/dynasm.rs:58-85 | the patch is the unit decoded, its immediate replaced, re-encoded and copied back |
| DynAsm.ResolveIUnitBytes | submissions/via_c3_ais_asm/ais_asm/src/dynasm.rs:58-85 | patching an I-type unit succeeds and changes only the two immediate bytes, which then hold the address half |
| DynAsm.ResolveIUnit | submissions/via_c3_ais_asm/ais_asm/src/dynasm.rs:58-85 | the patched unit is still an I-type unit and decodes to the old instruction with the new immediate |
| DynAsm.PatchAll | submissions/via_c3_ais_asm/ais_asm/src/dynasm.rs:123-125 | patching in order keeps the buffer length |
| DynAsm.PatchAllBytes | submissions/via_c3_ais_asm/ais_asm/src/dynasm.rs:123-125 | over valid references the loop passes, changes no byte outside their immediates, and writes each reference's half |
| DynAsm.PatchAllEffect | submissions/via_c3_ais_asm/ais_asm/src/dynasm.rs:123-125 | after the loop each referenced unit decodes to its old instruction with the address half as immediate |
| DynAsm.GenResult | submissions/via_c3_ais_asm/ais_asm/src/dynasm.rs:170-174 | gen passes exactly when encoding succeeds, then appends exactly the 6 encoded bytes; an error leaves the state unchanged and wraps the encoder's error |
| DynAsm.Lookup | submissions/via_c3_ais_asm/ais_asm/src/dynasm.rs:47-50 | a handle finds its table entry exactly when it is in range, else InvalidSym |
| DynAsm.SymFixupResult | submissions/via_c3_ais_asm/ais_asm/src/dynasm.rs:133-145 | a fixup keeps the buffer length and the load address |
| DynAsm.NewSymResult | submissions/via_c3_ais_asm/ais_asm/src/dynasm.rs:147-151 | new_sym appends an unresolved entry with no references, and its handle is the old table length |
| DynAsm.SymAddrOf | submissions/via_c3_ais_asm/ais_asm/src/dynasm.rs:159-164 | sym_addr fails exactly for an out-of-range handle, and is Some exactly for a resolved symbol, with its address |
| DynAsm.GenLoadSymbolResult | submissions/via_c3_ais_asm/ais_asm/src/dynasm.rs:207-217 | a successful symbol load appends 12 bytes |
| DynAsm.GenJumpResult | submissions/via_c3_ais_asm/ais_asm/src/dynasm.rs:219-223 | a successful jump appends 18 bytes |
| DynAsm.GenHeaderResult | submissions/via_c3_ais_asm/ais_asm/src/dynasm.rs:225-227 | gen_header appends exactly the 11 header bytes |
| DynAsm.GenFooterResult | submissions/via_c3_ais_asm/ais_asm/src/dynasm.rs:229-231 | gen_footer appends exactly the byte 0xC3 |
| DynAsm.PatchableBefore | submissions/via_c3_ais_asm/ais_asm/src/dynasm.rs:58-85 | in a patchable state every pending unit lies inside the buffer |
| DynAsm.NewSymPatchable | submissions/via_c3_ais_asm/ais_asm/src/dynasm.rs:147-151 | new_sym keeps the invariant |
| DynAsm.AppendPatchable | submissions/via_c3_ais_asm/ais_asm/src/dynasm.rs:170-174 | appending bytes keeps the invariant |
| DynAsm.FixupQueuePatchable | submissions/via_c3_ais_asm/ais_asm/src/dynasm.rs:138-143 | queuing a reference to the last unit on an unresolved symbol keeps the invariant |
| DynAsm.FixupPatchPatchable | submissions/via_c3_ais_asm/ais_asm/src/dynasm.rs:135-137 | patching the last unit for a resolved symbol keeps the invariant |
| DynAsm.FixupPatchable | submissions/via_c3_ais_asm/ais_asm/src/dynasm.rs:133-145 | a fixup of the unit just emitted keeps the invariant |
| DynAsm.SymResolvePatchable | submissions/via_c3_ais_asm/ais_asm/src/dynasm.rs:117-131 | binding a symbol keeps the invariant |
| DynAsm.GenPatchable | submissions/via_c3_ais_asm/ais_asm/src/dynasm.rs:170-174 | gen keeps the invariant |
| DynAsm.GenLoadPatchable | submissions/via_c3_ais_asm/ais_asm/src/dynasm.rs:176-205 | gen_load keeps the invariant |
| DynAsm.GenIUnit | submissions/via_c3_ais_asm/ais_asm/src/dynasm.rs:170-174 | gen of an encodable I-type instruction passes and leaves an I-type unit at the old length |
| DynAsm.FixupReady | submissions/via_c3_ais_asm/ais_asm/src/dynasm.rs:207-217 | after an I-type unit is emitted, the fixup's precondition holds |
| DynAsm.ITypeEncodes | submissions/via_c3_ais_asm/ais_asm/src/dynasm.rs:207-217 | an I-type instruction with two valid registers encodes |
| DynAsm.ITypeBadDst | submissions/via_c3_ais_asm/ais_asm/src/ais.rs:399-405 | an I-type instruction with a valid source and an invalid destination fails with the destination's register error |
| DynAsm.PatchedIType | submissions/via_c3_ais_asm/ais_asm/src/dynasm.rs:66-79 | replacing the immediate of an encoded I-type word gives the word of the same instruction with the new immediate |
| DynAsm.PatchAppended | submissions/via_c3_ais_asm/ais_asm/src/dynasm.rs:58-85 | patching the unit just appended is appending the patched unit |
| DynAsm.FixupResolvedAppended | submissions/via_c3_ais_asm/ais_asm/src/dynasm.rs:133-137 | emitting an I-type unit with the placeholder and fixing it for a resolved symbol is emitting it with the address half |
| DynAsm.FixupUnresolvedAppended | submissions/via_c3_ais_asm/ais_asm/src/dynasm.rs:138-143 | fixing it for an unresolved symbol queues a reference of that kind at the unit's offset |
| DynAsm.SymResolveInvalid | submissions/via_c3_ais_asm/ais_asm/src/dynasm.rs:117-131 | binding an out-of-range handle gives InvalidSym and changes nothing |
| DynAsm.SymResolveRedefined | submissions/via_c3_ais_asm/ais_asm/src/dynasm.rs:117-128 | binding a resolved symbol again gives SymbolRedefined with the buffer unchanged, but the stored address is already the new one; other entries are unchanged |
| DynAsm.SymResolvePatches | submissions/via_c3_ais_asm/ais_asm/src/dynasm.rs:117-131 | binding an unresolved symbol passes, makes sym_addr give the address, makes every referenced unit decode with its address half, changes no byte outside their immediates and keeps the invariant |
| DynAsm.NewSymHereResolves | submissions/via_c3_ais_asm/ais_asm/src/dynasm.rs:153-157 | binding the fresh symbol cannot fail; new_sym_here appends Resolved(base + length), and sym_addr then gives that address |
| DynAsm.NewSymHerePatchable | submissions/via_c3_ais_asm/ais_asm/src/dynasm.rs:153-157 | new_sym_here keeps the invariant |
| DynAsm.LoadPlan | submissions/via_c3_ais_asm/ais_asm/src/dynasm.rs:176-205 | gen_load emits one or two loads |
| DynAsm.LoadPlanValue | submissions/via_c3_ais_asm/ais_asm/src/dynasm.rs:176-205 | the emitted immediates put the constant back together: low OR high << 16 |
| DynAsm.PlanInstructions | submissions/via_c3_ais_asm/ais_asm/src/dynasm.rs:176-205 | one instruction per planned load |
| DynAsm.EncodeAll | submissions/via_c3_ais_asm/ais_asm/src/dynasm.rs:170-174 | the encoding of n instructions is 6n bytes |
| DynAsm.GenLoadEmits | submissions/via_c3_ais_asm/ais_asm/src/dynasm.rs:176-205 | with a valid destination gen_load passes and appends exactly the plan's instructions; with an invalid one it changes nothing and reports the register error |
| DynAsm.GenLoadValid | submissions/via_c3_ais_asm/ais_asm/src/dynasm.rs:176-205 | with a valid destination, gen_load appends the encoded plan and passes |
| DynAsm.GenLoadInvalid | submissions/via_c3_ais_asm/ais_asm/src/dynasm.rs:176-205 | with an invalid destination, gen_load changes nothing and reports the register error |
| DynAsm.GenOneUnit | submissions/via_c3_ais_asm/ais_asm/src/dynasm.rs:190-204 | a one-load plan emits its single unit, loading from register 0 |
| DynAsm.GenTwoUnits | submissions/via_c3_ais_asm/ais_asm/src/dynasm.rs:182-189 | a two-load plan emits ORI from register 0, then ORIU from the destination itself |
| DynAsm.GenLoadSymbolBadDst | submissions/via_c3_ais_asm/ais_asm/src/dynasm.rs:207-217 | an invalid destination emits nothing and reports the register error |
| DynAsm.GenLoadSymbolInvalidSym | submissions/via_c3_ais_asm/ais_asm/src/dynasm.rs:207-217 | an invalid handle fails with InvalidSym after the first 6 bytes are written |
| DynAsm.GenLoadSymbolUnresolved | submissions/via_c3_ais_asm/ais_asm/src/dynasm.rs:207-217 | an unresolved symbol: both placeholder units are appended, and a LowImm reference at the old length L and a HighImm one at L + 6 are queued |
| DynAsm.GenLoadSymbolResolved | submissions/via_c3_ais_asm/ais_asm/src/dynasm.rs:207-217 | a resolved symbol: the two units are appended with the address halves, and no reference is queued |
| DynAsm.GenFixupPatchable | submissions/via_c3_ais_asm/ais_asm/src/dynasm.rs:207-217 | emitting an I-type unit and fixing it up for a valid handle passes and keeps the invariant |
| DynAsm.GenLoadSymbolPatchable | submissions/via_c3_ais_asm/ais_asm/src/dynasm.rs:207-217 | gen_load_symbol keeps the invariant |
| DynAsm.GenJumpEmits | submissions/via_c3_ais_asm/ais_asm/src/dynasm.rs:219-223 | for a valid handle gen_jump appends 18 bytes: the symbol load into register 4, then a jump that decodes as XJ with rt 4 |
| DynAsm.GenJumpPatchable | submissions/via_c3_ais_asm/ais_asm/src/dynasm.rs:219-223 | gen_jump keeps the invariant |
| DynAsm.DynAsm.constructor | submissions/via_c3_ais_asm/ais_asm/src/dynasm.rs:101-107 | new: the given load address, an empty buffer and table, and the invariant |
| DynAsm.DynAsm.SymRefResolve | submissions/via_c3_ais_asm/ais_asm/src/dynasm.rs:58-85 | the buffer becomes the patched buffer on success and is unchanged on failure, with the same error |
| DynAsm.DynAsm.PatchRefs | submissions/via_c3_ais_asm/ais_asm/src/dynasm.rs:123-125 | the loop's buffer and outcome are those of patching the references in order, stopping at the first failure |
| DynAsm.DynAsm.SymResolve | submissions/via_c3_ais_asm/ais_asm/src/dynasm.rs:117-131 | the new state and outcome are those of the functional model, and the invariant is kept |
| DynAsm.DynAsm.SymFixup | submissions/via_c3_ais_asm/ais_asm/src/dynasm.rs:133-145 | the new state and outcome are those of the functional model, and the invariant is kept |
| DynAsm.DynAsm.NewSym | submissions/via_c3_ais_asm/ais_asm/src/dynasm.rs:147-151 | the new state and handle are those of the functional model, and the invariant is kept |
| DynAsm.DynAsm.NewSymHere | submissions/via_c3_ais_asm/ais_asm/src/dynasm.rs:153-157 | the new state and handle are those of the functional model, and the invariant is kept |
| DynAsm.DynAsm.SymAddr | submissions/via_c3_ais_asm/ais_asm/src/dynasm.rs:159-164 | the result is the functional model's, and nothing changes |
| DynAsm.DynAsm.SetSymHere | submissions/via_c3_ais_asm/ais_asm/src/dynasm.rs:166-168 | the new state and outcome are those of binding the symbol to base + length, and the invariant is kept |
| DynAsm.DynAsm.Gen | submissions/via_c3_ais_asm/ais_asm/src/dynasm.rs:170-174 | the new state and outcome are GenResult's, and the invariant is kept |
| DynAsm.DynAsm.GenLoad | submissions/via_c3_ais_asm/ais_asm/src/dynasm.rs:176-205 | the new state and outcome are those of the functional model, and the invariant is kept |
| DynAsm.DynAsm.GenLoadSymbol | submissions/via_c3_ais_asm/ais_asm/src/dynasm.rs:207-217 | the new state and outcome are those of the functional model, and the invariant is kept |
| DynAsm.DynAsm.GenJump | submissions/via_c3_ais_asm/ais_asm/src/dynasm.rs:219-223 | the new state and outcome are those of the functional model, and the invariant is kept |
| DynAsm.DynAsm.GenHeader | submissions/via_c3_ais_asm/ais_asm/src/dynasm.rs:225-227 | the header is appended, and the invariant is kept |
| DynAsm.DynAsm.GenFooter | submissions/via_c3_ais_asm/ais_asm/src/dynasm.rs:229-231 | 0xC3 is appended, and the invariant is kept |
| Salsa20.RotateIsRotation | submissions/salsa20-on-rp2040/src/salsa20.c:25-28 | with the amounts 7, 9, 13 and 18 the shift pair is the left rotation |
| Salsa20.RotateBack | submissions/salsa20-on-rp2040/src/salsa20.c:25-28 | rotating by any amount r from 1 to 31 and then by 32 - r gives the word back |
| Salsa20.XorRotateTwice | submissions/salsa20-on-rp2040/src/salsa20.c:31-34 | each line of the quarter round undoes itself when applied twice |
| Salsa20.StepUndo | submissions/salsa20-on-rp2040/src/salsa20.c:31-34 | a line applied to a block twice restores the block |
| Salsa20.QuarterRoundInverse | submissions/salsa20-on-rp2040/src/salsa20.c:30-35 | the quarter round is undone by its inverse, which runs the lines backwards |
| Salsa20.QuarterRoundFrame | submissions/salsa20-on-rp2040/src/salsa20.c:30-35 | the quarter round leaves every other word alone |
| Salsa20.QuarterRoundWords | submissions/salsa20-on-rp2040/src/salsa20.c:30-35 | b, then c, then d, then a are updated as in section 3 of the Salsa20 specification, each from the words already updated |
| Salsa20.QuarterRoundAt | submissions/salsa20-on-rp2040/src/salsa20.c:30-35 | the in-place quarter round leaves the block array equal to QuarterRound of the old block |
| Salsa20.QuarterRoundExamples | submissions/salsa20-on-rp2040/src/salsa20.c:30-35 | the two quarter-round examples of section 3 of the Salsa20 specification |
| Salsa20.QuarterRoundsInverse | submissions/salsa20-on-rp2040/src/salsa20.c:48-60 | up to four quarter rounds of a half round are undone by their inverses, last first |
| Salsa20.ColumnRoundSteps | submissions/salsa20-on-rp2040/src/salsa20.c:49-53 | the column round is the loop's four column lines, in order |
| Salsa20.RowRoundSteps | submissions/salsa20-on-rp2040/src/salsa20.c:56-59 | the row round is the loop's four row lines, in order |
| Salsa20.DoubleRoundInverse | submissions/salsa20-on-rp2040/src/salsa20.c:48-60 | one double round is undone by its inverse |
| Salsa20.DoubleRoundInjective | submissions/salsa20-on-rp2040/src/salsa20.c:48-60 | two blocks with the same double round are equal |
| Salsa20.DoubleRoundsNext | submissions/salsa20-on-rp2040/src/salsa20.c:48-60 | n + 1 double rounds are one more round after n |
| Salsa20.AddWords | submissions/salsa20-on-rp2040/src/salsa20.c:62-64 | each word of the sum is the two words added modulo 2^32 |
| Salsa20.DoubleRoundAt | submissions/salsa20-on-rp2040/src/salsa20.c:49-59 | one pass of the loop leaves the block equal to DoubleRound of the old block |
| Salsa20.AddInto | submissions/salsa20-on-rp2040/src/salsa20.c:62-64 | the addition loop leaves the block equal to the word-wise sum with the saved copy |
| Salsa20.HashBlock | submissions/salsa20-on-rp2040/src/salsa20.c:37-65 | salsa_double_round leaves the block equal to the Salsa20 hash of the old block: ten double rounds, then the saved block added |
| Salsa20.JoinHalves | submissions/salsa20-on-rp2040/src/salsa20.c:11-15 | a 64-bit value is its low and high words joined |
| Salsa20.InitBlockRecovers | submissions/salsa20-on-rp2040/src/salsa20.c:3-23 | the initial block holds the four constants in words 0, 5, 10 and 15, and the key, nonce and block number can be read back from it |
| Salsa20.InitBlockOf | submissions/salsa20-on-rp2040/src/salsa20.c:3-23 | every block with the four constants is the initial block of what it holds |
| Salsa20.XorWords | submissions/salsa20-on-rp2040/src/salsa20.c:75-77 | each word of the result is the two words exclusive-ored |
| Salsa20.EncryptBlockTwice | submissions/salsa20-on-rp2040/src/salsa20.c:67-78 | encrypting the ciphertext again with the same key, nonce and block number gives the plaintext |
| Salsa20.XorInto | submissions/salsa20-on-rp2040/src/salsa20.c:75-77 | each output word is the input word exclusive-ored with the block word |
| Salsa20.LittleEndianReverses | submissions/salsa20-on-rp2040/src/salsa20.c:80-87 | byte k of the result is byte 3 - k of the word |
| Salsa20.LittleEndianInvolution | submissions/salsa20-on-rp2040/src/salsa20.c:80-87 | swapping twice gives the word back |
| Salsa20.State.constructor | submissions/salsa20-on-rp2040/inc/salsa20.h:20-25 | a fresh state with the given key, nonce and block number |
| Salsa20.State.Init | submissions/salsa20-on-rp2040/src/salsa20.c:3-23 | the block becomes the initial block of key, nonce and block number, which are unchanged |
| Salsa20.State.Encrypt | submissions/salsa20-on-rp2040/src/salsa20.c:67-78 | the block becomes the keystream of the old block number, the block number grows by exactly 1, and the output is the input exclusive-ored with that keystream |
| Salsa20Vector.Quarter | submissions/salsa20-on-rp2040/src/salsa20.c:30-35 | the four words a quarter round computes, and the twelve it leaves alone |
| Salsa20Vector.KeystreamBlock0 | submissions/salsa20-on-rp2040/stub/main.c:15-26 | the sixteen words of keystream block 0 for the stub's key and nonce |
| Salsa20Vector.KeystreamBlock3 | submissions/salsa20-on-rp2040/stub/main.c:28-31 | the sixteen words of keystream block 3 |
| Salsa20Vector.KeystreamBlock4 | submissions/salsa20-on-rp2040/stub/main.c:33-36 | the sixteen words of keystream block 4 |
| Salsa20Vector.KeystreamBlock7 | submissions/salsa20-on-rp2040/stub/main.c:38-41 | the sixteen words of keystream block 7 |
| Salsa20Vector.PrintedBlock0 | submissions/salsa20-on-rp2040/stub/main.c:44-47 | the byte-swapped words of block 0 are the first four printed test-vector lines |
| Salsa20Vector.PrintedBlock3 | submissions/salsa20-on-rp2040/stub/main.c:48-51 | the byte-swapped words of block 3 are the next four lines |
| Salsa20Vector.PrintedBlock4 | submissions/salsa20-on-rp2040/stub/main.c:52-55 | the byte-swapped words of block 4 are the next four lines |
| Salsa20Vector.PrintedBlock7 | submissions/salsa20-on-rp2040/stub/main.c:56-59 | the byte-swapped words of block 7 are the last four lines |
| Crc8.Crc8 | submissions/salsa20-on-rp2040/src/crc8.c:4-23 | the loops return the reference CRC of exactly the first `length` bytes, and the input is not modified |
| Crc8.CrcEmpty | submissions/salsa20-on-rp2040/src/crc8.c:5-9 | length 0 gives 0x00 |
| Crc8.CrcFromAppend | submissions/salsa20-on-rp2040/src/crc8.c:9-20 | the bytes are consumed in order: a concatenation continues from the register after the prefix |
| Crc8.CrcAppend | submissions/salsa20-on-rp2040/src/crc8.c:9-20 | the CRC of a + b continues the update from the CRC of a over b |
| Crc8.CrcAppendByte | submissions/salsa20-on-rp2040/src/crc8.c:11-18 | one more byte is one more pass of the eight inner steps |
| Crc8.CrcZeros | submissions/salsa20-on-rp2040/src/crc8.c:12-17 | an all-zero input of any length gives 0x00 |
| Crc8.BitStepXor | submissions/salsa20-on-rp2040/src/crc8.c:12-16 | one inner step is linear in the register and the byte together |
| Crc8.CrcXor | submissions/salsa20-on-rp2040/src/crc8.c:5-22 | for inputs of equal length, the CRC of their exclusive or is the exclusive or of their CRCs |
| Crc8.CrcCheckValue | submissions/salsa20-on-rp2040/src/crc8.c:4-23 | "123456789" gives 0xA1, the check value of the CRC-8/MAXIM catalogue entry |
| Pads.IndexCoordinates | submissions/launchpadlogic/src/GOL.c:59-62 | column and row are read back from the pad number x + 10 y, which is interior exactly for columns and rows 1 to 8 |
| Pads.Tick | submissions/launchpadlogic/src/GOL.c:147-151 | the counter stays below 500, and the tick fires exactly when the incremented counter reaches 500, resetting it to 0 |
| Pads.CounterAfter | submissions/launchpadlogic/src/GOL.c:147-151 | after n calls the counter holds (n - 1) mod 500 |
| Pads.TimerSchedule | submissions/launchpadlogic/src/GOL.c:147-151 | the n-th call fires exactly when n - 1 is a multiple of 500: the first call and then every 500th |
| Life.LookWraps | submissions/launchpadlogic/src/GOL.c:59-62 | one step either side, the u8 wrap lands outside the grid exactly when the integer coordinate does |
| Life.AroundIsNeighbourhood | submissions/launchpadlogic/src/GOL.c:64-76 | the eight calls visit each of the cells surrounding a cell exactly once, and not the cell |
| Life.CountNeighbors | submissions/launchpadlogic/src/GOL.c:64-76 | the count is at most 8 |
| Life.CountCallsLive | submissions/launchpadlogic/src/GOL.c:64-76 | the wrapping calls count the same cells as integer coordinates |
| Life.CountNeighborsLive | submissions/launchpadlogic/src/GOL.c:64-76 | count_cell_neighbors is the number of live cells among the eight neighbours |
| Life.DoesCellLive | submissions/launchpadlogic/src/GOL.c:78-101 | the result is 0 or 1, and is 1 exactly for three neighbours, or for two and a live cell |
| Life.NextIsLife | submissions/launchpadlogic/src/GOL.c:158-167 | an interior cell of the next generation is live exactly when it had three live neighbours, or two and was live |
| Life.NextBorder | submissions/launchpadlogic/src/GOL.c:158-169 | a generation leaves every side button at 0 |
| Life.Toggle | submissions/launchpadlogic/src/GOL.c:112-115 | the new value is 0 or MAXLED, and is non-zero exactly when the old one was 0 |
| Life.Life.constructor | submissions/launchpadlogic/src/GOL.c:182-194 | app_init's grid with pads 11, 12 and 22 lit, a zero temp array, beat 0 and the counter at 500 |
| Life.Life.Generation | submissions/launchpadlogic/src/GOL.c:158-170 | the grid becomes the next generation of the unchanged old grid, temp equals it, and beat flips |
| Life.Life.TimerEvent | submissions/launchpadlogic/src/GOL.c:142-173 | the counter and tick follow Tick; on a tick the grid becomes the next generation and beat flips, otherwise nothing changes |
| Life.Life.SurfaceEvent | submissions/launchpadlogic/src/GOL.c:105-122 | a pad press toggles the pressed pad only; a release or another event type changes nothing |
| LogicGates.IsInputButton | submissions/launchpadlogic/src/app.c:52-55 | true exactly for 1 to 10, 91 to 96, and 19, 29, ..., 89 |
| LogicGates.IsUserInputButton | submissions/launchpadlogic/src/app.c:59-62 | true exactly for 1 to 8, each of them an input button |
| LogicGates.Configure | submissions/launchpadlogic/src/app.c:109-181 | while 91 to 96 is held the pad becomes that gate over index - 1 and, except for NOT, index - 2; any other held button makes it an INPUT from that button; input_index becomes held and the signal is kept |
| LogicGates.Press | submissions/launchpadlogic/src/app.c:99-181 | a pad already fed by the held button is unset: EMPTY with input_index 0; any other pad is configured; the signal is kept; the result is EMPTY exactly in the unset case |
| LogicGates.GateValue | submissions/launchpadlogic/src/app.c:240-266 | on signals 0 and 1 each gate yields 0 or 1, and 1 exactly when its boolean holds; NOT is the negation of a |
| LogicGates.Evaluate | submissions/launchpadlogic/src/app.c:231-273 | on a grid of 0s and 1s the new signal is 0 or 1 |
| LogicGates.ScanUnvisited | submissions/launchpadlogic/src/app.c:225-278 | a pad the scan has not yet written holds its value from before the call |
| LogicGates.ScanIsFinal | submissions/launchpadlogic/src/app.c:225-278 | a pad the scan has passed, or never writes, already holds its final value |
| LogicGates.VisitIsFinal | submissions/launchpadlogic/src/app.c:228-275 | each interior pad ends with the signal evaluated on the grid as the scan reaches it, its wiring unchanged |
| LogicGates.LastOf | submissions/launchpadlogic/src/app.c:227-267 | on a grid of 0s and 1s the last row value is 0 or 1 |
| LogicGates.RowOutput | submissions/launchpadlogic/src/app.c:276 | each row's right-hand button ends with the signal of the row's last INPUT or GATE, or 0 |
| LogicGates.GateSettles | submissions/launchpadlogic/src/app.c:236-269 | a gate with sources at index − 1 and, for every gate other than NOT, index − 2 computes on their new signals, so a row's gates settle in one call; for column 1 the second source is the previous row's output button |
| LogicGates.GateChainsRows | submissions/launchpadlogic/src/app.c:236-276 | a two-input gate in column 1 of rows 2 to 8 reads the previous row's output button, that is the previous row's last INPUT or GATE signal of the same call |
| LogicGates.InputSettles | submissions/launchpadlogic/src/app.c:231-235 | an INPUT whose source the scan has passed ends with the source's final signal |
| LogicGates.InputReadsStale | submissions/launchpadlogic/src/app.c:231-235 | an INPUT whose source the scan writes later ends with the source's signal from before the call |
| LogicGates.PropagateKeepsSides | submissions/launchpadlogic/src/app.c:225-278 | the side buttons outside the right-hand column are never written: the clock and the user inputs keep their signals |
| LogicGates.PropagateKeeps | submissions/launchpadlogic/src/app.c:225-278 | the propagation keeps every pad's wiring, and keeps every signal 0 or 1 |
| LogicGates.PressWired | submissions/launchpadlogic/src/app.c:95-181 | a press configures an interior pad only from an input button, with gate sources at index − 1 and, for every gate other than NOT, index − 2; for column 1 that second source is the previous row's output button |
| LogicGates.Flip | submissions/launchpadlogic/src/app.c:222 | flipping the clock keeps the grid's size |
| LogicGates.Simulator.constructor | submissions/launchpadlogic/src/app.c:42-44 | every cell zero, held 0 and the counter at 500 |
| LogicGates.Simulator.SurfaceEvent | submissions/launchpadlogic/src/app.c:65-187 | an input button sets held on a press, clears it on a release, sets the signal of 1 to 8 and nothing else; another pad changes only on a press with a held button, by Press; other event types change nothing |
| LogicGates.Simulator.TimerEvent | submissions/launchpadlogic/src/app.c:214-280 | the counter follows Tick; the clock flips on a tick; every call propagates |
| LogicGates.Simulator.PropagateGrid | submissions/launchpadlogic/src/app.c:225-278 | the nested loops leave the grid equal to Propagate of the old grid |
| LogicGates.Simulator.PropagateRow | submissions/launchpadlogic/src/app.c:226-277 | one pass of the outer loop takes the scan from the start of row y to the start of row y + 1 |
| LogicGates.Simulator.VisitPad | submissions/launchpadlogic/src/app.c:230-273 | the inner body changes only the pad it visits, as Visit does |
| LogicGates.LastOfVisit | submissions/launchpadlogic/src/app.c:227-267 | visiting column x leaves the last row value over the columns before it unchanged |
| LogicTemplate.IsInputButton | src/app.c:86-90 | true exactly for the clock, pad 10 |
| LogicTemplate.GateValue | src/app.c:167-181 | on signals 0 and 1 each gate yields 0 or 1, and 1 exactly when its boolean holds; NOT is the negation of a |
| LogicTemplate.Evaluate | src/app.c:158-183 | an EMPTY pad keeps its signal; on a grid of 0s and 1s a pad's new signal is 0 or 1 |
| LogicTemplate.ScanUnvisited | src/app.c:152-188 | a pad the scan has not yet written holds its value from before the call |
| LogicTemplate.ScanIsFinal | src/app.c:152-188 | a pad the scan has passed, or never writes, already holds its final value |
| LogicTemplate.VisitIsFinal | src/app.c:155-185 | each interior pad ends with the signal evaluated on the grid as the scan reaches it, its wiring unchanged |
| LogicTemplate.RowOutput | src/app.c:186 | each row's right-hand button ends with the signal of the row's last INPUT or GATE, or 0 |
| LogicTemplate.PropagateKeeps | src/app.c:152-188 | the propagation keeps every pad's wiring, and keeps every signal 0 or 1 |
| LogicTemplate.RangedScan | src/app.c:152-188 | the scan keeps every stored source index in range, and every signal 0 or 1 |
| LogicTemplate.PadFollowsClock | src/app.c:158-162 | on a grid the events can build, every INPUT takes the clock's signal and every other interior pad keeps its own |
| LogicTemplate.RowFollowsClock | src/app.c:186 | on such a grid a row's right-hand button takes the clock's signal if the row holds an INPUT, else 0 |
| LogicTemplate.Flip | src/app.c:149 | flipping the clock keeps the grid's size |
| LogicTemplate.Template.constructor | src/app.c:80-82 | every cell zero, held 0 and the counter at 500; the grid is one the events can build |
| LogicTemplate.Template.SurfaceEvent | src/app.c:92-121 | a press of pad 10 sets held and a release clears it; while held is set, any pad event makes that pad an INPUT from held; with held 0 nothing changes; the grid stays one the events can build |
| LogicTemplate.Template.TimerEvent | src/app.c:141-223 | the counter follows Tick; only a tick changes the grid: the clock flips and the pads propagate |
| LogicTemplate.Template.PropagateGrid | src/app.c:152-188 | the nested loops leave the grid equal to Propagate of the old grid |
| LogicTemplate.Template.PropagateRow | src/app.c:153-187 | one pass of the outer loop takes the scan from the start of row y to the start of row y + 1 |
| LogicTemplate.Template.VisitPad | src/app.c:157-183 | the inner body changes only the pad it visits, as Visit does; an EMPTY pad is left alone |
| LogicTemplate.LastOfVisit | src/app.c:154-182 | visiting column x leaves the last row value over the columns before it unchanged |

## Left out

- The AIS driver program `main.rs` writes `out.bin` and runs `objdump`. That is file and process I/O.
- The bare-metal kernel is not part of this model. This covers the UART, the multiboot header, MSR and CPUID assembly, the stack and the panic handler. All of it is hardware access or foreign code.
- `DynAsm::dump` only prints a disassembly.
- The x86 meaning of `HEADER`: its 11 bytes are opaque constants.
- The execution semantics of the emitted AIS instructions: the source never describes them.
- The Salsa20 UART request protocol in `src/main.c`, `uart.c` and `uart.h`: they are blocking I/O on the Pico SDK.
- All `hal_plot_led` calls and LED colours: they are display output. Only the pad arrays, `held_button_index` and the counters are modelled.
- `MAXLED` (63) and `TYPEPAD` (0) are defined in the Launchpad Pro firmware's `app_defs.h`, which is not part of this model. They are stated as constants.
- The callbacks `app_midi_event`, `app_sysex_event`, `app_aftertouch_event` and `app_cable_event` have empty bodies and are not modelled.
- The unused copy `x` of the block in `salsa_double_round` is not modelled.
- DynAsm.DynAsm.NewSymHere: requires that base + buffer length is below 2^32. `addr()` adds them as `u32`, and the model does not give the overflow a meaning.
- DynAsm.DynAsm.SetSymHere: requires the same bound on base + buffer length, for the same reason.
- DynAsm.DynAsm.SymFixup: requires that the last six bytes are an I-type unit emitted after every pending reference. `sym_fixup` is private, and its only callers in `gen_load_symbol` call it right after emitting such a unit.
- Life.Life.SurfaceEvent: requires a pad index below 100, since the firmware only reports pad indices 0 to 99.
- LogicGates.Simulator.SurfaceEvent: requires a pad index below 100, for the same reason.
- LogicTemplate.Template.SurfaceEvent: requires a pad index below 100, for the same reason.
- Pad reads through stored source indices: in C a stored index of 100 or more would read past the array. The models read such a pad as 0. The class invariants keep every stored index below 100, so that case never arises.
- The 16-bit timer counter `ms` is modelled as a natural number that never exceeds 500, so its `u16` wrap cannot occur.
- Salsa20.Rotate: an amount that is 0 modulo 32 makes C shift by 32, which is undefined. The model yields the word unchanged. The source only calls `Rotate` with 7, 9, 13 and 18.
- Salsa20.RotateIsRotation: proved to be the left rotation only for 7, 9, 13 and 18, the amounts the quarter round uses; the statement for every amount in 1..31 is beyond the solver's budget as a single bit-vector query.
- Salsa20.State.Encrypt: requires the input and output arrays to be distinct from the state's block. The callers in the stub program pass separate globals.
- LogicTemplate.Template.Valid does not include the property that the grid is one the events can build. The constructor, SurfaceEvent and TimerEvent state it as a separate ensures.
- The two gate simulators each keep their own copy of the scan definitions, because their cell types differ.
- Life.CountNeighbors: the eight calls of `count_cell_neighbors` are modelled as a list of offsets. The list is walked in the order of the calls.
