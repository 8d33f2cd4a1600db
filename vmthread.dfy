/**
 * One thread of the virtual machine: a program (a byte array of eight-byte
 * instructions), a program counter, and a stack whose current frame holds
 * the local variables instructions read and write.
 *
 * An instruction is laid out as
 *   byte 0      the opcode
 *   byte 1      high nibble: the data type; low nibble: the kind of operand 2
 *   byte 3      the local-variable index written to
 *   bytes 4..7  operand 2, most significant byte first
 * Only LOAD (opcode 0) is decoded, and it stores only into 8- and 16-bit
 * local variables.
 *
 * The functions state one step (`CycleOf`) on values, following the code as
 * written; `VMThread` runs it on the arrays. The functions whose names end in
 * `Fixed`, and `Operand2Kind` and `Operand2Value`, are the decoding the code
 * evidently intends (see the findings in the README).
 */
module Thread {
  import opened JavaInts
  import opened VMErrors
  import opened Lvt
  import opened OperandStack

  /* Kinds of operand 2 (the low nibble of byte 1), in the code's numbering. */
  const OperandRegister: JInt := 0x0
  const OperandImmediate: JInt := 0x1
  const OperandAddressToConstant: JInt := 0x2
  const OperandConstant: JInt := 0x3
  const OperandRegisterAddressPlusImmediateOffset: JInt := 0x4
  const OperandRegisterAddressPlusConstantOffset: JInt := 0x5
  const OperandRegisterAddressPlusRegisterOffset: JInt := 0x6
  const OperandIndirectAddressWithImmediateOffset: JInt := 0x7
  const OperandIndirectAddressWithConstantOffset: JInt := 0x8
  const OperandIndirectAddressWithRegisterOffset: JInt := 0x9

  /* Data types (the high nibble of byte 1). */
  const DataInt8: JInt := 0
  const DataInt16: JInt := 1
  const DataInt32: JInt := 2
  const DataInt64: JInt := 3
  const DataFloat16: JInt := 4
  const DataFloat32: JInt := 5
  const DataFloat64: JInt := 6
  const DataWord: JInt := 7

  /** The one opcode a cycle decodes. */
  const OpcodeLoad: JInt := 0x00

  /** The size of the stack every thread creates. */
  const ThreadStackSize := 65535

  /* ---------------------------------------------------------------------- */
  /* Decoding                                                               */
  /* ---------------------------------------------------------------------- */

  /**
   * `program[pc+1] >>> 4`. The byte is widened with its sign first, so only
   * a byte below 0x80 yields its high nibble; any other yields a value of
   * 0x0FFF_FFF8 or more, which is no data type.
   */
  function DataTypeField(b1: JByte): (r: JInt)
    ensures b1 < 0x80 ==> r == (b1 >> 4) as JInt && r < 8
    ensures b1 >= 0x80 ==> 0x0FFF_FFF8 <= r <= 0x0FFF_FFFF
  {
    UshrInt(ByteToInt(b1), 4)
  }

  /**
   * `program[pc+1] & 0xFF` as written: the mask keeps the whole byte, data
   * type included, so only a data-type nibble of 0 leaves the operand kind
   * as it is.
   */
  function Operand2TypeField(b1: JByte): (r: JInt)
    ensures r == b1 as JInt
    ensures r < 0x10 <==> b1 >> 4 == 0
  {
    ByteToInt(b1) & 0xFF
  }

  /** The intended operand kind: the low nibble of byte 1. */
  function Operand2Kind(b1: JByte): (r: JInt)
    ensures r < 0x10
    ensures (r as JByte) | (b1 >> 4 << 4) == b1
  {
    ByteToInt(b1) & 0x0F
  }

  /** `program[pc+3]`, widened with its sign: indexes 0x80 to 0xFF read as negative. */
  function LvtIndexField(b3: JByte): (r: int)
    ensures b3 < 0x80 ==> r == b3 as int
    ensures b3 >= 0x80 ==> r < 0
  {
    ByteValue(b3)
  }

  /**
   * `operand2Standard` as written: bytes 4 to 7 of the instruction, each
   * widened with its sign before it is shifted into place. This is the very
   * expression that ends `popInt32`, with the bytes in program order.
   */
  function Operand2Standard(b4: JByte, b5: JByte, b6: JByte, b7: JByte): JInt
  {
    CombineInt32(ByteToInt(b7), ByteToInt(b6), ByteToInt(b5), ByteToInt(b4))
  }

  /** The intended operand 2: the four bytes as one big-endian `int`. */
  function Operand2Value(b4: JByte, b5: JByte, b6: JByte, b7: JByte): JInt
  {
    Int32Value(b7, b6, b5, b4)
  }

  /** The low byte of operand 2 is byte 7, as written and as intended. */
  lemma Operand2LowByte(b4: JByte, b5: JByte, b6: JByte, b7: JByte)
    ensures IntToByte(Operand2Standard(b4, b5, b6, b7)) == b7
    ensures IntToByte(Operand2Value(b4, b5, b6, b7)) == b7
  {
    ByteToIntSignExtends(b7);
  }

  /**
   * The low 16 bits of operand 2 as written: bytes 6 and 7 when byte 7 is
   * below 0x80; otherwise the sign of byte 7 covers byte 6.
   */
  lemma Operand2LowShort(b4: JByte, b5: JByte, b6: JByte, b7: JByte)
    ensures b7 < 0x80 ==> IntToShort(Operand2Standard(b4, b5, b6, b7)) == (b6 as JShort << 8) | b7 as JShort
    ensures b7 >= 0x80 ==> IntToShort(Operand2Standard(b4, b5, b6, b7)) == 0xFF00 | b7 as JShort
  {
    ByteToIntSignExtends(b6);
    ByteToIntSignExtends(b7);
  }

  /** An operand whose byte 7 is 0x80 decodes as -128 instead of 0x180. */
  lemma Operand2Counterexample()
    ensures Operand2Standard(0x00, 0x00, 0x01, 0x80) == 0xFFFF_FF80
    ensures Operand2Value(0x00, 0x00, 0x01, 0x80) == 0x180
  {
  }

  /** The intended operand 2 is the `int` whose big-endian bytes were written. */
  lemma Operand2ValueRoundTrip(v: JInt)
    ensures Operand2Value(IntToByte((v >> 24) & 0xFF), IntToByte((v >> 16) & 0xFF),
                          IntToByte((v >> 8) & 0xFF), IntToByte(v & 0xFF)) == v
  {
    Int32RoundTrip(v);
  }

  /** The intended low 16 bits of operand 2 are bytes 6 and 7. */
  lemma Operand2ValueLowShort(b4: JByte, b5: JByte, b6: JByte, b7: JByte)
    ensures IntToShort(Operand2Value(b4, b5, b6, b7)) == (b6 as JShort << 8) | b7 as JShort
  {
    ByteToIntSignExtends(b6);
    ByteToIntSignExtends(b7);
  }

  /* ---------------------------------------------------------------------- */
  /* Loading                                                                */
  /* ---------------------------------------------------------------------- */

  /**
   * `loadInt8`: a register operand reads the current frame's `int8` array at
   * operand 2 (there must be a frame); an immediate or constant-address
   * operand is cut to a byte; any other kind is refused.
   */
  function LoadInt8Of(frame: Option<FrameState>, operand2Type: JInt, operand2: JInt): Result<JByte>
  {
    if operand2Type == OperandRegister then
      if frame.None? then Err(NullFrame) else Get(SlotType.Int8, frame.value.int8, IntValue(operand2))
    else if operand2Type == OperandImmediate || operand2Type == OperandAddressToConstant then
      Ok(IntToByte(operand2))
    else
      Err(InvalidOperandType(operand2Type))
  }

  /** `loadInt16`: as `loadInt8`, on the `int16` array, cutting to a `short`. */
  function LoadInt16Of(frame: Option<FrameState>, operand2Type: JInt, operand2: JInt): Result<JShort>
  {
    if operand2Type == OperandRegister then
      if frame.None? then Err(NullFrame) else Get(SlotType.Int16, frame.value.int16, IntValue(operand2))
    else if operand2Type == OperandImmediate || operand2Type == OperandAddressToConstant then
      Ok(IntToShort(operand2))
    else
      Err(InvalidOperandType(operand2Type))
  }

  /**
   * `loadInt8` refuses exactly the kinds above ADDRESS_TO_CONSTANT; an
   * immediate and a constant address are cut to their low byte, and a
   * register is read from the frame, which fails when there is no frame.
   */
  lemma LoadInt8OfKinds(frame: Option<FrameState>, operand2Type: JInt, operand2: JInt)
    ensures var v := LoadInt8Of(frame, operand2Type, operand2);
      && (v.Err? && v.error.InvalidOperandType? <==> operand2Type > OperandAddressToConstant)
      && (operand2Type == OperandImmediate ==> v == Ok(IntToByte(operand2)))
      && (operand2Type == OperandAddressToConstant ==> v == Ok(IntToByte(operand2)))
      && (operand2Type == OperandRegister && frame.Some? ==> v == Get(SlotType.Int8, frame.value.int8, IntValue(operand2)))
      && (operand2Type == OperandRegister && frame.None? ==> v == Err(NullFrame))
  {
    if operand2Type == OperandRegister && frame.Some? {
      var v := Get(SlotType.Int8, frame.value.int8, IntValue(operand2));
      assert v.Err? ==> !v.error.InvalidOperandType?;
    }
  }

  /** `loadInt16` refuses the same kinds; an immediate and a constant address are cut to their low 16 bits. */
  lemma LoadInt16OfKinds(frame: Option<FrameState>, operand2Type: JInt, operand2: JInt)
    ensures var v := LoadInt16Of(frame, operand2Type, operand2);
      && (v.Err? && v.error.InvalidOperandType? <==> operand2Type > OperandAddressToConstant)
      && (operand2Type == OperandImmediate ==> v == Ok(IntToShort(operand2)))
      && (operand2Type == OperandAddressToConstant ==> v == Ok(IntToShort(operand2)))
      && (operand2Type == OperandRegister && frame.Some? ==> v == Get(SlotType.Int16, frame.value.int16, IntValue(operand2)))
      && (operand2Type == OperandRegister && frame.None? ==> v == Err(NullFrame))
  {
    if operand2Type == OperandRegister && frame.Some? {
      var v := Get(SlotType.Int16, frame.value.int16, IntValue(operand2));
      assert v.Err? ==> !v.error.InvalidOperandType?;
    }
  }

  /** The current frame (absent when there is none) and how a step ended. */
  datatype Loaded = Loaded(frame: Option<FrameState>, outcome: Outcome)

  /**
   * `putInt8(lvtIndex, v)` on the current frame, once `v` has been loaded:
   * the frame is dereferenced only after the load, so a load error wins
   * over a missing frame.
   */
  function PutLoadedInt8(frame: Option<FrameState>, lvtIndex: int, v: Result<JByte>): Loaded
  {
    if v.Err? then Loaded(frame, Fail(v.error))
    else if frame.None? then Loaded(frame, Fail(NullFrame))
    else
      var p := Put(SlotType.Int8, frame.value.int8, lvtIndex, v.value);
      if p.Err? then Loaded(frame, Fail(p.error))
      else Loaded(Some(frame.value.(int8 := Some(p.value))), Pass)
  }

  /** `putInt16(lvtIndex, v)` on the current frame, once `v` has been loaded. */
  function PutLoadedInt16(frame: Option<FrameState>, lvtIndex: int, v: Result<JShort>): Loaded
  {
    if v.Err? then Loaded(frame, Fail(v.error))
    else if frame.None? then Loaded(frame, Fail(NullFrame))
    else
      var p := Put(SlotType.Int16, frame.value.int16, lvtIndex, v.value);
      if p.Err? then Loaded(frame, Fail(p.error))
      else Loaded(Some(frame.value.(int16 := Some(p.value))), Pass)
  }

  /** `currentStackFrame().putInt8(lvtIndex, loadInt8(operand2Type, operand2, true))`. */
  function StoreInt8(frame: Option<FrameState>, lvtIndex: int, operand2Type: JInt, operand2: JInt): Loaded
  {
    PutLoadedInt8(frame, lvtIndex, LoadInt8Of(frame, operand2Type, operand2))
  }

  /** `currentStackFrame().putInt16(lvtIndex, loadInt16(operand2Type, operand2, true))`. */
  function StoreInt16(frame: Option<FrameState>, lvtIndex: int, operand2Type: JInt, operand2: JInt): Loaded
  {
    PutLoadedInt16(frame, lvtIndex, LoadInt16Of(frame, operand2Type, operand2))
  }

  /** A store changes at most its own array, and only when it passes. */
  lemma StoreChangesOneArray(frame: Option<FrameState>, lvtIndex: int, operand2Type: JInt, operand2: JInt)
    ensures var l := StoreInt8(frame, lvtIndex, operand2Type, operand2);
      && (l.outcome.Fail? ==> l.frame == frame)
      && (l.outcome.Pass? ==> frame.Some? && l.frame.Some? && l.frame.value.(int8 := frame.value.int8) == frame.value)
    ensures var l := StoreInt16(frame, lvtIndex, operand2Type, operand2);
      && (l.outcome.Fail? ==> l.frame == frame)
      && (l.outcome.Pass? ==> frame.Some? && l.frame.Some? && l.frame.value.(int16 := frame.value.int16) == frame.value)
  {
  }

  /**
   * `load` as written: the INT8 case has no `break`, so after storing the
   * byte it goes on to store the `short` as well; INT16 stores the `short`;
   * any other data type is refused.
   */
  function LoadOf(frame: Option<FrameState>, dataType: JInt, lvtIndex: int, operand2Type: JInt, operand2: JInt): Loaded
  {
    if dataType == DataInt8 then
      var l := StoreInt8(frame, lvtIndex, operand2Type, operand2);
      if l.outcome.Fail? then l else StoreInt16(l.frame, lvtIndex, operand2Type, operand2)
    else if dataType == DataInt16 then
      StoreInt16(frame, lvtIndex, operand2Type, operand2)
    else
      Loaded(frame, Fail(InvalidDataType(dataType)))
  }

  /** The intended `load`: each data type stores into its own array only. */
  function LoadFixed(frame: Option<FrameState>, dataType: JInt, lvtIndex: int, operand2Type: JInt, operand2: JInt): Loaded
  {
    if dataType == DataInt8 then StoreInt8(frame, lvtIndex, operand2Type, operand2)
    else if dataType == DataInt16 then StoreInt16(frame, lvtIndex, operand2Type, operand2)
    else Loaded(frame, Fail(InvalidDataType(dataType)))
  }

  /** A data type other than INT8 and INT16 is refused and the frame left alone. */
  lemma LoadRejectsDataType(frame: Option<FrameState>, dataType: JInt, lvtIndex: int, operand2Type: JInt, operand2: JInt)
    requires dataType != DataInt8 && dataType != DataInt16
    ensures LoadOf(frame, dataType, lvtIndex, operand2Type, operand2) == Loaded(frame, Fail(InvalidDataType(dataType)))
    ensures LoadFixed(frame, dataType, lvtIndex, operand2Type, operand2) == Loaded(frame, Fail(InvalidDataType(dataType)))
  {
  }

  /**
   * An INT8 immediate load as written: the byte and then the `short` are
   * stored at the same index, and the load passes only if both arrays have it.
   */
  lemma LoadInt8ImmediateWritesBoth(f: FrameState, lvtIndex: int, operand2: JInt)
    requires f.int8.Some? && 0 <= lvtIndex < |f.int8.value|
    ensures var l := LoadOf(Some(f), DataInt8, lvtIndex, OperandImmediate, operand2);
      var f8 := f.(int8 := Some(f.int8.value[lvtIndex := IntToByte(operand2)]));
      && l.frame.Some?
      && l.frame.value.int8 == f8.int8
      && l.frame.value.(int16 := f.int16) == f8
      && (l.outcome.Pass? <==> f.int16.Some? && lvtIndex < |f.int16.value|)
      && (l.outcome.Pass? ==> l.frame == Some(f8.(int16 := Some(f.int16.value[lvtIndex := IntToShort(operand2)]))))
  {
  }

  /**
   * A frame with one byte variable and no `short` variables: the INT8 load
   * writes the byte and then fails on the missing `int16` array.
   */
  lemma FallThroughCounterexample()
    ensures var f := NoArrays.(int8 := Some([0x00]));
      LoadOf(Some(f), DataInt8, 0, OperandImmediate, 5) == Loaded(Some(f.(int8 := Some([0x05]))), Fail(Undeclared(SlotType.Int16)))
    ensures var f := NoArrays.(int8 := Some([0x00]));
      LoadFixed(Some(f), DataInt8, 0, OperandImmediate, 5) == Loaded(Some(f.(int8 := Some([0x05]))), Pass)
  {
    var f := NoArrays.(int8 := Some([0x00]));
    assert IntToByte(5) == 0x05;
    assert [0x00][0 := IntToByte(5)] == [0x05];
    assert StoreInt8(Some(f), 0, OperandImmediate, 5) == Loaded(Some(f.(int8 := Some([0x05]))), Pass);
  }

  /** The intended INT8 load stores the byte and touches no other array. */
  lemma LoadFixedInt8Immediate(f: FrameState, lvtIndex: int, operand2: JInt)
    ensures var l := LoadFixed(Some(f), DataInt8, lvtIndex, OperandImmediate, operand2);
      && (l.outcome.Pass? <==> f.int8.Some? && 0 <= lvtIndex < |f.int8.value|)
      && (l.outcome.Pass? ==> l.frame == Some(f.(int8 := Some(f.int8.value[lvtIndex := IntToByte(operand2)]))))
      && (l.outcome.Fail? ==> l.frame == Some(f) && l.outcome.error == Check(SlotType.Int8, f.int8, lvtIndex).error)
  {
  }

  /** The intended INT16 load stores the `short` and touches no other array. */
  lemma LoadFixedInt16Immediate(f: FrameState, lvtIndex: int, operand2: JInt)
    ensures var l := LoadFixed(Some(f), DataInt16, lvtIndex, OperandImmediate, operand2);
      && (l.outcome.Pass? <==> f.int16.Some? && 0 <= lvtIndex < |f.int16.value|)
      && (l.outcome.Pass? ==> l.frame == Some(f.(int16 := Some(f.int16.value[lvtIndex := IntToShort(operand2)]))))
      && (l.outcome.Fail? ==> l.frame == Some(f) && l.outcome.error == Check(SlotType.Int16, f.int16, lvtIndex).error)
  {
  }

  /* ---------------------------------------------------------------------- */
  /* One cycle                                                              */
  /* ---------------------------------------------------------------------- */

  /** The program counter, the current frame and how a cycle ended. */
  datatype Cycled = Cycled(pc: int, frame: Option<FrameState>, outcome: Outcome)

  /**
   * The check of an instruction's trailing bytes, in the order `cycle` reads
   * them: byte 1, byte 3, then bytes 4 to 7. The first one outside the
   * program is the index reported.
   */
  function InstructionBytes(length: int, pc: int): (r: Outcome)
    requires 0 <= pc < length
    ensures r.Pass? <==> pc + 7 < length
    ensures r.Fail? ==> r.error.ProgramIndex? && pc < r.error.index <= pc + 7 && r.error.index >= length
  {
    if pc + 1 >= length then Fail(ProgramIndex(pc + 1))
    else if pc + 3 >= length then Fail(ProgramIndex(pc + 3))
    else if pc + 4 >= length then Fail(ProgramIndex(pc + 4))
    else if pc + 5 >= length then Fail(ProgramIndex(pc + 5))
    else if pc + 6 >= length then Fail(ProgramIndex(pc + 6))
    else if pc + 7 >= length then Fail(ProgramIndex(pc + 7))
    else Pass
  }

  /** The fields a LOAD instruction supplies to `load`, decoded as `cycle` decodes them. */
  datatype Instruction = Instruction(dataType: JInt, lvtIndex: int, operand2Type: JInt, operand2: JInt)

  /** The decoding in `cycle` as written, of the instruction at `pc`. */
  function DecodeLoad(program: seq<JByte>, pc: int): Instruction
    requires 0 <= pc && pc + 7 < |program|
  {
    Instruction(DataTypeField(program[pc + 1]), LvtIndexField(program[pc + 3]), Operand2TypeField(program[pc + 1]),
                Operand2Standard(program[pc + 4], program[pc + 5], program[pc + 6], program[pc + 7]))
  }

  /** The intended decoding: the operand kind is a nibble and operand 2 is big-endian. */
  function DecodeLoadFixed(program: seq<JByte>, pc: int): Instruction
    requires 0 <= pc && pc + 7 < |program|
  {
    Instruction(DataTypeField(program[pc + 1]), LvtIndexField(program[pc + 3]), Operand2Kind(program[pc + 1]),
                Operand2Value(program[pc + 4], program[pc + 5], program[pc + 6], program[pc + 7]))
  }

  /**
   * `cycle` as written: check the program counter, fetch the opcode (a
   * signed byte), decode and run a LOAD, and move to the next instruction
   * only if nothing was thrown.
   */
  function CycleOf(program: seq<JByte>, pc: int, frame: Option<FrameState>): Cycled
  {
    if pc < 0 || pc >= |program| then Cycled(pc, frame, Fail(ProgramBounds))
    else if ByteToInt(program[pc]) != OpcodeLoad then Cycled(pc, frame, Fail(UnknownOpcode(ByteToInt(program[pc]))))
    else if InstructionBytes(|program|, pc).Fail? then Cycled(pc, frame, InstructionBytes(|program|, pc))
    else
      var i := DecodeLoad(program, pc);
      var l := LoadOf(frame, i.dataType, i.lvtIndex, i.operand2Type, i.operand2);
      Cycled(if l.outcome.Pass? then pc + 8 else pc, l.frame, l.outcome)
  }

  /** The intended `cycle`: the fixed decoding, and an INT8 case that breaks. */
  function CycleFixed(program: seq<JByte>, pc: int, frame: Option<FrameState>): Cycled
  {
    if pc < 0 || pc >= |program| then Cycled(pc, frame, Fail(ProgramBounds))
    else if ByteToInt(program[pc]) != OpcodeLoad then Cycled(pc, frame, Fail(UnknownOpcode(ByteToInt(program[pc]))))
    else if InstructionBytes(|program|, pc).Fail? then Cycled(pc, frame, InstructionBytes(|program|, pc))
    else
      var i := DecodeLoadFixed(program, pc);
      var l := LoadFixed(frame, i.dataType, i.lvtIndex, i.operand2Type, i.operand2);
      Cycled(if l.outcome.Pass? then pc + 8 else pc, l.frame, l.outcome)
  }

  /** A cycle that reaches a complete LOAD ends as the load does. */
  lemma CycleOfLoad(program: seq<JByte>, pc: int, frame: Option<FrameState>, l: Loaded)
    requires 0 <= pc && pc + 7 < |program| && ByteToInt(program[pc]) == OpcodeLoad
    requires var i := DecodeLoad(program, pc); l == LoadOf(frame, i.dataType, i.lvtIndex, i.operand2Type, i.operand2)
    ensures CycleOf(program, pc, frame) == Cycled(if l.outcome.Pass? then pc + 8 else pc, l.frame, l.outcome)
  {
  }

  /**
   * How a cycle ends: it advances by one instruction exactly when it passes,
   * it passes only on a LOAD that lies wholly inside the program, and a
   * cycle that fails leaves the frame as it was unless it is an INT8 LOAD,
   * whose byte store stays when the `short` store after it fails.
   */
  lemma CycleSteps(program: seq<JByte>, pc: int, frame: Option<FrameState>)
    ensures var c := CycleOf(program, pc, frame);
      && (c.outcome.Pass? ==> c.pc == pc + 8 && 0 <= pc && pc + 7 < |program| && ByteToInt(program[pc]) == OpcodeLoad)
      && (c.outcome.Fail? ==> c.pc == pc)
      && (pc < 0 || pc >= |program| ==> c == Cycled(pc, frame, Fail(ProgramBounds)))
      && (0 <= pc < |program| && program[pc] != 0 ==> c == Cycled(pc, frame, Fail(UnknownOpcode(ByteToInt(program[pc])))))
      && (c.outcome.Fail? && c.frame != frame ==> 0 <= pc && pc + 7 < |program| && program[pc + 1] >> 4 == 0)
  {
    if 0 <= pc < |program| {
      ByteToIntSignExtends(program[pc]);
      if pc + 7 < |program| {
        ByteToIntSignExtends(program[pc + 1]);
        var lvt := LvtIndexField(program[pc + 3]);
        var t := Operand2TypeField(program[pc + 1]);
        var op2 := Operand2Standard(program[pc + 4], program[pc + 5], program[pc + 6], program[pc + 7]);
        StoreChangesOneArray(frame, lvt, t, op2);
      }
    }
  }

  /** An opcode byte of 0x80 or more is reported as a negative opcode. */
  lemma CycleNegativeOpcode(program: seq<JByte>, pc: int, frame: Option<FrameState>)
    requires 0 <= pc < |program| && program[pc] >= 0x80
    ensures CycleOf(program, pc, frame) == Cycled(pc, frame, Fail(UnknownOpcode(program[pc] as JInt | 0xFFFF_FF00)))
  {
    ByteToIntSignExtends(program[pc]);
  }

  /**
   * Every complete INT16 LOAD fails as written: the operand kind keeps the
   * data-type nibble 1, so it is at least 0x10, which no load accepts.
   */
  lemma CycleInt16Rejected(program: seq<JByte>, pc: int, frame: Option<FrameState>)
    requires 0 <= pc && pc + 7 < |program| && program[pc] == 0x00
    requires program[pc + 1] >> 4 == 1
    ensures CycleOf(program, pc, frame) == Cycled(pc, frame, Fail(InvalidOperandType(program[pc + 1] as JInt)))
  {
    ByteToIntSignExtends(program[pc + 1]);
  }

  /**
   * An INT8 LOAD of an immediate as written: byte 7 goes to the byte
   * variable and the low 16 bits of the sign-smeared operand to the `short`
   * variable, and the counter advances when both exist.
   */
  lemma CycleInt8Immediate(program: seq<JByte>, pc: int, f: FrameState)
    requires 0 <= pc && pc + 7 < |program| && program[pc] == 0x00 && program[pc + 1] == 0x01
    requires program[pc + 3] < 0x80
    requires f.int8.Some? && program[pc + 3] as int < |f.int8.value|
    requires f.int16.Some? && program[pc + 3] as int < |f.int16.value|
    ensures var i := program[pc + 3] as int;
      var op2 := Operand2Standard(program[pc + 4], program[pc + 5], program[pc + 6], program[pc + 7]);
      CycleOf(program, pc, Some(f)) ==
        Cycled(pc + 8, Some(f.(int8 := Some(f.int8.value[i := program[pc + 7]]),
                               int16 := Some(f.int16.value[i := IntToShort(op2)]))), Pass)
  {
    var op2 := Operand2Standard(program[pc + 4], program[pc + 5], program[pc + 6], program[pc + 7]);
    ByteToIntSignExtends(program[pc + 1]);
    Operand2LowByte(program[pc + 4], program[pc + 5], program[pc + 6], program[pc + 7]);
    LoadInt8ImmediateWritesBoth(f, program[pc + 3] as int, op2);
  }

  /**
   * The intended INT16 LOAD of an immediate: bytes 6 and 7 go to the
   * `short` variable and nothing else changes.
   */
  lemma CycleFixedInt16Immediate(program: seq<JByte>, pc: int, f: FrameState)
    requires 0 <= pc && pc + 7 < |program| && program[pc] == 0x00 && program[pc + 1] == 0x11
    requires program[pc + 3] < 0x80
    requires f.int16.Some? && program[pc + 3] as int < |f.int16.value|
    ensures var i := program[pc + 3] as int;
      CycleFixed(program, pc, Some(f)) ==
        Cycled(pc + 8, Some(f.(int16 := Some(f.int16.value[i := (program[pc + 6] as JShort << 8) | program[pc + 7] as JShort]))), Pass)
  {
    var op2 := Operand2Value(program[pc + 4], program[pc + 5], program[pc + 6], program[pc + 7]);
    ByteToIntSignExtends(program[pc + 1]);
    Operand2ValueLowShort(program[pc + 4], program[pc + 5], program[pc + 6], program[pc + 7]);
    LoadFixedInt16Immediate(f, program[pc + 3] as int, op2);
  }

  /* ---------------------------------------------------------------------- */
  /* The thread                                                             */
  /* ---------------------------------------------------------------------- */

  /** A thread: its own stack, the program it runs and its program counter. */
  class VMThread {
    const stack: Stack
    const program: array<JByte>
    var programCounter: int

    /** The current frame as a set: empty when the stack holds none. */
    ghost function Current(): set<StackFrame>
      reads this, stack
    {
      if stack.stackFrames == [] then {} else {stack.stackFrames[0]}
    }

    /** The arrays a cycle may write: the current frame's `int8` and `int16` variables. */
    ghost function Writable(): set<object>
      reads this, stack, Current()
    {
      if stack.stackFrames == [] then {} else Own(stack.stackFrames[0].int8) + Own(stack.stackFrames[0].int16)
    }

    /** The current frame's variables, or `None` when there is no frame. */
    ghost function Frame(): Option<FrameState>
      reads this, stack, Current(), if stack.stackFrames == [] then {} else stack.stackFrames[0].Repr()
    {
      if stack.stackFrames == [] then None else Some(stack.stackFrames[0].State())
    }

    /**
     * The current frame is well formed, and neither the program nor the
     * operand stack is one of the arrays a cycle writes.
     */
    ghost predicate Valid()
      reads this, stack, Current()
    {
      && (stack.stackFrames != [] ==> stack.stackFrames[0].Valid())
      && program !in Writable()
      && stack.stack !in Writable()
    }

    /** A thread with a fresh, cleared stack of 65535 bytes, starting at `address`. */
    constructor (program: array<JByte>, address: int)
      ensures this.program == program && programCounter == address
      ensures fresh(stack) && stack.State() == StackState(seq(ThreadStackSize, _ => 0), ThreadStackSize)
      ensures stack.branchPointer == ThreadStackSize && stack.stackFrames == []
      ensures Valid() && Frame() == None
    {
      var s := new Stack(ThreadStackSize);
      stack := s;
      this.program := program;
      programCounter := address;
      new;
      s.Clear();
    }

    /** `checkBounds`: the program counter must index the program. */
    function CheckBounds(): (r: Outcome)
      reads this
      ensures r.Pass? <==> 0 <= programCounter < program.Length
      ensures r.Fail? ==> r.error == ProgramBounds
    {
      if programCounter < 0 || programCounter >= program.Length then Fail(ProgramBounds) else Pass
    }

    /** `loadInt8`, reading a register from the current frame. */
    method LoadInt8(operand2Type: JInt, operand2: JInt) returns (r: Result<JByte>)
      requires Valid()
      ensures r == LoadInt8Of(Frame(), operand2Type, operand2)
    {
      if operand2Type == OperandRegister {
        var frame := stack.CurrentStackFrame();
        if frame == null { return Err(NullFrame); }
        r := frame.GetInt8(IntValue(operand2));
      } else if operand2Type == OperandImmediate || operand2Type == OperandAddressToConstant {
        r := Ok(IntToByte(operand2));
      } else {
        r := Err(InvalidOperandType(operand2Type));
      }
    }

    /** `loadInt16`, reading a register from the current frame. */
    method LoadInt16(operand2Type: JInt, operand2: JInt) returns (r: Result<JShort>)
      requires Valid()
      ensures r == LoadInt16Of(Frame(), operand2Type, operand2)
    {
      if operand2Type == OperandRegister {
        var frame := stack.CurrentStackFrame();
        if frame == null { return Err(NullFrame); }
        r := frame.GetInt16(IntValue(operand2));
      } else if operand2Type == OperandImmediate || operand2Type == OperandAddressToConstant {
        r := Ok(IntToShort(operand2));
      } else {
        r := Err(InvalidOperandType(operand2Type));
      }
    }

    /** `frame.putInt8(lvtIndex, v)`, where `frame` was fetched before `v` was loaded. */
    method PutLoadedInt8Step(frame: StackFrame?, lvtIndex: int, v: Result<JByte>) returns (r: Outcome)
      requires Valid() && frame == stack.CurrentStackFrame()
      modifies Writable()
      ensures Loaded(Frame(), r) == PutLoadedInt8(old(Frame()), lvtIndex, v)
    {
      if v.Err? { return Fail(v.error); }
      if frame == null { return Fail(NullFrame); }
      r := frame.PutInt8(lvtIndex, v.value);
    }

    /** `frame.putInt16(lvtIndex, v)`, where `frame` was fetched before `v` was loaded. */
    method PutLoadedInt16Step(frame: StackFrame?, lvtIndex: int, v: Result<JShort>) returns (r: Outcome)
      requires Valid() && frame == stack.CurrentStackFrame()
      modifies Writable()
      ensures Loaded(Frame(), r) == PutLoadedInt16(old(Frame()), lvtIndex, v)
    {
      if v.Err? { return Fail(v.error); }
      if frame == null { return Fail(NullFrame); }
      r := frame.PutInt16(lvtIndex, v.value);
    }

    /** `currentStackFrame().putInt8(lvtIndex, loadInt8(...))`: frame first, then the load, then the store. */
    method StoreInt8Step(lvtIndex: int, operand2Type: JInt, operand2: JInt) returns (r: Outcome)
      requires Valid()
      modifies Writable()
      ensures Loaded(Frame(), r) == StoreInt8(old(Frame()), lvtIndex, operand2Type, operand2)
    {
      var frame := stack.CurrentStackFrame();
      var v := LoadInt8(operand2Type, operand2);
      r := PutLoadedInt8Step(frame, lvtIndex, v);
    }

    /** `currentStackFrame().putInt16(lvtIndex, loadInt16(...))`. */
    method StoreInt16Step(lvtIndex: int, operand2Type: JInt, operand2: JInt) returns (r: Outcome)
      requires Valid()
      modifies Writable()
      ensures Loaded(Frame(), r) == StoreInt16(old(Frame()), lvtIndex, operand2Type, operand2)
    {
      var frame := stack.CurrentStackFrame();
      var v := LoadInt16(operand2Type, operand2);
      r := PutLoadedInt16Step(frame, lvtIndex, v);
    }

    /** `load`: INT8 stores the byte and falls through into the INT16 store. */
    method Load(instructionType: JInt, lvtIndex: int, operand2Type: JInt, operand2: JInt) returns (r: Outcome)
      requires Valid()
      modifies Writable()
      ensures Valid() && Writable() == old(Writable())
      ensures Loaded(Frame(), r) == LoadOf(old(Frame()), instructionType, lvtIndex, operand2Type, operand2)
      ensures program[..] == old(program[..]) && stack.State() == old(stack.State())
    {
      if instructionType != DataInt8 && instructionType != DataInt16 {
        return Fail(InvalidDataType(instructionType));
      }
      if instructionType == DataInt8 {
        r := StoreInt8Step(lvtIndex, operand2Type, operand2);
        if r.Fail? { return; }
      }
      r := StoreInt16Step(lvtIndex, operand2Type, operand2);
    }

    /**
     * `cycle`: one instruction. The program counter moves on by eight bytes
     * only when the instruction completes; the program and the operand stack
     * are not changed.
     */
    method Cycle() returns (r: Outcome)
      requires Valid()
      modifies this, Writable()
      ensures Valid() && Writable() == old(Writable())
      ensures Cycled(programCounter, Frame(), r) == CycleOf(old(program[..]), old(programCounter), old(Frame()))
      ensures program[..] == old(program[..])
      ensures stack.State() == old(stack.State())
    {
      r := CheckBounds();
      if r.Fail? { return; }
      var opcode := ByteToInt(program[programCounter]);
      if opcode != OpcodeLoad {
        return Fail(UnknownOpcode(opcode));
      }
      r := InstructionBytes(program.Length, programCounter);
      if r.Fail? { return; }
      var pc := programCounter;
      var i := DecodeLoad(program[..], pc);
      r := Load(i.dataType, i.lvtIndex, i.operand2Type, i.operand2);
      CycleOfLoad(old(program[..]), pc, old(Frame()), Loaded(Frame(), r));
      if r.Fail? { return; }
      programCounter := pc + 8;
    }
  }
}
