/**
 * The failures the execution engine can raise, as values. The Java code throws
 * `VMException`, its subclass `VMStackException`, `java.lang.StackOverflowError`,
 * and (by dereferencing a missing frame, reading past the program or popping an
 * empty frame deque) Java runtime exceptions; each becomes one variant here, and
 * an operation that would throw returns it instead.
 */
module VMErrors {
  import opened JavaInts

  /** The seven typed arrays of a stack frame's local-variable table (LVT). */
  datatype SlotType = Int64 | Float64 | Int32 | Float32 | Int16 | Float16 | Int8

  datatype VMError =
    /** `StackOverflowError`: the operand stack pointer went below 0. */
    | StackOverflow
    /** `StackOverflowError`: a pop found the operand stack pointer at or past the end. */
    | StackUnderflow
    /** `NoSuchElementException`: the frame deque was popped while empty. */
    | NoSuchFrame
    /** `NullPointerException`: an instruction used the current frame while there was none. */
    | NullFrame
    /** `NullPointerException`: a `null` frame was pushed onto the frame deque, which refuses `null`. */
    | NullElement
    /** `VMStackException`: the frame has no array of this type ("none were declared"). */
    | Undeclared(slot: SlotType)
    /** `VMStackException`: the index is outside the frame's array of this type. */
    | InvalidIndex(slot: SlotType, index: int)
    /** `VMException`: the program counter is outside the program. */
    | ProgramBounds
    /** `ArrayIndexOutOfBoundsException`: an instruction byte past the end of the program was read. */
    | ProgramIndex(index: int)
    /** `VMException` "Unknown opcode": the opcode byte, widened to `int`. */
    | UnknownOpcode(opcode: JInt)
    /** `VMException` "Invalid instruction data type". */
    | InvalidDataType(dataType: JInt)
    /** `VMException` "Invalid operandType". */
    | InvalidOperandType(operandType: JInt)
  {
    /** The failures that are a `VMStackException`. */
    predicate IsVMStackException() {
      Undeclared? || InvalidIndex?
    }

    /** The failures that are a `VMException` (including `VMStackException`). */
    predicate IsVMException() {
      IsVMStackException() || ProgramBounds? || UnknownOpcode? || InvalidDataType? || InvalidOperandType?
    }
  }

  /** An operation without a result: it completed, or it raised. */
  datatype Outcome = Pass | Fail(error: VMError)

  /** An operation with a result of type T: it returned one, or it raised. */
  datatype Result<T> = Ok(value: T) | Err(error: VMError)

  /** A Java reference that may be `null`. */
  datatype Option<T> = None | Some(value: T)
}
