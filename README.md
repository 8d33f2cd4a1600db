# esovm execution core in Dafny

This project models the execution engine of the esovm virtual machine, the
package `blue.endless.junior.esovm`. The engine has three parts:

- **The operand stack** (`Stack`). This is a fixed byte buffer that grows
  downward from its end, with a stack pointer. Every multi-byte push and pop
  is a run of one-byte pushes and pops, and each one-byte step is guarded by
  a range check. The same class keeps a LIFO of stack frames. It can also
  build a frame from a packed 64-bit layout word.
- **The stack frame** (`StackFrame`). This is a local-variable table (LVT)
  of seven typed arrays: int64, float64, int32, float32, int16, float16 and
  int8. Each array is `null` until `reserve` gives it a positive count. Every
  `get`/`put` checks that the array exists and that the index is inside it.
- **The thread** (`VMThread`). It holds a program, a program counter and its
  own stack. `cycle` checks the counter, fetches the opcode and decodes a
  LOAD. It then stores into the current frame, and it advances the counter
  by one eight-byte instruction only when nothing was thrown.

Java's fixed-width integers are kept as bit patterns: `bv8`, `bv16`, `bv32`
and `bv64` (module `JavaInts`). A `byte` widened to `int` is sign-extended,
narrowing casts keep the low bits, and shift distances are reduced modulo
the operand width, all as in Java. Exceptions become values of one error
datatype (module `VMErrors`). Each method returns an `Outcome` or a
`Result` instead of throwing.

Each class is specified by pure functions over a value of its state, and
then proved against them:

| class | state value | specification functions |
|---|---|---|
| `Lvt.StackFrame` | `FrameState` | `Check`, `Get`, `Put`, `AfterReserve` |
| `OperandStack.Stack` | `StackState`, its buffer and pointer | `PushByte`, `PushBytes`, `PopBytes`, `PopInt8Of` … `PopInt64Of`, `LayoutCounts` |
| `Thread.VMThread` | — | `Operand2Standard`, `LoadInt8Of`, `LoadInt16Of`, `StoreInt8`, `StoreInt16`, `LoadOf`, `CycleOf` |

`LoadOf` and `CycleOf` are one step over the current frame's value. The
lemmas about these functions state what the code promises. They also state
where it departs from what its authors evidently meant (see
"## Findings"). The functions named `…Fixed`, `Int16Value`, `Int32Value`,
`Int64Value`, `Operand2Kind` and `Operand2Value` are the corrected versions.

Files:

| file | module | contents |
|---|---|---|
| `javaints.dfy` | `JavaInts` | fixed-width integers |
| `vmerrors.dfy` | `VMErrors` | error, outcome and option types |
| `lvt.dfy` | `Lvt` | the stack frame |
| `stack.dfy` | `OperandStack` | the operand and frame stack |
| `vmthread.dfy` | `Thread` | constants, decoding, `load` and `cycle` |

## Model

| member | source | states |
|---|---|---|
| Lvt.StackFrame.constructor | src/main/java/blue/endless/junior/esovm/StackFrame.java:17-19 | A new frame keeps the given method name and has all seven arrays `null` |
| Lvt.StackFrame.Unnamed | src/main/java/blue/endless/junior/esovm/StackFrame.java:13-15 | The no-argument frame is named "unknown" and has all seven arrays `null` |
| Lvt.StackFrame.Reserve | src/main/java/blue/endless/junior/esovm/StackFrame.java:21-29 | After `reserve`, the frame holds `AfterReserve` of its old contents: each width with a positive count has a fresh zero-filled array of exactly that length, and every other width keeps its array |
| Lvt.AfterReserve | src/main/java/blue/endless/junior/esovm/StackFrame.java:21-29 | No contract; the frame value `reserve` leaves: a width with a positive count gets a zero-filled array of exactly that length, every other width keeps its array. Its properties are in Lvt.ReserveAllocates and Lvt.ReserveFresh |
| Lvt.StackFrame.ReserveInt64 | src/main/java/blue/endless/junior/esovm/StackFrame.java:22 | A positive count replaces the int64 array with a fresh zero-filled one of that length; otherwise it keeps it; the other six fields are unchanged |
| Lvt.StackFrame.ReserveFloat64 | src/main/java/blue/endless/junior/esovm/StackFrame.java:23 | The same for the float64 array |
| Lvt.StackFrame.ReserveInt32 | src/main/java/blue/endless/junior/esovm/StackFrame.java:24 | The same for the int32 array |
| Lvt.StackFrame.ReserveFloat32 | src/main/java/blue/endless/junior/esovm/StackFrame.java:25 | The same for the float32 array |
| Lvt.StackFrame.ReserveInt16 | src/main/java/blue/endless/junior/esovm/StackFrame.java:26 | The same for the int16 array |
| Lvt.StackFrame.ReserveFloat16 | src/main/java/blue/endless/junior/esovm/StackFrame.java:27 | The same for the float16 array, which is a different object from the int16 array |
| Lvt.StackFrame.ReserveInt8 | src/main/java/blue/endless/junior/esovm/StackFrame.java:28 | The same for the int8 array |
| Lvt.ReserveAllocates | src/main/java/blue/endless/junior/esovm/StackFrame.java:21-29 | For every width: a positive count gives an array of exactly that length, all zeros; a count of zero or less leaves the width as it was |
| Lvt.ReserveFresh | src/main/java/blue/endless/junior/esovm/StackFrame.java:21-29 | On a fresh frame, a width has an array after `reserve` if and only if its count is positive |
| Lvt.Get | src/main/java/blue/endless/junior/esovm/StackFrame.java:31-34 | A read succeeds exactly when the check passes, fails with the check's error otherwise, and returns the slot's value |
| Lvt.Put | src/main/java/blue/endless/junior/esovm/StackFrame.java:66-69 | A write succeeds exactly when the check passes, fails with the check's error otherwise, and on success changes only the slot written, keeping the length |
| Lvt.Check | src/main/java/blue/endless/junior/esovm/StackFrame.java:101-134 | No contract; the `checkX` test of each width: "none were declared" when the array is absent, then "invalid index" when the index is outside it, otherwise pass. Its properties are in Lvt.CheckFailures, Lvt.Get and Lvt.Put |
| Lvt.CheckFailures | src/main/java/blue/endless/junior/esovm/StackFrame.java:101-104 | An access fails with "none were declared" if and only if the array is `null`, fails with "invalid index" if and only if the array exists and the index is outside it, and every such failure is a `VMStackException` |
| Lvt.GetAfterPut | src/main/java/blue/endless/junior/esovm/StackFrame.java:31-99 | A successful `put(i, v)` followed by `get(i)` returns v |
| Lvt.GetOtherAfterPut | src/main/java/blue/endless/junior/esovm/StackFrame.java:31-99 | A successful `put(i, v)` does not change what `get(j)` returns, for any j ≠ i |
| Lvt.PutFailsLikeGet | src/main/java/blue/endless/junior/esovm/StackFrame.java:66-99 | A `put` fails exactly where a `get` at the same index fails, with the same error |
| Lvt.StackFrame.CheckInt8 | src/main/java/blue/endless/junior/esovm/StackFrame.java:101-104 | `checkInt8` is `Check` on the int8 array |
| Lvt.StackFrame.CheckInt16 | src/main/java/blue/endless/junior/esovm/StackFrame.java:106-109 | `checkInt16` is `Check` on the int16 array |
| Lvt.StackFrame.CheckInt32 | src/main/java/blue/endless/junior/esovm/StackFrame.java:111-114 | `checkInt32` is `Check` on the int32 array |
| Lvt.StackFrame.CheckInt64 | src/main/java/blue/endless/junior/esovm/StackFrame.java:116-119 | `checkInt64` is `Check` on the int64 array |
| Lvt.StackFrame.CheckFloat16 | src/main/java/blue/endless/junior/esovm/StackFrame.java:121-124 | `checkFloat16` is `Check` on the float16 array |
| Lvt.StackFrame.CheckFloat32 | src/main/java/blue/endless/junior/esovm/StackFrame.java:126-129 | `checkFloat32` is `Check` on the float32 array |
| Lvt.StackFrame.CheckFloat64 | src/main/java/blue/endless/junior/esovm/StackFrame.java:131-134 | `checkFloat64` is `Check` on the float64 array |
| Lvt.StackFrame.GetInt8 | src/main/java/blue/endless/junior/esovm/StackFrame.java:31-34 | `getInt8` returns `Get` on the int8 array: the slot's byte, or the check's error; it changes nothing |
| Lvt.StackFrame.GetInt16 | src/main/java/blue/endless/junior/esovm/StackFrame.java:36-39 | The same for the int16 array |
| Lvt.StackFrame.GetInt32 | src/main/java/blue/endless/junior/esovm/StackFrame.java:41-44 | The same for the int32 array |
| Lvt.StackFrame.GetInt64 | src/main/java/blue/endless/junior/esovm/StackFrame.java:46-49 | The same for the int64 array |
| Lvt.StackFrame.GetFloat16 | src/main/java/blue/endless/junior/esovm/StackFrame.java:51-54 | The same for the float16 array |
| Lvt.StackFrame.GetFloat32 | src/main/java/blue/endless/junior/esovm/StackFrame.java:56-59 | The same for the float32 array, as bit patterns |
| Lvt.StackFrame.GetFloat64 | src/main/java/blue/endless/junior/esovm/StackFrame.java:61-64 | The same for the float64 array, as bit patterns |
| Lvt.StackFrame.PutInt8 | src/main/java/blue/endless/junior/esovm/StackFrame.java:66-69 | `putInt8` is `Put` on the int8 array: on success it writes that one slot, and a failure leaves the whole frame unchanged; it modifies only the int8 array |
| Lvt.StackFrame.PutInt16 | src/main/java/blue/endless/junior/esovm/StackFrame.java:71-74 | The same for the int16 array |
| Lvt.StackFrame.PutInt32 | src/main/java/blue/endless/junior/esovm/StackFrame.java:76-79 | The same for the int32 array |
| Lvt.StackFrame.PutInt64 | src/main/java/blue/endless/junior/esovm/StackFrame.java:81-84 | The same for the int64 array |
| Lvt.StackFrame.PutFloat16 | src/main/java/blue/endless/junior/esovm/StackFrame.java:86-89 | The same for the float16 array |
| Lvt.StackFrame.PutFloat32 | src/main/java/blue/endless/junior/esovm/StackFrame.java:91-94 | The same for the float32 array |
| Lvt.StackFrame.PutFloat64 | src/main/java/blue/endless/junior/esovm/StackFrame.java:96-99 | The same for the float64 array |
| OperandStack.CheckPointer | src/main/java/blue/endless/junior/esovm/Stack.java:161-165 | The range check passes if and only if the pointer is inside the buffer; it reports an overflow if and only if the pointer is negative, and an underflow if and only if the pointer is at or past the end |
| OperandStack.PushByte | src/main/java/blue/endless/junior/esovm/Stack.java:25-29 | Keeps the buffer length. A one-byte push decrements the pointer, range-checks it and stores the byte there; its effect is stated in OperandStack.PushBytesSucceeds, OperandStack.PushBytesOverflows, OperandStack.PushBytesKeepsCell and OperandStack.PushThenPop |
| OperandStack.PushBytes | src/main/java/blue/endless/junior/esovm/Stack.java:31-69 | Keeps the buffer length. A multi-byte push is one `PushByte` per byte, stopping at the first failure; its effect is stated in the same lemmas |
| OperandStack.PopByte | src/main/java/blue/endless/junior/esovm/Stack.java:87-92 | No contract; a one-byte pop range-checks the pointer, reads the byte and increments the pointer. Its properties are in OperandStack.PopInt8OfSpec and OperandStack.PopByteIsPopBytes |
| OperandStack.PopBytes | src/main/java/blue/endless/junior/esovm/Stack.java:94-120 | A successful pop of n bytes yields exactly n bytes; it is one `PopByte` per byte, stopping at the first failure. Its effect is stated in OperandStack.PopBytesSpec and OperandStack.PushThenPop |
| OperandStack.PopFailure | src/main/java/blue/endless/junior/esovm/Stack.java:94-120 | No contract; the end state of a multi-byte pop that finds too few bytes: an overflow keeps a negative pointer, an underflow stops at the end of the buffer. OperandStack.PopInt16OfFails, OperandStack.PopInt32OfFails and OperandStack.PopInt64OfFails state when it applies |
| OperandStack.PushBytesSucceeds | src/main/java/blue/endless/junior/esovm/Stack.java:25-69 | A push of k bytes completes if and only if k bytes are free below the pointer; it then lowers the pointer by exactly k, stores the bytes downward from the old pointer in push order, and changes no other byte |
| OperandStack.PushBytesOverflows | src/main/java/blue/endless/junior/esovm/Stack.java:25-29 | A push with too little room fails with an overflow; the bytes that fit stay written, and the pointer ends at -1, or one lower if it was already negative (no rollback) |
| OperandStack.PushBytesKeepsCell | src/main/java/blue/endless/junior/esovm/Stack.java:25-29 | A push never changes a byte at or above the pointer it started from, whether it completes or not |
| OperandStack.PushBytesStops | src/main/java/blue/endless/junior/esovm/Stack.java:31-69 | Once one byte of a multi-byte push has failed, the later bytes change nothing more |
| OperandStack.PopBytesSpec | src/main/java/blue/endless/junior/esovm/Stack.java:87-120 | A pop of n bytes never changes the buffer; it completes if and only if n bytes lie at and above the pointer, and then returns them from the pointer up and raises the pointer by n; a failure is an overflow if the pointer is negative and an underflow otherwise |
| OperandStack.PopInt8Of | src/main/java/blue/endless/junior/esovm/Stack.java:87-92 | No contract; `popInt8` on the stack value. OperandStack.PopInt8OfSpec states its result and end state, and OperandStack.PushThenPopInt8 its round trip |
| OperandStack.PopInt16Of | src/main/java/blue/endless/junior/esovm/Stack.java:94-98 | No contract; `popInt16` on the stack value. Its properties are in OperandStack.PopInt16OfOk, OperandStack.PopInt16OfFails and OperandStack.PushThenPopInt16 |
| OperandStack.PopInt32Of | src/main/java/blue/endless/junior/esovm/Stack.java:100-107 | No contract; `popInt32` on the stack value. Its properties are in OperandStack.PopInt32OfOk, OperandStack.PopInt32OfFails and OperandStack.PushThenPopInt32 |
| OperandStack.PopInt64Of | src/main/java/blue/endless/junior/esovm/Stack.java:109-120 | No contract; `popInt64` on the stack value. Its properties are in OperandStack.PopInt64OfOk, OperandStack.PopInt64OfFails and OperandStack.PushThenPopInt64 |
| OperandStack.PopInt16Fixed | src/main/java/blue/endless/junior/esovm/Stack.java:94-98 | No contract; the intended `popInt16`. OperandStack.PushThenPopInt16Fixed states its round trip |
| OperandStack.PopInt32Fixed | src/main/java/blue/endless/junior/esovm/Stack.java:100-107 | No contract; the intended `popInt32`. OperandStack.PushThenPopInt32Fixed states its round trip |
| OperandStack.PopInt64Fixed | src/main/java/blue/endless/junior/esovm/Stack.java:109-120 | No contract; the intended `popInt64`. OperandStack.PushThenPopInt64Fixed states its round trip |
| OperandStack.PopInt8OfSpec | src/main/java/blue/endless/junior/esovm/Stack.java:87-92 | `popInt8` succeeds if and only if there is a byte at the pointer; it returns that byte sign-extended and raises the pointer by one; an underflow or overflow leaves the pointer where it was |
| OperandStack.PopByteIsPopBytes | src/main/java/blue/endless/junior/esovm/Stack.java:87-92 | Popping one byte is the one-byte case of a multi-byte pop |
| OperandStack.PushThenPop | src/main/java/blue/endless/junior/esovm/Stack.java:25-120 | After a completed push of some bytes, popping that many bytes returns them in exact reverse order and puts the pointer back where it was |
| OperandStack.PushThenPopInt8 | src/main/java/blue/endless/junior/esovm/Stack.java:25-92 | After a completed `pushInt8(v)`, `popInt8` returns v's low byte sign-extended and restores the pointer |
| OperandStack.PushThenPopByte | src/main/java/blue/endless/junior/esovm/Stack.java:25-92 | After a completed push of byte b, popping one byte returns b and restores the pointer |
| OperandStack.PushThenPopInt16Bytes | src/main/java/blue/endless/junior/esovm/Stack.java:35-98 | `popInt16` after two pushed bytes decodes them low byte first and restores the pointer |
| OperandStack.PushThenPopInt32Bytes | src/main/java/blue/endless/junior/esovm/Stack.java:45-107 | `popInt32` after four pushed bytes decodes them in reverse push order and restores the pointer |
| OperandStack.PushThenPopInt64Bytes | src/main/java/blue/endless/junior/esovm/Stack.java:61-120 | `popInt64` after eight pushed bytes decodes them in reverse push order and restores the pointer |
| OperandStack.PushThenPopInt16 | src/main/java/blue/endless/junior/esovm/Stack.java:31-98 | After a completed `pushInt16(v)`, `popInt16` as written restores the pointer and returns `Smeared16(v)`: v's low 16 bits, with the high bits set by whichever byte's sign bit is set first |
| OperandStack.PushThenPopInt32 | src/main/java/blue/endless/junior/esovm/Stack.java:39-107 | After a completed `pushInt32(v)`, `popInt32` as written restores the pointer and returns `Smeared32(v)` |
| OperandStack.PushThenPopInt64 | src/main/java/blue/endless/junior/esovm/Stack.java:51-120 | After a completed `pushInt64(v)`, `popInt64` as written restores the pointer and returns the as-written 32-bit pops of v's two halves, ORed and sign-extended |
| OperandStack.PopInt16Smears | src/main/java/blue/endless/junior/esovm/Stack.java:94-98 | `popInt16` of the bytes of v is `Smeared16(v)` |
| OperandStack.PopInt16SmearsLow | src/main/java/blue/endless/junior/esovm/Stack.java:89-97 | If bit 7 of v is set, `popInt16` sets bits 8 to 31 and loses v's high byte |
| OperandStack.PopInt16SmearsHigh | src/main/java/blue/endless/junior/esovm/Stack.java:89-97 | If only bit 15 of the two sign bits is set, `popInt16` sets bits 16 to 31 |
| OperandStack.PopInt16Exact | src/main/java/blue/endless/junior/esovm/Stack.java:94-98 | If neither byte's sign bit is set, `popInt16` returns v's low 16 bits exactly |
| OperandStack.PopInt32Smears | src/main/java/blue/endless/junior/esovm/Stack.java:100-107 | `popInt32` of the bytes of v is `Smeared32(v)` |
| OperandStack.PopInt32SmearsByte0 | src/main/java/blue/endless/junior/esovm/Stack.java:89-106 | If bit 7 of v is set, `popInt32` returns v with bits 8 to 31 set |
| OperandStack.PopInt32SmearsByte1 | src/main/java/blue/endless/junior/esovm/Stack.java:89-106 | If bit 15 is the lowest byte sign bit set, bits 16 to 31 are set |
| OperandStack.PopInt32SmearsByte2 | src/main/java/blue/endless/junior/esovm/Stack.java:89-106 | If bit 23 is the lowest byte sign bit set, bits 24 to 31 are set |
| OperandStack.PopInt32Exact | src/main/java/blue/endless/junior/esovm/Stack.java:100-107 | If bits 7, 15 and 23 are clear, `popInt32` returns v exactly |
| OperandStack.PopInt64OrsHalves | src/main/java/blue/endless/junior/esovm/Stack.java:119 | `popInt64`'s `int` shifts by 32 to 56 reduce to shifts by 0 to 24, so the result is the two halves' `int` pops ORed, then sign-extended |
| OperandStack.PopInt64UpperHalf | src/main/java/blue/endless/junior/esovm/Stack.java:110-119 | The upper four bytes of `pushInt64(v)` decode, as written, to `Smeared32` of v's upper half |
| OperandStack.PopInt64LowerHalf | src/main/java/blue/endless/junior/esovm/Stack.java:110-119 | The lower four bytes decode, as written, to `Smeared32` of v's lower half |
| OperandStack.PopInt64Smears | src/main/java/blue/endless/junior/esovm/Stack.java:109-120 | `popInt64` of the bytes of v is the ORed, sign-extended `Smeared32` of its halves |
| OperandStack.Int64BytesHalves | src/main/java/blue/endless/junior/esovm/Stack.java:52-59 | Each byte `pushInt64(v)` stores is the byte `pushInt32` would store for v's upper or lower half |
| OperandStack.PopInt16OfOk | src/main/java/blue/endless/junior/esovm/Stack.java:94-98 | With two bytes at the pointer, `popInt16` raises the pointer by 2 and combines the bytes at the pointer, low byte first |
| OperandStack.PopInt32OfOk | src/main/java/blue/endless/junior/esovm/Stack.java:100-107 | With four bytes at the pointer, `popInt32` raises the pointer by 4 and combines them |
| OperandStack.PopInt64OfOk | src/main/java/blue/endless/junior/esovm/Stack.java:109-120 | With eight bytes at the pointer, `popInt64` raises the pointer by 8 and combines them |
| OperandStack.PopInt64Combined | src/main/java/blue/endless/junior/esovm/Stack.java:109-120 | The same, on the eight sign-extended `int`s the `popInt8` calls return |
| OperandStack.PopBytes8 | src/main/java/blue/endless/junior/esovm/Stack.java:110-117 | Eight pops from a stack with eight bytes at the pointer return those bytes in buffer order |
| OperandStack.PopInt16OfFails | src/main/java/blue/endless/junior/esovm/Stack.java:94-98 | Without two bytes at the pointer, `popInt16` fails. A negative pointer gives an overflow and stays put. Otherwise the byte pops that succeed raise the pointer to the end of the buffer, and the result is an underflow |
| OperandStack.PopInt32OfFails | src/main/java/blue/endless/junior/esovm/Stack.java:100-107 | The same for `popInt32` |
| OperandStack.PopInt64OfFails | src/main/java/blue/endless/junior/esovm/Stack.java:109-120 | The same for `popInt64` |
| OperandStack.PushBytesSnoc | src/main/java/blue/endless/junior/esovm/Stack.java:31-69 | Pushing a longer byte sequence is pushing the shorter one and then one more byte |
| OperandStack.PopBytesSnoc | src/main/java/blue/endless/junior/esovm/Stack.java:94-120 | Popping n + 1 bytes is popping n bytes and then one more |
| OperandStack.PushBytes2 | src/main/java/blue/endless/junior/esovm/Stack.java:35-36 | `pushInt16`'s two byte pushes are the two-byte `PushBytes` |
| OperandStack.PushBytes4 | src/main/java/blue/endless/junior/esovm/Stack.java:45-48 | `pushInt32`'s four byte pushes are the four-byte `PushBytes` |
| OperandStack.PushBytes8 | src/main/java/blue/endless/junior/esovm/Stack.java:61-68 | `pushInt64`'s eight byte pushes are the eight-byte `PushBytes` |
| OperandStack.PopInt16Counterexample | src/main/java/blue/endless/junior/esovm/Stack.java:89-97 | `pushInt16(0x80)` stores 0x00 and then 0x80, and `popInt16` turns those bytes into 0xFFFFFF80 |
| OperandStack.PopInt32Counterexample | src/main/java/blue/endless/junior/esovm/Stack.java:89-106 | `pushInt32(0x80)` stores 0, 0, 0, 0x80, and `popInt32` turns those bytes into 0xFFFFFF80 |
| OperandStack.PopInt64Counterexample | src/main/java/blue/endless/junior/esovm/Stack.java:119 | `pushInt64(0x1_0000_0000)` stores a 1 in byte 3, and `popInt64` turns the bytes into 1 |
| OperandStack.Int16Bytes | src/main/java/blue/endless/junior/esovm/Stack.java:31-37 | No contract; the two bytes `pushInt16` pushes, high byte first. Its properties are in OperandStack.Int16RoundTrip and OperandStack.PushThenPopInt16Bytes |
| OperandStack.Int32Bytes | src/main/java/blue/endless/junior/esovm/Stack.java:39-49 | No contract; the four bytes `pushInt32` pushes, most significant first. Its properties are in OperandStack.Int32RoundTrip and OperandStack.PushThenPopInt32Bytes |
| OperandStack.Int64Bytes | src/main/java/blue/endless/junior/esovm/Stack.java:51-69 | No contract; the eight bytes `pushInt64` pushes, most significant first. Its properties are in OperandStack.Int64RoundTrip and OperandStack.PushThenPopInt64Bytes |
| OperandStack.PopInt16Value | src/main/java/blue/endless/junior/esovm/Stack.java:97 | No contract; the value `popInt16` computes from its two sign-extended bytes. Its properties are in OperandStack.PopInt16Smears, OperandStack.PopInt16Exact and OperandStack.PopInt16Counterexample |
| OperandStack.PopInt32Value | src/main/java/blue/endless/junior/esovm/Stack.java:106 | No contract; the value `popInt32` computes from its four bytes. Its properties are in OperandStack.PopInt32Smears, OperandStack.PopInt32Exact and OperandStack.PopInt32Counterexample |
| OperandStack.PopInt64Value | src/main/java/blue/endless/junior/esovm/Stack.java:119 | No contract; the value `popInt64` computes, with `int` shifts reduced modulo 32. Its properties are in OperandStack.PopInt64OrsHalves, OperandStack.PopInt64Smears and OperandStack.PopInt64Counterexample |
| OperandStack.Int16Value | src/main/java/blue/endless/junior/esovm/Stack.java:94-98 | No contract; the intended `popInt16` value, each byte masked. OperandStack.PushThenPopInt16Fixed proves it returns the 16 bits pushed |
| OperandStack.Int32Value | src/main/java/blue/endless/junior/esovm/Stack.java:100-107 | No contract; the intended `popInt32` value. OperandStack.DecodeInt32FixedAfterPop and OperandStack.PushThenPopInt32Fixed prove it returns the value pushed |
| OperandStack.Int64Value | src/main/java/blue/endless/junior/esovm/Stack.java:109-120 | No contract; the intended `popInt64` value, each masked byte widened to `long` first. OperandStack.DecodeInt64FixedAfterPop and OperandStack.PushThenPopInt64Fixed prove it returns the value pushed |
| OperandStack.Int16RoundTrip | src/main/java/blue/endless/junior/esovm/Stack.java:31-98 | The corrected `popInt16` decode returns exactly the 16 bits `pushInt16` stored |
| OperandStack.Int32RoundTrip | src/main/java/blue/endless/junior/esovm/Stack.java:39-107 | The corrected `popInt32` decode returns exactly the value `pushInt32` stored |
| OperandStack.Int64RoundTrip | src/main/java/blue/endless/junior/esovm/Stack.java:51-120 | The corrected `popInt64` decode returns exactly the value `pushInt64` stored |
| OperandStack.PushThenPopInt16Fixed | src/main/java/blue/endless/junior/esovm/Stack.java:31-98 | After a completed `pushInt16(v)`, the corrected `popInt16` restores the pointer and returns v's low 16 bits |
| OperandStack.PushThenPopInt32Fixed | src/main/java/blue/endless/junior/esovm/Stack.java:39-107 | After a completed `pushInt32(v)`, the corrected `popInt32` restores the pointer and returns v |
| OperandStack.PushThenPopInt64Fixed | src/main/java/blue/endless/junior/esovm/Stack.java:51-120 | After a completed `pushInt64(v)`, the corrected `popInt64` restores the pointer and returns v |
| OperandStack.DecodeInt32AfterPop | src/main/java/blue/endless/junior/esovm/Stack.java:100-107 | `popInt32` combines the four bytes that four byte pops return, in pop order |
| OperandStack.DecodeInt64AfterPop | src/main/java/blue/endless/junior/esovm/Stack.java:109-120 | `popInt64` combines the eight bytes that eight byte pops return, in pop order |
| OperandStack.DecodeInt32FixedAfterPop | src/main/java/blue/endless/junior/esovm/Stack.java:100-107 | The same for the corrected `popInt32` |
| OperandStack.DecodeInt64FixedAfterPop | src/main/java/blue/endless/junior/esovm/Stack.java:109-120 | The same for the corrected `popInt64` |
| OperandStack.LayoutField | src/main/java/blue/endless/junior/esovm/Stack.java:145-152 | Each count taken from the layout word is in [0, 255] |
| OperandStack.LayoutByte | src/main/java/blue/endless/junior/esovm/Stack.java:145-152 | No contract; one byte of the layout word, `(lvtInfo >>> shift) & 0xFF`. Its value is stated through OperandStack.LayoutField |
| OperandStack.LayoutCounts | src/main/java/blue/endless/junior/esovm/Stack.java:144-155 | No contract; the seven counts the layout word gives, int64 from bits 48-55 down to int8 from bits 0-7. Its properties are in OperandStack.UnpackPackLayout, OperandStack.LayoutRoundTrip and OperandStack.LayoutComplete |
| OperandStack.OverloadReserveArgs | src/main/java/blue/endless/junior/esovm/Stack.java:138-155 | The eight counts the layout overload hands to `reserve`, word count first |
| OperandStack.ReserveParam | src/main/java/blue/endless/junior/esovm/StackFrame.java:21 | The position of each width among `reserve`'s seven parameters, int64 first and int8 last |
| OperandStack.OverloadMisaligned | src/main/java/blue/endless/junior/esovm/Stack.java:138-155 | As written, each width's count lands one parameter later in `reserve` than that width's own parameter, since the word count comes first |
| OperandStack.OverloadCounterexample | src/main/java/blue/endless/junior/esovm/Stack.java:138-155 | The layout word 0x0100_0000_0000_0000 asks for no int64, yet the overload passes 1 in `reserve`'s int64 position |
| OperandStack.UnpackPackLayout | src/main/java/blue/endless/junior/esovm/Stack.java:145-152 | Byte k of the layout word is read back as the k-th count, for k = 0 to 7 |
| OperandStack.LayoutRoundTrip | src/main/java/blue/endless/junior/esovm/Stack.java:145-152 | Packing eight byte counts and decoding the word gives back the seven frame counts in `reserve`'s order (int64 from byte 6 down to int8 from byte 0), plus the word count from byte 7 |
| OperandStack.LayoutComplete | src/main/java/blue/endless/junior/esovm/Stack.java:145-152 | Every layout word decodes to counts in [0, 255] and is the packing of its own eight bytes, so the decode loses nothing |
| OperandStack.Stack.constructor | src/main/java/blue/endless/junior/esovm/Stack.java:15-18 | A new stack of the given size has a zero-filled buffer, both pointers at its length, and no frames |
| OperandStack.Stack.Default | src/main/java/blue/endless/junior/esovm/Stack.java:11-13 | The default stack has 65535 bytes, both pointers at 65535, and no frames |
| OperandStack.Stack.Clear | src/main/java/blue/endless/junior/esovm/Stack.java:20-23 | `clear` sets both pointers to the buffer's length and leaves the buffer and the frames alone |
| OperandStack.Stack.RangeCheck | src/main/java/blue/endless/junior/esovm/Stack.java:161-165 | `rangeCheck` is `CheckPointer` on the current state and changes nothing |
| OperandStack.Stack.PushInt8 | src/main/java/blue/endless/junior/esovm/Stack.java:25-29 | `pushInt8` moves the stack to `PushByte` of v's low byte |
| OperandStack.Stack.PushInt16 | src/main/java/blue/endless/junior/esovm/Stack.java:31-37 | `pushInt16` moves the stack to `PushBytes` of its two bytes, high byte first |
| OperandStack.Stack.PushInt32 | src/main/java/blue/endless/junior/esovm/Stack.java:39-49 | `pushInt32` moves the stack to `PushBytes` of its four bytes, most significant first |
| OperandStack.Stack.PushInt64 | src/main/java/blue/endless/junior/esovm/Stack.java:51-69 | `pushInt64` moves the stack to `PushBytes` of its eight bytes, most significant first |
| OperandStack.Stack.PushWord | src/main/java/blue/endless/junior/esovm/Stack.java:71-73 | `pushWord` pushes like `pushInt64` |
| OperandStack.Stack.PushFloat16 | src/main/java/blue/endless/junior/esovm/Stack.java:75-77 | `pushFloat16` pushes the sign-extended `short` like `pushInt16` |
| OperandStack.Stack.PopInt8 | src/main/java/blue/endless/junior/esovm/Stack.java:87-92 | With a byte at the pointer, `popInt8` returns it sign-extended and increments the pointer; otherwise it returns the overflow or underflow error, keeping the pointer; the buffer never changes |
| OperandStack.Stack.PopInt16 | src/main/java/blue/endless/junior/esovm/Stack.java:94-98 | `popInt16` moves the stack and returns as `PopInt16Of` |
| OperandStack.Stack.PopInt32 | src/main/java/blue/endless/junior/esovm/Stack.java:100-107 | `popInt32` moves the stack and returns as `PopInt32Of` |
| OperandStack.Stack.PopInt64 | src/main/java/blue/endless/junior/esovm/Stack.java:109-120 | `popInt64` moves the stack and returns as `PopInt64Of` |
| OperandStack.Stack.CurrentStackFrame | src/main/java/blue/endless/junior/esovm/Stack.java:130-132 | The current frame is the most recently pushed one, or `null` if there are no frames |
| OperandStack.Stack.PushStackFrame | src/main/java/blue/endless/junior/esovm/Stack.java:134-136 | Pushing a frame makes it current and leaves the operand stack alone; pushing `null` is refused and changes nothing |
| OperandStack.Stack.PopStackFrame | src/main/java/blue/endless/junior/esovm/Stack.java:157-159 | Popping returns the current frame and makes the one below it current; on no frames it fails and changes nothing |
| OperandStack.Stack.PushStackFrameWithLayout | src/main/java/blue/endless/junior/esovm/Stack.java:138-155 | The pushed frame is fresh, carries the method name, and has its arrays reserved from the layout word's counts; each of its arrays is `null` or fresh, so it shares no array with the program or the operand buffer; it becomes current, and the operand stack is unchanged |
| Thread.DataTypeField | src/main/java/blue/endless/junior/esovm/VMThread.java:118 | The data type is the high nibble of byte 1 as long as that byte is below 0x80; a negative byte gives 0x0FFFFFF8 to 0x0FFFFFFF, never a valid type |
| Thread.Operand2TypeField | src/main/java/blue/endless/junior/esovm/VMThread.java:119 | The operand kind as written is the whole of byte 1, and it is below 0x10 if and only if the data-type nibble is 0 |
| Thread.Operand2Kind | src/main/java/blue/endless/junior/esovm/VMThread.java:119 | The corrected operand kind is below 0x10 and is the low nibble of byte 1 |
| Thread.LvtIndexField | src/main/java/blue/endless/junior/esovm/VMThread.java:120 | The LVT index is byte 3, so a byte of 0x80 or more gives a negative index |
| Thread.Operand2Standard | src/main/java/blue/endless/junior/esovm/VMThread.java:179-185 | No contract; `operand2Standard` as written, ORing four sign-extended bytes. Its properties are in Thread.Operand2LowByte, Thread.Operand2LowShort and Thread.Operand2Counterexample |
| Thread.Operand2Value | src/main/java/blue/endless/junior/esovm/VMThread.java:179-185 | No contract; the intended big-endian decoding of bytes 4 to 7. Its properties are in Thread.Operand2ValueRoundTrip and Thread.Operand2ValueLowShort |
| Thread.Operand2LowByte | src/main/java/blue/endless/junior/esovm/VMThread.java:179-185 | The low byte of operand 2 is byte 7, with both the as-written and the corrected decoding |
| Thread.Operand2LowShort | src/main/java/blue/endless/junior/esovm/VMThread.java:179-185 | As written, the low 16 bits of operand 2 are bytes 6 and 7 when byte 7 is below 0x80, and 0xFF followed by byte 7 otherwise |
| Thread.Operand2Counterexample | src/main/java/blue/endless/junior/esovm/VMThread.java:184 | Bytes 0, 0, 1, 0x80 decode as written to 0xFFFFFF80, not 0x180 |
| Thread.Operand2ValueRoundTrip | src/main/java/blue/endless/junior/esovm/VMThread.java:179-185 | The corrected decoding of the four big-endian bytes of v is v |
| Thread.Operand2ValueLowShort | src/main/java/blue/endless/junior/esovm/VMThread.java:179-185 | With the corrected decoding, the low 16 bits of operand 2 are always bytes 6 and 7 |
| Thread.LoadInt8Of | src/main/java/blue/endless/junior/esovm/VMThread.java:153-164 | No contract; `loadInt8` on the current frame's value. Its properties are in Thread.LoadInt8OfKinds |
| Thread.LoadInt16Of | src/main/java/blue/endless/junior/esovm/VMThread.java:166-177 | No contract; `loadInt16` on the current frame's value. Its properties are in Thread.LoadInt16OfKinds |
| Thread.LoadInt8OfKinds | src/main/java/blue/endless/junior/esovm/VMThread.java:153-164 | `loadInt8` fails with "invalid operand type" if and only if the kind is above ADDRESS_TO_CONSTANT; an immediate is cut to its low byte; a register is read from the current frame's int8 array |
| Thread.LoadInt16OfKinds | src/main/java/blue/endless/junior/esovm/VMThread.java:166-177 | The same for `loadInt16`, with the low 16 bits and the int16 array |
| Thread.PutLoadedInt8 | src/main/java/blue/endless/junior/esovm/VMThread.java:144 | No contract; `putInt8` of a loaded value: the load's error first, then a missing frame, then the put. Its properties are in Thread.StoreChangesOneArray |
| Thread.PutLoadedInt16 | src/main/java/blue/endless/junior/esovm/VMThread.java:146 | No contract; the same for `putInt16` |
| Thread.StoreInt8 | src/main/java/blue/endless/junior/esovm/VMThread.java:144 | No contract; the INT8 statement of `load`. Its properties are in Thread.StoreChangesOneArray |
| Thread.StoreInt16 | src/main/java/blue/endless/junior/esovm/VMThread.java:146 | No contract; the INT16 statement of `load`. Its properties are in Thread.StoreChangesOneArray |
| Thread.LoadOf | src/main/java/blue/endless/junior/esovm/VMThread.java:140-151 | No contract; `load` on the current frame's value, with the INT8 case falling through into INT16. Its properties are in Thread.LoadRejectsDataType, Thread.LoadInt8ImmediateWritesBoth and Thread.FallThroughCounterexample |
| Thread.LoadFixed | src/main/java/blue/endless/junior/esovm/VMThread.java:140-151 | No contract; the intended `load`, with a `break` after the INT8 store. Its properties are in Thread.LoadFixedInt8Immediate and Thread.LoadFixedInt16Immediate |
| Thread.StoreChangesOneArray | src/main/java/blue/endless/junior/esovm/VMThread.java:144-146 | A store that fails leaves the frame as it was; one that passes changes only its own width's array |
| Thread.LoadRejectsDataType | src/main/java/blue/endless/junior/esovm/VMThread.java:148-149 | Every data type other than INT8 and INT16 is refused, and the frame is not touched |
| Thread.LoadInt8ImmediateWritesBoth | src/main/java/blue/endless/junior/esovm/VMThread.java:143-147 | As written, an INT8 immediate load writes the byte and then, at the same index, the `short`; the byte write stays even if the `short` write fails; the load passes if and only if the int16 array has that index |
| Thread.FallThroughCounterexample | src/main/java/blue/endless/junior/esovm/VMThread.java:143-146 | On a frame with one int8 slot and no int16 array, an INT8 immediate load writes the byte and then fails with "no int16 declared"; the corrected load passes |
| Thread.LoadFixedInt8Immediate | src/main/java/blue/endless/junior/esovm/VMThread.java:143-144 | The corrected INT8 immediate load passes if and only if the int8 slot exists; it then writes only that slot, and otherwise fails with the slot's error, changing nothing |
| Thread.LoadFixedInt16Immediate | src/main/java/blue/endless/junior/esovm/VMThread.java:145-147 | The same for the INT16 load and the int16 array |
| Thread.DecodeLoad | src/main/java/blue/endless/junior/esovm/VMThread.java:118-121 | No contract; the decoding of a LOAD in `cycle` as written. Its fields are stated in Thread.DataTypeField, Thread.Operand2TypeField, Thread.LvtIndexField and Thread.Operand2LowShort |
| Thread.DecodeLoadFixed | src/main/java/blue/endless/junior/esovm/VMThread.java:118-121 | No contract; the intended decoding: the operand kind is the low nibble and operand 2 is big-endian. Its fields are stated in Thread.Operand2Kind and Thread.Operand2ValueLowShort |
| Thread.CycleOf | src/main/java/blue/endless/junior/esovm/VMThread.java:113-130 | No contract; `cycle` on the program, the counter and the current frame's value. Its properties are in Thread.CycleOfLoad, Thread.CycleSteps, Thread.CycleNegativeOpcode, Thread.CycleInt16Rejected and Thread.CycleInt8Immediate |
| Thread.CycleFixed | src/main/java/blue/endless/junior/esovm/VMThread.java:113-130 | No contract; `cycle` with the corrected decoding and `load`. Its properties are in Thread.CycleFixedInt16Immediate |
| Thread.InstructionBytes | src/main/java/blue/endless/junior/esovm/VMThread.java:118-185 | Reading the instruction's bytes 1 to 7 succeeds if and only if the whole instruction lies in the program; otherwise it reports the first index read that lies past the end |
| Thread.CycleOfLoad | src/main/java/blue/endless/junior/esovm/VMThread.java:113-130 | A cycle on a complete LOAD ends as the load does, and advances by 8 exactly when the load passes |
| Thread.CycleSteps | src/main/java/blue/endless/junior/esovm/VMThread.java:113-134 | A cycle that passes advances the counter by exactly 8, and only on a complete LOAD; one that fails leaves the counter alone; an out-of-range counter and an unknown opcode fail without touching the frame; a failure that changed the frame is an INT8 LOAD |
| Thread.CycleNegativeOpcode | src/main/java/blue/endless/junior/esovm/VMThread.java:115-126 | An opcode byte of 0x80 or more is reported as unknown, and its value is sign-extended |
| Thread.CycleInt16Rejected | src/main/java/blue/endless/junior/esovm/VMThread.java:119-175 | As written, every complete INT16 LOAD fails with "invalid operand type", whatever the operand kind, and the frame and counter are unchanged |
| Thread.CycleInt8Immediate | src/main/java/blue/endless/junior/esovm/VMThread.java:113-171 | As written, an INT8 immediate LOAD stores byte 7 in the byte variable and the low 16 bits of the as-written operand 2 in the `short` variable at the same index, then advances by 8 |
| Thread.CycleFixedInt16Immediate | src/main/java/blue/endless/junior/esovm/VMThread.java:113-171 | With the corrected decoding, an INT16 immediate LOAD stores bytes 6 and 7 in the `short` variable, changes nothing else and advances by 8 |
| Thread.VMThread.constructor | src/main/java/blue/endless/junior/esovm/VMThread.java:103-111 | A new thread has its own 65535-byte stack, empty and with no frames; it keeps the given program and starts at the given address |
| Thread.VMThread.CheckBounds | src/main/java/blue/endless/junior/esovm/VMThread.java:132-134 | The bounds check passes if and only if the counter lies inside the program |
| Thread.VMThread.LoadInt8 | src/main/java/blue/endless/junior/esovm/VMThread.java:153-164 | `loadInt8` returns `LoadInt8Of` on the current frame and changes nothing |
| Thread.VMThread.LoadInt16 | src/main/java/blue/endless/junior/esovm/VMThread.java:166-177 | `loadInt16` returns `LoadInt16Of` on the current frame and changes nothing |
| Thread.VMThread.PutLoadedInt8Step | src/main/java/blue/endless/junior/esovm/VMThread.java:144 | The `putInt8` of a loaded value changes the current frame as `PutLoadedInt8` says: the load's error first, then a missing frame, then the put |
| Thread.VMThread.PutLoadedInt16Step | src/main/java/blue/endless/junior/esovm/VMThread.java:146 | The same for `putInt16` |
| Thread.VMThread.StoreInt8Step | src/main/java/blue/endless/junior/esovm/VMThread.java:144 | The INT8 statement of `load` changes the current frame as `StoreInt8` says |
| Thread.VMThread.StoreInt16Step | src/main/java/blue/endless/junior/esovm/VMThread.java:146 | The INT16 statement of `load` changes the current frame as `StoreInt16` says |
| Thread.VMThread.Load | src/main/java/blue/endless/junior/esovm/VMThread.java:140-151 | `load` changes the current frame and ends as `LoadOf` says, including the INT8 fall-through; the program and the operand stack are unchanged |
| Thread.VMThread.Cycle | src/main/java/blue/endless/junior/esovm/VMThread.java:113-130 | `cycle` leaves the counter, the current frame and the outcome as `CycleOf` says; the program and the operand stack are unchanged |

## Left out

- Floating point: `pushFloat32`, `pushFloat64`, `popFloat32` and `popFloat64` (Stack.java:79-85, 122-128) convert through `Float`/`Double` bit methods, which are foreign numeric calls, so they are not modelled. The float arrays of a frame hold uninterpreted bit patterns.
- The opcodes other than LOAD are declared (VMThread.java:77-101) but never dispatched, so they are not modelled. The same goes for HALT, a run loop, arithmetic, CALL and flags.
- `checkCompatibility` (VMThread.java:136-138) is empty; it is not modelled.
- The constant pool and the memory operand kinds (0x3 to 0x9) are not implemented in the source. The model keeps only their constants, and `load` refuses them as the source does.
- The unused `allowMemory` parameter of `loadInt8`/`loadInt16` is dropped.
- `operand2Simple` (VMThread.java:187-194) is never called, so it is not modelled.
- `branchPointer` is only assigned by `clear` and the constructors; the model does the same and nothing else.
- The 9-argument `pushStackFrame` overload (Stack.java:138-142) passes eight counts, word count first, to the seven-parameter `reserve`, so the source does not compile (see "## Findings"). OperandStack.Stack.PushStackFrameWithLayout drops the word count and reserves the other seven counts in `reserve`'s own parameter order.
- OperandStack.Stack.constructor: takes a `nat` size, so Java's `NegativeArraySizeException` for a negative size is not modelled.
- Stack pointer and program counter are unbounded integers. The 32-bit wrap-around of `stackPointer--`, `stackPointer++` and `programCounter += 8` needs about 2^31 steps or a counter near `Integer.MAX_VALUE`, and it is not modelled.
- Java exceptions are modelled as error values. `StackOverflowError` from `rangeCheck` becomes `StackOverflow`/`StackUnderflow`. A `NullPointerException` on a missing current frame becomes `NullFrame`. An index past the end of the program becomes `ProgramIndex`. `ArrayDeque.push(null)` becomes `NullElement`. `ArrayDeque.pop` on no frames becomes `NoSuchFrame`. The text of the messages is not modelled.
- OperandStack.Stack.PopInt8: its contract is stated on the buffer and the pointer, not through `PopInt8Of`. The two agree by OperandStack.PopInt8OfSpec.
- The classes follow the source as written, including the defects listed under "## Findings". The corrected behaviour is stated on the state functions (`…Fixed`, `Int16Value`, `Int32Value`, `Int64Value`, `Operand2Kind`, `Operand2Value`), not as a second set of class methods.
- Aliasing between a thread's frames: the thread writes only the current frame's int8 and int16 arrays. It requires those to be distinct from the program and from the operand buffer. A frame built by OperandStack.Stack.PushStackFrameWithLayout, or by a new frame followed by `reserve`, has only fresh arrays and so satisfies this.
- Thread.VMThread.constructor: the program is an `array<JByte>`, never `null`. The Java constructor accepts a `null` program (VMThread.java:107-111), after which `cycle` throws a `NullPointerException` in `checkBounds` (VMThread.java:133); that case is not modelled.
- Threads, scheduling and I/O: the source has none in this core.

## Findings

| source | as written | input that shows it | evidently intended | confidence | as-written member | corrected member |
|---|---|---|---|---|---|---|
| src/main/java/blue/endless/junior/esovm/Stack.java:89-97 | `popInt16` combines two sign-extended bytes without masking them | `pushInt16(0x80)` then `popInt16()` returns 0xFFFFFF80 | mask each byte with 0xFF, so the pop returns the 16 bits pushed (0x80) | high, not executed | OperandStack.PopInt16Counterexample | OperandStack.PushThenPopInt16Fixed |
| src/main/java/blue/endless/junior/esovm/Stack.java:89-106 | `popInt32` combines four sign-extended bytes without masking them | `pushInt32(0x80)` then `popInt32()` returns 0xFFFFFF80 | mask each byte, so the pop returns the value pushed | high, not executed | OperandStack.PopInt32Counterexample | OperandStack.PushThenPopInt32Fixed |
| src/main/java/blue/endless/junior/esovm/Stack.java:119 | `popInt64` shifts `int`s by 32 to 56, which Java reduces modulo 32, and then widens the result | `pushInt64(0x1_0000_0000L)` then `popInt64()` returns 1 | widen each masked byte to `long` before shifting | high, not executed | OperandStack.PopInt64Counterexample | OperandStack.PushThenPopInt64Fixed |
| src/main/java/blue/endless/junior/esovm/VMThread.java:119 | the operand kind is `byte1 & 0xFF`, the whole byte, so it keeps the data-type nibble | a LOAD of INT16 IMMEDIATE (byte 1 = 0x11) fails with "invalid operandType 0x11" | `& 0x0F`, the low nibble, as the instruction layout comment at VMThread.java:10-17 describes | high, not executed | Thread.CycleInt16Rejected | Thread.CycleFixedInt16Immediate |
| src/main/java/blue/endless/junior/esovm/VMThread.java:143-146 | the INT8 case of `load` has no `break` and falls through into INT16 | an INT8 IMMEDIATE load into a frame with one int8 slot and no int16 array writes the byte, then fails with "none were declared" | `break` after the INT8 store | high, not executed | Thread.FallThroughCounterexample | Thread.LoadFixedInt8Immediate |
| src/main/java/blue/endless/junior/esovm/VMThread.java:181-184 | `operand2Standard` ORs sign-extended bytes, so a byte at or above 0x80 sets all the bits above it | bytes 4..7 = 00 00 01 80 decode to 0xFFFFFF80 instead of 0x180 | mask each byte with 0xFF before shifting | medium, not executed | Thread.Operand2Counterexample | Thread.Operand2ValueRoundTrip |
| src/main/java/blue/endless/junior/esovm/Stack.java:138-142 | the 9-argument `pushStackFrame` passes eight counts, word count first, to the seven-parameter `reserve` (it does not compile) | the layout word 0x0100_0000_0000_0000 asks for no int64, yet 1 lands in `reserve`'s int64 position | drop the word count and pass the seven counts in `reserve`'s order | high, not executed | OperandStack.OverloadCounterexample | OperandStack.Stack.PushStackFrameWithLayout |
