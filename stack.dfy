/**
 * The operand stack and the frame stack of one thread.
 *
 * The operand stack is a fixed byte buffer that grows downward: the stack
 * pointer is the index of the top byte, and equals the buffer's length when
 * the stack is empty. A push first decrements the pointer and then checks it,
 * so a push that overflows still leaves the pointer one lower; a pop checks
 * first, so a pop that fails leaves the pointer where it was. A multi-byte
 * push or pop is a sequence of one-byte ones and stops at the first failure,
 * keeping what the earlier bytes did. Multi-byte values are pushed most
 * significant byte first, so the least significant byte ends on top.
 *
 * `StackState` and the functions over it specify the class `Stack`.
 */
module OperandStack {
  import opened JavaInts
  import opened VMErrors
  import opened Lvt

  /** The operand buffer and the stack pointer. */
  datatype StackState = StackState(buf: seq<JByte>, sp: int)

  /** The state after a push, and whether it completed. */
  datatype Pushed = Pushed(state: StackState, outcome: Outcome)

  /** The state after a pop, and what it returned. */
  datatype Popped<T> = Popped(state: StackState, result: Result<T>)

  /** `rangeCheck`: is there a byte at the stack pointer? */
  function CheckPointer(s: StackState): (r: Outcome)
    ensures r.Pass? <==> 0 <= s.sp < |s.buf|
    ensures r == Fail(StackOverflow) <==> s.sp < 0
    ensures r == Fail(StackUnderflow) <==> s.sp >= |s.buf|
  {
    if s.sp < 0 then Fail(StackOverflow)
    else if s.sp >= |s.buf| then Fail(StackUnderflow)
    else Pass
  }

  /** `pushInt8` on a byte: decrement, check, then store at the new pointer. */
  function PushByte(s: StackState, b: JByte): (r: Pushed)
    ensures |r.state.buf| == |s.buf|
  {
    var t := s.(sp := s.sp - 1);
    var c := CheckPointer(t);
    if c.Fail? then Pushed(t, c) else Pushed(t.(buf := t.buf[t.sp := b]), Pass)
  }

  /** Pushing bytes one at a time, stopping at the first failure. */
  function PushBytes(s: StackState, bs: seq<JByte>): (r: Pushed)
    ensures |r.state.buf| == |s.buf|
    decreases |bs|
  {
    if bs == [] then Pushed(s, Pass)
    else
      var p := PushByte(s, bs[0]);
      if p.outcome.Fail? then p else PushBytes(p.state, bs[1..])
  }

  /** Popping n bytes one at a time, in the order popped, stopping at the first failure. */
  function PopBytes(s: StackState, n: nat): (r: Popped<seq<JByte>>)
    ensures r.result.Ok? ==> |r.result.value| == n
    decreases n
  {
    if n == 0 then Popped(s, Ok([]))
    else
      var c := CheckPointer(s);
      if c.Fail? then Popped(s, Err(c.error))
      else
        var rest := PopBytes(s.(sp := s.sp + 1), n - 1);
        if rest.result.Err? then rest else Popped(rest.state, Ok([s.buf[s.sp]] + rest.result.value))
  }

  function Reverse<T>(xs: seq<T>): (r: seq<T>)
    ensures |r| == |xs|
    ensures forall i :: 0 <= i < |xs| ==> r[i] == xs[|xs| - 1 - i]
  {
    if xs == [] then [] else Reverse(xs[1..]) + [xs[0]]
  }

  /**
   * A push of k bytes completes exactly when there are k free bytes below the
   * pointer (and the pointer is not past the end); it then lowers the pointer
   * by k and stores the bytes downward from the old pointer, touching nothing else.
   */
  lemma {:induction false} PushBytesSucceeds(s: StackState, bs: seq<JByte>)
    ensures PushBytes(s, bs).outcome.Pass? <==> bs == [] || |bs| <= s.sp <= |s.buf|
    ensures PushBytes(s, bs).outcome.Pass? ==>
      var t := PushBytes(s, bs).state;
      && t.sp == s.sp - |bs| && |t.buf| == |s.buf|
      && (forall i :: 0 <= i < |bs| ==> t.buf[s.sp - 1 - i] == bs[i])
      && (forall j :: 0 <= j < |s.buf| && !(s.sp - |bs| <= j < s.sp) ==> t.buf[j] == s.buf[j])
    decreases |bs|
  {
    if bs != [] {
      var p := PushByte(s, bs[0]);
      if p.outcome.Pass? {
        PushBytesSucceeds(p.state, bs[1..]);
        var t := PushBytes(s, bs).state;
        if PushBytes(s, bs).outcome.Pass? {
          forall i | 0 <= i < |bs|
            ensures t.buf[s.sp - 1 - i] == bs[i]
          {
            if i > 0 {
              assert bs[1..][i - 1] == bs[i];
            }
          }
        }
      }
    }
  }

  /**
   * A push onto a stack with fewer free bytes than it needs fails with an
   * overflow: the bytes that fit are stored and the pointer ends one below
   * zero, or one lower than it was if it was already negative.
   */
  lemma {:induction false} PushBytesOverflows(s: StackState, bs: seq<JByte>)
    requires bs != [] && s.sp <= |s.buf| && s.sp < |bs|
    ensures PushBytes(s, bs).outcome == Fail(StackOverflow)
    ensures PushBytes(s, bs).state.sp == (if s.sp < 0 then s.sp else 0) - 1
    ensures forall i :: 0 <= i < s.sp ==> PushBytes(s, bs).state.buf[s.sp - 1 - i] == bs[i]
    decreases |bs|
  {
    var p := PushByte(s, bs[0]);
    if p.outcome.Pass? {
      PushBytesOverflows(p.state, bs[1..]);
      var t := PushBytes(s, bs).state;
      forall i | 0 <= i < s.sp
        ensures t.buf[s.sp - 1 - i] == bs[i]
      {
        if i == 0 {
          PushBytesKeepsCell(p.state, bs[1..], s.sp - 1);
        } else {
          assert bs[1..][i - 1] == bs[i];
        }
      }
    }
  }

  /** A push never writes at or above the pointer it started from. */
  lemma {:induction false} PushBytesKeepsCell(s: StackState, bs: seq<JByte>, j: int)
    requires 0 <= j && s.sp <= j < |s.buf|
    ensures PushBytes(s, bs).state.buf[j] == s.buf[j]
    decreases |bs|
  {
    if bs != [] {
      var p := PushByte(s, bs[0]);
      if p.outcome.Pass? {
        PushBytesKeepsCell(p.state, bs[1..], j);
      }
    }
  }

  /**
   * A pop of n bytes completes exactly when n bytes lie at and above the
   * pointer; it returns them in order from the pointer up and raises the
   * pointer by n. A pop never changes the buffer. One that fails stops at the
   * empty end (an underflow) or, with a negative pointer, does nothing (an overflow).
   */
  lemma {:induction false} PopBytesSpec(s: StackState, n: nat)
    ensures PopBytes(s, n).state.buf == s.buf
    ensures PopBytes(s, n).result.Ok? <==> n == 0 || (0 <= s.sp && s.sp + n <= |s.buf|)
    ensures PopBytes(s, n).result.Ok? ==>
      && PopBytes(s, n).state.sp == s.sp + n
      && (n > 0 ==> PopBytes(s, n).result.value == s.buf[s.sp..s.sp + n])
    ensures PopBytes(s, n).result.Err? ==>
      && PopBytes(s, n).result.error == (if s.sp < 0 then StackOverflow else StackUnderflow)
      && PopBytes(s, n).state.sp == (if s.sp < 0 || s.sp > |s.buf| then s.sp else |s.buf|)
    decreases n
  {
    if n > 0 && CheckPointer(s).Pass? {
      PopBytesSpec(s.(sp := s.sp + 1), n - 1);
    }
  }

  /**
   * Popping as many bytes as a completed push stored returns them in reverse
   * order and puts the pointer back where it was.
   */
  lemma PushThenPop(s: StackState, bs: seq<JByte>)
    requires PushBytes(s, bs).outcome.Pass?
    ensures PopBytes(PushBytes(s, bs).state, |bs|) ==
      Popped(StackState(PushBytes(s, bs).state.buf, s.sp), Ok(Reverse(bs)))
  {
    if bs != [] {
      PushBytesSucceeds(s, bs);
      var t := PushBytes(s, bs).state;
      assert t.sp == s.sp - |bs| && |bs| <= s.sp <= |s.buf|;
      PopBytesSpec(t, |bs|);
      var r := PopBytes(t, |bs|);
      assert r.state == StackState(t.buf, s.sp);
      assert r.result.value == Reverse(bs) by {
        forall i | 0 <= i < |bs|
          ensures r.result.value[i] == Reverse(bs)[i]
        {
          assert r.result.value[i] == t.buf[t.sp + i];
          assert t.buf[s.sp - 1 - (|bs| - 1 - i)] == bs[|bs| - 1 - i];
        }
      }
    }
  }

  /*
   * Values. Dafny's `>>` on a bit-vector shifts zeros in, as Java's `>>>` does;
   * where the source's shift distance is below the width it is written directly.
   */

  /** The bytes `pushInt16` pushes, in push order: bits 8 to 15, then bits 0 to 7. */
  function Int16Bytes(v: JInt): seq<JByte>
  {
    [IntToByte((v >> 8) & 0xFF), IntToByte(v & 0xFF)]
  }

  /** The bytes `pushInt32` pushes, most significant first. */
  function Int32Bytes(v: JInt): seq<JByte>
  {
    [IntToByte((v >> 24) & 0xFF), IntToByte((v >> 16) & 0xFF), IntToByte((v >> 8) & 0xFF), IntToByte(v & 0xFF)]
  }

  /** The bytes `pushInt64` pushes, most significant first; each is cut to an `int` before the push. */
  function Int64Bytes(v: JLong): seq<JByte>
  {
    [IntToByte(LongToInt((v >> 56) & 0xFF)), IntToByte(LongToInt((v >> 48) & 0xFF)),
     IntToByte(LongToInt((v >> 40) & 0xFF)), IntToByte(LongToInt((v >> 32) & 0xFF)),
     IntToByte(LongToInt((v >> 24) & 0xFF)), IntToByte(LongToInt((v >> 16) & 0xFF)),
     IntToByte(LongToInt((v >> 8) & 0xFF)), IntToByte(LongToInt(v & 0xFF))]
  }

  /** `popInt16` as written, on the bytes in pop order: the sign-extended bytes are combined unmasked. */
  function PopInt16Value(lo: JByte, hi: JByte): JInt
  {
    CombineInt16(ByteToInt(lo), ByteToInt(hi))
  }

  /** The expression that ends `popInt16`, on the values the two `popInt8` calls returned. */
  function CombineInt16(lo: JInt, hi: JInt): JInt
  {
    ShlInt(hi, 8) | lo
  }

  /** `popInt32` as written, on the bytes in pop order. */
  function PopInt32Value(d: JByte, c: JByte, b: JByte, a: JByte): JInt
  {
    CombineInt32(ByteToInt(d), ByteToInt(c), ByteToInt(b), ByteToInt(a))
  }

  /** The expression that ends `popInt32`, on the values the four `popInt8` calls returned. */
  function CombineInt32(d: JInt, c: JInt, b: JInt, a: JInt): JInt
  {
    ShlInt(a, 24) | ShlInt(b, 16) | ShlInt(c, 8) | d
  }

  /** `popInt64` as written: the shifts are on `int`, so 56, 48, 40 and 32 act as 24, 16, 8 and 0. */
  function PopInt64Value(h: JByte, g: JByte, f: JByte, e: JByte, d: JByte, c: JByte, b: JByte, a: JByte): JLong
  {
    CombineInt64(ByteToInt(h), ByteToInt(g), ByteToInt(f), ByteToInt(e), ByteToInt(d), ByteToInt(c), ByteToInt(b), ByteToInt(a))
  }

  /**
   * The expression that ends `popInt64`, on the values the eight `popInt8`
   * calls returned: the shifts and ORs are on `int`, and only the result is widened.
   */
  function CombineInt64(h: JInt, g: JInt, f: JInt, e: JInt, d: JInt, c: JInt, b: JInt, a: JInt): JLong
  {
    IntToLong(ShlInt(a, 56) | ShlInt(b, 48) | ShlInt(c, 40) | ShlInt(d, 32) | ShlInt(e, 24) | ShlInt(f, 16) | ShlInt(g, 8) | h)
  }

  /** What the as-written `popInt16` returns for a pushed v: the highest set "sign" bit among bits 7 and 15 is smeared upward. */
  function Smeared16(v: JInt): JInt
  {
    if v & 0x80 != 0 then v | 0xFFFF_FF00
    else if v & 0x8000 != 0 then v | 0xFFFF_0000
    else v & 0xFFFF
  }

  /** What the as-written `popInt32` returns for a pushed v: bit 7, else 15, else 23, if set, is smeared upward. */
  function Smeared32(v: JInt): JInt
  {
    if v & 0x80 != 0 then v | 0xFFFF_FF00
    else if v & 0x8000 != 0 then v | 0xFFFF_0000
    else if v & 0x80_0000 != 0 then v | 0xFF00_0000
    else v
  }

  /** The intended `popInt16`: each byte is masked to 8 bits before it is combined. */
  function Int16Value(lo: JByte, hi: JByte): JInt
  {
    ShlInt(ByteToInt(hi) & 0xFF, 8) | (ByteToInt(lo) & 0xFF)
  }

  /** The intended `popInt32`. */
  function Int32Value(d: JByte, c: JByte, b: JByte, a: JByte): JInt
  {
    ShlInt(ByteToInt(a) & 0xFF, 24) | ShlInt(ByteToInt(b) & 0xFF, 16) | ShlInt(ByteToInt(c) & 0xFF, 8) | (ByteToInt(d) & 0xFF)
  }

  /** The intended `popInt64`: each masked byte is widened to `long` before it is shifted. */
  function Int64Value(h: JByte, g: JByte, f: JByte, e: JByte, d: JByte, c: JByte, b: JByte, a: JByte): JLong
  {
    ShlLong(IntToLong(ByteToInt(a)) & 0xFF, 56) | ShlLong(IntToLong(ByteToInt(b)) & 0xFF, 48)
    | ShlLong(IntToLong(ByteToInt(c)) & 0xFF, 40) | ShlLong(IntToLong(ByteToInt(d)) & 0xFF, 32)
    | ShlLong(IntToLong(ByteToInt(e)) & 0xFF, 24) | ShlLong(IntToLong(ByteToInt(f)) & 0xFF, 16)
    | ShlLong(IntToLong(ByteToInt(g)) & 0xFF, 8) | (IntToLong(ByteToInt(h)) & 0xFF)
  }

  /** The as-written `popInt16` of the two bytes `pushInt16(v)` stores. */
  lemma PopInt16Smears(v: JInt)
    ensures PopInt16Value(IntToByte(v & 0xFF), IntToByte((v >> 8) & 0xFF)) == Smeared16(v)
  {
    if v & 0x80 != 0 {
      PopInt16SmearsLow(v);
    } else if v & 0x8000 != 0 {
      PopInt16SmearsHigh(v);
    } else {
      PopInt16Exact(v);
    }
  }

  lemma PopInt16SmearsLow(v: JInt)
    requires v & 0x80 != 0
    ensures PopInt16Value(IntToByte(v & 0xFF), IntToByte((v >> 8) & 0xFF)) == v | 0xFFFF_FF00
  {
  }

  lemma PopInt16SmearsHigh(v: JInt)
    requires v & 0x80 == 0 && v & 0x8000 != 0
    ensures PopInt16Value(IntToByte(v & 0xFF), IntToByte((v >> 8) & 0xFF)) == v | 0xFFFF_0000
  {
  }

  lemma PopInt16Exact(v: JInt)
    requires v & 0x8080 == 0
    ensures PopInt16Value(IntToByte(v & 0xFF), IntToByte((v >> 8) & 0xFF)) == v & 0xFFFF
  {
  }

  /** The as-written `popInt32` of the four bytes `pushInt32(v)` stores. */
  lemma PopInt32Smears(v: JInt)
    ensures PopInt32Value(IntToByte(v & 0xFF), IntToByte((v >> 8) & 0xFF), IntToByte((v >> 16) & 0xFF), IntToByte((v >> 24) & 0xFF))
      == Smeared32(v)
  {
    if v & 0x80 != 0 {
      PopInt32SmearsByte0(v);
    } else if v & 0x8000 != 0 {
      PopInt32SmearsByte1(v);
    } else if v & 0x80_0000 != 0 {
      PopInt32SmearsByte2(v);
    } else {
      PopInt32Exact(v);
    }
  }

  lemma PopInt32SmearsByte0(v: JInt)
    requires v & 0x80 != 0
    ensures PopInt32Value(IntToByte(v & 0xFF), IntToByte((v >> 8) & 0xFF), IntToByte((v >> 16) & 0xFF), IntToByte((v >> 24) & 0xFF))
      == v | 0xFFFF_FF00
  {
  }

  lemma PopInt32SmearsByte1(v: JInt)
    requires v & 0x80 == 0 && v & 0x8000 != 0
    ensures PopInt32Value(IntToByte(v & 0xFF), IntToByte((v >> 8) & 0xFF), IntToByte((v >> 16) & 0xFF), IntToByte((v >> 24) & 0xFF))
      == v | 0xFFFF_0000
  {
  }

  lemma PopInt32SmearsByte2(v: JInt)
    requires v & 0x8080 == 0 && v & 0x80_0000 != 0
    ensures PopInt32Value(IntToByte(v & 0xFF), IntToByte((v >> 8) & 0xFF), IntToByte((v >> 16) & 0xFF), IntToByte((v >> 24) & 0xFF))
      == v | 0xFF00_0000
  {
  }

  lemma PopInt32Exact(v: JInt)
    requires v & 0x80_8080 == 0
    ensures PopInt32Value(IntToByte(v & 0xFF), IntToByte((v >> 8) & 0xFF), IntToByte((v >> 16) & 0xFF), IntToByte((v >> 24) & 0xFF))
      == v
  {
  }

  /** The as-written `popInt64` ORs the upper four bytes' `int` onto the lower four's instead of placing them above it. */
  lemma PopInt64OrsHalves(h: JByte, g: JByte, f: JByte, e: JByte, d: JByte, c: JByte, b: JByte, a: JByte)
    ensures PopInt64Value(h, g, f, e, d, c, b, a) == IntToLong(PopInt32Value(d, c, b, a) | PopInt32Value(h, g, f, e))
  {
  }

  /** Pushing 0x80 with `pushInt16` and popping with `popInt16` gives 0xFFFFFF80 (-128), not 0x80. */
  lemma PopInt16Counterexample()
    ensures Int16Bytes(0x80) == [0x00, 0x80]
    ensures PopInt16Value(0x80, 0x00) == 0xFFFF_FF80
  {
  }

  /** Pushing 0x80 with `pushInt32` and popping with `popInt32` gives 0xFFFFFF80 (-128), not 0x80. */
  lemma PopInt32Counterexample()
    ensures Int32Bytes(0x80) == [0x00, 0x00, 0x00, 0x80]
    ensures PopInt32Value(0x80, 0x00, 0x00, 0x00) == 0xFFFF_FF80
  {
  }

  /** Pushing 2^32 with `pushInt64` and popping with `popInt64` gives 1. */
  lemma PopInt64Counterexample()
    ensures Int64Bytes(0x1_0000_0000) == [0, 0, 0, 1, 0, 0, 0, 0]
    ensures PopInt64Value(0, 0, 0, 0, 1, 0, 0, 0) == 1
  {
  }

  /** The intended `popInt16` returns the 16 bits `pushInt16` stored. */
  lemma Int16RoundTrip(v: JInt)
    ensures Int16Value(IntToByte(v & 0xFF), IntToByte((v >> 8) & 0xFF)) == v & 0xFFFF
  {
  }

  /** The intended `popInt32` returns exactly the value `pushInt32` stored. */
  lemma Int32RoundTrip(v: JInt)
    ensures Int32Value(IntToByte(v & 0xFF), IntToByte((v >> 8) & 0xFF), IntToByte((v >> 16) & 0xFF), IntToByte((v >> 24) & 0xFF)) == v
  {
  }

  /** The intended `popInt64` returns exactly the value `pushInt64` stored. */
  lemma Int64RoundTrip(v: JLong)
    ensures Int64Value(IntToByte(LongToInt(v & 0xFF)), IntToByte(LongToInt((v >> 8) & 0xFF)),
      IntToByte(LongToInt((v >> 16) & 0xFF)), IntToByte(LongToInt((v >> 24) & 0xFF)),
      IntToByte(LongToInt((v >> 32) & 0xFF)), IntToByte(LongToInt((v >> 40) & 0xFF)),
      IntToByte(LongToInt((v >> 48) & 0xFF)), IntToByte(LongToInt((v >> 56) & 0xFF))) == v
  {
  }

  /*
   * The operations of the class, on states.
   */

  /** Continuing a push with one more byte, unless it has already failed. */
  function ThenPush(p: Pushed, b: JByte): Pushed
  {
    if p.outcome.Fail? then p else PushByte(p.state, b)
  }

  /** A push of bs then b is a push of bs followed by one more byte, unless the push of bs failed. */
  lemma {:induction false} PushBytesSnoc(s: StackState, bs: seq<JByte>, b: JByte)
    ensures PushBytes(s, bs + [b]) == ThenPush(PushBytes(s, bs), b)
    decreases |bs|
  {
    if bs == [] {
      assert [] + [b] == [b];
    } else {
      var p := PushByte(s, bs[0]);
      assert (bs + [b])[0] == bs[0] && (bs + [b])[1..] == bs[1..] + [b];
      if p.outcome.Pass? {
        PushBytesSnoc(p.state, bs[1..], b);
      }
    }
  }

  /** Once a push has failed, the bytes after it are not pushed. */
  lemma {:induction false} PushBytesStops(s: StackState, bs: seq<JByte>, rest: seq<JByte>)
    requires PushBytes(s, bs).outcome.Fail?
    ensures PushBytes(s, bs + rest) == PushBytes(s, bs)
    decreases |bs|
  {
    var p := PushByte(s, bs[0]);
    assert (bs + rest)[0] == bs[0] && (bs + rest)[1..] == bs[1..] + rest;
    if p.outcome.Pass? {
      PushBytesStops(p.state, bs[1..], rest);
    }
  }

  /** Continuing a pop with one more byte, unless it has already failed. */
  function ThenPop(p: Popped<seq<JByte>>): Popped<seq<JByte>>
  {
    if p.result.Err? then p
    else
      var c := CheckPointer(p.state);
      if c.Fail? then Popped(p.state, Err(c.error))
      else Popped(p.state.(sp := p.state.sp + 1), Ok(p.result.value + [p.state.buf[p.state.sp]]))
  }

  /** A pop of n + 1 bytes is a pop of n followed by one more. */
  lemma {:induction false} PopBytesSnoc(s: StackState, n: nat)
    ensures PopBytes(s, n + 1) == ThenPop(PopBytes(s, n))
    decreases n
  {
    if n == 0 {
      if CheckPointer(s).Pass? {
        assert [] + [s.buf[s.sp]] == [s.buf[s.sp]] == [s.buf[s.sp]] + [];
      }
    } else if CheckPointer(s).Pass? {
      var t := s.(sp := s.sp + 1);
      PopBytesSnoc(t, n - 1);
      PopBytesSpec(t, n - 1);
      var q := PopBytes(t, n - 1);
      if q.result.Ok? && CheckPointer(q.state).Pass? {
        var y := q.state.buf[q.state.sp];
        assert [s.buf[s.sp]] + (q.result.value + [y]) == ([s.buf[s.sp]] + q.result.value) + [y];
      }
    }
  }

  /** `popInt8`: the byte at the pointer, sign-extended to `int`. */
  function PopInt8Of(s: StackState): Popped<JInt>
  {
    var p := PopByte(s);
    Popped(p.state, if p.result.Ok? then Ok(ByteToInt(p.result.value)) else Err(p.result.error))
  }

  /** The state after popping one byte, and the byte, unless the pop failed. */
  function PopByte(s: StackState): Popped<JByte>
  {
    var c := CheckPointer(s);
    if c.Fail? then Popped(s, Err(c.error)) else Popped(s.(sp := s.sp + 1), Ok(s.buf[s.sp]))
  }

  /**
   * `popInt8` completes exactly when there is a byte at the pointer; it then
   * returns that byte sign-extended and raises the pointer by one. A failure
   * changes nothing.
   */
  lemma PopInt8OfSpec(s: StackState)
    ensures PopInt8Of(s).state.buf == s.buf
    ensures PopInt8Of(s).result.Ok? <==> 0 <= s.sp < |s.buf|
    ensures 0 <= s.sp < |s.buf| ==> PopInt8Of(s) == Popped(s.(sp := s.sp + 1), Ok(ByteToInt(s.buf[s.sp])))
    ensures s.sp < 0 ==> PopInt8Of(s) == Popped(s, Err(StackOverflow))
    ensures s.sp >= |s.buf| ==> PopInt8Of(s) == Popped(s, Err(StackUnderflow))
  {
  }

  /** Popping one byte is the one-byte case of `PopBytes`. */
  lemma PopByteIsPopBytes(s: StackState)
    ensures PopByte(s).state == PopBytes(s, 1).state
    ensures PopByte(s).result.Ok? <==> PopBytes(s, 1).result.Ok?
    ensures PopByte(s).result.Ok? ==> PopBytes(s, 1).result.value == [PopByte(s).result.value]
    ensures PopByte(s).result.Err? ==> PopByte(s).result.error == PopBytes(s, 1).result.error
  {
  }

  /** `popInt16` as written. */
  function PopInt16Of(s: StackState): Popped<JInt>
  {
    var p := PopBytes(s, 2);
    Popped(p.state, if p.result.Ok? then Ok(PopInt16Value(p.result.value[0], p.result.value[1])) else Err(p.result.error))
  }

  /** `popInt32` as written. */
  function PopInt32Of(s: StackState): Popped<JInt>
  {
    var p := PopBytes(s, 4);
    var bs := if p.result.Ok? then p.result.value else [0, 0, 0, 0];
    Popped(p.state, if p.result.Ok? then Ok(PopInt32Value(bs[0], bs[1], bs[2], bs[3])) else Err(p.result.error))
  }

  /** `popInt64` as written. */
  function PopInt64Of(s: StackState): Popped<JLong>
  {
    var p := PopBytes(s, 8);
    var bs := if p.result.Ok? then p.result.value else [0, 0, 0, 0, 0, 0, 0, 0];
    Popped(p.state, if p.result.Ok? then Ok(PopInt64Value(bs[0], bs[1], bs[2], bs[3], bs[4], bs[5], bs[6], bs[7])) else Err(p.result.error))
  }

  lemma Reverse2<T>(a: T, b: T)
    ensures Reverse([a, b]) == [b, a]
  {
  }

  lemma Reverse4<T>(a: T, b: T, c: T, d: T)
    ensures Reverse([a, b, c, d]) == [d, c, b, a]
  {
  }

  lemma Reverse8<T>(a: T, b: T, c: T, d: T, e: T, f: T, g: T, h: T)
    ensures Reverse([a, b, c, d, e, f, g, h]) == [h, g, f, e, d, c, b, a]
  {
  }

  /** `PushThenPop` for four bytes. */
  lemma PushThenPop4(s: StackState, a: JByte, b: JByte, c: JByte, d: JByte)
    requires PushBytes(s, [a, b, c, d]).outcome.Pass?
    ensures PopBytes(PushBytes(s, [a, b, c, d]).state, 4) ==
      Popped(StackState(PushBytes(s, [a, b, c, d]).state.buf, s.sp), Ok([d, c, b, a]))
  {
    PushThenPop(s, [a, b, c, d]);
    Reverse4(a, b, c, d);
  }

  /** `PushThenPop` for eight bytes. */
  lemma PushThenPop8(s: StackState, a: JByte, b: JByte, c: JByte, d: JByte, e: JByte, f: JByte, g: JByte, h: JByte)
    requires PushBytes(s, [a, b, c, d, e, f, g, h]).outcome.Pass?
    ensures PopBytes(PushBytes(s, [a, b, c, d, e, f, g, h]).state, 8) ==
      Popped(StackState(PushBytes(s, [a, b, c, d, e, f, g, h]).state.buf, s.sp), Ok([h, g, f, e, d, c, b, a]))
  {
    PushThenPop(s, [a, b, c, d, e, f, g, h]);
    Reverse8(a, b, c, d, e, f, g, h);
  }

  /** After a completed `pushInt8(v)`, `popInt8` returns the low byte of v sign-extended, and restores the pointer. */
  lemma PushThenPopInt8(s: StackState, v: JInt)
    requires PushBytes(s, [IntToByte(v)]).outcome.Pass?
    ensures PopInt8Of(PushBytes(s, [IntToByte(v)]).state) ==
      Popped(StackState(PushBytes(s, [IntToByte(v)]).state.buf, s.sp), Ok(ByteToInt(IntToByte(v))))
  {
    PushThenPopByte(s, IntToByte(v));
  }

  lemma PushThenPopByte(s: StackState, b: JByte)
    requires PushBytes(s, [b]).outcome.Pass?
    ensures PopByte(PushBytes(s, [b]).state) == Popped(StackState(PushBytes(s, [b]).state.buf, s.sp), Ok(b))
  {
    var t := PushBytes(s, [b]).state;
    PushThenPop(s, [b]);
    Reverse1(b);
    PopByteIsPopBytes(t);
    assert [PopByte(t).result.value][0] == b;
  }

  lemma Reverse1<T>(a: T)
    ensures Reverse([a]) == [a]
  {
  }

  /** The as-written `popInt16` of two pushed bytes decodes them in reverse order. */
  lemma PushThenPopInt16Bytes(s: StackState, hi: JByte, lo: JByte)
    requires PushBytes(s, [hi, lo]).outcome.Pass?
    ensures PopInt16Of(PushBytes(s, [hi, lo]).state) ==
      Popped(StackState(PushBytes(s, [hi, lo]).state.buf, s.sp), Ok(PopInt16Value(lo, hi)))
  {
    PushThenPop(s, [hi, lo]);
    Reverse2(hi, lo);
  }

  /** After a completed `pushInt16(v)`, the as-written `popInt16` returns `Smeared16(v)` and restores the pointer. */
  lemma PushThenPopInt16(s: StackState, v: JInt)
    requires PushBytes(s, Int16Bytes(v)).outcome.Pass?
    ensures PopInt16Of(PushBytes(s, Int16Bytes(v)).state) ==
      Popped(StackState(PushBytes(s, Int16Bytes(v)).state.buf, s.sp), Ok(Smeared16(v)))
  {
    PushThenPopInt16Bytes(s, IntToByte((v >> 8) & 0xFF), IntToByte(v & 0xFF));
    PopInt16Smears(v);
  }

  /** The as-written `popInt32` of four pushed bytes decodes them in reverse order. */
  lemma PushThenPopInt32Bytes(s: StackState, a: JByte, b: JByte, c: JByte, d: JByte)
    requires PushBytes(s, [a, b, c, d]).outcome.Pass?
    ensures PopInt32Of(PushBytes(s, [a, b, c, d]).state) ==
      Popped(StackState(PushBytes(s, [a, b, c, d]).state.buf, s.sp), Ok(PopInt32Value(d, c, b, a)))
  {
    PushThenPop4(s, a, b, c, d);
    DecodeInt32AfterPop(PushBytes(s, [a, b, c, d]).state, StackState(PushBytes(s, [a, b, c, d]).state.buf, s.sp), a, b, c, d);
  }

  lemma DecodeInt32AfterPop(t: StackState, u: StackState, a: JByte, b: JByte, c: JByte, d: JByte)
    requires PopBytes(t, 4) == Popped(u, Ok([d, c, b, a]))
    ensures PopInt32Of(t) == Popped(u, Ok(PopInt32Value(d, c, b, a)))
  {
  }

  /** After a completed `pushInt32(v)`, the as-written `popInt32` returns `Smeared32(v)` and restores the pointer. */
  lemma PushThenPopInt32(s: StackState, v: JInt)
    requires PushBytes(s, Int32Bytes(v)).outcome.Pass?
    ensures PopInt32Of(PushBytes(s, Int32Bytes(v)).state) ==
      Popped(StackState(PushBytes(s, Int32Bytes(v)).state.buf, s.sp), Ok(Smeared32(v)))
  {
    PushThenPopInt32Bytes(s, IntToByte((v >> 24) & 0xFF), IntToByte((v >> 16) & 0xFF), IntToByte((v >> 8) & 0xFF), IntToByte(v & 0xFF));
    PopInt32Smears(v);
  }

  /** Each byte `pushInt64(v)` stores is the byte `pushInt32` would store at the same place for v's upper or lower half. */
  lemma Int64BytesHalves(v: JLong)
    ensures var hi, lo := LongToInt(v >> 32), LongToInt(v);
      && IntToByte(LongToInt((v >> 56) & 0xFF)) == IntToByte((hi >> 24) & 0xFF)
      && IntToByte(LongToInt((v >> 48) & 0xFF)) == IntToByte((hi >> 16) & 0xFF)
      && IntToByte(LongToInt((v >> 40) & 0xFF)) == IntToByte((hi >> 8) & 0xFF)
      && IntToByte(LongToInt((v >> 32) & 0xFF)) == IntToByte(hi & 0xFF)
      && IntToByte(LongToInt((v >> 24) & 0xFF)) == IntToByte((lo >> 24) & 0xFF)
      && IntToByte(LongToInt((v >> 16) & 0xFF)) == IntToByte((lo >> 16) & 0xFF)
      && IntToByte(LongToInt((v >> 8) & 0xFF)) == IntToByte((lo >> 8) & 0xFF)
      && IntToByte(LongToInt(v & 0xFF)) == IntToByte(lo & 0xFF)
  {
  }

  /** The as-written `popInt64` of eight pushed bytes decodes them in reverse order. */
  lemma PushThenPopInt64Bytes(s: StackState, a: JByte, b: JByte, c: JByte, d: JByte, e: JByte, f: JByte, g: JByte, h: JByte)
    requires PushBytes(s, [a, b, c, d, e, f, g, h]).outcome.Pass?
    ensures PopInt64Of(PushBytes(s, [a, b, c, d, e, f, g, h]).state) ==
      Popped(StackState(PushBytes(s, [a, b, c, d, e, f, g, h]).state.buf, s.sp), Ok(PopInt64Value(h, g, f, e, d, c, b, a)))
  {
    PushThenPop8(s, a, b, c, d, e, f, g, h);
    DecodeInt64AfterPop(PushBytes(s, [a, b, c, d, e, f, g, h]).state,
      StackState(PushBytes(s, [a, b, c, d, e, f, g, h]).state.buf, s.sp), a, b, c, d, e, f, g, h);
  }

  lemma DecodeInt64AfterPop(t: StackState, u: StackState, a: JByte, b: JByte, c: JByte, d: JByte, e: JByte, f: JByte, g: JByte, h: JByte)
    requires PopBytes(t, 8) == Popped(u, Ok([h, g, f, e, d, c, b, a]))
    ensures PopInt64Of(t) == Popped(u, Ok(PopInt64Value(h, g, f, e, d, c, b, a)))
  {
  }

  /** The as-written `popInt32` of the upper four bytes `pushInt64(v)` stores is `Smeared32` of v's upper half. */
  lemma PopInt64UpperHalf(v: JLong)
    ensures PopInt32Value(IntToByte(LongToInt((v >> 32) & 0xFF)), IntToByte(LongToInt((v >> 40) & 0xFF)),
      IntToByte(LongToInt((v >> 48) & 0xFF)), IntToByte(LongToInt((v >> 56) & 0xFF))) == Smeared32(LongToInt(v >> 32))
  {
    Int64BytesHalves(v);
    PopInt32Smears(LongToInt(v >> 32));
  }

  /** The as-written `popInt32` of the lower four bytes `pushInt64(v)` stores is `Smeared32` of v's lower half. */
  lemma PopInt64LowerHalf(v: JLong)
    ensures PopInt32Value(IntToByte(LongToInt(v & 0xFF)), IntToByte(LongToInt((v >> 8) & 0xFF)),
      IntToByte(LongToInt((v >> 16) & 0xFF)), IntToByte(LongToInt((v >> 24) & 0xFF))) == Smeared32(LongToInt(v))
  {
    Int64BytesHalves(v);
    PopInt32Smears(LongToInt(v));
  }

  /** The as-written `popInt64` of the eight bytes `pushInt64(v)` stores: its halves' as-written `int` pops, ORed and sign-extended. */
  lemma PopInt64Smears(v: JLong)
    ensures PopInt64Value(IntToByte(LongToInt(v & 0xFF)), IntToByte(LongToInt((v >> 8) & 0xFF)),
      IntToByte(LongToInt((v >> 16) & 0xFF)), IntToByte(LongToInt((v >> 24) & 0xFF)),
      IntToByte(LongToInt((v >> 32) & 0xFF)), IntToByte(LongToInt((v >> 40) & 0xFF)),
      IntToByte(LongToInt((v >> 48) & 0xFF)), IntToByte(LongToInt((v >> 56) & 0xFF)))
      == IntToLong(Smeared32(LongToInt(v >> 32)) | Smeared32(LongToInt(v)))
  {
    PopInt64OrsHalves(IntToByte(LongToInt(v & 0xFF)), IntToByte(LongToInt((v >> 8) & 0xFF)),
      IntToByte(LongToInt((v >> 16) & 0xFF)), IntToByte(LongToInt((v >> 24) & 0xFF)),
      IntToByte(LongToInt((v >> 32) & 0xFF)), IntToByte(LongToInt((v >> 40) & 0xFF)),
      IntToByte(LongToInt((v >> 48) & 0xFF)), IntToByte(LongToInt((v >> 56) & 0xFF)));
    PopInt64UpperHalf(v);
    PopInt64LowerHalf(v);
  }

  /**
   * After a completed `pushInt64(v)`, the as-written `popInt64` returns the
   * as-written 32-bit pops of v's two halves ORed together and sign-extended.
   */
  lemma PushThenPopInt64(s: StackState, v: JLong)
    requires PushBytes(s, Int64Bytes(v)).outcome.Pass?
    ensures PopInt64Of(PushBytes(s, Int64Bytes(v)).state) ==
      Popped(StackState(PushBytes(s, Int64Bytes(v)).state.buf, s.sp),
        Ok(IntToLong(Smeared32(LongToInt(v >> 32)) | Smeared32(LongToInt(v)))))
  {
    PushThenPopInt64Bytes(s, IntToByte(LongToInt((v >> 56) & 0xFF)), IntToByte(LongToInt((v >> 48) & 0xFF)),
      IntToByte(LongToInt((v >> 40) & 0xFF)), IntToByte(LongToInt((v >> 32) & 0xFF)),
      IntToByte(LongToInt((v >> 24) & 0xFF)), IntToByte(LongToInt((v >> 16) & 0xFF)),
      IntToByte(LongToInt((v >> 8) & 0xFF)), IntToByte(LongToInt(v & 0xFF)));
    PopInt64Smears(v);
  }

  /** The intended `popInt16`, `popInt32` and `popInt64`: the same pops, with the bytes masked before they are combined. */
  function PopInt16Fixed(s: StackState): Popped<JInt>
  {
    var p := PopBytes(s, 2);
    Popped(p.state, if p.result.Ok? then Ok(Int16Value(p.result.value[0], p.result.value[1])) else Err(p.result.error))
  }

  function PopInt32Fixed(s: StackState): Popped<JInt>
  {
    var p := PopBytes(s, 4);
    var bs := if p.result.Ok? then p.result.value else [0, 0, 0, 0];
    Popped(p.state, if p.result.Ok? then Ok(Int32Value(bs[0], bs[1], bs[2], bs[3])) else Err(p.result.error))
  }

  function PopInt64Fixed(s: StackState): Popped<JLong>
  {
    var p := PopBytes(s, 8);
    var bs := if p.result.Ok? then p.result.value else [0, 0, 0, 0, 0, 0, 0, 0];
    Popped(p.state, if p.result.Ok? then Ok(Int64Value(bs[0], bs[1], bs[2], bs[3], bs[4], bs[5], bs[6], bs[7])) else Err(p.result.error))
  }

  /** After a completed `pushInt16(v)`, the intended `popInt16` returns the low 16 bits of v and restores the pointer. */
  lemma PushThenPopInt16Fixed(s: StackState, v: JInt)
    requires PushBytes(s, Int16Bytes(v)).outcome.Pass?
    ensures PopInt16Fixed(PushBytes(s, Int16Bytes(v)).state) ==
      Popped(StackState(PushBytes(s, Int16Bytes(v)).state.buf, s.sp), Ok(v & 0xFFFF))
  {
    var hi, lo := IntToByte((v >> 8) & 0xFF), IntToByte(v & 0xFF);
    PushThenPop(s, [hi, lo]);
    Reverse2(hi, lo);
    Int16RoundTrip(v);
  }

  /** After a completed `pushInt32(v)`, the intended `popInt32` returns v and restores the pointer. */
  lemma PushThenPopInt32Fixed(s: StackState, v: JInt)
    requires PushBytes(s, Int32Bytes(v)).outcome.Pass?
    ensures PopInt32Fixed(PushBytes(s, Int32Bytes(v)).state) ==
      Popped(StackState(PushBytes(s, Int32Bytes(v)).state.buf, s.sp), Ok(v))
  {
    var a, b, c, d := IntToByte((v >> 24) & 0xFF), IntToByte((v >> 16) & 0xFF), IntToByte((v >> 8) & 0xFF), IntToByte(v & 0xFF);
    PushThenPop4(s, a, b, c, d);
    DecodeInt32FixedAfterPop(PushBytes(s, [a, b, c, d]).state, StackState(PushBytes(s, [a, b, c, d]).state.buf, s.sp), a, b, c, d);
    Int32RoundTrip(v);
  }

  lemma DecodeInt32FixedAfterPop(t: StackState, u: StackState, a: JByte, b: JByte, c: JByte, d: JByte)
    requires PopBytes(t, 4) == Popped(u, Ok([d, c, b, a]))
    ensures PopInt32Fixed(t) == Popped(u, Ok(Int32Value(d, c, b, a)))
  {
  }

  /** After a completed `pushInt64(v)`, the intended `popInt64` returns v and restores the pointer. */
  lemma PushThenPopInt64Fixed(s: StackState, v: JLong)
    requires PushBytes(s, Int64Bytes(v)).outcome.Pass?
    ensures PopInt64Fixed(PushBytes(s, Int64Bytes(v)).state) ==
      Popped(StackState(PushBytes(s, Int64Bytes(v)).state.buf, s.sp), Ok(v))
  {
    var a, b, c, d := IntToByte(LongToInt((v >> 56) & 0xFF)), IntToByte(LongToInt((v >> 48) & 0xFF)),
      IntToByte(LongToInt((v >> 40) & 0xFF)), IntToByte(LongToInt((v >> 32) & 0xFF));
    var e, f, g, h := IntToByte(LongToInt((v >> 24) & 0xFF)), IntToByte(LongToInt((v >> 16) & 0xFF)),
      IntToByte(LongToInt((v >> 8) & 0xFF)), IntToByte(LongToInt(v & 0xFF));
    PushThenPop8(s, a, b, c, d, e, f, g, h);
    DecodeInt64FixedAfterPop(PushBytes(s, [a, b, c, d, e, f, g, h]).state,
      StackState(PushBytes(s, [a, b, c, d, e, f, g, h]).state.buf, s.sp), a, b, c, d, e, f, g, h);
    Int64RoundTrip(v);
  }

  lemma DecodeInt64FixedAfterPop(t: StackState, u: StackState, a: JByte, b: JByte, c: JByte, d: JByte, e: JByte, f: JByte, g: JByte, h: JByte)
    requires PopBytes(t, 8) == Popped(u, Ok([h, g, f, e, d, c, b, a]))
    ensures PopInt64Fixed(t) == Popped(u, Ok(Int64Value(h, g, f, e, d, c, b, a)))
  {
  }

  /** `popInt16` on a stack with two bytes at the pointer. */
  lemma PopInt16OfOk(s: StackState)
    requires 0 <= s.sp && s.sp + 2 <= |s.buf|
    ensures PopInt16Of(s) == Popped(s.(sp := s.sp + 2), Ok(PopInt16Value(s.buf[s.sp], s.buf[s.sp + 1])))
  {
    PopBytesSpec(s, 2);
  }

  /** `popInt32` on a stack with four bytes at the pointer. */
  lemma PopInt32OfOk(s: StackState)
    requires 0 <= s.sp && s.sp + 4 <= |s.buf|
    ensures PopInt32Of(s) == Popped(s.(sp := s.sp + 4), Ok(PopInt32Value(s.buf[s.sp], s.buf[s.sp + 1], s.buf[s.sp + 2], s.buf[s.sp + 3])))
  {
    PopBytesSpec(s, 4);
  }

  /** Eight bytes at the pointer are popped in buffer order. */
  lemma PopBytes8(s: StackState)
    requires 0 <= s.sp && s.sp + 8 <= |s.buf|
    ensures PopBytes(s, 8) == Popped(s.(sp := s.sp + 8), Ok([s.buf[s.sp], s.buf[s.sp + 1], s.buf[s.sp + 2], s.buf[s.sp + 3],
      s.buf[s.sp + 4], s.buf[s.sp + 5], s.buf[s.sp + 6], s.buf[s.sp + 7]]))
  {
    PopBytesSpec(s, 8);
    Slice8(s.buf, s.sp);
  }

  lemma Slice8<T>(xs: seq<T>, i: int)
    requires 0 <= i && i + 8 <= |xs|
    ensures xs[i..i + 8] == [xs[i], xs[i + 1], xs[i + 2], xs[i + 3], xs[i + 4], xs[i + 5], xs[i + 6], xs[i + 7]]
  {
  }

  /** `popInt64` on a stack with eight bytes at the pointer. */
  lemma PopInt64OfOk(s: StackState)
    requires 0 <= s.sp && s.sp + 8 <= |s.buf|
    ensures PopInt64Of(s) == Popped(s.(sp := s.sp + 8), Ok(PopInt64Value(s.buf[s.sp], s.buf[s.sp + 1], s.buf[s.sp + 2], s.buf[s.sp + 3],
      s.buf[s.sp + 4], s.buf[s.sp + 5], s.buf[s.sp + 6], s.buf[s.sp + 7])))
  {
    PopBytes8(s);
  }

  /** `PopInt64OfOk` on the values the eight `popInt8` calls returned. */
  lemma PopInt64Combined(s: StackState, h: JInt, g: JInt, f: JInt, e: JInt, d: JInt, c: JInt, b: JInt, a: JInt)
    requires 0 <= s.sp && s.sp + 8 <= |s.buf|
    requires h == ByteToInt(s.buf[s.sp]) && g == ByteToInt(s.buf[s.sp + 1])
    requires f == ByteToInt(s.buf[s.sp + 2]) && e == ByteToInt(s.buf[s.sp + 3])
    requires d == ByteToInt(s.buf[s.sp + 4]) && c == ByteToInt(s.buf[s.sp + 5])
    requires b == ByteToInt(s.buf[s.sp + 6]) && a == ByteToInt(s.buf[s.sp + 7])
    ensures PopInt64Of(s) == Popped(s.(sp := s.sp + 8), Ok(CombineInt64(h, g, f, e, d, c, b, a)))
  {
    PopInt64OfOk(s);
  }

  /** A multi-byte pop that finds fewer than n bytes: an overflow if the pointer is negative, otherwise an underflow stopped at the end. */
  function PopFailure<T>(s: StackState): Popped<T>
  {
    Popped(s.(sp := if s.sp < 0 || s.sp > |s.buf| then s.sp else |s.buf|), Err(if s.sp < 0 then StackOverflow else StackUnderflow))
  }

  lemma PopInt16OfFails(s: StackState)
    requires !(0 <= s.sp && s.sp + 2 <= |s.buf|)
    ensures PopInt16Of(s) == PopFailure(s)
  {
    PopBytesSpec(s, 2);
  }

  lemma PopInt32OfFails(s: StackState)
    requires !(0 <= s.sp && s.sp + 4 <= |s.buf|)
    ensures PopInt32Of(s) == PopFailure(s)
  {
    PopBytesSpec(s, 4);
  }

  lemma PopInt64OfFails(s: StackState)
    requires !(0 <= s.sp && s.sp + 8 <= |s.buf|)
    ensures PopInt64Of(s) == PopFailure(s)
  {
    PopBytesSpec(s, 8);
  }

  /** A two-byte push is two one-byte pushes, the second skipped if the first fails. */
  lemma PushBytes2(s: StackState, a: JByte, b: JByte)
    ensures PushBytes(s, [a, b]) == ThenPush(PushByte(s, a), b)
  {
    PushBytesSnoc(s, [a], b);
    assert [a] + [b] == [a, b];
  }

  /** A four-byte push is four one-byte pushes, stopping at the first failure. */
  lemma PushBytes4(s: StackState, a: JByte, b: JByte, c: JByte, d: JByte)
    ensures PushBytes(s, [a, b, c, d]) == ThenPush(ThenPush(ThenPush(PushByte(s, a), b), c), d)
  {
    PushBytes2(s, a, b);
    PushBytesSnoc(s, [a, b], c);
    assert [a, b] + [c] == [a, b, c];
    PushBytesSnoc(s, [a, b, c], d);
    assert [a, b, c] + [d] == [a, b, c, d];
  }

  /** An eight-byte push is eight one-byte pushes, stopping at the first failure. */
  lemma PushBytes8(s: StackState, a: JByte, b: JByte, c: JByte, d: JByte, e: JByte, f: JByte, g: JByte, h: JByte)
    ensures PushBytes(s, [a, b, c, d, e, f, g, h]) ==
      ThenPush(ThenPush(ThenPush(ThenPush(ThenPush(ThenPush(ThenPush(PushByte(s, a), b), c), d), e), f), g), h)
  {
    PushBytes4(s, a, b, c, d);
    PushBytesSnoc(s, [a, b, c, d], e);
    assert [a, b, c, d] + [e] == [a, b, c, d, e];
    PushBytesSnoc(s, [a, b, c, d, e], f);
    assert [a, b, c, d, e] + [f] == [a, b, c, d, e, f];
    PushBytesSnoc(s, [a, b, c, d, e, f], g);
    assert [a, b, c, d, e, f] + [g] == [a, b, c, d, e, f, g];
    PushBytesSnoc(s, [a, b, c, d, e, f, g], h);
    assert [a, b, c, d, e, f, g] + [h] == [a, b, c, d, e, f, g, h];
  }

  /** One byte of a packed frame layout: `(lvtInfo >>> shift) & 0xFF`. */
  function LayoutByte(lvtInfo: JLong, shift: JLong): JByte
    requires shift < 64
  {
    IntToByte(LongToInt(UshrLong(lvtInfo, shift) & 0xFF))
  }

  /** One count of a packed frame layout, `(int) ((lvtInfo >>> shift) & 0xFF)`: a value in [0, 255]. */
  function LayoutField(lvtInfo: JLong, shift: JLong): (r: int)
    requires shift < 64
    ensures 0 <= r < 0x100
  {
    LayoutByte(lvtInfo, shift) as int
  }

  /**
   * The LVT counts a packed layout descriptor asks for: from the low byte up,
   * int8, float16, int16, float32, int32, float64 and int64; the top byte is
   * the word count.
   */
  function LayoutCounts(lvtInfo: JLong): Counts
  {
    Counts(LayoutField(lvtInfo, 48), LayoutField(lvtInfo, 40), LayoutField(lvtInfo, 32), LayoutField(lvtInfo, 24),
      LayoutField(lvtInfo, 16), LayoutField(lvtInfo, 8), LayoutField(lvtInfo, 0))
  }

  /** Eight bytes packed high to low into a descriptor. */
  function PackLayout(w: JByte, a: JByte, b: JByte, c: JByte, d: JByte, e: JByte, f: JByte, g: JByte): JLong
  {
    (w as JLong << 56) | (a as JLong << 48) | (b as JLong << 40) | (c as JLong << 32)
    | (d as JLong << 24) | (e as JLong << 16) | (f as JLong << 8) | g as JLong
  }

  lemma UnpackPackLayout(w: JByte, a: JByte, b: JByte, c: JByte, d: JByte, e: JByte, f: JByte, g: JByte)
    ensures var x := PackLayout(w, a, b, c, d, e, f, g);
      LayoutByte(x, 56) == w && LayoutByte(x, 48) == a && LayoutByte(x, 40) == b && LayoutByte(x, 32) == c
      && LayoutByte(x, 24) == d && LayoutByte(x, 16) == e && LayoutByte(x, 8) == f && LayoutByte(x, 0) == g
  {
  }

  /** Each count a layout descriptor can hold. */
  predicate IsLayoutCount(n: int) {
    0 <= n < 0x100
  }

  predicate IsLayout(c: Counts) {
    IsLayoutCount(c.int64) && IsLayoutCount(c.float64) && IsLayoutCount(c.int32) && IsLayoutCount(c.float32)
    && IsLayoutCount(c.int16) && IsLayoutCount(c.float16) && IsLayoutCount(c.int8)
  }

  /**
   * The eight counts the nine-argument `pushStackFrame` passes to the
   * seven-parameter `reserve`, in argument order: the word count comes first.
   */
  function OverloadReserveArgs(lvtInfo: JLong): (r: seq<int>)
    ensures |r| == 8
  {
    [LayoutField(lvtInfo, 56), LayoutField(lvtInfo, 48), LayoutField(lvtInfo, 40), LayoutField(lvtInfo, 32),
     LayoutField(lvtInfo, 24), LayoutField(lvtInfo, 16), LayoutField(lvtInfo, 8), LayoutField(lvtInfo, 0)]
  }

  /** The position of each width's count among `reserve`'s seven parameters. */
  function ReserveParam(t: SlotType): (r: nat)
    ensures r < 7
  {
    match t
    case Int64 => 0
    case Float64 => 1
    case Int32 => 2
    case Float32 => 3
    case Int16 => 4
    case Float16 => 5
    case Int8 => 6
  }

  /**
   * The overload passes one argument more than `reserve` takes, and every
   * width's count sits one place after the parameter meant to receive it.
   */
  lemma OverloadMisaligned(lvtInfo: JLong)
    ensures |OverloadReserveArgs(lvtInfo)| == 7 + 1
    ensures forall t: SlotType :: OverloadReserveArgs(lvtInfo)[ReserveParam(t) + 1] == CountOf(LayoutCounts(lvtInfo), t)
  {
    forall t: SlotType
      ensures OverloadReserveArgs(lvtInfo)[ReserveParam(t) + 1] == CountOf(LayoutCounts(lvtInfo), t)
    {
    }
  }

  /**
   * A descriptor asking for one word and nothing else: the overload's first
   * argument, which `reserve` would take as the int64 count, is 1, though
   * the descriptor asks for no int64 variables.
   */
  lemma OverloadCounterexample()
    ensures OverloadReserveArgs(0x0100_0000_0000_0000)[ReserveParam(SlotType.Int64)] == 1
    ensures CountOf(LayoutCounts(0x0100_0000_0000_0000), SlotType.Int64) == 0
  {
  }

  /** Decoding a packed descriptor recovers every count packed into it. */
  lemma LayoutRoundTrip(w: JByte, a: JByte, b: JByte, c: JByte, d: JByte, e: JByte, f: JByte, g: JByte)
    ensures LayoutCounts(PackLayout(w, a, b, c, d, e, f, g)) == Counts(a as int, b as int, c as int, d as int, e as int, f as int, g as int)
    ensures LayoutField(PackLayout(w, a, b, c, d, e, f, g), 56) == w as int
  {
    UnpackPackLayout(w, a, b, c, d, e, f, g);
  }

  /** Every 64-bit descriptor packs the bytes it decodes to, each count in [0, 255]: decoding loses nothing. */
  lemma LayoutComplete(lvtInfo: JLong)
    ensures IsLayout(LayoutCounts(lvtInfo))
    ensures PackLayout(LayoutByte(lvtInfo, 56), LayoutByte(lvtInfo, 48), LayoutByte(lvtInfo, 40), LayoutByte(lvtInfo, 32),
      LayoutByte(lvtInfo, 24), LayoutByte(lvtInfo, 16), LayoutByte(lvtInfo, 8), LayoutByte(lvtInfo, 0)) == lvtInfo
  {
  }

  /**
   * A thread's stack: the operand buffer with its stack pointer and branch
   * pointer, and the deque of stack frames, whose head (index 0 here) is the
   * current frame.
   */
  class Stack {
    const stack: array<JByte>
    var stackPointer: int
    var branchPointer: int
    var stackFrames: seq<StackFrame>

    ghost function State(): StackState
      reads this, stack
    {
      StackState(stack[..], stackPointer)
    }

    /** A stack of `size` bytes, empty and with no frames. */
    constructor (size: nat)
      ensures fresh(stack) && State() == StackState(seq(size, _ => 0), size)
      ensures branchPointer == size && stackFrames == []
    {
      stack := new JByte[size](_ => 0);
      stackFrames := [];
      new;
      assert stack[..] == seq(size, _ => 0);
      Clear();
    }

    /** The no-argument constructor: a stack of 65535 bytes. */
    constructor Default()
      ensures fresh(stack) && State() == StackState(seq(65535, _ => 0), 65535)
      ensures branchPointer == 65535 && stackFrames == []
    {
      stack := new JByte[65535](_ => 0);
      stackFrames := [];
      new;
      assert stack[..] == seq(65535, _ => 0);
      Clear();
    }

    /** Empties the operand stack; the bytes and the frames stay. */
    method Clear()
      modifies this
      ensures stackPointer == stack.Length && branchPointer == stack.Length
      ensures stackFrames == old(stackFrames)
    {
      stackPointer := stack.Length;
      branchPointer := stack.Length;
    }

    method RangeCheck() returns (r: Outcome)
      ensures r == CheckPointer(State())
    {
      if stackPointer < 0 { return Fail(StackOverflow); }
      if stackPointer >= stack.Length { return Fail(StackUnderflow); }
      return Pass;
    }

    method PushInt8(value: JInt) returns (r: Outcome)
      modifies this, stack
      ensures Pushed(State(), r) == PushByte(old(State()), IntToByte(value))
      ensures branchPointer == old(branchPointer) && stackFrames == old(stackFrames)
    {
      stackPointer := stackPointer - 1;
      r := RangeCheck();
      if r.Fail? { return; }
      stack[stackPointer] := IntToByte(value);
    }

    method PushInt16(value: JInt) returns (r: Outcome)
      modifies this, stack
      ensures Pushed(State(), r) == PushBytes(old(State()), Int16Bytes(value))
      ensures branchPointer == old(branchPointer) && stackFrames == old(stackFrames)
    {
      var hi := (value >> 8) & 0xFF;
      var lo := value & 0xFF;
      PushBytes2(State(), IntToByte(hi), IntToByte(lo));
      r := PushInt8(hi);
      if r.Fail? { return; }
      r := PushInt8(lo);
    }

    method PushInt32(value: JInt) returns (r: Outcome)
      modifies this, stack
      ensures Pushed(State(), r) == PushBytes(old(State()), Int32Bytes(value))
      ensures branchPointer == old(branchPointer) && stackFrames == old(stackFrames)
    {
      var a := (value >> 24) & 0xFF;
      var b := (value >> 16) & 0xFF;
      var c := (value >> 8) & 0xFF;
      var d := value & 0xFF;
      PushBytes4(State(), IntToByte(a), IntToByte(b), IntToByte(c), IntToByte(d));
      r := PushInt8(a);
      if r.Fail? { return; }
      r := PushInt8(b);
      if r.Fail? { return; }
      r := PushInt8(c);
      if r.Fail? { return; }
      r := PushInt8(d);
    }

    method PushInt64(value: JLong) returns (r: Outcome)
      modifies this, stack
      ensures Pushed(State(), r) == PushBytes(old(State()), Int64Bytes(value))
      ensures branchPointer == old(branchPointer) && stackFrames == old(stackFrames)
    {
      var a := LongToInt((value >> 56) & 0xFF);
      var b := LongToInt((value >> 48) & 0xFF);
      var c := LongToInt((value >> 40) & 0xFF);
      var d := LongToInt((value >> 32) & 0xFF);
      var e := LongToInt((value >> 24) & 0xFF);
      var f := LongToInt((value >> 16) & 0xFF);
      var g := LongToInt((value >> 8) & 0xFF);
      var h := LongToInt(value & 0xFF);
      PushBytes8(State(), IntToByte(a), IntToByte(b), IntToByte(c), IntToByte(d),
        IntToByte(e), IntToByte(f), IntToByte(g), IntToByte(h));
      r := PushInt8(a);
      if r.Fail? { return; }
      r := PushInt8(b);
      if r.Fail? { return; }
      r := PushInt8(c);
      if r.Fail? { return; }
      r := PushInt8(d);
      if r.Fail? { return; }
      r := PushInt8(e);
      if r.Fail? { return; }
      r := PushInt8(f);
      if r.Fail? { return; }
      r := PushInt8(g);
      if r.Fail? { return; }
      r := PushInt8(h);
    }

    /** `pushWord`: a word is pushed as an int64. */
    method PushWord(value: JLong) returns (r: Outcome)
      modifies this, stack
      ensures Pushed(State(), r) == PushBytes(old(State()), Int64Bytes(value))
      ensures branchPointer == old(branchPointer) && stackFrames == old(stackFrames)
    {
      r := PushInt64(value);
    }

    /** `pushFloat16`: the half-float's 16 bits, widened to `int`, pushed as an int16. */
    method PushFloat16(value: JShort) returns (r: Outcome)
      modifies this, stack
      ensures Pushed(State(), r) == PushBytes(old(State()), Int16Bytes(ShortToInt(value)))
      ensures branchPointer == old(branchPointer) && stackFrames == old(stackFrames)
    {
      r := PushInt16(ShortToInt(value));
    }

    /** `popInt8`, stated on the fields: by `PopInt8OfSpec` this is `PopInt8Of` of the stack's state. */
    method PopInt8() returns (r: Result<JInt>)
      modifies this
      ensures 0 <= old(stackPointer) < stack.Length ==> r == Ok(ByteToInt(stack[old(stackPointer)])) && stackPointer == old(stackPointer) + 1
      ensures old(stackPointer) < 0 ==> r == Err(StackOverflow) && stackPointer == old(stackPointer)
      ensures old(stackPointer) >= stack.Length ==> r == Err(StackUnderflow) && stackPointer == old(stackPointer)
      ensures stack[..] == old(stack[..])
      ensures branchPointer == old(branchPointer) && stackFrames == old(stackFrames)
    {
      var c := RangeCheck();
      if c.Fail? { return Err(c.error); }
      var result := ByteToInt(stack[stackPointer]);
      stackPointer := stackPointer + 1;
      return Ok(result);
    }

    method PopInt16() returns (r: Result<JInt>)
      modifies this
      ensures Popped(State(), r) == PopInt16Of(old(State()))
      ensures branchPointer == old(branchPointer) && stackFrames == old(stackFrames)
    {
      ghost var s0 := State();
      var lo := PopInt8();
      if lo.Err? {
        PopInt16OfFails(s0);
        return Err(lo.error);
      }
      var hi := PopInt8();
      if hi.Err? {
        PopInt16OfFails(s0);
        return Err(hi.error);
      }
      PopInt16OfOk(s0);
      return Ok(CombineInt16(lo.value, hi.value));
    }

    method PopInt32() returns (r: Result<JInt>)
      modifies this
      ensures Popped(State(), r) == PopInt32Of(old(State()))
      ensures branchPointer == old(branchPointer) && stackFrames == old(stackFrames)
    {
      ghost var s0 := State();
      var d := PopInt8();
      if d.Err? {
        PopInt32OfFails(s0);
        return Err(d.error);
      }
      var c := PopInt8();
      if c.Err? {
        PopInt32OfFails(s0);
        return Err(c.error);
      }
      var b := PopInt8();
      if b.Err? {
        PopInt32OfFails(s0);
        return Err(b.error);
      }
      var a := PopInt8();
      if a.Err? {
        PopInt32OfFails(s0);
        return Err(a.error);
      }
      PopInt32OfOk(s0);
      return Ok(CombineInt32(d.value, c.value, b.value, a.value));
    }

    /** `popInt64`: the bytes are combined as `int`s and the result widened to `long`. */
    method PopInt64() returns (r: Result<JLong>)
      modifies this
      ensures Popped(State(), r) == PopInt64Of(old(State()))
      ensures branchPointer == old(branchPointer) && stackFrames == old(stackFrames)
    {
      ghost var s0 := State();
      var h := PopInt8();
      if h.Err? {
        PopInt64OfFails(s0);
        return Err(h.error);
      }
      var g := PopInt8();
      if g.Err? {
        PopInt64OfFails(s0);
        return Err(g.error);
      }
      var f := PopInt8();
      if f.Err? {
        PopInt64OfFails(s0);
        return Err(f.error);
      }
      var e := PopInt8();
      if e.Err? {
        PopInt64OfFails(s0);
        return Err(e.error);
      }
      var d := PopInt8();
      if d.Err? {
        PopInt64OfFails(s0);
        return Err(d.error);
      }
      var c := PopInt8();
      if c.Err? {
        PopInt64OfFails(s0);
        return Err(c.error);
      }
      var b := PopInt8();
      if b.Err? {
        PopInt64OfFails(s0);
        return Err(b.error);
      }
      var a := PopInt8();
      if a.Err? {
        PopInt64OfFails(s0);
        return Err(a.error);
      }
      assert State() == s0.(sp := s0.sp + 8);
      PopInt64Combined(s0, h.value, g.value, f.value, e.value, d.value, c.value, b.value, a.value);
      return Ok(CombineInt64(h.value, g.value, f.value, e.value, d.value, c.value, b.value, a.value));
    }

    /** A pointer to the current frame: the head of the deque, or `null` when there is none. */
    function CurrentStackFrame(): (r: StackFrame?)
      reads this
      ensures r == null <==> stackFrames == []
      ensures r != null ==> r == stackFrames[0]
    {
      if stackFrames == [] then null else stackFrames[0]
    }

    /** Makes `frame` the current frame; the deque refuses `null`. */
    method PushStackFrame(frame: StackFrame?) returns (r: Outcome)
      modifies this
      ensures r == (if frame == null then Fail(NullElement) else Pass)
      ensures stackFrames == if frame == null then old(stackFrames) else [frame] + old(stackFrames)
      ensures stackPointer == old(stackPointer) && branchPointer == old(branchPointer)
    {
      if frame == null { return Fail(NullElement); }
      stackFrames := [frame] + stackFrames;
      return Pass;
    }

    /** Removes and returns the current frame; an empty deque fails. */
    method PopStackFrame() returns (r: Result<StackFrame>)
      modifies this
      ensures old(stackFrames) == [] ==> r == Err(NoSuchFrame) && stackFrames == []
      ensures old(stackFrames) != [] ==> r == Ok(old(stackFrames)[0]) && stackFrames == old(stackFrames)[1..]
      ensures stackPointer == old(stackPointer) && branchPointer == old(branchPointer)
    {
      if stackFrames == [] { return Err(NoSuchFrame); }
      r := Ok(stackFrames[0]);
      stackFrames := stackFrames[1..];
    }

    /**
     * `pushStackFrame(methodName, lvtInfo)`: a new frame named `methodName`
     * with the arrays the descriptor asks for becomes the current frame. The
     * seven counts go to `reserve` in its own parameter order, without the
     * word count the 9-argument overload puts first. Every array of the frame
     * is new, so it shares none with a program or an operand buffer.
     */
    method PushStackFrameWithLayout(methodName: string, lvtInfo: JLong) returns (frame: StackFrame)
      modifies this
      ensures fresh(frame) && frame.Valid() && frame.methodName == methodName
      ensures frame.int64 == null || fresh(frame.int64)
      ensures frame.float64 == null || fresh(frame.float64)
      ensures frame.int32 == null || fresh(frame.int32)
      ensures frame.float32 == null || fresh(frame.float32)
      ensures frame.int16 == null || fresh(frame.int16)
      ensures frame.float16 == null || fresh(frame.float16)
      ensures frame.int8 == null || fresh(frame.int8)
      ensures frame.State() == AfterReserve(NoArrays, LayoutCounts(lvtInfo))
      ensures stackFrames == [frame] + old(stackFrames)
      ensures stackPointer == old(stackPointer) && branchPointer == old(branchPointer)
    {
      var c := LayoutCounts(lvtInfo);
      frame := new StackFrame(methodName);
      frame.Reserve(c.int64, c.float64, c.int32, c.float32, c.int16, c.float16, c.int8);
      var pushed := PushStackFrame(frame);
    }
  }
}
