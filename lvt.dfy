/**
 * A stack frame: one call's local-variable table (LVT), seven independently
 * sized typed arrays, each absent until `reserve` is given a positive count
 * for it. There is no array for the `word` type. Every access first checks
 * that the array is present and that the index is inside it.
 *
 * `FrameState` and the functions over it are the value the class stores;
 * the class `StackFrame` is proved against them.
 */
module Lvt {
  import opened JavaInts
  import opened VMErrors

  /** A Java `float`, kept as its bit pattern and never interpreted. */
  type Float32Bits = bv32
  /** A Java `double`, kept as its bit pattern and never interpreted. */
  type Float64Bits = bv64

  /** The contents of a frame's seven arrays; `None` stands for a `null` field. */
  datatype FrameState = FrameState(
    int64: Option<seq<JLong>>,
    float64: Option<seq<Float64Bits>>,
    int32: Option<seq<JInt>>,
    float32: Option<seq<Float32Bits>>,
    int16: Option<seq<JShort>>,
    float16: Option<seq<JShort>>,
    int8: Option<seq<JByte>>)

  /** A frame before `reserve`: every array is `null`. */
  const NoArrays := FrameState(None, None, None, None, None, None, None)

  /** The seven counts passed to `reserve`, in its parameter order. */
  datatype Counts = Counts(int64: int, float64: int, int32: int, float32: int, int16: int, float16: int, int8: int)

  /** The length of the array of type t, or None when it is absent. */
  function Declared(f: FrameState, t: SlotType): Option<nat>
  {
    match t
    case Int64 => Size(f.int64)
    case Float64 => Size(f.float64)
    case Int32 => Size(f.int32)
    case Float32 => Size(f.float32)
    case Int16 => Size(f.int16)
    case Float16 => Size(f.float16)
    case Int8 => Size(f.int8)
  }

  function Size<T>(a: Option<seq<T>>): Option<nat>
  {
    if a.Some? then Some(|a.value|) else None
  }

  function CountOf(c: Counts, t: SlotType): int
  {
    match t
    case Int64 => c.int64
    case Float64 => c.float64
    case Int32 => c.int32
    case Float32 => c.float32
    case Int16 => c.int16
    case Float16 => c.float16
    case Int8 => c.int8
  }

  /** Whether every slot of the array of type t holds zero (an absent array counts as zero-filled). */
  predicate ZeroFilled(f: FrameState, t: SlotType)
  {
    match t
    case Int64 => f.int64.None? || forall i :: 0 <= i < |f.int64.value| ==> f.int64.value[i] == 0
    case Float64 => f.float64.None? || forall i :: 0 <= i < |f.float64.value| ==> f.float64.value[i] == 0
    case Int32 => f.int32.None? || forall i :: 0 <= i < |f.int32.value| ==> f.int32.value[i] == 0
    case Float32 => f.float32.None? || forall i :: 0 <= i < |f.float32.value| ==> f.float32.value[i] == 0
    case Int16 => f.int16.None? || forall i :: 0 <= i < |f.int16.value| ==> f.int16.value[i] == 0
    case Float16 => f.float16.None? || forall i :: 0 <= i < |f.float16.value| ==> f.float16.value[i] == 0
    case Int8 => f.int8.None? || forall i :: 0 <= i < |f.int8.value| ==> f.int8.value[i] == 0
  }

  /** The array a field refers to, as a set of at most one object. */
  function Own<T>(a: array?<T>): set<object>
  {
    if a != null then {a} else {}
  }

  /** One line of `reserve`: a positive count replaces the array by a fresh zero-filled one. */
  function ReservedArray<T>(count: int, a: Option<seq<T>>, zero: T): Option<seq<T>>
  {
    if count > 0 then Some(seq(count, _ => zero)) else a
  }

  /** The frame after `reserve(c)`. */
  function AfterReserve(f: FrameState, c: Counts): FrameState
  {
    FrameState(
      ReservedArray(c.int64, f.int64, 0),
      ReservedArray(c.float64, f.float64, 0),
      ReservedArray(c.int32, f.int32, 0),
      ReservedArray(c.float32, f.float32, 0),
      ReservedArray(c.int16, f.int16, 0),
      ReservedArray(c.float16, f.float16, 0),
      ReservedArray(c.int8, f.int8, 0))
  }

  /** Exactly the arrays with a positive count are (re)allocated, with that many zeros; the others are kept. */
  lemma ReserveAllocates(f: FrameState, c: Counts, t: SlotType)
    ensures CountOf(c, t) > 0 ==> Declared(AfterReserve(f, c), t) == Some(CountOf(c, t)) && ZeroFilled(AfterReserve(f, c), t)
    ensures CountOf(c, t) <= 0 ==> Declared(AfterReserve(f, c), t) == Declared(f, t)
  {
  }

  /** On a fresh frame, a width ends up with an array exactly when its count is positive. */
  lemma ReserveFresh(c: Counts, t: SlotType)
    ensures Declared(AfterReserve(NoArrays, c), t).Some? <==> CountOf(c, t) > 0
    ensures ZeroFilled(AfterReserve(NoArrays, c), t)
  {
  }

  /** `checkW(index)` on the array of type `slot`. */
  function Check<T>(slot: SlotType, a: Option<seq<T>>, index: int): Outcome
  {
    if a.None? then Fail(Undeclared(slot))
    else if index < 0 || index >= |a.value| then Fail(InvalidIndex(slot, index))
    else Pass
  }

  /** `getW(index)`: the checked read. */
  function Get<T>(slot: SlotType, a: Option<seq<T>>, index: int): (r: Result<T>)
    ensures r.Ok? <==> Check(slot, a, index).Pass?
    ensures r.Err? ==> r.error == Check(slot, a, index).error
    ensures r.Ok? ==> r.value == a.value[index]
  {
    var c := Check(slot, a, index);
    if c.Fail? then Err(c.error) else Ok(a.value[index])
  }

  /** `putW(index, v)`: the checked write, giving the array's new contents. */
  function Put<T>(slot: SlotType, a: Option<seq<T>>, index: int, v: T): (r: Result<seq<T>>)
    ensures r.Ok? <==> Check(slot, a, index).Pass?
    ensures r.Err? ==> r.error == Check(slot, a, index).error
    ensures r.Ok? ==> |r.value| == |a.value| && r.value[index] == v
    ensures r.Ok? ==> forall j :: 0 <= j < |a.value| && j != index ==> r.value[j] == a.value[j]
  {
    var c := Check(slot, a, index);
    if c.Fail? then Err(c.error) else Ok(a.value[index := v])
  }

  /** The two ways an access fails: the array is absent, or the index is outside it. */
  lemma CheckFailures<T>(slot: SlotType, a: Option<seq<T>>, index: int)
    ensures Check(slot, a, index) == Fail(Undeclared(slot)) <==> a.None?
    ensures Check(slot, a, index) == Fail(InvalidIndex(slot, index)) <==> a.Some? && !(0 <= index < |a.value|)
    ensures Check(slot, a, index).Fail? ==> Check(slot, a, index).error.IsVMStackException()
  {
  }

  /** A successful put followed by a get at the same index reads the value written. */
  lemma GetAfterPut<T>(slot: SlotType, a: Option<seq<T>>, index: int, v: T)
    requires Put(slot, a, index, v).Ok?
    ensures Get(slot, Some(Put(slot, a, index, v).value), index) == Ok(v)
  {
  }

  /** A put never disturbs what a get at another index reads. */
  lemma GetOtherAfterPut<T>(slot: SlotType, a: Option<seq<T>>, index: int, v: T, other: int)
    requires Put(slot, a, index, v).Ok? && other != index
    ensures Get(slot, Some(Put(slot, a, index, v).value), other) == Get(slot, a, other)
  {
  }

  /** A put fails exactly where a get would, with the same error. */
  lemma PutFailsLikeGet<T>(slot: SlotType, a: Option<seq<T>>, index: int, v: T)
    ensures Put(slot, a, index, v).Err? <==> Get(slot, a, index).Err?
    ensures Put(slot, a, index, v).Err? ==> Put(slot, a, index, v).error == Get(slot, a, index).error
  {
  }

  /**
   * A frame. Each field is one typed array, `null` until reserved. The two
   * `short` arrays (int16 and float16) and the pairs of equal bit width are
   * distinct objects, so a write to one never shows in another.
   */
  class StackFrame {
    const methodName: string
    var int64: array?<JLong>
    var float64: array?<Float64Bits>
    var int32: array?<JInt>
    var float32: array?<Float32Bits>
    var int16: array?<JShort>
    var float16: array?<JShort>
    var int8: array?<JByte>

    ghost predicate Valid()
      reads this
    {
      && (int64 != null && float64 != null ==> int64 != float64)
      && (int32 != null && float32 != null ==> int32 != float32)
      && (int16 != null && float16 != null ==> int16 != float16)
    }

    /** The arrays this frame owns. */
    ghost function Repr(): set<object>
      reads this
    {
      Own(int64) + Own(float64) + Own(int32) + Own(float32) + Own(int16) + Own(float16) + Own(int8)
    }

    ghost function State(): FrameState
      reads this, Repr()
    {
      FrameState(
        if int64 != null then Some(int64[..]) else None,
        if float64 != null then Some(float64[..]) else None,
        if int32 != null then Some(int32[..]) else None,
        if float32 != null then Some(float32[..]) else None,
        if int16 != null then Some(int16[..]) else None,
        if float16 != null then Some(float16[..]) else None,
        if int8 != null then Some(int8[..]) else None)
    }

    constructor (methodName: string)
      ensures Valid() && this.methodName == methodName
      ensures State() == NoArrays && Repr() == {}
    {
      this.methodName := methodName;
      int64, float64, int32, float32, int16, float16, int8 := null, null, null, null, null, null, null;
    }

    /** The no-argument constructor, which names the frame "unknown". */
    constructor Unnamed()
      ensures Valid() && methodName == "unknown"
      ensures State() == NoArrays && Repr() == {}
    {
      methodName := "unknown";
      int64, float64, int32, float32, int16, float16, int8 := null, null, null, null, null, null, null;
    }

    method Reserve(int64Count: int, float64Count: int, int32Count: int, float32Count: int,
                   int16Count: int, float16Count: int, int8Count: int)
      requires Valid()
      modifies this
      ensures Valid()
      ensures State() == AfterReserve(old(State()),
        Counts(int64Count, float64Count, int32Count, float32Count, int16Count, float16Count, int8Count))
      ensures int64 == old(int64) || fresh(int64)
      ensures float64 == old(float64) || fresh(float64)
      ensures int32 == old(int32) || fresh(int32)
      ensures float32 == old(float32) || fresh(float32)
      ensures int16 == old(int16) || fresh(int16)
      ensures float16 == old(float16) || fresh(float16)
      ensures int8 == old(int8) || fresh(int8)
    {
      ReserveInt64(int64Count);
      ReserveFloat64(float64Count);
      ReserveInt32(int32Count);
      ReserveFloat32(float32Count);
      ReserveInt16(int16Count);
      ReserveFloat16(float16Count);
      ReserveInt8(int8Count);
    }

    /** One line of `reserve`: the int64 array. */
    method ReserveInt64(count: int)
      requires Valid()
      modifies this
      ensures Valid()
      ensures State() == old(State()).(int64 := ReservedArray(count, old(State()).int64, 0))
      ensures (int64 == old(int64) || fresh(int64))
        && float64 == old(float64)
        && int32 == old(int32)
        && float32 == old(float32)
        && int16 == old(int16)
        && float16 == old(float16)
        && int8 == old(int8)
    {
      if count > 0 {
        int64 := new JLong[count](_ => 0);
        assert int64[..] == seq(count, _ => 0);
      }
    }

    /** One line of `reserve`: the float64 array. */
    method ReserveFloat64(count: int)
      requires Valid()
      modifies this
      ensures Valid()
      ensures State() == old(State()).(float64 := ReservedArray(count, old(State()).float64, 0))
      ensures (float64 == old(float64) || fresh(float64))
        && int64 == old(int64)
        && int32 == old(int32)
        && float32 == old(float32)
        && int16 == old(int16)
        && float16 == old(float16)
        && int8 == old(int8)
    {
      if count > 0 {
        float64 := new Float64Bits[count](_ => 0);
        assert float64[..] == seq(count, _ => 0);
      }
    }

    /** One line of `reserve`: the int32 array. */
    method ReserveInt32(count: int)
      requires Valid()
      modifies this
      ensures Valid()
      ensures State() == old(State()).(int32 := ReservedArray(count, old(State()).int32, 0))
      ensures (int32 == old(int32) || fresh(int32))
        && int64 == old(int64)
        && float64 == old(float64)
        && float32 == old(float32)
        && int16 == old(int16)
        && float16 == old(float16)
        && int8 == old(int8)
    {
      if count > 0 {
        int32 := new JInt[count](_ => 0);
        assert int32[..] == seq(count, _ => 0);
      }
    }

    /** One line of `reserve`: the float32 array. */
    method ReserveFloat32(count: int)
      requires Valid()
      modifies this
      ensures Valid()
      ensures State() == old(State()).(float32 := ReservedArray(count, old(State()).float32, 0))
      ensures (float32 == old(float32) || fresh(float32))
        && int64 == old(int64)
        && float64 == old(float64)
        && int32 == old(int32)
        && int16 == old(int16)
        && float16 == old(float16)
        && int8 == old(int8)
    {
      if count > 0 {
        float32 := new Float32Bits[count](_ => 0);
        assert float32[..] == seq(count, _ => 0);
      }
    }

    /** One line of `reserve`: the int16 array. */
    method ReserveInt16(count: int)
      requires Valid()
      modifies this
      ensures Valid()
      ensures State() == old(State()).(int16 := ReservedArray(count, old(State()).int16, 0))
      ensures (int16 == old(int16) || fresh(int16))
        && int64 == old(int64)
        && float64 == old(float64)
        && int32 == old(int32)
        && float32 == old(float32)
        && float16 == old(float16)
        && int8 == old(int8)
    {
      if count > 0 {
        int16 := new JShort[count](_ => 0);
        assert int16[..] == seq(count, _ => 0);
      }
    }

    /** One line of `reserve`: the float16 array. */
    method ReserveFloat16(count: int)
      requires Valid()
      modifies this
      ensures Valid()
      ensures State() == old(State()).(float16 := ReservedArray(count, old(State()).float16, 0))
      ensures (float16 == old(float16) || fresh(float16))
        && int64 == old(int64)
        && float64 == old(float64)
        && int32 == old(int32)
        && float32 == old(float32)
        && int16 == old(int16)
        && int8 == old(int8)
    {
      if count > 0 {
        float16 := new JShort[count](_ => 0);
        assert float16[..] == seq(count, _ => 0);
      }
    }

    /** One line of `reserve`: the int8 array. */
    method ReserveInt8(count: int)
      requires Valid()
      modifies this
      ensures Valid()
      ensures State() == old(State()).(int8 := ReservedArray(count, old(State()).int8, 0))
      ensures (int8 == old(int8) || fresh(int8))
        && int64 == old(int64)
        && float64 == old(float64)
        && int32 == old(int32)
        && float32 == old(float32)
        && int16 == old(int16)
        && float16 == old(float16)
    {
      if count > 0 {
        int8 := new JByte[count](_ => 0);
        assert int8[..] == seq(count, _ => 0);
      }
    }

    method CheckInt8(index: int) returns (r: Outcome)
      ensures r == Check(SlotType.Int8, State().int8, index)
    {
      if int8 == null { return Fail(Undeclared(SlotType.Int8)); }
      if index < 0 || index >= int8.Length { return Fail(InvalidIndex(SlotType.Int8, index)); }
      return Pass;
    }

    method CheckInt16(index: int) returns (r: Outcome)
      ensures r == Check(SlotType.Int16, State().int16, index)
    {
      if int16 == null { return Fail(Undeclared(SlotType.Int16)); }
      if index < 0 || index >= int16.Length { return Fail(InvalidIndex(SlotType.Int16, index)); }
      return Pass;
    }

    method CheckInt32(index: int) returns (r: Outcome)
      ensures r == Check(SlotType.Int32, State().int32, index)
    {
      if int32 == null { return Fail(Undeclared(SlotType.Int32)); }
      if index < 0 || index >= int32.Length { return Fail(InvalidIndex(SlotType.Int32, index)); }
      return Pass;
    }

    method CheckInt64(index: int) returns (r: Outcome)
      ensures r == Check(SlotType.Int64, State().int64, index)
    {
      if int64 == null { return Fail(Undeclared(SlotType.Int64)); }
      if index < 0 || index >= int64.Length { return Fail(InvalidIndex(SlotType.Int64, index)); }
      return Pass;
    }

    method CheckFloat16(index: int) returns (r: Outcome)
      ensures r == Check(SlotType.Float16, State().float16, index)
    {
      if float16 == null { return Fail(Undeclared(SlotType.Float16)); }
      if index < 0 || index >= float16.Length { return Fail(InvalidIndex(SlotType.Float16, index)); }
      return Pass;
    }

    method CheckFloat32(index: int) returns (r: Outcome)
      ensures r == Check(SlotType.Float32, State().float32, index)
    {
      if float32 == null { return Fail(Undeclared(SlotType.Float32)); }
      if index < 0 || index >= float32.Length { return Fail(InvalidIndex(SlotType.Float32, index)); }
      return Pass;
    }

    method CheckFloat64(index: int) returns (r: Outcome)
      ensures r == Check(SlotType.Float64, State().float64, index)
    {
      if float64 == null { return Fail(Undeclared(SlotType.Float64)); }
      if index < 0 || index >= float64.Length { return Fail(InvalidIndex(SlotType.Float64, index)); }
      return Pass;
    }

    method GetInt8(index: int) returns (r: Result<JByte>)
      ensures r == Get(SlotType.Int8, State().int8, index)
    {
      var c := CheckInt8(index);
      if c.Fail? { return Err(c.error); }
      return Ok(int8[index]);
    }

    method GetInt16(index: int) returns (r: Result<JShort>)
      ensures r == Get(SlotType.Int16, State().int16, index)
    {
      var c := CheckInt16(index);
      if c.Fail? { return Err(c.error); }
      return Ok(int16[index]);
    }

    method GetInt32(index: int) returns (r: Result<JInt>)
      ensures r == Get(SlotType.Int32, State().int32, index)
    {
      var c := CheckInt32(index);
      if c.Fail? { return Err(c.error); }
      return Ok(int32[index]);
    }

    method GetInt64(index: int) returns (r: Result<JLong>)
      ensures r == Get(SlotType.Int64, State().int64, index)
    {
      var c := CheckInt64(index);
      if c.Fail? { return Err(c.error); }
      return Ok(int64[index]);
    }

    method GetFloat16(index: int) returns (r: Result<JShort>)
      ensures r == Get(SlotType.Float16, State().float16, index)
    {
      var c := CheckFloat16(index);
      if c.Fail? { return Err(c.error); }
      return Ok(float16[index]);
    }

    method GetFloat32(index: int) returns (r: Result<Float32Bits>)
      ensures r == Get(SlotType.Float32, State().float32, index)
    {
      var c := CheckFloat32(index);
      if c.Fail? { return Err(c.error); }
      return Ok(float32[index]);
    }

    method GetFloat64(index: int) returns (r: Result<Float64Bits>)
      ensures r == Get(SlotType.Float64, State().float64, index)
    {
      var c := CheckFloat64(index);
      if c.Fail? { return Err(c.error); }
      return Ok(float64[index]);
    }

    method PutInt8(index: int, value: JByte) returns (r: Outcome)
      requires Valid()
      modifies int8
      ensures var p := Put(SlotType.Int8, old(State()).int8, index, value);
        && r == (if p.Ok? then Pass else Fail(p.error))
        && State() == if p.Ok? then old(State()).(int8 := Some(p.value)) else old(State())
    {
      r := CheckInt8(index);
      if r.Fail? { return; }
      int8[index] := value;
    }

    method PutInt16(index: int, value: JShort) returns (r: Outcome)
      requires Valid()
      modifies int16
      ensures var p := Put(SlotType.Int16, old(State()).int16, index, value);
        && r == (if p.Ok? then Pass else Fail(p.error))
        && State() == if p.Ok? then old(State()).(int16 := Some(p.value)) else old(State())
    {
      r := CheckInt16(index);
      if r.Fail? { return; }
      int16[index] := value;
    }

    method PutInt32(index: int, value: JInt) returns (r: Outcome)
      requires Valid()
      modifies int32
      ensures var p := Put(SlotType.Int32, old(State()).int32, index, value);
        && r == (if p.Ok? then Pass else Fail(p.error))
        && State() == if p.Ok? then old(State()).(int32 := Some(p.value)) else old(State())
    {
      r := CheckInt32(index);
      if r.Fail? { return; }
      int32[index] := value;
    }

    method PutInt64(index: int, value: JLong) returns (r: Outcome)
      requires Valid()
      modifies int64
      ensures var p := Put(SlotType.Int64, old(State()).int64, index, value);
        && r == (if p.Ok? then Pass else Fail(p.error))
        && State() == if p.Ok? then old(State()).(int64 := Some(p.value)) else old(State())
    {
      r := CheckInt64(index);
      if r.Fail? { return; }
      int64[index] := value;
    }

    method PutFloat16(index: int, value: JShort) returns (r: Outcome)
      requires Valid()
      modifies float16
      ensures var p := Put(SlotType.Float16, old(State()).float16, index, value);
        && r == (if p.Ok? then Pass else Fail(p.error))
        && State() == if p.Ok? then old(State()).(float16 := Some(p.value)) else old(State())
    {
      r := CheckFloat16(index);
      if r.Fail? { return; }
      float16[index] := value;
    }

    method PutFloat32(index: int, value: Float32Bits) returns (r: Outcome)
      requires Valid()
      modifies float32
      ensures var p := Put(SlotType.Float32, old(State()).float32, index, value);
        && r == (if p.Ok? then Pass else Fail(p.error))
        && State() == if p.Ok? then old(State()).(float32 := Some(p.value)) else old(State())
    {
      r := CheckFloat32(index);
      if r.Fail? { return; }
      float32[index] := value;
    }

    method PutFloat64(index: int, value: Float64Bits) returns (r: Outcome)
      requires Valid()
      modifies float64
      ensures var p := Put(SlotType.Float64, old(State()).float64, index, value);
        && r == (if p.Ok? then Pass else Fail(p.error))
        && State() == if p.Ok? then old(State()).(float64 := Some(p.value)) else old(State())
    {
      r := CheckFloat64(index);
      if r.Fail? { return; }
      float64[index] := value;
    }
  }
}
