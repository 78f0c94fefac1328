/** The prepared statement `CPrepareStatement`: a table of typed bind slots,
    one per placeholder, written by the `SetParam` overloads and handed to the
    client library by `ExecuteUpdate`. */
module Statements {
  import opened Common

  /** The `buffer_type` tags this code writes. `TypeDecimal` is tag 0, the
      value a zero-filled slot carries. */
  datatype BufferType = TypeDecimal | TypeLong | TypeFloat | TypeString | TypeTimestamp

  /** `MYSQL_TIME`, the broken-down date and time the client library binds. */
  datatype MysqlTime = MysqlTime(
    year: uint32, month: uint32, day: uint32,
    hour: uint32, minute: uint32, second: uint32,
    secondPart: nat, neg: bool)

  /** `sizeof(MYSQL_TIME)` on an LP64 build of the client library. */
  const MysqlTimeSize: nat := 40

  /** What a slot's `buffer` refers to. `FloatValue` keeps the bit pattern. */
  datatype Value =
    | NoValue
    | IntValue(i: int32)
    | FloatValue(bits: bv32)
    | UIntValue(u: uint32)
    | StringValue(s: Bytes)
    | TimeValue(t: MysqlTime)

  /** One `MYSQL_BIND`, reduced to the members that matter here. */
  datatype Bind = Bind(bufferType: BufferType, buffer: Value, bufferLength: nat, isUnsigned: bool)

  /** A slot after `memset(…, 0, …)`. */
  const ZeroBind := Bind(TypeDecimal, NoValue, 0, false)

  /** The argument of one `SetParam` overload; the `string&` and
      `const string&` overloads do the same and share `StringParam`. */
  datatype Param =
    | IntParam(i: int32)
    | FloatParam(bits: bv32)
    | UIntParam(u: uint32)
    | StringParam(s: Bytes)
    | TimeParam(t: MysqlTime)

  const TwoTo31: int := 0x8000_0000
  const TwoTo32: int := 0x1_0000_0000

  /** The integer the server reads from a `MYSQL_TYPE_LONG` slot: the 32 bits
      of the buffer, unsigned when `is_unsigned` is set and two's complement
      otherwise. `None` for a slot that holds no 32-bit integer. */
  function ServerLong(b: Bind): (r: Option<int>)
    ensures r.Some? ==> (if b.isUnsigned then 0 <= r.value < TwoTo32 else -TwoTo31 <= r.value < TwoTo31)
  {
    var raw: Option<int> := match b.buffer
      case IntValue(i) => Some((i as int) % TwoTo32)
      case UIntValue(u) => Some(u as int)
      case _ => None;
    if b.bufferType != TypeLong || raw.None? then None
    else if b.isUnsigned || raw.value < TwoTo31 then Some(raw.value)
    else Some(raw.value - TwoTo32)
  }

  /** The slot after `SetParam` wrote `p` into it, as the source does it:
      `is_unsigned` is never touched, so it keeps the 0 from the zero fill.
      Integers and floats leave `buffer_length` as it was; strings and
      timestamps set it. */
  function BindSlotAsWritten(slot: Bind, p: Param): (b: Bind)
    ensures b.isUnsigned == slot.isUnsigned
    ensures p.IntParam? ==> b.bufferType == TypeLong && b.buffer == IntValue(p.i) && b.bufferLength == slot.bufferLength
    ensures p.UIntParam? ==> b.bufferType == TypeLong && b.buffer == UIntValue(p.u) && b.bufferLength == slot.bufferLength
    ensures p.FloatParam? ==> b.bufferType == TypeFloat && b.buffer == FloatValue(p.bits) && b.bufferLength == slot.bufferLength
    ensures p.StringParam? ==> b.bufferType == TypeString && b.buffer == StringValue(p.s) && b.bufferLength == |p.s|
    ensures p.TimeParam? ==> b.bufferType == TypeTimestamp && b.buffer == TimeValue(p.t) && b.bufferLength == MysqlTimeSize
  {
    match p
    case IntParam(i) => slot.(bufferType := TypeLong, buffer := IntValue(i))
    case FloatParam(f) => slot.(bufferType := TypeFloat, buffer := FloatValue(f))
    case UIntParam(u) => slot.(bufferType := TypeLong, buffer := UIntValue(u))
    case StringParam(s) => slot.(bufferType := TypeString, buffer := StringValue(s), bufferLength := |s|)
    case TimeParam(t) => slot.(bufferType := TypeTimestamp, buffer := TimeValue(t), bufferLength := MysqlTimeSize)
  }

  /** As written, a `uint32_t` of 2^31 or more reaches the server as a
      negative number. */
  lemma UnsignedParamMisread(u: uint32)
    requires u as int >= TwoTo31
    ensures ServerLong(BindSlotAsWritten(ZeroBind, UIntParam(u))) == Some(u as int - TwoTo32)
    ensures ServerLong(BindSlotAsWritten(ZeroBind, UIntParam(u))) != Some(u as int)
  {
  }

  /** The concrete case: 3000000000 is read as -1294967296. */
  lemma UnsignedParamMisreadExample()
    ensures ServerLong(BindSlotAsWritten(ZeroBind, UIntParam(3000000000))) == Some(-1294967296)
  {
    UnsignedParamMisread(3000000000);
  }

  /** The corrected slot write: as `BindSlotAsWritten`, but with
      `is_unsigned` set for the `uint32_t` overload and cleared for the `int`
      one, so that a reused slot is read correctly too. */
  function BindSlot(slot: Bind, p: Param): (b: Bind)
    ensures p.IntParam? || p.UIntParam? ==> b.bufferType == TypeLong && b.bufferLength == slot.bufferLength
    ensures p.IntParam? ==> b.buffer == IntValue(p.i) && !b.isUnsigned
    ensures p.UIntParam? ==> b.buffer == UIntValue(p.u) && b.isUnsigned
    ensures p.FloatParam? ==> b.bufferType == TypeFloat && b.buffer == FloatValue(p.bits) && b.bufferLength == slot.bufferLength
    ensures p.StringParam? ==> b.bufferType == TypeString && b.bufferLength == |p.s| && b.buffer == StringValue(p.s)
    ensures p.TimeParam? ==> b.bufferType == TypeTimestamp && b.bufferLength == MysqlTimeSize && b.buffer == TimeValue(p.t)
    ensures !p.IntParam? && !p.UIntParam? ==> b == BindSlotAsWritten(slot, p)
  {
    match p
    case IntParam(_) => BindSlotAsWritten(slot, p).(isUnsigned := false)
    case UIntParam(_) => BindSlotAsWritten(slot, p).(isUnsigned := true)
    case _ => BindSlotAsWritten(slot, p)
  }

  /** Every integer bound through `SetParam` reaches the server unchanged,
      whatever the slot held before. */
  lemma LongParamRoundTrip(slot: Bind, p: Param)
    requires p.IntParam? || p.UIntParam?
    ensures ServerLong(BindSlot(slot, p)) == Some(if p.IntParam? then p.i as int else p.u as int)
  {
  }

  /** The bind table after `SetParam(index, p)` on a statement with `cnt`
      placeholders: an index past the end changes nothing, any other changes
      exactly its own slot. */
  function AfterSetParam(binds: seq<Bind>, cnt: nat, index: nat, p: Param): (r: seq<Bind>)
    requires cnt <= |binds|
    ensures |r| == |binds|
    ensures index >= cnt ==> r == binds
    ensures index < cnt ==> r[index] == BindSlotAsWritten(binds[index], p)
    ensures forall j :: 0 <= j < |r| && j != index ==> r[j] == binds[j]
  {
    if index < cnt then binds[index := BindSlotAsWritten(binds[index], p)] else binds
  }

  class PrepareStatement {
    /** Whether `m_stmt` holds a statement handle. */
    var hasStmt: bool
    /** `m_param_cnt`. */
    var paramCnt: nat
    /** `m_param_bind`; an empty array stands for the NULL it starts as. */
    var paramBind: array<Bind>

    ghost predicate Valid()
      reads this
    {
      paramCnt <= paramBind.Length
    }

    constructor ()
      ensures Valid() && fresh(paramBind)
      ensures !hasStmt && paramCnt == 0 && paramBind.Length == 0
    {
      hasStmt := false;
      paramCnt := 0;
      paramBind := new Bind[0];
    }

    /** `Init`: `stmtCreated` is whether `mysql_stmt_init` returned a handle,
        `prepared` whether `mysql_stmt_prepare` accepted the text, and
        `paramCount` what `mysql_stmt_param_count` reports. On success the
        table holds exactly `paramCount` zeroed slots. */
    method Init(stmtCreated: bool, prepared: bool, paramCount: nat) returns (ok: bool)
      requires Valid()
      modifies this
      ensures Valid()
      ensures ok <==> stmtCreated && prepared
      ensures hasStmt == stmtCreated
      ensures !ok ==> paramCnt == old(paramCnt) && paramBind == old(paramBind)
      ensures ok ==> paramCnt == paramCount
      ensures ok && paramCount > 0 ==>
        fresh(paramBind) && paramBind[..] == seq(paramCount, _ => ZeroBind)
      ensures paramCount == 0 ==> paramBind == old(paramBind)
    {
      hasStmt := stmtCreated;
      if !stmtCreated {
        return false;
      }
      if !prepared {
        return false;
      }
      paramCnt := paramCount;
      if paramCnt > 0 {
        paramBind := new Bind[paramCnt](_ => ZeroBind);
      }
      return true;
    }

    /** `SetParam(uint32_t, int&)`. */
    method SetParamInt(index: uint32, value: int32)
      requires Valid()
      modifies paramBind
      ensures paramBind[..] == AfterSetParam(old(paramBind[..]), paramCnt, index as nat, IntParam(value))
    {
      SetParam(index, IntParam(value));
    }

    /** `SetParam(uint32_t, float&)`. */
    method SetParamFloat(index: uint32, value: bv32)
      requires Valid()
      modifies paramBind
      ensures paramBind[..] == AfterSetParam(old(paramBind[..]), paramCnt, index as nat, FloatParam(value))
    {
      SetParam(index, FloatParam(value));
    }

    /** `SetParam(uint32_t, uint32_t&)`. */
    method SetParamUInt32(index: uint32, value: uint32)
      requires Valid()
      modifies paramBind
      ensures paramBind[..] == AfterSetParam(old(paramBind[..]), paramCnt, index as nat, UIntParam(value))
    {
      SetParam(index, UIntParam(value));
    }

    /** `SetParam(uint32_t, string&)` and `SetParam(uint32_t, const string&)`. */
    method SetParamString(index: uint32, value: Bytes)
      requires Valid()
      modifies paramBind
      ensures paramBind[..] == AfterSetParam(old(paramBind[..]), paramCnt, index as nat, StringParam(value))
    {
      SetParam(index, StringParam(value));
    }

    /** `SetParam(uint32_t, MYSQL_TIME&)`. */
    method SetParamTime(index: uint32, value: MysqlTime)
      requires Valid()
      modifies paramBind
      ensures paramBind[..] == AfterSetParam(old(paramBind[..]), paramCnt, index as nat, TimeParam(value))
    {
      SetParam(index, TimeParam(value));
    }

    /** The body every overload shares: the range check, then one slot write. */
    method SetParam(index: uint32, p: Param)
      requires Valid()
      modifies paramBind
      ensures paramBind[..] == AfterSetParam(old(paramBind[..]), paramCnt, index as nat, p)
    {
      if index as nat >= paramCnt {
        return;
      }
      paramBind[index] := BindSlotAsWritten(paramBind[index], p);
    }

    /** `ExecuteUpdate`: `bindFailed`, `executeFailed` and `affectedRows` are
        what `mysql_stmt_bind_param`, `mysql_stmt_execute` and
        `mysql_stmt_affected_rows` report. Zero affected rows is a failure. */
    method ExecuteUpdate(bindFailed: bool, executeFailed: bool, affectedRows: nat) returns (ok: bool)
      ensures ok <==> hasStmt && !bindFailed && !executeFailed && affectedRows > 0
      ensures affectedRows == 0 ==> !ok
    {
      if !hasStmt {
        return false;
      }
      if bindFailed {
        return false;
      }
      if executeFailed {
        return false;
      }
      if affectedRows == 0 {
        return false;
      }
      return true;
    }
  }
}
