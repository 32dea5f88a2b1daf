/**
 * Timestamps (src/timestamp.c): the `OCI_Timestamp` wrapper struct, its
 * creation, initialisation and release according to its ownership tag,
 * the TIMESTAMP_TZ temporaries some operations work on, the conversions
 * to and from C's `struct tm`, and timestamp arrays, which are bulk arrays
 * of the array manager.
 *
 * `TimestampEnv` records what the wrappers own: the structs the library
 * allocated and has not freed, the descriptors it allocated and has not
 * freed, and the errors raised. Allocations and client-library calls are
 * opaque; their outcomes are parameters.
 */
module Timestamps {
  import opened OciTypes
  import Arrays

  /** The timestamp type codes (OCI_TIMESTAMP, OCI_TIMESTAMP_TZ, OCI_TIMESTAMP_LTZ). */
  const OCI_TIMESTAMP: int := 1
  const OCI_TIMESTAMP_TZ: int := 2
  const OCI_TIMESTAMP_LTZ: int := 3

  /** TimestampTypeValues: the codes TimestampCreate and TimestampCreateArray accept. */
  const TIMESTAMP_TYPE_VALUES: seq<int> := [OCI_TIMESTAMP, OCI_TIMESTAMP_TZ, OCI_TIMESTAMP_LTZ]

  /** CHECK_ENUM_VALUE over TimestampTypeValues. */
  predicate IsTimestampType(code: int)
  {
    code in TIMESTAMP_TYPE_VALUES
  }

  /**
   * ExternalSubTypeToHandleType for timestamps: the descriptor type of each
   * timestamp type (OCI_DTYPE_TIMESTAMP, _TZ, _LTZ), 0 for anything else.
   */
  function DescriptorType(code: int): (d: nat)
    ensures d != 0 <==> IsTimestampType(code)
  {
    if code == OCI_TIMESTAMP then 68
    else if code == OCI_TIMESTAMP_TZ then 69
    else if code == OCI_TIMESTAMP_LTZ then 70
    else 0
  }

  /** The errors the operations raise. */
  datatype ErrorKind =
    | NullPointer        // CHECK_PTR / ExceptionNullPointer
    | InvalidType        // CHECK_ENUM_VALUE
    | Incompatible       // CHECK_COMPAT
    | AllocationFailed   // a struct or descriptor allocation failed
    | CallFailed         // a client-library call or a conversion failed

  /** An `OCI_Timestamp`: connection, native descriptor (0 for NULL), type code and ownership tag. */
  class TimestampStruct {
    var con: int
    var handle: int
    var tsType: int
    var hstate: HState

    /** A zero-filled struct, as ALLOC_DATA returns it. */
    constructor ()
      ensures con == 0 && handle == 0 && tsType == 0 && hstate == Unset
    {
      con, handle, tsType, hstate := 0, 0, 0, Unset;
    }
  }

  // ---------------------------------------------------------------------
  // Ownership rules
  // ---------------------------------------------------------------------

  /**
   * The ownership tag TimestampInitialize leaves (array.c's array slots
   * come in tagged ALLOCATED_ARRAY): with a NULL buffer a descriptor is
   * allocated and the tag becomes ALLOCATED, an array slot keeps its tag and
   * allocates nothing, and a supplied buffer is FETCHED_CLEAN. None means
   * the descriptor allocation failed.
   */
  function InitTag(hstate: HState, buffer: int, desc: Option<int>): (r: Option<HState>)
    ensures r.None? <==> buffer == 0 && hstate != AllocatedArray && desc.None?
  {
    if buffer == 0 || hstate == AllocatedArray then
      if hstate != AllocatedArray then (if desc.Some? then Some(Allocated) else None)
      else Some(AllocatedArray)
    else Some(FetchedClean)
  }

  /** The native handle TimestampInitialize leaves: the new descriptor, or the buffer. */
  function InitHandle(hstate: HState, buffer: int, desc: Option<int>): int
  {
    if buffer == 0 && hstate != AllocatedArray && desc.Some? then desc.value else buffer
  }

  /** Whether TimestampInitialize allocates a descriptor. */
  predicate AllocatesDescriptor(hstate: HState, buffer: int)
  {
    buffer == 0 && hstate != AllocatedArray
  }

  /** The descriptor TimestampFree releases: only one the library allocated itself. */
  function FreedDescriptor(hstate: HState, handle: int): multiset<int>
  {
    if hstate == Allocated then multiset{handle} else multiset{}
  }

  /** TimestampFree releases the struct unless it was fetched or lives in an array block. */
  predicate FreesStruct(hstate: HState)
  {
    hstate != FetchedClean && hstate != AllocatedArray
  }

  /**
   * Initialisation and release agree: after a successful TimestampInitialize,
   * TimestampFree releases exactly the descriptor the initialisation
   * allocated, never a buffer supplied by the caller, and frees the struct
   * only when it neither was fetched nor lives in an array block.
   */
  lemma FreeReleasesWhatInitializeAllocated(hstate: HState, buffer: int, desc: Option<int>)
    requires InitTag(hstate, buffer, desc).Some?
    ensures FreedDescriptor(InitTag(hstate, buffer, desc).value, InitHandle(hstate, buffer, desc))
            == if AllocatesDescriptor(hstate, buffer) then multiset{desc.value} else multiset{}
    ensures FreesStruct(InitTag(hstate, buffer, desc).value) <==> AllocatesDescriptor(hstate, buffer)
    ensures !AllocatesDescriptor(hstate, buffer) ==> InitHandle(hstate, buffer, desc) == buffer
  {
  }

  // ---------------------------------------------------------------------
  // Cleanup of temporaries
  // ---------------------------------------------------------------------

  /**
   * The cleanup guard of TimestampAssign (timestamp.c:354-362): a
   * temporary is freed when it exists and is not the caller's timestamp.
   */
  predicate FreesTemporary(tmp: TimestampStruct?, callers: TimestampStruct?)
    ensures tmp == null ==> !FreesTemporary(tmp, callers)
    ensures tmp != null && callers == null ==> FreesTemporary(tmp, callers)
  {
    tmp != null && tmp != callers
  }

  /**
   * The cleanup guard of IntervalAdd, IntervalSub and SysTimestamp as
   * written (timestamp.c:1003-1006, 1074-1077, 1187-1190): it tests the
   * caller's timestamp instead of the temporary.
   */
  predicate FreesTemporaryAsWritten(tmp: TimestampStruct?, callers: TimestampStruct?)
    ensures tmp == null && callers != null ==> FreesTemporaryAsWritten(tmp, callers)
    ensures callers == null ==> !FreesTemporaryAsWritten(tmp, callers)
  {
    callers != null && callers != tmp
  }

  /**
   * When no temporary was made (SysTimestamp on a TZ or LTZ timestamp,
   * IntervalAdd on a TZ timestamp that fails a check, or any of them when
   * creating the temporary fails), the guard as written calls
   * TimestampFree(NULL), which raises a null-pointer error (timestamp.c:174)
   * even on the success path; the corrected guard frees nothing.
   */
  lemma CleanupWithoutTemporary(callers: TimestampStruct)
    ensures FreesTemporaryAsWritten(null, callers)
    ensures !FreesTemporary(null, callers)
  {
  }

  /** With a temporary distinct from the caller's timestamp both guards free it; with none but the caller's, neither does. */
  lemma CleanupGuardsAgreeOtherwise(tmp: TimestampStruct, callers: TimestampStruct)
    ensures FreesTemporary(tmp, callers) <==> tmp != callers
    ensures FreesTemporaryAsWritten(tmp, callers) <==> FreesTemporary(tmp, callers)
  {
  }

  /** A temporary added to the owned structs and then freed leaves them as they were. */
  lemma AddedThenRemoved(s: set<TimestampStruct>, t: TimestampStruct)
    requires t !in s
    ensures (s + {t}) - {t} == s
  {
  }

  /** The outcomes of one TIMESTAMP_TZ temporary: its creation and the conversion into it. */
  datatype TempOutcome = TempOutcome(structOk: bool, desc: Option<int>, convertIn: bool)
  {
    predicate Created()
    {
      structOk && desc.Some?
    }
  }

  // ---------------------------------------------------------------------
  // struct tm conversions
  // ---------------------------------------------------------------------

  /** The fields TimestampGetDateTime reads (fractional seconds in `fsec`). */
  datatype DateTime = DateTime(year: int, month: int, day: int, hour: int, min: int, sec: int, fsec: int)

  /** C's `struct tm`. */
  datatype Tm = Tm(tmYear: int, tmMon: int, tmMday: int, tmHour: int, tmMin: int, tmSec: int,
                   tmWday: int, tmYday: int, tmIsdst: int)

  /** The `struct tm` TimestampToCTime fills (timestamp.c:1223-1227): years since 1900, months from 0. */
  function ToTm(dt: DateTime): (t: Tm)
    ensures t.tmYear == dt.year - 1900 && t.tmMon == dt.month - 1
    ensures t.tmWday == 0 && t.tmYday == 0 && t.tmIsdst == -1
  {
    Tm(dt.year - 1900, dt.month - 1, dt.day, dt.hour, dt.min, dt.sec, 0, 0, -1)
  }

  /** The date TimestampFromCTime constructs from a `struct tm` (timestamp.c:1276-1278), with no fractional seconds. */
  function FromTm(t: Tm): (dt: DateTime)
    ensures dt.year == t.tmYear + 1900 && dt.month == t.tmMon + 1 && dt.fsec == 0
  {
    DateTime(t.tmYear + 1900, t.tmMon + 1, t.tmMday, t.tmHour, t.tmMin, t.tmSec, 0)
  }

  /** The `struct tm` FromCTime reads gives the date back, less its fractional seconds. */
  lemma CTimeRoundTrip(dt: DateTime)
    ensures FromTm(ToTm(dt)) == dt.(fsec := 0)
  {
  }

  /** FromCTime then the filling of ToCTime gives the `struct tm` back, with the fields ToTm sets overwritten. */
  lemma TmRoundTrip(t: Tm)
    ensures ToTm(FromTm(t)) == t.(tmWday := 0, tmYday := 0, tmIsdst := -1)
  {
  }

  /**
   * What `mktime(&t)` does to the `struct tm` it is given: `normalised` is
   * the struct it leaves in `t` (weekday, day of year and DST flag filled
   * in, out-of-range or skipped times moved), `time` its return value.
   */
  datatype Mktime = Mktime(normalised: Tm, time: int)

  /** `mktime` changed only the weekday, day of year and DST flag of `t`. */
  predicate KeepsDate(t: Tm, normalised: Tm)
  {
    normalised.(tmWday := t.tmWday, tmYday := t.tmYday, tmIsdst := t.tmIsdst) == t
  }

  /** What TimestampToCTime returns and writes through `ptm` and `pt` (None when not written). */
  datatype ToCTimeResult = ToCTimeResult(ok: bool, tm: Option<Tm>, time: Option<int>)

  /**
   * TimestampToCTime: `dateTime` is what TimestampGetDateTime read (None
   * when it failed) and `mktime` the C library's mktime, applied to the
   * `struct tm` ToTm fills. Both outputs come from after that call: `ptm`
   * receives the struct as mktime left it, `pt` its return value. The call
   * succeeds when mktime does not return -1.
   */
  function ToCTime(tmspNull: bool, dateTime: Option<DateTime>, mktime: Tm -> Mktime, wantTm: bool, wantTime: bool)
    : (r: ToCTimeResult)
    ensures r.ok <==> !tmspNull && dateTime.Some? && mktime(ToTm(dateTime.value)).time != -1
    ensures r.tm.Some? <==> !tmspNull && dateTime.Some? && wantTm
    ensures r.tm.Some? ==> r.tm.value == mktime(ToTm(dateTime.value)).normalised
    ensures r.time.Some? <==> !tmspNull && dateTime.Some? && wantTime
    ensures r.time.Some? ==> r.time.value == mktime(ToTm(dateTime.value)).time
  {
    if tmspNull || dateTime.None? then ToCTimeResult(false, None, None)
    else
      var m := mktime(ToTm(dateTime.value));
      ToCTimeResult(m.time != -1, if wantTm then Some(m.normalised) else None,
                    if wantTime then Some(m.time) else None)
  }

  /** What TimestampFromCTime does: an error, or the date it hands to TimestampConstruct. */
  datatype FromCTimeResult = FromCTimeFailed(error: ErrorKind) | Constructed(dt: DateTime)

  /**
   * TimestampFromCTime: a NULL `ptm` with `t == 0` is a null-pointer error;
   * a NULL `ptm` otherwise means `localtime(&t)`, given as `local`. A failing
   * TimestampConstruct is a failed call.
   */
  function FromCTime(tmspNull: bool, ptm: Option<Tm>, t: int, local: Tm, constructOk: bool): (r: FromCTimeResult)
    ensures r == FromCTimeFailed(NullPointer) <==> tmspNull || (ptm.None? && t == 0)
    ensures r.Constructed? <==> !tmspNull && (ptm.Some? || t != 0) && constructOk
    ensures r.Constructed? && ptm.Some? ==> r.dt == FromTm(ptm.value)
    ensures r.Constructed? && ptm.None? ==> r.dt == FromTm(local)
  {
    if tmspNull then FromCTimeFailed(NullPointer)
    else if ptm.None? && t == 0 then FromCTimeFailed(NullPointer)
    else if !constructOk then FromCTimeFailed(CallFailed)
    else Constructed(FromTm(if ptm.Some? then ptm.value else local))
  }

  /**
   * Converting to a `struct tm` and back gives the date less its fractional
   * seconds, whenever mktime only filled in the weekday, day of year and
   * DST flag (the date is in range and not in a skipped hour).
   */
  lemma CTimeRoundTripThroughMktime(dt: DateTime, mktime: Tm -> Mktime, t: int, local: Tm)
    requires KeepsDate(ToTm(dt), mktime(ToTm(dt)).normalised)
    ensures ToCTime(false, Some(dt), mktime, true, false).tm == Some(mktime(ToTm(dt)).normalised)
    ensures FromCTime(false, ToCTime(false, Some(dt), mktime, true, false).tm, t, local, true) == Constructed(dt.(fsec := 0))
  {
    var n := mktime(ToTm(dt)).normalised;
    assert FromTm(n) == FromTm(ToTm(dt));
    CTimeRoundTrip(dt);
  }

  // ---------------------------------------------------------------------
  // The wrappers and what they own
  // ---------------------------------------------------------------------

  class TimestampEnv {
    /** Structs the library allocated and has not freed. */
    var structs: set<TimestampStruct>
    /** Descriptors the library allocated and has not freed. */
    var descriptors: multiset<int>
    /** The errors raised, in order. */
    var errors: seq<ErrorKind>

    constructor ()
      ensures structs == {} && descriptors == multiset{} && errors == []
    {
      structs, descriptors, errors := {}, multiset{}, [];
    }

    /**
     * TimestampFree (timestamp.c:163-202): NULL is a null-pointer error, a
     * FETCHED_CLEAN timestamp is left alone, and otherwise the descriptor is
     * released when the library allocated it and the struct unless it lives
     * in an array block.
     */
    method Free(t: TimestampStruct?) returns (ok: bool)
      modifies this
      ensures t == null ==> !ok && errors == old(errors) + [NullPointer]
      ensures t == null ==> structs == old(structs) && descriptors == old(descriptors)
      ensures t != null ==> ok == (t.hstate != FetchedClean) && errors == old(errors)
      ensures t != null ==> descriptors == old(descriptors) - FreedDescriptor(t.hstate, t.handle)
      ensures t != null ==> structs == old(structs) - (if FreesStruct(t.hstate) then {t} else {})
    {
      if t == null {
        errors := errors + [NullPointer];
        return false;
      }
      ok := t.hstate != FetchedClean;
      if ok {
        descriptors := descriptors - FreedDescriptor(t.hstate, t.handle);
        structs := structs - (if FreesStruct(t.hstate) then {t} else {});
      }
    }

    /**
     * TimestampInitialize (timestamp.c:44-123): `tmsp` NULL allocates a
     * zero-filled struct (`structOk` is that allocation's outcome); then
     * the fields are set and the tag follows InitTag, `desc` being the
     * outcome of the descriptor allocation. On failure the struct goes
     * through TimestampFree and NULL is returned.
     */
    method Initialize(con: int, tmsp: TimestampStruct?, buffer: int, tsType: int, structOk: bool, desc: Option<int>)
      returns (r: TimestampStruct?)
      requires tmsp != null ==> tmsp !in structs || tmsp.hstate != AllocatedArray
      modifies this, tmsp
      ensures tmsp == null && !structOk ==> r == null && errors == old(errors) + [AllocationFailed, NullPointer]
      ensures tmsp == null && !structOk ==> structs == old(structs) && descriptors == old(descriptors)
      ensures r != null ==> errors == old(errors)
      ensures r != null && tmsp != null ==> r == tmsp
      ensures r != null && tmsp == null ==> fresh(r) && structs == old(structs) + {r}
      ensures r != null && tmsp != null ==> structs == old(structs)
      ensures r != null ==> r.con == con && r.tsType == tsType
      ensures tmsp != null ==> (r != null <==> InitTag(old(tmsp.hstate), buffer, desc).Some?)
      ensures tmsp != null && r != null ==> r.hstate == InitTag(old(tmsp.hstate), buffer, desc).value
      ensures tmsp != null && r != null ==> r.handle == InitHandle(old(tmsp.hstate), buffer, desc)
      ensures tmsp != null && r != null ==>
        descriptors == old(descriptors) + (if AllocatesDescriptor(old(tmsp.hstate), buffer) then multiset{desc.value} else multiset{})
      ensures tmsp == null && structOk ==> (r != null <==> InitTag(Unset, buffer, desc).Some?)
      ensures tmsp == null && r != null ==> r.hstate == InitTag(Unset, buffer, desc).value
      ensures tmsp == null && r != null ==> r.handle == InitHandle(Unset, buffer, desc)
      ensures tmsp == null && r != null ==>
        descriptors == old(descriptors) + (if buffer == 0 then multiset{desc.value} else multiset{})
      ensures tmsp == null && structOk && r == null ==>
        structs == old(structs) && descriptors == old(descriptors) && errors == old(errors) + [AllocationFailed]
      ensures tmsp != null && r == null ==> errors == old(errors) + [AllocationFailed]
      ensures tmsp != null && r == null ==>
        structs == old(structs) - (if FreesStruct(old(tmsp.hstate)) then {tmsp} else {})
      ensures tmsp != null && r == null ==> descriptors == old(descriptors) - FreedDescriptor(old(tmsp.hstate), 0)
    {
      var t := tmsp;
      if t == null {
        if !structOk {
          errors := errors + [AllocationFailed];
          var _ := Free(null);
          return null;
        }
        t := new TimestampStruct();
        structs := structs + {t};
      }
      t.con, t.handle, t.tsType := con, buffer, tsType;
      if t.handle == 0 || t.hstate == AllocatedArray {
        if t.hstate != AllocatedArray {
          if desc.None? {
            errors := errors + [AllocationFailed];
            var _ := Free(t);
            return null;
          }
          t.handle := desc.value;
          descriptors := descriptors + multiset{desc.value};
          t.hstate := Allocated;
        }
      } else {
        t.hstate := FetchedClean;
      }
      r := t;
    }

    /**
     * TimestampCreate (timestamp.c:129-157): a type outside
     * TimestampTypeValues is an error; otherwise a new timestamp with its
     * own descriptor.
     */
    method Create(con: int, tsType: int, structOk: bool, desc: Option<int>) returns (r: TimestampStruct?)
      modifies this
      ensures r != null <==> IsTimestampType(tsType) && structOk && desc.Some?
      ensures !IsTimestampType(tsType) ==> errors == old(errors) + [InvalidType]
      ensures r != null ==> fresh(r) && r.con == con && r.tsType == tsType && r.hstate == Allocated && r.handle == desc.value
      ensures r != null ==> structs == old(structs) + {r} && descriptors == old(descriptors) + multiset{desc.value}
      ensures r != null ==> errors == old(errors)
      ensures r == null ==> structs == old(structs) && descriptors == old(descriptors)
    {
      if !IsTimestampType(tsType) {
        errors := errors + [InvalidType];
        return null;
      }
      r := Initialize(con, null, 0, tsType, structOk, desc);
    }

    /** TimestampCreate of a TIMESTAMP_TZ temporary. */
    method CreateTemp(con: int, out: TempOutcome) returns (tmp: TimestampStruct?)
      modifies this
      ensures tmp != null <==> out.Created()
      ensures tmp != null ==> fresh(tmp) && tmp.hstate == Allocated && tmp.handle == out.desc.value
      ensures tmp != null ==> structs == old(structs) + {tmp} && descriptors == old(descriptors) + multiset{out.desc.value}
      ensures tmp != null ==> errors == old(errors)
      ensures tmp == null ==> structs == old(structs) && descriptors == old(descriptors)
    {
      tmp := Create(con, OCI_TIMESTAMP_TZ, out.structOk, out.desc);
    }

    /** The cleanup of one temporary: TimestampFree under the guard FreesTemporary. */
    method Cleanup(tmp: TimestampStruct?, callers: TimestampStruct?)
      modifies this
      ensures FreesTemporary(tmp, callers) ==>
        structs == old(structs) - (if FreesStruct(tmp.hstate) then {tmp} else {})
        && descriptors == old(descriptors) - FreedDescriptor(tmp.hstate, tmp.handle)
      ensures !FreesTemporary(tmp, callers) ==> structs == old(structs) && descriptors == old(descriptors)
      ensures errors == old(errors)
    {
      if FreesTemporary(tmp, callers) {
        var _ := Free(tmp);
      }
    }

    /**
     * The TIMESTAMP_TZ temporary of IntervalAdd, IntervalSub and
     * SysTimestamp around the client-library call `opOk`: when `needsTemp`,
     * a TZ timestamp is created and, when `convertsIn`, filled from `tmsp`
     * (SysTimestamp does not convert in), and the result is converted back
     * (`convertBackOk`). The cleanup uses the corrected guard.
     */
    method OnTzTemporary(tmsp: TimestampStruct, needsTemp: bool, convertsIn: bool, out: TempOutcome, opOk: bool,
                         convertBackOk: bool) returns (ok: bool)
      modifies this
      ensures ok <==> (needsTemp ==> out.Created() && (convertsIn ==> out.convertIn) && convertBackOk) && opOk
      ensures structs == old(structs) && descriptors == old(descriptors)
      ensures ok ==> errors == old(errors)
    {
      if !needsTemp {
        ok := opOk;
        if !ok {
          errors := errors + [CallFailed];
        }
        return;
      }
      ghost var structs0, descriptors0 := structs, descriptors;
      var tmp := CreateTemp(tmsp.con, out);
      ok := tmp != null && (!convertsIn || out.convertIn) && opOk && convertBackOk;
      if tmp != null && !ok {
        errors := errors + [CallFailed];
      }
      Cleanup(tmp, tmsp);
      assert tmp != null ==> tmp !in structs0;
    }

    /**
     * TimestampIntervalAdd / TimestampIntervalSub (timestamp.c:943-1008,
     * 1014-1079): NULL arguments are errors; a timestamp that is not
     * TIMESTAMP_TZ is worked on through a TZ temporary. The cleanup uses
     * the corrected guard; IntervalAddOrSubAsWritten keeps the original.
     */
    method IntervalAddOrSub(tmsp: TimestampStruct?, itvNull: bool, out: TempOutcome, opOk: bool, convertBackOk: bool)
      returns (ok: bool)
      modifies this
      ensures ok <==> tmsp != null && !itvNull && opOk
                      && (tmsp.tsType != OCI_TIMESTAMP_TZ ==> out.Created() && out.convertIn && convertBackOk)
      ensures structs == old(structs) && descriptors == old(descriptors)
      ensures ok ==> errors == old(errors)
      ensures tmsp == null || itvNull ==> errors == old(errors) + [NullPointer]
    {
      if tmsp == null || itvNull {
        errors := errors + [NullPointer];
        return false;
      }
      ok := OnTzTemporary(tmsp, tmsp.tsType != OCI_TIMESTAMP_TZ, true, out, opOk, convertBackOk);
    }

    /**
     * TimestampIntervalAdd / TimestampIntervalSub as written: the cleanup
     * tests `tmsp` instead of the temporary. A NULL interval is rejected
     * before the temporary is set, so the cleanup then calls
     * TimestampFree(NULL) and a second null-pointer error follows the first.
     * When the temporary exists, or is `tmsp` itself, both guards agree.
     */
    method IntervalAddOrSubAsWritten(tmsp: TimestampStruct?, itvNull: bool, out: TempOutcome, opOk: bool,
                                     convertBackOk: bool) returns (ok: bool)
      modifies this
      ensures tmsp != null && itvNull ==> !ok && errors == old(errors) + [NullPointer, NullPointer]
      ensures tmsp != null && !itvNull && tmsp.tsType == OCI_TIMESTAMP_TZ ==>
        (ok <==> opOk) && errors == old(errors) + (if opOk then [] else [CallFailed])
      ensures tmsp != null && !itvNull && tmsp.tsType != OCI_TIMESTAMP_TZ && out.Created() ==>
        (ok <==> out.convertIn && opOk && convertBackOk)
        && errors == old(errors) + (if ok then [] else [CallFailed])
      ensures structs == old(structs) && descriptors == old(descriptors)
    {
      if tmsp == null {
        errors := errors + [NullPointer];
        return false;
      }
      ghost var structs0 := structs;
      var tmp: TimestampStruct? := null;
      if itvNull {
        errors := errors + [NullPointer];
        ok := false;
      } else if tmsp.tsType != OCI_TIMESTAMP_TZ {
        tmp := CreateTemp(tmsp.con, out);
        ok := tmp != null && out.convertIn && opOk && convertBackOk;
        if tmp != null && !ok {
          errors := errors + [CallFailed];
        }
      } else {
        tmp := tmsp;
        ok := opOk;
        if !ok {
          errors := errors + [CallFailed];
        }
      }
      if FreesTemporaryAsWritten(tmp, tmsp) {
        var _ := Free(tmp);
      }
      if tmp != null && tmp != tmsp {
        AddedThenRemoved(structs0, tmp);
      }
    }

    /**
     * TimestampSysTimestamp (timestamp.c:1125-1192): a plain TIMESTAMP is
     * filled through a TZ temporary and converted back.
     */
    method SysTimestamp(tmsp: TimestampStruct?, out: TempOutcome, opOk: bool, convertBackOk: bool) returns (ok: bool)
      modifies this
      ensures ok <==> tmsp != null && opOk && (tmsp.tsType == OCI_TIMESTAMP ==> out.Created() && convertBackOk)
      ensures structs == old(structs) && descriptors == old(descriptors)
      ensures ok ==> errors == old(errors)
      ensures tmsp == null ==> errors == old(errors) + [NullPointer]
    {
      if tmsp == null {
        errors := errors + [NullPointer];
        return false;
      }
      ok := OnTzTemporary(tmsp, tmsp.tsType == OCI_TIMESTAMP, false, out, opOk, convertBackOk);
    }

    /**
     * TimestampSysTimestamp as written: the cleanup tests `tmsp` instead of
     * the temporary, so on a TZ or LTZ timestamp, where no temporary is
     * made, it calls TimestampFree(NULL) and raises a null-pointer error
     * after the call has succeeded.
     */
    method SysTimestampAsWritten(tmsp: TimestampStruct?, out: TempOutcome, opOk: bool, convertBackOk: bool)
      returns (ok: bool)
      modifies this
      ensures tmsp != null && tmsp.tsType != OCI_TIMESTAMP ==>
        (ok <==> opOk) && errors == old(errors) + (if opOk then [] else [CallFailed]) + [NullPointer]
      ensures structs == old(structs) && descriptors == old(descriptors)
    {
      if tmsp == null {
        errors := errors + [NullPointer];
        return false;
      }
      ghost var structs0 := structs;
      var tmp: TimestampStruct? := null;
      if tmsp.tsType == OCI_TIMESTAMP {
        tmp := CreateTemp(tmsp.con, out);
        ok := tmp != null && opOk && convertBackOk;
        if tmp != null && !ok {
          errors := errors + [CallFailed];
        }
      } else {
        ok := opOk;
        if !ok {
          errors := errors + [CallFailed];
        }
      }
      if FreesTemporaryAsWritten(tmp, tmsp) {
        var _ := Free(tmp);
      }
      if tmp != null {
        AddedThenRemoved(structs0, tmp);
      }
    }

    /**
     * TimestampAssign (timestamp.c:291-364): both timestamps must exist
     * and have the same type; LTZ timestamps are copied through two TZ
     * temporaries, `srcTemp` and `dstTemp`, and converted back.
     */
    method Assign(tmsp: TimestampStruct?, src: TimestampStruct?, srcTemp: TempOutcome, dstTemp: TempOutcome,
                  opOk: bool, convertBackOk: bool) returns (ok: bool)
      modifies this
      ensures ok <==> tmsp != null && src != null && tmsp.tsType == src.tsType && opOk
                      && (src.tsType == OCI_TIMESTAMP_LTZ ==>
                            srcTemp.Created() && dstTemp.Created() && srcTemp.convertIn && dstTemp.convertIn
                            && convertBackOk)
      ensures tmsp == null || src == null ==> errors == old(errors) + [NullPointer]
      ensures tmsp != null && src != null && tmsp.tsType != src.tsType ==> errors == old(errors) + [Incompatible]
      ensures structs == old(structs) && descriptors == old(descriptors)
      ensures ok ==> errors == old(errors)
    {
      if tmsp == null || src == null {
        errors := errors + [NullPointer];
        return false;
      }
      if tmsp.tsType != src.tsType {
        errors := errors + [Incompatible];
        return false;
      }
      if src.tsType == OCI_TIMESTAMP_LTZ {
        ok := AssignThroughTz(tmsp, src, srcTemp, dstTemp, opOk, convertBackOk);
      } else {
        ok := opOk;
        if !ok {
          errors := errors + [CallFailed];
        }
      }
    }

    /**
     * The LTZ branch of TimestampAssign: a TZ copy of each timestamp, the
     * copy between them, the conversion back, and the cleanup of both
     * temporaries (timestamp.c:315-362).
     */
    method AssignThroughTz(tmsp: TimestampStruct, src: TimestampStruct, srcTemp: TempOutcome, dstTemp: TempOutcome,
                           opOk: bool, convertBackOk: bool) returns (ok: bool)
      modifies this
      ensures ok <==> srcTemp.Created() && dstTemp.Created() && srcTemp.convertIn && dstTemp.convertIn
                      && opOk && convertBackOk
      ensures structs == old(structs) && descriptors == old(descriptors)
      ensures ok ==> errors == old(errors)
    {
      ghost var structs0 := structs;
      var tmpSrc := CreateTemp(src.con, srcTemp);
      if tmpSrc == null {
        return false;
      }
      ok := CopyIntoTz(tmsp, dstTemp, srcTemp.convertIn && opOk, convertBackOk);
      Cleanup(tmpSrc, src);
      AddedThenRemoved(structs0, tmpSrc);
    }

    /**
     * The second half of the LTZ branch of TimestampAssign: the TZ copy of
     * the destination, the copy into it (`copyOk`, which includes the
     * conversion of the source), the conversion back and the cleanup.
     */
    method CopyIntoTz(tmsp: TimestampStruct, dstTemp: TempOutcome, copyOk: bool, convertBackOk: bool)
      returns (ok: bool)
      modifies this
      ensures ok <==> dstTemp.Created() && dstTemp.convertIn && copyOk && convertBackOk
      ensures structs == old(structs) && descriptors == old(descriptors)
      ensures ok ==> errors == old(errors)
    {
      ghost var structs0 := structs;
      var tmp := CreateTemp(tmsp.con, dstTemp);
      ok := tmp != null && dstTemp.convertIn && copyOk && convertBackOk;
      if tmp != null && !ok {
        errors := errors + [CallFailed];
      }
      Cleanup(tmp, tmsp);
      if tmp != null {
        AddedThenRemoved(structs0, tmp);
      }
    }

    /**
     * TimestampCreateArray (timestamp.c:208-246): after the type check, a
     * bulk array of timestamps whose index block is handed to the client.
     * `elemSize` and `structSize` are the platform's sizeof(OCIDateTime*)
     * and sizeof(OCI_Timestamp).
     */
    method CreateArray(reg: Arrays.Registry, con: int, tsType: int, nbElem: nat, elemSize: nat, structSize: nat,
                       out: Arrays.CreateOutcome) returns (tab: array?<Arrays.ObjRef>, ghost arr: Arrays.OciArray?)
      requires reg.Valid() && |out.inits| == nbElem
      requires out.descriptors.Some? ==> |out.descriptors.value| == nbElem
      modifies this, reg
      ensures reg.Valid()
      ensures structs == old(structs) && descriptors == old(descriptors)
      ensures tab != null <==>
        IsTimestampType(tsType) && out.record && Arrays.CreateSucceeds(Arrays.Timestamp, tsType, DescriptorType(tsType), out)
      ensures !IsTimestampType(tsType) ==>
        && errors == old(errors) + [InvalidType] && arr == null
        && reg.arrs == old(reg.arrs) && reg.liveBlocks == old(reg.liveBlocks) && reg.freed == old(reg.freed)
        && reg.log == old(reg.log) && reg.descriptors == old(reg.descriptors)
      ensures IsTimestampType(tsType) ==> errors == old(errors) && (arr == null <==> !out.record)
      ensures arr != null ==>
        fresh(arr) && Arrays.HasHeader(arr, con, nbElem, Arrays.Timestamp, tsType, elemSize, structSize, DescriptorType(tsType))
      ensures tab != null ==>
        && arr != null && tab == arr.tabObj && reg.arrs == old(reg.arrs) + [arr]
        && Arrays.Created(arr, con, nbElem, Arrays.Timestamp, tsType, elemSize, structSize, DescriptorType(tsType), out)
        && reg.liveBlocks == old(reg.liveBlocks) + Arrays.BlocksOf(arr)
        && reg.freed == old(reg.freed) && reg.log == old(reg.log)
        && reg.descriptors == old(reg.descriptors) + Arrays.DescriptorCount(arr)
      ensures tab == null ==> reg.arrs == old(reg.arrs) && reg.liveBlocks == old(reg.liveBlocks)
      ensures tab == null && arr != null ==>
        && reg.freed == old(reg.freed) + {arr}
        && reg.log == old(reg.log)
                      + Arrays.FailedCreateEvents(arr, Arrays.Timestamp, tsType, DescriptorType(tsType), nbElem, out)
                      + [Arrays.FreeRecord(arr)]
        && reg.descriptors == old(reg.descriptors)
                              + (if Arrays.DescriptorsAllocated(Arrays.Timestamp, tsType, DescriptorType(tsType), out)
                                 then nbElem else 0)
                              - Arrays.DescriptorCount(arr)
    {
      if !IsTimestampType(tsType) {
        errors := errors + [InvalidType];
        return null, null;
      }
      var a;
      a, arr := reg.ArrayCreate(con, nbElem, Arrays.Timestamp, tsType, elemSize, structSize, DescriptorType(tsType), out);
      tab := if a == null then null else a.tabObj;
    }

    /**
     * TimestampFreeArray (timestamp.c:252-268): a NULL index is an error;
     * otherwise the array owning it is found, removed and disposed by
     * ArrayFreeFromHandles.
     */
    method FreeArray(reg: Arrays.Registry, tmsps: array?<Arrays.ObjRef>) returns (ok: bool)
      requires reg.Valid()
      modifies this, reg
      ensures reg.Valid()
      ensures tmsps == null ==> !ok && errors == old(errors) + [NullPointer] && reg.arrs == old(reg.arrs)
      ensures tmsps != null ==> (ok <==> old(Arrays.FirstMatch(reg.arrs, tmsps)) >= 0) && errors == old(errors)
      ensures !ok ==> reg.arrs == old(reg.arrs) && reg.freed == old(reg.freed) && reg.log == old(reg.log)
      ensures !ok ==> reg.liveBlocks == old(reg.liveBlocks) && reg.descriptors == old(reg.descriptors)
      ensures ok ==> reg.arrs == Arrays.RemoveAt(old(reg.arrs), old(Arrays.FirstMatch(reg.arrs, tmsps)))
      ensures ok ==> reg.freed == old(reg.freed) + {old(reg.arrs[Arrays.FirstMatch(reg.arrs, tmsps)])}
      ensures ok ==> reg.log == old(reg.log) + Arrays.DisposeEventsOf(old(reg.arrs[Arrays.FirstMatch(reg.arrs, tmsps)]))
                                + [Arrays.FreeRecord(old(reg.arrs[Arrays.FirstMatch(reg.arrs, tmsps)]))]
      ensures ok ==> reg.liveBlocks == old(reg.liveBlocks) - Arrays.BlocksOf(old(reg.arrs[Arrays.FirstMatch(reg.arrs, tmsps)]))
      ensures ok ==> reg.descriptors == old(reg.descriptors) - Arrays.DescriptorCount(old(reg.arrs[Arrays.FirstMatch(reg.arrs, tmsps)]))
    {
      if tmsps == null {
        errors := errors + [NullPointer];
        return false;
      }
      ghost var idx;
      ok, idx := reg.ArrayFreeFromHandles(tmsps);
    }
  }
}
