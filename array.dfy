/**
 * Bulk element arrays (src/array.c).
 *
 * An array record owns three blocks: `memHandle` (one native handle slot per
 * element, or an embedded OCIDate/OCINumber value), `memStruct` (one wrapper
 * struct per element) and `tabObj` (the index of wrapper pointers handed to
 * the client). Every record lives in the process-wide registry `Env.arrs`,
 * modelled by `Registry`, which also does the bookkeeping of what is still
 * allocated: the live blocks, the descriptor count and the ordered log of
 * what each teardown frees.
 *
 * Calls into the client library and into the element initialisers are
 * opaque: their outcomes are parameters of type `CreateOutcome` and
 * `InitResult`.
 */
module Arrays {
  import opened OciTypes

  /** Element kinds (`elem_type`) a bulk array can hold. */
  datatype ElemKind =
    | Numeric | Datetime | Text | Raw | Boolean
    | Lob | File | Timestamp | Interval | Object | Collection | Ref

  /** Numeric subtype code of the OCI_Number wrapper type. */
  const NUM_NUMBER: int := 128

  /** IS_OCI_NUMBER: a numeric array whose elements are OCI_Number objects. */
  predicate IsOciNumber(kind: ElemKind, subtype: int)
  {
    kind == Numeric && subtype == NUM_NUMBER
  }

  /** IS_OCILIB_OBJECT: elements are library objects with their own free routine. */
  predicate IsLibraryObject(kind: ElemKind, subtype: int)
  {
    !(kind in {Numeric, Text, Raw, Boolean}) || IsOciNumber(kind, subtype)
  }

  /** Kinds whose native value is embedded in `memHandle` instead of pointed to. */
  predicate EmbedsValue(kind: ElemKind, subtype: int)
  {
    kind == Datetime || IsOciNumber(kind, subtype)
  }

  /** Kinds initialised through the ARRAY_INIT macro (array.c:37-39). */
  predicate UsesArrayInit(kind: ElemKind)
  {
    kind in {Lob, File, Timestamp, Interval, Object, Collection, Ref}
  }

  /** Kinds for which the initialisation switch calls an initialiser. */
  predicate HasInitializer(kind: ElemKind, subtype: int)
  {
    EmbedsValue(kind, subtype) || UsesArrayInit(kind)
  }

  /** Where an element's native handle is: slot `i` itself, or the pointer stored there. */
  datatype HandleRef = NoHandle | ValueSlot(index: nat) | Native(ptr: int)

  /** An entry of `tabObj`: NULL, or the wrapper struct at `mem_struct + struct_size * index`. */
  datatype ObjRef = NullObj | StructAt(index: nat)

  /** The part of a wrapper struct the array manager touches. */
  datatype Wrapper = Wrapper(hstate: HState, handle: HandleRef)

  const ZERO_WRAPPER: Wrapper := Wrapper(Unset, NoHandle)

  /** Outcome of one element initialiser: the object's native handle, or NULL. */
  datatype InitResult = InitOk(handle: int) | InitFailed

  predicate InitFails(kind: ElemKind, subtype: int, r: InitResult)
  {
    HasInitializer(kind, subtype) && r.InitFailed?
  }

  /** The handle argument the initialiser of element `i` receives (array.c:84-95). */
  function ElementHandle(kind: ElemKind, subtype: int, i: nat, slot: int): (h: HandleRef)
    ensures h.ValueSlot? <==> EmbedsValue(kind, subtype)
    ensures h.ValueSlot? ==> h.index == i
    ensures !h.ValueSlot? ==> h == Native(slot)
  {
    if EmbedsValue(kind, subtype) then ValueSlot(i) else Native(slot)
  }

  /** Slot `i` of the three blocks: the `tabObj` entry, the `memHandle` slot, the wrapper. */
  datatype ElementState = ElementState(obj: ObjRef, slot: int, wrapper: Wrapper)

  /**
   * What one iteration of the initialisation loop leaves in slot `i`, given the
   * slot's previous handle value and wrapper and the initialiser's outcome.
   * A failed initialiser leaves a NULL index entry and does not touch the
   * handle slot.
   */
  function InitElement(kind: ElemKind, subtype: int, i: nat, slot: int, w: Wrapper, r: InitResult): ElementState
  {
    var tagged := w.(hstate := AllocatedArray);
    if !HasInitializer(kind, subtype) then ElementState(StructAt(i), slot, tagged)
    else if r.InitFailed? then ElementState(NullObj, slot, tagged)
    else if EmbedsValue(kind, subtype) then ElementState(StructAt(i), slot, tagged.(handle := ElementHandle(kind, subtype, i, slot)))
    else ElementState(StructAt(i), r.handle, tagged.(handle := Native(r.handle)))
  }

  /**
   * Every initialised element is tagged array-allocated; its index entry is
   * either NULL (exactly when its initialiser failed) or the i-th wrapper
   * slot; an embedded value's wrapper points at its own slot; and for the
   * ARRAY_INIT kinds the handle slot holds the handle of the object it
   * indexes.
   */
  lemma InitElementShape(kind: ElemKind, subtype: int, i: nat, slot: int, w: Wrapper, r: InitResult)
    ensures var e := InitElement(kind, subtype, i, slot, w, r);
      && e.wrapper.hstate == AllocatedArray
      && (e.obj == NullObj <==> InitFails(kind, subtype, r))
      && (e.obj != NullObj ==> e.obj == StructAt(i))
      && (EmbedsValue(kind, subtype) && !InitFails(kind, subtype, r) ==> e.wrapper.handle == ValueSlot(i) && e.slot == slot)
      && (UsesArrayInit(kind) && !InitFails(kind, subtype, r) ==> e.wrapper.handle == Native(e.slot))
      && (!HasInitializer(kind, subtype) ==> e.slot == slot && e.wrapper.handle == w.handle)
  {
  }

  /** Which of the three blocks. */
  datatype BlockName = MemHandleBlock | MemStructBlock | TabObjBlock

  /** What a teardown releases, in the order it releases it. */
  datatype FreeEvent =
    | FreeElement(arr: OciArray, obj: ObjRef)     // FreeObjectFromType on one element
    | FreeDescriptors(arr: OciArray, count: nat)  // MemoryFreeDescriptorArray
    | FreeBlock(arr: OciArray, block: BlockName)  // FREE of one block
    | FreeRecord(arr: OciArray)                   // FREE of the record itself

  /**
   * One array record (OCI_Array). ArrayCreate fills in every field before
   * the record is used, and nothing reassigns them afterwards, so they are
   * constants of the object; the blocks' contents are what changes. Error
   * and environment handles are not modelled.
   */
  class OciArray {
    const con: int
    const elemKind: ElemKind
    const elemSubtype: int
    const elemSize: nat
    const structSize: nat
    const nbElem: nat
    const handleType: nat
    const tabObj: array?<ObjRef>
    const memHandle: array?<int>
    const memStruct: array?<Wrapper>

    /** The record as ArrayCreate fills it in (array.c:247-265). */
    constructor (con: int, nbElem: nat, kind: ElemKind, subtype: int, elemSize: nat, structSize: nat, handleType: nat,
                 tabObj: array?<ObjRef>, memHandle: array?<int>, memStruct: array?<Wrapper>)
      ensures this.con == con && this.nbElem == nbElem && elemKind == kind && elemSubtype == subtype
      ensures this.elemSize == elemSize && this.structSize == structSize && this.handleType == handleType
      ensures this.tabObj == tabObj && this.memHandle == memHandle && this.memStruct == memStruct
    {
      this.con := con;
      this.nbElem := nbElem;
      elemKind := kind;
      elemSubtype := subtype;
      this.elemSize := elemSize;
      this.structSize := structSize;
      this.handleType := handleType;
      this.tabObj := tabObj;
      this.memHandle := memHandle;
      this.memStruct := memStruct;
    }
  }

  /**
   * ArrayFindAny: does `handles` name this array's index block or its
   * wrapper block? A non-NULL match is always one of the array's blocks.
   */
  predicate ArrayFindAny(arr: OciArray?, handles: object?)
    ensures ArrayFindAny(arr, handles) && handles != null ==> arr != null && handles in BlocksOf(arr)
  {
    arr != null && (handles == arr.tabObj || handles == arr.memStruct)
  }

  /** ArrayFindObjects: does `handles` name this array's index block? Then ArrayFindAny accepts it too. */
  predicate ArrayFindObjects(arr: OciArray?, handles: object?)
    ensures ArrayFindObjects(arr, handles) ==> ArrayFindAny(arr, handles)
  {
    arr != null && handles == arr.tabObj
  }

  /** Whatever ArrayFindObjects finds, ArrayFindAny finds too, but not conversely. */
  lemma FindObjectsImpliesFindAny(arr: OciArray?, handles: object?)
    ensures ArrayFindObjects(arr, handles) ==> ArrayFindAny(arr, handles)
    ensures (arr != null && handles == arr.memStruct && handles != arr.tabObj)
              ==> ArrayFindAny(arr, handles) && !ArrayFindObjects(arr, handles)
  {
  }

  /** The blocks of `a` that are still allocated. */
  function BlocksOf(a: OciArray): (s: set<object>)
    ensures a.tabObj != null ==> a.tabObj in s
    ensures a.memHandle != null ==> a.memHandle in s
    ensures a.memStruct != null ==> a.memStruct in s
    ensures |s| <= 3
  {
    var t: set<object> := if a.tabObj != null then {a.tabObj} else {};
    var h: set<object> := if a.memHandle != null then {a.memHandle} else {};
    var w: set<object> := if a.memStruct != null then {a.memStruct} else {};
    t + h + w
  }

  /** The index block's contents, if the block exists. */
  function TabContents(a: OciArray): (t: Option<seq<ObjRef>>)
    reads a.tabObj
    ensures t.Some? <==> a.tabObj != null
    ensures t.Some? ==> |t.value| == a.tabObj.Length
  {
    if a.tabObj == null then None else Some(a.tabObj[..])
  }

  /** One FreeObjectFromType call per index entry, in index order. */
  function ElementFreeEvents(arr: OciArray, objs: seq<ObjRef>): (ev: seq<FreeEvent>)
  {
    if objs == [] then []
    else ElementFreeEvents(arr, objs[..|objs| - 1]) + [FreeElement(arr, objs[|objs| - 1])]
  }

  /**
   * What ArrayDispose releases, in order: the elements (library-object kinds
   * with an index block only), then the descriptors (when a handle type is
   * set), then whichever of the three blocks exist, in the order
   * mem_handle, mem_struct, tab_obj.
   */
  function DisposeEvents(arr: OciArray, kind: ElemKind, subtype: int, handleType: nat, nbElem: nat,
                         tab: Option<seq<ObjRef>>, hasMemHandle: bool, hasMemStruct: bool): seq<FreeEvent>
  {
    (if IsLibraryObject(kind, subtype) && tab.Some? then ElementFreeEvents(arr, tab.value) else [])
    + (if handleType != 0 then [FreeDescriptors(arr, nbElem)] else [])
    + FreeIfAllocated(arr, hasMemHandle, MemHandleBlock)
    + FreeIfAllocated(arr, hasMemStruct, MemStructBlock)
    + FreeIfAllocated(arr, tab.Some?, TabObjBlock)
  }

  /** FREE of a block: nothing happens when the pointer is NULL. */
  function FreeIfAllocated(arr: OciArray, present: bool, block: BlockName): seq<FreeEvent>
  {
    if present then [FreeBlock(arr, block)] else []
  }

  /** The number of descriptors ArrayDispose hands back: one per element when a handle type is set. */
  function DescriptorCount(a: OciArray): nat
  {
    if a.handleType != 0 then a.nbElem else 0
  }

  /** DisposeEvents for the current state of `a`. */
  ghost function DisposeEventsOf(a: OciArray): seq<FreeEvent>
    reads a.tabObj
  {
    DisposeEvents(a, a.elemKind, a.elemSubtype, a.handleType, a.nbElem, TabContents(a), a.memHandle != null, a.memStruct != null)
  }

  // ---------------------------------------------------------------------
  // Counting what a teardown frees
  // ---------------------------------------------------------------------

  function CountElementFrees(ev: seq<FreeEvent>): nat
  {
    if ev == [] then 0
    else CountElementFrees(ev[..|ev| - 1]) + (if ev[|ev| - 1].FreeElement? then 1 else 0)
  }

  function CountBlockFrees(ev: seq<FreeEvent>): nat
  {
    if ev == [] then 0
    else CountBlockFrees(ev[..|ev| - 1]) + (if ev[|ev| - 1].FreeBlock? then 1 else 0)
  }

  lemma {:induction false} CountsAdd(a: seq<FreeEvent>, b: seq<FreeEvent>)
    ensures CountElementFrees(a + b) == CountElementFrees(a) + CountElementFrees(b)
    ensures CountBlockFrees(a + b) == CountBlockFrees(a) + CountBlockFrees(b)
    decreases |b|
  {
    if b == [] {
      assert a + b == a;
    } else {
      assert (a + b)[..|a + b| - 1] == a + b[..|b| - 1];
      CountsAdd(a, b[..|b| - 1]);
    }
  }

  lemma {:induction false} ElementFreeEventsCount(arr: OciArray, objs: seq<ObjRef>)
    ensures |ElementFreeEvents(arr, objs)| == |objs|
    ensures CountElementFrees(ElementFreeEvents(arr, objs)) == |objs|
    ensures CountBlockFrees(ElementFreeEvents(arr, objs)) == 0
    decreases |objs|
  {
    if objs != [] {
      var init := objs[..|objs| - 1];
      ElementFreeEventsCount(arr, init);
      CountsAdd(ElementFreeEvents(arr, init), [FreeElement(arr, objs[|objs| - 1])]);
    }
  }

  /**
   * Disposing a library-object array whose three blocks all exist calls the
   * element free routine exactly once per element and frees exactly three
   * blocks; for any other kind it frees no element.
   */
  lemma {:induction false} DisposeFreesEachElementAndThreeBlocks(arr: OciArray, kind: ElemKind, subtype: int,
                                                                handleType: nat, nbElem: nat, tab: seq<ObjRef>)
    requires |tab| == nbElem
    ensures var ev := DisposeEvents(arr, kind, subtype, handleType, nbElem, Some(tab), true, true);
      && CountBlockFrees(ev) == 3
      && CountElementFrees(ev) == (if IsLibraryObject(kind, subtype) then nbElem else 0)
  {
    var elems := if IsLibraryObject(kind, subtype) then ElementFreeEvents(arr, tab) else [];
    var descs := if handleType != 0 then [FreeDescriptors(arr, nbElem)] else [];
    var m := FreeIfAllocated(arr, true, MemHandleBlock);
    var w := FreeIfAllocated(arr, true, MemStructBlock);
    var t := FreeIfAllocated(arr, true, TabObjBlock);
    ElementFreeEventsCount(arr, tab);
    CountSingle(FreeBlock(arr, MemHandleBlock));
    CountSingle(FreeBlock(arr, MemStructBlock));
    CountSingle(FreeBlock(arr, TabObjBlock));
    CountSingle(FreeDescriptors(arr, nbElem));
    CountsAdd(elems, descs);
    CountsAdd(elems + descs, m);
    CountsAdd(elems + descs + m, w);
    CountsAdd(elems + descs + m + w, t);
  }

  lemma CountSingle(e: FreeEvent)
    ensures CountElementFrees([e]) == (if e.FreeElement? then 1 else 0)
    ensures CountBlockFrees([e]) == (if e.FreeBlock? then 1 else 0)
  {
    assert [e][..0] == [];
  }

  // ---------------------------------------------------------------------
  // Registry lookup and removal (ListFind / ListRemove on Env.arrs)
  // ---------------------------------------------------------------------

  /** The first registered array that ArrayFindAny matches, or -1. */
  ghost function FirstMatch(s: seq<OciArray>, handles: object?): (k: int)
    ensures -1 <= k < |s|
    decreases |s|
  {
    if s == [] then -1
    else if ArrayFindAny(s[0], handles) then 0
    else
      var k := FirstMatch(s[1..], handles);
      if k == -1 then -1 else k + 1
  }

  /** FirstMatch is the first position ArrayFindAny accepts, and -1 exactly when it accepts none. */
  lemma {:induction false} FirstMatchSpec(s: seq<OciArray>, handles: object?)
    ensures var k := FirstMatch(s, handles);
      && (k >= 0 ==> ArrayFindAny(s[k], handles) && forall j | 0 <= j < k :: !ArrayFindAny(s[j], handles))
      && (k == -1 <==> forall j | 0 <= j < |s| :: !ArrayFindAny(s[j], handles))
    decreases |s|
  {
    if s != [] && !ArrayFindAny(s[0], handles) {
      FirstMatchSpec(s[1..], handles);
      assert forall j | 1 <= j < |s| :: s[j] == s[1..][j - 1];
    }
  }

  /** A position that ArrayFindAny accepts with no earlier match is FirstMatch; a scan that finds none yields -1. */
  lemma FirstMatchAt(s: seq<OciArray>, handles: object?, k: nat)
    requires k <= |s|
    requires forall j | 0 <= j < k :: !ArrayFindAny(s[j], handles)
    requires k < |s| ==> ArrayFindAny(s[k], handles)
    ensures FirstMatch(s, handles) == if k < |s| then k else -1
  {
    FirstMatchSpec(s, handles);
  }

  /** Position of the first occurrence of `x` in `s`. */
  function IndexOf(s: seq<OciArray>, x: OciArray): (k: nat)
    requires x in s
    ensures k < |s| && s[k] == x && x !in s[..k]
  {
    if s[0] == x then 0 else 1 + IndexOf(s[1..], x)
  }

  /**
   * ListRemove: drop the first occurrence of `x`; report whether there was
   * one. What is removed is one copy of `x`, and the records before it stay
   * in place.
   */
  function ListRemove(s: seq<OciArray>, x: OciArray): (r: (bool, seq<OciArray>))
    ensures r.0 <==> x in s
    ensures !r.0 ==> r.1 == s
    ensures r.0 ==> |r.1| == |s| - 1 && multiset(r.1) == multiset(s) - multiset{x}
    ensures r.0 ==> r.1[..IndexOf(s, x)] == s[..IndexOf(s, x)]
  {
    if x !in s then (false, s)
    else
      var k := IndexOf(s, x);
      var rest := s[..k] + s[k + 1..];
      assert s == s[..k] + [x] + s[k + 1..];
      assert rest[..k] == s[..k];
      (true, rest)
  }

  // ---------------------------------------------------------------------
  // Element initialisation (ArrayInitialize)
  // ---------------------------------------------------------------------

  /**
   * ArrayInitialize: walks the `nbElem` slots, points index entry i at
   * wrapper i, tags the wrapper array-allocated and runs the kind's
   * initialiser on the slot's handle. This is the corrected routine: a NULL
   * initialiser result is left in the index and reported as failure instead
   * of being dereferenced, and the result is false when any initialiser
   * failed.
   */
  method ArrayInitialize(arr: OciArray, inits: seq<InitResult>) returns (ok: bool)
    requires arr.tabObj != null && arr.memHandle != null && arr.memStruct != null
    requires arr.tabObj.Length == arr.nbElem && arr.memHandle.Length == arr.nbElem
    requires arr.memStruct.Length == arr.nbElem && |inits| == arr.nbElem
    modifies arr.tabObj, arr.memHandle, arr.memStruct
    ensures forall k | 0 <= k < arr.nbElem ::
      ElementState(arr.tabObj[k], arr.memHandle[k], arr.memStruct[k])
        == InitElement(arr.elemKind, arr.elemSubtype, k, old(arr.memHandle[k]), old(arr.memStruct[k]), inits[k])
    ensures ok <==> forall k | 0 <= k < arr.nbElem :: !InitFails(arr.elemKind, arr.elemSubtype, inits[k])
  {
    var kind, subtype, n := arr.elemKind, arr.elemSubtype, arr.nbElem;
    var tab, mh, ms := arr.tabObj, arr.memHandle, arr.memStruct;
    ok := true;
    var i := 0;
    while i < n
      invariant 0 <= i <= n
      invariant forall k | 0 <= k < i ::
        ElementState(tab[k], mh[k], ms[k]) == InitElement(kind, subtype, k, old(mh[k]), old(ms[k]), inits[k])
      invariant forall k | i <= k < n :: tab[k] == old(tab[k]) && mh[k] == old(mh[k]) && ms[k] == old(ms[k])
      invariant ok <==> forall k | 0 <= k < i :: !InitFails(kind, subtype, inits[k])
    {
      var handle := ElementHandle(kind, subtype, i, mh[i]);
      tab[i] := StructAt(i);
      ms[i] := ms[i].(hstate := AllocatedArray);
      if HasInitializer(kind, subtype) {
        match inits[i]
        case InitFailed =>
          tab[i] := NullObj;
          ok := false;
        case InitOk(h) =>
          if EmbedsValue(kind, subtype) {
            ms[i] := ms[i].(handle := handle);
          } else {
            ms[i] := ms[i].(handle := Native(h));
            mh[i] := h;
          }
      }
      i := i + 1;
    }
  }

  /** What ArrayInitialize as written does: it returns TRUE, or crashes on a NULL initialiser result. */
  datatype InitVerdict = ReturnsTrue | NullDereference(index: nat)

  /** The first ARRAY_INIT element from `from` on whose initialiser fails, dereferenced at array.c:39. */
  function FirstNullDereference(kind: ElemKind, inits: seq<InitResult>, from: nat): (v: InitVerdict)
    requires from <= |inits|
    ensures v.NullDereference? ==> from <= v.index < |inits| && UsesArrayInit(kind) && inits[v.index].InitFailed?
    ensures v == ReturnsTrue <==> forall k | from <= k < |inits| :: !(UsesArrayInit(kind) && inits[k].InitFailed?)
    ensures v.NullDereference? ==> forall k | from <= k < v.index :: !(UsesArrayInit(kind) && inits[k].InitFailed?)
    decreases |inits| - from
  {
    if from == |inits| then ReturnsTrue
    else if UsesArrayInit(kind) && inits[from].InitFailed? then NullDereference(from)
    else FirstNullDereference(kind, inits, from + 1)
  }

  /** ArrayInitialize as written (array.c:79-178). */
  function ArrayInitializeAsWritten(kind: ElemKind, inits: seq<InitResult>): (v: InitVerdict)
    ensures v.NullDereference? ==> v.index < |inits| && UsesArrayInit(kind) && inits[v.index].InitFailed?
    ensures v == ReturnsTrue <==> forall k | 0 <= k < |inits| :: !(UsesArrayInit(kind) && inits[k].InitFailed?)
    ensures v.NullDereference? ==> forall k | 0 <= k < v.index :: !(UsesArrayInit(kind) && inits[k].InitFailed?)
  {
    FirstNullDereference(kind, inits, 0)
  }

  /**
   * As written, ArrayInitialize never reports failure: a failing number or
   * date initialiser still yields TRUE, and a failing LOB initialiser is
   * dereferenced. The corrected routine reports both.
   */
  lemma InitializeAsWrittenNeverFails()
    ensures ArrayInitializeAsWritten(Datetime, [InitFailed]) == ReturnsTrue
    ensures InitFails(Datetime, 0, InitFailed)
    ensures ArrayInitializeAsWritten(Lob, [InitOk(7), InitFailed]) == NullDereference(1)
    ensures InitFails(Lob, 0, InitFailed)
  {
  }

  /** ArrayDispose as written reads `tab_obj[i]` for library-object kinds even when tab_obj is NULL. */
  predicate DisposeReadsNullTabObjAsWritten(kind: ElemKind, subtype: int, nbElem: nat, tabObjAllocated: bool)
  {
    IsLibraryObject(kind, subtype) && !tabObjAllocated && nbElem > 0
  }

  /** OCI_DTYPE_LOB, the descriptor type of a LOB array's elements. */
  const OCI_DTYPE_LOB: nat := 50

  /** The outcomes of a LOB array of 5 whose tab_obj allocation fails. */
  const TAB_FAILURE: CreateOutcome :=
    CreateOutcome(true, false, true, true, Some([1, 2, 3, 4, 5]), [InitOk(1), InitOk(2), InitOk(3), InitOk(4), InitOk(5)])

  /**
   * The failed ArrayCreate of a LOB array whose tab_obj allocation fails:
   * as written, the ArrayDispose it runs indexes the NULL tab_obj (the
   * library-object loop of array.c:194-201 has no NULL test). The modelled
   * ArrayDispose skips the elements; since the handle type is set, it still
   * hands the 5 descriptors back through the NULL mem_handle, although none
   * was allocated (array.c:204-209), and frees no block.
   */
  lemma DisposeAfterTabFailure(arr: OciArray)
    ensures !TabAllocated(Lob, 0, TAB_FAILURE) && !MemHandleAllocated(Lob, 0, TAB_FAILURE)
    ensures !CreateSucceeds(Lob, 0, OCI_DTYPE_LOB, TAB_FAILURE)
    ensures !DescriptorsAllocated(Lob, 0, OCI_DTYPE_LOB, TAB_FAILURE)
    ensures DisposeReadsNullTabObjAsWritten(Lob, 0, 5, TabAllocated(Lob, 0, TAB_FAILURE))
    ensures FailedCreateEvents(arr, Lob, 0, OCI_DTYPE_LOB, 5, TAB_FAILURE) == [FreeDescriptors(arr, 5)]
  {
  }

  /** The outcomes of the allocations and initialisers ArrayCreate depends on. */
  datatype CreateOutcome = CreateOutcome(
    record: bool,                      // ListAppend allocates the record
    tabObj: bool,                      // ALLOC_DATA of tab_obj
    memHandle: bool,                   // ALLOC_BUFFER of mem_handle
    memStruct: bool,                   // ALLOC_BUFFER of mem_struct
    descriptors: Option<seq<int>>,     // MemoryAllocDescriptorArray, the descriptors it stores
    inits: seq<InitResult>)            // one initialiser outcome per element

  /** Each allocation is attempted only while every earlier one succeeded. */
  predicate TabAllocated(kind: ElemKind, subtype: int, out: CreateOutcome)
  {
    out.record && IsLibraryObject(kind, subtype) && out.tabObj
  }

  predicate MemHandleAllocated(kind: ElemKind, subtype: int, out: CreateOutcome)
  {
    out.record && (IsLibraryObject(kind, subtype) ==> out.tabObj) && out.memHandle
  }

  predicate MemStructAllocated(kind: ElemKind, subtype: int, out: CreateOutcome)
  {
    MemHandleAllocated(kind, subtype, out) && out.memStruct
  }

  predicate DescriptorsAllocated(kind: ElemKind, subtype: int, handleType: nat, out: CreateOutcome)
  {
    MemStructAllocated(kind, subtype, out) && handleType != 0 && out.descriptors.Some?
  }

  /** ArrayInitialize runs only when tab_obj and mem_handle exist and nothing failed before. */
  predicate InitializeRuns(kind: ElemKind, subtype: int, handleType: nat, out: CreateOutcome)
  {
    MemStructAllocated(kind, subtype, out) && (handleType != 0 ==> out.descriptors.Some?)
    && TabAllocated(kind, subtype, out)
  }

  predicate CreateSucceeds(kind: ElemKind, subtype: int, handleType: nat, out: CreateOutcome)
  {
    MemStructAllocated(kind, subtype, out) && (handleType != 0 ==> out.descriptors.Some?)
    && (InitializeRuns(kind, subtype, handleType, out) ==>
          forall k | 0 <= k < |out.inits| :: !InitFails(kind, subtype, out.inits[k]))
  }

  /** Handle slot k before initialisation: a descriptor, or zero when no handle type is set. */
  function InitialSlot(handleType: nat, out: CreateOutcome, k: int): int
  {
    if handleType != 0 && out.descriptors.Some? && 0 <= k < |out.descriptors.value| then out.descriptors.value[k] else 0
  }

  /** The blocks of a registered array exist and have one entry per element. */
  ghost predicate Registered(a: OciArray)
  {
    && a.memHandle != null && a.memStruct != null
    && a.memHandle.Length == a.nbElem && a.memStruct.Length == a.nbElem
    && (a.tabObj != null <==> IsLibraryObject(a.elemKind, a.elemSubtype))
    && (a.tabObj != null ==> a.tabObj.Length == a.nbElem)
  }

  /** The fields ArrayCreate copies from its arguments (array.c:247-255). */
  predicate HasHeader(a: OciArray, con: int, nbElem: nat, kind: ElemKind, subtype: int, elemSize: nat,
                      structSize: nat, handleType: nat)
  {
    && a.con == con && a.nbElem == nbElem && a.elemKind == kind && a.elemSubtype == subtype
    && a.elemSize == elemSize && a.structSize == structSize && a.handleType == handleType
  }

  /** The state a successful ArrayCreate leaves in `a`. */
  ghost predicate Created(a: OciArray, con: int, nbElem: nat, kind: ElemKind, subtype: int, elemSize: nat,
                          structSize: nat, handleType: nat, out: CreateOutcome)
    reads a.tabObj, a.memHandle, a.memStruct
  {
    && HasHeader(a, con, nbElem, kind, subtype, elemSize, structSize, handleType)
    && Registered(a)
    && |out.inits| == nbElem
    && (forall k | 0 <= k < nbElem ::
          if IsLibraryObject(kind, subtype) then
            ElementState(a.tabObj[k], a.memHandle[k], a.memStruct[k])
              == InitElement(kind, subtype, k, InitialSlot(handleType, out, k), ZERO_WRAPPER, out.inits[k])
          else
            a.memHandle[k] == InitialSlot(handleType, out, k) && a.memStruct[k] == ZERO_WRAPPER)
  }

  /** What the index block holds when a failed ArrayCreate disposes it. */
  function TabAtFailure(kind: ElemKind, subtype: int, handleType: nat, nbElem: nat, out: CreateOutcome): Option<seq<ObjRef>>
    requires |out.inits| == nbElem
  {
    if !TabAllocated(kind, subtype, out) then None
    else if !InitializeRuns(kind, subtype, handleType, out) then Some(seq(nbElem, _ => NullObj))
    else Some(seq(nbElem, k requires 0 <= k < nbElem =>
                InitElement(kind, subtype, k, InitialSlot(handleType, out, k), ZERO_WRAPPER, out.inits[k]).obj))
  }

  /** No record appears twice. */
  ghost predicate NoDuplicates(s: seq<OciArray>)
  {
    forall i, j | 0 <= i < j < |s| :: s[i] != s[j]
  }

  /** Every record is unfreed and registered. */
  ghost predicate AllRegistered(s: seq<OciArray>, freed: set<OciArray>)
  {
    forall i | 0 <= i < |s| :: s[i] !in freed && Registered(s[i])
  }

  /** Two records share no block. */
  ghost predicate SeparateBlocks(a: OciArray, b: OciArray)
  {
    a.memHandle != b.memHandle && a.memStruct != b.memStruct && (a.tabObj == null || a.tabObj != b.tabObj)
  }

  /** No block is shared between two registered records. */
  ghost predicate DisjointBlocks(s: seq<OciArray>)
  {
    forall i, j | 0 <= i < j < |s| :: SeparateBlocks(s[i], s[j])
  }

  /** The registry invariant. */
  ghost predicate ArraysValid(s: seq<OciArray>, freed: set<OciArray>)
  {
    NoDuplicates(s) && AllRegistered(s, freed) && DisjointBlocks(s)
  }

  /**
   * Env.arrs after a failed ArrayCreate as written (array.c:284-288): the
   * record is disposed and FREEd but never taken out of the list ListAppend
   * put it in.
   */
  function RegistryAfterFailedCreateAsWritten(s: seq<OciArray>, rec: OciArray): (t: seq<OciArray>)
    ensures |t| == |s| + 1 && t[|s|] == rec
  {
    s + [rec]
  }

  /** As written, a failed ArrayCreate leaves a freed record in Env.arrs, which breaks the registry invariant. */
  lemma FailedCreateAsWrittenBreaksRegistry(s: seq<OciArray>, freed: set<OciArray>, rec: OciArray)
    ensures !ArraysValid(RegistryAfterFailedCreateAsWritten(s, rec), freed + {rec})
  {
    var t := RegistryAfterFailedCreateAsWritten(s, rec);
    assert t[|s|] in freed + {rec};
  }

  /** Registering a record whose blocks are new keeps the registry invariant. */
  lemma AppendKeepsValid(s: seq<OciArray>, freed: set<OciArray>, a: OciArray)
    requires ArraysValid(s, freed)
    requires a !in s && a !in freed && Registered(a)
    requires forall i | 0 <= i < |s| :: SeparateBlocks(s[i], a)
    ensures ArraysValid(s + [a], freed)
  {
    var t := s + [a];
    forall i, j | 0 <= i < j < |t|
      ensures t[i] != t[j] && SeparateBlocks(t[i], t[j])
    {
      if j == |s| {
        assert t[j] == a;
      } else {
        assert t[i] == s[i] && t[j] == s[j];
      }
    }
  }

  /** `s` without its k-th entry. */
  function RemoveAt(s: seq<OciArray>, k: nat): (t: seq<OciArray>)
    requires k < |s|
    ensures |t| == |s| - 1
    ensures forall i | 0 <= i < |t| :: t[i] == s[if i < k then i else i + 1]
  {
    s[..k] + s[k + 1..]
  }

  /** Unregistering and freeing the k-th record keeps the registry invariant. */
  lemma RemoveKeepsValid(s: seq<OciArray>, freed: set<OciArray>, k: nat)
    requires ArraysValid(s, freed) && k < |s|
    ensures forall i | 0 <= i < |s| - 1 :: RemoveAt(s, k)[i] != s[k]
    ensures ArraysValid(RemoveAt(s, k), freed)
  {
    var t := RemoveAt(s, k);
    forall i | 0 <= i < |t|
      ensures t[i] != s[k] && t[i] !in freed && Registered(t[i])
    {
      var i' := if i < k then i else i + 1;
      assert t[i] == s[i'];
    }
    forall i, j | 0 <= i < j < |t|
      ensures t[i] != t[j] && SeparateBlocks(t[i], t[j])
    {
      var i', j' := if i < k then i else i + 1, if j < k then j else j + 1;
      assert t[i] == s[i'] && t[j] == s[j'];
    }
  }

  /** Freeing a record that is not registered keeps the registry invariant. */
  lemma FreeUnregisteredKeepsValid(s: seq<OciArray>, freed: set<OciArray>, a: OciArray)
    requires ArraysValid(s, freed)
    requires forall i | 0 <= i < |s| :: s[i] != a
    ensures ArraysValid(s, freed + {a})
  {
  }

  /** ListRemove of a record just appended to a list that did not hold it gives the list back. */
  lemma RemoveAppended(s: seq<OciArray>, a: OciArray)
    requires forall i | 0 <= i < |s| :: s[i] != a
    ensures ListRemove(s + [a], a) == (true, s)
  {
    var k := IndexOf(s + [a], a);
    assert (s + [a])[..k] == s && (s + [a])[k + 1..] == [];
    assert (s + [a])[|s|] == a;
    assert ListRemove(s + [a], a).1 == (s + [a])[..k] + (s + [a])[k + 1..];
    assert ListRemove(s + [a], a).1 == s;
    assert ListRemove(s + [a], a).0;
  }

  /**
   * A registered array is found from either of its client-visible blocks,
   * and no other array answers for them: the lookup ArrayFreeFromHandles
   * relies on inverts the registration.
   */
  lemma {:induction false} LookupFindsOwner(s: seq<OciArray>, freed: set<OciArray>, k: nat, handles: object)
    requires ArraysValid(s, freed) && k < |s|
    requires handles == s[k].tabObj || handles == s[k].memStruct
    ensures FirstMatch(s, handles) == k
  {
    forall j | 0 <= j < k
      ensures !ArrayFindAny(s[j], handles)
    {
      assert SeparateBlocks(s[j], s[k]);
    }
    FirstMatchAt(s, handles, k);
  }

  /**
   * The process-wide array registry (`Env.arrs`) together with the
   * allocation bookkeeping of the arrays it owns.
   */
  class Registry {
    var arrs: seq<OciArray>
    /** Records that have been FREEd. */
    var freed: set<OciArray>
    /** Blocks allocated by ArrayCreate and not yet freed. */
    var liveBlocks: set<object>
    /**
     * Descriptors allocated minus descriptors handed back. It can drop below
     * zero: ArrayDispose hands back one descriptor per element whenever a
     * handle type is set, also after a failed ArrayCreate that never
     * allocated them (array.c:204-209).
     */
    var descriptors: int
    /** Everything the teardowns freed, in order. */
    var log: seq<FreeEvent>

    ghost predicate Valid()
      reads this
    {
      ArraysValid(arrs, freed)
    }

    constructor ()
      ensures Valid() && arrs == [] && freed == {} && liveBlocks == {} && descriptors == 0 && log == []
    {
      arrs := [];
      freed := {};
      liveBlocks := {};
      descriptors := 0;
      log := [];
    }

    /** ListFind(Env.arrs, ArrayFindAny, handles): index of the first match, or -1. */
    method ListFind(handles: object?) returns (idx: int)
      ensures idx == FirstMatch(arrs, handles)
      ensures idx >= 0 ==> ArrayFindAny(arrs[idx], handles)
    {
      var i := 0;
      while i < |arrs|
        invariant 0 <= i <= |arrs|
        invariant forall j | 0 <= j < i :: !ArrayFindAny(arrs[j], handles)
      {
        if ArrayFindAny(arrs[i], handles) {
          FirstMatchAt(arrs, handles, i);
          return i;
        }
        i := i + 1;
      }
      FirstMatchAt(arrs, handles, i);
      idx := -1;
    }

    /**
     * ArrayDispose: frees the elements of a library-object array, then the
     * descriptors, then the blocks. A NULL record is refused. This is the
     * corrected routine: the element loop is skipped when the index block
     * was never allocated.
     */
    method ArrayDispose(arr: OciArray?) returns (ok: bool)
      requires arr != null && arr.tabObj != null ==> arr.tabObj.Length == arr.nbElem
      modifies this`log, this`liveBlocks, this`descriptors
      ensures ok <==> arr != null
      ensures arr == null ==> log == old(log) && liveBlocks == old(liveBlocks) && descriptors == old(descriptors)
      ensures arr != null ==> log == old(log) + DisposeEventsOf(arr)
      ensures arr != null ==> liveBlocks == old(liveBlocks) - BlocksOf(arr)
      ensures arr != null ==> descriptors == old(descriptors) - DescriptorCount(arr)
    {
      if arr == null {
        return false;
      }
      var events := DisposeEventsFor(arr);
      log := log + events;
      if arr.handleType != 0 {
        descriptors := descriptors - arr.nbElem;
      }
      liveBlocks := liveBlocks - BlocksOf(arr);
      ok := true;
    }

    /**
     * ArrayCreate: registers a new record, allocates its blocks and
     * initialises its elements. On any failure the record is taken out of
     * the registry again, disposed and freed, and NULL is returned; `rec` is
     * the record that was allocated, if any. This is the corrected failure
     * path (the record is unregistered before it is freed).
     */
    method ArrayCreate(con: int, nbElem: nat, kind: ElemKind, subtype: int, elemSize: nat, structSize: nat,
                       handleType: nat, out: CreateOutcome) returns (arr: OciArray?, ghost rec: OciArray?)
      requires Valid()
      requires |out.inits| == nbElem
      requires out.descriptors.Some? ==> |out.descriptors.value| == nbElem
      modifies this
      ensures Valid()
      ensures arr != null <==> out.record && CreateSucceeds(kind, subtype, handleType, out)
      ensures rec == null <==> !out.record
      ensures arr != null ==> rec == arr
      ensures rec != null ==> fresh(rec)
      ensures rec != null ==> HasHeader(rec, con, nbElem, kind, subtype, elemSize, structSize, handleType)
      ensures arr != null ==> Created(arr, con, nbElem, kind, subtype, elemSize, structSize, handleType, out)
      ensures arr != null ==> arrs == old(arrs) + [arr] && liveBlocks == old(liveBlocks) + BlocksOf(arr)
      ensures arr != null ==> freed == old(freed) && log == old(log)
      ensures arr != null ==> descriptors == old(descriptors) + DescriptorCount(arr)
      ensures arr == null ==> arrs == old(arrs) && liveBlocks == old(liveBlocks)
      ensures !out.record ==> freed == old(freed) && log == old(log) && descriptors == old(descriptors)
      ensures arr == null && rec != null ==> freed == old(freed) + {rec}
      ensures arr == null && rec != null ==>
        log == old(log) + FailedCreateEvents(rec, kind, subtype, handleType, nbElem, out) + [FreeRecord(rec)]
      ensures arr == null && rec != null ==>
        descriptors == old(descriptors) + (if DescriptorsAllocated(kind, subtype, handleType, out) then nbElem else 0)
                       - DescriptorCount(rec)
    {
      if !out.record {
        return null, null;
      }
      var a, ok := NewRecord(con, nbElem, kind, subtype, elemSize, structSize, handleType, out, arrs, freed, liveBlocks);
      rec := a;
      var descs := DescriptorsAllocated(kind, subtype, handleType, out);
      if ok {
        Publish(a, descs);
        arr := a;
      } else {
        FailedCreateEventsOf(a, con, nbElem, kind, subtype, elemSize, structSize, handleType, out);
        BlocksOutsideDisjoint(a, liveBlocks);
        Discard(a, descs);
        arr := null;
      }
    }

    /** ListAppend of a record whose blocks (and `descs` descriptors) were allocated and initialised. */
    method Publish(a: OciArray, descs: bool)
      requires Valid() && Registered(a) && a !in freed
      requires forall i | 0 <= i < |arrs| :: arrs[i] != a && SeparateBlocks(arrs[i], a)
      modifies this`arrs, this`liveBlocks, this`descriptors
      ensures Valid()
      ensures arrs == old(arrs) + [a] && liveBlocks == old(liveBlocks) + BlocksOf(a)
      ensures descriptors == old(descriptors) + (if descs then a.nbElem else 0)
    {
      AppendKeepsValid(arrs, freed, a);
      arrs := arrs + [a];
      liveBlocks := liveBlocks + BlocksOf(a);
      if descs {
        descriptors := descriptors + a.nbElem;
      }
    }

    /**
     * The failure path of ArrayCreate for a record that was allocated:
     * ListAppend and the allocations, then ListRemove, ArrayDispose and FREE.
     */
    method Discard(a: OciArray, descs: bool)
      requires Valid() && forall i | 0 <= i < |arrs| :: arrs[i] != a
      requires a.tabObj != null ==> a.tabObj.Length == a.nbElem
      requires BlocksOf(a) !! liveBlocks
      modifies this`arrs, this`liveBlocks, this`descriptors, this`freed, this`log
      ensures Valid() && arrs == old(arrs) && liveBlocks == old(liveBlocks)
      ensures freed == old(freed) + {a}
      ensures log == old(log) + old(DisposeEventsOf(a)) + [FreeRecord(a)]
      ensures descriptors == old(descriptors) + (if descs then a.nbElem else 0) - DescriptorCount(a)
    {
      ghost var events := DisposeEventsOf(a);
      arrs := arrs + [a];
      liveBlocks := liveBlocks + BlocksOf(a);
      if descs {
        descriptors := descriptors + a.nbElem;
      }
      UnlistAppended(old(arrs), a);
      DisposeUnregistered(a);
      assert DisposeEventsOf(a) == events;
      assert liveBlocks == old(liveBlocks) + BlocksOf(a) - BlocksOf(a);
    }

    /** ListRemove of the record the failed ArrayCreate had just appended. */
    method UnlistAppended(ghost before: seq<OciArray>, a: OciArray)
      requires arrs == before + [a] && forall i | 0 <= i < |before| :: before[i] != a
      modifies this`arrs
      ensures arrs == before
    {
      RemoveAppended(before, a);
      var removed := ListRemove(arrs, a);
      arrs := removed.1;
    }

    /** ArrayDispose and FREE of a record that is no longer registered. */
    method DisposeUnregistered(a: OciArray)
      requires Valid() && forall i | 0 <= i < |arrs| :: arrs[i] != a
      requires a.tabObj != null ==> a.tabObj.Length == a.nbElem
      modifies this`log, this`liveBlocks, this`descriptors, this`freed
      ensures Valid()
      ensures freed == old(freed) + {a}
      ensures log == old(log) + DisposeEventsOf(a) + [FreeRecord(a)]
      ensures liveBlocks == old(liveBlocks) - BlocksOf(a)
      ensures descriptors == old(descriptors) - DescriptorCount(a)
    {
      var _ := ArrayDispose(a);
      FreeUnregisteredKeepsValid(arrs, freed, a);
      freed := freed + {a};
      log := log + [FreeRecord(a)];
    }

    /** ListRemove of the registered record at `idx`; it reports that the record was there. */
    method Unregister(a: OciArray, ghost idx: nat) returns (removed: bool)
      requires Valid() && idx < |arrs| && arrs[idx] == a
      modifies this`arrs
      ensures removed && arrs == RemoveAt(old(arrs), idx)
      ensures Valid() && forall i | 0 <= i < |arrs| :: arrs[i] != a
    {
      RemoveKeepsValid(arrs, freed, idx);
      var r := ListRemove(arrs, a);
      assert IndexOf(arrs, a) == idx;
      removed := r.0;
      arrs := r.1;
    }

    /**
     * ArrayFreeFromHandles: looks up the array whose index or wrapper block
     * is `handles`, unregisters it, disposes it and frees the record; the
     * result is what ListRemove reported. `idx` is the position the lookup
     * found.
     */
    method ArrayFreeFromHandles(handles: object?) returns (res: bool, ghost idx: int)
      requires Valid()
      modifies this
      ensures Valid()
      ensures idx == old(FirstMatch(arrs, handles))
      ensures res <==> idx >= 0
      ensures !res ==> arrs == old(arrs) && freed == old(freed) && log == old(log)
      ensures !res ==> liveBlocks == old(liveBlocks) && descriptors == old(descriptors)
      ensures res ==> arrs == RemoveAt(old(arrs), idx)
      ensures res ==> freed == old(freed) + {old(arrs[idx])}
      ensures res ==> log == old(log) + DisposeEventsOf(old(arrs[idx])) + [FreeRecord(old(arrs[idx]))]
      ensures res ==> liveBlocks == old(liveBlocks) - BlocksOf(old(arrs[idx]))
      ensures res ==> descriptors == old(descriptors) - DescriptorCount(old(arrs[idx]))
    {
      var i := ListFind(handles);
      idx := i;
      if i < 0 {
        return false, idx;
      }
      var a := arrs[i];
      res := Unregister(a, i);
      DisposeUnregistered(a);
    }
  }

  /**
   * The calls ArrayDispose makes, in order: the element loop, the
   * descriptor array, and FREE on each block pointer (a no-op on NULL).
   */
  method DisposeEventsFor(arr: OciArray) returns (events: seq<FreeEvent>)
    requires arr.tabObj != null ==> arr.tabObj.Length == arr.nbElem
    ensures events == DisposeEventsOf(arr)
  {
    events := [];
    if IsLibraryObject(arr.elemKind, arr.elemSubtype) && arr.tabObj != null {
      events := ElementFrees(arr);
    }
    if arr.handleType != 0 {
      events := events + [FreeDescriptors(arr, arr.nbElem)];
    }
    events := events + FreeIfAllocated(arr, arr.memHandle != null, MemHandleBlock);
    events := events + FreeIfAllocated(arr, arr.memStruct != null, MemStructBlock);
    events := events + FreeIfAllocated(arr, arr.tabObj != null, TabObjBlock);
  }

  /** The element loop of ArrayDispose: one FreeObjectFromType per index entry, in index order. */
  method ElementFrees(arr: OciArray) returns (ev: seq<FreeEvent>)
    requires arr.tabObj != null && arr.tabObj.Length == arr.nbElem
    ensures ev == ElementFreeEvents(arr, arr.tabObj[..])
  {
    var tab := arr.tabObj;
    ev := [];
    var i := 0;
    while i < arr.nbElem
      invariant 0 <= i <= arr.nbElem
      invariant ev == ElementFreeEvents(arr, tab[..i])
    {
      assert tab[..i + 1][..i] == tab[..i];
      ev := ev + [FreeElement(arr, tab[i])];
      i := i + 1;
    }
    assert tab[..arr.nbElem] == tab[..];
  }

  /**
   * The record ArrayCreate appends, with its blocks allocated (array.c:247-275)
   * and, when nothing failed and the index block exists, its elements
   * initialised (array.c:277-280). `ok` is the final status.
   */
  method NewRecord(con: int, nbElem: nat, kind: ElemKind, subtype: int, elemSize: nat, structSize: nat,
                   handleType: nat, out: CreateOutcome, ghost others: seq<OciArray>, ghost freed: set<OciArray>,
                   ghost live: set<object>) returns (a: OciArray, ok: bool)
    requires out.record && |out.inits| == nbElem
    requires out.descriptors.Some? ==> |out.descriptors.value| == nbElem
    requires ArraysValid(others, freed)
    ensures fresh(a) && SharesNothing(a, others, freed, live)
    ensures HasHeader(a, con, nbElem, kind, subtype, elemSize, structSize, handleType)
    ensures a.tabObj != null <==> TabAllocated(kind, subtype, out)
    ensures a.memHandle != null <==> MemHandleAllocated(kind, subtype, out)
    ensures a.memStruct != null <==> MemStructAllocated(kind, subtype, out)
    ensures a.tabObj != null ==> a.tabObj.Length == nbElem
    ensures ok <==> CreateSucceeds(kind, subtype, handleType, out)
    ensures ok ==> Created(a, con, nbElem, kind, subtype, elemSize, structSize, handleType, out)
    ensures !ok ==> TabContents(a) == TabAtFailure(kind, subtype, handleType, nbElem, out)
  {
    var status;
    a, status := AllocateRecord(con, nbElem, kind, subtype, elemSize, structSize, handleType, out, others, freed, live);
    var tab := a.tabObj;
    ok := status;
    if ok && tab != null {
      ok := ArrayInitialize(a, out.inits);
      assert !ok ==> tab[..] == TabAtFailure(kind, subtype, handleType, nbElem, out).value;
    } else if tab != null {
      assert tab[..] == TabAtFailure(kind, subtype, handleType, nbElem, out).value;
    }
  }

  /** No block of `a` is among `live`. */
  ghost predicate BlocksOutside(a: OciArray, live: set<object>)
  {
    && (a.tabObj != null ==> a.tabObj !in live)
    && (a.memHandle != null ==> a.memHandle !in live)
    && (a.memStruct != null ==> a.memStruct !in live)
  }

  lemma BlocksOutsideDisjoint(a: OciArray, live: set<object>)
    requires BlocksOutside(a, live)
    ensures BlocksOf(a) !! live
  {
  }

  /**
   * `a` is not one of the registered records `others` nor a freed one, and
   * shares no block with them or with the live blocks.
   */
  ghost predicate SharesNothing(a: OciArray, others: seq<OciArray>, freed: set<OciArray>, live: set<object>)
  {
    && a !in freed && BlocksOutside(a, live)
    && forall i | 0 <= i < |others| :: others[i] != a && SeparateBlocks(others[i], a)
  }

  /**
   * The record with its fields set and its blocks allocated (array.c:247-275),
   * sharing nothing with the records and blocks the registry holds.
   */
  method AllocateRecord(con: int, nbElem: nat, kind: ElemKind, subtype: int, elemSize: nat, structSize: nat,
                        handleType: nat, out: CreateOutcome, ghost others: seq<OciArray>, ghost freed: set<OciArray>,
                        ghost live: set<object>) returns (a: OciArray, status: bool)
    requires out.record
    requires out.descriptors.Some? ==> |out.descriptors.value| == nbElem
    requires AllRegistered(others, freed)
    ensures fresh(a) && SharesNothing(a, others, freed, live)
    ensures a.tabObj != null ==> fresh(a.tabObj)
    ensures a.memHandle != null ==> fresh(a.memHandle)
    ensures a.memStruct != null ==> fresh(a.memStruct)
    ensures HasHeader(a, con, nbElem, kind, subtype, elemSize, structSize, handleType)
    ensures BlocksAsAllocated(Block(a.tabObj), Block(a.memHandle), Block(a.memStruct), nbElem, kind, subtype, handleType, out, status)
  {
    a, status := BuildRecord(con, nbElem, kind, subtype, elemSize, structSize, handleType, out);
    forall i | 0 <= i < |others|
      ensures others[i] != a && SeparateBlocks(others[i], a)
    {
      assert Registered(others[i]);
    }
  }

  /** A new record over newly allocated blocks. */
  method BuildRecord(con: int, nbElem: nat, kind: ElemKind, subtype: int, elemSize: nat, structSize: nat,
                     handleType: nat, out: CreateOutcome) returns (a: OciArray, status: bool)
    requires out.record
    requires out.descriptors.Some? ==> |out.descriptors.value| == nbElem
    ensures fresh(a)
    ensures a.tabObj != null ==> fresh(a.tabObj)
    ensures a.memHandle != null ==> fresh(a.memHandle)
    ensures a.memStruct != null ==> fresh(a.memStruct)
    ensures HasHeader(a, con, nbElem, kind, subtype, elemSize, structSize, handleType)
    ensures BlocksAsAllocated(Block(a.tabObj), Block(a.memHandle), Block(a.memStruct), nbElem, kind, subtype, handleType, out, status)
  {
    var tab, mh, ms;
    tab, mh, ms, status := AllocateBlocks(nbElem, kind, subtype, handleType, out);
    a := new OciArray(con, nbElem, kind, subtype, elemSize, structSize, handleType, tab, mh, ms);
  }

  /** The contents of a block, or None for a NULL pointer. */
  function Block<T>(b: array?<T>): (c: Option<seq<T>>)
    reads b
    ensures c.Some? <==> b != null
    ensures c.Some? ==> c.value == b[..]
  {
    if b == null then None else Some(b[..])
  }

  /**
   * What the allocations of ArrayCreate leave: each block exists exactly
   * when its allocation and every earlier one succeeded, fresh blocks are
   * zero-filled, and after a successful descriptor allocation the handle
   * slots hold the descriptors.
   */
  ghost predicate BlocksAsAllocated(tab: Option<seq<ObjRef>>, mh: Option<seq<int>>, ms: Option<seq<Wrapper>>, n: nat,
                                    kind: ElemKind, subtype: int, handleType: nat, out: CreateOutcome, status: bool)
  {
    && (tab.Some? <==> TabAllocated(kind, subtype, out))
    && (mh.Some? <==> MemHandleAllocated(kind, subtype, out))
    && (ms.Some? <==> MemStructAllocated(kind, subtype, out))
    && (status <==> MemStructAllocated(kind, subtype, out) && (handleType != 0 ==> out.descriptors.Some?))
    && (tab.Some? ==> tab.value == seq(n, _ => NullObj))
    && (mh.Some? ==> |mh.value| == n)
    && (ms.Some? ==> ms.value == seq(n, _ => ZERO_WRAPPER))
    && (status ==> mh.value == seq(n, k => InitialSlot(handleType, out, k)))
  }

  /**
   * The allocations of ArrayCreate (array.c:259-275), each attempted only
   * while every earlier one succeeded: the index block for library-object
   * kinds, the handle block, the wrapper block, and the descriptors, which
   * are stored in the handle slots. `status` is false as soon as one of
   * them fails.
   */
  method AllocateBlocks(n: nat, kind: ElemKind, subtype: int, handleType: nat, out: CreateOutcome)
    returns (tab: array?<ObjRef>, mh: array?<int>, ms: array?<Wrapper>, status: bool)
    requires out.record
    requires out.descriptors.Some? ==> |out.descriptors.value| == n
    ensures tab != null ==> fresh(tab)
    ensures mh != null ==> fresh(mh)
    ensures ms != null ==> fresh(ms)
    ensures BlocksAsAllocated(Block(tab), Block(mh), Block(ms), n, kind, subtype, handleType, out, status)
  {
    tab, mh, ms := null, null, null;
    if IsLibraryObject(kind, subtype) {
      tab := AllocBlock(n, out.tabObj, NullObj);
      if tab == null {
        return tab, mh, ms, false;
      }
    }
    mh := AllocBlock(n, out.memHandle, 0);
    if mh == null {
      return tab, mh, ms, false;
    }
    ms := AllocBlock(n, out.memStruct, ZERO_WRAPPER);
    if ms == null {
      return tab, mh, ms, false;
    }
    if handleType != 0 {
      if out.descriptors.None? {
        return tab, mh, ms, false;
      }
      StoreDescriptors(mh, out.descriptors.value);
    }
    status := true;
  }

  /** ALLOC_DATA / ALLOC_BUFFER of one block: `n` entries set to `zero`, or NULL when the allocation fails. */
  method AllocBlock<T>(n: nat, succeeds: bool, zero: T) returns (b: array?<T>)
    ensures b != null <==> succeeds
    ensures b != null ==> fresh(b) && b.Length == n && forall k | 0 <= k < n :: b[k] == zero
  {
    if succeeds {
      b := new T[n](_ => zero);
    } else {
      b := null;
    }
  }

  /** MemoryAllocDescriptorArray: the allocated descriptors land in the handle slots. */
  method StoreDescriptors(mh: array<int>, d: seq<int>)
    requires |d| == mh.Length
    modifies mh
    ensures mh[..] == d
  {
    forall k | 0 <= k < mh.Length {
      mh[k] := d[k];
    }
  }

  /** What a failed ArrayCreate frees before the record itself. */
  function FailedCreateEvents(rec: OciArray, kind: ElemKind, subtype: int, handleType: nat, nbElem: nat,
                              out: CreateOutcome): seq<FreeEvent>
    requires |out.inits| == nbElem
  {
    DisposeEvents(rec, kind, subtype, handleType, nbElem, TabAtFailure(kind, subtype, handleType, nbElem, out),
                  MemHandleAllocated(kind, subtype, out), MemStructAllocated(kind, subtype, out))
  }

  /** What ArrayDispose frees from a record whose creation failed is FailedCreateEvents. */
  lemma FailedCreateEventsOf(a: OciArray, con: int, nbElem: nat, kind: ElemKind, subtype: int, elemSize: nat,
                             structSize: nat, handleType: nat, out: CreateOutcome)
    requires |out.inits| == nbElem
    requires HasHeader(a, con, nbElem, kind, subtype, elemSize, structSize, handleType)
    requires a.memHandle != null <==> MemHandleAllocated(kind, subtype, out)
    requires a.memStruct != null <==> MemStructAllocated(kind, subtype, out)
    requires TabContents(a) == TabAtFailure(kind, subtype, handleType, nbElem, out)
    ensures DisposeEventsOf(a) == FailedCreateEvents(a, kind, subtype, handleType, nbElem, out)
  {
  }
}
