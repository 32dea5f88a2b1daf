/**
 * Callbacks (src/callback.c): the trampolines the client library calls
 * back into — dynamic in- and out-binds of RETURNING clauses, change and
 * message notifications, transparent application failover, and
 * high-availability events.
 *
 * The client library's attribute reads and collection walks are opaque:
 * their results are parameters (a change descriptor, a list of HA
 * servers, the number of returned rows). User handlers are recorded as
 * the sequence of calls they receive.
 */
module Callbacks {
  import opened OciTypes
  import Timestamps

  /** Return codes and piece modes of the client library. */
  const OCI_SUCCESS: int := 0
  const OCI_ERROR: int := -1
  const OCI_CONTINUE: int := -24200
  const OCI_ONE_PIECE: int := 0
  const OCI_FOC_OK: int := 0

  /** The statement status bit set once the statement has run. */
  const OCI_STMT_EXECUTED: bv32 := 16

  // ---------------------------------------------------------------------
  // Dynamic binds
  // ---------------------------------------------------------------------

  /** The kinds of define buffer; the first five hold one pointer per row. */
  datatype ColumnType = Cursor | Timestamp | Interval | Lob | File | Scalar

  /** Buffers of these kinds are arrays of pointers to library objects. */
  predicate HoldsPointers(t: ColumnType)
  {
    t != Scalar
  }

  /**
   * A column define of a returned resultset: its kind, the size of one
   * value and of one length, the base addresses of its data, length and
   * indicator buffers, and the pointers stored in a pointer buffer.
   */
  datatype Define = Define(colType: ColumnType, bufsize: nat, sizelen: nat, data: int, ptrs: seq<int>,
                           lens: int, inds: int)

  /** A resultset of a RETURNING clause. */
  datatype Resultset = Resultset(rowCount: nat, defs: seq<Define>)

  /** The define of position `dynpos` exists and, for a pointer buffer, holds slot `index`. */
  predicate HasSlot(rs: Resultset, dynpos: nat, index: nat)
  {
    dynpos < |rs.defs| && (HoldsPointers(rs.defs[dynpos].colType) ==> index < |rs.defs[dynpos].ptrs|)
  }

  /** An `OCI_Statement`, as far as the bind callbacks touch it. */
  class Statement {
    var status: bv32
    var nbIters: nat
    var nbRs: nat
    var curRs: nat
    var dynidx: nat
    /** `rsts`: None while not allocated; a NULL resultset is None. */
    var rsts: Option<seq<Option<Resultset>>>

    constructor (nbIters: nat)
      ensures this.nbIters == nbIters && status == 0 && nbRs == 0 && curRs == 0 && dynidx == 0 && rsts == None
    {
      this.nbIters := nbIters;
      status, nbRs, curRs, dynidx, rsts := 0, 0, 0, 0, None;
    }

    /**
     * The first row of an iteration of CallbackOutBind (callback.c:139-162):
     * one resultset per iteration, the first one current, and the
     * resultsets prepared.
     */
    method FirstRow(iter: nat, allocOk: bool, rows: Option<nat>, created: Option<Resultset>) returns (ok: bool)
      requires iter < nbIters && (rsts.Some? ==> |rsts.value| == nbIters)
      modifies this
      ensures nbIters == old(nbIters) && dynidx == old(dynidx) && status == old(status)
      ensures nbRs == nbIters && curRs == 0
      ensures (rsts, ok) == PreparedResultsets(old(rsts), old(nbIters), iter, allocOk, rows, created)
    {
      nbRs := nbIters;
      curRs := 0;
      var prepared := PreparedResultsets(rsts, nbIters, iter, allocOk, rows, created);
      rsts, ok := prepared.0, prepared.1;
    }
  }

  /** An `OCI_Bind` of a RETURNING clause: its array size, indicators, position and statement. */
  class Bind {
    const count: nat
    const inds: array<int>
    const stmt: Statement
    var dynpos: nat

    constructor (count: nat, inds: array<int>, stmt: Statement)
      ensures this.count == count && this.inds == inds && this.stmt == stmt && dynpos == 0
    {
      this.count, this.inds, this.stmt := count, inds, stmt;
      dynpos := 0;
    }
  }

  /** What CallbackInBind hands back: buffer, length, indicator array and piece. */
  datatype InReply = InReply(buf: int, alen: nat, inds: array<int>, piece: int)

  /**
   * CallbackInBind (callback.c:42-94): a NULL bind or an iteration beyond
   * the bind's array is an error; otherwise every indicator becomes -1,
   * the first iteration takes the next dynamic position of the statement,
   * and the library is told to continue with no data.
   */
  method InBind(bnd: Bind?, iter: nat) returns (code: int, reply: Option<InReply>)
    requires bnd != null ==> bnd.count <= bnd.inds.Length
    modifies if bnd == null then {} else {bnd as object, bnd.stmt, bnd.inds}
    ensures bnd == null || iter >= bnd.count ==> code == OCI_ERROR && reply.None?
    ensures bnd != null && iter >= bnd.count ==>
      bnd.dynpos == old(bnd.dynpos) && bnd.stmt.dynidx == old(bnd.stmt.dynidx) && bnd.inds[..] == old(bnd.inds[..])
    ensures bnd != null && iter < bnd.count ==>
      code == OCI_CONTINUE && reply == Some(InReply(0, 0, bnd.inds, OCI_ONE_PIECE))
    ensures bnd != null && iter < bnd.count ==>
      forall i :: 0 <= i < bnd.inds.Length ==> bnd.inds[i] == if i < bnd.count then -1 else old(bnd.inds[i])
    ensures bnd != null && iter < bnd.count && iter == 0 ==>
      bnd.dynpos == old(bnd.stmt.dynidx) && bnd.stmt.dynidx == old(bnd.stmt.dynidx) + 1
    ensures bnd != null && iter != 0 ==> bnd.dynpos == old(bnd.dynpos) && bnd.stmt.dynidx == old(bnd.stmt.dynidx)
    ensures bnd != null ==>
      bnd.stmt.status == old(bnd.stmt.status) && bnd.stmt.rsts == old(bnd.stmt.rsts)
      && bnd.stmt.nbRs == old(bnd.stmt.nbRs) && bnd.stmt.curRs == old(bnd.stmt.curRs)
  {
    if bnd == null || iter >= bnd.count {
      return OCI_ERROR, None;
    }
    var i := 0;
    while i < bnd.count
      invariant 0 <= i <= bnd.count
      invariant forall k :: 0 <= k < bnd.inds.Length ==> bnd.inds[k] == if k < i then -1 else old(bnd.inds[k])
      invariant bnd.dynpos == old(bnd.dynpos) && bnd.stmt.dynidx == old(bnd.stmt.dynidx)
      invariant bnd.stmt.status == old(bnd.stmt.status) && bnd.stmt.rsts == old(bnd.stmt.rsts)
      invariant bnd.stmt.nbRs == old(bnd.stmt.nbRs) && bnd.stmt.curRs == old(bnd.stmt.curRs)
    {
      bnd.inds[i] := -1;
      i := i + 1;
    }
    if iter == 0 {
      bnd.dynpos := bnd.stmt.dynidx;
      bnd.stmt.dynidx := bnd.stmt.dynidx + 1;
    }
    return OCI_CONTINUE, Some(InReply(0, 0, bnd.inds, OCI_ONE_PIECE));
  }

  /** The addresses of one out-bind slot: value buffer, length and indicator. */
  datatype Slot = Slot(buf: int, alen: int, ind: int)

  /** sizeof(sb2): the size of one indicator. */
  const INDICATOR_SIZE: nat := 2

  /**
   * The slot of row `index` as CallbackOutBind computes it
   * (callback.c:176-201): each product is taken in 32-bit unsigned
   * arithmetic before it is widened and added to the base address.
   */
  function SlotAsWritten(def: Define, index: nat): (s: Slot)
    requires HoldsPointers(def.colType) ==> index < |def.ptrs|
    ensures !HoldsPointers(def.colType) ==> def.data <= s.buf < def.data + UINT32_MODULUS
    ensures def.lens <= s.alen < def.lens + UINT32_MODULUS && def.inds <= s.ind < def.inds + UINT32_MODULUS
  {
    Slot(if HoldsPointers(def.colType) then def.ptrs[index] else def.data + MulU32(def.bufsize, index),
         def.lens + MulU32(def.sizelen, index),
         def.inds + MulU32(INDICATOR_SIZE, index))
  }

  /** The slot of row `index` with the offsets computed at the width of the address. */
  function SlotOf(def: Define, index: nat): (s: Slot)
    requires HoldsPointers(def.colType) ==> index < |def.ptrs|
    ensures HoldsPointers(def.colType) ==> s.buf == def.ptrs[index]
    ensures !HoldsPointers(def.colType) ==> s.buf - def.data == def.bufsize * index
    ensures s.alen - def.lens == def.sizelen * index && s.ind - def.inds == INDICATOR_SIZE * index
  {
    Slot(if HoldsPointers(def.colType) then def.ptrs[index] else def.data + def.bufsize * index,
         def.lens + def.sizelen * index,
         def.inds + INDICATOR_SIZE * index)
  }

  /**
   * The slots of two different rows of a value buffer do not overlap:
   * each lies a whole value (length, indicator) away from the other.
   */
  lemma SlotsDoNotOverlap(def: Define, i: nat, j: nat)
    requires !HoldsPointers(def.colType) && i < j
    ensures SlotOf(def, j).buf - SlotOf(def, i).buf >= def.bufsize
    ensures SlotOf(def, j).alen - SlotOf(def, i).alen >= def.sizelen
    ensures SlotOf(def, j).ind - SlotOf(def, i).ind >= INDICATOR_SIZE
  {
    MulGrows(def.bufsize, i, j);
    MulGrows(def.sizelen, i, j);
    MulGrows(INDICATOR_SIZE, i, j);
  }

  lemma {:induction false} MulGrows(a: nat, i: nat, j: nat)
    requires i < j
    ensures a * j - a * i >= a
    decreases j - i
  {
    if j > i + 1 {
      MulGrows(a, i, j - 1);
    }
    assert a * j == a * (j - 1) + a;
  }

  /** While the products fit in 32 bits, the slot as written is the slot. */
  lemma SlotAsWrittenWhenSmall(def: Define, index: nat)
    requires HoldsPointers(def.colType) ==> index < |def.ptrs|
    requires def.bufsize * index < UINT32_MODULUS && def.sizelen * index < UINT32_MODULUS
    requires INDICATOR_SIZE * index < UINT32_MODULUS
    ensures SlotAsWritten(def, index) == SlotOf(def, index)
  {
  }

  /**
   * With 4096-byte values, row 1048576 of a value buffer wraps around to
   * the address of row 0 in the slot as written.
   */
  lemma SlotAsWrittenWraps(def: Define)
    requires def.colType == Scalar && def.bufsize == 4096
    ensures SlotAsWritten(def, 1048576).buf == SlotAsWritten(def, 0).buf
    ensures SlotOf(def, 1048576).buf != SlotOf(def, 0).buf
  {
    assert 4096 * 1048576 == UINT32_MODULUS;
  }

  /** What CallbackOutBind hands back: the slot and the piece mode (the return code pointer is NULL). */
  datatype OutReply = OutReply(slot: Slot, piece: int)

  /**
   * The resultset handles after the first row of an iteration: allocated
   * (zero-filled, `nbIters` of them) when missing and `allocOk`, and the
   * resultset of `iter` created when missing, the number of returned rows
   * is read (`rows`) and ResultsetCreate succeeds (`created`). The flag
   * is the call's status.
   */
  function PreparedResultsets(rsts: Option<seq<Option<Resultset>>>, nbIters: nat, iter: nat, allocOk: bool,
                              rows: Option<nat>, created: Option<Resultset>): (r: (Option<seq<Option<Resultset>>>, bool))
    requires rsts.Some? ==> iter < |rsts.value|
    requires iter < nbIters
    ensures r.0.Some? ==> iter < |r.0.value|
    ensures rsts.Some? && rsts.value[iter].Some? ==> r == (rsts, true)
    ensures r.0.None? <==> rsts.None? && !allocOk
  {
    var (arr, ok) := if rsts.Some? then (rsts.value, true) else (seq(nbIters, _ => None), allocOk);
    if !ok then (None, false)
    else if arr[iter].Some? then (Some(arr), true)
    else if rows.None? then (Some(arr), false)
    else if created.None? then (Some(arr), true)
    else (Some(arr[iter := Some(created.value.(rowCount := rows.value))]), true)
  }

  /** On the first row, a missing resultset is created with the number of rows returned. */
  lemma FirstRowCreatesResultset(rsts: Option<seq<Option<Resultset>>>, nbIters: nat, iter: nat, allocOk: bool,
                                 rows: Option<nat>, created: Option<Resultset>)
    requires rsts.Some? ==> iter < |rsts.value|
    requires iter < nbIters
    requires rsts.Some? || allocOk
    requires rsts.None? || rsts.value[iter].None?
    ensures var r := PreparedResultsets(rsts, nbIters, iter, allocOk, rows, created);
      r.0.Some? && (r.0.value[iter].Some? <==> rows.Some? && created.Some?)
      && (r.0.value[iter].Some? ==> r.0.value[iter].value == created.value.(rowCount := rows.value))
      && (r.1 <==> rows.Some?)
    ensures rsts.None? ==> |PreparedResultsets(rsts, nbIters, iter, allocOk, rows, created).0.value| == nbIters
  {
  }

  /**
   * CallbackOutBind (callback.c:100-205): after the bounds checks the
   * statement is marked executed; on the first row of an iteration the
   * number of resultsets becomes the number of iterations and the
   * resultsets are prepared; a missing resultset array or resultset is an
   * error; otherwise the slot of row `index` of the bind's define goes back
   * to the library. The slot offsets use SlotOf.
   */
  method OutBind(bnd: Bind?, iter: nat, index: nat, allocOk: bool, rows: Option<nat>, created: Option<Resultset>)
    returns (code: int, reply: Option<OutReply>)
    requires bnd != null ==> iter < bnd.stmt.nbIters
    requires bnd != null && bnd.stmt.rsts.Some? ==> |bnd.stmt.rsts.value| == bnd.stmt.nbIters
    requires bnd != null && bnd.stmt.rsts.Some? && iter < |bnd.stmt.rsts.value| && bnd.stmt.rsts.value[iter].Some? ==>
      HasSlot(bnd.stmt.rsts.value[iter].value, bnd.dynpos, index)
    requires bnd != null && created.Some? ==> HasSlot(created.value, bnd.dynpos, index)
    modifies if bnd == null then {} else {bnd.stmt}
    ensures bnd != null ==> bnd.stmt.nbIters == old(bnd.stmt.nbIters) && bnd.stmt.dynidx == old(bnd.stmt.dynidx)
    ensures bnd == null || iter >= bnd.count ==> code == OCI_ERROR && reply.None?
    ensures bnd != null && iter >= bnd.count ==> unchanged(bnd.stmt)
    ensures bnd != null && iter < bnd.count ==> bnd.stmt.status == old(bnd.stmt.status) | OCI_STMT_EXECUTED
    ensures bnd != null && iter < bnd.count && index == 0 ==>
      bnd.stmt.nbRs == bnd.stmt.nbIters && bnd.stmt.curRs == 0
      && bnd.stmt.rsts == PreparedResultsets(old(bnd.stmt.rsts), old(bnd.stmt.nbIters), iter, allocOk, rows, created).0
    ensures bnd != null && iter < bnd.count && index != 0 ==>
      bnd.stmt.nbRs == old(bnd.stmt.nbRs) && bnd.stmt.curRs == old(bnd.stmt.curRs) && bnd.stmt.rsts == old(bnd.stmt.rsts)
    ensures bnd != null && iter < bnd.count ==>
      (code == OCI_CONTINUE <==> bnd.stmt.rsts.Some? && bnd.stmt.rsts.value[iter].Some?
                                  && (index == 0 ==> PreparedResultsets(old(bnd.stmt.rsts), old(bnd.stmt.nbIters), iter, allocOk, rows, created).1))
    ensures code != OCI_CONTINUE ==> code == OCI_ERROR && reply.None?
    ensures code == OCI_CONTINUE ==>
      (bnd != null && bnd.stmt.rsts.Some? && bnd.stmt.rsts.value[iter].Some?
       && HasSlot(bnd.stmt.rsts.value[iter].value, bnd.dynpos, index)
       && reply == Some(OutReply(SlotOf(bnd.stmt.rsts.value[iter].value.defs[bnd.dynpos], index), OCI_ONE_PIECE)))
  {
    if bnd == null || iter >= bnd.count {
      return OCI_ERROR, None;
    }
    var stmt := bnd.stmt;
    stmt.status := stmt.status | OCI_STMT_EXECUTED;
    var status := true;
    if index == 0 {
      status := stmt.FirstRow(iter, allocOk, rows, created);
    }
    // a missing resultset array or resultset is an error
    var rs := if stmt.rsts.Some? then stmt.rsts.value[iter] else None;
    if status && rs.Some? {
      var def := rs.value.defs[bnd.dynpos];
      code, reply := OCI_CONTINUE, Some(OutReply(SlotOf(def, index), OCI_ONE_PIECE));
    } else {
      code, reply := OCI_ERROR, None;
    }
  }

  // ---------------------------------------------------------------------
  // Message notifications
  // ---------------------------------------------------------------------

  /** An `OCI_Dequeue` with a notification callback; `notified` counts its calls. */
  class Dequeue {
    var notified: nat

    constructor ()
      ensures notified == 0
    {
      notified := 0;
    }
  }

  /** CallbackNotifyMessages (callback.c:211-234): a NULL context is a success with no effect. */
  method NotifyMessages(dequeue: Dequeue?) returns (code: int)
    modifies if dequeue == null then {} else {dequeue}
    ensures code == OCI_SUCCESS
    ensures dequeue != null ==> dequeue.notified == old(dequeue.notified) + 1
  {
    if dequeue == null {
      return OCI_SUCCESS;
    }
    dequeue.notified := dequeue.notified + 1;
    return OCI_SUCCESS;
  }

  // ---------------------------------------------------------------------
  // Change notifications
  // ---------------------------------------------------------------------

  /** The subscription flags (OCI_CNT_OBJECTS, OCI_CNT_ROWS, OCI_CNT_DATABASES). */
  const OCI_CNT_OBJECTS: bv32 := 1
  const OCI_CNT_ROWS: bv32 := 2
  const OCI_CNT_DATABASES: bv32 := 4

  /** The notification types of the change descriptor. */
  const OCI_EVENT_NONE: int := 0
  const OCI_EVENT_STARTUP: int := 1
  const OCI_EVENT_SHUTDOWN: int := 2
  const OCI_EVENT_SHUTDOWN_ANY: int := 3
  const OCI_EVENT_DROP_DB: int := 4
  const OCI_EVENT_DEREG: int := 5
  const OCI_EVENT_OBJCHANGE: int := 6

  /** The table operation bits that are not operations (OCI_OPCODE_ALLROWS, OCI_OPCODE_ALLOPS). */
  const OCI_OPCODE_ALLROWS: bv32 := 1
  const OCI_OPCODE_ALLOPS: bv32 := 0

  /** The event a subscription hands to its handler. */
  datatype Event = Event(evType: int, op: bv32, dbname: string, objname: string, rowid: string)

  /** The event after EventReset. */
  const RESET_EVENT: Event := Event(0, 0, "", "", "")

  /** What the change descriptor holds: a changed row, a changed table, the whole notification. */
  datatype RowChange = RowChange(rowid: string, opflags: bv32)
  datatype TableChange = TableChange(name: string, opflags: bv32, rows: Option<seq<RowChange>>)
  datatype ChangeDescriptor = ChangeDescriptor(dbname: string, nfyType: int, tables: Option<seq<TableChange>>)

  /** The event type a subscription of flags `subType` keeps of a notification of type `nfyType`; 0 drops it. */
  function KeptType(subType: bv32, nfyType: int): (t: int)
    ensures t == 0 || t == nfyType
  {
    if nfyType == OCI_EVENT_STARTUP || nfyType == OCI_EVENT_SHUTDOWN || nfyType == OCI_EVENT_SHUTDOWN_ANY then
      (if subType & OCI_CNT_DATABASES != 0 then nfyType else 0)
    else if nfyType == OCI_EVENT_DEREG then nfyType
    else if nfyType == OCI_EVENT_OBJCHANGE then
      (if subType & OCI_CNT_OBJECTS != 0 then nfyType else 0)
    else 0
  }

  /**
   * The filter (callback.c:277-306): database events reach the handler
   * only with OCI_CNT_DATABASES, deregistration always, object changes
   * only with OCI_CNT_OBJECTS, and nothing else.
   */
  lemma EventFilter(subType: bv32, nfyType: int)
    ensures nfyType in {OCI_EVENT_STARTUP, OCI_EVENT_SHUTDOWN, OCI_EVENT_SHUTDOWN_ANY} ==>
      (KeptType(subType, nfyType) != 0 <==> subType & OCI_CNT_DATABASES != 0)
    ensures KeptType(subType, OCI_EVENT_DEREG) == OCI_EVENT_DEREG
    ensures KeptType(subType, OCI_EVENT_OBJCHANGE) != 0 <==> subType & OCI_CNT_OBJECTS != 0
    ensures nfyType !in {OCI_EVENT_STARTUP, OCI_EVENT_SHUTDOWN, OCI_EVENT_SHUTDOWN_ANY, OCI_EVENT_DEREG, OCI_EVENT_OBJCHANGE}
      ==> KeptType(subType, nfyType) == 0
  {
  }

  /** A table's operation flags with the ALLROWS and ALLOPS bits cleared and every other bit kept. */
  function MaskOp(op: bv32): (r: bv32)
    ensures r & (OCI_OPCODE_ALLROWS | OCI_OPCODE_ALLOPS) == 0
    ensures r | OCI_OPCODE_ALLROWS | OCI_OPCODE_ALLOPS == op | OCI_OPCODE_ALLROWS | OCI_OPCODE_ALLOPS
  {
    op & !OCI_OPCODE_ALLROWS & !OCI_OPCODE_ALLOPS
  }

  /** The event handed to the handler for a table: its name, its masked operation and no rowid. */
  function TableEvent(dbname: string, t: TableChange): Event
  {
    Event(OCI_EVENT_OBJCHANGE, MaskOp(t.opflags), dbname, t.name, "")
  }

  /** The event handed to the handler for a row of a table. */
  function RowEvent(e: Event, r: RowChange): Event
  {
    e.(rowid := r.rowid, op := r.opflags)
  }

  /** The handler calls for the rows of a table, in order. */
  function RowCalls(e: Event, rows: seq<RowChange>): seq<Event>
  {
    if |rows| == 0 then [] else RowCalls(e, rows[..|rows| - 1]) + [RowEvent(e, rows[|rows| - 1])]
  }

  /** A table's rows are expanded only in row mode and when it has some. */
  predicate ExpandsRows(rowsMode: bool, t: TableChange)
  {
    rowsMode && t.rows.Some? && |t.rows.value| > 0
  }

  /** The handler calls for one table: one per row when rows are expanded, otherwise one. */
  function TableCalls(dbname: string, rowsMode: bool, t: TableChange): seq<Event>
  {
    if ExpandsRows(rowsMode, t) then RowCalls(TableEvent(dbname, t), t.rows.value) else [TableEvent(dbname, t)]
  }

  /** The handler calls for the tables, in order. */
  function TablesCalls(dbname: string, rowsMode: bool, tables: seq<TableChange>): seq<Event>
  {
    if |tables| == 0 then []
    else TablesCalls(dbname, rowsMode, tables[..|tables| - 1]) + TableCalls(dbname, rowsMode, tables[|tables| - 1])
  }

  /** The handler calls for a notification. */
  function ChangeCalls(subType: bv32, desc: ChangeDescriptor): seq<Event>
  {
    var t := KeptType(subType, desc.nfyType);
    if t == OCI_EVENT_OBJCHANGE then
      (if desc.tables.Some? then TablesCalls(desc.dbname, subType & OCI_CNT_ROWS != 0, desc.tables.value) else [])
    else if t > 0 then [RESET_EVENT.(evType := t, dbname := desc.dbname)]
    else []
  }

  /** One call per row, each with the row's rowid and operation. */
  lemma {:induction false} RowCallsAreRows(e: Event, rows: seq<RowChange>)
    ensures |RowCalls(e, rows)| == |rows|
    ensures forall k :: 0 <= k < |rows| ==> RowCalls(e, rows)[k] == RowEvent(e, rows[k])
  {
    if |rows| > 0 {
      RowCallsAreRows(e, rows[..|rows| - 1]);
    }
  }

  /**
   * Without OCI_CNT_ROWS the handler runs exactly once per table, in
   * order, with the table's name and masked operation.
   */
  lemma {:induction false} OneCallPerTable(dbname: string, tables: seq<TableChange>)
    ensures |TablesCalls(dbname, false, tables)| == |tables|
    ensures forall k :: 0 <= k < |tables| ==> TablesCalls(dbname, false, tables)[k] == TableEvent(dbname, tables[k])
  {
    if |tables| > 0 {
      OneCallPerTable(dbname, tables[..|tables| - 1]);
    }
  }

  /** With OCI_CNT_ROWS the handler runs once per changed row of a table that has rows, and once otherwise. */
  lemma RowModeCallsPerTable(dbname: string, t: TableChange)
    ensures |TableCalls(dbname, true, t)| == if ExpandsRows(true, t) then |t.rows.value| else 1
  {
    if ExpandsRows(true, t) {
      RowCallsAreRows(TableEvent(dbname, t), t.rows.value);
    }
  }

  /** Every table is reported at least once, and every report is an object change of the notifying database. */
  lemma {:induction false} TablesAllReported(dbname: string, rowsMode: bool, tables: seq<TableChange>)
    ensures |TablesCalls(dbname, rowsMode, tables)| >= |tables|
    ensures forall e :: e in TablesCalls(dbname, rowsMode, tables) ==> e.evType == OCI_EVENT_OBJCHANGE && e.dbname == dbname
  {
    if |tables| > 0 {
      var t := tables[|tables| - 1];
      TablesAllReported(dbname, rowsMode, tables[..|tables| - 1]);
      if ExpandsRows(rowsMode, t) {
        RowCallsAreRows(TableEvent(dbname, t), t.rows.value);
      }
    }
  }

  /** Any other kept event reaches the handler exactly once, and a dropped one never (callback.c:419-422). */
  lemma NonObjectEventCalls(subType: bv32, desc: ChangeDescriptor)
    requires KeptType(subType, desc.nfyType) != OCI_EVENT_OBJCHANGE
    ensures |ChangeCalls(subType, desc)| == if KeptType(subType, desc.nfyType) > 0 then 1 else 0
    ensures forall e :: e in ChangeCalls(subType, desc) ==> e.evType == desc.nfyType && e.dbname == desc.dbname
  {
  }

  /** An `OCI_Subscription`: its flags, its current event and the calls its handler received. */
  class Subscription {
    const subType: bv32
    var event: Event
    var calls: seq<Event>

    constructor (subType: bv32)
      ensures this.subType == subType && event == RESET_EVENT && calls == []
    {
      this.subType := subType;
      event, calls := RESET_EVENT, [];
    }
  }

  /**
   * CallbackNotifyChanges (callback.c:240-434): a NULL context is a
   * success with no effect; otherwise the event is reset and filled, and
   * the handler is called as ChangeCalls says.
   */
  method NotifyChanges(sub: Subscription?, desc: ChangeDescriptor) returns (code: int)
    modifies if sub == null then {} else {sub}
    ensures code == OCI_SUCCESS
    ensures sub != null ==> sub.calls == old(sub.calls) + ChangeCalls(sub.subType, desc)
    ensures sub != null ==> sub.event.evType == KeptType(sub.subType, desc.nfyType) && sub.event.dbname == desc.dbname
  {
    if sub == null {
      return OCI_SUCCESS;
    }
    sub.event := RESET_EVENT;
    sub.event := sub.event.(dbname := desc.dbname);
    var nfyType := desc.nfyType;
    if nfyType == OCI_EVENT_STARTUP || nfyType == OCI_EVENT_SHUTDOWN || nfyType == OCI_EVENT_SHUTDOWN_ANY {
      if sub.subType & OCI_CNT_DATABASES != 0 {
        sub.event := sub.event.(evType := nfyType);
      }
    } else if nfyType == OCI_EVENT_DEREG {
      sub.event := sub.event.(evType := nfyType);
    } else if nfyType == OCI_EVENT_OBJCHANGE {
      if sub.subType & OCI_CNT_OBJECTS != 0 {
        sub.event := sub.event.(evType := nfyType);
      }
    }
    if sub.event.evType == OCI_EVENT_OBJCHANGE {
      if desc.tables.Some? {
        var tables := desc.tables.value;
        var rowsMode := sub.subType & OCI_CNT_ROWS != 0;
        var i := 0;
        while i < |tables|
          invariant 0 <= i <= |tables|
          invariant sub.calls == old(sub.calls) + TablesCalls(desc.dbname, rowsMode, tables[..i])
          invariant sub.event.evType == OCI_EVENT_OBJCHANGE && sub.event.dbname == desc.dbname
        {
          NotifyTable(sub, tables[i], rowsMode);
          assert tables[..i + 1][..i] == tables[..i];
          assert TablesCalls(desc.dbname, rowsMode, tables[..i + 1])
              == TablesCalls(desc.dbname, rowsMode, tables[..i]) + TableCalls(desc.dbname, rowsMode, tables[i]);
          i := i + 1;
        }
        assert tables[..|tables|] == tables;
      }
    } else if sub.event.evType > 0 {
      sub.calls := sub.calls + [sub.event];
    }
    return OCI_SUCCESS;
  }

  /**
   * One table of an object change (callback.c:330-416): the event takes
   * the table's name and masked operation; in row mode each changed row is
   * reported with its rowid and operation, and a table with no row
   * reported is reported once.
   */
  method NotifyTable(sub: Subscription, t: TableChange, rowsMode: bool)
    requires sub.event.evType == OCI_EVENT_OBJCHANGE
    modifies sub
    ensures sub.calls == old(sub.calls) + TableCalls(sub.event.dbname, rowsMode, t)
    ensures sub.event.evType == OCI_EVENT_OBJCHANGE && sub.event.dbname == old(sub.event.dbname)
  {
    var op := MaskOp(t.opflags);
    sub.event := sub.event.(objname := t.name, rowid := "", op := op);
    if ExpandsRows(rowsMode, t) {
      NotifyRows(sub, t.rows.value);
    } else {
      sub.calls := sub.calls + [sub.event];
    }
  }

  /**
   * The changed rows of a table in row mode (callback.c:364-410): each is
   * reported with the table's event, its rowid and its operation.
   */
  method NotifyRows(sub: Subscription, rows: seq<RowChange>)
    modifies sub
    ensures sub.calls == old(sub.calls) + RowCalls(old(sub.event), rows)
    ensures sub.event.evType == old(sub.event.evType) && sub.event.dbname == old(sub.event.dbname)
  {
    ghost var e := sub.event;
    var j := 0;
    while j < |rows|
      invariant 0 <= j <= |rows|
      invariant sub.calls == old(sub.calls) + RowCalls(e, rows[..j])
      invariant sub.event.evType == e.evType && sub.event.dbname == e.dbname && sub.event.objname == e.objname
    {
      sub.event := sub.event.(rowid := "");
      sub.event := sub.event.(rowid := rows[j].rowid);
      sub.event := sub.event.(op := rows[j].opflags);
      assert sub.event == RowEvent(e, rows[j]);
      sub.calls := sub.calls + [sub.event];
      assert rows[..j + 1][..j] == rows[..j];
      j := j + 1;
    }
    assert rows[..|rows|] == rows;
  }

  // ---------------------------------------------------------------------
  // Failover
  // ---------------------------------------------------------------------

  /** The failover handler of a connection, when one is set. */
  datatype FailoverConnection = FailoverConnection(tafHandler: Option<(nat, nat) -> int>)

  /**
   * CallbackFailOver (callback.c:440-462): the connection's failover
   * handler decides, and without a connection or a handler failover goes
   * on (OCI_FOC_OK).
   */
  function FailOver(cn: Option<FailoverConnection>, foType: nat, foEvent: nat): (r: int)
    ensures cn.Some? && cn.value.tafHandler.Some? ==> r == cn.value.tafHandler.value(foType, foEvent)
    ensures cn.None? || cn.value.tafHandler.None? ==> r == OCI_FOC_OK
  {
    if cn.Some? && cn.value.tafHandler.Some? then cn.value.tafHandler.value(foType, foEvent) else OCI_FOC_OK
  }

  // ---------------------------------------------------------------------
  // High-availability events
  // ---------------------------------------------------------------------

  /** A server the HA event reports: its handle (never NULL), event time, status and source. */
  datatype HaServer = HaServer(srvhp: int, dthp: int, status: nat, source: nat)

  /** A connection of the environment, by its server handle. */
  datatype HaConnection = HaConnection(svr: int)

  /** What the HA handler is told: the connection (by position in the list), the server, source and status. */
  datatype HaNotice = HaNotice(con: nat, srvhp: int, source: nat, event: nat)

  /** One call of the HA handler: the notice and the timestamp it received. */
  datatype HaCall = HaCall(notice: HaNotice, time: Timestamps.TimestampStruct?)

  /** ProcHAEventInvoke's test: the connection exists and is on the event's server. */
  predicate OnServer(con: Option<HaConnection>, s: HaServer)
  {
    con.Some? && con.value.svr == s.srvhp
  }

  /** The notices for server `s`, one per connection on it, in list order. */
  function ServerNotices(s: HaServer, cons: seq<Option<HaConnection>>): seq<HaNotice>
  {
    if |cons| == 0 then []
    else
      ServerNotices(s, cons[..|cons| - 1])
      + (if OnServer(cons[|cons| - 1], s) then [HaNotice(|cons| - 1, s.srvhp, s.source, s.status)] else [])
  }

  /** The notices for every server of the event, server by server. */
  function EventNotices(servers: seq<HaServer>, cons: seq<Option<HaConnection>>): seq<HaNotice>
  {
    if |servers| == 0 then []
    else EventNotices(servers[..|servers| - 1], cons) + ServerNotices(servers[|servers| - 1], cons)
  }

  /** The notices of a sequence of handler calls. */
  function NoticesOf(calls: seq<HaCall>): seq<HaNotice>
  {
    if |calls| == 0 then [] else NoticesOf(calls[..|calls| - 1]) + [calls[|calls| - 1].notice]
  }

  lemma {:induction false} NoticesOfAppend(calls: seq<HaCall>, c: HaCall)
    ensures NoticesOf(calls + [c]) == NoticesOf(calls) + [c.notice]
  {
    assert (calls + [c])[..|calls|] == calls;
  }

  /**
   * A connection is notified for a server exactly when it is on that
   * server (callback.c:476-481), with the server's source and status.
   */
  lemma {:induction false} ServerNoticesExact(s: HaServer, cons: seq<Option<HaConnection>>, k: nat)
    ensures HaNotice(k, s.srvhp, s.source, s.status) in ServerNotices(s, cons) <==> k < |cons| && OnServer(cons[k], s)
    ensures forall n :: n in ServerNotices(s, cons) ==>
      (n.con < |cons| && OnServer(cons[n.con], s) && n == HaNotice(n.con, s.srvhp, s.source, s.status))
  {
    if |cons| > 0 {
      var init := cons[..|cons| - 1];
      ServerNoticesExact(s, init, k);
      assert forall i :: 0 <= i < |init| ==> init[i] == cons[i];
    }
  }

  /**
   * The tag ProcHAEventInvoke gives its timestamp before releasing it, as
   * intended: a fetched time (FETCHED_CLEAN) is marked FETCHED_DIRTY so that
   * TimestampFree lets go of the struct and leaves the descriptor to the
   * client library; any other tag is kept.
   */
  function HandOverTag(h: HState): HState
  {
    if h == FetchedClean then FetchedDirty else h
  }

  /** The tag as written (callback.c:485): always FETCHED_DIRTY. */
  function HandOverTagAsWritten(h: HState): HState
  {
    FetchedDirty
  }

  /**
   * Whatever the event time, releasing the timestamp ProcHAEventInvoke
   * initialised with HandOverTag frees the struct and exactly the
   * descriptor the initialisation allocated.
   */
  lemma HandOverReleasesAll(dthp: int, desc: Option<int>)
    requires Timestamps.InitTag(Unset, dthp, desc).Some?
    ensures var tag := HandOverTag(Timestamps.InitTag(Unset, dthp, desc).value);
      && Timestamps.FreesStruct(tag)
      && Timestamps.FreedDescriptor(tag, Timestamps.InitHandle(Unset, dthp, desc))
         == if dthp == 0 then multiset{desc.value} else multiset{}
  {
  }

  /**
   * As written, a timestamp initialised without an event time owns a new
   * descriptor, and the FETCHED_DIRTY tag makes TimestampFree skip it.
   */
  lemma HandOverAsWrittenLeaks(d: int)
    ensures Timestamps.AllocatesDescriptor(Unset, 0)
    ensures Timestamps.InitHandle(Unset, 0, Some(d)) == d
    ensures Timestamps.FreedDescriptor(HandOverTagAsWritten(Timestamps.InitTag(Unset, 0, Some(d)).value), d) == multiset{}
  {
  }

  /** The HA state of the environment: the timestamps it allocates and the calls of its HA handler. */
  class HaEnvironment {
    const timestamps: Timestamps.TimestampEnv
    var calls: seq<HaCall>

    constructor (timestamps: Timestamps.TimestampEnv)
      ensures this.timestamps == timestamps && calls == []
    {
      this.timestamps := timestamps;
      calls := [];
    }

    /**
     * ProcHAEventInvoke (callback.c:468-487): for a connection on the
     * event's server, the event time is wrapped in a new timestamp
     * (allocation outcomes `structOk` and `desc`), the handler is called
     * with it, and the timestamp is then released with the tag HandOverTag
     * gives it, so the call leaves no struct and no descriptor behind.
     */
    method Invoke(k: nat, con: Option<HaConnection>, s: HaServer, structOk: bool, desc: Option<int>)
      modifies this, timestamps
      ensures NoticesOf(calls) ==
        old(NoticesOf(calls)) + if OnServer(con, s) then [HaNotice(k, s.srvhp, s.source, s.status)] else []
      ensures timestamps.structs == old(timestamps.structs) && timestamps.descriptors == old(timestamps.descriptors)
    {
      if OnServer(con, s) {
        var tmsp := timestamps.Initialize(0, null, s.dthp, Timestamps.OCI_TIMESTAMP, structOk, desc);
        NoticesOfAppend(calls, HaCall(HaNotice(k, s.srvhp, s.source, s.status), tmsp));
        calls := calls + [HaCall(HaNotice(k, s.srvhp, s.source, s.status), tmsp)];
        if tmsp != null {
          HandOverReleasesAll(s.dthp, desc);
          ghost var owned := timestamps.descriptors;
          tmsp.hstate := HandOverTag(tmsp.hstate);
          var _ := timestamps.Free(tmsp);
          assert timestamps.descriptors == owned - if s.dthp == 0 then multiset{desc.value} else multiset{};
          Timestamps.AddedThenRemoved(old(timestamps.structs), tmsp);
        }
      }
    }

    /**
     * ProcHAEventInvoke as written (callback.c:483-487): the timestamp is
     * always retagged FETCHED_DIRTY before TimestampFree, so when the event
     * carried no time (`dthp` NULL) the descriptor TimestampInitialize
     * allocated is never released.
     */
    method InvokeAsWritten(k: nat, con: Option<HaConnection>, s: HaServer, structOk: bool, desc: Option<int>)
      modifies this, timestamps
      ensures NoticesOf(calls) ==
        old(NoticesOf(calls)) + if OnServer(con, s) then [HaNotice(k, s.srvhp, s.source, s.status)] else []
      ensures timestamps.structs == old(timestamps.structs)
      ensures timestamps.descriptors == old(timestamps.descriptors)
        + if OnServer(con, s) && s.dthp == 0 && structOk && desc.Some? then multiset{desc.value} else multiset{}
    {
      if OnServer(con, s) {
        var tmsp := timestamps.Initialize(0, null, s.dthp, Timestamps.OCI_TIMESTAMP, structOk, desc);
        NoticesOfAppend(calls, HaCall(HaNotice(k, s.srvhp, s.source, s.status), tmsp));
        calls := calls + [HaCall(HaNotice(k, s.srvhp, s.source, s.status), tmsp)];
        if tmsp != null {
          tmsp.hstate := HandOverTagAsWritten(tmsp.hstate);
          var _ := timestamps.Free(tmsp);
          Timestamps.AddedThenRemoved(old(timestamps.structs), tmsp);
        }
      }
    }

    /** ListForEachWithParam over the connections with ProcHAEventInvoke, for one server. */
    method InvokeAll(cons: seq<Option<HaConnection>>, s: HaServer, structOk: bool, desc: Option<int>)
      modifies this, timestamps
      ensures NoticesOf(calls) == old(NoticesOf(calls)) + ServerNotices(s, cons)
      ensures timestamps.structs == old(timestamps.structs) && timestamps.descriptors == old(timestamps.descriptors)
    {
      var k := 0;
      while k < |cons|
        invariant 0 <= k <= |cons|
        invariant NoticesOf(calls) == old(NoticesOf(calls)) + ServerNotices(s, cons[..k])
        invariant timestamps.structs == old(timestamps.structs) && timestamps.descriptors == old(timestamps.descriptors)
      {
        Invoke(k, cons[k], s, structOk, desc);
        assert cons[..k + 1][..k] == cons[..k];
        k := k + 1;
      }
      assert cons[..|cons|] == cons;
    }

    /**
     * CallbackHAEvent (callback.c:494-554): nothing without an HA handler or
     * before client version 10.2; otherwise every connection on each
     * reported server is notified, server by server. The allocation
     * outcomes are the same for every timestamp.
     */
    method HAEvent(handlerSet: bool, runtimeAtLeast10g2: bool, servers: seq<HaServer>,
                   cons: seq<Option<HaConnection>>, structOk: bool, desc: Option<int>)
      modifies this, timestamps
      ensures NoticesOf(calls) ==
        old(NoticesOf(calls)) + if handlerSet && runtimeAtLeast10g2 then EventNotices(servers, cons) else []
      ensures timestamps.structs == old(timestamps.structs) && timestamps.descriptors == old(timestamps.descriptors)
    {
      if !handlerSet || !runtimeAtLeast10g2 {
        return;
      }
      var i := 0;
      while i < |servers|
        invariant 0 <= i <= |servers|
        invariant NoticesOf(calls) == old(NoticesOf(calls)) + EventNotices(servers[..i], cons)
        invariant timestamps.structs == old(timestamps.structs) && timestamps.descriptors == old(timestamps.descriptors)
      {
        InvokeAll(cons, servers[i], structOk, desc);
        assert servers[..i + 1][..i] == servers[..i];
        assert EventNotices(servers[..i + 1], cons) == EventNotices(servers[..i], cons) + ServerNotices(servers[i], cons);
        i := i + 1;
      }
      assert servers[..|servers|] == servers;
    }
  }
}
