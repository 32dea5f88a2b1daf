# OCILIB ownership core, modelled in Dafny

OCILIB wraps Oracle's client library (OCI) in a C API and a C++ handle
layer. This project models the parts of it that decide who allocates and
who frees native resources, and proves what they promise:

- **Bulk element arrays** (`src/array.c`, module `Arrays`, `array.dfy`):
  an `OCI_Array` record owns three blocks. `mem_handle` holds the native
  handle slots, `mem_struct` the wrapper structs and `tab_obj` an index
  into the wrappers. Records live in the process-wide registry
  `Env.arrs`. The model covers creation, per-element initialisation
  tagged ALLOCATED_ARRAY, teardown in a fixed order, and lookup by either
  client-visible block. The registry invariant says no duplicates, no
  freed record and no shared block.
- **Handle ownership graph** (`include/ocilib_core.hpp`, module
  `Handles`, `handles.dfy`): `HandleHolder` objects share a
  reference-counted `SmartHandle` control block. Control blocks form a
  parent/child tree along which a release cascades. The graph is an arena
  of blocks, holder links and a log of destroyed blocks. The ownership
  invariant (`GraphValid`) is kept by Acquire, Release and SetExtraInfos.
  A cascade destroys everything below a released block, once.
- **Value types of the C++ layer** (module `CoreValues`,
  `core_values.dfy`): `Enum`, `Flags` over a 32-bit `unsigned int`, and
  the `ConcurrentPool` map.
- **Timestamp ownership** (`src/timestamp.c`, module `Timestamps`,
  `timestamp.dfy`): the `hstate` tag TimestampInitialize chooses decides
  what TimestampFree releases. The model also covers the type check, the
  TIMESTAMP_TZ temporaries of Assign, IntervalAdd, IntervalSub and
  SysTimestamp, which must be freed, the bulk timestamp arrays, and the
  `struct tm` conversions of ToCTime/FromCTime, including what `mktime`
  does to the struct ToCTime hands back.
- **Callback decisions** (`src/callback.c`, module `Callbacks`,
  `callback.dfy`):
  - in-bind indicator reset and bind position numbering;
  - out-bind resultset preparation and slot arithmetic;
  - change-notification filtering and the handler calls it makes;
  - failover, the HA event walk, and the timestamp each HA call wraps its
    time in.

Calls into the Oracle client library are oracles: they are parameters
saying whether each call succeeds and what it returns. The same holds for
the attribute reads, the allocation outcomes and `localtime`; `mktime` is
a function parameter giving both the struct it normalises in place and
its return value.
`OciTypes` (`ocitypes.dfy`) holds the shared `Option`, the `hstate`
values and 32-bit unsigned multiplication.

## Model

| member | source | states |
|---|---|---|
| Arrays.ElementHandle | src/array.c:84-95 | element i's handle is its own slot of `mem_handle` exactly for embedded kinds (datetime, OCI number), otherwise the pointer stored in slot i |
| Arrays.InitElementShape | src/array.c:97-174 | after one iteration the wrapper is tagged ALLOCATED_ARRAY. `tab_obj[i]` is NULL exactly when the initialiser failed, and is otherwise wrapper i. An embedded value's wrapper points at its own slot. For ARRAY_INIT kinds the handle slot takes the handle of the object the index holds |
| Arrays.OciArray.constructor | src/array.c:247-255 | the record holds the connection, kinds, sizes, count and handle type it was created with, and its three blocks |
| Arrays.ArrayFindAny | src/array.c:46-51 | a non-NULL match names one of the array's live blocks (its index or its wrapper block) |
| Arrays.ArrayFindObjects | src/array.c:57-66 | a match names the index block, which ArrayFindAny accepts too |
| Arrays.FindObjectsImpliesFindAny | src/array.c:46-67 | whatever ArrayFindObjects matches, ArrayFindAny matches. The converse fails for the `mem_struct` block |
| Arrays.DisposeFreesEachElementAndThreeBlocks | src/array.c:192-213 | disposing a library-object array whose blocks exist frees each element exactly once and exactly three blocks. Other kinds free no element |
| Arrays.FirstMatchSpec | src/array.c:304 | the registry lookup returns the first record ArrayFindAny accepts, and -1 exactly when none does |
| Arrays.ListRemove | src/array.c:308 | removal reports true iff the record is listed. Then the list is one shorter, has lost exactly one copy of the record (as multisets) and keeps the records before its first occurrence in place. Otherwise the list is unchanged |
| Arrays.ArrayInitialize | src/array.c:79-178 | every slot is initialised: index i points at wrapper i, which is tagged ALLOCATED_ARRAY. The result is true iff no initialiser failed (corrected, see Findings) |
| Arrays.ArrayInitializeAsWritten | src/array.c:79-178 | as written the routine returns TRUE exactly when no ARRAY_INIT initialiser returned NULL. Otherwise it dereferences the first such NULL |
| Arrays.InitializeAsWrittenNeverFails | src/array.c:37-39 | a failing date initialiser still yields TRUE, and a failing LOB initialiser is dereferenced, although both are failures |
| Arrays.DisposeAfterTabFailure | src/array.c:192-209 | when the `tab_obj` allocation of a LOB array of 5 (descriptor type OCI_DTYPE_LOB) fails, the record is disposed. As written, disposal then indexes the NULL `tab_obj`. The modelled disposal skips the elements and frees no block, but still hands the 5 never-allocated descriptors back through the NULL `mem_handle`, as array.c:204-209 does |
| Arrays.RegistryAfterFailedCreateAsWritten | src/array.c:285-289 | after a failed create, the freed record is still the last entry of the registry |
| Arrays.FailedCreateAsWrittenBreaksRegistry | src/array.c:284-289 | that leftover entry breaks the registry invariant |
| Arrays.AppendKeepsValid | src/array.c:241 | registering a record whose blocks are new keeps the registry invariant |
| Arrays.RemoveKeepsValid | src/array.c:308-310 | unregistering and freeing a record keeps the invariant, and the record no longer appears |
| Arrays.FreeUnregisteredKeepsValid | src/array.c:287-288 | freeing a record that is not registered keeps the invariant |
| Arrays.RemoveAppended | src/array.c:241 | removing a just-appended record gives the registry back |
| Arrays.LookupFindsOwner | src/array.c:46-53 | a registered array is found from `tab_obj` or `mem_struct`, and no other array answers for them |
| Arrays.Registry.ListFind | src/array.c:304 | the scan returns the first record ArrayFindAny accepts, or -1 |
| Arrays.Registry.ArrayDispose | src/array.c:185-216 | NULL gives false and changes nothing. Otherwise the result is true, the log gains the element frees, the descriptor array and the existing blocks (`mem_handle`, `mem_struct`, `tab_obj`), and exactly those blocks and descriptors are released |
| Arrays.Registry.ArrayCreate | src/array.c:222-292 | the result is non-NULL iff every allocation and the initialisation succeeded; the record is then appended with its blocks and descriptors. On failure the record is disposed, freed and left out of the registry. The invariant is kept |
| Arrays.Registry.Discard | src/array.c:285-289 | the failure path disposes and frees the record and leaves the registry as it was |
| Arrays.Registry.ArrayFreeFromHandles | src/array.c:298-314 | with no matching record it returns false and changes nothing. Otherwise the first match is removed from the registry, disposed and freed, and the result is true |
| Arrays.DisposeEventsFor | src/array.c:192-213 | the calls ArrayDispose makes are the element frees, the descriptor array and FREE of each existing block, in that order |
| Arrays.ElementFrees | src/array.c:196-199 | one FreeObjectFromType per index entry, in index order |
| Arrays.NewRecord | src/array.c:245-280 | the blocks exist exactly as their allocations succeeded. On success every element is initialised as above. On failure the index holds what disposal will find |
| Arrays.AllocateBlocks | src/array.c:259-275 | each block is allocated only while every earlier allocation succeeded, `tab_obj` only for library-object kinds, and the descriptors only with a handle type. Fresh blocks are zero-filled |
| Arrays.AllocBlock | src/array.c:261-265 | a block of n zeroed entries, or NULL when the allocation fails |
| Arrays.StoreDescriptors | src/array.c:269-275 | the allocated descriptors land in the handle slots |
| Arrays.FailedCreateEventsOf | src/array.c:285-288 | what disposal frees from a record whose creation failed, given the allocation outcomes |
| Handles.NoDescendantSurvives | include/ocilib_core.hpp:297-299 | once a block is gone and the survivors kept their parent links, nothing that lay below it survives |
| Handles.NullIffNoHandle | include/ocilib_core.hpp:252-256 | in a valid graph a holder is NULL exactly when it reaches no native handle |
| Handles.DetachBlock | include/ocilib_core.hpp:298-299 | destroying a block removes exactly that block from the graph |
| Handles.DetachKeepsValid | include/ocilib_core.hpp:283-299 | destroying a live block, NULLing its holders and logging it keeps the ownership invariant |
| Handles.DetachTree | include/ocilib_core.hpp:297-299 | detaching a block keeps parent and child links consistent |
| Handles.JoinKeepsValid | include/ocilib_core.hpp:285 | a holder joining a block's holders keeps the invariant |
| Handles.LeaveKeepsValid | include/ocilib_core.hpp:286 | a holder that is not the last leaving keeps the invariant |
| Handles.NewBlockKeepsValid | include/ocilib_core.hpp:282 | a new block held by one holder, as a child of a live parent, keeps the invariant |
| Handles.ExtraKeepsValid | include/ocilib_core.hpp:293 | setting the extra-info payload keeps the invariant |
| Handles.DetachCascaded | include/ocilib_core.hpp:296-299 | the first step of destroying a block logs it with its handle and free function, orphans exactly its children, and makes NULL only the holders of that block |
| Handles.CascadedTrans | include/ocilib_core.hpp:297 | two cascades in a row compose |
| Handles.HandleGraph.constructor | include/ocilib_core.hpp:301-309 | an empty graph is valid |
| Handles.HandleGraph.IsNull | include/ocilib_core.hpp:252-254 | a NULL holder converts to a NULL native handle (the converse, for a valid graph, is NullIffNoHandle) |
| Handles.HandleGraph.IsLastHolder | include/ocilib_core.hpp:295 | true exactly when no holder but the given one is attached to the block |
| Handles.HandleGraph.SetExtraInfos | include/ocilib_core.hpp:292-293 | GetExtraInfos then returns the value just set, and nothing but that payload changes |
| Handles.ReleaseKeepsPayloads | include/ocilib_core.hpp:288-293 | a release leaves the payload of every block it does not destroy as it was, so GetExtraInfos keeps returning the value last set |
| Handles.HandleGraph.AcquireHandle | include/ocilib_core.hpp:273 | the holder first lets go of its block, with exactly the effect of Release (ReleasedBy). For a non-NULL handle the graph after that release then gains one new block, held by this holder alone, with that handle and free function, registered among the parent's children. For NULL the graph is the released one |
| Handles.HandleGraph.AcquireHolder | include/ocilib_core.hpp:274 | when both holders already share a block nothing changes. Otherwise the holder lets go of its block with exactly the effect of Release, then joins the holders of the other's block, or stays NULL when the other is NULL |
| Handles.HandleGraph.Join | include/ocilib_core.hpp:285 | a NULL holder joins a live block's holders list and now points to it. Nothing else changes, and the invariant is kept |
| Handles.HandleGraph.Attach | include/ocilib_core.hpp:282 | a new block with a fresh id, held by the holder alone and linked under its parent. The invariant is kept |
| Handles.HandleGraph.Release | include/ocilib_core.hpp:275 | the holder becomes NULL. A NULL holder changes nothing. If it was not the last holder, only it leaves the holders list and nothing is destroyed. If it was the last, the block and exactly the blocks below it are destroyed and logged. Every other block survives with its handle, free function, payload and holders, and so does every holder of a surviving block (ReleasedBy) |
| Handles.HandleGraph.ReleaseBlock | include/ocilib_core.hpp:283 | destroying a block is a cascade: every destruction is logged once with its handle and free function, no descendant of the block remains, every block outside its subtree survives with its handle, free function, payload and holders, and only holders of destroyed blocks become NULL |
| Handles.HandleGraph.ReleaseChildren | include/ocilib_core.hpp:297 | every child of a destroyed block is destroyed in turn, and every block that disappears lay in the subtree of one of those children |
| Handles.HandleGraph.ReleaseIfPresent | include/ocilib_core.hpp:297 | a child still present is destroyed as a cascade that removes only blocks of its subtree; for a child already gone the graph is unchanged |
| CoreValues.Enum.GetValue | include/ocilib_core.hpp:128-130 | converting back with Enum(...) gives the same Enum, so GetValue and the constructor are inverse; operator== is value equality by definition of the datatype |
| CoreValues.Flags.Not | include/ocilib_core.hpp:160 | the complement shares no bit with the set, and together they cover all 32 bits |
| CoreValues.Flags.Or | include/ocilib_core.hpp:162 | the union contains both operands, and every set containing both contains it: it is the least upper bound, so no other bit is set |
| CoreValues.Flags.And | include/ocilib_core.hpp:163 | the intersection is contained in both operands, and contains every set contained in both: it is the greatest lower bound, so every common bit is kept |
| CoreValues.Flags.Xor | include/ocilib_core.hpp:164 | xor with the same operand gives the set back |
| CoreValues.Flags.GetValues | include/ocilib_core.hpp:181 | the value fits an unsigned int and converts back to exactly the stored bits |
| CoreValues.SetAfterOr | include/ocilib_core.hpp:170-183 | after or-assigning f, IsSet(f) holds and every flag set before is still set |
| CoreValues.ClearedAfterAndNot | include/ocilib_core.hpp:160-183 | after `&= ~f` no bit of f is set |
| CoreValues.EmptyAndComplement | include/ocilib_core.hpp:160-183 | the empty set has only the empty subset, and `~~f == f` |
| CoreValues.ConcurrentPool.Set | include/ocilib_core.hpp:220 | Get then yields the new value, and every other key is unchanged |
| CoreValues.ConcurrentPool.Remove | include/ocilib_core.hpp:218 | the key is gone, and every other key is unchanged |
| Timestamps.DescriptorType | src/timestamp.c:229-235 | a descriptor type exists exactly for the three timestamp types |
| Timestamps.TimestampStruct.constructor | src/timestamp.c:60 | ALLOC_DATA yields a zero-filled struct with no tag |
| Timestamps.InitTag | src/timestamp.c:81-101 | initialisation fails exactly when a descriptor is needed (NULL buffer, not an array slot) and cannot be allocated |
| Timestamps.FreeReleasesWhatInitializeAllocated | src/timestamp.c:181-195 | TimestampFree releases exactly the descriptor TimestampInitialize allocated, never a caller's buffer. It frees the struct only when neither fetched nor array-allocated |
| Timestamps.CleanupWithoutTemporary | src/timestamp.c:1187-1190 | with no temporary, the guard as written still calls TimestampFree (on NULL), and the corrected guard does not |
| Timestamps.CleanupGuardsAgreeOtherwise | src/timestamp.c:354-362 | with a temporary, both guards free it exactly when it differs from the caller's timestamp |
| Timestamps.ToTm | src/timestamp.c:1223-1227 | year becomes years since 1900, month becomes months from 0, weekday and year-day are 0, and DST is unknown (-1) |
| Timestamps.FromTm | src/timestamp.c:1276-1278 | year +1900, month +1, no fractional seconds |
| Timestamps.CTimeRoundTrip | src/timestamp.c:1223-1224 | FromTm(ToTm(d)) is d without its fractional seconds |
| Timestamps.TmRoundTrip | src/timestamp.c:1276-1278 | ToTm(FromTm(t)) is t with the fields ToTm sets (weekday, day of year, DST flag) overwritten |
| Timestamps.ToCTime | src/timestamp.c:1198-1244 | the result is true iff the timestamp exists, its date can be read and mktime, applied to the struct ToTm fills, does not return -1. Each output is written iff requested and the date was read; `ptm` receives the struct as mktime left it and `pt` mktime's value |
| Timestamps.CTimeRoundTripThroughMktime | src/timestamp.c:1223-1233 | when mktime only fills the weekday, day of year and DST flag, the struct ToCTime writes converts back through FromCTime to the date without its fractional seconds |
| Timestamps.FreesTemporary | src/timestamp.c:354-362 | the corrected cleanup guard never frees a NULL temporary, and frees any temporary when the caller passed no timestamp |
| Timestamps.FreesTemporaryAsWritten | src/timestamp.c:1187-1190 | the guard as written frees (TimestampFree(NULL)) whenever no temporary was made for a caller's timestamp, and never when the caller's timestamp is NULL |
| Timestamps.FromCTime | src/timestamp.c:1250-1283 | NULL timestamp or NULL tm with t == 0 is a null-pointer error. Otherwise the date comes from the tm, or from localtime(t) |
| Timestamps.TimestampEnv.Free | src/timestamp.c:163-202 | NULL is an error. FETCHED_CLEAN is refused. Otherwise exactly FreedDescriptor and, unless array-allocated, the struct are released |
| Timestamps.TimestampEnv.Initialize | src/timestamp.c:44-123 | a new or given struct gets the connection, type, tag and handle of InitTag/InitHandle. Owned structs and descriptors grow by exactly what was allocated. On failure NULL is returned: a struct it allocated is released again with the error recorded; a caller's struct goes through TimestampFree as timestamp.c:113-119 does, losing exactly FreedDescriptor and, unless fetched or array-allocated, the struct, with AllocationFailed recorded |
| Timestamps.TimestampEnv.Create | src/timestamp.c:129-157 | an invalid type is an error. Otherwise the result is a fresh ALLOCATED timestamp with its own descriptor, or NULL when an allocation fails |
| Timestamps.TimestampEnv.CreateTemp | src/timestamp.c:967-969 | a TZ temporary exists exactly when both allocations succeed |
| Timestamps.TimestampEnv.Cleanup | src/timestamp.c:354-362 | a temporary is freed exactly under the corrected guard |
| Timestamps.TimestampEnv.OnTzTemporary | src/timestamp.c:965-990 | the call through a temporary succeeds iff every step does, and leaves no struct or descriptor behind |
| Timestamps.TimestampEnv.IntervalAddOrSub | src/timestamp.c:943-1008 | success iff both arguments exist and every step succeeds; a non-TZ timestamp goes through a temporary. Nothing is left allocated, and NULL arguments are errors (corrected, see Findings) |
| Timestamps.TimestampEnv.IntervalAddOrSubAsWritten | src/timestamp.c:1003-1006 | as written, a NULL interval on an existing timestamp records two null-pointer errors, the second from TimestampFree(NULL) in the cleanup. With the temporary made, or with a TZ timestamp, the outcome and errors are those of the corrected guard |
| Timestamps.TimestampEnv.SysTimestamp | src/timestamp.c:1125-1192 | success iff the timestamp exists and every step succeeds; a plain TIMESTAMP goes through a TZ temporary. Nothing is left allocated |
| Timestamps.TimestampEnv.SysTimestampAsWritten | src/timestamp.c:1185-1190 | as written, a TZ or LTZ timestamp always gets a spurious null-pointer error from the cleanup |
| Timestamps.TimestampEnv.Assign | src/timestamp.c:291-364 | NULL is an error and different types are incompatible. Success iff every step succeeds (LTZ goes through two temporaries). Nothing is left allocated |
| Timestamps.TimestampEnv.AssignThroughTz | src/timestamp.c:315-362 | the LTZ copy succeeds iff both temporaries are made, filled and converted back, and both are freed |
| Timestamps.TimestampEnv.CopyIntoTz | src/timestamp.c:320-356 | the copy into the destination's temporary succeeds iff each step does, and the temporary is freed |
| Timestamps.TimestampEnv.CreateArray | src/timestamp.c:208-246 | an invalid type is an error and leaves the registry as it was. Otherwise no error is raised, and the registry changes exactly as ArrayCreate promises for a timestamp array with the type's descriptor type: on success the result is the `tab_obj` of the new record, now registered, its blocks live and its descriptors counted. On a failed allocation the record is freed after its teardown is logged. The timestamp structs and descriptors are untouched |
| Timestamps.TimestampEnv.FreeArray | src/timestamp.c:252-268 | NULL is an error. Otherwise the array owning the index block is found or nothing changes; a found array is removed from the registry, disposed (its DisposeEvents and FREE logged), its blocks and descriptors released and its record freed, as ArrayFreeFromHandles states |
| Callbacks.Statement.FirstRow | src/callback.c:139-162 | the resultset count becomes the iteration count, the current resultset is 0, and the array and this iteration's resultset are prepared as PreparedResultsets says |
| Callbacks.InBind | src/callback.c:42-94 | NULL bind or an out-of-range iteration gives OCI_ERROR and changes nothing. Otherwise the first `count` indicators become -1 and the rest are untouched. On iteration 0 the bind takes the next position (`dynidx` increments). The reply is a NULL buffer, length 0 and one piece |
| Callbacks.SlotAsWritten | src/callback.c:176-201 | each offset is a 32-bit product, so it stays within 4 GiB of its base |
| Callbacks.SlotOf | src/callback.c:176-201 | pointer kinds take `data[index]`. Others take `data + bufsize*index`, and lengths and indicators follow the same pattern |
| Callbacks.SlotsDoNotOverlap | src/callback.c:190-198 | slots of distinct rows are at least one element apart in every buffer |
| Callbacks.SlotAsWrittenWhenSmall | src/callback.c:190-198 | when no product exceeds 32 bits, the slot as written is the intended one |
| Callbacks.SlotAsWrittenWraps | src/callback.c:193 | with bufsize 4096, row 1048576 lands on row 0's buffer as written |
| Callbacks.PreparedResultsets | src/callback.c:139-162 | an existing resultset is kept, and the array is missing only when it was missing and could not be allocated |
| Callbacks.FirstRowCreatesResultset | src/callback.c:146-160 | with the array in place and the row count read, the iteration's resultset is created with that row count |
| Callbacks.OutBind | src/callback.c:100-205 | bad bind or iteration gives OCI_ERROR and changes nothing. Otherwise the status gains OCI_STMT_EXECUTED and row 0 prepares the resultsets. The reply is OCI_CONTINUE with slot SlotOf(def, index) exactly when the iteration has a resultset |
| Callbacks.NotifyMessages | src/callback.c:211-234 | always OCI_SUCCESS. The dequeue callback runs once unless the context is NULL |
| Callbacks.KeptType | src/callback.c:277-306 | the event type is kept or reset to 0 |
| Callbacks.EventFilter | src/callback.c:277-306 | database events are kept iff OCI_CNT_DATABASES is subscribed, DEREG always, OBJCHANGE iff OCI_CNT_OBJECTS, anything else never |
| Callbacks.MaskOp | src/callback.c:359-360 | the ALLROWS and ALLOPS bits are cleared and every other operation bit is kept |
| Callbacks.RowCallsAreRows | src/callback.c:382-406 | one handler call per changed row, with that row's rowid and operation |
| Callbacks.OneCallPerTable | src/callback.c:412-415 | without row mode, one call per table with the table's event |
| Callbacks.RowModeCallsPerTable | src/callback.c:364-415 | in row mode a table with rows gives one call per row, and otherwise one call |
| Callbacks.TablesAllReported | src/callback.c:330-416 | every table gives at least one call, each an OBJCHANGE of the right database |
| Callbacks.NonObjectEventCalls | src/callback.c:419-422 | a kept non-object event gives exactly one call and a dropped one none |
| Callbacks.NotifyChanges | src/callback.c:240-434 | always OCI_SUCCESS. The handler calls are exactly ChangeCalls, and the event keeps the filtered type and the database name |
| Callbacks.NotifyTable | src/callback.c:330-416 | one table's calls are exactly TableCalls |
| Callbacks.NotifyRows | src/callback.c:364-410 | the row loop's calls are exactly RowCalls |
| Callbacks.FailOver | src/callback.c:440-462 | the TAF handler's answer when the connection has one, otherwise OCI_FOC_OK |
| Callbacks.HandOverReleasesAll | src/callback.c:476-487 | with the corrected tag (HandOverTag retags only a fetched timestamp FETCHED_DIRTY), release frees the struct and exactly the descriptor initialisation allocated |
| Callbacks.HandOverAsWrittenLeaks | src/callback.c:485 | as written (HandOverTagAsWritten retags every timestamp FETCHED_DIRTY), a timestamp made without an event time owns a descriptor that TimestampFree then skips |
| Callbacks.ServerNoticesExact | src/callback.c:476-481 | a connection is notified for a server iff it is on that server, with the server's source and status |
| Callbacks.HaEnvironment.Invoke | src/callback.c:468-487 | a connection on the server gets one handler call. The wrapped timestamp is released, leaving no struct or descriptor behind |
| Callbacks.HaEnvironment.InvokeAsWritten | src/callback.c:483-487 | as written, a call without an event time leaves its descriptor allocated |
| Callbacks.HaEnvironment.InvokeAll | src/callback.c:541 | one server's calls are exactly ServerNotices, and nothing is left allocated |
| Callbacks.HaEnvironment.HAEvent | src/callback.c:494-554 | with a handler and a 10.2 runtime, the calls are the notices of every server in turn, and otherwise none. Nothing is left allocated |

## Left out

- Calls into the Oracle client library, `ATTRIB_GET`, the descriptor allocators, `localtime` and the date contents are oracle parameters. Their semantics are closed source. `mktime` is a function parameter: the model does not say how it normalises a date, only that ToCTime hands back whatever struct and value it produces.
- After a failed ArrayCreate whose descriptors were never allocated, ArrayDispose still calls MemoryFreeDescriptorArray on the NULL `mem_handle` (array.c:204-209). memory.c is not part of this model, so whether that call tolerates NULL is not known; the model logs the call, and the registry's descriptor count then drops below zero.
- macros.h, list.c and the element initialisers are not part of this model. `ALLOC_DATA`/`ALLOC_BUFFER` are read as "allocate while the status is good and the pointer is NULL, and fail the status otherwise". `IS_OCILIB_OBJECT` is read as "every kind except plain numeric, text, raw and boolean". `CHECK_OBJECT_FETCHED` is read as "refuse FETCHED_CLEAN".
- The numeric values of the constants come from ocilib.h and oci.h, which are not part of this model. The model fixes distinct values. Only OCI_OPCODE_ALLOPS = 0 and OCI_OPCODE_ALLROWS = 1 matter for the proofs.
- Error and environment handles, error-context macros and the `CHECK_TIMESTAMP_ENABLED`/version checks are left out. The pre-9.0 and pre-10.2 branches are too.
- FREE's reset of the freed pointer is left out: each record is dropped right after it is freed.
- Mutexes, the pool's Initialize/Release and the arrival of callbacks on arbitrary threads are left out. The model is sequential.
- Handles.HandleGraph.AcquireHandle: only declarations of HandleHolder are shown. Acquire is modelled as release-then-attach, and a parent destroyed by that release is not linked.
- `Flags` IsSet over a union is not proved separately. SetAfterOr covers `|=`.
- BindArray, BindString, BindsHolder and ManagedBuffer are out of scope.
- The string attributes (database, table and row names) are not modelled. A failed attribute read in NotifyChanges is not modelled.
- Callbacks.HaEnvironment.HAEvent: a failed attribute read, and the defaults OCI_HA_STATUS_DOWN/OCI_HA_SOURCE_INSTANCE it leaves, are not modelled. Every timestamp in one event uses the same allocation outcomes.
- Callbacks.OutBind requires `iter < nb_iters` and an `rsts` array of `nb_iters` entries. The source reads `rsts[iter]` without checking either.
- Callbacks.InBind: `dynidx` is unbounded, so its ub4 wrap-around is not modelled.
- Timestamps.TimestampEnv.Assign, IntervalAddOrSub, SysTimestamp: for a failed call, the error list is stated only in part. A successful call leaves it unchanged.
- Timestamps.TimestampEnv.IntervalAddOrSubAsWritten: the outcome when the temporary cannot be created is not stated. That path also ends in TimestampFree(NULL).
- EventReset and event.c are not part of this model. The event starts from a reset value.

## Findings

| source | as written | input that shows it | evidently intended | confidence | as-written member | corrected member |
|---|---|---|---|---|---|---|
| src/array.c:284-289 | a failed ArrayCreate disposes and FREEs the record but leaves it in `Env.arrs` | any create whose mem_struct allocation fails | ListRemove before FREE | not executed; high | Arrays.FailedCreateAsWrittenBreaksRegistry | Arrays.Registry.ArrayCreate |
| src/array.c:37-39 | ARRAY_INIT dereferences the initialiser's result, and ArrayInitialize always returns TRUE | a LOB array whose second initialiser returns NULL | test the result and report failure | not executed; high | Arrays.InitializeAsWrittenNeverFails | Arrays.ArrayInitialize |
| src/array.c:192-200 | ArrayDispose indexes `tab_obj` for library-object kinds even when it is NULL | a LOB array of 5 whose `tab_obj` allocation fails | skip elements when `tab_obj` is NULL | not executed; high | Arrays.DisposeAfterTabFailure | Arrays.Registry.ArrayDispose |
| src/timestamp.c:1187-1190 | the cleanup guard tests `tmsp` instead of the temporary, so TimestampFree(NULL) raises an error | SysTimestamp on a TIMESTAMP_TZ timestamp | guard on the temporary, as Assign does | not executed; high | Timestamps.TimestampEnv.SysTimestampAsWritten | Timestamps.TimestampEnv.SysTimestamp |
| src/timestamp.c:1003-1006 | IntervalAdd's cleanup guard tests `tmsp` instead of the temporary (IntervalSub repeats it at lines 1074-1077), so TimestampFree(NULL) raises a second error | IntervalAdd(t, NULL) on any existing timestamp `t` | guard on the temporary, as Assign does | not executed; high | Timestamps.TimestampEnv.IntervalAddOrSubAsWritten | Timestamps.TimestampEnv.IntervalAddOrSub |
| src/callback.c:193 | the slot offset `bufsize * index` is a 32-bit product | bufsize 4096, index 1048576 | a full-width offset | not executed; low, it needs buffers of 4 GiB or more | Callbacks.SlotAsWrittenWraps | Callbacks.SlotsDoNotOverlap |
| src/callback.c:485 | every HA timestamp is retagged FETCHED_DIRTY, so a descriptor it allocated is never freed | an HA event whose server reports no time (`dthp` NULL) | retag only fetched timestamps | not executed; low, the client may never report a NULL time | Callbacks.HaEnvironment.InvokeAsWritten | Callbacks.HaEnvironment.Invoke |
