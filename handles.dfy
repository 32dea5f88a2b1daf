/**
 * The handle ownership graph of the C++ layer (include/ocilib_core.hpp):
 * `HandleHolder` objects held by client code share a reference-counted
 * `SmartHandle` control block, and control blocks form a parent/child
 * tree along which a release cascades.
 *
 * The graph is an arena: `blocks` maps a control-block id to its
 * `SmartHandle` record, `attached` maps a holder id to the block its
 * `_smartHandle` points to (an absent holder is NULL), and `log` records,
 * in order, every control block destroyed together with the native handle
 * and free function it was destroyed with.
 */
module Handles {
  import opened OciTypes

  type BlockId = nat
  type HolderId = nat

  /** A native handle; 0 stands for NULL. */
  type NativeHandle = int

  /**
   * The fields of a SmartHandle (include/ocilib_core.hpp:301-309): its
   * holders, its children, the native handle, the free function (None for
   * NULL), the parent control block and the extra-info payload.
   */
  datatype SmartHandle = SmartHandle(
    holders: seq<HolderId>,
    children: seq<BlockId>,
    handle: NativeHandle,
    func: Option<nat>,
    parent: Option<BlockId>,
    extraInfo: int)

  /** The destruction of one control block: `func` is applied to `handle` when it is set. */
  datatype Destroyed = Destroyed(id: BlockId, handle: NativeHandle, func: Option<nat>)

  /** `s` with every occurrence of `x` taken out (std::list::remove). */
  function Without(s: seq<nat>, x: nat): (r: seq<nat>)
    ensures forall y :: y in r <==> y in s && y != x
    ensures |r| <= |s|
  {
    if s == [] then []
    else if s[0] == x then Without(s[1..], x)
    else [s[0]] + Without(s[1..], x)
  }

  /** Nothing is left of `s` without `x` exactly when `x` is all `s` holds. */
  lemma NothingLeftWithout(s: seq<nat>, x: nat)
    ensures Without(s, x) == [] <==> forall y :: y in s ==> y == x
  {
    var r := Without(s, x);
    if r != [] {
      assert r[0] in r;
    }
  }

  /** The ids of the control blocks a log records as destroyed. */
  function LoggedIds(log: seq<Destroyed>): (ids: set<BlockId>)
    ensures forall i | 0 <= i < |log| :: log[i].id in ids
  {
    if log == [] then {}
    else LoggedIds(log[..|log| - 1]) + {log[|log| - 1].id}
  }

  /** Every control block appears at most once in the log. */
  ghost predicate DestroyedOnce(log: seq<Destroyed>)
  {
    forall i, j | 0 <= i < j < |log| :: log[i].id != log[j].id
  }

  /** Every parent a block names is itself present, created earlier, and lists the block among its children. */
  ghost predicate ParentsPresent(m: map<BlockId, SmartHandle>)
  {
    forall b | b in m && m[b].parent.Some? ::
      m[b].parent.value in m && m[b].parent.value < b && b in m[m[b].parent.value].children
  }

  /** Every child a block lists is present and names the block as its parent. */
  ghost predicate ChildrenPresent(m: map<BlockId, SmartHandle>)
  {
    forall b, c | b in m && c in m[b].children :: c in m && m[c].parent == Some(b)
  }

  /** `c` lies below `b` in the parent/child tree of `m`. */
  ghost predicate Descends(m: map<BlockId, SmartHandle>, c: BlockId, b: BlockId)
    decreases c
  {
    && c in m && m[c].parent.Some? && m[c].parent.value < c
    && (m[c].parent.value == b || Descends(m, m[c].parent.value, b))
  }

  /**
   * Cascade completeness: once `b` is gone, a graph whose parents are all
   * present and whose surviving blocks kept their parent links holds nothing
   * that lay below `b`.
   */
  lemma {:induction false} NoDescendantSurvives(before: map<BlockId, SmartHandle>, after: map<BlockId, SmartHandle>,
                                                b: BlockId, c: BlockId)
    requires ParentsPresent(after) && b !in after
    requires forall x | x in after :: x in before && after[x].parent == before[x].parent
    requires c in after
    ensures !Descends(before, c, b)
    decreases c
  {
    if before[c].parent.Some? && before[c].parent.value < c {
      NoDescendantSurvives(before, after, b, before[c].parent.value);
    }
  }

  /** The native handle holder `h` reaches, or NULL. */
  function HandleOf(m: map<BlockId, SmartHandle>, att: map<HolderId, BlockId>, h: HolderId): NativeHandle
  {
    if h in att && att[h] in m then m[att[h]].handle else 0
  }

  /** IsNull and operator THandleType agree: a holder is NULL exactly when it reaches no native handle. */
  lemma NullIffNoHandle(m: map<BlockId, SmartHandle>, att: map<HolderId, BlockId>, nextId: nat, log: seq<Destroyed>,
                        h: HolderId)
    requires GraphValid(m, att, nextId, log)
    ensures h !in att <==> HandleOf(m, att, h) == 0
  {
    if h in att {
      assert LiveBlocks(m, nextId) && att[h] in m;
    }
  }

  /** The control block `sh` once block `b` is gone: `b` is no longer its child nor its parent. */
  function DetachedFrom(sh: SmartHandle, b: BlockId): (r: SmartHandle)
    ensures r.holders == sh.holders && r.handle == sh.handle && r.func == sh.func && r.extraInfo == sh.extraInfo
    ensures forall c :: c in r.children <==> c in sh.children && c != b
    ensures r.parent == if sh.parent == Some(b) then None else sh.parent
  {
    sh.(children := Without(sh.children, b), parent := if sh.parent == Some(b) then None else sh.parent)
  }

  // ---------------------------------------------------------------------
  // The ownership invariant, part by part
  // ---------------------------------------------------------------------

  /** Live control blocks have ids below `nextId`, a non-NULL handle and at least one holder. */
  ghost predicate LiveBlocks(m: map<BlockId, SmartHandle>, nextId: nat)
  {
    forall b | b in m :: b < nextId && m[b].handle != 0 && |m[b].holders| > 0
  }

  /** Each non-NULL holder is listed by the control block it points to. */
  ghost predicate HoldersListed(m: map<BlockId, SmartHandle>, att: map<HolderId, BlockId>)
  {
    forall h | h in att :: att[h] in m && h in m[att[h]].holders
  }

  /** Each holder a control block lists points to that block. */
  ghost predicate ListedHoldersPoint(m: map<BlockId, SmartHandle>, att: map<HolderId, BlockId>)
  {
    forall b, h | b in m && h in m[b].holders :: h in att && att[h] == b
  }

  /** Destroyed control blocks are gone, were created, and are destroyed once. */
  ghost predicate LogAgrees(log: seq<Destroyed>, m: map<BlockId, SmartHandle>, nextId: nat)
  {
    && (forall i | 0 <= i < |log| :: log[i].id !in m && log[i].id < nextId)
    && DestroyedOnce(log)
  }

  ghost predicate GraphValid(m: map<BlockId, SmartHandle>, att: map<HolderId, BlockId>, nextId: nat, log: seq<Destroyed>)
  {
    && LiveBlocks(m, nextId) && HoldersListed(m, att) && ListedHoldersPoint(m, att)
    && ParentsPresent(m) && ChildrenPresent(m) && LogAgrees(log, m, nextId)
  }

  // ---------------------------------------------------------------------
  // The steps of the graph and the invariant each keeps
  // ---------------------------------------------------------------------

  /** The control blocks once `b` is destroyed: it leaves its parent's children and orphans its own. */
  function DetachBlock(m: map<BlockId, SmartHandle>, b: BlockId): (r: map<BlockId, SmartHandle>)
    ensures r.Keys == m.Keys - {b}
  {
    map c | c in m && c != b :: DetachedFrom(m[c], b)
  }

  /** DetachFromHolders: every holder of `b` becomes NULL. */
  function DetachHolders(att: map<HolderId, BlockId>, b: BlockId): map<HolderId, BlockId>
  {
    map h | h in att && att[h] != b :: att[h]
  }

  lemma DetachKeepsValid(m: map<BlockId, SmartHandle>, att: map<HolderId, BlockId>, nextId: nat, log: seq<Destroyed>,
                         b: BlockId)
    requires GraphValid(m, att, nextId, log) && b in m
    ensures GraphValid(DetachBlock(m, b), DetachHolders(att, b), nextId, log + [Destroyed(b, m[b].handle, m[b].func)])
  {
    DetachTree(m, b);
    var log' := log + [Destroyed(b, m[b].handle, m[b].func)];
    assert LogAgrees(log', DetachBlock(m, b), nextId) by {
      forall i, j | 0 <= i < j < |log'|
        ensures log'[i].id != log'[j].id
      {
        if j == |log| {
          assert log'[i] == log[i];
        } else {
          assert log'[i] == log[i] && log'[j] == log[j];
        }
      }
    }
  }

  lemma DetachTree(m: map<BlockId, SmartHandle>, b: BlockId)
    requires ParentsPresent(m) && ChildrenPresent(m) && b in m
    ensures ParentsPresent(DetachBlock(m, b)) && ChildrenPresent(DetachBlock(m, b))
  {
    var m' := DetachBlock(m, b);
    assert ParentsPresent(m') by {
      forall c | c in m' && m'[c].parent.Some?
        ensures m'[c].parent.value in m' && m'[c].parent.value < c && c in m'[m'[c].parent.value].children
      {
        var p := m'[c].parent.value;
        assert m[c].parent == Some(p) && p != b;
      }
    }
    assert ChildrenPresent(m') by {
      forall x, c | x in m' && c in m'[x].children
        ensures c in m' && m'[c].parent == Some(x)
      {
        assert c in m[x].children && c != b;
      }
    }
  }

  /** Changing anything but the parent and children links keeps the tree part of the invariant. */
  lemma SameTree(m: map<BlockId, SmartHandle>, m': map<BlockId, SmartHandle>)
    requires ParentsPresent(m) && ChildrenPresent(m) && m'.Keys == m.Keys
    requires forall x | x in m :: m'[x].parent == m[x].parent && m'[x].children == m[x].children
    ensures ParentsPresent(m') && ChildrenPresent(m')
  {
    assert ParentsPresent(m') by {
      forall x | x in m' && m'[x].parent.Some?
        ensures m'[x].parent.value in m' && m'[x].parent.value < x && x in m'[m'[x].parent.value].children
      {
        assert x in m[m[x].parent.value].children;
      }
    }
  }

  /** Acquire of a shared control block: holder `h` joins the holders of `b`. */
  function AddHolder(m: map<BlockId, SmartHandle>, b: BlockId, h: HolderId): map<BlockId, SmartHandle>
    requires b in m
  {
    m[b := m[b].(holders := m[b].holders + [h])]
  }

  lemma JoinKeepsValid(m: map<BlockId, SmartHandle>, att: map<HolderId, BlockId>, nextId: nat, log: seq<Destroyed>,
                       b: BlockId, h: HolderId)
    requires GraphValid(m, att, nextId, log) && b in m && h !in att
    ensures GraphValid(AddHolder(m, b, h), att[h := b], nextId, log)
  {
    SameTree(m, AddHolder(m, b, h));
    JoinHolders(m, att, b, h);
  }

  lemma JoinHolders(m: map<BlockId, SmartHandle>, att: map<HolderId, BlockId>, b: BlockId, h: HolderId)
    requires HoldersListed(m, att) && ListedHoldersPoint(m, att) && b in m && h !in att
    ensures HoldersListed(AddHolder(m, b, h), att[h := b]) && ListedHoldersPoint(AddHolder(m, b, h), att[h := b])
  {
    var m', att' := AddHolder(m, b, h), att[h := b];
    assert ListedHoldersPoint(m', att') by {
      forall x, g | x in m' && g in m'[x].holders
        ensures g in att' && att'[g] == x
      {
        if g != h {
          assert g in m[x].holders;
        }
      }
    }
  }

  /** Release of a holder that is not the last: it leaves the holders of `b`. */
  function RemoveHolder(m: map<BlockId, SmartHandle>, b: BlockId, h: HolderId): map<BlockId, SmartHandle>
    requires b in m
  {
    m[b := m[b].(holders := Without(m[b].holders, h))]
  }

  lemma LeaveKeepsValid(m: map<BlockId, SmartHandle>, att: map<HolderId, BlockId>, nextId: nat, log: seq<Destroyed>,
                        h: HolderId)
    requires GraphValid(m, att, nextId, log) && h in att && Without(m[att[h]].holders, h) != []
    ensures GraphValid(RemoveHolder(m, att[h], h), att - {h}, nextId, log)
  {
    SameTree(m, RemoveHolder(m, att[h], h));
    LeaveHolders(m, att, h);
  }

  lemma LeaveHolders(m: map<BlockId, SmartHandle>, att: map<HolderId, BlockId>, h: HolderId)
    requires HoldersListed(m, att) && ListedHoldersPoint(m, att) && h in att
    ensures HoldersListed(RemoveHolder(m, att[h], h), att - {h})
    ensures ListedHoldersPoint(RemoveHolder(m, att[h], h), att - {h})
  {
    var m', att' := RemoveHolder(m, att[h], h), att - {h};
    assert HoldersListed(m', att') by {
      forall g | g in att'
        ensures att'[g] in m' && g in m'[att'[g]].holders
      {
        assert g in m[att[g]].holders;
      }
    }
  }

  /** Acquire of a native handle: a new control block `id` held by `h` alone, a child of `parent`. */
  function AddBlock(m: map<BlockId, SmartHandle>, id: BlockId, h: HolderId, handle: NativeHandle, func: Option<nat>,
                    parent: Option<BlockId>): map<BlockId, SmartHandle>
    requires parent.Some? ==> parent.value in m
  {
    var m1 := m[id := SmartHandle([h], [], handle, func, parent, 0)];
    if parent.Some? && parent.value != id then
      m1[parent.value := m1[parent.value].(children := m1[parent.value].children + [id])]
    else m1
  }

  lemma NewBlockKeepsValid(m: map<BlockId, SmartHandle>, att: map<HolderId, BlockId>, nextId: nat, log: seq<Destroyed>,
                           h: HolderId, handle: NativeHandle, func: Option<nat>, parent: Option<BlockId>)
    requires GraphValid(m, att, nextId, log) && h !in att && handle != 0
    requires parent.Some? ==> parent.value in m
    ensures GraphValid(AddBlock(m, nextId, h, handle, func, parent), att[h := nextId], nextId + 1, log)
  {
    NewBlockHolders(m, att, nextId, h, handle, func, parent);
    NewBlockTree(m, nextId, h, handle, func, parent);
  }

  lemma NewBlockHolders(m: map<BlockId, SmartHandle>, att: map<HolderId, BlockId>, nextId: nat,
                        h: HolderId, handle: NativeHandle, func: Option<nat>, parent: Option<BlockId>)
    requires LiveBlocks(m, nextId) && HoldersListed(m, att) && ListedHoldersPoint(m, att) && h !in att
    requires parent.Some? ==> parent.value in m
    ensures HoldersListed(AddBlock(m, nextId, h, handle, func, parent), att[h := nextId])
    ensures ListedHoldersPoint(AddBlock(m, nextId, h, handle, func, parent), att[h := nextId])
  {
    var m', att' := AddBlock(m, nextId, h, handle, func, parent), att[h := nextId];
    assert nextId !in m;
    assert forall x | x in m && x != nextId :: m'[x].holders == m[x].holders;
    assert ListedHoldersPoint(m', att') by {
      forall x, g | x in m' && g in m'[x].holders
        ensures g in att' && att'[g] == x
      {
        if x != nextId {
          assert g in m[x].holders;
        }
      }
    }
  }

  lemma NewBlockTree(m: map<BlockId, SmartHandle>, nextId: nat,
                     h: HolderId, handle: NativeHandle, func: Option<nat>, parent: Option<BlockId>)
    requires LiveBlocks(m, nextId) && ParentsPresent(m) && ChildrenPresent(m)
    requires parent.Some? ==> parent.value in m
    ensures ParentsPresent(AddBlock(m, nextId, h, handle, func, parent))
    ensures ChildrenPresent(AddBlock(m, nextId, h, handle, func, parent))
  {
    NewBlockParents(m, nextId, h, handle, func, parent);
    NewBlockChildren(m, nextId, h, handle, func, parent);
  }

  lemma NewBlockParents(m: map<BlockId, SmartHandle>, nextId: nat,
                        h: HolderId, handle: NativeHandle, func: Option<nat>, parent: Option<BlockId>)
    requires LiveBlocks(m, nextId) && ParentsPresent(m)
    requires parent.Some? ==> parent.value in m
    ensures ParentsPresent(AddBlock(m, nextId, h, handle, func, parent))
  {
    var m' := AddBlock(m, nextId, h, handle, func, parent);
    assert nextId !in m;
    forall x | x in m' && m'[x].parent.Some?
      ensures m'[x].parent.value in m' && m'[x].parent.value < x && x in m'[m'[x].parent.value].children
    {
      if x != nextId {
        assert m'[x].parent == m[x].parent;
        assert x in m[m[x].parent.value].children;
      }
    }
  }

  lemma NewBlockChildren(m: map<BlockId, SmartHandle>, nextId: nat,
                         h: HolderId, handle: NativeHandle, func: Option<nat>, parent: Option<BlockId>)
    requires LiveBlocks(m, nextId) && ChildrenPresent(m)
    requires parent.Some? ==> parent.value in m
    ensures ChildrenPresent(AddBlock(m, nextId, h, handle, func, parent))
  {
    var m' := AddBlock(m, nextId, h, handle, func, parent);
    assert nextId !in m;
    forall x, c | x in m' && c in m'[x].children
      ensures c in m' && m'[c].parent == Some(x)
    {
      if c != nextId {
        assert c in m[x].children;
        assert m'[c].parent == m[c].parent;
      }
    }
  }

  /** SetExtraInfos on block `b`: its payload changes, and nothing else does. */
  function SetExtra(m: map<BlockId, SmartHandle>, b: BlockId, extraInfo: int): (r: map<BlockId, SmartHandle>)
    requires b in m
    ensures r.Keys == m.Keys && r[b].extraInfo == extraInfo
    ensures forall x | x in m :: r[x].holders == m[x].holders && r[x].handle == m[x].handle
                                 && r[x].parent == m[x].parent && r[x].children == m[x].children
    ensures forall x | x in m && x != b :: r[x] == m[x]
  {
    m[b := m[b].(extraInfo := extraInfo)]
  }

  /** Blocks with the same holders and handles keep the holder parts of the invariant. */
  lemma SameHolders(m: map<BlockId, SmartHandle>, m': map<BlockId, SmartHandle>, att: map<HolderId, BlockId>, nextId: nat)
    requires LiveBlocks(m, nextId) && HoldersListed(m, att) && ListedHoldersPoint(m, att) && m'.Keys == m.Keys
    requires forall x | x in m :: m'[x].holders == m[x].holders && m'[x].handle == m[x].handle
    ensures LiveBlocks(m', nextId) && HoldersListed(m', att) && ListedHoldersPoint(m', att)
  {
    forall x, g | x in m' && g in m'[x].holders
      ensures g in att && att[g] == x
    {
      assert g in m[x].holders;
    }
  }

  lemma ExtraKeepsValid(m: map<BlockId, SmartHandle>, att: map<HolderId, BlockId>, nextId: nat, log: seq<Destroyed>,
                        b: BlockId, extraInfo: int)
    requires GraphValid(m, att, nextId, log) && b in m
    ensures GraphValid(SetExtra(m, b, extraInfo), att, nextId, log)
  {
    var m' := SetExtra(m, b, extraInfo);
    SameTree(m, m');
    SameHolders(m, m', att, nextId);
  }

  // ---------------------------------------------------------------------
  // What a cascade leaves behind
  // ---------------------------------------------------------------------

  /**
   * `after` holds a subset of the control blocks of `before`, each with its
   * handle, free function, payload and holders, and with its parent link
   * unless it is among `pending` (children orphaned and not yet destroyed).
   */
  ghost predicate Shrunk(before: map<BlockId, SmartHandle>, after: map<BlockId, SmartHandle>, pending: seq<BlockId>)
  {
    && after.Keys <= before.Keys
    && forall c | c in after ::
         && after[c].handle == before[c].handle && after[c].func == before[c].func
         && after[c].extraInfo == before[c].extraInfo && after[c].holders == before[c].holders
         && (after[c].parent == before[c].parent || c in pending)
  }

  /** Each destruction in `entries` names a control block of `before` with its handle and free function. */
  ghost predicate LoggedFrom(before: map<BlockId, SmartHandle>, entries: seq<Destroyed>)
  {
    forall i | 0 <= i < |entries| ::
      entries[i].id in before && entries[i].handle == before[entries[i].id].handle
      && entries[i].func == before[entries[i].id].func
  }

  /** Holders can only have become NULL. */
  ghost predicate HoldersOnlyDropped(before: map<HolderId, BlockId>, after: map<HolderId, BlockId>)
  {
    forall h | h in after :: h in before && after[h] == before[h]
  }

  lemma {:induction false} LoggedIdsAppend(log: seq<Destroyed>, more: seq<Destroyed>)
    ensures LoggedIds(log + more) == LoggedIds(log) + LoggedIds(more)
    decreases |more|
  {
    if more == [] {
      assert log + more == log;
    } else {
      var l, init, last := log + more, more[..|more| - 1], more[|more| - 1];
      assert l[..|l| - 1] == log + init && l[|l| - 1] == last;
      LoggedIdsAppend(log, init);
      assert LoggedIds(l) == LoggedIds(log + init) + {last.id};
      assert LoggedIds(more) == LoggedIds(init) + {last.id};
    }
  }

  /** A holder became NULL only if the control block it pointed to is gone. */
  ghost predicate HoldersOfLiveBlocksKept(a0: map<HolderId, BlockId>, a1: map<HolderId, BlockId>,
                                          m1: map<BlockId, SmartHandle>)
  {
    forall g | g in a0 && a0[g] in m1 :: g in a1
  }

  /**
   * What a (partial) cascade from state 0 to state 1 has done: blocks only
   * disappeared (Shrunk), holders only became NULL, and only the holders
   * of destroyed blocks, and the log was extended by exactly one entry per
   * destroyed block, with its handle and free function.
   */
  ghost predicate Cascaded(m0: map<BlockId, SmartHandle>, m1: map<BlockId, SmartHandle>,
                           a0: map<HolderId, BlockId>, a1: map<HolderId, BlockId>,
                           l0: seq<Destroyed>, l1: seq<Destroyed>, pending: seq<BlockId>)
  {
    && Shrunk(m0, m1, pending) && HoldersOnlyDropped(a0, a1) && HoldersOfLiveBlocksKept(a0, a1, m1)
    && |l1| >= |l0| && l1[..|l0|] == l0
    && LoggedIds(l1[|l0|..]) == m0.Keys - m1.Keys && LoggedFrom(m0, l1[|l0|..])
  }

  lemma CascadedRefl(m: map<BlockId, SmartHandle>, a: map<HolderId, BlockId>, l: seq<Destroyed>)
    ensures Cascaded(m, m, a, a, l, l, [])
  {
    assert l[..|l|] == l && l[|l|..] == [];
  }

  /** The first step of destroying `b`: detaching it orphans exactly its children. */
  lemma DetachCascaded(m: map<BlockId, SmartHandle>, a: map<HolderId, BlockId>, l: seq<Destroyed>, b: BlockId)
    requires ParentsPresent(m) && b in m
    ensures Cascaded(m, DetachBlock(m, b), a, DetachHolders(a, b), l, l + [Destroyed(b, m[b].handle, m[b].func)],
                     m[b].children)
  {
    var l' := l + [Destroyed(b, m[b].handle, m[b].func)];
    assert l'[..|l|] == l && l'[|l|..] == [Destroyed(b, m[b].handle, m[b].func)];
  }

  /** Two cascades in a row: the orphans of the first that survive the second are in `pending2`. */
  lemma CascadedTrans(m0: map<BlockId, SmartHandle>, m1: map<BlockId, SmartHandle>, m2: map<BlockId, SmartHandle>,
                      a0: map<HolderId, BlockId>, a1: map<HolderId, BlockId>, a2: map<HolderId, BlockId>,
                      l0: seq<Destroyed>, l1: seq<Destroyed>, l2: seq<Destroyed>,
                      pending: seq<BlockId>, pending2: seq<BlockId>)
    requires Cascaded(m0, m1, a0, a1, l0, l1, pending) && Cascaded(m1, m2, a1, a2, l1, l2, [])
    requires forall c | c in pending && c in m2 :: c in pending2
    ensures Cascaded(m0, m2, a0, a2, l0, l2, pending2)
  {
    var e1, e2 := l1[|l0|..], l2[|l1|..];
    assert l2[|l0|..] == e1 + e2;
    assert l2[..|l0|] == l0;
    LoggedIdsAppend(e1, e2);
    forall i | 0 <= i < |e1 + e2|
      ensures (e1 + e2)[i].id in m0 && (e1 + e2)[i].handle == m0[(e1 + e2)[i].id].handle
              && (e1 + e2)[i].func == m0[(e1 + e2)[i].id].func
    {
      if i >= |e1| {
        assert (e1 + e2)[i] == e2[i - |e1|];
      }
    }
  }

  // ---------------------------------------------------------------------
  // What a cascade leaves alone
  // ---------------------------------------------------------------------

  /** `c` is `b` itself or lies below it. */
  ghost predicate InSubtree(m: map<BlockId, SmartHandle>, c: BlockId, b: BlockId)
  {
    c == b || Descends(m, c, b)
  }

  /** `c` lies in the subtree of one of `roots`. */
  ghost predicate UnderAny(m: map<BlockId, SmartHandle>, c: BlockId, roots: seq<BlockId>)
  {
    exists x | x in roots :: InSubtree(m, c, x)
  }

  /** Every block of `after` was in `before`, and any parent link it still has is the one it had. */
  ghost predicate ParentsKept(before: map<BlockId, SmartHandle>, after: map<BlockId, SmartHandle>)
  {
    forall c | c in after :: c in before && (after[c].parent.Some? ==> after[c].parent == before[c].parent)
  }

  /** Removing blocks and cutting parent links adds no ancestry. */
  lemma {:induction false} DescendsKept(before: map<BlockId, SmartHandle>, after: map<BlockId, SmartHandle>,
                                        c: BlockId, x: BlockId)
    requires ParentsKept(before, after) && Descends(after, c, x)
    ensures Descends(before, c, x)
    decreases c
  {
    var p := after[c].parent.value;
    if p != x {
      DescendsKept(before, after, p, x);
    }
  }

  /** Whatever lies below a child of `b` lies below `b`. */
  lemma {:induction false} DescendsThroughChild(m: map<BlockId, SmartHandle>, c: BlockId, x: BlockId, b: BlockId)
    requires x in m && m[x].parent == Some(b) && b < x && Descends(m, c, x)
    ensures Descends(m, c, b)
    decreases c
  {
    var p := m[c].parent.value;
    if p != x {
      DescendsThroughChild(m, p, x, b);
    }
  }

  lemma DetachKeepsParents(m: map<BlockId, SmartHandle>, b: BlockId)
    ensures ParentsKept(m, DetachBlock(m, b))
  {
  }

  /**
   * Once `b` is detached, the subtrees of its former children hold only
   * blocks that lay below `b`.
   */
  lemma ChildSubtreesInside(m0: map<BlockId, SmartHandle>, b: BlockId, c: BlockId)
    requires ParentsPresent(m0) && ChildrenPresent(m0) && b in m0
    ensures UnderAny(DetachBlock(m0, b), c, m0[b].children) ==> Descends(m0, c, b)
  {
    var m1 := DetachBlock(m0, b);
    if UnderAny(m1, c, m0[b].children) {
      var x :| x in m0[b].children && InSubtree(m1, c, x);
      assert x in m0 && m0[x].parent == Some(b);
      if c != x {
        DetachKeepsParents(m0, b);
        DescendsKept(m0, m1, c, x);
        DescendsThroughChild(m0, c, x, b);
      }
    }
  }

  /** None of the first `i` children is left in `m`. */
  ghost predicate GoneUpTo(children: seq<BlockId>, i: nat, m: map<BlockId, SmartHandle>)
    requires i <= |children|
  {
    forall k | 0 <= k < i :: children[k] !in m
  }

  lemma GoneStep(children: seq<BlockId>, i: nat, m1: map<BlockId, SmartHandle>, m2: map<BlockId, SmartHandle>)
    requires i < |children| && GoneUpTo(children, i, m1) && m2.Keys <= m1.Keys && children[i] !in m2
    ensures GoneUpTo(children, i + 1, m2)
  {
  }

  /** Every block of `m0` missing from `m1` lies in the subtree of one of `roots`. */
  ghost predicate DestroyedUnder(m0: map<BlockId, SmartHandle>, m1: map<BlockId, SmartHandle>, roots: seq<BlockId>)
  {
    forall d | d in m0 && d !in m1 :: UnderAny(m0, d, roots)
  }

  /**
   * One more child destroyed: a block gone from `m0` now lies in the
   * subtree of one of the first `i + 1` children.
   */
  lemma UnderAnyStep(m0: map<BlockId, SmartHandle>, mi: map<BlockId, SmartHandle>, mj: map<BlockId, SmartHandle>,
                     children: seq<BlockId>, i: nat)
    requires i < |children| && ParentsKept(m0, mi) && mj.Keys <= mi.Keys
    requires DestroyedUnder(m0, mi, children[..i])
    requires forall d | d in mi && d !in mj :: InSubtree(mi, d, children[i])
    ensures DestroyedUnder(m0, mj, children[..i + 1])
  {
    forall d | d in m0 && d !in mj
      ensures UnderAny(m0, d, children[..i + 1])
    {
      assert children[i] in children[..i + 1];
      if d in mi {
        if d != children[i] {
          DescendsKept(m0, mi, d, children[i]);
        }
        assert InSubtree(m0, d, children[i]);
      } else {
        var x :| x in children[..i] && InSubtree(m0, d, x);
        assert x in children[..i + 1];
      }
    }
  }

  /**
   * What Release does to the graph (m0, a0, l0), leaving (m1, a1, l1):
   * holder `h` ends NULL; a NULL holder changes nothing; a holder that is
   * not the last one only leaves its block's holders; the last holder's
   * release destroys exactly its block and the blocks below it, logging
   * each once, and every other block, and every holder of one, survives.
   */
  ghost predicate ReleasedBy(m0: map<BlockId, SmartHandle>, a0: map<HolderId, BlockId>, l0: seq<Destroyed>,
                             m1: map<BlockId, SmartHandle>, a1: map<HolderId, BlockId>, l1: seq<Destroyed>,
                             h: HolderId)
  {
    && h !in a1
    && (h !in a0 ==> m1 == m0 && a1 == a0 && l1 == l0)
    && (h in a0 && a0[h] in m0 && Without(m0[a0[h]].holders, h) != [] ==>
          l1 == l0 && a1 == a0 - {h} && m1 == RemoveHolder(m0, a0[h], h))
    && (h in a0 && a0[h] in m0 && Without(m0[a0[h]].holders, h) == [] ==>
          && a0[h] !in m1 && a0[h] in LoggedIds(l1)
          && Cascaded(m0, m1, a0, a1, l0, l1, [])
          && (forall c | c in m1 :: !Descends(m0, c, a0[h]))
          && (forall c | c in m0 && !InSubtree(m0, c, a0[h]) :: c in m1))
  }

  /** A release leaves the payload of every block it does not destroy as it was. */
  lemma ReleaseKeepsPayloads(m0: map<BlockId, SmartHandle>, a0: map<HolderId, BlockId>, l0: seq<Destroyed>,
                             m1: map<BlockId, SmartHandle>, a1: map<HolderId, BlockId>, l1: seq<Destroyed>,
                             h: HolderId, c: BlockId)
    requires ReleasedBy(m0, a0, l0, m1, a1, l1, h) && (h in a0 ==> a0[h] in m0) && c in m1
    ensures c in m0 && m1[c].extraInfo == m0[c].extraInfo
  {
  }

  class HandleGraph {
    var blocks: map<BlockId, SmartHandle>
    var attached: map<HolderId, BlockId>
    var nextId: BlockId
    var log: seq<Destroyed>

    /** The ownership invariant. */
    ghost predicate Valid()
      reads this
    {
      GraphValid(blocks, attached, nextId, log)
    }

    constructor ()
      ensures Valid() && blocks == map[] && attached == map[] && log == []
    {
      blocks := map[];
      attached := map[];
      nextId := 0;
      log := [];
    }

    /** IsNull / operator bool (include/ocilib_core.hpp:252-254): the holder points to no control block. */
    predicate IsNull(h: HolderId)
      reads this
      ensures IsNull(h) ==> GetHandle(h) == 0
    {
      h !in attached
    }

    /** operator THandleType: the native handle of the holder's control block, or NULL. */
    function GetHandle(h: HolderId): NativeHandle
      reads this
    {
      HandleOf(blocks, attached, h)
    }

    /** IsLastHolder: no holder but `h` is attached to block `b`. */
    predicate IsLastHolder(b: BlockId, h: HolderId)
      reads this
      requires b in blocks
      ensures IsLastHolder(b, h) <==> forall o :: o in blocks[b].holders ==> o == h
    {
      NothingLeftWithout(blocks[b].holders, h);
      Without(blocks[b].holders, h) == []
    }

    /** GetExtraInfos of block `b`: the payload the block carries, shared by all its holders. */
    function GetExtraInfos(b: BlockId): int
      reads this
      requires b in blocks
    {
      blocks[b].extraInfo
    }

    /** SetExtraInfos: only the payload of block `b` changes. */
    method SetExtraInfos(b: BlockId, extraInfo: int)
      requires Valid() && b in blocks
      modifies this`blocks
      ensures Valid() && b in blocks && GetExtraInfos(b) == extraInfo
      ensures blocks == SetExtra(old(blocks), b, extraInfo)
    {
      ExtraKeepsValid(blocks, attached, nextId, log, b, extraInfo);
      blocks := SetExtra(blocks, b, extraInfo);
    }

    /**
     * Acquire(handle, func, parent): the holder lets go of its current
     * control block, then, for a non-NULL handle, points to a new one that
     * it alone holds, registered among the children of `parent`. A parent
     * destroyed by the holder's own release is not linked.
     */
    method AcquireHandle(h: HolderId, handle: NativeHandle, func: Option<nat>, parent: Option<BlockId>)
      returns (ghost released: map<BlockId, SmartHandle>, ghost releasedAttached: map<HolderId, BlockId>)
      requires Valid()
      requires parent.Some? ==> parent.value in blocks
      modifies this
      ensures Valid()
      ensures ReleasedBy(old(blocks), old(attached), old(log), released, releasedAttached, log, h)
      ensures handle == 0 ==> blocks == released && attached == releasedAttached && nextId == old(nextId)
      ensures handle != 0 ==>
        && blocks == AddBlock(released, old(nextId), h, handle, func,
                              if parent.Some? && parent.value in released then parent else None)
        && attached == releasedAttached[h := old(nextId)] && nextId == old(nextId) + 1
      ensures handle == 0 <==> IsNull(h)
      ensures handle != 0 ==>
        && attached[h] == old(nextId) && attached[h] !in old(blocks)
        && blocks[attached[h]] == SmartHandle([h], [], handle, func,
                                              if parent.Some? && parent.value in blocks then parent else None, 0)
      ensures handle != 0 && parent.Some? && parent.value in blocks ==> attached[h] in blocks[parent.value].children
    {
      Release(h);
      released, releasedAttached := blocks, attached;
      if handle != 0 {
        Attach(h, handle, func, if parent.Some? && parent.value in blocks then parent else None);
      }
    }

    /** The SmartHandle constructor: a new block with id `nextId`, held by the NULL holder `h` alone, a child of `parent`. */
    method Attach(h: HolderId, handle: NativeHandle, func: Option<nat>, parent: Option<BlockId>)
      requires Valid() && h !in attached && handle != 0
      requires parent.Some? ==> parent.value in blocks
      modifies this
      ensures Valid()
      ensures blocks == AddBlock(old(blocks), old(nextId), h, handle, func, parent)
      ensures attached == old(attached)[h := old(nextId)] && nextId == old(nextId) + 1 && log == old(log)
    {
      NewBlockKeepsValid(blocks, attached, nextId, log, h, handle, func, parent);
      blocks := AddBlock(blocks, nextId, h, handle, func, parent);
      attached := attached[h := nextId];
      nextId := nextId + 1;
    }

    /**
     * Acquire(other): the holder lets go of its control block and shares
     * the one `other` points to, joining its holders. Nothing happens when
     * both already share a control block.
     */
    method AcquireHolder(h: HolderId, other: HolderId)
      returns (ghost released: map<BlockId, SmartHandle>, ghost releasedAttached: map<HolderId, BlockId>)
      requires Valid()
      modifies this
      ensures Valid()
      ensures IsNull(h) <==> IsNull(other)
      ensures !IsNull(h) ==> attached[h] == attached[other] && h in blocks[attached[h]].holders
      ensures h != other && h !in old(attached) && other in old(attached) ==>
        blocks == AddHolder(old(blocks), old(attached[other]), h) && log == old(log)
      ensures h == other || (h in old(attached) && other in old(attached) && old(attached[h]) == old(attached[other])) ==>
        blocks == old(blocks) && attached == old(attached) && log == old(log) && nextId == old(nextId)
      ensures h != other && !(h in old(attached) && other in old(attached) && old(attached[h]) == old(attached[other])) ==>
        && ReleasedBy(old(blocks), old(attached), old(log), released, releasedAttached, log, h)
        && nextId == old(nextId)
        && (other in releasedAttached ==>
              releasedAttached[other] in released
              && blocks == AddHolder(released, releasedAttached[other], h)
              && attached == releasedAttached[h := releasedAttached[other]])
        && (other !in releasedAttached ==> blocks == released && attached == releasedAttached)
    {
      released, releasedAttached := blocks, attached;
      var shared := h == other || (h in attached && other in attached && attached[h] == attached[other]);
      if !shared {
        Release(h);
        released, releasedAttached := blocks, attached;
        if other in attached {
          Join(h, attached[other]);
        }
      }
    }

    /** SmartHandle::Acquire(holder): the NULL holder `h` joins the holders of block `b`. */
    method Join(h: HolderId, b: BlockId)
      requires Valid() && b in blocks && h !in attached
      modifies this
      ensures Valid()
      ensures blocks == AddHolder(old(blocks), b, h) && attached == old(attached)[h := b]
      ensures log == old(log) && nextId == old(nextId)
    {
      JoinKeepsValid(blocks, attached, nextId, log, b, h);
      blocks := AddHolder(blocks, b, h);
      attached := attached[h := b];
    }

    /**
     * Release: the holder leaves its control block; when it was the last
     * holder the control block is destroyed, with everything below it.
     * Releasing a NULL holder does nothing.
     */
    method Release(h: HolderId)
      requires Valid()
      modifies this
      ensures Valid() && IsNull(h) && nextId == old(nextId)
      ensures ReleasedBy(old(blocks), old(attached), old(log), blocks, attached, log, h)
      ensures HoldersOnlyDropped(old(attached), attached)
    {
      if h !in attached {
        return;
      }
      var b := attached[h];
      if IsLastHolder(b, h) {
        ReleaseBlock(b);
        LoggedIdsAppend(old(log), log[|old(log)|..]);
        assert log == old(log) + log[|old(log)|..];
      } else {
        LeaveKeepsValid(blocks, attached, nextId, log, h);
        blocks := RemoveHolder(blocks, b, h);
        attached := attached - {h};
      }
    }

    /**
     * The destruction of control block `b` (~SmartHandle): it detaches from
     * its holders and from its parent (DetachFromHolders, DetachFromParent),
     * is logged with its handle and free function, and destroys each of its
     * children in turn.
     */
    method ReleaseBlock(b: BlockId)
      requires Valid() && b in blocks
      modifies this
      decreases blocks.Keys, 0
      ensures Valid() && nextId == old(nextId) && b !in blocks
      ensures Cascaded(old(blocks), blocks, old(attached), attached, old(log), log, [])
      ensures forall c | c in blocks :: !Descends(old(blocks), c, b)
      ensures forall c | c in old(blocks) && !InSubtree(old(blocks), c, b) :: c in blocks
    {
      var sh := blocks[b];
      DetachKeepsValid(blocks, attached, nextId, log, b);
      DetachCascaded(blocks, attached, log, b);
      blocks := DetachBlock(blocks, b);
      attached := DetachHolders(attached, b);
      log := log + [Destroyed(b, sh.handle, sh.func)];
      ghost var m1, a1, l1 := blocks, attached, log;
      ReleaseChildren(sh.children);
      CascadedTrans(old(blocks), m1, blocks, old(attached), a1, attached, old(log), l1, log, sh.children, []);
      forall c | c in blocks
        ensures !Descends(old(blocks), c, b)
      {
        NoDescendantSurvives(old(blocks), blocks, b, c);
      }
      forall c | c in old(blocks) && !InSubtree(old(blocks), c, b)
        ensures c in blocks
      {
        ChildSubtreesInside(old(blocks), b, c);
      }
    }

    /** GetChildren of a destroyed control block: each child still present is destroyed in turn. */
    method ReleaseChildren(children: seq<BlockId>)
      requires Valid()
      modifies this
      decreases blocks.Keys, 2
      ensures Valid() && nextId == old(nextId)
      ensures Cascaded(old(blocks), blocks, old(attached), attached, old(log), log, [])
      ensures forall c | c in children :: c !in blocks
      ensures DestroyedUnder(old(blocks), blocks, children)
    {
      CascadedRefl(blocks, attached, log);
      var i := 0;
      while i < |children|
        invariant 0 <= i <= |children|
        invariant Valid() && nextId == old(nextId)
        invariant Cascaded(old(blocks), blocks, old(attached), attached, old(log), log, [])
        invariant GoneUpTo(children, i, blocks)
        invariant DestroyedUnder(old(blocks), blocks, children[..i])
      {
        var c := children[i];
        ghost var m1, a1, l1 := blocks, attached, log;
        ReleaseIfPresent(c);
        assert blocks.Keys <= m1.Keys;
        GoneStep(children, i, m1, blocks);
        assert ParentsKept(old(blocks), m1);
        UnderAnyStep(old(blocks), m1, blocks, children, i);
        CascadedTrans(old(blocks), m1, blocks, old(attached), a1, attached, old(log), l1, log, [], []);
        i := i + 1;
      }
      assert children[..i] == children;
    }

    /** One child of a destroyed block: destroyed in turn unless an earlier cascade already took it. */
    method ReleaseIfPresent(c: BlockId)
      requires Valid()
      modifies this
      decreases blocks.Keys, 1
      ensures Valid() && nextId == old(nextId) && c !in blocks
      ensures Cascaded(old(blocks), blocks, old(attached), attached, old(log), log, [])
      ensures forall d | d in old(blocks) && d !in blocks :: InSubtree(old(blocks), d, c)
      ensures c !in old(blocks) ==> unchanged(this)
    {
      if c in blocks {
        ReleaseBlock(c);
      } else {
        CascadedRefl(blocks, attached, log);
      }
    }
  }
}
