/**
 * Stage 2 translation tables of a realm, as the host sees them through the
 * RMI: every table is a sequence of 512 entries, identified by the realm, the
 * tree (0 is the primary tree, 1.. the auxiliary trees of the planes), its
 * level and the first IPA it maps. A table that was never created reads as
 * 512 UNASSIGNED entries with RIPAS EMPTY, which is how a new realm's root
 * table starts out.
 */
module Rtt {
  import opened RmmTypes

  /** One level 0 table maps 2^48 bytes, the widest IPA space this model handles. */
  const IPA_LIMIT: int := 0x1_0000_0000_0000

  datatype Rtte = Rtte(state: Hipas, ripas: Ripas, desc: Desc)

  const UNASSIGNED_EMPTY := Rtte(Unassigned, Empty, NO_DESC)

  type Table = s: seq<Rtte> | |s| == RTT_ENTRIES witness seq(RTT_ENTRIES, _ => UNASSIGNED_EMPTY)

  datatype TableId = TableId(rd: int, tree: nat, level: int, base: int)

  type Tables = map<TableId, Table>

  /** A table that was never created: every entry UNASSIGNED with RIPAS EMPTY. */
  function EmptyTable(): Table
  {
    seq(RTT_ENTRIES, _ => UNASSIGNED_EMPTY)
  }

  predicate InIpaSpace(ipa: int) { 0 <= ipa < IPA_LIMIT }

  /** First IPA mapped by the table at `level` that covers `ipa`. */
  function TableBase(ipa: int, level: int): (b: int)
    requires 0 <= level <= RTT_MAX_LEVEL
  {
    if level == 0 then 0 else AlignDown(ipa, level - 1)
  }

  function TableOf(rd: int, tree: nat, level: int, ipa: int): TableId
    requires 0 <= level <= RTT_MAX_LEVEL
  {
    TableId(rd, tree, level, TableBase(ipa, level))
  }

  /** Position of the entry for `ipa` inside its table at `level`. */
  function Index(ipa: int, level: int): (i: int)
    requires 0 <= level <= RTT_MAX_LEVEL && InIpaSpace(ipa)
    ensures 0 <= i < RTT_ENTRIES
    ensures TableBase(ipa, level) + i * LevelSize(level) == AlignDown(ipa, level)
  {
    IndexFacts(ipa, level);
    if level == 0 then ipa / L0_SIZE else ipa % LevelSize(level - 1) / LevelSize(level)
  }

  lemma IndexFacts(ipa: int, level: int)
    requires 0 <= level <= RTT_MAX_LEVEL && InIpaSpace(ipa)
    ensures var i := if level == 0 then ipa / L0_SIZE else ipa % LevelSize(level - 1) / LevelSize(level);
            0 <= i < RTT_ENTRIES && TableBase(ipa, level) + i * LevelSize(level) == AlignDown(ipa, level)
  {
    if level == 0 {
      RootIndexFacts(ipa);
    } else {
      InnerIndexFacts(ipa, level);
    }
  }

  lemma RootIndexFacts(ipa: int)
    requires InIpaSpace(ipa)
    ensures 0 <= ipa / L0_SIZE < RTT_ENTRIES && ipa / L0_SIZE * LevelSize(0) == AlignDown(ipa, 0)
  {
    var q, r := ipa / L0_SIZE, ipa % L0_SIZE;
    assert ipa == L0_SIZE * q + r;
  }

  lemma InnerIndexFacts(ipa: int, level: int)
    requires 1 <= level <= RTT_MAX_LEVEL && InIpaSpace(ipa)
    ensures var i := ipa % LevelSize(level - 1) / LevelSize(level);
            0 <= i < RTT_ENTRIES && AlignDown(ipa, level - 1) + i * LevelSize(level) == AlignDown(ipa, level)
  {
    var big, small := LevelSize(level - 1), LevelSize(level);
    var r1 := ipa % big;
    var q2 := r1 / small;
    assert r1 == small * q2 + r1 % small;
    if q2 >= RTT_ENTRIES {
      MulAtLeast(small, q2, RTT_ENTRIES);
      assert false;
    }
    AlignSplit(ipa, level);
  }

  lemma MulAtLeast(a: int, b: int, c: int)
    requires a > 0 && b >= c
    ensures a * b >= a * c
  {
    assert a * b - a * c == a * (b - c);
  }

  /** Two IPAs share a table and a position exactly when they share a block at that level. */
  lemma SameSlot(x: int, y: int, level: int)
    requires 0 <= level <= RTT_MAX_LEVEL && InIpaSpace(x) && InIpaSpace(y)
    ensures (TableBase(x, level) == TableBase(y, level) && Index(x, level) == Index(y, level))
        <==> AlignDown(x, level) == AlignDown(y, level)
  {
    if AlignDown(x, level) == AlignDown(y, level) {
      if level > 0 {
        SameBlock(x, y, level, level - 1);
      }
      IndexCancel(Index(x, level), Index(y, level), level);
    }
  }

  lemma IndexCancel(i: int, j: int, level: int)
    requires 0 <= level <= RTT_MAX_LEVEL
    requires i * LevelSize(level) == j * LevelSize(level)
    ensures i == j
  {
    var s := LevelSize(level);
    assert (i - j) * s == 0;
  }

  function Tbl(t: Tables, id: TableId): Table
  {
    if id in t then t[id] else EmptyTable()
  }

  /** The entry for `ipa` at `level` in the given tree. */
  function Entry(t: Tables, rd: int, tree: nat, level: int, ipa: int): Rtte
    requires 0 <= level <= RTT_MAX_LEVEL && InIpaSpace(ipa)
  {
    Tbl(t, TableOf(rd, tree, level, ipa))[Index(ipa, level)]
  }

  /** The tables with the entry for `ipa` at `level` replaced by `e`. */
  function SetEntry(t: Tables, rd: int, tree: nat, level: int, ipa: int, e: Rtte): (t': Tables)
    requires 0 <= level <= RTT_MAX_LEVEL && InIpaSpace(ipa)
    ensures Entry(t', rd, tree, level, ipa) == e
    ensures forall id :: id != TableOf(rd, tree, level, ipa) ==> Tbl(t', id) == Tbl(t, id)
    ensures t'.Keys == t.Keys + {TableOf(rd, tree, level, ipa)}
  {
    var id := TableOf(rd, tree, level, ipa);
    t[id := Tbl(t, id)[Index(ipa, level) := e]]
  }

  /** Reading any entry after SetEntry: only the one slot changed. */
  lemma EntryAfterSet(t: Tables, rd: int, tree: nat, level: int, ipa: int, e: Rtte,
                      rd': int, tree': nat, level': int, x: int)
    requires 0 <= level <= RTT_MAX_LEVEL && InIpaSpace(ipa)
    requires 0 <= level' <= RTT_MAX_LEVEL && InIpaSpace(x)
    ensures Entry(SetEntry(t, rd, tree, level, ipa, e), rd', tree', level', x)
         == if rd' == rd && tree' == tree && level' == level && AlignDown(x, level) == AlignDown(ipa, level)
            then e else Entry(t, rd', tree', level', x)
  {
    if rd' == rd && tree' == tree && level' == level {
      SameSlot(x, ipa, level);
    }
  }

  datatype Walked = Walked(level: int, entry: Rtte)

  /**
   * The walk of the tree for `ipa` from level `first` toward level `last`: it
   * stops at the first entry that is not a table, or at level `last`.
   */
  function Walk(t: Tables, rd: int, tree: nat, ipa: int, first: int, last: int): (w: Walked)
    requires 0 <= first <= last <= RTT_MAX_LEVEL && InIpaSpace(ipa)
    decreases last - first
    ensures first <= w.level <= last
    ensures w.entry == Entry(t, rd, tree, w.level, ipa)
    ensures w.level < last ==> w.entry.state != Table
    ensures forall l :: first <= l < w.level ==> Entry(t, rd, tree, l, ipa).state == Table
  {
    if Entry(t, rd, tree, first, ipa).state == Table && first < last then Walk(t, rd, tree, ipa, first + 1, last)
    else Walked(first, Entry(t, rd, tree, first, ipa))
  }

  /** A walk only depends on the entries on its own path. */
  lemma WalkFrame(t: Tables, t': Tables, rd: int, tree: nat, ipa: int, first: int, last: int)
    requires 0 <= first <= last <= RTT_MAX_LEVEL && InIpaSpace(ipa)
    requires forall l :: first <= l <= last ==> Entry(t, rd, tree, l, ipa) == Entry(t', rd, tree, l, ipa)
    ensures Walk(t', rd, tree, ipa, first, last) == Walk(t, rd, tree, ipa, first, last)
  {
  }

  /** A walk toward a deeper level passes through the walk toward a shallower one. */
  lemma {:induction false} WalkExtends(t: Tables, rd: int, tree: nat, ipa: int, first: int, mid: int, last: int)
    requires 0 <= first <= mid <= last <= RTT_MAX_LEVEL && InIpaSpace(ipa)
    ensures var w := Walk(t, rd, tree, ipa, first, mid);
            if w.level == mid && w.entry.state == Table && mid < last
            then Walk(t, rd, tree, ipa, first, last) == Walk(t, rd, tree, ipa, mid + 1, last)
            else Walk(t, rd, tree, ipa, first, last) == w
    decreases mid - first
  {
    if first < mid && Entry(t, rd, tree, first, ipa).state == Table {
      WalkExtends(t, rd, tree, ipa, first + 1, mid, last);
    }
  }

  /** ASSIGNED, ASSIGNED_NS and TABLE entries are live. */
  predicate Live(e: Rtte)
  {
    e.state != Unassigned
  }

  /** The first position at or after `i` whose entry is live, or 512 when there is none. */
  function FirstLive(tbl: Table, i: int): (j: int)
    requires 0 <= i <= RTT_ENTRIES
    ensures i <= j <= RTT_ENTRIES
    ensures j < RTT_ENTRIES ==> Live(tbl[j])
    ensures forall k :: i <= k < j ==> !Live(tbl[k])
    decreases RTT_ENTRIES - i
  {
    if i == RTT_ENTRIES || Live(tbl[i]) then i else FirstLive(tbl, i + 1)
  }

  /**
   * The IPA of the first live entry at or after the entry for `ipa` in its
   * table at `level`, or the end of that table.
   */
  function NextLive(t: Tables, rd: int, tree: nat, level: int, ipa: int): (top: int)
    requires 0 <= level <= RTT_MAX_LEVEL && InIpaSpace(ipa)
  {
    TableBase(ipa, level) + FirstLive(Tbl(t, TableOf(rd, tree, level, ipa)), Index(ipa, level)) * LevelSize(level)
  }

  /** The entry that position `offset` of a new table inherits from the block entry it replaces. */
  function ChildEntry(parent: Rtte, offset: int): (e: Rtte)
    ensures e.state == parent.state && e.ripas == parent.ripas
    ensures parent.state in {Assigned, AssignedNs} ==> e.desc == parent.desc.(oa := parent.desc.oa + offset)
    ensures parent.state !in {Assigned, AssignedNs} ==> e == parent
  {
    if parent.state in {Assigned, AssignedNs} then parent.(desc := parent.desc.(oa := parent.desc.oa + offset))
    else parent
  }

  /** The level `level` table that unfolding `parent` produces. */
  function Children(parent: Rtte, level: int): Table
    requires 0 <= level <= RTT_MAX_LEVEL
  {
    seq(RTT_ENTRIES, i => ChildEntry(parent, i * LevelSize(level)))
  }

  /** The entry an RTT_CREATE writes into the parent: a table pointing at granule `rtt`. */
  function TableEntry(rtt: int): Rtte
  {
    Rtte(Table, Empty, Desc(rtt, {}))
  }

  /**
   * RTT_CREATE of a level `level` table for `ipa` (aligned to the parent's
   * block): the parent entry becomes a table entry and the new table repeats
   * the parent's mapping, split into 512 parts.
   */
  function Unfold(t: Tables, rd: int, tree: nat, level: int, ipa: int, rtt: int): (t': Tables)
    requires 1 <= level <= RTT_MAX_LEVEL && InIpaSpace(ipa)
    ensures t'.Keys == t.Keys + {TableOf(rd, tree, level, ipa), TableOf(rd, tree, level - 1, ipa)}
  {
    var parent := Entry(t, rd, tree, level - 1, ipa);
    SetEntry(t[TableOf(rd, tree, level, ipa) := Children(parent, level)], rd, tree, level - 1, ipa, TableEntry(rtt))
  }

  /**
   * A level `level` table can be folded into one block entry when its entries
   * are the parts of one block: not tables, all derived from entry 0, and
   * entry 0's output address aligned to the parent's block size.
   */
  predicate Foldable(tbl: Table, level: int)
    requires 1 <= level <= RTT_MAX_LEVEL
  {
    tbl[0].state != Table
    && (tbl[0].state in {Assigned, AssignedNs} ==> tbl[0].desc.oa % LevelSize(level - 1) == 0)
    && tbl == Children(tbl[0], level)
  }

  /** RTT_FOLD: the level `level` table for `ipa` is removed and its entry 0 becomes the parent's block entry. */
  function Fold(t: Tables, rd: int, tree: nat, level: int, ipa: int): (t': Tables)
    requires 1 <= level <= RTT_MAX_LEVEL && InIpaSpace(ipa)
    ensures t'.Keys == t.Keys - {TableOf(rd, tree, level, ipa)} + {TableOf(rd, tree, level - 1, ipa)}
  {
    var child := TableOf(rd, tree, level, ipa);
    SetEntry(t - {child}, rd, tree, level - 1, ipa, Tbl(t, child)[0])
  }

  /** The parent's table and the child table are different tables. */
  lemma ParentChildDistinct(rd: int, tree: nat, level: int, ipa: int)
    requires 1 <= level <= RTT_MAX_LEVEL
    ensures TableOf(rd, tree, level - 1, ipa) != TableOf(rd, tree, level, ipa)
  {
  }

  /**
   * Folding a table and then creating it again with the granule the fold
   * released gives back exactly the tables before the fold.
   */
  lemma UnfoldAfterFold(t: Tables, rd: int, tree: nat, level: int, ipa: int)
    requires 1 <= level <= RTT_MAX_LEVEL && InIpaSpace(ipa)
    requires Entry(t, rd, tree, level - 1, ipa).state == Table
    requires Entry(t, rd, tree, level - 1, ipa) == TableEntry(Entry(t, rd, tree, level - 1, ipa).desc.oa)
    requires TableOf(rd, tree, level, ipa) in t
    requires Foldable(Tbl(t, TableOf(rd, tree, level, ipa)), level)
    ensures Unfold(Fold(t, rd, tree, level, ipa), rd, tree, level, ipa, Entry(t, rd, tree, level - 1, ipa).desc.oa) == t
  {
    var child, parentId := TableOf(rd, tree, level, ipa), TableOf(rd, tree, level - 1, ipa);
    var rtt := Entry(t, rd, tree, level - 1, ipa).desc.oa;
    var f := Fold(t, rd, tree, level, ipa);
    var u := Unfold(f, rd, tree, level, ipa, rtt);
    assert Entry(f, rd, tree, level - 1, ipa) == t[child][0];
    assert Tbl(u, parentId) == Tbl(t, parentId);
    assert u[child] == t[child];
    assert forall id :: id in u <==> id in t;
  }

  /**
   * Creating a table under a block entry and folding it again restores the
   * block entry and removes the table.
   */
  lemma FoldAfterUnfold(t: Tables, rd: int, tree: nat, level: int, ipa: int, rtt: int)
    requires 1 <= level <= RTT_MAX_LEVEL && InIpaSpace(ipa)
    requires TableOf(rd, tree, level, ipa) !in t && TableOf(rd, tree, level - 1, ipa) in t
    requires Entry(t, rd, tree, level - 1, ipa).state != Table
    ensures Fold(Unfold(t, rd, tree, level, ipa, rtt), rd, tree, level, ipa) == t
  {
    var child, parentId := TableOf(rd, tree, level, ipa), TableOf(rd, tree, level - 1, ipa);
    var u := Unfold(t, rd, tree, level, ipa, rtt);
    var f := Fold(u, rd, tree, level, ipa);
    var parent := Entry(t, rd, tree, level - 1, ipa);
    assert Tbl(u, child)[0] == ChildEntry(parent, 0 * LevelSize(level));
    assert Tbl(f, parentId) == Tbl(t, parentId);
    assert forall id :: id in f <==> id in t;
  }

  /** Unfolding a foldable-shaped block yields a foldable table. */
  lemma ChildrenFoldable(parent: Rtte, level: int)
    requires 1 <= level <= RTT_MAX_LEVEL
    requires parent.state != Table
    requires parent.state in {Assigned, AssignedNs} ==> parent.desc.oa % LevelSize(level - 1) == 0
    ensures Foldable(Children(parent, level), level)
  {
    var c := Children(parent, level);
    assert c[0] == parent by { assert c[0] == ChildEntry(parent, 0 * LevelSize(level)); }
    assert c == Children(c[0], level);
  }

  /**
   * After a fold, a walk to the leaf for any IPA inside the folded block
   * stops one level higher, at the block entry, which equals entry 0 of the
   * folded table: same state, descriptor and RIPAS.
   */
  lemma WalkAfterFold(t: Tables, rd: int, tree: nat, level: int, ipa: int, start: int, x: int)
    requires 1 <= level <= RTT_MAX_LEVEL && 0 <= start <= level - 1
    requires InIpaSpace(ipa) && InIpaSpace(x)
    requires AlignDown(x, level - 1) == AlignDown(ipa, level - 1)
    requires Walk(t, rd, tree, ipa, start, level - 1).level == level - 1
    requires Walk(t, rd, tree, ipa, start, level - 1).entry.state == Table
    requires Foldable(Tbl(t, TableOf(rd, tree, level, ipa)), level)
    ensures Walk(Fold(t, rd, tree, level, ipa), rd, tree, x, start, RTT_MAX_LEVEL)
         == Walked(level - 1, Tbl(t, TableOf(rd, tree, level, ipa))[0])
  {
    var f := Fold(t, rd, tree, level, ipa);
    var child := TableOf(rd, tree, level, ipa);
    var block := Tbl(t, child)[0];
    forall l | start <= l <= level - 1
      ensures Entry(f, rd, tree, l, x) == if l == level - 1 then block else Entry(t, rd, tree, l, ipa)
    {
      SameBlock(x, ipa, level - 1, l);
      SameSlot(x, ipa, l);
      EntryAfterSet(t - {child}, rd, tree, level - 1, ipa, block, rd, tree, l, x);
      SameSlot(x, ipa, l);
    }
    forall l | start <= l < level - 1
      ensures Entry(f, rd, tree, l, x).state == Table
    {
    }
    WalkExtends(f, rd, tree, x, start, level - 1, RTT_MAX_LEVEL);
  }

  /** A walk to the leaf stops at the first level whose entry is not a table. */
  lemma WalkStopsAt(t: Tables, rd: int, tree: nat, x: int, start: int, stop: int)
    requires 0 <= start <= stop <= RTT_MAX_LEVEL && InIpaSpace(x)
    requires forall l :: start <= l < stop ==> Entry(t, rd, tree, l, x).state == Table
    requires stop < RTT_MAX_LEVEL ==> Entry(t, rd, tree, stop, x).state != Table
    ensures Walk(t, rd, tree, x, start, RTT_MAX_LEVEL) == Walked(stop, Entry(t, rd, tree, stop, x))
  {
  }

  /** Entries of another level or another tree are untouched by installing a table. */
  lemma EntryAfterInstall(t: Tables, id: TableId, tbl: Table, rd: int, tree: nat, l: int, x: int)
    requires 0 <= l <= RTT_MAX_LEVEL && InIpaSpace(x)
    requires id.level != l || id.rd != rd || id.tree != tree
    ensures Entry(t[id := tbl], rd, tree, l, x) == Entry(t, rd, tree, l, x)
  {
  }

  /** After RTT_CREATE at `a`, the new table holds the parts of the parent's block. */
  lemma EntryInNewTable(t: Tables, rd: int, tree: nat, level: int, a: int, rtt: int, x: int)
    requires 1 <= level <= RTT_MAX_LEVEL && InIpaSpace(a) && InIpaSpace(x)
    requires AlignDown(x, level - 1) == AlignDown(a, level - 1)
    ensures Entry(Unfold(t, rd, tree, level, a, rtt), rd, tree, level, x)
         == ChildEntry(Entry(t, rd, tree, level - 1, a), Index(x, level) * LevelSize(level))
  {
    var parent := Entry(t, rd, tree, level - 1, a);
    var childId := TableOf(rd, tree, level, a);
    var u0 := t[childId := Children(parent, level)];
    EntryAfterSet(u0, rd, tree, level - 1, a, TableEntry(rtt), rd, tree, level, x);
    assert TableOf(rd, tree, level, x) == childId;
    assert Entry(u0, rd, tree, level, x) == Children(parent, level)[Index(x, level)];
  }

  /** After RTT_CREATE at `a`, entries off the parent entry and the new table are unchanged. */
  lemma EntryOffUnfold(t: Tables, rd: int, tree: nat, level: int, a: int, rtt: int, l: int, x: int)
    requires 1 <= level <= RTT_MAX_LEVEL && InIpaSpace(a) && 0 <= l <= RTT_MAX_LEVEL && InIpaSpace(x)
    requires l == level - 1 ==> AlignDown(x, l) != AlignDown(a, l)
    requires l == level ==> AlignDown(x, level - 1) != AlignDown(a, level - 1)
    ensures Entry(Unfold(t, rd, tree, level, a, rtt), rd, tree, l, x) == Entry(t, rd, tree, l, x)
  {
    var parent := Entry(t, rd, tree, level - 1, a);
    var childId := TableOf(rd, tree, level, a);
    var u0 := t[childId := Children(parent, level)];
    EntryAfterSet(u0, rd, tree, level - 1, a, TableEntry(rtt), rd, tree, l, x);
    assert TableOf(rd, tree, l, x) != childId;
  }

  /**
   * Reading any entry of the tree after RTT_CREATE at `a`: the parent entry
   * now points at the new table, the new table holds the parts of the
   * parent's block, and every other entry is unchanged.
   */
  lemma EntryAfterUnfold(t: Tables, rd: int, tree: nat, level: int, a: int, rtt: int, l: int, x: int)
    requires 1 <= level <= RTT_MAX_LEVEL && InIpaSpace(a) && 0 <= l <= RTT_MAX_LEVEL && InIpaSpace(x)
    ensures Entry(Unfold(t, rd, tree, level, a, rtt), rd, tree, l, x)
         == if l == level - 1 && AlignDown(x, l) == AlignDown(a, l) then TableEntry(rtt)
            else if l == level && AlignDown(x, level - 1) == AlignDown(a, level - 1)
            then ChildEntry(Entry(t, rd, tree, level - 1, a), Index(x, l) * LevelSize(l))
            else Entry(t, rd, tree, l, x)
  {
    if l == level - 1 && AlignDown(x, l) == AlignDown(a, l) {
      var parent := Entry(t, rd, tree, level - 1, a);
      var u0 := t[TableOf(rd, tree, level, a) := Children(parent, level)];
      EntryAfterSet(u0, rd, tree, level - 1, a, TableEntry(rtt), rd, tree, l, x);
    } else if l == level && AlignDown(x, level - 1) == AlignDown(a, level - 1) {
      EntryInNewTable(t, rd, tree, level, a, rtt, x);
    } else {
      EntryOffUnfold(t, rd, tree, level, a, rtt, l, x);
    }
  }

  /** After RTT_CREATE under a block, the path of every IPA in the block is a table down to the new level. */
  lemma UnfoldPath(t: Tables, rd: int, tree: nat, level: int, ipa: int, rtt: int, x: int)
    requires 1 <= level <= RTT_MAX_LEVEL && InIpaSpace(ipa) && InIpaSpace(x)
    requires AlignDown(x, level - 1) == AlignDown(ipa, level - 1)
    requires Walk(t, rd, tree, ipa, 0, level - 1).level == level - 1
    ensures forall l :: 0 <= l < level ==> Entry(Unfold(t, rd, tree, level, ipa, rtt), rd, tree, l, x).state == Table
  {
    forall l | 0 <= l < level
      ensures Entry(Unfold(t, rd, tree, level, ipa, rtt), rd, tree, l, x).state == Table
    {
      SameBlock(x, ipa, level - 1, l);
      SameSlot(x, ipa, l);
      EntryAfterUnfold(t, rd, tree, level, ipa, rtt, l, x);
    }
  }

  /** After RTT_CREATE under a block, the new table's entry for an IPA in the block is its part of the block. */
  lemma UnfoldChild(t: Tables, rd: int, tree: nat, level: int, ipa: int, rtt: int, x: int)
    requires 1 <= level <= RTT_MAX_LEVEL && InIpaSpace(ipa) && InIpaSpace(x)
    requires AlignDown(x, level - 1) == AlignDown(ipa, level - 1)
    ensures Entry(Unfold(t, rd, tree, level, ipa, rtt), rd, tree, level, x)
         == ChildEntry(Entry(t, rd, tree, level - 1, ipa), AlignDown(x, level) - AlignDown(x, level - 1))
  {
    EntryAfterUnfold(t, rd, tree, level, ipa, rtt, level, x);
  }

  /**
   * After RTT_CREATE under a block, a walk to the leaf for an IPA in the
   * block stops at the new level, at the part of the block for that IPA.
   */
  lemma WalkAfterUnfold(t: Tables, rd: int, tree: nat, level: int, ipa: int, rtt: int, x: int)
    requires 1 <= level <= RTT_MAX_LEVEL
    requires InIpaSpace(ipa) && InIpaSpace(x)
    requires AlignDown(x, level - 1) == AlignDown(ipa, level - 1)
    requires Walk(t, rd, tree, ipa, 0, level - 1).level == level - 1
    requires Walk(t, rd, tree, ipa, 0, level - 1).entry.state != Table
    ensures Leaf(Unfold(t, rd, tree, level, ipa, rtt), rd, tree, x)
         == Walked(level, ChildEntry(Entry(t, rd, tree, level - 1, ipa), AlignDown(x, level) - AlignDown(x, level - 1)))
  {
    var u := Unfold(t, rd, tree, level, ipa, rtt);
    UnfoldPath(t, rd, tree, level, ipa, rtt, x);
    UnfoldChild(t, rd, tree, level, ipa, rtt, x);
    WalkStopsAt(u, rd, tree, x, 0, level);
  }

  // ---------------------------------------------------------------- leaves

  /** The walk of a tree from its root table (level 0) to the leaf level. */
  function Leaf(t: Tables, rd: int, tree: nat, x: int): Walked
    requires InIpaSpace(x)
  {
    Walk(t, rd, tree, x, 0, RTT_MAX_LEVEL)
  }

  /** Two walks that read the same entries on their paths end alike. */
  lemma {:induction false} WalkSameEntries(t: Tables, rd: int, tree: nat, x: int, y: int, first: int, last: int)
    requires 0 <= first <= last <= RTT_MAX_LEVEL && InIpaSpace(x) && InIpaSpace(y)
    requires forall l :: first <= l <= last ==> Entry(t, rd, tree, l, x) == Entry(t, rd, tree, l, y)
    ensures Walk(t, rd, tree, x, first, last) == Walk(t, rd, tree, y, first, last)
    decreases last - first
  {
    if Entry(t, rd, tree, first, x).state == Table && first < last {
      WalkSameEntries(t, rd, tree, x, y, first + 1, last);
    }
  }

  /** Two IPAs in the same block at `level` read the same entries down to that level. */
  lemma WalkSameBlock(t: Tables, rd: int, tree: nat, x: int, y: int, level: int)
    requires 0 <= level <= RTT_MAX_LEVEL && InIpaSpace(x) && InIpaSpace(y)
    requires AlignDown(x, level) == AlignDown(y, level)
    ensures forall l :: 0 <= l <= level ==> Entry(t, rd, tree, l, x) == Entry(t, rd, tree, l, y)
    ensures Walk(t, rd, tree, x, 0, level) == Walk(t, rd, tree, y, 0, level)
  {
    forall l | 0 <= l <= level
      ensures Entry(t, rd, tree, l, x) == Entry(t, rd, tree, l, y)
    {
      SameBlock(x, y, level, l);
      SameSlot(x, y, l);
    }
    WalkSameEntries(t, rd, tree, x, y, 0, level);
  }

  /** A walk to the leaf that stops at `level` passes through the walk to `level`. */
  lemma LeafPrefix(t: Tables, rd: int, tree: nat, x: int, level: int)
    requires 0 <= level <= RTT_MAX_LEVEL && InIpaSpace(x)
    requires Leaf(t, rd, tree, x).level == level
    ensures Walk(t, rd, tree, x, 0, level) == Leaf(t, rd, tree, x)
  {
    WalkExtends(t, rd, tree, x, 0, level, RTT_MAX_LEVEL);
  }

  /** Once the walk for `ipa` reaches the leaf level, so does the walk for every IPA of its level 3 table. */
  lemma LeafSameTable(t: Tables, rd: int, tree: nat, ipa: int, x: int)
    requires InIpaSpace(ipa) && InIpaSpace(x)
    requires Leaf(t, rd, tree, ipa).level == RTT_MAX_LEVEL
    requires AlignDown(x, 2) == AlignDown(ipa, 2)
    ensures Leaf(t, rd, tree, x) == Walked(RTT_MAX_LEVEL, Entry(t, rd, tree, RTT_MAX_LEVEL, x))
  {
    WalkSameBlock(t, rd, tree, x, ipa, 2);
    WalkStopsAt(t, rd, tree, x, 0, RTT_MAX_LEVEL);
  }

  /** Only the tables of tree `tree` of realm `rd` differ. */
  ghost predicate OnlyTreeChanged(t: Tables, t': Tables, rd: int, tree: nat)
  {
    forall id: TableId {:trigger Tbl(t', id)} :: id.rd != rd || id.tree != tree ==> Tbl(t', id) == Tbl(t, id)
  }

  /** Walks in other trees are not affected by changes confined to one tree. */
  lemma WalkOtherTree(t: Tables, t': Tables, rd: int, tree: nat, rd': int, tree': nat, x: int)
    requires OnlyTreeChanged(t, t', rd, tree) && (rd' != rd || tree' != tree) && InIpaSpace(x)
    ensures Leaf(t', rd', tree', x) == Leaf(t, rd', tree', x)
  {
    forall l | 0 <= l <= RTT_MAX_LEVEL
      ensures Entry(t', rd', tree', l, x) == Entry(t, rd', tree', l, x)
    {
      assert Tbl(t', TableOf(rd', tree', l, x)) == Tbl(t, TableOf(rd', tree', l, x));
    }
    WalkFrame(t, t', rd', tree', x, 0, RTT_MAX_LEVEL);
  }

  /**
   * An IPA in the same level 1 block as a page whose walk reaches level 3,
   * whose own level 2 entry is not a table, has its leaf at level 2.
   */
  lemma LeafBeside(t: Tables, rd: int, tree: nat, ipa: int, x: int)
    requires InIpaSpace(ipa) && InIpaSpace(x) && Leaf(t, rd, tree, ipa).level == RTT_MAX_LEVEL
    requires AlignDown(x, 1) == AlignDown(ipa, 1) && Entry(t, rd, tree, 2, x).state != Table
    ensures Leaf(t, rd, tree, x) == Walked(2, Entry(t, rd, tree, 2, x))
  {
    WalkSameBlock(t, rd, tree, x, ipa, 1);
    WalkStopsAt(t, rd, tree, x, 0, 2);
  }

  /** Only the tables of realm `rd` differ. */
  ghost predicate OnlyRealmChanged(t: Tables, t': Tables, rd: int)
  {
    forall id: TableId {:trigger Tbl(t', id)} :: id.rd != rd ==> Tbl(t', id) == Tbl(t, id)
  }

  /** Walks in other realms are not affected by changes confined to one realm. */
  lemma WalkOtherRealm(t: Tables, t': Tables, rd: int, rd': int, tree: nat, x: int)
    requires OnlyRealmChanged(t, t', rd) && rd' != rd && InIpaSpace(x)
    ensures Leaf(t', rd', tree, x) == Leaf(t, rd', tree, x)
  {
    forall l | 0 <= l <= RTT_MAX_LEVEL
      ensures Entry(t', rd', tree, l, x) == Entry(t, rd', tree, l, x)
    {
      assert Tbl(t', TableOf(rd', tree, l, x)) == Tbl(t, TableOf(rd', tree, l, x));
    }
    WalkFrame(t, t', rd', tree, x, 0, RTT_MAX_LEVEL);
  }

  /** A realm without tables reads as a single UNASSIGNED, EMPTY entry at level 0. */
  lemma LeafWithoutTables(t: Tables, rd: int, tree: nat, x: int)
    requires InIpaSpace(x) && forall id :: id in t ==> id.rd != rd
    ensures Leaf(t, rd, tree, x) == Walked(0, UNASSIGNED_EMPTY)
  {
    assert TableOf(rd, tree, 0, x) !in t;
  }

  /**
   * The leaf entry keeps its state and RIPAS, and an entry that maps
   * nothing is kept as it is.
   */
  predicate SameLeaf(e: Rtte, e': Rtte)
  {
    e'.state == e.state && e'.ripas == e.ripas && (e.state !in {Assigned, AssignedNs} ==> e' == e)
  }

  /** Writing the level 3 entry for `ipa` changes the leaf of that page only, and only when its walk reaches level 3. */
  lemma LeafAfterSet(t: Tables, rd: int, tree: nat, ipa: int, e: Rtte, x: int)
    requires InIpaSpace(ipa) && InIpaSpace(x)
    ensures var w := Leaf(t, rd, tree, x);
            Leaf(SetEntry(t, rd, tree, RTT_MAX_LEVEL, ipa, e), rd, tree, x)
            == if w.level == RTT_MAX_LEVEL && AlignDown(x, RTT_MAX_LEVEL) == AlignDown(ipa, RTT_MAX_LEVEL)
               then Walked(RTT_MAX_LEVEL, e) else w
  {
    var t' := SetEntry(t, rd, tree, RTT_MAX_LEVEL, ipa, e);
    var w := Leaf(t, rd, tree, x);
    forall l | 0 <= l <= RTT_MAX_LEVEL
      ensures Entry(t', rd, tree, l, x)
           == if l == RTT_MAX_LEVEL && AlignDown(x, RTT_MAX_LEVEL) == AlignDown(ipa, RTT_MAX_LEVEL)
              then e else Entry(t, rd, tree, l, x)
    {
      EntryAfterSet(t, rd, tree, RTT_MAX_LEVEL, ipa, e, rd, tree, l, x);
    }
    WalkStopsAt(t', rd, tree, x, 0, w.level);
  }

  /**
   * RTT_CREATE under the block entry for `ipa` at level `level - 1`: the
   * leaves of the block move one level down and keep their state and RIPAS;
   * every other leaf is unchanged.
   */
  lemma LeafAfterUnfold(t: Tables, rd: int, tree: nat, level: int, ipa: int, rtt: int, x: int)
    requires 1 <= level <= RTT_MAX_LEVEL && InIpaSpace(ipa) && InIpaSpace(x)
    requires Walk(t, rd, tree, ipa, 0, level - 1).level == level - 1
    requires Walk(t, rd, tree, ipa, 0, level - 1).entry.state != Table
    ensures var w, w' := Leaf(t, rd, tree, x), Leaf(Unfold(t, rd, tree, level, ipa, rtt), rd, tree, x);
            SameLeaf(w.entry, w'.entry)
            && (AlignDown(x, level - 1) == AlignDown(ipa, level - 1) ==> w.level == level - 1 && w'.level == level)
            && (AlignDown(x, level - 1) != AlignDown(ipa, level - 1) ==> w' == w)
  {
    var u := Unfold(t, rd, tree, level, ipa, rtt);
    if AlignDown(x, level - 1) == AlignDown(ipa, level - 1) {
      WalkAfterUnfold(t, rd, tree, level, ipa, rtt, x);
      WalkSameBlock(t, rd, tree, x, ipa, level - 1);
      WalkExtends(t, rd, tree, x, 0, level - 1, RTT_MAX_LEVEL);
    } else {
      forall l | 0 <= l <= RTT_MAX_LEVEL
        ensures Entry(u, rd, tree, l, x) == Entry(t, rd, tree, l, x)
      {
        EntryAfterUnfold(t, rd, tree, level, ipa, rtt, l, x);
      }
      WalkFrame(t, u, rd, tree, x, 0, RTT_MAX_LEVEL);
    }
  }

  /** Every leaf keeps its state and RIPAS (the page of `ipa` only when `keepsIpa`). */
  ghost predicate LeavesKept(t: Tables, t': Tables, rd: int, tree: nat, ipa: int, keepsIpa: bool)
  {
    forall x {:trigger Leaf(t', rd, tree, x)} :: InIpaSpace(x) && (keepsIpa || AlignDown(x, RTT_MAX_LEVEL) != AlignDown(ipa, RTT_MAX_LEVEL)) ==>
      SameLeaf(Leaf(t, rd, tree, x).entry, Leaf(t', rd, tree, x).entry)
  }

  /** A leaf whose entry is off the path of `ipa` is untouched. */
  ghost predicate LeavesOffPathKept(t: Tables, t': Tables, rd: int, tree: nat, ipa: int)
  {
    forall x {:trigger Leaf(t', rd, tree, x)} :: InIpaSpace(x) && AlignDown(x, Leaf(t, rd, tree, x).level) != AlignDown(ipa, Leaf(t, rd, tree, x).level) ==>
      Leaf(t', rd, tree, x) == Leaf(t, rd, tree, x)
  }

  /** New table entries lie on the path of `ipa`. */
  ghost predicate TablesOnPath(t: Tables, t': Tables, rd: int, tree: nat, ipa: int)
  {
    forall l, x {:trigger Entry(t', rd, tree, l, x)} :: 0 <= l <= RTT_MAX_LEVEL && InIpaSpace(x) && Entry(t', rd, tree, l, x).state == Table ==>
      Entry(t, rd, tree, l, x).state == Table || AlignDown(x, l) == AlignDown(ipa, l)
  }

  /**
   * How the tables of one tree may change while mappings are built for
   * `ipa`: other trees are untouched, leaves keep their state and RIPAS,
   * leaves off the path of `ipa` are untouched, and new tables lie on that
   * path.
   */
  ghost predicate Grows(t: Tables, t': Tables, rd: int, tree: nat, ipa: int, keepsIpa: bool)
  {
    OnlyTreeChanged(t, t', rd, tree)
    && LeavesKept(t, t', rd, tree, ipa, keepsIpa)
    && LeavesOffPathKept(t, t', rd, tree, ipa)
    && TablesOnPath(t, t', rd, tree, ipa)
  }

  lemma GrowsRefl(t: Tables, rd: int, tree: nat, ipa: int)
    ensures Grows(t, t, rd, tree, ipa, true)
  {
  }

  lemma GrowsTrans(t1: Tables, t2: Tables, t3: Tables, rd: int, tree: nat, ipa: int, k1: bool, k2: bool)
    requires Grows(t1, t2, rd, tree, ipa, k1) && Grows(t2, t3, rd, tree, ipa, k2)
    ensures Grows(t1, t3, rd, tree, ipa, k1 && k2)
  {
    forall x | InIpaSpace(x) && AlignDown(x, Leaf(t1, rd, tree, x).level) != AlignDown(ipa, Leaf(t1, rd, tree, x).level)
      ensures Leaf(t3, rd, tree, x) == Leaf(t1, rd, tree, x)
    {
      assert Leaf(t2, rd, tree, x) == Leaf(t1, rd, tree, x);
    }
  }

  /** RTT_CREATE at `a`, the start of the block of `ipa`, touches only its own tree and adds a table on the path of `ipa`. */
  lemma UnfoldTables(t: Tables, rd: int, tree: nat, level: int, ipa: int, a: int, rtt: int)
    requires 1 <= level <= RTT_MAX_LEVEL && InIpaSpace(a)
    requires AlignDown(a, level - 1) == AlignDown(ipa, level - 1)
    requires Entry(t, rd, tree, level - 1, a).state != Table
    ensures OnlyTreeChanged(t, Unfold(t, rd, tree, level, a, rtt), rd, tree)
    ensures TablesOnPath(t, Unfold(t, rd, tree, level, a, rtt), rd, tree, ipa)
  {
    var u := Unfold(t, rd, tree, level, a, rtt);
    forall l, x | 0 <= l <= RTT_MAX_LEVEL && InIpaSpace(x) && Entry(u, rd, tree, l, x).state == Table
      ensures Entry(t, rd, tree, l, x).state == Table || AlignDown(x, l) == AlignDown(ipa, l)
    {
      EntryAfterUnfold(t, rd, tree, level, a, rtt, l, x);
    }
  }

  /** The leaves after RTT_CREATE at `a`, the start of the block of `ipa`, keep their state and move only on the path of `ipa`. */
  lemma UnfoldLeaves(t: Tables, rd: int, tree: nat, level: int, ipa: int, a: int, rtt: int)
    requires 1 <= level <= RTT_MAX_LEVEL && InIpaSpace(ipa) && InIpaSpace(a)
    requires a == AlignDown(ipa, level - 1) && AlignDown(a, level - 1) == a
    requires Walk(t, rd, tree, a, 0, level - 1).level == level - 1
    requires Walk(t, rd, tree, a, 0, level - 1).entry.state != Table
    ensures LeavesKept(t, Unfold(t, rd, tree, level, a, rtt), rd, tree, ipa, true)
    ensures LeavesOffPathKept(t, Unfold(t, rd, tree, level, a, rtt), rd, tree, ipa)
  {
    var u := Unfold(t, rd, tree, level, a, rtt);
    forall x | InIpaSpace(x)
      ensures SameLeaf(Leaf(t, rd, tree, x).entry, Leaf(u, rd, tree, x).entry)
      ensures AlignDown(x, Leaf(t, rd, tree, x).level) != AlignDown(ipa, Leaf(t, rd, tree, x).level)
              ==> Leaf(u, rd, tree, x) == Leaf(t, rd, tree, x)
    {
      LeafAfterUnfold(t, rd, tree, level, a, rtt, x);
    }
  }

  /** Creating the level `level` table on the path of `ipa` is a step of growth. */
  lemma UnfoldGrows(t: Tables, rd: int, tree: nat, level: int, ipa: int, rtt: int)
    requires 1 <= level <= RTT_MAX_LEVEL && InIpaSpace(ipa)
    requires Walk(t, rd, tree, ipa, 0, level - 1).level == level - 1
    requires Walk(t, rd, tree, ipa, 0, level - 1).entry.state != Table
    ensures Grows(t, Unfold(t, rd, tree, level, AlignDown(ipa, level - 1), rtt), rd, tree, ipa, true)
    ensures Leaf(Unfold(t, rd, tree, level, AlignDown(ipa, level - 1), rtt), rd, tree, ipa).level == level
  {
    var a := AlignDown(ipa, level - 1);
    AlignOffset(a, 0, level - 1);
    WalkSameBlock(t, rd, tree, a, ipa, level - 1);
    UnfoldTables(t, rd, tree, level, ipa, a, rtt);
    UnfoldLeaves(t, rd, tree, level, ipa, a, rtt);
    LeafAfterUnfold(t, rd, tree, level, a, rtt, ipa);
  }

  /** Writing a non-table leaf entry for `ipa`, whose walk reaches level 3, is a step of growth. */
  lemma SetGrows(t: Tables, rd: int, tree: nat, ipa: int, e: Rtte)
    requires InIpaSpace(ipa) && e.state != Table
    requires Leaf(t, rd, tree, ipa).level == RTT_MAX_LEVEL
    ensures Grows(t, SetEntry(t, rd, tree, RTT_MAX_LEVEL, ipa, e), rd, tree, ipa, false)
    ensures Leaf(SetEntry(t, rd, tree, RTT_MAX_LEVEL, ipa, e), rd, tree, ipa) == Walked(RTT_MAX_LEVEL, e)
  {
    var t' := SetEntry(t, rd, tree, RTT_MAX_LEVEL, ipa, e);
    forall x | InIpaSpace(x)
      ensures Leaf(t', rd, tree, x)
           == if Leaf(t, rd, tree, x).level == RTT_MAX_LEVEL && AlignDown(x, RTT_MAX_LEVEL) == AlignDown(ipa, RTT_MAX_LEVEL)
              then Walked(RTT_MAX_LEVEL, e) else Leaf(t, rd, tree, x)
    {
      LeafAfterSet(t, rd, tree, ipa, e, x);
    }
    forall l, x | 0 <= l <= RTT_MAX_LEVEL && InIpaSpace(x) && Entry(t', rd, tree, l, x).state == Table
      ensures Entry(t, rd, tree, l, x).state == Table
    {
      EntryAfterSet(t, rd, tree, RTT_MAX_LEVEL, ipa, e, rd, tree, l, x);
    }
  }
}
