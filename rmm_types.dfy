/**
 * Values shared by the monitor model and the conformance tests that drive it:
 * granule and mapping states, the packed command return code, realm exits,
 * PSCI function identifiers and the geometry of the stage 2 translation tables.
 */
module RmmTypes {

  const PAGE_SIZE: int := 0x1000
  /** Entries in one translation table. */
  const RTT_ENTRIES: int := 512
  const RTT_MAX_LEVEL: int := 3
  /** Size of the area mapped by one level 2 entry: 512 pages. */
  const L2_SIZE: int := 0x20_0000
  /** Size of the area mapped by one level 1 entry: 512 level 2 entries. */
  const L1_SIZE: int := 0x4000_0000
  /** Size of the area mapped by one level 0 entry: 512 level 1 entries. */
  const L0_SIZE: int := 0x80_0000_0000

  /** Size of the address range that one entry at `level` maps. */
  function LevelSize(level: int): (size: int)
    requires 0 <= level <= RTT_MAX_LEVEL
    ensures size >= PAGE_SIZE && size % PAGE_SIZE == 0
    ensures level < RTT_MAX_LEVEL ==> size == RTT_ENTRIES * LevelSize(level + 1)
    decreases RTT_MAX_LEVEL - level
  {
    if level == 3 then PAGE_SIZE
    else if level == 2 then L2_SIZE
    else if level == 1 then L1_SIZE
    else L0_SIZE
  }

  /** The start of the `level` block that contains `x`. */
  function AlignDown(x: int, level: int): (r: int)
    requires 0 <= level <= RTT_MAX_LEVEL
    ensures r <= x < r + LevelSize(level)
    ensures r % LevelSize(level) == 0 && r % PAGE_SIZE == 0
  {
    AlignFacts(x, level);
    if level == 3 then x / PAGE_SIZE * PAGE_SIZE
    else if level == 2 then x / L2_SIZE * L2_SIZE
    else if level == 1 then x / L1_SIZE * L1_SIZE
    else x / L0_SIZE * L0_SIZE
  }

  /** Euclidean remainder by an entry size is determined by any quotient-remainder split. */
  lemma ModUnique(x: int, level: int, q: int, r: int)
    requires 0 <= level <= RTT_MAX_LEVEL
    requires x == LevelSize(level) * q + r && 0 <= r < LevelSize(level)
    ensures x % LevelSize(level) == r
  {
  }

  /** Rounding down to a multiple of an entry size stays within one entry and is aligned to a page. */
  lemma AlignFacts(x: int, level: int)
    requires 0 <= level <= RTT_MAX_LEVEL
    ensures var s := LevelSize(level);
            x / s * s <= x < x / s * s + s && (x / s * s) % s == 0 && (x / s * s) % PAGE_SIZE == 0
  {
    var s := LevelSize(level);
    var q := x / s;
    ModUnique(q * s, level, q, 0);
    var k := s / PAGE_SIZE;
    assert s == PAGE_SIZE * k;
    assert q * s == PAGE_SIZE * (q * k);
    ModUnique(q * s, RTT_MAX_LEVEL, q * k, 0);
  }

  /** Aligning first to a finer level does not change the coarser block. */
  lemma AlignCoarser(x: int, level: int)
    requires 1 <= level <= RTT_MAX_LEVEL
    ensures AlignDown(AlignDown(x, level), level - 1) == AlignDown(x, level - 1)
  {
    var big, small := LevelSize(level - 1), LevelSize(level);
    var q1, r1 := x / big, x % big;
    var q2, r2 := r1 / small, r1 % small;
    assert x == big * q1 + r1;
    assert r1 == small * q2 + r2;
    ModUnique(x, level, 512 * q1 + q2, r2);
    assert AlignDown(x, level) == x - r2;
    ModUnique(x - r2, level - 1, q1, r1 - r2);
  }

  /**
   * An address's block at `level` is its block one level up plus the
   * position of the `level` entry inside it.
   */
  lemma AlignSplit(x: int, level: int)
    requires 1 <= level <= RTT_MAX_LEVEL
    ensures AlignDown(x, level - 1) + x % LevelSize(level - 1) / LevelSize(level) * LevelSize(level)
         == AlignDown(x, level)
  {
    var big, small := LevelSize(level - 1), LevelSize(level);
    var q1, r1 := x / big, x % big;
    var q2, r2 := r1 / small, r1 % small;
    assert x == big * q1 + r1;
    assert r1 == small * q2 + r2;
    ModUnique(x, level, 512 * q1 + q2, r2);
    assert AlignDown(x, level) == x - r2;
  }

  /** Two addresses in the same block at `level` are in the same block at every coarser level. */
  lemma {:induction false} SameBlock(x: int, y: int, level: int, coarser: int)
    requires 0 <= coarser <= level <= RTT_MAX_LEVEL
    requires AlignDown(x, level) == AlignDown(y, level)
    ensures AlignDown(x, coarser) == AlignDown(y, coarser)
    decreases level - coarser
  {
    if coarser < level {
      AlignCoarser(x, level);
      AlignCoarser(y, level);
      SameBlock(x, y, level - 1, coarser);
    }
  }

  /** The sum of two page multiples is a page multiple. */
  lemma AddPages(a: int, b: int)
    requires a % PAGE_SIZE == 0 && b % PAGE_SIZE == 0
    ensures (a + b) % PAGE_SIZE == 0
  {
    ModUnique(a + b, RTT_MAX_LEVEL, a / PAGE_SIZE + b / PAGE_SIZE, 0);
  }

  /** An aligned address plus a smaller offset stays in its block. */
  lemma AlignOffset(a: int, c: int, level: int)
    requires 0 <= level <= RTT_MAX_LEVEL
    requires a % LevelSize(level) == 0 && 0 <= c < LevelSize(level)
    ensures AlignDown(a + c, level) == a
  {
    ModUnique(a + c, level, a / LevelSize(level), c);
  }

  function Pow2(n: nat): (r: nat)
    ensures r >= 1
  {
    if n == 0 then 1 else 2 * Pow2(n - 1)
  }

  lemma {:induction false} Pow2Add(a: nat, b: nat)
    ensures Pow2(a + b) == Pow2(a) * Pow2(b)
    decreases a
  {
    if a > 0 {
      Pow2Add(a - 1, b);
    }
  }

  /** Pow2Add with the two factors already known. */
  lemma Pow2Mul(a: nat, b: nat, pa: nat, pb: nat)
    requires Pow2(a) == pa && Pow2(b) == pb
    ensures Pow2(a + b) == pa * pb
  {
    Pow2Add(a, b);
  }

  /** 2^39 is the size of a level 0 entry. */
  lemma Pow2Of39()
    ensures Pow2(39) == L0_SIZE
  {
    assert Pow2(3) == 8;
    Pow2Mul(3, 3, 8, 8);
    Pow2Mul(6, 6, 64, 64);
    Pow2Mul(12, 12, 0x1000, 0x1000);
    Pow2Mul(24, 12, 0x100_0000, 0x1000);
    Pow2Mul(36, 3, 0x10_0000_0000, 8);
  }

  /** From 39 bits on, 2^n is a multiple of the level 0 entry size. */
  lemma Pow2Aligned(n: nat)
    requires n >= 39
    ensures Pow2(n) % L0_SIZE == 0 && Pow2(n) >= L0_SIZE
  {
    Pow2Of39();
    var q := Pow2(n - 39);
    Pow2Mul(n - 39, 39, q, L0_SIZE);
    assert Pow2(n) == L0_SIZE * q + 0;
    ModUnique(Pow2(n), 0, q, 0);
  }

  /** A byte of host or realm memory. */
  type byte = x: int | 0 <= x < 256

  /** Contents of one granule of memory. */
  type Page = seq<byte>

  function FilledPage(b: byte): (p: Page)
    ensures |p| == PAGE_SIZE && forall i :: 0 <= i < |p| ==> p[i] == b
  {
    seq(PAGE_SIZE, _ => b)
  }

  /** Granule states tracked by the monitor (granule state machine). */
  datatype GranuleState = Undelegated | Delegated | Rd | Rec | RecAux | Data | Rtt

  /** Host-visible state of a translation table entry. */
  datatype Hipas = Unassigned | Assigned | AssignedNs | Table

  /** Realm-visible state of a protected IPA. */
  datatype Ripas = Empty | Ram | Destroyed

  /** Attribute bits of a descriptor that the tests name. */
  datatype MemAttr = NormalWb | ReadOnly | Dbm

  /** A translation table descriptor: output address plus attribute bits. */
  datatype Desc = Desc(oa: int, attrs: set<MemAttr>)

  const NO_DESC := Desc(0, {})

  /** Status part of a packed command return code. */
  datatype Status =
    | Success
    | ErrorInput
    | ErrorRealm
    | ErrorRec
    | ErrorRtt
      /** A status this model does not need to name. */
    | OtherError(id: nat)

  /** A packed return code: status and index (RMI PACK_CODE). */
  datatype Code = Code(status: Status, index: nat)

  const SUCCESS := Code(Success, 0)

  /** PSCI functions a realm can request. */
  datatype PsciFn = CpuOn | CpuOff | SystemReset | SystemOff | AffinityInfo

  /** PSCI status values a host passes to the completion command. */
  datatype PsciStatus = PsciSuccess | PsciNotSupported

  /**
   * Why a REC returned control to the host, with the registers the tests read:
   * the PSCI function and target MPIDR, the requested S2AP range, the IPA of
   * an instruction abort.
   */
  datatype RecExit =
    | HostCallExit
    | PsciExit(fid: PsciFn, target: nat)
    | S2apChangeExit(base: int, top: int)
    | InstAbortExit(ipa: int)
    | IrqExit

  /** Outcome of a test (RESULT_PASS, RESULT_FAIL(point), RESULT_SKIP). */
  datatype Verdict = Pass | Fail(point: int) | Skip
}
