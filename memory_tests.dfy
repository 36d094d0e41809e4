/**
 * The memory-hierarchy tests of the C harness (asm_test/comprehensive_asm_test.c
 * lines 782-938): each allocates a working set of `uint32_t`, fills it with
 * `workingSet[i] = i`, then reads it in a warm-up loop and a timed loop, adding
 * every value read into a `uint32_t` sum. The four tests differ only in the
 * working-set size, the iteration count and (for RAM) a stride of 1024
 * elements, so they are one method over a `Level`.
 *
 * The time-stamp readings around the timed loop are inputs; the time and
 * energy figures are left out.
 */
module MemoryTests {
  import opened MachineWords

  /** Lines 13-14. */
  const Iterations: nat := 50_000_000
  const WarmupIterations: nat := 5_000_000

  /** `sizeof(uint32_t)`. */
  const ElementBytes: nat := 4

  /** The four working sets: L1 (lines 782-819), L2 (821-858), L3 (860-897), RAM (899-938). */
  datatype Level = L1 | L2 | L3 | Ram

  /** The name each test copies into its result (lines 783, 822, 861, 900). */
  function MemoryTestName(level: Level): string
  {
    match level
    case L1 => "Memory LOAD (L1)"
    case L2 => "Memory LOAD (L2)"
    case L3 => "Memory LOAD (L3)"
    case Ram => "Memory LOAD (RAM)"
  }

  /** The bytes each test passes to `malloc` (lines 789, 828, 867, 906). */
  function MallocBytes(level: Level): (bytes: nat)
    ensures bytes > 0 && bytes % ElementBytes == 0
  {
    match level
    case L1 => 32 * 1024
    case L2 => 256 * 1024
    case L3 => 8 * 1024 * 1024
    case Ram => 64 * 1024 * 1024
  }

  /** The bound of each initialisation loop, which is also the modulus of its reads (lines 790, 829, 868, 907). */
  function ElementCount(level: Level): (n: nat)
    ensures n > 0 && n * ElementBytes == MallocBytes(level)
  {
    match level
    case L1 => 8 * 1024
    case L2 => 64 * 1024
    case L3 => 2 * 1024 * 1024
    case Ram => 16 * 1024 * 1024
  }

  /** Every working set holds exactly the elements its loops touch: count times four bytes is the allocation. */
  lemma WorkingSetSize(level: Level)
    ensures ElementCount(level) > 0
    ensures ElementCount(level) * ElementBytes == MallocBytes(level)
    ensures MallocBytes(level) / ElementBytes == ElementCount(level)
  {
  }

  /** `int iterations` of lines 795, 834, 873 and 912. */
  function LoopCount(level: Level): (c: nat)
    ensures c > 0 && c / 10 > 0
    ensures c * (if level == Ram then 10000 else 1000) == Iterations
  {
    if level == Ram then Iterations / 10000 else Iterations / 1000
  }

  /**
   * The element read in iteration `i` (lines 798/806, 837/845, 876/884,
   * 915/923): `i % N`, and for RAM `(i * 1024) % N`.
   */
  function AccessIndex(level: Level, i: nat): (k: nat)
    ensures k < ElementCount(level)
  {
    if level == Ram then (i * 1024) % ElementCount(level) else i % ElementCount(level)
  }

  /**
   * The counts the averages divide by are positive, and so are the warm-up
   * counts (lines 795-797, 834-836, 873-875, 912-914; the other tests divide
   * by ITERATIONS and warm up WARMUP_ITERATIONS times).
   */
  lemma CountsPositive(level: Level)
    ensures LoopCount(level) > 0 && LoopCount(level) / 10 > 0
    ensures LoopCount(level) == if level == Ram then 5000 else 50000
    ensures Iterations > 0 && WarmupIterations > 0
  {
  }

  /** The `int` product `i * 1024` of the RAM test cannot overflow for any iteration it runs. */
  lemma StrideFitsInt(i: nat)
    requires i < LoopCount(Ram)
    ensures i * 1024 <= IntMax
  {
  }

  /** The stride visits distinct elements: the 5000 reads of the RAM test never wrap around. */
  lemma StrideDistinct(i: nat, j: nat)
    requires i < j < LoopCount(Ram)
    ensures AccessIndex(Ram, i) < AccessIndex(Ram, j)
  {
    assert j * 1024 < ElementCount(Ram);
  }

  /** The values read by iterations 0..n-1 added up; after `workingSet[i] = i` each value is its index. */
  function ReadSum(level: Level, n: nat): nat
  {
    if n == 0 then 0 else ReadSum(level, n - 1) + AccessIndex(level, n - 1)
  }

  /** The cycles between two counter readings: `end_cycles - start_cycles` on `uint64_t` wraps. */
  function Elapsed(startCycles: nat, endCycles: nat): (d: nat)
    requires startCycles < Two64 && endCycles < Two64
    ensures d < Two64
    ensures startCycles <= endCycles ==> d + startCycles == endCycles
  {
    (endCycles - startCycles) % Two64
  }

  /**
   * Reducing the running sum before each addition, as `uint32_t` does, gives
   * the reduced total. Here and in the read loop the modulus is written as the
   * literal 2^32 rather than `Two32`: the solver handles a literal modulus far
   * more cheaply than a named constant.
   */
  lemma AddWraps(s: nat, v: nat)
    ensures (s % 0x1_0000_0000 + v) % 0x1_0000_0000 == (s + v) % 0x1_0000_0000
  {
  }

  /** One more read keeps the running sum equal to the reduced total of the reads so far. */
  lemma ReadStep(level: Level, sum0: nat, i: nat, sum: nat)
    requires sum == (sum0 + ReadSum(level, i)) % 0x1_0000_0000
    ensures (sum + AccessIndex(level, i)) % 0x1_0000_0000 == (sum0 + ReadSum(level, i + 1)) % 0x1_0000_0000
  {
    AddWraps(sum0 + ReadSum(level, i), AccessIndex(level, i));
  }

  /**
   * One memory test: allocate, fill, warm up, then the timed loop; returns the
   * final `sum` and the average cycles per read (lines 813, 852, 891 and 930)
   * for the given counter readings.
   */
  method MemoryLoad(level: Level, startCycles: nat, endCycles: nat) returns (sum: nat, avgCycles: real)
    requires startCycles < Two64 && endCycles < Two64
    ensures sum == (ReadSum(level, LoopCount(level) / 10) + ReadSum(level, LoopCount(level))) % Two32
    ensures avgCycles == Elapsed(startCycles, endCycles) as real / LoopCount(level) as real
  {
    var workingSet := FillWorkingSet(level);
    var iterations := LoopCount(level);
    CountsPositive(level);
    sum := ReadLoop(workingSet, level, iterations / 10, 0);
    sum := ReadLoop(workingSet, level, iterations, sum);
    avgCycles := Elapsed(startCycles, endCycles) as real / iterations as real;
  }

  /** Lines 789-792 (and their copies): `malloc` the working set and set every element to its index. */
  method FillWorkingSet(level: Level) returns (workingSet: array<nat>)
    ensures fresh(workingSet)
    ensures workingSet.Length == ElementCount(level)
    ensures forall k :: 0 <= k < workingSet.Length ==> workingSet[k] == k
  {
    WorkingSetSize(level);
    workingSet := new nat[MallocBytes(level) / ElementBytes];
    var n := ElementCount(level);
    var i := 0;
    while i < n
      invariant 0 <= i <= n
      invariant forall k :: 0 <= k < i ==> workingSet[k] == k
    {
      workingSet[i] := i;
      i := i + 1;
    }
  }

  /**
   * The warm-up loop (line 797) or the timed loop (line 805): `count` reads of
   * the working set added into the `uint32_t` sum, which starts at `sum0`.
   */
  method ReadLoop(workingSet: array<nat>, level: Level, count: nat, sum0: nat) returns (sum: nat)
    requires workingSet.Length == ElementCount(level)
    requires forall k :: 0 <= k < workingSet.Length ==> workingSet[k] == k
    requires count <= LoopCount(level) && sum0 < 0x1_0000_0000
    ensures sum == (sum0 + ReadSum(level, count)) % 0x1_0000_0000
  {
    sum := sum0;
    var i := 0;
    while i < count
      invariant 0 <= i <= count
      invariant sum == (sum0 + ReadSum(level, i)) % 0x1_0000_0000
    {
      var index := ReadIndex(level, i);
      ReadStep(level, sum0, i, sum);
      sum := (sum + workingSet[index]) % 0x1_0000_0000;
      i := i + 1;
    }
  }

  /** The index expression of the loops, with the `int` arithmetic of the RAM stride checked. */
  method ReadIndex(level: Level, i: nat) returns (index: nat)
    requires i < LoopCount(level)
    ensures index == AccessIndex(level, i) && index < ElementCount(level)
  {
    if level == Ram {
      StrideFitsInt(i);
      var offset := i * 1024;
      assert offset <= IntMax;
      index := offset % ElementCount(level);
    } else {
      index := i % ElementCount(level);
    }
  }
}
