/**
 * `run_comprehensive_test_suite` (asm_test/comprehensive_asm_test.c lines
 * 985-1072): an array of TEST_COUNT result records, of which the 24 tests
 * fill slots 0 to 23 in a fixed order; the report then prints slots below
 * TEST_COUNT - 1, the cache summary reads slots 19 to 22, and four category
 * averages read fixed groups of slots.
 *
 * A record is modelled by the one field every test sets first, its name
 * (`strcpy(result->name, ...)`); a slot no test has written holds
 * indeterminate memory and is `Unset`. The timing and energy fields are
 * left out.
 */
module Suite {
  import opened MemoryTests

  /** Line 16. */
  const TestCount: nat := 25

  /** The `name` field is `char name[64]` (line 24). */
  const NameCapacity: nat := 64

  /** The names the tests copy into their records, in the order lines 995-1042 call them. */
  const SuiteNames: seq<string> := [
    "ADD (32-bit)", "SUB (32-bit)", "IMUL (32-bit)", "DIV (32-bit)",
    "AND (32-bit)", "OR (32-bit)", "XOR (32-bit)",
    "SHL (32-bit)", "SHR (32-bit)",
    "MOV (register)", "CMP (32-bit)",
    "SSE2 PADDQ", "SSE ADDPS", "SSE MULPS",
    "AVX2 VPADDQ", "AVX VADDPS", "AVX VMULPS",
    "POPCNT (64-bit)", "LZCNT (64-bit)",
    "Memory LOAD (L1)", "Memory LOAD (L2)", "Memory LOAD (L3)", "Memory LOAD (RAM)",
    "Branch (taken)"
  ]

  /** The tests write distinct names, so every line of the report names a different test. */
  lemma SuiteNamesDistinct()
    ensures forall i, j :: 0 <= i < j < |SuiteNames| ==> SuiteNames[i] != SuiteNames[j]
  {
  }

  datatype Slot = Unset | Filled(name: string)

  /** Every name fits its record with its terminating NUL, so no `strcpy` overruns. */
  lemma NamesFit()
    ensures |SuiteNames| == TestCount - 1
    ensures forall k :: 0 <= k < |SuiteNames| ==> |SuiteNames[k]| + 1 <= NameCapacity
  {
  }

  /** Lines 995-1042: test k writes its name into slot k; the slots after the last test keep what they held. */
  method FillResults(results: array<Slot>, names: seq<string>)
    requires |names| <= results.Length
    modifies results
    ensures forall k :: 0 <= k < |names| ==> results[k] == Filled(names[k])
    ensures forall k :: |names| <= k < results.Length ==> results[k] == old(results[k])
  {
    var k := 0;
    while k < |names|
      invariant 0 <= k <= |names|
      invariant forall j :: 0 <= j < k ==> results[j] == Filled(names[j])
      invariant forall j :: k <= j < results.Length ==> results[j] == old(results[j])
    {
      results[k] := Filled(names[k]);
      k := k + 1;
    }
  }

  /** Reading a record's name; reading a slot no test wrote would print indeterminate memory. */
  function NameOf(s: Slot): string
    requires s.Filled?
  {
    s.name
  }

  /** Lines 1049-1055: the report prints slots 0 to count-1 in order. */
  method Report(results: array<Slot>, count: nat) returns (printed: seq<string>)
    requires count <= results.Length
    requires forall k :: 0 <= k < count ==> results[k].Filled?
    ensures |printed| == count
    ensures forall k :: 0 <= k < count ==> printed[k] == results[k].name
  {
    printed := [];
    var i := 0;
    while i < count
      invariant 0 <= i <= count && |printed| == i
      invariant forall k :: 0 <= k < i ==> printed[k] == results[k].name
    {
      printed := printed + [NameOf(results[i])];
      i := i + 1;
    }
  }

  /** The slot of each memory test, read by the cache summary (lines 1058-1061). */
  function CacheSlot(level: Level): (k: nat)
    ensures 19 <= k <= 22
  {
    match level
    case L1 => 19
    case L2 => 20
    case L3 => 21
    case Ram => 22
  }

  /** The cache summary reads exactly the four memory tests, each from its own slot. */
  lemma CacheSummaryReadsMemoryTests(level: Level)
    ensures CacheSlot(level) < |SuiteNames|
    ensures SuiteNames[CacheSlot(level)] == MemoryTestName(level)
  {
    NamesFit();
    match level
    case L1 => assert SuiteNames[19] == "Memory LOAD (L1)";
    case L2 => assert SuiteNames[20] == "Memory LOAD (L2)";
    case L3 => assert SuiteNames[21] == "Memory LOAD (L3)";
    case Ram => assert SuiteNames[22] == "Memory LOAD (RAM)";
  }

  /** The four category averages of lines 1063-1072. */
  datatype Category = Arithmetic | Logical | SimdInteger | SimdFloat

  /** The slots each average adds up. */
  function CategorySlots(c: Category): seq<nat>
  {
    match c
    case Arithmetic => [0, 1, 2, 3]
    case Logical => [4, 5, 6]
    case SimdInteger => [11, 14]
    case SimdFloat => [12, 13, 15, 16]
  }

  /** The constant each sum is divided by. */
  function CategoryDivisor(c: Category): nat
  {
    match c
    case Arithmetic => 4
    case Logical => 3
    case SimdInteger => 2
    case SimdFloat => 4
  }

  /** Each average divides by the number of slots it adds, and reads only filled slots, each once. */
  lemma CategoryAverages(c: Category)
    ensures CategoryDivisor(c) == |CategorySlots(c)| > 0
    ensures forall j :: 0 <= j < |CategorySlots(c)| ==> CategorySlots(c)[j] < |SuiteNames|
    ensures forall i, j :: 0 <= i < j < |CategorySlots(c)| ==> CategorySlots(c)[i] < CategorySlots(c)[j]
  {
    NamesFit();
  }

  /**
   * Lines 985-1061: fill the records, print the report over slots below
   * TEST_COUNT - 1, and read the cache summary. The report prints the 24
   * names in call order and the summary the four memory tests; slot 24 is
   * never written and never read.
   */
  method RunComprehensiveTestSuite() returns (printed: seq<string>, cache: seq<string>)
    ensures printed == SuiteNames
    ensures |cache| == 4
    ensures cache == [MemoryTestName(L1), MemoryTestName(L2), MemoryTestName(L3), MemoryTestName(Ram)]
  {
    var results := new Slot[TestCount](_ => Unset);
    NamesFit();
    FillResults(results, SuiteNames);
    printed := Report(results, TestCount - 1);
    assert results[TestCount - 1] == Unset;
    CacheSummaryReadsMemoryTests(L1);
    CacheSummaryReadsMemoryTests(L2);
    CacheSummaryReadsMemoryTests(L3);
    CacheSummaryReadsMemoryTests(Ram);
    cache := [NameOf(results[CacheSlot(L1)]), NameOf(results[CacheSlot(L2)]),
              NameOf(results[CacheSlot(L3)]), NameOf(results[CacheSlot(Ram)])];
  }
}
