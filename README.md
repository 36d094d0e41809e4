# Assembly instruction benchmark: a verified model

This project models the two core files of an x86-64 instruction benchmark in
Dafny.

- **The generator.** `asm_test_maker.py` defines `AssemblyBenchmarkGenerator`.
  It draws random values and random indices and writes an assembly file,
  `benchmark.s`. That file has a `.data` section, with the values packed two to
  a `.quad` word and the indices in rows of eight. It also has a `.text`
  section with one generated function per instruction test. The generator
  also writes the name-dependent parts of a C driver that declares and calls
  those functions.
- **The C harness.** `asm_test/comprehensive_asm_test.c` times hand-written
  instruction loops with the time-stamp counter. It reads energy from AMD
  model-specific registers (MSRs). Its memory-load tests read working sets
  sized for L1, L2, L3 and RAM. Its suite fills a fixed array of result
  records and prints a report, a cache summary and category averages.

The model is split into modules that follow the program's structure:

| file | module | models |
|---|---|---|
| `text_format.dfy` | `TextFormat` | Python's `str(n)`, `format(n, "x")` and `"{:016x}"`, `", ".join`, slicing, and the text a `+=` loop builds |
| `data_section.dfy` | `DataSection` | `create_data_section`: word packing, rows of eight indices, and the text of the section |
| `asm_template.dfy` | `AsmTemplate` | `create_instruction_test`'s template, the `tests` table of `generate_assembly_file`, and the `extern` and table lines of `create_c_driver` |
| `generator.dfy` | `Generator` | the `AssemblyBenchmarkGenerator` class and its building loops, each proved to produce the text of the functions above |
| `counters.dfy` | `Counters` | `rdtsc`, `read_msr` and `get_energy_joules` |
| `memory_tests.dfy` | `MemoryTests` | the four `test_memory_load*` tests |
| `suite.dfy` | `Suite` | `run_comprehensive_test_suite`: which slot each test fills and which slots the report reads |

Modelling choices:

- **Python integers.** They are unbounded, as Dafny's `int` is.
  - `x & 0xFFFFFFFF` is `x % 2^32`.
  - `(hi << 32) | lo` with `lo < 2^32` is `hi * 2^32 + lo`.
- **C widths.** `uint32_t` and `uint64_t` wrap-around are written out as `% 2^32` and `% 2^64`. `int` overflow is checked explicitly.
- **Inputs instead of effects.**
  - The random draws are inputs of `GenerateRandomData`.
  - The counter readings are inputs of `MemoryLoad`.
  - The MSR device file is a value, `MsrDevice`.

## Model

| member | source | states |
|---|---|---|
| `Generator.AssemblyBenchmarkGenerator.constructor` | asm_test_maker.py:9-13 | the sizes are stored and both tables start empty |
| `Generator.AssemblyBenchmarkGenerator.GenerateRandomData` | asm_test_maker.py:15-21 | `random_data` becomes the `data_size` draws, each in [1, 0xFFFFFFFF]. `random_addresses` becomes the `iterations` draws, each in [0, data_size - 1]. With iterations but no data, `randint(0, -1)` raises after `random_data` is already replaced, and `random_addresses` is unchanged |
| `Generator.AssemblyBenchmarkGenerator.CreateDataSection` | asm_test_maker.py:23-50 | the text built with `+=` is exactly `DataSectionText`: the header, the packed words, the index rows, and the two sizes |
| `Generator.DataWordLines` | asm_test_maker.py:30-38 | the pair loop writes one `.quad` line per word of `QuadWords`, in order, with the last value alone after an odd count |
| `Generator.IndexRowLines` | asm_test_maker.py:40-45 | the slice loop writes one line per padded row of `IndexRows`, in order |
| `Generator.PadIndices` | asm_test_maker.py:43-44 | the padding loop gives exactly eight entries: the row, then zeros |
| `Generator.AssemblyBenchmarkGenerator.GenerateAssemblyFile` | asm_test_maker.py:110-188 | the file (`AssemblyText`) is the data section, then `.section .text`, then the fifteen generated functions in table order; `AsmTemplate.FileGlobals` and `AsmTemplate.DriverMatchesAssembly` state what those functions export |
| `Generator.AppendTextSection` | asm_test_maker.py:112-113 | after the data section comes the text-section header, then the functions |
| `Generator.AppendFunctions` | asm_test_maker.py:180-186 | the loop over `tests.items()` appends `create_instruction_test` of each entry in insertion order. The masks are `data_size - 1` and `len(random_addresses) - 1` |
| `Generator.DeclareTests` | asm_test_maker.py:203-204 | one `extern void test_<name>();` line per name, in list order |
| `Generator.RegisterTests` | asm_test_maker.py:232-233 | one `{"<name>", test_<name>},` row per name, in list order |
| `Generator.CreateDriverNameBlocks` | asm_test_maker.py:200-204 | the driver's declarations and table rows are those of the fifteen-name `instructions` list |
| `TextFormat.NatToString` | asm_test_maker.py:45 | `str(n)` and `format(n, "x")` have at least one digit, and exactly one iff n is below the base |
| `TextFormat.NatToStringRoundTrip` | asm_test_maker.py:45 | the printed digits read back as the number |
| `TextFormat.NatToStringWidth` | asm_test_maker.py:35 | a number below base^k prints in at most k digits |
| `TextFormat.PadLeft` | asm_test_maker.py:35 | `016` pads on the left with the fill character up to the width, never truncates, and keeps the digits as the suffix |
| `TextFormat.LeadingZeros` | asm_test_maker.py:35 | leading zeros do not change the value the digits read as |
| `TextFormat.HexPadded16` | asm_test_maker.py:35 | every value below 2^64 prints as exactly 16 lower-case hex digits that read back as the value |
| `TextFormat.IntToStringRoundTrip` | asm_test_maker.py:47-48 | `str(i)` of any integer, including negative sizes, reads back as `i` |
| `TextFormat.Slice` | asm_test_maker.py:42 | `s[i:i + 8]` clamps at the end of the list and keeps the elements from `i` |
| `TextFormat.ConcatAppend` | asm_test_maker.py:30-45 | the text of a list of lines split in two is the two texts concatenated |
| `TextFormat.AppendStep` | asm_test_maker.py:25-48 | loop-step helper for every `+=` loop: appending a line that starts the text still to build keeps "built text + text still to build" equal to the whole text |
| `TextFormat.ConcatFrom` | asm_test_maker.py:203-233 | loop-step helper for the driver loops: the text of lines k.. is line k, then the text of lines k+1.. |
| `DataSection.Low32` | asm_test_maker.py:32 | `x & 0xFFFFFFFF` is below 2^32 and is `x` itself for a 32-bit value |
| `DataSection.Pack` | asm_test_maker.py:32-34 | the word is below 2^64, its low half is the first value and its high half the second |
| `DataSection.QuadWords` | asm_test_maker.py:30-38 | ceil(n/2) words, each below 2^64 |
| `DataSection.QuadWordAt` | asm_test_maker.py:30-38 | word k packs values 2k and 2k+1, or only value 2k when it is the last |
| `DataSection.PackRoundTrip` | asm_test_maker.py:30-38 | unpacking the words, low half first, gives back the values, plus one 0 after an odd count |
| `DataSection.QuadLineLiteral` | asm_test_maker.py:35 | each word line (`QuadLine`) is 29 characters: `    .quad 0x`, then 16 hex digits that read back as the word, then a line break |
| `DataSection.QuadLines` | asm_test_maker.py:30-38 | one line per word, line k for word k |
| `DataSection.PadRow` | asm_test_maker.py:43-44 | a padded row has exactly eight entries: the slice, then zeros |
| `DataSection.IndexRows` | asm_test_maker.py:41-44 | ceil(m/8) rows, each exactly eight entries long |
| `DataSection.IndexRowsShape` | asm_test_maker.py:41-44 | ceil(m/8) rows of exactly eight entries. Read in order, they are the indices followed by fewer than eight zeros |
| `DataSection.FlattenFirstRow` | asm_test_maker.py:42-44 | the first padded row followed by the rest is the indices followed by the padding |
| `DataSection.IndexLines` | asm_test_maker.py:45 | one `.quad` line per row, line k for row k |
| `DataSection.IndexLineReadBack` | asm_test_maker.py:45 | the `.quad` line of a non-empty row holds one comma fewer than the row has entries, so one field per index, and the k-th field reads back as the k-th index |
| `DataSection.SizeLinesReadBack` | asm_test_maker.py:47-48 | each size stands after its label, `data_size: .quad ` or `iterations: .quad `, and its decimal text, negative sizes included, reads back as the size |
| `DataSection.QuadLinesLength` | asm_test_maker.py:30-38 | every word line takes 29 characters, so k words take 29k and the `random_indices:` label that follows them starts at an offset fixed by the number of values |
| `DataSection.Decimals` | asm_test_maker.py:45 | the k-th printed index is `str` of the k-th index |
| `DataSection.QuadLinesStep` | asm_test_maker.py:30-38 | the word lines from value i on are the line for the pair at i, then the lines from i + 2 on |
| `DataSection.IndexLinesStep` | asm_test_maker.py:41-45 | the index lines from j on are the line for the padded row at j, then the lines from j + 8 on |
| `AsmTemplate.TestFunction` | asm_test_maker.py:52-108 | the f-string of `create_instruction_test` has 55 lines: the empty line after the opening quotes first, `ret` second to last, and the empty line of the final newline last. Its symbol and stack lines are stated by `AsmTemplate.TestFunctionShape` |
| `AsmTemplate.FrameShape` | asm_test_maker.py:54-108 | the template's skeleton, whatever text is spliced in, has one global, the two labels, one `jnz` to the loop label, the prologue pushes and the epilogue pops, in order |
| `AsmTemplate.FrameOperands` | asm_test_maker.py:54-108 | what each kind of symbol or stack line of the skeleton names |
| `AsmTemplate.TestFunctionShape` | asm_test_maker.py:52-108 | counting the template's own lines, with each spliced fragment taken as one opaque line: each generated function exports `test_<name>`, defines exactly `test_<name>` and `test_<name>_loop`, jumps back only to its loop, pushes `%rbp` and ten registers, and pops them in exactly the reverse order |
| `AsmTemplate.RestoreOrderReversesSaveOrder` | asm_test_maker.py:57-106 | the pops of lines 96-106 are the pushes of lines 57-68 reversed |
| `AsmTemplate.SaveBlockOperands` | asm_test_maker.py:57-68 | the prologue pushes `%rbp`, then the saved registers, and names no symbol |
| `AsmTemplate.RestoreBlockOperands` | asm_test_maker.py:96-107 | the epilogue pops the registers, then `%rbp`, and names no symbol |
| `AsmTemplate.OperandsOfTexts` | asm_test_maker.py:69-95 | the setup, loop-body and cleanup text lines carry no symbol and no stack operation |
| `AsmTemplate.TableNames` | asm_test_maker.py:116-201 | the `tests` table has 15 entries, and the key of entry k is name k of the driver's `instructions` list |
| `AsmTemplate.TestSymbolsDistinct` | asm_test_maker.py:116-178 | the table's keys are distinct, so the fifteen generated functions export distinct `test_<name>` symbols |
| `AsmTemplate.InstructionsDistinct` | asm_test_maker.py:200-201 | the driver's fifteen names are distinct |
| `AsmTemplate.DriverListsTheTests` | asm_test_maker.py:116-201 | the driver's `instructions` list names the assembly table's tests, in the same order |
| `AsmTemplate.FileGlobals` | asm_test_maker.py:180-186 | the text section exports exactly one `test_<name>` per table entry, in table order |
| `AsmTemplate.SymbolInjective` | asm_test_maker.py:55 | different test names give different symbols |
| `AsmTemplate.DriverMatchesAssembly` | asm_test_maker.py:200-233 | the driver declares and registers exactly the functions the assembly exports, in the same order, and its table prints the tests' names |
| `AsmTemplate.TextSectionFrom` | asm_test_maker.py:180-186 | the functions of entries k.. are the function of entry k, then those of entries k+1.. |
| `AsmTemplate.ExternLinesFrom` | asm_test_maker.py:203-204 | the declarations of names k.. are the declaration of name k, then the rest |
| `AsmTemplate.EntryLinesFrom` | asm_test_maker.py:232-233 | the table rows of names k.. are the row of name k, then the rest |
| `AsmTemplate.ExternLines` | asm_test_maker.py:203-204 | one declaration of `test_<name>` per name, in order |
| `AsmTemplate.EntryLines` | asm_test_maker.py:232-233 | one row pairing each name with `test_<name>`, in order |
| `Counters.Rdtsc` | asm_test/comprehensive_asm_test.c:33-37 | `lo` combined with `hi` shifted left by 32: the low 32 bits of the result are `lo` and the high bits are `hi` |
| `Counters.RdtscRoundTrip` | asm_test/comprehensive_asm_test.c:33-37 | every 64-bit counter value comes from exactly one pair of halves |
| `Counters.RdtscOrder` | asm_test/comprehensive_asm_test.c:33-37 | one reading is below another iff its high half is smaller, or the high halves are equal and its low half is smaller |
| `Counters.ReadMsr` | asm_test/comprehensive_asm_test.c:40-58 | a failed open or a short read gives 0. Otherwise the result is the register's value, and a nonzero result always comes from a present register |
| `Counters.ScaleExponent` | asm_test/comprehensive_asm_test.c:69 | `(unit_raw >> 8) & 0x1F` is below 32 |
| `Counters.ScaleExponentField` | asm_test/comprehensive_asm_test.c:69 | the exponent is exactly bits 8-12 of the register, whatever the other bits hold |
| `Counters.GetEnergyJoules` | asm_test/comprehensive_asm_test.c:61-71 | no reading iff either register reads 0. Otherwise the reading is the core energy counter, scaled by the exponent of the power-unit register |
| `Counters.EnergyZeroGuard` | asm_test/comprehensive_asm_test.c:65-70 | the energy is exactly 0 iff either register reads 0, and is never negative |
| `Counters.NoDeviceNoEnergy` | asm_test/comprehensive_asm_test.c:46-49 | without the device file there is never a reading |
| `Counters.IntShiftAsWritten` | asm_test/comprehensive_asm_test.c:69 | `1 << e` on an `int` is defined iff e <= 30, and is then 2^e |
| `Counters.IntShiftOverflows` | asm_test/comprehensive_asm_test.c:69 | a power-unit register of 0x1F00 gives exponent 31, for which the shift as written overflows |
| `Counters.EnergyDivisor` | asm_test/comprehensive_asm_test.c:69 | the corrected 64-bit divisor is 2^e, at least 1, for every exponent the field holds |
| `Counters.DivisorAgreesWhereDefined` | asm_test/comprehensive_asm_test.c:69 | the corrected divisor equals the shift as written wherever the latter is defined |
| `Counters.Pow2Bounds` | asm_test/comprehensive_asm_test.c:69 | 2^e fits in an `int` iff e <= 30, and fits in 64 bits for e < 64 |
| `MemoryTests.MallocBytes` | asm_test/comprehensive_asm_test.c:789-906 | the four allocations (32 KiB, 256 KiB, 8 MiB, 64 MiB at lines 789, 828, 867, 906) are positive whole numbers of 4-byte elements |
| `MemoryTests.ElementCount` | asm_test/comprehensive_asm_test.c:790-907 | the bound of each initialisation loop and modulus of its reads (lines 790, 829, 868, 907) is positive and is exactly the allocation divided by 4 bytes |
| `MemoryTests.LoopCount` | asm_test/comprehensive_asm_test.c:795-912 | `ITERATIONS / 1000`, or `/ 10000` for RAM (lines 795, 834, 873, 912), divides ITERATIONS exactly and is positive, and so is its tenth, the warm-up count |
| `MemoryTests.WorkingSetSize` | asm_test/comprehensive_asm_test.c:789-907 | each working set's element count times 4 bytes is exactly its `malloc` size, at 8K, 64K, 2M and 16M elements |
| `MemoryTests.AccessIndex` | asm_test/comprehensive_asm_test.c:798 | every index read, `i % N` or `(i * 1024) % N`, is inside the working set |
| `MemoryTests.CountsPositive` | asm_test/comprehensive_asm_test.c:795-797 | the loop counts are 50000 and 5000, and they, their tenths and the global counts are positive, so every average divides by a positive count |
| `MemoryTests.StrideFitsInt` | asm_test/comprehensive_asm_test.c:912-923 | `i * 1024` never overflows an `int` for the 5000 RAM iterations |
| `MemoryTests.StrideDistinct` | asm_test/comprehensive_asm_test.c:915-923 | the RAM stride reads strictly increasing, hence distinct, elements |
| `MemoryTests.Elapsed` | asm_test/comprehensive_asm_test.c:813 | `end - start` on `uint64_t` stays below 2^64 and is the true difference when the counter has not wrapped |
| `MemoryTests.AddWraps` | asm_test/comprehensive_asm_test.c:798 | reducing the `uint32_t` sum before each addition gives the reduced total |
| `MemoryTests.ReadStep` | asm_test/comprehensive_asm_test.c:805-807 | one more read keeps the sum equal to the reduced total of the reads so far |
| `MemoryTests.MemoryLoad` | asm_test/comprehensive_asm_test.c:782-819 | the final sum is the total of the warm-up and timed reads modulo 2^32, and the average is the elapsed cycles over the timed count |
| `MemoryTests.FillWorkingSet` | asm_test/comprehensive_asm_test.c:789-792 | a fresh working set of the level's element count, with every element equal to its index |
| `MemoryTests.ReadLoop` | asm_test/comprehensive_asm_test.c:805-807 | `count` reads added into the `uint32_t` sum give the starting sum plus the read indices, modulo 2^32 |
| `MemoryTests.ReadIndex` | asm_test/comprehensive_asm_test.c:915 | the index computed with `int` arithmetic is the access index and lies in the working set |
| `Suite.NamesFit` | asm_test/comprehensive_asm_test.c:24 | there are TEST_COUNT - 1 names, and each fits `char name[64]` with its terminating NUL, so no `strcpy` overruns |
| `Suite.SuiteNamesDistinct` | asm_test/comprehensive_asm_test.c:76-941 | the 24 names the tests copy into their records are distinct, so each report line names a different test |
| `Suite.FillResults` | asm_test/comprehensive_asm_test.c:995-1042 | test k writes slot k, and the slots after the last test keep what they held |
| `Suite.Report` | asm_test/comprehensive_asm_test.c:1049-1055 | the report prints the names of slots 0 to count - 1, in order |
| `Suite.CacheSlot` | asm_test/comprehensive_asm_test.c:1057-1061 | the cache summary reads slots 19 to 22 |
| `Suite.CacheSummaryReadsMemoryTests` | asm_test/comprehensive_asm_test.c:1058-1061 | each cache-summary slot holds the memory test of its level |
| `Suite.CategoryAverages` | asm_test/comprehensive_asm_test.c:1063-1071 | each category average divides by exactly the number of slots it adds. The slots are distinct and were all filled by a test |
| `Suite.RunComprehensiveTestSuite` | asm_test/comprehensive_asm_test.c:985-1061 | the report prints the 24 test names in call order, and the cache summary the four memory tests. Slot 24 is never written and never read |

## Left out

- `Generator.AssemblyBenchmarkGenerator.constructor`: the Python defaults (`data_size=100000`, `iterations=1000000`) are not modelled. The sizes are always explicit arguments.
- The mask caveat. The generator prints the masks `data_size - 1` and `len(random_addresses) - 1` into `and` instructions. They act as a modulo only when the sizes are powers of two. The defaults, 100000 and 1000000, are not, so the masked index can skip entries or leave the table. The model prints the masks exactly as the source does and claims no range property for them.
- The fixed text of the C driver outside the two name blocks (lines 192-198, 206-230, 235-266) is not modelled. It does not depend on any input except `iterations`.
- `create_makefile` (lines 268-370) is not modelled. It returns a constant Makefile text.
- `generate_benchmark` (lines 372-415) is not modelled. It calls the generator's methods, writes their results to three files and prints usage text.
- Randomness. `random.randint` draws are inputs of `GenerateRandomData`, constrained to the ranges the source draws from.
- Console output and the file writes are left out. This covers the `print` calls of the generator and the `printf` calls of the harness. Only which names and slots they read is modelled.
- Timing. `clock_gettime`, the inline `rdtsc` instruction and the energy deltas are left out. The counter halves and readings are inputs.
- Floating point. `MemoryTests.MemoryLoad` divides exactly, in Dafny's `real`, where the source uses `double`. `Counters.GetEnergyJoules` returns the exact reading (`raw / 2^e`), not a `double`.
- `Counters.ReadMsr` models the device as a map of registers. `snprintf` of the path and the CPU number are not modelled. `MSR_PKG_ENERGY` is declared but the harness never reads it.
- `MemoryTests.FillWorkingSet` assumes `malloc` succeeds; the source does not check for `NULL` either. `free` is not modelled.
- `AsmTemplate.TestFunctionShape`, `AsmTemplate.FileGlobals` and `AsmTemplate.OperandsOfTexts` treat each spliced fragment (`setup_code`, `asm_code`, `cleanup_code`, lines 76, 85 and 93) as one opaque line. They state the shape of the template's own lines only. A fragment that itself contained a label, a push, a pop, a `jnz` or a `.global` would add lines these lemmas do not count. None of the fifteen fragments in the table does, but the model does not state that.
- `volatile` accesses are modelled as plain reads and writes.
- The instruction tests other than the memory loads (arithmetic, logic, SIMD, bit manipulation, branch) run inline assembly. Only their names and the slots they fill are modelled, in `Suite`.
- `main.c`, `manual_benchmark.c` and the three timing scripts (`timetest.py`, `time-test-cli.py`, `time-test-gui.py`) are not part of this model.

## Findings

| source | as written | input that shows it | evidently intended | confidence | as-written member | corrected member |
|---|---|---|---|---|---|---|
| asm_test/comprehensive_asm_test.c:69 | `1 << ((unit_raw >> 8) & 0x1F)` shifts the `int` constant 1. For exponent 31 the result exceeds `INT_MAX`, which C leaves undefined | `unit_raw = 0x1F00` (exponent field 31) | a 64-bit shift `1ULL << e`, giving 2^e for every exponent 0-31 | not executed | `Counters.IntShiftOverflows` | `Counters.EnergyDivisor` |
