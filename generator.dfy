/**
 * `AssemblyBenchmarkGenerator` (asm_test_maker.py lines 8-233): the object that
 * holds the sizes and the random tables and builds the assembly text and the
 * name-dependent parts of the C driver with `+=` loops. Each method is proved
 * to build exactly the text the specification functions of DataSection and
 * AsmTemplate describe; the properties of that text are lemmas there.
 */
module Generator {
  import opened TextFormat
  import opened DataSection
  import opened AsmTemplate

  function Max(a: int, b: int): int { if a < b then b else a }

  /** The largest value `random.randint(1, 0xFFFFFFFF)` draws. */
  const MaxRandomValue: int := 0xFFFF_FFFF

  class AssemblyBenchmarkGenerator {
    var dataSize: int
    var iterations: int
    var randomData: seq<int>
    var randomAddresses: seq<int>

    /** Lines 9-13 (the Python defaults are 100000 and 1000000). */
    constructor(dataSize: int, iterations: int)
      ensures this.dataSize == dataSize && this.iterations == iterations
      ensures randomData == [] && randomAddresses == []
    {
      this.dataSize := dataSize;
      this.iterations := iterations;
      randomData := [];
      randomAddresses := [];
    }

    /** `random_data` holds `data_size` values in [1, 0xFFFFFFFF] (line 18). */
    predicate DataInRange()
      reads this
    {
      |randomData| == Max(0, dataSize) && forall k :: 0 <= k < |randomData| ==> 1 <= randomData[k] <= MaxRandomValue
    }

    /** `random_addresses` holds `iterations` indices in [0, data_size - 1] (line 21). */
    predicate AddressesInRange()
      reads this
    {
      |randomAddresses| == Max(0, iterations)
      && forall k :: 0 <= k < |randomAddresses| ==> 0 <= randomAddresses[k] <= dataSize - 1
    }

    /**
     * Lines 15-21, with the random draws as inputs: `values` are the draws of
     * line 18 and `indices` those of line 21. `random.randint(0, -1)` raises
     * ValueError, so when there are iterations but no data the call fails
     * after line 18 has already replaced `random_data`.
     */
    method GenerateRandomData(values: seq<int>, indices: seq<int>) returns (raised: bool)
      requires |values| == Max(0, dataSize)
      requires forall k :: 0 <= k < |values| ==> 1 <= values[k] <= MaxRandomValue
      requires !(iterations > 0 && dataSize <= 0) ==>
        |indices| == Max(0, iterations) && forall k :: 0 <= k < |indices| ==> 0 <= indices[k] <= dataSize - 1
      modifies this
      ensures dataSize == old(dataSize) && iterations == old(iterations)
      ensures raised <==> iterations > 0 && dataSize <= 0
      ensures randomData == values && DataInRange()
      ensures !raised ==> randomAddresses == indices && AddressesInRange()
      ensures raised ==> randomAddresses == old(randomAddresses)
    {
      randomData := values;
      if iterations > 0 && dataSize <= 0 {
        return true;
      }
      randomAddresses := indices;
      return false;
    }

    /** Lines 23-50: the `.data` section, built line by line. */
    method CreateDataSection() returns (text: string)
      ensures text == DataSectionText(randomData, randomAddresses, dataSize, iterations)
    {
      text := ".section .data\n";
      text := text + "    .align 64\n";
      text := text + "test_data:\n";
      var words := DataWordLines(randomData);
      text := text + words;
      text := text + "\nrandom_indices:\n";
      var rows := IndexRowLines(randomAddresses);
      text := text + rows;
      text := text + "\ndata_size: .quad " + IntToString(dataSize, 10) + "\n";
      text := text + "iterations: .quad " + IntToString(iterations, 10) + "\n";
    }
    /** Lines 110-188: the data section, the text section header, and the fifteen test functions. */
    method GenerateAssemblyFile() returns (asm: string)
      ensures asm == AssemblyText(randomData, randomAddresses, dataSize, iterations)
    {
      asm := CreateDataSection();
      asm := AppendTextSection(asm, randomData, randomAddresses, dataSize, iterations);
    }
  }

  /**
   * The whole of `benchmark.s` as `generate_assembly_file` returns it for the
   * given tables and sizes.
   */
  function AssemblyText(data: seq<int>, addrs: seq<int>, dataSize: int, iterations: int): string
  {
    DataSectionText(data, addrs, dataSize, iterations)
    + "\n.section .text\n"
    + TextSection(Tests, dataSize - 1, |addrs| - 1)
  }

  /** Lines 111-188 after the data section: the text section header and the test functions. */
  method AppendTextSection(dataSection: string, data: seq<int>, addrs: seq<int>, dataSize: int, iterations: int)
    returns (asm: string)
    requires dataSection == DataSectionText(data, addrs, dataSize, iterations)
    ensures asm == AssemblyText(data, addrs, dataSize, iterations)
  {
    asm := dataSection + "\n.section .text\n";
    var functions := AppendFunctions(Tests, dataSize - 1, |addrs| - 1);
    asm := asm + functions;
  }

  /**
   * Lines 180-186: one function per table entry, appended in table order.
   * `create_instruction_test` (lines 52-108) is TestFunction with the two masks
   * the generator prints: `data_size - 1` and `len(random_addresses) - 1`.
   */
  method AppendFunctions(ts: seq<InstructionTest>, indexMask: int, counterMask: int) returns (text: string)
    ensures text == TextSection(ts, indexMask, counterMask)
  {
    text := "";
    var k := 0;
    assert ts[k..] == ts;
    while k < |ts|
      invariant 0 <= k <= |ts|
      invariant text + TextSection(ts[k..], indexMask, counterMask) == TextSection(ts, indexMask, counterMask)
    {
      var t := ts[k];
      var f := RenderFunction(TestFunction(t.name, t.code, t.setup, t.cleanup, indexMask, counterMask));
      TextSectionFrom(ts, k, indexMask, counterMask);
      AppendStep(text, f, TextSection(ts[k..], indexMask, counterMask),
        TextSection(ts[k + 1..], indexMask, counterMask), TextSection(ts, indexMask, counterMask));
      text := text + f;
      k := k + 1;
    }
    assert ts[k..] == [];
  }

  /** The loop of lines 30-38: one `.quad` line per pair of values, the last value alone after an odd count. */
  method DataWordLines(data: seq<int>) returns (text: string)
    ensures text == Concat(QuadLines(QuadWords(data)))
  {
    text := "";
    var i := 0;
    while i < |data|
      invariant 0 <= i <= |data| + 1
      invariant text + Concat(QuadLines(QuadWords(data[Min(i, |data|)..]))) == Concat(QuadLines(QuadWords(data)))
    {
      QuadLinesStep(data, i);
      var line;
      if i + 1 < |data| {
        var combined := Pack(data[i], data[i + 1]);
        line := QuadLine(combined);
      } else {
        var val := Low32(data[i]);
        line := QuadLine(val);
      }
      AppendStep(text, line, Concat(QuadLines(QuadWords(data[Min(i, |data|)..]))),
        Concat(QuadLines(QuadWords(data[Min(i + 2, |data|)..]))), Concat(QuadLines(QuadWords(data))));
      text := text + line;
      i := i + 2;
    }
    assert data[Min(i, |data|)..] == [];
  }

  /** The loop of lines 41-45: the indices eight to a line, the last line padded with zeros. */
  method IndexRowLines(addrs: seq<int>) returns (text: string)
    ensures text == Concat(IndexLines(IndexRows(addrs)))
  {
    text := "";
    var j := 0;
    while j < |addrs|
      invariant 0 <= j <= |addrs| + 8
      invariant text + Concat(IndexLines(IndexRows(addrs[Min(j, |addrs|)..]))) == Concat(IndexLines(IndexRows(addrs)))
    {
      IndexLinesStep(addrs, j);
      var indices := addrs[j..Min(j + 8, |addrs|)];
      assert indices == Slice(addrs, j, j + 8);
      indices := PadIndices(indices);
      AppendStep(text, IndexLine(indices), Concat(IndexLines(IndexRows(addrs[Min(j, |addrs|)..]))),
        Concat(IndexLines(IndexRows(addrs[Min(j + 8, |addrs|)..]))), Concat(IndexLines(IndexRows(addrs))));
      text := text + IndexLine(indices);
      j := j + 8;
    }
    assert addrs[Min(j, |addrs|)..] == [];
  }

  /** Lines 43-44: `while len(indices) < 8: indices.append(0)`. */
  method PadIndices(row: seq<int>) returns (indices: seq<int>)
    requires |row| <= 8
    ensures |indices| == 8 && indices[..|row|] == row
    ensures forall k :: |row| <= k < 8 ==> indices[k] == 0
    ensures indices == PadRow(row)
  {
    indices := row;
    while |indices| < 8
      invariant |row| <= |indices| <= 8
      invariant indices == row + Zeros(|indices| - |row|)
    {
      indices := indices + [0];
    }
  }

  /** Lines 203-204: one `extern` declaration per name. */
  method DeclareTests(names: seq<string>) returns (text: string)
    ensures text == Concat(RenderDriver(ExternLines(names)))
  {
    text := "";
    var k := 0;
    while k < |names|
      invariant 0 <= k <= |names|
      invariant text + Concat(RenderDriver(ExternLines(names[k..]))) == Concat(RenderDriver(ExternLines(names)))
    {
      var line := "extern void test_" + names[k] + "();\n";
      ExternLinesFrom(names, k);
      AppendStep(text, line, Concat(RenderDriver(ExternLines(names[k..]))),
        Concat(RenderDriver(ExternLines(names[k + 1..]))), Concat(RenderDriver(ExternLines(names))));
      text := text + line;
      k := k + 1;
    }
  }

  /** Lines 232-233: one row `{"<name>", test_<name>}` of the driver's test table per name. */
  method RegisterTests(names: seq<string>) returns (text: string)
    ensures text == Concat(RenderDriver(EntryLines(names)))
  {
    text := "";
    var k := 0;
    while k < |names|
      invariant 0 <= k <= |names|
      invariant text + Concat(RenderDriver(EntryLines(names[k..]))) == Concat(RenderDriver(EntryLines(names)))
    {
      var line := "        {\"" + names[k] + "\", test_" + names[k] + "},\n";
      EntryLinesFrom(names, k);
      AppendStep(text, line, Concat(RenderDriver(EntryLines(names[k..]))),
        Concat(RenderDriver(EntryLines(names[k + 1..]))), Concat(RenderDriver(EntryLines(names))));
      text := text + line;
      k := k + 1;
    }
  }

  /**
   * The name-dependent parts of `create_c_driver` (lines 200-204 and 232-233):
   * the declarations and the table rows for the `instructions` list.
   */
  method CreateDriverNameBlocks() returns (declarations: string, rows: string)
    ensures declarations == Concat(RenderDriver(ExternLines(Instructions)))
    ensures rows == Concat(RenderDriver(EntryLines(Instructions)))
  {
    declarations := DeclareTests(Instructions);
    rows := RegisterTests(Instructions);
  }
}
