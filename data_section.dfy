/**
 * The `.data` section that `AssemblyBenchmarkGenerator.create_data_section`
 * writes (asm_test_maker.py lines 23-50): the random values packed two by two
 * into 64-bit `.quad` words under `test_data:`, the random indices in rows of
 * eight under `random_indices:`, and the two sizes.
 *
 * Python integers are unbounded; `x & 0xFFFFFFFF` is modelled as `x % 2^32`
 * (for negative `x` both give the low 32 bits of the two's-complement form),
 * and `(hi << 32) | lo` with `lo < 2^32` as `hi * 2^32 + lo`.
 */
module DataSection {
  import opened TextFormat
  import opened MachineWords

  /** `x & 0xFFFFFFFF`. */
  function Low32(x: int): (r: nat)
    ensures r < Two32
    ensures 0 <= x < Two32 ==> r == x
  {
    x % Two32
  }

  /** Bits 32..63 of a word: `(q >> 32) & 0xFFFFFFFF`. */
  function High32(q: nat): (r: nat)
    ensures r < Two32
    ensures q < Two32 ==> r == 0
  {
    (q / Two32) % Two32
  }

  /** One packed word (lines 32-34): the second value in the high half, the first in the low half. */
  function Pack(first: int, second: int): (q: nat)
    ensures q < Two64
    ensures Low32(q) == Low32(first)
    ensures High32(q) == Low32(second)
  {
    Low32(second) * Two32 + Low32(first)
  }

  /** The values of the `.quad` lines under `test_data:`, in the order of the loop at lines 30-38. */
  function QuadWords(data: seq<int>): (qs: seq<nat>)
    ensures |qs| == (|data| + 1) / 2
    ensures forall k :: 0 <= k < |qs| ==> qs[k] < Two64
    decreases |data|
  {
    if |data| == 0 then []
    else if |data| == 1 then [Low32(data[0])]
    else [Pack(data[0], data[1])] + QuadWords(data[2..])
  }

  /** The k-th word packs values 2k and 2k+1; the word after an odd count holds only the last value. */
  lemma {:induction false} QuadWordAt(data: seq<int>, k: nat)
    requires k < (|data| + 1) / 2
    ensures QuadWords(data)[k] ==
      if 2 * k + 1 < |data| then Pack(data[2 * k], data[2 * k + 1]) else Low32(data[2 * k])
    decreases k
  {
    if k > 0 {
      QuadWordAt(data[2..], k - 1);
    }
  }

  /** Splits words back into 32-bit values, low half first (the reader of `test_data`). */
  function Unpack(qs: seq<nat>): (vs: seq<nat>)
    ensures |vs| == 2 * |qs|
  {
    if qs == [] then [] else [Low32(qs[0]), High32(qs[0])] + Unpack(qs[1..])
  }

  function Zeros(k: nat): (z: seq<int>)
    ensures |z| == k && forall i :: 0 <= i < k ==> z[i] == 0
  {
    if k == 0 then [] else [0] + Zeros(k - 1)
  }

  predicate AllWords32(data: seq<int>)
  {
    forall i :: 0 <= i < |data| ==> 0 <= data[i] < Two32
  }

  /** Round trip: unpacking the words gives back the 32-bit values, plus one zero after an odd count. */
  lemma {:induction false} PackRoundTrip(data: seq<int>)
    requires AllWords32(data)
    ensures Unpack(QuadWords(data)) == data + Zeros(|data| % 2)
    decreases |data|
  {
    if |data| == 0 {
    } else if |data| == 1 {
      UnpackCons(Low32(data[0]), []);
      assert Unpack([Low32(data[0])]) == [data[0], 0];
    } else {
      var head, rest := [data[0], data[1]], data[2..];
      var tail := Zeros(|data| % 2);
      PackRoundTrip(rest);
      ParityStep(|data|);
      PackHalves(data[0], data[1]);
      UnpackCons(Pack(data[0], data[1]), QuadWords(rest));
      calc {
        Unpack(QuadWords(data));
        Unpack([Pack(data[0], data[1])] + QuadWords(rest));
        head + Unpack(QuadWords(rest));
        head + (rest + tail);
        { assert data == head + rest; }
        data + tail;
      }
    }
  }

  /** The halves of a packed word are the two values packed, when both fit in 32 bits. */
  lemma PackHalves(first: int, second: int)
    requires 0 <= first < Two32 && 0 <= second < Two32
    ensures Low32(Pack(first, second)) == first && High32(Pack(first, second)) == second
  {
  }

  lemma ParityStep(n: nat)
    requires n >= 2
    ensures (n - 2) % 2 == n % 2
  {
  }

  lemma UnpackCons(q: nat, qs: seq<nat>)
    ensures Unpack([q] + qs) == [Low32(q), High32(q)] + Unpack(qs)
  {
    assert ([q] + qs)[1..] == qs;
  }

  /** Line 35 / 38: `"    .quad 0x" + format(word, "016x")`. */
  function QuadLine(q: nat): string
  {
    "    .quad 0x" + HexPadded(q, 16) + "\n"
  }

  /** Every word line holds exactly 16 lower-case hex digits, and they read back as the word. */
  lemma QuadLineLiteral(q: nat)
    requires q < Two64
    ensures var h := QuadLine(q)[12..28];
      |QuadLine(q)| == 29 && QuadLine(q) == "    .quad 0x" + h + "\n" &&
      IsDigitString(h, 16) && StringToNat(h, 16) == q
  {
    Pow16To16();
    HexPadded16(q);
    var h := HexPadded(q, 16);
    assert QuadLine(q)[12..28] == h;
  }

  /** The lines of the `test_data` block, one per word. */
  function QuadLines(qs: seq<nat>): (lines: seq<string>)
    ensures |lines| == |qs|
    ensures forall k :: 0 <= k < |qs| ==> lines[k] == QuadLine(qs[k])
  {
    if qs == [] then [] else [QuadLine(qs[0])] + QuadLines(qs[1..])
  }

  /** Lines 43-44: the `while len(indices) < 8: indices.append(0)` padding. */
  function PadRow(row: seq<int>): (r: seq<int>)
    requires |row| <= 8
    ensures |r| == 8 && r[..|row|] == row
    ensures forall k :: |row| <= k < 8 ==> r[k] == 0
  {
    row + Zeros(8 - |row|)
  }

  /** Lines 41-44: the indices cut into slices of eight, each padded to eight. */
  function IndexRows(addrs: seq<int>): (rows: seq<seq<int>>)
    ensures |rows| == (|addrs| + 7) / 8
    ensures forall r :: 0 <= r < |rows| ==> |rows[r]| == 8
    decreases |addrs|
  {
    if |addrs| == 0 then []
    else
      var row := Slice(addrs, 0, 8);
      [PadRow(row)] + IndexRows(addrs[|row|..])
  }

  function Flatten(rows: seq<seq<int>>): seq<int>
  {
    if rows == [] then [] else rows[0] + Flatten(rows[1..])
  }

  /** How many zeros pad the last row of m indices. */
  function PadCount(m: nat): (z: nat)
    ensures z < 8 && (m + z) % 8 == 0
  {
    (8 - m % 8) % 8
  }

  /** ceil(m/8) rows of exactly eight, which read in order are the indices followed by fewer than eight zeros. */
  lemma {:induction false} IndexRowsShape(addrs: seq<int>)
    ensures |IndexRows(addrs)| == (|addrs| + 7) / 8
    ensures forall r :: 0 <= r < |IndexRows(addrs)| ==> |IndexRows(addrs)[r]| == 8
    ensures Flatten(IndexRows(addrs)) == addrs + Zeros(PadCount(|addrs|))
    decreases |addrs|
  {
    if |addrs| > 0 {
      var rows := IndexRows(addrs);
      var row := Slice(addrs, 0, 8);
      var rest := addrs[|row|..];
      IndexRowsShape(rest);
      assert rows == [PadRow(row)] + IndexRows(rest);
      assert rows[1..] == IndexRows(rest);
      forall r | 0 <= r < |rows| ensures |rows[r]| == 8 {
        if r > 0 { assert rows[r] == IndexRows(rest)[r - 1]; }
      }
      FlattenStep(rows);
      FlattenFirstRow(addrs, row, rest, Flatten(rows[1..]));
    }
  }

  /** The first padded row followed by the flattened rest is the indices followed by the padding. */
  lemma FlattenFirstRow(addrs: seq<int>, row: seq<int>, rest: seq<int>, flatRest: seq<int>)
    requires |addrs| > 0 && row == Slice(addrs, 0, 8) && rest == addrs[|row|..]
    requires flatRest == rest + Zeros(PadCount(|rest|))
    ensures PadRow(row) + flatRest == addrs + Zeros(PadCount(|addrs|))
  {
    if |addrs| <= 8 {
      assert row == addrs;
      assert |rest| == 0;
      assert flatRest == [] by {
        assert Zeros(PadCount(0)) == [];
      }
      LastRowPadCount(|addrs|);
    } else {
      assert PadRow(row) == row by {
        assert Zeros(0) == [];
      }
      RestPadCount(|addrs|);
      assert addrs == row + rest;
      assert row + (rest + Zeros(PadCount(|rest|))) == (row + rest) + Zeros(PadCount(|rest|));
    }
  }

  lemma LastRowPadCount(m: nat)
    requires 1 <= m <= 8
    ensures PadCount(m) == 8 - m
  {
  }

  lemma FlattenStep(rows: seq<seq<int>>)
    requires rows != []
    ensures Flatten(rows) == rows[0] + Flatten(rows[1..])
  {
  }

  lemma RestPadCount(m: nat)
    requires m > 8
    ensures PadCount(m - 8) == PadCount(m)
  {
  }

  /** Line 45: `"    .quad " + ", ".join(str(idx) for idx in row)`. */
  function IndexLine(row: seq<int>): string
  {
    "    .quad " + Join(", ", Decimals(row)) + "\n"
  }

  function Decimals(row: seq<int>): (ds: seq<string>)
    ensures |ds| == |row|
    ensures forall k :: 0 <= k < |row| ==> ds[k] == IntToString(row[k], 10)
  {
    if row == [] then [] else [IntToString(row[0], 10)] + Decimals(row[1..])
  }

  function IndexLines(rows: seq<seq<int>>): (lines: seq<string>)
    ensures |lines| == |rows|
    ensures forall k :: 0 <= k < |rows| ==> lines[k] == IndexLine(rows[k])
  {
    if rows == [] then [] else [IndexLine(rows[0])] + IndexLines(rows[1..])
  }

  /** The header of the section, lines 25-27. */
  const SectionHeader := ".section .data\n" + "    .align 64\n" + "test_data:\n"

  /** The trailer of the section, lines 47-48. */
  /** The label of the `data_size` line (line 47), after a line break. */
  const DataSizeLabel := "\ndata_size: .quad "
  /** The end of the `data_size` line and the label of the `iterations` line (line 48). */
  const IterationsLabel := "\n" + "iterations: .quad "

  function SizeLines(dataSize: int, iterations: int): string
  {
    DataSizeLabel + IntToString(dataSize, 10) + IterationsLabel + IntToString(iterations, 10) + "\n"
  }

  /** The label of the index table, line 40. */
  const IndicesLabel := "\nrandom_indices:\n"

  /** The whole text `create_data_section` returns. */
  function DataSectionText(data: seq<int>, addrs: seq<int>, dataSize: int, iterations: int): string
  {
    SectionHeader
    + Concat(QuadLines(QuadWords(data)))
    + IndicesLabel
    + Concat(IndexLines(IndexRows(addrs)))
    + SizeLines(dataSize, iterations)
  }

  /** A decimal field as `str` prints it: an optional `-`, then digits that read back as `v`. */
  predicate ReadsBackAs(s: string, v: int)
  {
    s != [] && (s[0] == '-' ==> |s| >= 2)
    && IsDigitString(if s[0] == '-' then s[1..] else s, 10)
    && StringToInt(s, 10) == v
  }

  /** The number of commas in `s`. */
  function Commas(s: string): nat
  {
    if s == [] then 0 else (if s[0] == ',' then 1 else 0) + Commas(s[1..])
  }

  lemma {:induction false} CommasAppend(a: string, b: string)
    ensures Commas(a + b) == Commas(a) + Commas(b)
    decreases |a|
  {
    if a == [] {
      assert a + b == b;
    } else {
      assert (a + b)[1..] == a[1..] + b;
      CommasAppend(a[1..], b);
    }
  }

  lemma {:induction false} NoCommaInDigits(s: string)
    requires IsDigitString(s, 10)
    ensures Commas(s) == 0
    decreases |s|
  {
    if s != [] {
      NoCommaInDigits(s[1..]);
    }
  }

  /** A printed index holds no comma. */
  lemma NoCommaInDecimal(i: int)
    ensures Commas(IntToString(i, 10)) == 0
  {
    IntToStringRoundTrip(i, 10);
    var s := IntToString(i, 10);
    if s[0] == '-' {
      NoCommaInDigits(s[1..]);
      assert s == "-" + s[1..];
      CommasAppend("-", s[1..]);
    } else {
      NoCommaInDigits(s);
    }
  }

  /** `", ".join` of `k` comma-free parts holds `k - 1` commas. */
  lemma {:induction false} JoinCommas(row: seq<int>)
    requires |row| >= 1
    ensures Commas(Join(", ", Decimals(row))) == |row| - 1
    decreases |row|
  {
    var ds := Decimals(row);
    NoCommaInDecimal(row[0]);
    if |row| > 1 {
      assert ds[1..] == Decimals(row[1..]);
      JoinCommas(row[1..]);
      CommasAppend(ds[0] + ", ", Join(", ", ds[1..]));
      CommasAppend(ds[0], ", ");
    }
  }

  /**
   * Line 45: an index line holds one comma-separated field per entry of its
   * row, and the k-th field reads back as the k-th entry.
   */
  lemma IndexLineReadBack(row: seq<int>)
    requires |row| >= 1
    ensures Commas(IndexLine(row)) == |row| - 1
    ensures forall k :: 0 <= k < |row| ==> ReadsBackAs(Decimals(row)[k], row[k])
  {
    JoinCommas(row);
    CommasAppend("    .quad ", Join(", ", Decimals(row)));
    CommasAppend("    .quad " + Join(", ", Decimals(row)), "\n");
    forall k | 0 <= k < |row|
      ensures ReadsBackAs(Decimals(row)[k], row[k])
    {
      IntToStringRoundTrip(row[k], 10);
    }
  }

  /** Lines 47-48: each size follows its label and reads back from its decimal text. */
  lemma SizeLinesReadBack(dataSize: int, iterations: int)
    ensures var d, i := IntToString(dataSize, 10), IntToString(iterations, 10);
      SizeLines(dataSize, iterations) == DataSizeLabel + d + IterationsLabel + i + "\n"
      && ReadsBackAs(d, dataSize) && ReadsBackAs(i, iterations)
  {
    IntToStringRoundTrip(dataSize, 10);
    IntToStringRoundTrip(iterations, 10);
  }

  /**
   * Lines 30-38: every word line is 29 characters long, so `k` words take
   * `29 * k` and the `random_indices:` label starts at an offset fixed by
   * the number of values alone.
   */
  lemma {:induction false} QuadLinesLength(qs: seq<nat>)
    requires forall k :: 0 <= k < |qs| ==> qs[k] < Two64
    ensures |Concat(QuadLines(qs))| == 29 * |qs|
    decreases |qs|
  {
    if qs != [] {
      QuadLineLiteral(qs[0]);
      assert QuadLines(qs)[1..] == QuadLines(qs[1..]);
      QuadLinesLength(qs[1..]);
    }
  }

  /** One step of the word loop of lines 30-38: the line written for the pair starting at `i`, then the rest. */
  lemma QuadLinesStep(data: seq<int>, i: nat)
    requires i < |data|
    ensures Concat(QuadLines(QuadWords(data[i..]))) ==
      QuadLine(if i + 1 < |data| then Pack(data[i], data[i + 1]) else Low32(data[i]))
      + Concat(QuadLines(QuadWords(data[Min(i + 2, |data|)..])))
  {
    var rest := data[i..];
    if i + 1 < |data| {
      assert rest[2..] == data[i + 2..];
    } else {
      assert data[Min(i + 2, |data|)..] == [];
    }
  }

  /** One step of the row loop of lines 41-45: the line written for the row starting at `j`, then the rest. */
  lemma IndexLinesStep(addrs: seq<int>, j: nat)
    requires j < |addrs|
    ensures Concat(IndexLines(IndexRows(addrs[j..]))) ==
      IndexLine(PadRow(Slice(addrs, j, j + 8))) + Concat(IndexLines(IndexRows(addrs[Min(j + 8, |addrs|)..])))
  {
    var rest := addrs[j..];
    var row := Slice(rest, 0, 8);
    assert row == Slice(addrs, j, j + 8);
    assert rest[|row|..] == addrs[Min(j + 8, |addrs|)..];
  }
}
