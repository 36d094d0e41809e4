/**
 * The text section of the generated benchmark: the per-instruction function
 * template of `create_instruction_test` (asm_test_maker.py lines 52-108), the
 * table of instruction tests in `generate_assembly_file` (lines 116-178), and
 * the two name-dependent parts of the C driver that `create_c_driver` writes
 * (lines 200-204 and 232-233).
 *
 * A generated function is modelled as its sequence of lines. The lines that
 * carry a symbol or a stack operation get their own constructor; all other
 * lines of the template are `Text`. Joining the rendered lines with newlines
 * gives exactly the f-string of lines 54-108 (it starts with a newline and ends
 * with "    ret\n"). A code fragment spliced into the template is one `Text`
 * element even when it spans several lines.
 */
module AsmTemplate {
  import opened TextFormat

  /** The registers the template saves and restores. */
  datatype Register = Rbp | Rbx | Rcx | Rdx | Rsi | Rdi | R8 | R9 | R10 | R11 | R12

  function RegisterName(r: Register): string
  {
    match r
    case Rbp => "%rbp"
    case Rbx => "%rbx"
    case Rcx => "%rcx"
    case Rdx => "%rdx"
    case Rsi => "%rsi"
    case Rdi => "%rdi"
    case R8 => "%r8"
    case R9 => "%r9"
    case R10 => "%r10"
    case R11 => "%r11"
    case R12 => "%r12"
  }

  /**
   * The lines of the template that carry neither a symbol nor a stack
   * operation: the fixed instructions and comments, the two mask
   * instructions, and the fragments spliced in.
   */
  datatype TemplateLine =
    | Blank
    | FramePointer     // line 58
    | SetupComment     // line 70
    | LoadIterations   // line 71
    | LoadData         // line 72
    | LoadIndices      // line 73
    | ClearCounter     // line 74
    | Indented(fragment: string)  // lines 76 and 93: four spaces, then the fragment
    | AccessComment    // line 79
    | LoadIndex        // line 80
    | MaskIndex(mask: int)        // line 81
    | LoadValue        // line 82
    | TestedComment    // line 84
    | Verbatim(fragment: string)  // line 85: the instructions under test, as given
    | NextComment      // line 87
    | IncCounter       // line 88
    | MaskCounter(mask: int)      // line 89
    | DecIterations    // line 90
    | RestoreComment   // line 95
    | Return           // line 107

  function TemplateText(l: TemplateLine): string
  {
    match l
    case Blank => ""
    case FramePointer => "    mov %rsp, %rbp"
    case SetupComment => "    # 기본 설정"
    case LoadIterations => "    mov iterations(%rip), %rcx"
    case LoadData => "    lea test_data(%rip), %rsi"
    case LoadIndices => "    lea random_indices(%rip), %rdi"
    case ClearCounter => "    xor %r8, %r8                    # 인덱스 카운터"
    case Indented(f) => "    " + f
    case AccessComment => "    # 랜덤 메모리 접근으로 캐시 무력화"
    case LoadIndex => "    mov (%rdi,%r8,8), %rax          # 랜덤 인덱스 로드"
    case MaskIndex(m) => "    and $0x" + IntToString(m, 16) + ", %rax    # 범위 제한"
    case LoadValue => "    mov (%rsi,%rax,8), %rdx         # 랜덤 데이터 로드"
    case TestedComment => "    # 실제 테스트할 명령어들"
    case Verbatim(f) => f
    case NextComment => "    # 다음 반복"
    case IncCounter => "    inc %r8"
    case MaskCounter(m) => "    and $0x" + IntToString(m, 16) + ", %r8  # 인덱스 순환"
    case DecIterations => "    dec %rcx"
    case RestoreComment => "    # 레지스터 복원"
    case Return => "    ret"
  }

  datatype AsmLine =
    | Text(line: TemplateLine)
    | Global(symbol: string)
    | Label(symbol: string)
    | Push(reg: Register)
    | Pop(reg: Register)
    | Jnz(target: string)

  function Render(l: AsmLine): string
  {
    match l
    case Text(t) => TemplateText(t)
    case Global(s) => ".global " + s
    case Label(s) => s + ":"
    case Push(r) => "    push " + RegisterName(r)
    case Pop(r) => "    pop " + RegisterName(r)
    case Jnz(t) => "    jnz " + t
  }

  function RenderedLines(ls: seq<AsmLine>): (ts: seq<string>)
    ensures |ts| == |ls|
    ensures forall k :: 0 <= k < |ls| ==> ts[k] == Render(ls[k])
  {
    if ls == [] then [] else [Render(ls[0])] + RenderedLines(ls[1..])
  }

  /** The text of a function: its lines joined by newlines. */
  function RenderFunction(ls: seq<AsmLine>): string
  {
    Join("\n", RenderedLines(ls))
  }

  function Texts(ts: seq<TemplateLine>): (ls: seq<AsmLine>)
    ensures |ls| == |ts|
    ensures forall k :: 0 <= k < |ts| ==> ls[k] == Text(ts[k])
  {
    if ts == [] then [] else [Text(ts[0])] + Texts(ts[1..])
  }

  /** The kinds of line whose operand the model extracts. */
  datatype Kind = GlobalKind | LabelKind | PushKind | PopKind | JnzKind

  /** The operand of such a line: a symbol, or a register. */
  datatype Ref = Sym(symbol: string) | Reg(reg: Register)

  function Operand(l: AsmLine, kind: Kind): seq<Ref>
  {
    match l
    case Text(_) => []
    case Global(s) => if kind == GlobalKind then [Sym(s)] else []
    case Label(s) => if kind == LabelKind then [Sym(s)] else []
    case Push(r) => if kind == PushKind then [Reg(r)] else []
    case Pop(r) => if kind == PopKind then [Reg(r)] else []
    case Jnz(t) => if kind == JnzKind then [Sym(t)] else []
  }

  /** The operands of every line of the given kind, in the order the lines appear. */
  function Operands(ls: seq<AsmLine>, kind: Kind): seq<Ref>
  {
    if ls == [] then [] else Operand(ls[0], kind) + Operands(ls[1..], kind)
  }

  lemma {:induction false} OperandsAppend(a: seq<AsmLine>, b: seq<AsmLine>, kind: Kind)
    ensures Operands(a + b, kind) == Operands(a, kind) + Operands(b, kind)
    decreases |a|
  {
    if a == [] {
      assert a + b == b;
    } else {
      assert (a + b)[1..] == a[1..] + b;
      OperandsAppend(a[1..], b, kind);
    }
  }

  /** Lines of plain text carry no symbol and no stack operation. */
  lemma {:induction false} OperandsOfTexts(ts: seq<TemplateLine>, kind: Kind)
    ensures Operands(Texts(ts), kind) == []
    decreases |ts|
  {
    if ts != [] {
      assert Texts(ts)[1..] == Texts(ts[1..]);
      OperandsOfTexts(ts[1..], kind);
    }
  }

  lemma OperandsOfOne(l: AsmLine, kind: Kind)
    ensures Operands([l], kind) == Operand(l, kind)
  {
    assert [l][1..] == [];
  }

  function Symbol(name: string): string { "test_" + name }

  function LoopSymbol(name: string): string { "test_" + name + "_loop" }

  /** A list of registers as operands. */
  function Regs(regs: seq<Register>): (ns: seq<Ref>)
    ensures |ns| == |regs|
    ensures forall k :: 0 <= k < |regs| ==> ns[k] == Reg(regs[k])
  {
    if regs == [] then [] else [Reg(regs[0])] + Regs(regs[1..])
  }

  lemma {:induction false} RegsAppend(a: seq<Register>, b: seq<Register>)
    ensures Regs(a + b) == Regs(a) + Regs(b)
    decreases |a|
  {
    if a == [] {
      assert a + b == b;
    } else {
      assert (a + b)[1..] == a[1..] + b;
      RegsAppend(a[1..], b);
    }
  }

  /** Wrapping registers as operands commutes with reversal. */
  lemma RegsReverse(regs: seq<Register>)
    ensures Regs(Reverse(regs)) == Reverse(Regs(regs))
  {
    var ns, rs := Regs(regs), Reverse(regs);
    var nrs := Regs(rs);
    forall k | 0 <= k < |regs|
      ensures nrs[k] == ns[|ns| - 1 - k]
    {
      var m := |regs| - 1 - k;
      assert nrs[k] == Reg(rs[k]);
      assert rs[k] == regs[m];
      assert ns[m] == Reg(regs[m]);
    }
    ReverseByIndex(nrs, ns);
  }

  function Pushes(regs: seq<Register>): (ls: seq<AsmLine>)
    ensures |ls| == |regs|
    ensures forall k :: 0 <= k < |regs| ==> ls[k] == Push(regs[k])
  {
    if regs == [] then [] else [Push(regs[0])] + Pushes(regs[1..])
  }

  function Pops(regs: seq<Register>): (ls: seq<AsmLine>)
    ensures |ls| == |regs|
    ensures forall k :: 0 <= k < |regs| ==> ls[k] == Pop(regs[k])
  {
    if regs == [] then [] else [Pop(regs[0])] + Pops(regs[1..])
  }

  /** Lines 59-68: the ten registers pushed after the frame pointer, in order. */
  const PushedRegisters: seq<Register> := [Rbx, Rcx, Rdx, Rsi, Rdi, R8, R9, R10, R11, R12]

  /** Lines 96-105: the ten registers popped before the frame pointer, in order. */
  const PoppedRegisters: seq<Register> := [R12, R11, R10, R9, R8, Rdi, Rsi, Rdx, Rcx, Rbx]

  /** Lines 57-68: save the frame pointer, set up the frame, then push `saved`. */
  function SaveBlock(saved: seq<Register>): seq<AsmLine>
  {
    [Push(Rbp), Text(FramePointer)] + Pushes(saved)
  }

  /** Lines 96-108: pop `restored`, then the frame pointer, and return. */
  function RestoreBlock(restored: seq<Register>): seq<AsmLine>
  {
    Pops(restored) + [Pop(Rbp), Text(Return), Text(Blank)]
  }

  /** Lines 69-77: load the loop counter and the two table addresses, then the setup fragment. */
  function SetupLines(setup: string): seq<TemplateLine>
  {
    [Blank, SetupComment, LoadIterations, LoadData, LoadIndices, ClearCounter, Blank, Indented(setup), Blank]
  }

  /** Lines 79-90: one random load, the instructions under test, and the index update. */
  function LoopBodyLines(asmCode: string, indexMask: int, counterMask: int): seq<TemplateLine>
  {
    [ AccessComment, LoadIndex, MaskIndex(indexMask), LoadValue, Blank, TestedComment, Verbatim(asmCode),
      Blank, NextComment, IncCounter, MaskCounter(counterMask), DecIterations ]
  }

  /** Lines 92-95: the cleanup fragment, then the comment before the restores. */
  function CleanupLines(cleanup: string): seq<TemplateLine>
  {
    [Blank, Indented(cleanup), Blank, RestoreComment]
  }

  /**
   * The skeleton of the template: the symbol lines and the stack operations are
   * fixed, the registers and the plain text between them are left open.
   */
  function Frame(name: string, saved: seq<Register>, restored: seq<Register>,
                 setupText: seq<TemplateLine>, bodyText: seq<TemplateLine>, cleanupText: seq<TemplateLine>): seq<AsmLine>
  {
    [Text(Blank), Global(Symbol(name)), Label(Symbol(name))]
    + SaveBlock(saved)
    + Texts(setupText)
    + [Label(LoopSymbol(name))]
    + Texts(bodyText)
    + [Jnz(LoopSymbol(name))]
    + Texts(cleanupText)
    + RestoreBlock(restored)
  }

  /**
   * The f-string of lines 54-108. `indexMask` is `data_size - 1` and
   * `counterMask` is `len(random_addresses) - 1`, both printed with `:x`.
   */
  function TestFunction(name: string, asmCode: string, setup: string, cleanup: string,
                        indexMask: int, counterMask: int): (f: seq<AsmLine>)
    ensures |f| == 55
    ensures f[0] == Text(Blank) && f[54] == Text(Blank)
    ensures f[53] == Text(Return)
  {
    Frame(name, PushedRegisters, PoppedRegisters, SetupLines(setup),
          LoopBodyLines(asmCode, indexMask, counterMask), CleanupLines(cleanup))
  }

  function Reverse<T>(s: seq<T>): (r: seq<T>)
    ensures |r| == |s|
    ensures forall k :: 0 <= k < |s| ==> r[k] == s[|s| - 1 - k]
  {
    if s == [] then [] else Reverse(s[1..]) + [s[0]]
  }

  /** A sequence that holds the elements of another from last to first is its reversal. */
  lemma ReverseByIndex<T>(a: seq<T>, b: seq<T>)
    requires |a| == |b| && forall k :: 0 <= k < |a| ==> a[k] == b[|b| - 1 - k]
    ensures a == Reverse(b)
  {
  }

  lemma AppendTexts(p: seq<AsmLine>, ts: seq<TemplateLine>, kind: Kind)
    ensures Operands(p + Texts(ts), kind) == Operands(p, kind)
  {
    OperandsOfTexts(ts, kind);
    OperandsAppend(p, Texts(ts), kind);
    assert Operands(p, kind) + [] == Operands(p, kind);
  }

  lemma AppendOne(p: seq<AsmLine>, l: AsmLine, kind: Kind)
    ensures Operands(p + [l], kind) == Operands(p, kind) + Operand(l, kind)
  {
    OperandsOfOne(l, kind);
    OperandsAppend(p, [l], kind);
  }

  lemma HeadOperands(name: string, kind: Kind)
    ensures Operands([Text(Blank), Global(Symbol(name)), Label(Symbol(name))], kind)
      == Operand(Global(Symbol(name)), kind) + Operand(Label(Symbol(name)), kind)
  {
    var g, l := Global(Symbol(name)), Label(Symbol(name));
    assert [Text(Blank), g, l] == [Text(Blank)] + ([g] + [l]);
    OperandsOfOne(Text(Blank), kind);
    OperandsOfOne(g, kind);
    OperandsOfOne(l, kind);
    OperandsAppend([g], [l], kind);
    OperandsAppend([Text(Blank)], [g] + [l], kind);
  }

  lemma {:induction false} OperandsOfPushes(regs: seq<Register>, kind: Kind)
    ensures Operands(Pushes(regs), kind) == if kind == PushKind then Regs(regs) else []
    decreases |regs|
  {
    if regs != [] {
      assert Pushes(regs)[1..] == Pushes(regs[1..]);
      OperandsOfPushes(regs[1..], kind);
    }
  }

  lemma {:induction false} OperandsOfPops(regs: seq<Register>, kind: Kind)
    ensures Operands(Pops(regs), kind) == if kind == PopKind then Regs(regs) else []
    decreases |regs|
  {
    if regs != [] {
      assert Pops(regs)[1..] == Pops(regs[1..]);
      OperandsOfPops(regs[1..], kind);
    }
  }

  /** The prologue pushes the frame pointer and then `saved`, and names no symbol. */
  lemma SaveBlockOperands(saved: seq<Register>, kind: Kind)
    ensures Operands(SaveBlock(saved), kind) == if kind == PushKind then Regs([Rbp] + saved) else []
  {
    var head := [Push(Rbp), Text(FramePointer)];
    assert head == [Push(Rbp)] + [Text(FramePointer)];
    OperandsOfOne(Push(Rbp), kind);
    OperandsOfOne(Text(FramePointer), kind);
    OperandsAppend([Push(Rbp)], [Text(FramePointer)], kind);
    OperandsOfPushes(saved, kind);
    OperandsAppend(head, Pushes(saved), kind);
    RegsAppend([Rbp], saved);
  }

  /** The epilogue pops `restored` and then the frame pointer, and names no symbol. */
  lemma RestoreBlockOperands(restored: seq<Register>, kind: Kind)
    ensures Operands(RestoreBlock(restored), kind) == if kind == PopKind then Regs(restored + [Rbp]) else []
  {
    var tail := [Pop(Rbp), Text(Return), Text(Blank)];
    assert tail == [Pop(Rbp)] + ([Text(Return)] + [Text(Blank)]);
    OperandsOfOne(Pop(Rbp), kind);
    OperandsOfOne(Text(Return), kind);
    OperandsOfOne(Text(Blank), kind);
    OperandsAppend([Text(Return)], [Text(Blank)], kind);
    OperandsAppend([Pop(Rbp)], [Text(Return)] + [Text(Blank)], kind);
    OperandsOfPops(restored, kind);
    OperandsAppend(Pops(restored), tail, kind);
    RegsAppend(restored, [Rbp]);
  }

  /** Operands of lines built from fixed pieces and plain text: the text adds nothing. */
  lemma PiecesOperands(head: seq<AsmLine>, save: seq<AsmLine>, t1: seq<TemplateLine>, loop: AsmLine,
                       t2: seq<TemplateLine>, jump: AsmLine, t3: seq<TemplateLine>, restore: seq<AsmLine>, kind: Kind)
    ensures Operands(head + save + Texts(t1) + [loop] + Texts(t2) + [jump] + Texts(t3) + restore, kind)
      == Operands(head, kind) + Operands(save, kind) + Operand(loop, kind) + Operand(jump, kind)
         + Operands(restore, kind)
  {
    var p1 := head + save;
    var p2 := p1 + Texts(t1);
    var p3 := p2 + [loop];
    var p4 := p3 + Texts(t2);
    var p5 := p4 + [jump];
    var p6 := p5 + Texts(t3);
    OperandsAppend(head, save, kind);
    AppendTexts(p1, t1, kind);
    AppendOne(p2, loop, kind);
    AppendTexts(p3, t2, kind);
    AppendOne(p4, jump, kind);
    AppendTexts(p5, t3, kind);
    OperandsAppend(p6, restore, kind);
  }

  /** The concatenation of six pieces when only the pieces one kind of line contributes are non-empty. */
  lemma Concat6(a: seq<Ref>, b: seq<Ref>, c: seq<Ref>, d: seq<Ref>, e: seq<Ref>, f: seq<Ref>)
    ensures b == c == d == e == f == [] ==> a + b + c + d + e + f == a
    ensures a == c == e == f == [] ==> a + b + c + d + e + f == b + d
    ensures a == b == d == e == f == [] ==> a + b + c + d + e + f == c
    ensures a == b == c == d == f == [] ==> a + b + c + d + e + f == e
    ensures a == b == c == d == e == [] ==> a + b + c + d + e + f == f
  {
  }

  /** What each kind of line of the skeleton names, whatever text is spliced into it. */
  function FrameOperandsOf(name: string, saved: seq<Register>, restored: seq<Register>, kind: Kind): seq<Ref>
  {
    match kind
    case GlobalKind => [Sym(Symbol(name))]
    case LabelKind => [Sym(Symbol(name)), Sym(LoopSymbol(name))]
    case JnzKind => [Sym(LoopSymbol(name))]
    case PushKind => Regs([Rbp] + saved)
    case PopKind => Regs(restored + [Rbp])
  }

  /**
   * The skeleton has one global and one jump, two labels, the pushes of the
   * prologue and the pops of the epilogue, in that order, and nothing else.
   */
  lemma FrameOperands(name: string, saved: seq<Register>, restored: seq<Register>,
                      t1: seq<TemplateLine>, t2: seq<TemplateLine>, t3: seq<TemplateLine>, kind: Kind)
    ensures Operands(Frame(name, saved, restored, t1, t2, t3), kind) == FrameOperandsOf(name, saved, restored, kind)
  {
    var s, t := Symbol(name), LoopSymbol(name);
    HeadOperands(name, kind);
    PiecesOperands([Text(Blank), Global(s), Label(s)], SaveBlock(saved), t1, Label(t), t2, Jnz(t), t3,
                   RestoreBlock(restored), kind);
    SaveBlockOperands(saved, kind);
    RestoreBlockOperands(restored, kind);
    FixedOperands(s, t, Operands(SaveBlock(saved), kind), Operands(RestoreBlock(restored), kind),
                  Regs([Rbp] + saved), Regs(restored + [Rbp]), kind);
  }

  /** The six pieces of the skeleton's operands, assembled for one kind of line. */
  lemma FixedOperands(s: string, t: string, sv: seq<Ref>, rs: seq<Ref>, pushed: seq<Ref>, popped: seq<Ref>, kind: Kind)
    requires sv == if kind == PushKind then pushed else []
    requires rs == if kind == PopKind then popped else []
    ensures Operand(Global(s), kind) + Operand(Label(s), kind) + sv + Operand(Label(t), kind)
         + Operand(Jnz(t), kind) + rs ==
      match kind
      case GlobalKind => [Sym(s)]
      case LabelKind => [Sym(s), Sym(t)]
      case JnzKind => [Sym(t)]
      case PushKind => pushed
      case PopKind => popped
  {
    var g, l := Operand(Global(s), kind), Operand(Label(s), kind);
    var ll, j := Operand(Label(t), kind), Operand(Jnz(t), kind);
    var e: seq<Ref> := [];
    Concat6(g, l, sv, ll, j, rs);
    match kind
    case GlobalKind =>
      assert l == e && sv == e && ll == e && j == e && rs == e;
    case LabelKind =>
      assert g == e && sv == e && j == e && rs == e;
    case JnzKind =>
      assert g == e && l == e && sv == e && ll == e && rs == e;
    case PushKind =>
      assert g == e && l == e && ll == e && j == e && rs == e;
    case PopKind =>
      assert g == e && l == e && sv == e && ll == e && j == e;
  }

  /** The restore order written at lines 96-106 is the save order of lines 57-68 reversed. */
  lemma RestoreOrderReversesSaveOrder()
    ensures PoppedRegisters + [Rbp] == Reverse([Rbp] + PushedRegisters)
  {
    RestoreOrderByIndex();
    ReverseByIndex(PoppedRegisters + [Rbp], [Rbp] + PushedRegisters);
  }

  lemma RestoreOrderByIndex()
    ensures forall k :: 0 <= k < 11 ==> (PoppedRegisters + [Rbp])[k] == ([Rbp] + PushedRegisters)[10 - k]
  {
  }

  /** Lines that push `saved` and pop its reverse pop in reverse push order. */
  lemma ReversedRegisters(f: seq<AsmLine>, saved: seq<Register>, restored: seq<Register>)
    requires Operands(f, PushKind) == Regs(saved) && Operands(f, PopKind) == Regs(restored)
    requires restored == Reverse(saved)
    ensures Operands(f, PopKind) == Reverse(Operands(f, PushKind))
  {
    RegsReverse(saved);
  }

  /** The skeleton's operands, kind by kind. */
  lemma FrameShape(name: string, saved: seq<Register>, restored: seq<Register>,
                   t1: seq<TemplateLine>, t2: seq<TemplateLine>, t3: seq<TemplateLine>)
    ensures var f := Frame(name, saved, restored, t1, t2, t3);
      && Operands(f, GlobalKind) == [Sym(Symbol(name))]
      && Operands(f, LabelKind) == [Sym(Symbol(name)), Sym(LoopSymbol(name))]
      && Operands(f, JnzKind) == [Sym(LoopSymbol(name))]
      && Operands(f, PushKind) == Regs([Rbp] + saved)
      && Operands(f, PopKind) == Regs(restored + [Rbp])
  {
    FrameOperands(name, saved, restored, t1, t2, t3, GlobalKind);
    FrameOperands(name, saved, restored, t1, t2, t3, LabelKind);
    FrameOperands(name, saved, restored, t1, t2, t3, JnzKind);
    FrameOperands(name, saved, restored, t1, t2, t3, PushKind);
    FrameOperands(name, saved, restored, t1, t2, t3, PopKind);
  }

  /**
   * Every generated function exports `test_<name>`, defines exactly the labels
   * `test_<name>` and `test_<name>_loop`, jumps back only to its loop label,
   * pushes the frame pointer and ten registers, and pops them in exactly the
   * reverse order.
   */
  lemma TestFunctionShape(name: string, asmCode: string, setup: string, cleanup: string,
                          indexMask: int, counterMask: int)
    ensures var f := TestFunction(name, asmCode, setup, cleanup, indexMask, counterMask);
      && Operands(f, GlobalKind) == [Sym(Symbol(name))]
      && Operands(f, LabelKind) == [Sym(Symbol(name)), Sym(LoopSymbol(name))]
      && Operands(f, JnzKind) == [Sym(LoopSymbol(name))]
      && Operands(f, PushKind) == Regs([Rbp] + PushedRegisters)
      && Operands(f, PopKind) == Reverse(Operands(f, PushKind))
  {
    var t1, t2, t3 := SetupLines(setup), LoopBodyLines(asmCode, indexMask, counterMask), CleanupLines(cleanup);
    var f := Frame(name, PushedRegisters, PoppedRegisters, t1, t2, t3);
    FrameShape(name, PushedRegisters, PoppedRegisters, t1, t2, t3);
    RestoreOrderReversesSaveOrder();
    ReversedRegisters(f, [Rbp] + PushedRegisters, PoppedRegisters + [Rbp]);
  }

  /** One entry of the `tests` table of lines 116-178; a missing key reads as the empty string (lines 182-186). */
  datatype InstructionTest = InstructionTest(name: string, code: string, setup: string, cleanup: string)

  /** Lines 116-178, in the dictionary's insertion order. */
  const Tests: seq<InstructionTest> := [
    InstructionTest("add", "    add %rdx, %rax\n    add $1, %rax", "xor %rax, %rax", ""),
    InstructionTest("sub", "    sub %rdx, %rax\n    sub $1, %rax", "mov $0xFFFFFFFF, %rax", ""),
    InstructionTest("mul", "    mov %rdx, %rax\n    mul %rdx", "", "# mul result in rdx:rax"),
    InstructionTest("imul", "    imul %rdx, %rax", "mov %rdx, %rax", ""),
    InstructionTest("div", "    xor %rdx, %rdx\n    div %rbx",
                    "mov $0xFFFFFFFF, %rax\n    mov $0x12345, %rbx\n    or $1, %rbx", ""),
    InstructionTest("mov", "    mov %rdx, %rax\n    mov %rax, %rbx\n    mov %rbx, %r9", "", ""),
    InstructionTest("cmp", "    cmp %rdx, %rax\n    cmp $0x12345, %rax", "mov %rdx, %rax", ""),
    InstructionTest("and", "    and %rdx, %rax\n    and $0xFFFF, %rax", "mov %rdx, %rax", ""),
    InstructionTest("or", "    or %rdx, %rax\n    or $0xF0F0, %rax", "mov %rdx, %rax", ""),
    InstructionTest("xor", "    xor %rdx, %rax\n    xor $0xAAAA, %rax", "mov %rdx, %rax", ""),
    InstructionTest("shl", "    shl $1, %rax\n    shl $2, %rax", "mov %rdx, %rax", ""),
    InstructionTest("shr", "    shr $1, %rax\n    shr $2, %rax", "mov %rdx, %rax", ""),
    InstructionTest("lea", "    lea (%rsi,%rdx,2), %rax\n    lea 8(%rax), %rbx", "", ""),
    InstructionTest("memory_load", "    mov (%rsi,%rax,8), %rbx\n    mov 8(%rsi,%rax,8), %r9", "", ""),
    InstructionTest("memory_store", "    mov %rdx, (%rsi,%rax,8)\n    mov %rax, 8(%rsi,%rax,8)", "", "")
  ]

  /** The `instructions` list of `create_c_driver`, lines 200-201. */
  const Instructions: seq<string> := ["add", "sub", "mul", "imul", "div", "mov", "cmp", "and", "or", "xor",
                                      "shl", "shr", "lea", "memory_load", "memory_store"]

  function TestNames(ts: seq<InstructionTest>): (ns: seq<string>)
    ensures |ns| == |ts|
    ensures forall k :: 0 <= k < |ts| ==> ns[k] == ts[k].name
  {
    if ts == [] then [] else [ts[0].name] + TestNames(ts[1..])
  }

  /** The driver's list names the tests of the assembly table, in the same order. */
  lemma DriverListsTheTests()
    ensures TestNames(Tests) == Instructions
  {
    TableNames();
    TestNamesByIndex(Tests, Instructions);
  }

  lemma TableNames()
    ensures |Tests| == |Instructions| == 15
    ensures forall k :: 0 <= k < 15 ==> Tests[k].name == Instructions[k]
  {
  }

  /**
   * The table's keys are distinct, as a dictionary's keys are, so the
   * generated functions export distinct symbols and define distinct labels.
   */
  lemma TestSymbolsDistinct()
    ensures forall i, j :: 0 <= i < j < |Tests| ==> Symbol(Tests[i].name) != Symbol(Tests[j].name)
  {
    TableNames();
    InstructionsDistinct();
    forall i, j | 0 <= i < j < |Tests|
      ensures Symbol(Tests[i].name) != Symbol(Tests[j].name)
    {
      SymbolInjective(Tests[i].name, Tests[j].name);
    }
  }

  lemma InstructionsDistinct()
    ensures forall i, j :: 0 <= i < j < |Instructions| ==> Instructions[i] != Instructions[j]
  {
  }

  lemma TestNamesByIndex(ts: seq<InstructionTest>, names: seq<string>)
    requires |ts| == |names| && forall k :: 0 <= k < |ts| ==> ts[k].name == names[k]
    ensures TestNames(ts) == names
  {
  }

  /** The functions lines 180-186 append, one per table entry, in table order. */
  function FileFunctions(ts: seq<InstructionTest>, indexMask: int, counterMask: int): (fs: seq<seq<AsmLine>>)
    ensures |fs| == |ts|
  {
    if ts == [] then []
    else [TestFunction(ts[0].name, ts[0].code, ts[0].setup, ts[0].cleanup, indexMask, counterMask)]
         + FileFunctions(ts[1..], indexMask, counterMask)
  }

  /** All lines of a list of functions, one function after the other. */
  function AllLines(fs: seq<seq<AsmLine>>): seq<AsmLine>
  {
    if fs == [] then [] else fs[0] + AllLines(fs[1..])
  }

  /** The exported symbols `test_<name>` of a list of names. */
  function SymbolRefs(names: seq<string>): (rs: seq<Ref>)
    ensures |rs| == |names|
    ensures forall k :: 0 <= k < |names| ==> rs[k] == Sym(Symbol(names[k]))
  {
    if names == [] then [] else [Sym(Symbol(names[0]))] + SymbolRefs(names[1..])
  }

  /** The text section exports exactly one `test_<name>` per table entry, in table order. */
  lemma {:induction false} FileGlobals(ts: seq<InstructionTest>, indexMask: int, counterMask: int)
    ensures Operands(AllLines(FileFunctions(ts, indexMask, counterMask)), GlobalKind) == SymbolRefs(TestNames(ts))
    decreases |ts|
  {
    if ts != [] {
      var t := ts[0];
      var fs := FileFunctions(ts, indexMask, counterMask);
      assert fs[1..] == FileFunctions(ts[1..], indexMask, counterMask);
      assert TestNames(ts)[1..] == TestNames(ts[1..]);
      TestFunctionShape(t.name, t.code, t.setup, t.cleanup, indexMask, counterMask);
      OperandsAppend(fs[0], AllLines(fs[1..]), GlobalKind);
      FileGlobals(ts[1..], indexMask, counterMask);
      assert SymbolRefs(TestNames(ts)) == [Sym(Symbol(t.name))] + SymbolRefs(TestNames(ts[1..]));
    }
  }

  /** Different test names give different symbols. */
  lemma SymbolInjective(a: string, b: string)
    ensures Symbol(a) == Symbol(b) <==> a == b
  {
    if Symbol(a) == Symbol(b) {
      assert a == Symbol(a)[5..];
      assert b == Symbol(b)[5..];
    }
  }

  /** The two name-dependent lines of the C driver. */
  datatype DriverLine =
    | Extern(symbol: string)              // line 204
    | Entry(name: string, symbol: string)  // line 233

  function RenderDriverLine(d: DriverLine): string
  {
    match d
    case Extern(s) => "extern void " + s + "();\n"
    case Entry(n, s) => "        {\"" + n + "\", " + s + "},\n"
  }

  /** Lines 203-204: one declaration per name. */
  function ExternLines(names: seq<string>): (ds: seq<DriverLine>)
    ensures |ds| == |names|
    ensures forall k :: 0 <= k < |names| ==> ds[k] == Extern(Symbol(names[k]))
  {
    if names == [] then [] else [Extern(Symbol(names[0]))] + ExternLines(names[1..])
  }

  /** Lines 232-233: one table row per name, pairing the printed name with its function. */
  function EntryLines(names: seq<string>): (ds: seq<DriverLine>)
    ensures |ds| == |names|
    ensures forall k :: 0 <= k < |names| ==> ds[k] == Entry(names[k], Symbol(names[k]))
  {
    if names == [] then [] else [Entry(names[0], Symbol(names[0]))] + EntryLines(names[1..])
  }

  /** The functions a list of driver lines refers to, as exported symbols. */
  function CalledSymbols(ds: seq<DriverLine>): (rs: seq<Ref>)
    ensures |rs| == |ds|
    ensures forall k :: 0 <= k < |ds| ==> rs[k] == Sym(ds[k].symbol)
  {
    if ds == [] then [] else [Sym(ds[0].symbol)] + CalledSymbols(ds[1..])
  }

  /** The names the driver's table rows print. */
  function PrintedNames(ds: seq<DriverLine>): (ns: seq<string>)
    ensures |ns| <= |ds|
  {
    if ds == [] then []
    else (if ds[0].Entry? then [ds[0].name] else []) + PrintedNames(ds[1..])
  }

  /** Both driver blocks refer to `test_<name>` for each name in turn, and the table prints the names themselves. */
  lemma DriverSymbols(names: seq<string>)
    ensures CalledSymbols(ExternLines(names)) == SymbolRefs(names)
    ensures CalledSymbols(EntryLines(names)) == SymbolRefs(names)
    ensures PrintedNames(EntryLines(names)) == names
  {
  }

  /**
   * The driver declares and registers exactly the functions the assembly
   * exports, in the same order, and its table prints the names of the
   * assembly's tests in that order.
   */
  lemma DriverMatchesAssembly(indexMask: int, counterMask: int)
    ensures var globals := Operands(AllLines(FileFunctions(Tests, indexMask, counterMask)), GlobalKind);
      && CalledSymbols(ExternLines(Instructions)) == globals
      && CalledSymbols(EntryLines(Instructions)) == globals
      && PrintedNames(EntryLines(Instructions)) == TestNames(Tests)
  {
    DriverListsTheTests();
    FileGlobals(Tests, indexMask, counterMask);
    DriverSymbols(Instructions);
  }

  /** The texts of a list of functions, in order. */
  function RenderAll(fs: seq<seq<AsmLine>>): (ts: seq<string>)
    ensures |ts| == |fs|
  {
    if fs == [] then [] else [RenderFunction(fs[0])] + RenderAll(fs[1..])
  }

  /** The texts of a list of driver lines, in order. */
  function RenderDriver(ds: seq<DriverLine>): (ts: seq<string>)
    ensures |ts| == |ds|
    ensures forall k :: 0 <= k < |ds| ==> ts[k] == RenderDriverLine(ds[k])
  {
    if ds == [] then [] else [RenderDriverLine(ds[0])] + RenderDriver(ds[1..])
  }

  /** The text section after its header: the rendered functions of the table entries, one after the other. */
  function TextSection(ts: seq<InstructionTest>, indexMask: int, counterMask: int): string
  {
    Concat(RenderAll(FileFunctions(ts, indexMask, counterMask)))
  }

  /** The functions of entries `k..` are the function of entry `k`, then those of entries `k+1..`. */
  lemma TextSectionFrom(ts: seq<InstructionTest>, k: nat, indexMask: int, counterMask: int)
    requires k < |ts|
    ensures TextSection(ts[k..], indexMask, counterMask)
      == RenderFunction(TestFunction(ts[k].name, ts[k].code, ts[k].setup, ts[k].cleanup, indexMask, counterMask))
         + TextSection(ts[k + 1..], indexMask, counterMask)
  {
    var rs := RenderAll(FileFunctions(ts[k..], indexMask, counterMask));
    assert ts[k..][1..] == ts[k + 1..];
    assert rs[1..] == RenderAll(FileFunctions(ts[k + 1..], indexMask, counterMask));
  }

  /** One step of the loop of lines 203-204: the declaration for name k, then those for the rest. */
  lemma ExternLinesFrom(names: seq<string>, k: nat)
    requires k < |names|
    ensures Concat(RenderDriver(ExternLines(names[k..])))
      == "extern void test_" + names[k] + "();\n" + Concat(RenderDriver(ExternLines(names[k + 1..])))
  {
    assert names[k..][1..] == names[k + 1..];
    ConcatFrom(RenderDriver(ExternLines(names[k..])), 0);
    assert RenderDriver(ExternLines(names[k..]))[1..] == RenderDriver(ExternLines(names[k + 1..]));
  }

  /** One step of the loop of lines 232-233: the row for name k, then the rows for the rest. */
  lemma EntryLinesFrom(names: seq<string>, k: nat)
    requires k < |names|
    ensures Concat(RenderDriver(EntryLines(names[k..])))
      == "        {\"" + names[k] + "\", test_" + names[k] + "},\n" + Concat(RenderDriver(EntryLines(names[k + 1..])))
  {
    assert names[k..][1..] == names[k + 1..];
    ConcatFrom(RenderDriver(EntryLines(names[k..])), 0);
    assert RenderDriver(EntryLines(names[k..]))[1..] == RenderDriver(EntryLines(names[k + 1..]));
  }
}
