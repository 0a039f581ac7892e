/**
  What the lines written for eq, lt and gt do when they run inside a program.
  These are the only lines the code writer emits with jumps, so they are run
  with the machine's program counter: the jump to the first label is taken
  when the test holds, and the two paths meet at the second label.
*/
module ComparisonSemantics {
  import opened Wrappers
  import opened Text
  import opened Hack
  import opened CodeGen
  import opened CodeGenSemantics

  // ---------------------------------------------------------------------------
  // The test the lines make
  // ---------------------------------------------------------------------------

  /** The jump of a comparison's test line, by the jump code the translation table gives the command. */
  function JumpOf(command: string): Jump
    requires IsComparison(command)
  {
    if command == "eq" then JEQ else if command == "lt" then JGT else JLT
  }

  /** The difference top - second of two words, read as signed numbers, fits in a word. */
  predicate NoOverflow(x: Word, y: Word) {
    -0x8000 <= Signed(y) - Signed(x) < 0x8000
  }

  /** The test line of a comparison decodes to a jump on D with the command's jump. */
  lemma TestLine(command: string)
    requires IsComparison(command)
    ensures Decode("D;" + TranslatorTable[command]) == CInstr(NoDest, RegD, JumpOf(command))
  {
    if command == "eq" {
      assert "D;" + TranslatorTable[command] == "D;JEQ";
      DecodeJumpIfZero();
    } else if command == "lt" {
      assert "D;" + TranslatorTable[command] == "D;JGT";
      DecodeJumpIfPositive();
    } else {
      assert "D;" + TranslatorTable[command] == "D;JLT";
      DecodeJumpIfNegative();
    }
  }

  /** The difference of two words and of their signed readings wrap to the same word. */
  lemma WrapSignedDifference(x: Word, y: Word)
    ensures Wrap(y - x) == Wrap(Signed(y) - Signed(x))
  {
    var sx := Signed(x);
    var sy := Signed(y);
    assert sx == x || sx == x - WordCount;
    assert sy == y || sy == y - WordCount;
    var k := (y - x) - (sy - sx);
    assert k == 0 || k == WordCount || k == -WordCount;
  }

  /**
    The jump is taken exactly when the command's test holds: always for eq, and for lt and gt
    when the difference of the two values does not overflow.
  */
  lemma TestMeaning(command: string, x: Word, y: Word)
    requires IsComparison(command)
    requires command == "eq" || NoOverflow(x, y)
    ensures Taken(JumpOf(command), Wrap(y - x)) <==> VmCompare(command, x, y)
  {
    if command != "eq" {
      WrapSignedDifference(x, y);
      SignedWrap(Signed(y) - Signed(x));
    }
  }

  /** Two values for which lt, tested through the wrapped difference, gives the wrong answer. */
  lemma ComparisonOverflowExample()
    ensures var x: Word := 0xFFFE;
            var y: Word := 0x7FFF;
            Signed(x) == -2 && Signed(y) == 0x7FFF && VmCompare("lt", x, y)
            && !Taken(JumpOf("lt"), Wrap(y - x)) && !NoOverflow(x, y)
  {
    var x: Word := 0xFFFE;
    var y: Word := 0x7FFF;
    assert Wrap(y - x) == 0x8001;
  }

  // ---------------------------------------------------------------------------
  // The pieces of straight-line code
  // ---------------------------------------------------------------------------

  /** The branch labels are symbols of the program's own: not empty, not numbers, not predefined. */
  lemma BranchLabelIsSymbol(n: int)
    ensures var name := BranchLabel(n);
            name != [] && !IsNumeral(name) && Predefined(name) == None
  {
    assert BranchLabel(n)[0] == '_';
  }

  /** Pop the top into D, step down to the second value, D = top - second, and A = the first label. */
  lemma HeadEffect(label1: string, symbols: map<string, Word>, m: Machine)
    requires label1 != [] && !IsNumeral(label1) && Predefined(label1) == None && label1 in symbols
    requires StackHolds(m, 2)
    ensures var sp := SP(m);
            var head := PopDLines() + ["A=A-1", "D=D-M", "@" + label1];
            AllFallThrough(head, symbols)
            && ExecuteLines(head, symbols, m)
               == Machine(m.pc + 6, symbols[label1], Wrap(Read(m.ram, sp - 1) - Read(m.ram, sp - 2)), m.ram[0 := sp - 1])
  {
    HeadLinesEffect(label1, symbols, m);
    HeadMachine(label1, symbols, m);
    PopDFallsThrough(symbols);
    SubtractFallsThrough(label1, symbols);
    AllFallThroughAppend(PopDLines(), ["A=A-1", "D=D-M", "@" + label1], symbols);
  }

  /** What the head of a comparison computes, as the subtraction lines leave the machine after the pop. */
  lemma HeadLinesEffect(label1: string, symbols: map<string, Word>, m: Machine)
    requires label1 != [] && !IsNumeral(label1) && Predefined(label1) == None && label1 in symbols
    requires StackHolds(m, 2)
    ensures var sp := SP(m) - 1;
            var ram := m.ram[0 := sp];
            var mid := Machine(m.pc + 3, sp, Read(ram, sp), ram);
            ExecuteLines(PopDLines() + ["A=A-1", "D=D-M", "@" + label1], symbols, m)
            == mid.(pc := mid.pc + 3, a := symbols[label1], d := Wrap(mid.d - Read(mid.ram, mid.a - 1)))
  {
    var sp := SP(m) - 1;
    var ram := m.ram[0 := sp];
    var mid := Machine(m.pc + 3, sp, Read(ram, sp), ram);
    PopDEffect(symbols, m);
    SubtractLinesEffect(label1, symbols, mid);
    var end := mid.(pc := mid.pc + 3, a := symbols[label1], d := Wrap(mid.d - Read(mid.ram, mid.a - 1)));
    ExecuteThen(PopDLines(), ["A=A-1", "D=D-M", "@" + label1], symbols, m, mid, end);
  }

  /** The machine after the head, from the one after its pop: the stored words are untouched by the pop. */
  lemma HeadMachine(label1: string, symbols: map<string, Word>, m: Machine)
    requires label1 in symbols
    requires StackHolds(m, 2)
    ensures var sp := SP(m) - 1;
            var ram := m.ram[0 := sp];
            var mid := Machine(m.pc + 3, sp, Read(ram, sp), ram);
            mid.(pc := mid.pc + 3, a := symbols[label1], d := Wrap(mid.d - Read(mid.ram, mid.a - 1)))
            == Machine(m.pc + 6, symbols[label1], Wrap(Read(m.ram, sp) - Read(m.ram, sp - 1)), ram)
  {
  }

  /** The lines popping into D all fall through. */
  lemma PopDFallsThrough(symbols: map<string, Word>)
    ensures AllFallThrough(PopDLines(), symbols)
  {
    DecodeSP();
    DecodeSPDown();
    DecodeLoadD();
  }

  /** The lines after the pop fall through, the first label being defined. */
  lemma SubtractFallsThrough(label1: string, symbols: map<string, Word>)
    requires label1 != [] && !IsNumeral(label1) && Predefined(label1) == None && label1 in symbols
    ensures AllFallThrough(["A=A-1", "D=D-M", "@" + label1], symbols)
  {
    DecodeAStepDown();
    DecodeSubtractM();
    DecodeSymbol(label1);
  }

  /** Step down to the second value, D = D - second, and A = the first label. */
  lemma SubtractLinesEffect(label1: string, symbols: map<string, Word>, m: Machine)
    requires label1 != [] && !IsNumeral(label1) && Predefined(label1) == None && label1 in symbols
    requires 1 <= m.a
    ensures ExecuteLines(["A=A-1", "D=D-M", "@" + label1], symbols, m)
            == m.(pc := m.pc + 3, a := symbols[label1], d := Wrap(m.d - Read(m.ram, m.a - 1)))
  {
    var m1 := m.(pc := m.pc + 1, a := m.a - 1);
    var m2 := m1.(pc := m.pc + 2, d := Wrap(m.d - Read(m.ram, m.a - 1)));
    DecodeAStepDown();
    DecodeSubtractM();
    DecodeSymbol(label1);
    assert Execute(Decode("A=A-1"), symbols, m) == m1;
    assert Execute(Decode("D=D-M"), symbols, m1) == m2;
    ThreeLines("A=A-1", "D=D-M", "@" + label1, symbols, m);
  }

  /** The taken path: the first label, D = -1, the second label, and D is written over the second value. */
  lemma TruePathEffect(label1: string, label2: string, symbols: map<string, Word>, m: Machine)
    requires 1 <= SP(m)
    ensures var tail := ["(" + label1 + ")", "D=-1", "(" + label2 + ")", "@SP", "A=M-1", "M=D"];
            var r := ExecuteLines(tail, symbols, m);
            AllFallThrough(tail, symbols)
            && r.pc == m.pc + 6 && r.a == SP(m) - 1 && r.d == True && r.ram == m.ram[SP(m) - 1 := True]
  {
    var front := ["(" + label1 + ")", "D=-1", "(" + label2 + ")"];
    var back := ["@SP", "A=M-1", "M=D"];
    var m1 := m.(pc := m.pc + 3, d := True);
    TrueFrontEffect(label1, label2, symbols, m);
    StoreTopEffect(symbols, m1);
    assert SP(m1) == SP(m);
    ExecuteThen(front, back, symbols, m, m1, m1.(pc := m.pc + 6, a := SP(m) - 1, ram := m.ram[SP(m) - 1 := True]));
    AllFallThroughAppend(front, back, symbols);
    assert front + back == ["(" + label1 + ")", "D=-1", "(" + label2 + ")", "@SP", "A=M-1", "M=D"];
  }

  /** The two labels around D = -1: only the program counter and D change. */
  lemma TrueFrontEffect(label1: string, label2: string, symbols: map<string, Word>, m: Machine)
    ensures var front := ["(" + label1 + ")", "D=-1", "(" + label2 + ")"];
            AllFallThrough(front, symbols) && ExecuteLines(front, symbols, m) == m.(pc := m.pc + 3, d := True)
  {
    DecodeLabel(label1);
    DecodeSetD();
    DecodeLabel(label2);
    ThreeLines("(" + label1 + ")", "D=-1", "(" + label2 + ")", symbols, m);
  }

  /** D is written over the top value: A is left at its address. */
  lemma StoreTopEffect(symbols: map<string, Word>, m: Machine)
    requires 1 <= SP(m)
    ensures var back := ["@SP", "A=M-1", "M=D"];
            AllFallThrough(back, symbols)
            && ExecuteLines(back, symbols, m) == m.(pc := m.pc + 3, a := SP(m) - 1, ram := m.ram[SP(m) - 1 := m.d])
  {
    DecodeSP();
    DecodeATop();
    DecodeStoreD();
    ThreeLines("@SP", "A=M-1", "M=D", symbols, m);
  }

  /** The fall-through path before its jump: D = 0 and A = the second label. */
  lemma FalseMiddleEffect(label2: string, symbols: map<string, Word>, m: Machine)
    requires label2 != [] && !IsNumeral(label2) && Predefined(label2) == None && label2 in symbols
    ensures var middle := ["D=0", "@" + label2];
            AllFallThrough(middle, symbols)
            && ExecuteLines(middle, symbols, m) == m.(pc := m.pc + 2, a := symbols[label2], d := 0)
  {
    DecodeClearD();
    DecodeSymbol(label2);
    TwoLines("D=0", "@" + label2, symbols, m);
  }

  /** The second label, then D is written over the second value. */
  lemma FalseTailEffect(label2: string, symbols: map<string, Word>, m: Machine)
    requires 1 <= SP(m)
    ensures var tail := ["(" + label2 + ")", "@SP", "A=M-1", "M=D"];
            var r := ExecuteLines(tail, symbols, m);
            AllFallThrough(tail, symbols)
            && r.pc == m.pc + 4 && r.a == SP(m) - 1 && r.d == m.d && r.ram == m.ram[SP(m) - 1 := m.d]
  {
    var mark := ["(" + label2 + ")"];
    var back := ["@SP", "A=M-1", "M=D"];
    var m1 := m.(pc := m.pc + 1);
    DecodeLabel(label2);
    OneLine("(" + label2 + ")", symbols, m);
    assert AllFallThrough(mark, symbols);
    StoreTopEffect(symbols, m1);
    assert SP(m1) == SP(m);
    ExecuteThen(mark, back, symbols, m, m1, m1.(pc := m.pc + 4, a := SP(m) - 1, ram := m.ram[SP(m) - 1 := m.d]));
    AllFallThroughAppend(mark, back, symbols);
    assert mark + back == ["(" + label2 + ")", "@SP", "A=M-1", "M=D"];
  }

  // ---------------------------------------------------------------------------
  // Running the lines inside a program
  // ---------------------------------------------------------------------------

  /** The sixteen lines of a comparison with the given jump code and labels. */
  lemma InequalityLinesAre(jump: string, label1: string, label2: string)
    ensures var lines := InequalityLines(jump, label1, label2);
            |lines| == 16
            && lines[..6] == PopDLines() + ["A=A-1", "D=D-M", "@" + label1]
            && lines[6] == "D;" + jump
            && lines[7..9] == ["D=0", "@" + label2]
            && lines[9] == "0;JMP"
            && lines[10..16] == ["(" + label1 + ")", "D=-1", "(" + label2 + ")", "@SP", "A=M-1", "M=D"]
            && lines[12..16] == ["(" + label2 + ")", "@SP", "A=M-1", "M=D"]
  {
    var lines := InequalityLines(jump, label1, label2);
    assert lines == ["@SP", "AM=M-1", "D=M", "A=A-1", "D=D-M", "@" + label1, "D;" + jump, "D=0", "@" + label2,
                     "0;JMP", "(" + label1 + ")", "D=-1", "(" + label2 + ")", "@SP", "A=M-1", "M=D"];
    assert lines[..6] == PopDLines() + ["A=A-1", "D=D-M", "@" + label1];
    assert lines[7..9] == ["D=0", "@" + label2];
    assert lines[10..16] == ["(" + label1 + ")", "D=-1", "(" + label2 + ")", "@SP", "A=M-1", "M=D"];
    assert lines[12..16] == ["(" + label2 + ")", "@SP", "A=M-1", "M=D"];
  }

  /** The program holds a comparison's lines at base, with the labels where the lines put them. */
  predicate Placed(program: seq<string>, symbols: map<string, Word>, base: int, code: string, label1: string, label2: string) {
    PlacedAt(program, InequalityLines(code, label1, label2), base)
    && label1 in symbols && symbols[label1] == base + 10
    && label2 in symbols && symbols[label2] == base + 12
  }

  /** The first seven cycles: the head of the lines, then the test jump to the first label or to the next line. */
  lemma HeadRun(jump: Jump, program: seq<string>, symbols: map<string, Word>, m: Machine, code: string, label1: string, label2: string)
    requires Decode("D;" + code) == CInstr(NoDest, RegD, jump)
    requires label1 != [] && !IsNumeral(label1) && Predefined(label1) == None
    requires Placed(program, symbols, m.pc, code, label1, label2) && StackHolds(m, 2)
    ensures var sp := SP(m);
            var diff := Wrap(Read(m.ram, sp - 1) - Read(m.ram, sp - 2));
            Run(program, symbols, m, 7)
            == Machine(if Taken(jump, diff) then m.pc + 10 else m.pc + 7, m.pc + 10, diff, m.ram[0 := sp - 1])
  {
    var lines := InequalityLines(code, label1, label2);
    InequalityLinesAre(code, label1, label2);
    HeadEffect(label1, symbols, m);
    RunBlock(program, symbols, m, lines, m.pc, 0, 6);
    var m6 := Run(program, symbols, m, 6);
    RunJump(program, symbols, m6, lines, m.pc, 6);
    RunAdd(program, symbols, m, 6, 1);
  }

  /** The taken path: six cycles from the first label to the end of the lines, writing -1. */
  lemma TakenRun(program: seq<string>, symbols: map<string, Word>, m: Machine, base: int, code: string, label1: string, label2: string)
    requires Placed(program, symbols, base, code, label1, label2) && m.pc == base + 10 && 1 <= SP(m)
    ensures var r := Run(program, symbols, m, 6);
            r.pc == base + 16 && r.ram == m.ram[SP(m) - 1 := True]
  {
    var lines := InequalityLines(code, label1, label2);
    InequalityLinesAre(code, label1, label2);
    TruePathEffect(label1, label2, symbols, m);
    RunBlock(program, symbols, m, lines, base, 10, 16);
  }

  /** The first three cycles of the other path: D = 0, A = the second label, and the jump to it. */
  lemma FalseJumpRun(program: seq<string>, symbols: map<string, Word>, m: Machine, base: int, code: string, label1: string, label2: string)
    requires label2 != [] && !IsNumeral(label2) && Predefined(label2) == None
    requires Placed(program, symbols, base, code, label1, label2) && m.pc == base + 7
    ensures Run(program, symbols, m, 3) == m.(pc := base + 12, a := symbols[label2], d := 0)
  {
    var lines := InequalityLines(code, label1, label2);
    InequalityLinesAre(code, label1, label2);
    FalseMiddleEffect(label2, symbols, m);
    RunBlock(program, symbols, m, lines, base, 7, 9);
    var m9 := Run(program, symbols, m, 2);
    RunJump(program, symbols, m9, lines, base, 9);
    DecodeGoto();
    RunAdd(program, symbols, m, 2, 1);
  }

  /** The last four cycles of the other path: from the second label, D is written over the second value. */
  lemma FalseTailRun(program: seq<string>, symbols: map<string, Word>, m: Machine, base: int, code: string, label1: string, label2: string)
    requires Placed(program, symbols, base, code, label1, label2) && m.pc == base + 12 && 1 <= SP(m)
    ensures var r := Run(program, symbols, m, 4);
            r.pc == base + 16 && r.ram == m.ram[SP(m) - 1 := m.d]
  {
    var lines := InequalityLines(code, label1, label2);
    InequalityLinesAre(code, label1, label2);
    FalseTailEffect(label2, symbols, m);
    RunBlock(program, symbols, m, lines, base, 12, 16);
  }

  /** The whole run when the test jump is taken: 13 cycles, writing -1. */
  lemma TakenWhole(jump: Jump, program: seq<string>, symbols: map<string, Word>, m: Machine, code: string, label1: string, label2: string)
    requires Decode("D;" + code) == CInstr(NoDest, RegD, jump)
    requires label1 != [] && !IsNumeral(label1) && Predefined(label1) == None
    requires Placed(program, symbols, m.pc, code, label1, label2) && StackHolds(m, 2)
    requires Taken(jump, Wrap(Read(m.ram, SP(m) - 1) - Read(m.ram, SP(m) - 2)))
    ensures var sp := SP(m);
            var r := Run(program, symbols, m, 13);
            r.pc == m.pc + 16 && r.ram == m.ram[0 := sp - 1][sp - 2 := True]
  {
    HeadRun(jump, program, symbols, m, code, label1, label2);
    var m7 := Run(program, symbols, m, 7);
    TakenRun(program, symbols, m7, m.pc, code, label1, label2);
    RunAdd(program, symbols, m, 7, 6);
  }

  /** The whole run when the test jump is not taken: 14 cycles, writing 0. */
  lemma NotTakenWhole(jump: Jump, program: seq<string>, symbols: map<string, Word>, m: Machine, code: string, label1: string, label2: string)
    requires Decode("D;" + code) == CInstr(NoDest, RegD, jump)
    requires label1 != [] && !IsNumeral(label1) && Predefined(label1) == None
    requires label2 != [] && !IsNumeral(label2) && Predefined(label2) == None
    requires Placed(program, symbols, m.pc, code, label1, label2) && StackHolds(m, 2)
    requires !Taken(jump, Wrap(Read(m.ram, SP(m) - 1) - Read(m.ram, SP(m) - 2)))
    ensures var sp := SP(m);
            var r := Run(program, symbols, m, 14);
            r.pc == m.pc + 16 && r.ram == m.ram[0 := sp - 1][sp - 2 := False]
  {
    HeadRun(jump, program, symbols, m, code, label1, label2);
    var m7 := Run(program, symbols, m, 7);
    FalseJumpRun(program, symbols, m7, m.pc, code, label1, label2);
    var m10 := Run(program, symbols, m7, 3);
    FalseTailRun(program, symbols, m10, m.pc, code, label1, label2);
    RunAdd(program, symbols, m7, 3, 4);
    RunAdd(program, symbols, m, 7, 7);
  }

  /**
    A comparison's lines, run from their first line: the test jump is taken exactly when
    the jump code holds of top - second (taken says whether it does); the taken path needs 13 cycles and the other 14; both
    end after the last line with SP one lower and the second value replaced by true or false.
  */
  lemma InequalityRun(jump: Jump, program: seq<string>, symbols: map<string, Word>, m: Machine, code: string, label1: string, label2: string, taken: bool)
    requires Decode("D;" + code) == CInstr(NoDest, RegD, jump)
    requires label1 != [] && !IsNumeral(label1) && Predefined(label1) == None
    requires label2 != [] && !IsNumeral(label2) && Predefined(label2) == None
    requires Placed(program, symbols, m.pc, code, label1, label2) && StackHolds(m, 2)
    requires taken == Taken(jump, Wrap(Read(m.ram, SP(m) - 1) - Read(m.ram, SP(m) - 2)))
    ensures var sp := SP(m);
            var r := Run(program, symbols, m, if taken then 13 else 14);
            r.pc == m.pc + 16 && r.ram == m.ram[0 := sp - 1][sp - 2 := BoolWord(taken)]
  {
    if taken {
      TakenWhole(jump, program, symbols, m, code, label1, label2);
    } else {
      NotTakenWhole(jump, program, symbols, m, code, label1, label2);
    }
  }

  /**
    eq, lt and gt as the code writer emits them, run at the counter in a program whose labels
    sit where the lines put them: the two top values are replaced by -1 when the command's test
    holds of the second and top values and by 0 when it does not, and SP goes down by one. For lt
    and gt this holds when the difference does not overflow.
  */
  lemma ComparisonEffect(command: string, counter: int, program: seq<string>, symbols: map<string, Word>, m: Machine)
    requires IsComparison(command) && StackHolds(m, 2)
    requires 0 <= m.pc && m.pc + 16 <= |program| && program[m.pc..m.pc + 16] == ArithmeticLines(command, counter)
    requires BranchLabel(counter) in symbols && symbols[BranchLabel(counter)] == m.pc + 10
    requires BranchLabel(counter + 1) in symbols && symbols[BranchLabel(counter + 1)] == m.pc + 12
    requires command == "eq" || NoOverflow(Read(m.ram, SP(m) - 2), Read(m.ram, SP(m) - 1))
    ensures var sp := SP(m);
            var holds := VmCompare(command, Read(m.ram, sp - 2), Read(m.ram, sp - 1));
            var r := Run(program, symbols, m, if holds then 13 else 14);
            r.pc == m.pc + 16 && r.ram == m.ram[0 := sp - 1][sp - 2 := BoolWord(holds)]
  {
    var sp := SP(m);
    var x: Word := Read(m.ram, sp - 2);
    var y: Word := Read(m.ram, sp - 1);
    var code, label1, label2 := TranslatorTable[command], BranchLabel(counter), BranchLabel(counter + 1);
    var lines := InequalityLines(code, label1, label2);
    assert ArithmeticLines(command, counter) == lines;
    PlacedAtOfSlice(program, lines, m.pc);
    assert Placed(program, symbols, m.pc, code, label1, label2);
    TestLine(command);
    BranchLabelIsSymbol(counter);
    BranchLabelIsSymbol(counter + 1);
    TestMeaning(command, x, y);
    InequalityRun(JumpOf(command), program, symbols, m, code, label1, label2, VmCompare(command, x, y));
  }

  /**
    push constant 7, push constant 8, add, push constant 15, eq: the sum equals 15, so the stack
    ends one above where it started with true (-1) on top. The straight-line part is executed as
    written; eq then runs in a program that holds its lines right after it, with its labels placed.
  */
  lemma AddThenEqualExample(counter: int, program: seq<string>, symbols: map<string, Word>, m: Machine)
    requires 16 <= SP(m) && SP(m) + 3 < 0xFFFF
    requires 0 <= m.pc && m.pc + 39 <= |program| && program[m.pc + 23..m.pc + 39] == ArithmeticLines("eq", counter)
    requires BranchLabel(counter) in symbols && symbols[BranchLabel(counter)] == m.pc + 33
    requires BranchLabel(counter + 1) in symbols && symbols[BranchLabel(counter + 1)] == m.pc + 35
    ensures var straight := PushConstantLines(7) + PushConstantLines(8) + ArithmeticLines("add", counter)
                            + PushConstantLines(15);
            var r := Run(program, symbols, ExecuteLines(straight, symbols, m), 13);
            r.pc == m.pc + 39 && SP(r) == SP(m) + 1 && Read(r.ram, SP(m)) == True
  {
    var straight := PushConstantLines(7) + PushConstantLines(8) + ArithmeticLines("add", counter) + PushConstantLines(15);
    AddThenPushFifteen(counter, symbols, m);
    ComparisonEffect("eq", counter, program, symbols, ExecuteLines(straight, symbols, m));
  }

  /** push constant 7, push constant 8, add, push constant 15: two 15s on top of the old stack. */
  lemma AddThenPushFifteen(counter: int, symbols: map<string, Word>, m: Machine)
    requires 16 <= SP(m) && SP(m) + 3 < 0xFFFF
    ensures var straight := PushConstantLines(7) + PushConstantLines(8) + ArithmeticLines("add", counter)
                            + PushConstantLines(15);
            var r := ExecuteLines(straight, symbols, m);
            r.pc == m.pc + 23 && SP(r) == SP(m) + 2 && Read(r.ram, SP(m)) == 15 && Read(r.ram, SP(m) + 1) == 15
  {
    var seven, eight, add := PushConstantLines(7), PushConstantLines(8), ArithmeticLines("add", counter);
    PushPushAddExample(counter, symbols, m);
    var m3 := ExecuteLines(add, symbols, ExecuteLines(eight, symbols, ExecuteLines(seven, symbols, m)));
    ExecuteLinesAppend(seven, eight, symbols, m);
    ExecuteLinesAppend(seven + eight, add, symbols, m);
    ExecuteLinesAppend(seven + eight + add, PushConstantLines(15), symbols, m);
    PushFifteenOnFifteen(symbols, m3);
  }

  /** push constant 15 on a stack with 15 on top: two 15s on top. */
  lemma PushFifteenOnFifteen(symbols: map<string, Word>, m: Machine)
    requires 17 <= SP(m) && SP(m) + 2 < 0xFFFF && Read(m.ram, SP(m) - 1) == 15
    ensures var r := ExecuteLines(PushConstantLines(15), symbols, m);
            r.pc == m.pc + 6 && SP(r) == SP(m) + 1 && Read(r.ram, SP(m) - 1) == 15 && Read(r.ram, SP(m)) == 15
  {
    PushConstantEffect(15, symbols, m);
  }
}
