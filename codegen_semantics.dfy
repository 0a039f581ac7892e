/**
  What the code written by the code writer does when it runs on the Hack
  computer: each push, pop and arithmetic command moves the stack pointer in
  RAM[0] and changes exactly the cells the VM command names, computing the
  VM's 16-bit results.
*/
module CodeGenSemantics {
  import opened Wrappers
  import opened Text
  import opened Hack
  import opened CodeGen

  // ---------------------------------------------------------------------------
  // The VM's meaning of the arithmetic commands
  // ---------------------------------------------------------------------------

  /** The result of a binary command on the second (x) and top (y) values of the stack. */
  function VmBinary(command: string, x: Word, y: Word): Word
    requires IsBinaryCommand(command)
  {
    if command == "add" then Wrap(x + y)
    else if command == "sub" then Wrap(x - y)
    else if command == "and" then And(x, y)
    else Or(x, y)
  }

  /** The truth of a comparison of the second (x) and top (y) values, as signed numbers. */
  predicate VmCompare(command: string, x: Word, y: Word)
    requires IsComparison(command)
  {
    if command == "eq" then x == y
    else if command == "lt" then Signed(x) < Signed(y)
    else Signed(x) > Signed(y)
  }

  /** The result of neg on the top value of the stack: its two's-complement negation. */
  function VmNeg(y: Word): Word {
    Wrap(-(y as int))
  }

  /** The stack pointer leaves room for one more push, and the top n cells lie above the 16 registers. */
  predicate StackHolds(m: Machine, n: nat) {
    16 + n <= SP(m) < 0xFFFF
  }

  // ---------------------------------------------------------------------------
  // Reading the written lines
  // ---------------------------------------------------------------------------

  lemma DecodeConstant(c: int)
    requires 0 <= c < 0x8000
    ensures Decode("@" + IntToString(c)) == AConst(c)
  {
    IntToStringOfNat(c);
    assert ("@" + IntToString(c))[1..] == IntToString(c);
  }

  lemma DecodeSymbol(name: string)
    requires name != [] && !IsNumeral(name)
    ensures Decode("@" + name) == ASymbol(name)
  {
    assert ("@" + name)[1..] == name;
  }

  lemma DecodeSP()
    ensures Decode("@SP") == ASymbol("SP")
  {
    assert "SP"[0] == 'S';
    DecodeSymbol("SP");
  }

  lemma DecodeLabel(name: string)
    ensures Decode("(" + name + ")") == Label(name)
  {
    var line := "(" + name + ")";
    assert line[1..|line| - 1] == name;
  }

  // ---------------------------------------------------------------------------
  // The building blocks
  // ---------------------------------------------------------------------------

  /** Popping into D: SP goes down by one and D holds the old top; A is left at the top's address. */
  lemma PopDEffect(symbols: map<string, Word>, m: Machine)
    requires 1 <= SP(m)
    ensures var sp := SP(m) - 1;
            var ram := m.ram[0 := sp];
            ExecuteLines(PopDLines(), symbols, m) == Machine(m.pc + 3, sp, Read(ram, sp), ram)
  {
    DecodeSP();
    DecodeSPDown();
    DecodeLoadD();
    var m1 := Execute(ASymbol("SP"), symbols, m);
    var m2 := Execute(CInstr(ToAM, MemMinusOne, NoJump), symbols, m1);
    assert ExecuteLines(PopDLines(), symbols, m) == ExecuteLines(["D=M"], symbols, m2);
  }

  /** Pushing D: the old SP cell receives D and SP goes up by one; A is left at the new top's address. */
  lemma PushDEffect(symbols: map<string, Word>, m: Machine)
    requires SP(m) < 0xFFFF
    ensures var sp := SP(m);
            ExecuteLines(PushDLines(), symbols, m) == Machine(m.pc + 4, sp, m.d, m.ram[0 := sp + 1][sp := m.d])
  {
    var sp := SP(m);
    var raise := ["@SP", "AM=M+1", "A=A-1"];
    var m3 := Machine(m.pc + 3, sp, m.d, m.ram[0 := sp + 1]);
    var end := Machine(m.pc + 4, sp, m.d, m.ram[0 := sp + 1][sp := m.d]);
    RaiseSPEffect(symbols, m);
    DecodeStoreD();
    OneLine("M=D", symbols, m3);
    assert ExecuteLines(["M=D"], symbols, m3) == end;
    ExecuteThen(raise, ["M=D"], symbols, m, m3, end);
  }

  /** SP goes up by one, and A is left at the old SP. */
  lemma RaiseSPEffect(symbols: map<string, Word>, m: Machine)
    requires SP(m) < 0xFFFF
    ensures var sp := SP(m);
            ExecuteLines(["@SP", "AM=M+1", "A=A-1"], symbols, m) == Machine(m.pc + 3, sp, m.d, m.ram[0 := sp + 1])
  {
    var sp := SP(m);
    var m1 := m.(pc := m.pc + 1, a := 0);
    var m2 := Machine(m.pc + 2, sp + 1, m.d, m.ram[0 := sp + 1]);
    DecodeSP();
    DecodeSPUp();
    DecodeAStepDown();
    assert Execute(Decode("@SP"), symbols, m) == m1;
    assert Execute(Decode("AM=M+1"), symbols, m1) == m2;
    assert Execute(Decode("A=A-1"), symbols, m2) == Machine(m.pc + 3, sp, m.d, m.ram[0 := sp + 1]);
    ThreeLines("@SP", "AM=M+1", "A=A-1", symbols, m);
  }

  /** The six segments reached through the translation table. */
  predicate IsMemorySegment(segment: string) {
    segment == "local" || segment == "argument" || segment == "this" || segment == "that"
    || segment == "pointer" || segment == "temp"
  }

  /**
    Where a segment starts in the VM's memory mapping: local, argument, this and that start where
    RAM[1], RAM[2], RAM[3] and RAM[4] point; pointer starts at 3 and temp at 5.
  */
  function SegmentStart(segment: string, ram: map<int, Word>): Word
    requires IsMemorySegment(segment)
  {
    if segment == "pointer" then 3
    else if segment == "temp" then 5
    else if segment == "local" then Read(ram, 1)
    else if segment == "argument" then Read(ram, 2)
    else if segment == "this" then Read(ram, 3)
    else Read(ram, 4)
  }

  /** The RAM address of segment[index], on the Hack computer's 16-bit address arithmetic. */
  function VmAddress(segment: string, index: int, ram: map<int, Word>): Word
    requires IsMemorySegment(segment)
  {
    Wrap(SegmentStart(segment, ram) + index)
  }

  lemma SmallNumerals()
    ensures IntToString(3) == "3" && IntToString(5) == "5" && IntToString(13) == "13"
  {
    assert NatToString(13) == NatToString(1) + [DigitChar(3)];
  }

  /** The table entries of the six memory segments. */
  lemma SegmentEntries()
    ensures TranslatorTable["local"] == "LCL" && TranslatorTable["argument"] == "ARG"
    ensures TranslatorTable["this"] == "THIS" && TranslatorTable["that"] == "THAT"
    ensures TranslatorTable["pointer"] == "3" && TranslatorTable["temp"] == "5"
  {
  }

  /** Three lines executed one after the other. */
  lemma ThreeLines(l0: string, l1: string, l2: string, symbols: map<string, Word>, m: Machine)
    ensures ExecuteLines([l0, l1, l2], symbols, m)
         == Execute(Decode(l2), symbols, Execute(Decode(l1), symbols, Execute(Decode(l0), symbols, m)))
  {
    var m1 := Execute(Decode(l0), symbols, m);
    var m2 := Execute(Decode(l1), symbols, m1);
    OneLine(l2, symbols, m2);
    ExecuteLinesCons(l1, [l2], symbols, m1);
    assert [l0, l1, l2] == [l0] + ([l1] + [l2]);
    ExecuteLinesCons(l0, [l1] + [l2], symbols, m);
  }

  /** pointer and temp: D receives the segment's fixed start, A the index. */
  lemma DirectOffsetEffect(at: int, index: int, symbols: map<string, Word>, m: Machine)
    requires (at == 3 || at == 5) && 0 <= index < 0x8000
    ensures ExecuteLines(IndexOffsetLines(IntToString(at), index), symbols, m) == Machine(m.pc + 3, index, at, m.ram)
  {
    SmallNumerals();
    DecodeConstant(at);
    DecodeConstant(index);
    DecodeDFromA();
    assert IndexOffsetLines(IntToString(at), index) == ["@" + IntToString(at), "D=A", "@" + IntToString(index)];
    ThreeLines("@" + IntToString(at), "D=A", "@" + IntToString(index), symbols, m);
  }

  /** The base registers of local, argument, this and that. */
  predicate IsBaseRegister(base: string) {
    base == "LCL" || base == "ARG" || base == "THIS" || base == "THAT"
  }

  /** A base register is a predefined symbol, so it is read from the register it names. */
  lemma BaseRegisterLines(base: string, index: int)
    requires IsBaseRegister(base)
    ensures Predefined(base).Some? && base != [] && !IsNumeral(base)
    ensures IndexOffsetLines(base, index) == ["@" + base, "D=M", "@" + IntToString(index)]
  {
    assert base[0] == 'L' || base[0] == 'A' || base[0] == 'T';
  }

  /** local, argument, this and that: D receives the pointer stored in the base register, A the index. */
  lemma IndirectOffsetEffect(base: string, index: int, symbols: map<string, Word>, m: Machine)
    requires IsBaseRegister(base) && 0 <= index < 0x8000
    ensures Predefined(base).Some?
    ensures ExecuteLines(IndexOffsetLines(base, index), symbols, m)
            == Machine(m.pc + 3, index, Read(m.ram, Predefined(base).value), m.ram)
  {
    BaseRegisterLines(base, index);
    var at := Predefined(base).value;
    var m1 := m.(pc := m.pc + 1, a := at);
    var m2 := m1.(pc := m.pc + 2, d := Read(m.ram, at));
    DecodeSymbol(base);
    DecodeLoadD();
    DecodeConstant(index);
    assert Execute(Decode("@" + base), symbols, m) == m1;
    assert Execute(Decode("D=M"), symbols, m1) == m2;
    ThreeLines("@" + base, "D=M", "@" + IntToString(index), symbols, m);
  }

  /** The offset lines leave the segment's address split between D and A: D is where the segment starts, A the index. */
  lemma IndexOffsetEffect(segment: string, index: int, symbols: map<string, Word>, m: Machine)
    requires IsMemorySegment(segment) && 0 <= index < 0x8000
    ensures ExecuteLines(IndexOffsetLines(TranslatorTable[segment], index), symbols, m)
            == Machine(m.pc + 3, index, SegmentStart(segment, m.ram), m.ram)
  {
    SegmentEntries();
    SmallNumerals();
    if segment == "pointer" {
      DirectOffsetEffect(3, index, symbols, m);
    } else if segment == "temp" {
      DirectOffsetEffect(5, index, symbols, m);
    } else if segment == "local" {
      IndirectOffsetEffect("LCL", index, symbols, m);
    } else if segment == "argument" {
      IndirectOffsetEffect("ARG", index, symbols, m);
    } else if segment == "this" {
      IndirectOffsetEffect("THIS", index, symbols, m);
    } else {
      IndirectOffsetEffect("THAT", index, symbols, m);
    }
  }

  lemma OneLine(line: string, symbols: map<string, Word>, m: Machine)
    ensures ExecuteLines([line], symbols, m) == Execute(Decode(line), symbols, m)
  {
  }

  lemma ExecuteLinesCons(line: string, rest: seq<string>, symbols: map<string, Word>, m: Machine)
    ensures ExecuteLines([line] + rest, symbols, m) == ExecuteLines(rest, symbols, Execute(Decode(line), symbols, m))
  {
    assert ([line] + rest)[1..] == rest;
  }

  lemma TwoLines(l0: string, l1: string, symbols: map<string, Word>, m: Machine)
    ensures ExecuteLines([l0, l1], symbols, m) == Execute(Decode(l1), symbols, Execute(Decode(l0), symbols, m))
  {
    var m1 := Execute(Decode(l0), symbols, m);
    OneLine(l1, symbols, m1);
    assert [l0, l1] == [l0] + [l1];
    ExecuteLinesCons(l0, [l1], symbols, m);
  }

  /** A static label is a symbol of the program's own: not empty, not a number, not predefined. */
  lemma StaticLabelIsSymbol(fileName: Option<string>, index: int)
    ensures var name := StaticLabelOf(fileName, index);
            name != [] && !IsNumeral(name) && Predefined(name) == None
  {
    var name := StaticLabelOf(fileName, index);
    assert name[|NameText(fileName)|] == '.';
  }

  // ---------------------------------------------------------------------------
  // Push
  // ---------------------------------------------------------------------------

  /** Two lines that load a value into D, then the push of D: the value lands on top and SP goes up by one. */
  lemma LoadThenPushEffect(load: seq<string>, a: Word, v: Word, symbols: map<string, Word>, m: Machine)
    requires SP(m) < 0xFFFF
    requires ExecuteLines(load, symbols, m) == Machine(m.pc + 2, a, v, m.ram)
    ensures var sp := SP(m);
            ExecuteLines(load + PushDLines(), symbols, m) == Machine(m.pc + 6, sp, v, m.ram[0 := sp + 1][sp := v])
  {
    var m1 := Machine(m.pc + 2, a, v, m.ram);
    PushDEffect(symbols, m1);
    assert SP(m1) == SP(m);
    ExecuteThen(load, PushDLines(), symbols, m, m1, Machine(m.pc + 6, SP(m), v, m.ram[0 := SP(m) + 1][SP(m) := v]));
  }

  /** @c then D=A: both registers receive the constant. */
  lemma ConstantLoadEffect(c: int, symbols: map<string, Word>, m: Machine)
    requires 0 <= c < 0x8000
    ensures ExecuteLines(["@" + IntToString(c), "D=A"], symbols, m) == Machine(m.pc + 2, c, c, m.ram)
  {
    DecodeConstant(c);
    DecodeDFromA();
    TwoLines("@" + IntToString(c), "D=A", symbols, m);
  }

  /** push constant c: the constant lands on top of the stack and SP goes up by one. */
  lemma PushConstantEffect(c: int, symbols: map<string, Word>, m: Machine)
    requires 0 <= c < 0x8000 && SP(m) < 0xFFFF
    ensures var r := ExecuteLines(PushConstantLines(c), symbols, m);
            r.pc == m.pc + 6 && r.ram == m.ram[0 := SP(m) + 1][SP(m) := c]
  {
    ConstantLoadEffect(c, symbols, m);
    LoadThenPushEffect(["@" + IntToString(c), "D=A"], c, c, symbols, m);
  }

  /** A = D + A followed by D = M: D receives the cell at the sum. */
  lemma FetchEffect(symbols: map<string, Word>, m: Machine)
    ensures var addr := Wrap(m.d + m.a);
            ExecuteLines(["A=D+A", "D=M"], symbols, m) == Machine(m.pc + 2, addr, Read(m.ram, addr), m.ram)
  {
    DecodeAFromSum();
    DecodeLoadD();
    TwoLines("A=D+A", "D=M", symbols, m);
  }

  /** Fetching the cell at D + A and pushing it onto the stack. */
  lemma FetchPushEffect(symbols: map<string, Word>, m: Machine)
    requires SP(m) < 0xFFFF
    ensures var sp, v := SP(m), Read(m.ram, Wrap(m.d + m.a));
            ExecuteLines(["A=D+A", "D=M"] + PushDLines(), symbols, m) == Machine(m.pc + 6, sp, v, m.ram[0 := sp + 1][sp := v])
  {
    FetchEffect(symbols, m);
    LoadThenPushEffect(["A=D+A", "D=M"], Wrap(m.d + m.a), Read(m.ram, Wrap(m.d + m.a)), symbols, m);
  }

  /** Fetching the cell at D + A and pushing it, after lines that left a start in D and an index in A. */
  lemma PushFetchedEffect(offset: seq<string>, start: Word, index: Word, symbols: map<string, Word>, m: Machine)
    requires SP(m) < 0xFFFF
    requires ExecuteLines(offset, symbols, m) == Machine(m.pc + 3, index, start, m.ram)
    ensures var sp, v := SP(m), Read(m.ram, Wrap(start + index));
            ExecuteLines(offset + ["A=D+A", "D=M"] + PushDLines(), symbols, m)
            == Machine(m.pc + 9, sp, v, m.ram[0 := sp + 1][sp := v])
  {
    var m1 := Machine(m.pc + 3, index, start, m.ram);
    var tail := ["A=D+A", "D=M"] + PushDLines();
    FetchPushEffect(symbols, m1);
    var sp, v := SP(m1), Read(m1.ram, Wrap(m1.d + m1.a));
    ExecuteThen(offset, tail, symbols, m, m1, Machine(m1.pc + 6, sp, v, m1.ram[0 := sp + 1][sp := v]));
    AppendAssociative(offset, ["A=D+A", "D=M"], PushDLines());
    FetchedMachine(start, index, m);
  }

  /** The machine the fetch and push leave, read back from the one the offset lines left. */
  lemma FetchedMachine(start: Word, index: Word, m: Machine)
    requires SP(m) < 0xFFFF
    ensures var m1 := Machine(m.pc + 3, index, start, m.ram);
            var sp, v := SP(m1), Read(m1.ram, Wrap(m1.d + m1.a));
            Machine(m1.pc + 6, sp, v, m1.ram[0 := sp + 1][sp := v])
            == Machine(m.pc + 9, SP(m), Read(m.ram, Wrap(start + index)),
                       m.ram[0 := SP(m) + 1][SP(m) := Read(m.ram, Wrap(start + index))])
  {
  }

  /** push segment index: the cell segment[index] is copied onto the stack and SP goes up by one. */
  lemma PushMemoryEffect(segment: string, index: int, symbols: map<string, Word>, m: Machine)
    requires IsMemorySegment(segment) && 0 <= index < 0x8000 && SP(m) < 0xFFFF
    ensures var r := ExecuteLines(PushMemoryLines(TranslatorTable[segment], index), symbols, m);
            r.pc == m.pc + 9 && r.ram == m.ram[0 := SP(m) + 1][SP(m) := Read(m.ram, VmAddress(segment, index, m.ram))]
  {
    IndexOffsetEffect(segment, index, symbols, m);
    PushFetchedEffect(IndexOffsetLines(TranslatorTable[segment], index), SegmentStart(segment, m.ram), index, symbols, m);
  }

  /** push static index: the file's static variable is copied onto the stack and SP goes up by one. */
  lemma PushStaticEffect(fileName: Option<string>, index: int, symbols: map<string, Word>, m: Machine)
    requires StaticLabelOf(fileName, index) in symbols && SP(m) < 0xFFFF
    ensures var r := ExecuteLines(PushStaticLines(StaticLabelOf(fileName, index)), symbols, m);
            r.pc == m.pc + 6 && r.ram == m.ram[0 := SP(m) + 1][SP(m) := Read(m.ram, symbols[StaticLabelOf(fileName, index)])]
  {
    var name := StaticLabelOf(fileName, index);
    StaticLabelIsSymbol(fileName, index);
    SymbolLoadEffect(name, symbols, m);
    LoadThenPushEffect(["@" + name, "D=M"], symbols[name], Read(m.ram, symbols[name]), symbols, m);
  }

  /** @name then D=M: A receives the symbol's address and D the cell there. */
  lemma SymbolLoadEffect(name: string, symbols: map<string, Word>, m: Machine)
    requires name != [] && !IsNumeral(name) && Predefined(name) == None && name in symbols
    ensures var at := symbols[name];
            ExecuteLines(["@" + name, "D=M"], symbols, m) == Machine(m.pc + 2, at, Read(m.ram, at), m.ram)
  {
    DecodeSymbol(name);
    DecodeLoadD();
    TwoLines("@" + name, "D=M", symbols, m);
  }


  // ---------------------------------------------------------------------------
  // Pop
  // ---------------------------------------------------------------------------

  /** Storing D at a symbol's address. */
  lemma StoreAtSymbolEffect(name: string, symbols: map<string, Word>, m: Machine)
    requires name != [] && !IsNumeral(name) && Predefined(name) == None && name in symbols
    ensures var r := ExecuteLines(["@" + name, "M=D"], symbols, m);
            r.pc == m.pc + 2 && r.ram == m.ram[symbols[name] := m.d]
  {
    DecodeSymbol(name);
    DecodeStoreD();
    TwoLines("@" + name, "M=D", symbols, m);
  }

  /** pop static index: the top of the stack moves into the file's static variable and SP goes down by one. */
  lemma PopToStaticEffect(fileName: Option<string>, index: int, symbols: map<string, Word>, m: Machine)
    requires StaticLabelOf(fileName, index) in symbols && 17 <= SP(m)
    ensures var sp := SP(m) - 1;
            var r := ExecuteLines(PopToStaticLines(StaticLabelOf(fileName, index)), symbols, m);
            r.pc == m.pc + 5 && r.ram == m.ram[0 := sp][symbols[StaticLabelOf(fileName, index)] := Read(m.ram, sp)]
  {
    var name := StaticLabelOf(fileName, index);
    ExecuteLinesAppend(PopDLines(), ["@" + name, "M=D"], symbols, m);
    PopDEffect(symbols, m);
    StaticLabelIsSymbol(fileName, index);
    StoreAtSymbolEffect(name, symbols, ExecuteLines(PopDLines(), symbols, m));
  }

  /** D = D + A, then the sum is parked in RAM[s]. */
  lemma SaveAddressEffect(s: int, symbols: map<string, Word>, m: Machine)
    requires 1 <= s < 16
    ensures var addr := Wrap(m.d + m.a);
            ExecuteLines(["D=D+A", "@" + IntToString(s), "M=D"], symbols, m)
            == Machine(m.pc + 3, s, addr, m.ram[s := addr])
  {
    DecodeAddA();
    DecodeConstant(s);
    DecodeStoreD();
    ThreeLines("D=D+A", "@" + IntToString(s), "M=D", symbols, m);
  }

  /** D is stored at the address parked in RAM[s]. */
  lemma StoreThroughEffect(s: int, symbols: map<string, Word>, m: Machine)
    requires 1 <= s < 16
    ensures ExecuteLines(["@" + IntToString(s), "A=M", "M=D"], symbols, m)
            == m.(pc := m.pc + 3, a := Read(m.ram, s), ram := m.ram[Read(m.ram, s) := m.d])
  {
    DecodeConstant(s);
    DecodeAFromM();
    DecodeStoreD();
    ThreeLines("@" + IntToString(s), "A=M", "M=D", symbols, m);
  }

  /** The lines after the offset: the address D + A is parked in RAM[s], the top is popped and stored there. */
  lemma PopThroughEffect(s: int, symbols: map<string, Word>, m: Machine)
    requires 1 <= s < 16 && 17 <= SP(m)
    ensures var addr := Wrap(m.d + m.a);
            var sp := SP(m) - 1;
            ExecuteLines(PopThroughLines(IntToString(s)), symbols, m)
            == Machine(m.pc + 9, addr, Read(m.ram, sp), m.ram[s := addr][0 := sp][addr := Read(m.ram, sp)])
  {
    var save := ["D=D+A", "@" + IntToString(s), "M=D"];
    var store := ["@" + IntToString(s), "A=M", "M=D"];
    var addr, sp := Wrap(m.d + m.a), SP(m) - 1;
    var m1 := Machine(m.pc + 3, s, addr, m.ram[s := addr]);
    SaveAddressEffect(s, symbols, m);
    assert SP(m1) == SP(m);
    var ram2 := m1.ram[0 := sp];
    var m2 := Machine(m.pc + 6, sp, Read(ram2, sp), ram2);
    PopDEffect(symbols, m1);
    assert Read(ram2, s) == addr && Read(ram2, sp) == Read(m.ram, sp);
    StoreThroughEffect(s, symbols, m2);
    ExecuteThen(save, PopDLines(), symbols, m, m1, m2);
    ExecuteThen(save + PopDLines(), store, symbols, m, m2, m2.(pc := m.pc + 9, a := addr, ram := ram2[addr := m2.d]));
  }

  /** The whole pop through RAM[s], after lines that left a start in D and an index in A. */
  lemma PopAfterOffsetEffect(offset: seq<string>, start: Word, index: Word, s: int, symbols: map<string, Word>, m: Machine)
    requires 1 <= s < 16 && 17 <= SP(m)
    requires ExecuteLines(offset, symbols, m) == Machine(m.pc + 3, index, start, m.ram)
    ensures var addr := Wrap(start + index);
            var sp := SP(m) - 1;
            ExecuteLines(offset + PopThroughLines(IntToString(s)), symbols, m)
            == Machine(m.pc + 12, addr, Read(m.ram, sp), m.ram[s := addr][0 := sp][addr := Read(m.ram, sp)])
  {
    var m1 := Machine(m.pc + 3, index, start, m.ram);
    var tail := PopThroughLines(IntToString(s));
    PopThroughEffect(s, symbols, m1);
    ExecuteThen(offset, tail, symbols, m, m1, ExecuteLines(tail, symbols, m1));
    PopThroughMachine(start, index, s, m);
  }

  /** The machine the pop leaves, read back from the one the offset lines left. */
  lemma PopThroughMachine(start: Word, index: Word, s: int, m: Machine)
    requires 1 <= SP(m)
    ensures var m1 := Machine(m.pc + 3, index, start, m.ram);
            var addr := Wrap(m1.d + m1.a);
            var sp := SP(m1) - 1;
            Machine(m1.pc + 9, addr, Read(m1.ram, sp), m1.ram[s := addr][0 := sp][addr := Read(m1.ram, sp)])
            == Machine(m.pc + 12, Wrap(start + index), Read(m.ram, SP(m) - 1),
                       m.ram[s := Wrap(start + index)][0 := SP(m) - 1][Wrap(start + index) := Read(m.ram, SP(m) - 1)])
  {
  }

  /** pop segment index through RAM[s]: RAM[s] keeps the address of segment[index], which receives the old top. */
  lemma PopViaEffect(segment: string, index: int, s: int, symbols: map<string, Word>, m: Machine)
    requires IsMemorySegment(segment) && 0 <= index < 0x8000 && 1 <= s < 16 && 17 <= SP(m)
    ensures var addr := VmAddress(segment, index, m.ram);
            var sp := SP(m) - 1;
            var r := ExecuteLines(PopToMemLinesVia(TranslatorTable[segment], index, IntToString(s)), symbols, m);
            r.pc == m.pc + 12 && r.ram == m.ram[s := addr][0 := sp][addr := Read(m.ram, sp)]
  {
    IndexOffsetEffect(segment, index, symbols, m);
    PopAfterOffsetEffect(IndexOffsetLines(TranslatorTable[segment], index), SegmentStart(segment, m.ram), index, s, symbols, m);
  }

  /** pop segment index as written: segment[index] receives the old top, SP goes down, and RAM[5] is left holding the address. */
  lemma PopToMemEffect(segment: string, index: int, symbols: map<string, Word>, m: Machine)
    requires IsMemorySegment(segment) && 0 <= index < 0x8000 && 17 <= SP(m)
    ensures var addr := VmAddress(segment, index, m.ram);
            var sp := SP(m) - 1;
            var r := ExecuteLines(PopToMemLines(TranslatorTable[segment], index), symbols, m);
            r.pc == m.pc + 12 && r.ram == m.ram[5 := addr][0 := sp][addr := Read(m.ram, sp)]
  {
    SmallNumerals();
    PopViaEffect(segment, index, 5, symbols, m);
  }

  /**
    push segment index followed by pop segment index: the cell and SP end as they were. Besides
    them, the pop leaves the target address in RAM[5] (temp 0, unless that is the cell itself)
    and a copy of the value in the cell just above the stack; every other cell is unchanged.
  */
  lemma PushPopRoundTrip(segment: string, index: int, symbols: map<string, Word>, m: Machine)
    requires IsMemorySegment(segment) && 0 <= index < 0x8000 && 16 <= SP(m) < 0xFFFF
    ensures var sp, addr := SP(m), VmAddress(segment, index, m.ram);
            var v := Read(m.ram, addr);
            var pushed := ExecuteLines(PushMemoryLines(TranslatorTable[segment], index), symbols, m);
            var r := ExecuteLines(PopToMemLines(TranslatorTable[segment], index), symbols, pushed);
            && r.pc == m.pc + 21
            && SP(r) == sp && Read(r.ram, addr) == v
            && (addr != 5 ==> Read(r.ram, 5) == addr)
            && Read(r.ram, sp) == v
            && forall k :: k != 0 && k != 5 && k != sp && k != addr ==> Read(r.ram, k) == Read(m.ram, k)
  {
    var sp, addr := SP(m), VmAddress(segment, index, m.ram);
    var pushed := ExecuteLines(PushMemoryLines(TranslatorTable[segment], index), symbols, m);
    PushMemoryEffect(segment, index, symbols, m);
    PushedKeepsAddress(segment, index, m.ram, pushed.ram);
    PopToMemEffect(segment, index, symbols, pushed);
    var r := ExecuteLines(PopToMemLines(TranslatorTable[segment], index), symbols, pushed);
    RoundTripRam(m.ram, addr, r.ram);
  }

  /** Pushing changes neither the segment pointers nor, hence, the address of a segment cell. */
  lemma PushedKeepsAddress(segment: string, index: int, ram: map<int, Word>, pushed: map<int, Word>)
    requires IsMemorySegment(segment) && 16 <= Read(ram, 0) < 0xFFFF
    requires pushed == ram[0 := Read(ram, 0) + 1][Read(ram, 0) := Read(ram, VmAddress(segment, index, ram))]
    ensures Read(pushed, 0) == Read(ram, 0) + 1
    ensures VmAddress(segment, index, pushed) == VmAddress(segment, index, ram)
    ensures Read(pushed, Read(ram, 0)) == Read(ram, VmAddress(segment, index, ram))
  {
    assert forall k :: 1 <= k <= 4 ==> Read(pushed, k) == Read(ram, k);
  }

  /** The memory after a push of the cell at addr and a pop back into it. */
  lemma RoundTripRam(ram: map<int, Word>, addr: Word, r: map<int, Word>)
    requires 16 <= Read(ram, 0) < 0xFFFF
    requires var sp, v := Read(ram, 0), Read(ram, addr);
             var pushed := ram[0 := sp + 1][sp := v];
             r == pushed[5 := addr][0 := sp][addr := Read(pushed, sp)]
    ensures var sp, v := Read(ram, 0), Read(ram, addr);
            && Read(r, 0) == sp && Read(r, addr) == v
            && (addr != 5 ==> Read(r, 5) == addr)
            && Read(r, sp) == v
            && forall k :: k != 0 && k != 5 && k != sp && k != addr ==> Read(r, k) == Read(ram, k)
  {
  }

  /**
    The pop as written overwrites temp 0: whenever the target is not RAM[5] itself, RAM[5] ends up
    holding the target's address, whatever temp 0 held before.
  */
  lemma PopToMemClobbersTemp0(segment: string, index: int, symbols: map<string, Word>, m: Machine)
    requires IsMemorySegment(segment) && 0 <= index < 0x8000 && 17 <= SP(m)
    requires VmAddress(segment, index, m.ram) != 5
    ensures var r := ExecuteLines(PopToMemLines(TranslatorTable[segment], index), symbols, m);
            Read(r.ram, 5) == VmAddress(segment, index, m.ram)
  {
    PopToMemEffect(segment, index, symbols, m);
  }

  /** pop temp 1 as written: temp 1 receives the top, and temp 0 is replaced by 6, the address of temp 1. */
  lemma PopTemp1Example(symbols: map<string, Word>, m: Machine)
    requires 17 <= SP(m)
    ensures var r := ExecuteLines(PopToMemLines(TranslatorTable["temp"], 1), symbols, m);
            Read(r.ram, 6) == Read(m.ram, SP(m) - 1) && Read(r.ram, 5) == 6
  {
    PopToMemEffect("temp", 1, symbols, m);
  }

  /**
    The pop with the address parked in RAM[13]: segment[index] receives the old top, SP goes down,
    and every other cell outside RAM[13], the translator's own, keeps its value — temp 0 included.
  */
  lemma PopToMemSafeEffect(segment: string, index: int, symbols: map<string, Word>, m: Machine)
    requires IsMemorySegment(segment) && 0 <= index < 0x8000 && 17 <= SP(m)
    ensures var addr := VmAddress(segment, index, m.ram);
            var sp := SP(m) - 1;
            var r := ExecuteLines(PopToMemLinesSafe(TranslatorTable[segment], index), symbols, m);
            r.pc == m.pc + 12 && Read(r.ram, addr) == Read(m.ram, sp)
            && (addr != 0 ==> Read(r.ram, 0) == sp)
            && forall c :: c != 0 && c != 13 && c != addr ==> Read(r.ram, c) == Read(m.ram, c)
  {
    SmallNumerals();
    PopViaEffect(segment, index, 13, symbols, m);
  }

  // ---------------------------------------------------------------------------
  // Arithmetic
  // ---------------------------------------------------------------------------

  /** A = A - 1, then an operation on M and D written back to M. */
  lemma OperateEffect(line: string, comp: Comp, symbols: map<string, Word>, m: Machine)
    requires Decode(line) == CInstr(ToM, comp, NoJump) && 1 <= m.a
    ensures var r := ExecuteLines(["A=A-1", line], symbols, m);
            r.pc == m.pc + 2 && r.ram == m.ram[m.a - 1 := Compute(comp, m.a - 1, m.d, Read(m.ram, m.a - 1))]
  {
    DecodeAStepDown();
    TwoLines("A=A-1", line, symbols, m);
  }

  /** The ALU operation on M and D that a binary command's operator line names. */
  function OperatorComp(command: string): Comp
    requires IsBinaryCommand(command)
  {
    if command == "add" then MPlusD
    else if command == "sub" then MMinusD
    else if command == "and" then MAndD
    else MOrD
  }

  /** The operator line of a binary command decodes to its ALU operation on M and D, written to M. */
  lemma OperatorDecodes(command: string)
    requires IsBinaryCommand(command)
    ensures Decode("M=M" + TranslatorTable[command] + "D") == CInstr(ToM, OperatorComp(command), NoJump)
  {
    var line := "M=M" + TranslatorTable[command] + "D";
    if command == "add" {
      assert line == "M=M+D";
      DecodeAddM();
    } else if command == "sub" {
      assert line == "M=M-D";
      DecodeSubM();
    } else if command == "and" {
      assert line == "M=M&D";
      DecodeAndM();
    } else {
      assert line == "M=M|D";
      DecodeOrM();
    }
  }

  /**
    The operator line of a binary command decodes to the ALU operation on M and D that the command
    means: with the second value in M and the top in D, it computes the command's result.
  */
  lemma OperatorLine(command: string, x: Word, y: Word)
    requires IsBinaryCommand(command)
    ensures var line := "M=M" + TranslatorTable[command] + "D";
            Decode(line).CInstr? && Decode(line) == CInstr(ToM, Decode(line).comp, NoJump)
            && Compute(Decode(line).comp, 0, y, x) == VmBinary(command, x, y)
  {
    OperatorDecodes(command);
    OperatorMeaning(command, 0, x, y);
  }

  /** The ALU operation of a binary command, with the second value in M and the top in D, is the command's result. */
  lemma OperatorMeaning(command: string, a: Word, x: Word, y: Word)
    requires IsBinaryCommand(command)
    ensures Compute(OperatorComp(command), a, y, x) == VmBinary(command, x, y)
  {
  }

  /** Pop into D, step A down to the new top, and combine M and D into M. */
  lemma BinaryLinesEffect(line: string, comp: Comp, symbols: map<string, Word>, m: Machine)
    requires Decode(line) == CInstr(ToM, comp, NoJump) && StackHolds(m, 2)
    ensures var sp := SP(m);
            var r := ExecuteLines(PopDLines() + ["A=A-1", line], symbols, m);
            r.pc == m.pc + 5
            && r.ram == m.ram[0 := sp - 1][sp - 2 := Compute(comp, sp - 2, Read(m.ram, sp - 1), Read(m.ram, sp - 2))]
  {
    ExecuteLinesAppend(PopDLines(), ["A=A-1", line], symbols, m);
    PopDEffect(symbols, m);
    var m1 := ExecuteLines(PopDLines(), symbols, m);
    assert m1.a == SP(m) - 1 && m1.d == Read(m.ram, SP(m) - 1);
    assert Read(m1.ram, SP(m) - 2) == Read(m.ram, SP(m) - 2);
    OperateEffect(line, comp, symbols, m1);
  }

  /** A binary command: the two top values are replaced by the command's result, and SP goes down by one. */
  lemma BinaryEffect(command: string, counter: int, symbols: map<string, Word>, m: Machine)
    requires IsBinaryCommand(command) && StackHolds(m, 2)
    ensures var sp := SP(m);
            var r := ExecuteLines(ArithmeticLines(command, counter), symbols, m);
            r.pc == m.pc + 5
            && r.ram == m.ram[0 := sp - 1][sp - 2 := VmBinary(command, Read(m.ram, sp - 2), Read(m.ram, sp - 1))]
  {
    var line := "M=M" + TranslatorTable[command] + "D";
    var sp := SP(m);
    BinaryLines(command, counter);
    OperatorDecodes(command);
    BinaryLinesEffect(line, OperatorComp(command), symbols, m);
    OperatorMeaning(command, sp - 2, Read(m.ram, sp - 2), Read(m.ram, sp - 1));
  }

  /** The lines of a binary command: pop into D, step down, and the operator line. */
  lemma BinaryLines(command: string, counter: int)
    requires IsBinaryCommand(command)
    ensures ArithmeticLines(command, counter) == PopDLines() + ["A=A-1", "M=M" + TranslatorTable[command] + "D"]
  {
  }

  /** The lines of not: the top of the stack is negated bitwise in place. */
  lemma NotEffect(counter: int, symbols: map<string, Word>, m: Machine)
    requires StackHolds(m, 1)
    ensures var sp := SP(m);
            var r := ExecuteLines(ArithmeticLines("not", counter), symbols, m);
            r.pc == m.pc + 3 && r.ram == m.ram[sp - 1 := Not(Read(m.ram, sp - 1))]
  {
    assert ArithmeticLines("not", counter) == UnaryOpLines();
    UnaryLinesEffect(symbols, m);
  }

  /** The three lines shared by not and neg: A ends at the top of the stack, whose bits are negated. */
  lemma UnaryLinesEffect(symbols: map<string, Word>, m: Machine)
    requires StackHolds(m, 1)
    ensures var sp := SP(m);
            ExecuteLines(UnaryOpLines(), symbols, m)
            == m.(pc := m.pc + 3, a := sp - 1, ram := m.ram[sp - 1 := Not(Read(m.ram, sp - 1))])
  {
    DecodeSP();
    DecodeATop();
    DecodeNotM();
    ThreeLines("@SP", "A=M-1", "M=!M", symbols, m);
  }

  /** Two's-complement negation: the bitwise negation plus one. */
  lemma NotPlusOne(y: Word)
    ensures Wrap(Not(y) + 1) == VmNeg(y)
  {
    if y == 0 {
      assert Not(y) == 0xFFFF;
    } else {
      assert Not(y) == 0xFFFF - y;
      assert VmNeg(y) == 0x1_0000 - y;
    }
  }

  /** M=M+1: the cell A points at goes up by one, modulo 2^16. */
  lemma IncrementLineEffect(symbols: map<string, Word>, m: Machine)
    ensures ExecuteLines(["M=M+1"], symbols, m) == m.(pc := m.pc + 1, ram := m.ram[m.a := Wrap(Read(m.ram, m.a) + 1)])
  {
    DecodeIncrementM();
    OneLine("M=M+1", symbols, m);
  }

  /** The lines of neg: the top of the stack is replaced by its two's-complement negation. */
  lemma NegEffect(counter: int, symbols: map<string, Word>, m: Machine)
    requires StackHolds(m, 1)
    ensures var sp := SP(m);
            ExecuteLines(ArithmeticLines("neg", counter), symbols, m)
            == m.(pc := m.pc + 4, a := sp - 1, ram := m.ram[sp - 1 := VmNeg(Read(m.ram, sp - 1))])
  {
    NegLines(counter);
    var sp := SP(m);
    var m1 := m.(pc := m.pc + 3, a := sp - 1, ram := m.ram[sp - 1 := Not(Read(m.ram, sp - 1))]);
    UnaryLinesEffect(symbols, m);
    IncrementLineEffect(symbols, m1);
    var end := m1.(pc := m1.pc + 1, ram := m1.ram[m1.a := Wrap(Read(m1.ram, m1.a) + 1)]);
    ExecuteThen(UnaryOpLines(), ["M=M+1"], symbols, m, m1, end);
    NegMachine(m);
  }

  /** The lines of neg are those of not, then an increment. */
  lemma NegLines(counter: int)
    ensures ArithmeticLines("neg", counter) == UnaryOpLines() + ["M=M+1"]
  {
    assert !IsBinaryCommand("neg") && !IsComparison("neg");
  }

  /** Negating the top in place, then adding one to it, leaves its two's-complement negation. */
  lemma NegMachine(m: Machine)
    requires StackHolds(m, 1)
    ensures var sp := SP(m);
            var m1 := m.(pc := m.pc + 3, a := sp - 1, ram := m.ram[sp - 1 := Not(Read(m.ram, sp - 1))]);
            m1.(pc := m1.pc + 1, ram := m1.ram[m1.a := Wrap(Read(m1.ram, m1.a) + 1)])
            == m.(pc := m.pc + 4, a := sp - 1, ram := m.ram[sp - 1 := VmNeg(Read(m.ram, sp - 1))])
  {
    var sp, y := SP(m), Read(m.ram, SP(m) - 1);
    NotPlusOne(y);
  }

  /** Negation read as signed numbers: the negative of the number, except for -32768, which stays as it is. */
  lemma NegMeaning(y: Word)
    ensures Signed(y) != -0x8000 ==> Signed(VmNeg(y)) == -Signed(y)
    ensures Signed(y) == -0x8000 ==> VmNeg(y) == y
    ensures VmNeg(VmNeg(y)) == y
  {
    if y == 0 {
    } else {
      assert VmNeg(y) == 0x1_0000 - y;
    }
  }

  /** Bitwise negation undone by itself: not twice gives the value back. */
  lemma NotInvolutive(y: Word)
    ensures Not(Not(y)) == y
  {
  }

  /** push constant 7, push constant 8, add: one value more on the stack, and it is 15. */
  lemma PushPushAddExample(counter: int, symbols: map<string, Word>, m: Machine)
    requires 16 <= SP(m) && SP(m) + 2 < 0xFFFF
    ensures var m1 := ExecuteLines(PushConstantLines(7), symbols, m);
            var m2 := ExecuteLines(PushConstantLines(8), symbols, m1);
            var m3 := ExecuteLines(ArithmeticLines("add", counter), symbols, m2);
            SP(m3) == SP(m) + 1 && Read(m3.ram, SP(m)) == 15 && m3.pc == m.pc + 17
  {
    var sp := SP(m);
    PushConstantEffect(7, symbols, m);
    var m1 := ExecuteLines(PushConstantLines(7), symbols, m);
    assert SP(m1) == sp + 1 && Read(m1.ram, sp) == 7;
    PushConstantEffect(8, symbols, m1);
    var m2 := ExecuteLines(PushConstantLines(8), symbols, m1);
    assert SP(m2) == sp + 2 && Read(m2.ram, sp) == 7 && Read(m2.ram, sp + 1) == 8;
    BinaryEffect("add", counter, symbols, m2);
  }
}
