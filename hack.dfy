/**
  The part of the Hack computer that the translator's output runs on: 16-bit
  words, the A, D and PC registers, a RAM, and the meaning of exactly those
  assembly lines the code writer emits. A program is the emitted text, one
  line per entry; the program counter indexes lines, so a label line
  "(name)" occupies a line and executing it does nothing but move on. The
  symbol table that an assembler would build (addresses of static variables,
  positions of labels) is a parameter.
*/
module Hack {
  import opened Wrappers
  import opened Text

  // ---------------------------------------------------------------------------
  // Words
  // ---------------------------------------------------------------------------

  const WordCount: int := 0x1_0000

  /** A 16-bit word, read as an unsigned number. */
  type Word = x: int | 0 <= x < 0x1_0000

  /** An integer taken modulo 2^16, as the ALU's adder does. */
  function Wrap(x: int): Word {
    x % WordCount
  }

  /** The two's-complement reading of a word. */
  function Signed(w: Word): (v: int)
    ensures -0x8000 <= v < 0x8000
    ensures Wrap(v) == w
  {
    if w < 0x8000 then w else w - WordCount
  }

  /** Bitwise negation. */
  function Not(x: Word): (r: Word)
    ensures r == Wrap(-(x as int) - 1)
  {
    0xFFFF - x
  }

  function And(x: Word, y: Word): Word {
    ((x as bv16) & (y as bv16)) as int
  }

  function Or(x: Word, y: Word): Word {
    ((x as bv16) | (y as bv16)) as int
  }

  /** The word with every bit set: -1, the VM's true. */
  const True: Word := 0xFFFF

  /** The word with no bit set: 0, the VM's false. */
  const False: Word := 0

  function BoolWord(b: bool): Word {
    if b then True else False
  }

  /** A word's value read back as a signed number is the number, when it fits. */
  lemma SignedWrap(x: int)
    requires -0x8000 <= x < 0x8000
    ensures Signed(Wrap(x)) == x
  {
  }

  // ---------------------------------------------------------------------------
  // Instructions
  // ---------------------------------------------------------------------------

  /** Where a computed value goes. */
  datatype Dest = Dest(toA: bool, toD: bool, toM: bool)

  const NoDest := Dest(false, false, false)
  const ToA := Dest(true, false, false)
  const ToD := Dest(false, true, false)
  const ToM := Dest(false, false, true)
  const ToAM := Dest(true, false, true)

  /** The ALU computations the code writer uses. */
  datatype Comp =
    | Zero        // 0
    | MinusOne    // -1
    | RegA        // A
    | RegD        // D
    | Mem         // M
    | NotMem      // !M
    | MemPlusOne  // M+1
    | MemMinusOne // M-1
    | AMinusOne   // A-1
    | DPlusA      // D+A
    | DMinusM     // D-M
    | MPlusD      // M+D
    | MMinusD     // M-D
    | MAndD       // M&D
    | MOrD        // M|D

  datatype Jump = NoJump | JEQ | JGT | JLT | JMP

  datatype Instruction =
    | AConst(value: Word)        // @ followed by a decimal constant
    | ASymbol(name: string)      // @ followed by a symbol
    | Label(name: string)        // (name)
    | CInstr(dest: Dest, comp: Comp, jump: Jump)
    | Invalid                    // anything else: the program stops

  /** The C-instructions the code writer emits: the text of each, and what it stands for. */
  const CInstructions: seq<(string, Instruction)> := [
    ("AM=M-1", CInstr(ToAM, MemMinusOne, NoJump)),
    ("AM=M+1", CInstr(ToAM, MemPlusOne, NoJump)),
    ("D=M", CInstr(ToD, Mem, NoJump)),
    ("A=A-1", CInstr(ToA, AMinusOne, NoJump)),
    ("M=M+D", CInstr(ToM, MPlusD, NoJump)),
    ("M=M-D", CInstr(ToM, MMinusD, NoJump)),
    ("M=M&D", CInstr(ToM, MAndD, NoJump)),
    ("M=M|D", CInstr(ToM, MOrD, NoJump)),
    ("A=M-1", CInstr(ToA, MemMinusOne, NoJump)),
    ("M=!M", CInstr(ToM, NotMem, NoJump)),
    ("M=M+1", CInstr(ToM, MemPlusOne, NoJump)),
    ("D=D-M", CInstr(ToD, DMinusM, NoJump)),
    ("D;JEQ", CInstr(NoDest, RegD, JEQ)),
    ("D;JGT", CInstr(NoDest, RegD, JGT)),
    ("D;JLT", CInstr(NoDest, RegD, JLT)),
    ("D=0", CInstr(ToD, Zero, NoJump)),
    ("0;JMP", CInstr(NoDest, Zero, JMP)),
    ("D=-1", CInstr(ToD, MinusOne, NoJump)),
    ("M=D", CInstr(ToM, RegD, NoJump)),
    ("D=A", CInstr(ToD, RegA, NoJump)),
    ("D=D+A", CInstr(ToD, DPlusA, NoJump)),
    ("A=M", CInstr(ToA, Mem, NoJump)),
    ("A=D+A", CInstr(ToA, DPlusA, NoJump))
  ]

  /** What the first entry of table spelled as line stands for, if there is one. */
  function LookUp(table: seq<(string, Instruction)>, line: string): Option<Instruction> {
    if table == [] then None
    else if table[0].0 == line then Some(table[0].1)
    else LookUp(table[1..], line)
  }

  /** The lookup finds the entry at k when no earlier entry is spelled the same way. */
  lemma {:induction false} LookUpAt(table: seq<(string, Instruction)>, line: string, k: nat)
    requires k < |table| && table[k].0 == line
    requires forall j :: 0 <= j < k ==> table[j].0 != line
    ensures LookUp(table, line) == Some(table[k].1)
    decreases k
  {
    if k > 0 {
      LookUpAt(table[1..], line, k - 1);
    }
  }

  /** The C-instructions the code writer emits, by their text. */
  function CInstructionOf(line: string): Option<Instruction> {
    LookUp(CInstructions, line)
  }

  /** The address part of an A-instruction: a decimal constant below 2^15, or a symbol. */
  function DecodeAddress(operand: string): Instruction {
    if IsNumeral(operand) then
      var v := ParseNumeral(operand);
      if v < 0x8000 then AConst(v) else Invalid
    else if operand == [] then Invalid
    else ASymbol(operand)
  }

  /** The instruction one line of assembly stands for. */
  function Decode(line: string): Instruction {
    if |line| > 0 && line[0] == '@' then DecodeAddress(line[1..])
    else if |line| >= 2 && line[0] == '(' && line[|line| - 1] == ')' then Label(line[1..|line| - 1])
    else
      match CInstructionOf(line)
      case Some(ins) => ins
      case None => Invalid
  }

  // ---------------------------------------------------------------------------
  // The C-instruction lines the code writer emits, decoded one by one
  // ---------------------------------------------------------------------------

  /** AM=M-1: A and RAM[A] both take RAM[A] - 1. */
  lemma DecodeSPDown()
    ensures Decode("AM=M-1") == CInstr(ToAM, MemMinusOne, NoJump)
  {
    LookUpAt(CInstructions, "AM=M-1", 0);
  }

  /** AM=M+1: A and RAM[A] both take RAM[A] + 1. */
  lemma DecodeSPUp()
    ensures Decode("AM=M+1") == CInstr(ToAM, MemPlusOne, NoJump)
  {
    LookUpAt(CInstructions, "AM=M+1", 1);
  }

  /** D=M: D takes RAM[A]. */
  lemma DecodeLoadD()
    ensures Decode("D=M") == CInstr(ToD, Mem, NoJump)
  {
    LookUpAt(CInstructions, "D=M", 2);
  }

  /** A=A-1: A steps down by one. */
  lemma DecodeAStepDown()
    ensures Decode("A=A-1") == CInstr(ToA, AMinusOne, NoJump)
  {
    LookUpAt(CInstructions, "A=A-1", 3);
  }

  /** A=M-1: A takes RAM[A] - 1, the top of the stack when A is 0. */
  lemma DecodeATop()
    ensures Decode("A=M-1") == CInstr(ToA, MemMinusOne, NoJump)
  {
    LookUpAt(CInstructions, "A=M-1", 8);
  }

  /** M=!M: RAM[A] is bitwise negated. */
  lemma DecodeNotM()
    ensures Decode("M=!M") == CInstr(ToM, NotMem, NoJump)
  {
    LookUpAt(CInstructions, "M=!M", 9);
  }

  /** M=M+1: RAM[A] goes up by one. */
  lemma DecodeIncrementM()
    ensures Decode("M=M+1") == CInstr(ToM, MemPlusOne, NoJump)
  {
    LookUpAt(CInstructions, "M=M+1", 10);
  }

  /** D=D-M: D takes D - RAM[A]. */
  lemma DecodeSubtractM()
    ensures Decode("D=D-M") == CInstr(ToD, DMinusM, NoJump)
  {
    LookUpAt(CInstructions, "D=D-M", 11);
  }

  /** D=0: D takes 0. */
  lemma DecodeClearD()
    ensures Decode("D=0") == CInstr(ToD, Zero, NoJump)
  {
    LookUpAt(CInstructions, "D=0", 15);
  }

  /** 0;JMP: an unconditional jump to A. */
  lemma DecodeGoto()
    ensures Decode("0;JMP") == CInstr(NoDest, Zero, JMP)
  {
    LookUpAt(CInstructions, "0;JMP", 16);
  }

  /** D=-1: D takes -1. */
  lemma DecodeSetD()
    ensures Decode("D=-1") == CInstr(ToD, MinusOne, NoJump)
  {
    LookUpAt(CInstructions, "D=-1", 17);
  }

  /** D;JEQ: jump to A when D is 0. */
  lemma DecodeJumpIfZero()
    ensures Decode("D;JEQ") == CInstr(NoDest, RegD, JEQ)
  {
    LookUpAt(CInstructions, "D;JEQ", 12);
  }

  /** D;JGT: jump to A when D is above 0. */
  lemma DecodeJumpIfPositive()
    ensures Decode("D;JGT") == CInstr(NoDest, RegD, JGT)
  {
    LookUpAt(CInstructions, "D;JGT", 13);
  }

  /** D;JLT: jump to A when D is below 0. */
  lemma DecodeJumpIfNegative()
    ensures Decode("D;JLT") == CInstr(NoDest, RegD, JLT)
  {
    LookUpAt(CInstructions, "D;JLT", 14);
  }

  /** M=D: RAM[A] takes D. */
  lemma DecodeStoreD()
    ensures Decode("M=D") == CInstr(ToM, RegD, NoJump)
  {
    LookUpAt(CInstructions, "M=D", 18);
  }

  /** D=A: D takes A. */
  lemma DecodeDFromA()
    ensures Decode("D=A") == CInstr(ToD, RegA, NoJump)
  {
    LookUpAt(CInstructions, "D=A", 19);
  }

  /** D=D+A: D takes D + A. */
  lemma DecodeAddA()
    ensures Decode("D=D+A") == CInstr(ToD, DPlusA, NoJump)
  {
    LookUpAt(CInstructions, "D=D+A", 20);
  }

  /** A=M: A takes RAM[A]. */
  lemma DecodeAFromM()
    ensures Decode("A=M") == CInstr(ToA, Mem, NoJump)
  {
    LookUpAt(CInstructions, "A=M", 21);
  }

  /** A=D+A: A takes D + A. */
  lemma DecodeAFromSum()
    ensures Decode("A=D+A") == CInstr(ToA, DPlusA, NoJump)
  {
    LookUpAt(CInstructions, "A=D+A", 22);
  }

  /** M=M+D: RAM[A] takes RAM[A] + D. */
  lemma DecodeAddM()
    ensures Decode("M=M+D") == CInstr(ToM, MPlusD, NoJump)
  {
    LookUpAt(CInstructions, "M=M+D", 4);
  }

  /** M=M-D: RAM[A] takes RAM[A] - D. */
  lemma DecodeSubM()
    ensures Decode("M=M-D") == CInstr(ToM, MMinusD, NoJump)
  {
    LookUpAt(CInstructions, "M=M-D", 5);
  }

  /** M=M&D: RAM[A] takes RAM[A] & D. */
  lemma DecodeAndM()
    ensures Decode("M=M&D") == CInstr(ToM, MAndD, NoJump)
  {
    LookUpAt(CInstructions, "M=M&D", 6);
  }

  /** M=M|D: RAM[A] takes RAM[A] | D. */
  lemma DecodeOrM()
    ensures Decode("M=M|D") == CInstr(ToM, MOrD, NoJump)
  {
    LookUpAt(CInstructions, "M=M|D", 7);
  }

  // ---------------------------------------------------------------------------
  // Machine
  // ---------------------------------------------------------------------------

  datatype Machine = Machine(pc: int, a: Word, d: Word, ram: map<int, Word>)

  /** A RAM cell never written reads as 0. */
  function Read(ram: map<int, Word>, address: int): Word {
    if address in ram then ram[address] else 0
  }

  /** The stack pointer: RAM[0]. */
  function SP(m: Machine): Word {
    Read(m.ram, 0)
  }

  /** The symbols every Hack program may use without defining them. */
  function Predefined(name: string): Option<Word> {
    if name == "SP" then Some(0)
    else if name == "LCL" then Some(1)
    else if name == "ARG" then Some(2)
    else if name == "THIS" then Some(3)
    else if name == "THAT" then Some(4)
    else None
  }

  /** A symbol's address: predefined, or given by the symbol table. */
  function Resolve(name: string, symbols: map<string, Word>): Option<Word> {
    match Predefined(name)
    case Some(w) => Some(w)
    case None => if name in symbols then Some(symbols[name]) else None
  }

  function Compute(c: Comp, a: Word, d: Word, m: Word): Word {
    match c
    case Zero => 0
    case MinusOne => True
    case RegA => a
    case RegD => d
    case Mem => m
    case NotMem => Not(m)
    case MemPlusOne => Wrap(m + 1)
    case MemMinusOne => Wrap(m - 1)
    case AMinusOne => Wrap(a - 1)
    case DPlusA => Wrap(d + a)
    case DMinusM => Wrap(d - m)
    case MPlusD => Wrap(m + d)
    case MMinusD => Wrap(m - d)
    case MAndD => And(m, d)
    case MOrD => Or(m, d)
  }

  /** Whether a jump is taken on a computed value, read as signed. */
  predicate Taken(j: Jump, v: Word) {
    match j
    case NoJump => false
    case JEQ => v == 0
    case JGT => Signed(v) > 0
    case JLT => Signed(v) < 0
    case JMP => true
  }

  /** The program counter of a stopped machine: outside every program. */
  const Stopped: int := -1

  /**
    One instruction. A C-instruction computes from the registers and RAM[A] as they were,
    writes M at the old A, and jumps to the old A.
  */
  function Execute(ins: Instruction, symbols: map<string, Word>, m: Machine): Machine {
    match ins
    case AConst(v) => m.(pc := m.pc + 1, a := v)
    case ASymbol(name) =>
      (match Resolve(name, symbols)
       case Some(w) => m.(pc := m.pc + 1, a := w)
       case None => m.(pc := Stopped))
    case Label(_) => m.(pc := m.pc + 1)
    case CInstr(dest, comp, jump) =>
      var v := Compute(comp, m.a, m.d, Read(m.ram, m.a));
      Machine(if Taken(jump, v) then m.a else m.pc + 1,
              if dest.toA then v else m.a,
              if dest.toD then v else m.d,
              if dest.toM then m.ram[m.a := v] else m.ram)
    case Invalid => m.(pc := Stopped)
  }

  /** One clock cycle of a program: a machine whose counter is outside the program stays as it is. */
  function Step(program: seq<string>, symbols: map<string, Word>, m: Machine): Machine {
    if 0 <= m.pc < |program| then Execute(Decode(program[m.pc]), symbols, m) else m
  }

  /** n clock cycles. */
  function Run(program: seq<string>, symbols: map<string, Word>, m: Machine, n: nat): Machine
    decreases n
  {
    if n == 0 then m else Run(program, symbols, Step(program, symbols, m), n - 1)
  }

  /** Running n and then k cycles is running n + k cycles. */
  lemma {:induction false} RunAdd(program: seq<string>, symbols: map<string, Word>, m: Machine, n: nat, k: nat)
    ensures Run(program, symbols, Run(program, symbols, m, n), k) == Run(program, symbols, m, n + k)
    decreases n
  {
    if n > 0 {
      RunAdd(program, symbols, Step(program, symbols, m), n - 1, k);
    }
  }

  // ---------------------------------------------------------------------------
  // Straight-line code
  // ---------------------------------------------------------------------------

  /** An instruction that always passes control to the next line. */
  predicate FallsThrough(ins: Instruction, symbols: map<string, Word>) {
    match ins
    case AConst(_) => true
    case ASymbol(name) => Resolve(name, symbols).Some?
    case Label(_) => true
    case CInstr(_, _, jump) => jump == NoJump
    case Invalid => false
  }

  /** The lines executed one after the other, regardless of where they sit in a program. */
  function ExecuteLines(lines: seq<string>, symbols: map<string, Word>, m: Machine): Machine
    decreases |lines|
  {
    if lines == [] then m
    else ExecuteLines(lines[1..], symbols, Execute(Decode(lines[0]), symbols, m))
  }

  lemma AppendAssociative(xs: seq<string>, ys: seq<string>, zs: seq<string>)
    ensures xs + ys + zs == xs + (ys + zs)
  {
  }

  /** Every line of a block falls through to the next one. */
  predicate AllFallThrough(lines: seq<string>, symbols: map<string, Word>) {
    forall i :: 0 <= i < |lines| ==> FallsThrough(Decode(lines[i]), symbols)
  }

  lemma AllFallThroughAppend(xs: seq<string>, ys: seq<string>, symbols: map<string, Word>)
    requires AllFallThrough(xs, symbols) && AllFallThrough(ys, symbols)
    ensures AllFallThrough(xs + ys, symbols)
  {
    forall i | 0 <= i < |xs + ys| ensures FallsThrough(Decode((xs + ys)[i]), symbols) {
      if i >= |xs| {
        assert (xs + ys)[i] == ys[i - |xs|];
      }
    }
  }

  lemma FallsThroughAdvances(ins: Instruction, symbols: map<string, Word>, m: Machine)
    requires FallsThrough(ins, symbols)
    ensures Execute(ins, symbols, m).pc == m.pc + 1
  {
  }

  /** A block reaching mid followed by one leading from mid to end leads to end. */
  lemma ExecuteThen(xs: seq<string>, ys: seq<string>, symbols: map<string, Word>, m: Machine, mid: Machine, end: Machine)
    requires ExecuteLines(xs, symbols, m) == mid && ExecuteLines(ys, symbols, mid) == end
    ensures ExecuteLines(xs + ys, symbols, m) == end
  {
    ExecuteLinesAppend(xs, ys, symbols, m);
  }

  /** Executing two blocks in turn is executing their concatenation. */
  lemma {:induction false} ExecuteLinesAppend(xs: seq<string>, ys: seq<string>, symbols: map<string, Word>, m: Machine)
    ensures ExecuteLines(xs + ys, symbols, m) == ExecuteLines(ys, symbols, ExecuteLines(xs, symbols, m))
    decreases |xs|
  {
    if xs != [] {
      assert (xs + ys)[0] == xs[0];
      assert (xs + ys)[1..] == xs[1..] + ys;
      ExecuteLinesAppend(xs[1..], ys, symbols, Execute(Decode(xs[0]), symbols, m));
    } else {
      assert xs + ys == ys;
    }
  }

  /** The lines sit in the program one after the other from base on. */
  predicate PlacedAt(program: seq<string>, lines: seq<string>, base: int) {
    0 <= base && base + |lines| <= |program| && forall k :: 0 <= k < |lines| ==> program[base + k] == lines[k]
  }

  lemma PlacedAtOfSlice(program: seq<string>, lines: seq<string>, base: int)
    requires 0 <= base && base + |lines| <= |program| && program[base..base + |lines|] == lines
    ensures PlacedAt(program, lines, base)
  {
    forall k | 0 <= k < |lines| ensures program[base + k] == lines[k] {
      assert program[base..base + |lines|][k] == lines[k];
    }
  }

  /**
    Lines i to j of a block placed in a program, all falling through, run from the counter at
    line i in j - i cycles, exactly as the lines executed on their own.
  */
  lemma {:induction false} RunBlock(program: seq<string>, symbols: map<string, Word>, m: Machine, lines: seq<string>, base: int, i: int, j: int)
    requires PlacedAt(program, lines, base)
    requires 0 <= i <= j <= |lines| && m.pc == base + i
    requires AllFallThrough(lines[i..j], symbols)
    ensures Run(program, symbols, m, j - i) == ExecuteLines(lines[i..j], symbols, m)
    decreases j - i
  {
    if i < j {
      var block := lines[i..j];
      assert block[0] == lines[i] && program[m.pc] == lines[i];
      var m' := Execute(Decode(lines[i]), symbols, m);
      FallsThroughAdvances(Decode(lines[i]), symbols, m);
      var rest := lines[i + 1..j];
      forall k | 0 <= k < |rest| ensures FallsThrough(Decode(rest[k]), symbols) {
        assert rest[k] == block[k + 1];
      }
      RunBlock(program, symbols, m', lines, base, i + 1, j);
      assert block[1..] == rest;
    }
  }

  /** One clock cycle at line i of a block placed in a program. */
  lemma RunJump(program: seq<string>, symbols: map<string, Word>, m: Machine, lines: seq<string>, base: int, i: int)
    requires PlacedAt(program, lines, base)
    requires 0 <= i < |lines| && m.pc == base + i
    ensures Run(program, symbols, m, 1) == Execute(Decode(lines[i]), symbols, m)
  {
    assert program[m.pc] == lines[i];
  }
}
