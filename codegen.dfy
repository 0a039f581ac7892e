/**
  The code writer: it turns one VM command at a time into lines of Hack
  assembly, appended to its output. Arithmetic and logical commands and push
  and pop are written here; the lines each private helper appends are given
  by the functions of the first part, and the CodeWriter class appends them.
*/
module CodeGen {
  import opened Wrappers
  import opened Text
  import opened VmParser

  // ---------------------------------------------------------------------------
  // Constants and the translation table
  // ---------------------------------------------------------------------------

  /** The pointer segment starts at RAM[3] and the temp segment at RAM[5]; both are addressed directly. */
  const PointerLoc: string := "3"
  const TempLoc: string := "5"

  /**
    The translation table: the binary commands give their ALU operator, the comparisons give the
    jump code of the test the emitted code makes (lt and gt are tested as top - second, hence
    reversed), and the memory segments other than constant and static give their base symbol.
  */
  const TranslatorTable: map<string, string> := map[
    "add" := "+", "sub" := "-", "and" := "&", "or" := "|",
    "eq" := "JEQ", "lt" := "JGT", "gt" := "JLT",
    "local" := "LCL", "argument" := "ARG", "this" := "THIS", "that" := "THAT",
    "pointer" := PointerLoc, "temp" := TempLoc]

  /** A HashMap lookup: None stands for the null a missing key gives. */
  function Lookup(table: map<string, string>, key: string): Option<string> {
    if key in table then Some(table[key]) else None
  }

  /** String concatenation renders a null reference as "null". */
  function NameText(name: Option<string>): string {
    match name
    case Some(s) => s
    case None => "null"
  }

  /** The label of static variable index of the file being translated: file name, dot, index. */
  function StaticLabelOf(fileName: Option<string>, index: int): string {
    NameText(fileName) + "." + IntToString(index)
  }

  /** The branch label with number n: an underscore and the number. */
  function BranchLabel(n: int): string {
    "_" + IntToString(n)
  }

  /** The file name the writer keeps after being told about file name: the part before the first ".vm", or the old one. */
  function FileNameAfter(current: Option<string>, name: string): Option<string> {
    var at := IndexOf(name, ".vm");
    if at == -1 then current else Some(name[..at])
  }

  // ---------------------------------------------------------------------------
  // The lines each helper appends
  // ---------------------------------------------------------------------------

  /** Loads a segment's base into D (directly for pointer and temp, through the pointer otherwise), then the index into A. */
  function IndexOffsetLines(segment: string, index: int): seq<string> {
    ["@" + segment, if segment == PointerLoc || segment == TempLoc then "D=A" else "D=M", "@" + IntToString(index)]
  }

  /** Pops the top of the stack into D. */
  function PopDLines(): seq<string> {
    ["@SP", "AM=M-1", "D=M"]
  }

  /** With a start in D and an index in A: parks start + index in RAM[scratch], pops the top and stores it there. */
  function PopThroughLines(scratch: string): seq<string> {
    ["D=D+A", "@" + scratch, "M=D"] + PopDLines() + ["@" + scratch, "A=M", "M=D"]
  }

  /** Pops the top of the stack into segment[index], keeping the target address in RAM[scratch] meanwhile. */
  function PopToMemLinesVia(segment: string, index: int, scratch: string): seq<string> {
    IndexOffsetLines(segment, index) + PopThroughLines(scratch)
  }

  /** The pop the writer emits: it parks the target address in RAM[5], the first cell of the temp segment. */
  function PopToMemLines(segment: string, index: int): seq<string> {
    PopToMemLinesVia(segment, index, TempLoc)
  }

  /** RAM[13], the first of the cells the VM mapping leaves to the translator for its own use. */
  const ScratchLoc: string := "13"

  /** The pop as the VM mapping intends it: the target address is parked in RAM[13], outside every segment. */
  function PopToMemLinesSafe(segment: string, index: int): seq<string> {
    PopToMemLinesVia(segment, index, ScratchLoc)
  }

  /** Pops the top of the stack into the static variable with the given label. */
  function PopToStaticLines(symbol: string): seq<string> {
    PopDLines() + ["@" + symbol, "M=D"]
  }

  /** Pushes D onto the stack. */
  function PushDLines(): seq<string> {
    ["@SP", "AM=M+1", "A=A-1", "M=D"]
  }

  function PushConstantLines(constant: int): seq<string> {
    ["@" + IntToString(constant), "D=A"] + PushDLines()
  }

  function PushMemoryLines(segment: string, index: int): seq<string> {
    IndexOffsetLines(segment, index) + ["A=D+A", "D=M"] + PushDLines()
  }

  function PushStaticLines(symbol: string): seq<string> {
    ["@" + symbol, "D=M"] + PushDLines()
  }

  /** Pops the top into D and combines it into the new top with the operator. */
  function BinaryOpLines(operator: string): seq<string> {
    PopDLines() + ["A=A-1", "M=M" + operator + "D"]
  }

  /** Negates the bits of the top of the stack in place. */
  function UnaryOpLines(): seq<string> {
    ["@SP", "A=M-1", "M=!M"]
  }

  /** Compares the two top values through D = top - second and the jump code, leaving -1 or 0. */
  function InequalityLines(jump: string, label1: string, label2: string): seq<string> {
    PopDLines() + ["A=A-1", "D=D-M", "@" + label1, "D;" + jump, "D=0", "@" + label2, "0;JMP",
                   "(" + label1 + ")", "D=-1", "(" + label2 + ")", "@SP", "A=M-1", "M=D"]
  }

  predicate IsBinaryCommand(command: string) {
    command == "add" || command == "sub" || command == "and" || command == "or"
  }

  predicate IsComparison(command: string) {
    command == "eq" || command == "lt" || command == "gt"
  }

  /** The lines written for an arithmetic command already lower-cased, when the label counter stands at counter. */
  function ArithmeticLines(command: string, counter: int): seq<string> {
    if IsBinaryCommand(command) then BinaryOpLines(TranslatorTable[command])
    else if command == "not" then UnaryOpLines()
    else if command == "neg" then UnaryOpLines() + ["M=M+1"]
    else if IsComparison(command) then InequalityLines(TranslatorTable[command], BranchLabel(counter), BranchLabel(counter + 1))
    else []
  }

  /** How many branch labels an arithmetic command already lower-cased uses. */
  function LabelsUsed(command: string): nat {
    if IsComparison(command) then 2 else 0
  }

  /** What writing a push or pop appends, and whether it got to the end without an exception. */
  datatype Emission = Emission(lines: seq<string>, completed: bool)

  /**
    The lines written for push or pop (any kind other than push pops) of segment, already
    lower-cased. A segment missing from the table reaches the helper as null: "@null" is
    written and the next step throws.
  */
  function PushPopEmission(kind: Command, segment: string, index: int, fileName: Option<string>,
                           translator: map<string, string>): Emission {
    if kind == CPush then
      if segment == "constant" then Emission(PushConstantLines(index), true)
      else if segment == "static" then Emission(PushStaticLines(StaticLabelOf(fileName, index)), true)
      else
        match Lookup(translator, segment)
        case Some(base) => Emission(PushMemoryLines(base, index), true)
        case None => Emission(["@null"], false)
    else
      if segment == "static" then Emission(PopToStaticLines(StaticLabelOf(fileName, index)), true)
      else
        match Lookup(translator, segment)
        case Some(base) => Emission(PopToMemLines(base, index), true)
        case None => Emission(["@null"], false)
  }

  // ---------------------------------------------------------------------------
  // The writer
  // ---------------------------------------------------------------------------

  class CodeWriter {
    var output: seq<string>               // the lines written so far
    var curVMfileName: Option<string>     // None until a file name with ".vm" is given
    var translator: map<string, string>
    var labelCounter: nat                 // the number of the next branch label
    ghost var issued: seq<string>         // the branch labels handed out so far, in order

    /** The table is built, and the labels handed out are _1, _2, ... up to the counter. */
    ghost predicate Valid()
      reads this`translator, this`labelCounter, this`issued
    {
      && translator == TranslatorTable
      && labelCounter >= 1
      && |issued| == labelCounter - 1
      && forall k :: 0 <= k < |issued| ==> issued[k] == BranchLabel(k + 1)
    }

    constructor ()
      ensures Valid()
      ensures output == [] && curVMfileName == None && labelCounter == 1
    {
      output := [];
      curVMfileName := None;
      labelCounter := 1;
      issued := [];
      new;
      InitTranslator();
    }

    /** The two-argument constructor: as the one above, then told the first file name. */
    constructor WithFileName(newVMfileName: string)
      ensures Valid()
      ensures output == [] && labelCounter == 1
      ensures curVMfileName == FileNameAfter(None, newVMfileName)
    {
      output := [];
      curVMfileName := None;
      labelCounter := 1;
      issued := [];
      new;
      InitTranslator();
      SetFileName(newVMfileName);
    }

    /** Appends one line to the output. */
    method Emit(line: string)
      modifies this`output
      ensures output == old(output) + [line]
    {
      output := output + [line];
    }

    /** Appends lines to the output one after another. */
    method EmitLines(lines: seq<string>)
      modifies this`output
      ensures output == old(output) + lines
    {
      for i := 0 to |lines|
        invariant output == old(output) + lines[..i]
      {
        Emit(lines[i]);
        assert lines[..i + 1] == lines[..i] + [lines[i]];
      }
      assert lines[..|lines|] == lines;
    }

    method InitTranslator()
      modifies this`translator
      ensures translator == TranslatorTable
    {
      var table := map[];
      table := table["add" := "+"];
      table := table["sub" := "-"];
      table := table["and" := "&"];
      table := table["or" := "|"];
      table := table["eq" := "JEQ"];
      table := table["lt" := "JGT"];
      table := table["gt" := "JLT"];
      table := table["local" := "LCL"];
      table := table["argument" := "ARG"];
      table := table["this" := "THIS"];
      table := table["that" := "THAT"];
      table := table["pointer" := PointerLoc];
      table := table["temp" := TempLoc];
      translator := table;
    }

    /** Keeps the part of the name before the first ".vm"; a name without ".vm" changes nothing. */
    method SetFileName(newVMfileName: string)
      modifies this`curVMfileName
      ensures curVMfileName == FileNameAfter(old(curVMfileName), newVMfileName)
    {
      var extIndex := IndexOf(newVMfileName, ".vm");
      if extIndex != -1 {
        curVMfileName := Some(newVMfileName[..extIndex]);
      }
    }

    /** Hands out the next branch label, one never handed out before. */
    method GetBranchLabel() returns (name: string)
      requires Valid()
      modifies this`labelCounter, this`issued
      ensures Valid()
      ensures name == BranchLabel(old(labelCounter)) && labelCounter == old(labelCounter) + 1
      ensures name !in old(issued) && issued == old(issued) + [name]
    {
      name := "_" + IntToString(labelCounter);
      forall k | 0 <= k < |issued| ensures issued[k] != name {
        BranchLabelInjective(k + 1, labelCounter);
      }
      issued := issued + [name];
      labelCounter := labelCounter + 1;
    }

    function GetStaticLabel(index: int): string
      reads this
    {
      NameText(curVMfileName) + "." + IntToString(index)
    }

    method WriteIndexOffset(segment: Option<string>, index: int) returns (completed: bool)
      modifies this`output
      ensures completed == segment.Some?
      ensures output == old(output) + if completed then IndexOffsetLines(segment.value, index) else ["@null"]
    {
      Emit("@" + NameText(segment));
      if segment.None? {
        assert "@" + NameText(segment) == "@null";
        // comparing the null segment throws
        return false;
      }
      if segment.value == PointerLoc || segment.value == TempLoc {
        Emit("D=A");
      } else {
        Emit("D=M");
      }
      Emit("@" + IntToString(index));
      return true;
    }

    method WritePopD()
      modifies this`output
      ensures output == old(output) + PopDLines()
    {
      Emit("@SP");
      Emit("AM=M-1");
      Emit("D=M");
    }

    method WritePopToMem(segment: Option<string>, index: int) returns (completed: bool)
      modifies this`output
      ensures completed == segment.Some?
      ensures output == old(output) + if completed then PopToMemLines(segment.value, index) else ["@null"]
    {
      completed := WriteIndexOffset(segment, index);
      if !completed {
        return;
      }
      WritePopThrough(TempLoc);
    }

    /** Adds the index to the base in D, parks the address in RAM[scratch], pops into D and stores it there. */
    method WritePopThrough(scratch: string)
      modifies this`output
      ensures output == old(output) + PopThroughLines(scratch)
    {
      Emit("D=D+A");
      Emit("@" + scratch);
      Emit("M=D");
      WritePopD();
      Emit("@" + scratch);
      Emit("A=M");
      Emit("M=D");
    }

    method WritePopToStatic(index: int)
      modifies this`output
      ensures output == old(output) + PopToStaticLines(StaticLabelOf(curVMfileName, index))
    {
      WritePopD();
      Emit("@" + GetStaticLabel(index));
      Emit("M=D");
    }

    method WritePushD()
      modifies this`output
      ensures output == old(output) + PushDLines()
    {
      Emit("@SP");
      Emit("AM=M+1");
      Emit("A=A-1");
      Emit("M=D");
    }

    method WritePushConstant(constant: int)
      modifies this`output
      ensures output == old(output) + PushConstantLines(constant)
    {
      Emit("@" + IntToString(constant));
      Emit("D=A");
      WritePushD();
    }

    method WritePushMemory(segment: Option<string>, index: int) returns (completed: bool)
      modifies this`output
      ensures completed == segment.Some?
      ensures output == old(output) + if completed then PushMemoryLines(segment.value, index) else ["@null"]
    {
      completed := WriteIndexOffset(segment, index);
      if !completed {
        return;
      }
      Emit("A=D+A");
      Emit("D=M");
      WritePushD();
    }

    method WritePushStatic(index: int)
      modifies this`output
      ensures output == old(output) + PushStaticLines(StaticLabelOf(curVMfileName, index))
    {
      Emit("@" + GetStaticLabel(index));
      Emit("D=M");
      WritePushD();
    }

    method WriteBinaryOp(operator: string)
      modifies this`output
      ensures output == old(output) + BinaryOpLines(operator)
    {
      WritePopD();
      Emit("A=A-1");
      Emit("M=M" + operator + "D");
    }

    method WriteUnaryOp()
      modifies this`output
      ensures output == old(output) + UnaryOpLines()
    {
      Emit("@SP");
      Emit("A=M-1");
      Emit("M=!M");
    }

    /** Writes a comparison with two fresh, distinct branch labels. */
    method WriteInequality(jump: string)
      requires Valid()
      modifies this`output, this`labelCounter, this`issued
      ensures Valid()
      ensures output == old(output) + InequalityLines(jump, BranchLabel(old(labelCounter)), BranchLabel(old(labelCounter) + 1))
      ensures labelCounter == old(labelCounter) + 2
      ensures issued == old(issued) + [BranchLabel(old(labelCounter)), BranchLabel(old(labelCounter) + 1)]
    {
      var label1 := GetBranchLabel();
      var label2 := GetBranchLabel();
      WritePopD();
      EmitLines(["A=A-1", "D=D-M", "@" + label1, "D;" + jump, "D=0", "@" + label2, "0;JMP",
                 "(" + label1 + ")", "D=-1", "(" + label2 + ")", "@SP", "A=M-1", "M=D"]);
    }

    /** Writes an arithmetic or logical command, in any letter case; any other text writes nothing. */
    method WriteArithmetic(command: string)
      requires Valid()
      modifies this`output, this`labelCounter, this`issued
      ensures Valid()
      ensures output == old(output) + ArithmeticLines(Lower(command), old(labelCounter))
      ensures labelCounter == old(labelCounter) + LabelsUsed(Lower(command))
      ensures |issued| == |old(issued)| + LabelsUsed(Lower(command)) && old(issued) <= issued
    {
      var c := Lower(command);
      if c == "add" || c == "sub" || c == "and" || c == "or" {
        WriteBinaryOp(translator[c]);
      } else if c == "not" {
        WriteUnaryOp();
      } else if c == "neg" {
        WriteUnaryOp();
        Emit("M=M+1");
      } else if c == "eq" || c == "lt" || c == "gt" {
        WriteInequality(translator[c]);
      }
    }

    /** Writes a push (kind CPush) or a pop (any other kind) of segment[index]; false when the segment is unknown. */
    method WritePushPop(kind: Command, segment: string, index: int) returns (completed: bool)
      requires Valid()
      modifies this`output
      ensures var e := PushPopEmission(kind, Lower(segment), index, curVMfileName, translator);
              output == old(output) + e.lines && completed == e.completed
    {
      var s := Lower(segment);
      if kind == CPush {
        if s == "constant" {
          WritePushConstant(index);
          completed := true;
        } else if s == "static" {
          WritePushStatic(index);
          completed := true;
        } else {
          completed := WritePushMemory(Lookup(translator, s), index);
        }
      } else {
        if s == "static" {
          WritePopToStatic(index);
          completed := true;
        } else {
          completed := WritePopToMem(Lookup(translator, s), index);
        }
      }
    }
  }

  // ---------------------------------------------------------------------------
  // Properties of the written code
  // ---------------------------------------------------------------------------

  /** Different numbers give different branch labels. */
  lemma BranchLabelInjective(m: int, n: int)
    ensures BranchLabel(m) == BranchLabel(n) ==> m == n
  {
    if BranchLabel(m) == BranchLabel(n) {
      assert IntToString(m) == BranchLabel(m)[1..] == BranchLabel(n)[1..] == IntToString(n);
      IntToStringInjective(m, n);
    }
  }

  /** Different numbers or different file names give different static labels. */
  lemma StaticLabelInjective(f: Option<string>, g: Option<string>, i: int, j: int)
    ensures StaticLabelOf(f, i) == StaticLabelOf(g, j) ==> i == j && NameText(f) == NameText(g)
  {
    if StaticLabelOf(f, i) == StaticLabelOf(g, j) {
      LastDotSplits(NameText(f), IntToString(i), NameText(g), IntToString(j));
      IntToStringInjective(i, j);
    }
  }

  /** A text joined to a dot-free suffix by a dot can be split back at its last dot. */
  lemma LastDotSplits(x: string, s: string, y: string, t: string)
    requires forall k :: 0 <= k < |s| ==> s[k] != '.'
    requires forall k :: 0 <= k < |t| ==> t[k] != '.'
    requires x + "." + s == y + "." + t
    ensures x == y && s == t
  {
    var whole := x + "." + s;
    // the last dot of the whole text is the one before s, and the one before t
    assert whole[|x|] == '.' && forall k :: |x| < k < |whole| ==> whole[k] == s[k - |x| - 1];
    assert whole[|y|] == '.' && forall k :: |y| < k < |whole| ==> whole[k] == t[k - |y| - 1];
    assert |x| == |y|;
    assert x == whole[..|x|] == y;
    assert s == whole[|x| + 1..] == t;
  }

  /** The file name kept is the text before the first ".vm" when there is one; otherwise nothing changes. */
  lemma FileNameStem(current: Option<string>, name: string)
    ensures !Contains(name, ".vm") ==> FileNameAfter(current, name) == current
    ensures Contains(name, ".vm") ==>
              && FileNameAfter(current, name).Some?
              && var stem := FileNameAfter(current, name).value;
              && name[..|stem|] == stem && OccursAt(name, ".vm", |stem|) && !Contains(stem, ".vm")
  {
    if Contains(name, ".vm") {
      PrefixBeforeFirstOccurrence(name, ".vm");
    }
  }

  /** A file name Foo.vm sets the static prefix to Foo. */
  lemma FileNameOfVmFile(current: Option<string>, stem: string)
    requires forall k :: 0 <= k < |stem| ==> stem[k] != '.'
    ensures FileNameAfter(current, stem + ".vm") == Some(stem)
  {
    var name := stem + ".vm";
    assert OccursAt(name, ".vm", |stem|);
    forall k: nat | k < |stem| ensures !OccursAt(name, ".vm", k) {
      assert name[k] == stem[k] != '.';
    }
    assert IndexOf(name, ".vm") == |stem|;
  }

  /** A line of the form (name): a label declaration, not an instruction. */
  predicate IsLabelLine(line: string) {
    |line| > 0 && line[0] == '('
  }

  /**
    The nine arithmetic commands, and only they, write code: 5 lines for a binary command,
    3 for not, 4 for neg and 16 for a comparison.
  */
  lemma ArithmeticLineCount(command: string, counter: int)
    ensures command !in ArithmeticNames <==> ArithmeticLines(command, counter) == []
    ensures IsBinaryCommand(command) ==> |ArithmeticLines(command, counter)| == 5
    ensures command == "not" ==> |ArithmeticLines(command, counter)| == 3
    ensures command == "neg" ==> |ArithmeticLines(command, counter)| == 4
    ensures IsComparison(command) ==> |ArithmeticLines(command, counter)| == 16
  {
  }

  /** Only a comparison writes label lines: its 11th and 13th lines, the two fresh labels. */
  lemma ArithmeticLabelLines(command: string, counter: int)
    ensures var lines := ArithmeticLines(command, counter);
            forall i :: 0 <= i < |lines| ==> (IsLabelLine(lines[i]) <==> IsComparison(command) && (i == 10 || i == 12))
    ensures IsComparison(command) ==>
              && ArithmeticLines(command, counter)[10] == "(" + BranchLabel(counter) + ")"
              && ArithmeticLines(command, counter)[12] == "(" + BranchLabel(counter + 1) + ")"
              && BranchLabel(counter) != BranchLabel(counter + 1)
  {
    BranchLabelInjective(counter, counter + 1);
    var lines := ArithmeticLines(command, counter);
    if IsBinaryCommand(command) {
      var operator := TranslatorTable[command];
      assert lines == ["@SP", "AM=M-1", "D=M", "A=A-1", "M=M" + operator + "D"];
      assert ("M=M" + operator + "D")[0] == 'M';
    } else if IsComparison(command) {
      InequalityLabelLines(TranslatorTable[command], BranchLabel(counter), BranchLabel(counter + 1));
    }
  }

  /** Of the sixteen lines of a comparison, the 11th and 13th declare the two labels, and no other is a label line. */
  lemma InequalityLabelLines(jump: string, label1: string, label2: string)
    ensures var lines := InequalityLines(jump, label1, label2);
            && |lines| == 16 && lines[10] == "(" + label1 + ")" && lines[12] == "(" + label2 + ")"
            && forall i :: 0 <= i < 16 ==> (IsLabelLine(lines[i]) <==> i == 10 || i == 12)
  {
    var lines := InequalityLines(jump, label1, label2);
    assert lines == ["@SP", "AM=M-1", "D=M", "A=A-1", "D=D-M", "@" + label1, "D;" + jump, "D=0", "@" + label2, "0;JMP",
                     "(" + label1 + ")", "D=-1", "(" + label2 + ")", "@SP", "A=M-1", "M=D"];
    assert ("@" + label1)[0] == '@' && ("D;" + jump)[0] == 'D' && ("@" + label2)[0] == '@';
    assert ("(" + label1 + ")")[0] == '(' && ("(" + label2 + ")")[0] == '(';
  }

  /** Push and pop write 6 lines (push constant or static), 9 (push segment), 5 (pop static) or 12 (pop segment); never a label line. */
  lemma PushPopLineCount(kind: Command, segment: string, index: int, fileName: Option<string>, translator: map<string, string>)
    ensures var e := PushPopEmission(kind, segment, index, fileName, translator);
            && (!e.completed <==> segment != "static" && segment !in translator && (kind != CPush || segment != "constant"))
            && (!e.completed ==> e.lines == ["@null"])
            && (kind == CPush && (segment == "constant" || segment == "static") ==> |e.lines| == 6)
            && (kind == CPush && segment != "constant" && segment != "static" && e.completed ==> |e.lines| == 9)
            && (kind != CPush && segment == "static" ==> |e.lines| == 5)
            && (kind != CPush && segment != "static" && e.completed ==> |e.lines| == 12)
            && forall i :: 0 <= i < |e.lines| ==> !IsLabelLine(e.lines[i])
  {
    PushPopWritesNoLabel(kind, segment, index, fileName, translator);
  }

  /** No line that push or pop writes is a label. */
  lemma PushPopWritesNoLabel(kind: Command, segment: string, index: int, fileName: Option<string>, translator: map<string, string>)
    ensures var e := PushPopEmission(kind, segment, index, fileName, translator);
            forall i :: 0 <= i < |e.lines| ==> !IsLabelLine(e.lines[i])
  {
    var symbol := StaticLabelOf(fileName, index);
    assert NoLabels(PushDLines()) && NoLabels(PopDLines()) && NoLabels(["@null"]);
    if kind == CPush && segment == "constant" {
      NoLabelsAppend(["@" + IntToString(index), "D=A"], PushDLines());
    } else if kind == CPush && segment == "static" {
      NoLabelsAppend(["@" + symbol, "D=M"], PushDLines());
    } else if kind == CPush && segment in translator {
      var offset := IndexOffsetLines(translator[segment], index);
      NoLabelsAppend(offset, ["A=D+A", "D=M"]);
      NoLabelsAppend(offset + ["A=D+A", "D=M"], PushDLines());
    } else if kind != CPush && segment == "static" {
      NoLabelsAppend(PopDLines(), ["@" + symbol, "M=D"]);
    } else if kind != CPush && segment in translator {
      var offset := IndexOffsetLines(translator[segment], index);
      var through := PopThroughLines(TempLoc);
      NoLabelsAppend(["D=D+A", "@" + TempLoc, "M=D"], PopDLines());
      NoLabelsAppend(["D=D+A", "@" + TempLoc, "M=D"] + PopDLines(), ["@" + TempLoc, "A=M", "M=D"]);
      NoLabelsAppend(offset, through);
    }
  }

  predicate NoLabels(lines: seq<string>) {
    forall i :: 0 <= i < |lines| ==> !IsLabelLine(lines[i])
  }

  lemma NoLabelsAppend(xs: seq<string>, ys: seq<string>)
    requires NoLabels(xs) && NoLabels(ys)
    ensures NoLabels(xs + ys)
  {
    forall i | 0 <= i < |xs + ys| ensures !IsLabelLine((xs + ys)[i]) {
      if i >= |xs| {
        assert (xs + ys)[i] == ys[i - |xs|];
      }
    }
  }

  /** pointer and temp load their base directly (D=A); every other segment of the table through its pointer (D=M). */
  lemma SegmentAddressing(segment: string, index: int)
    requires segment in TranslatorTable
    ensures IndexOffsetLines(TranslatorTable[segment], index)[1] == "D=A" <==> segment == "pointer" || segment == "temp"
    ensures IndexOffsetLines(TranslatorTable[segment], index)[1] == "D=M" <==> segment != "pointer" && segment != "temp"
  {
  }
}
