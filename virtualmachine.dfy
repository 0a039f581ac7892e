/**
  The driver's string helpers and its routing of parsed lines: the name of
  the .asm file made from a .vm name, the filter that picks .vm files out of
  a directory, the file name the driver hands the code writer at the start
  of each file, and the writer each kind of parsed line is sent to.
*/
module VirtualMachine {
  import opened Wrappers
  import opened Text
  import opened VmParser
  import opened CodeGen

  // ---------------------------------------------------------------------------
  // File names
  // ---------------------------------------------------------------------------

  predicate NoDot(s: string) {
    forall k :: 0 <= k < |s| ==> s[k] != '.'
  }

  /** A one-character pattern occurs where that character is. */
  lemma OccursAtChar(s: string, c: char, k: nat)
    requires k < |s|
    ensures OccursAt(s, [c], k) <==> s[k] == c
  {
    assert s[k..k + 1] == [s[k]];
  }

  /**
    The .asm name of a file: the name up to its first dot, then ".asm". The result is the
    stem followed by ".asm", where the stem is a dot-free prefix of the name that stops at
    the name's end or at its first dot.
  */
  function ConvertFileName(fileName: string): (asm: string)
    ensures EndsWith(asm, ".asm")
    ensures var stem := asm[..|asm| - 4];
            && NoDot(stem) && stem <= fileName
            && (|stem| == |fileName| || fileName[|stem|] == '.')
  {
    var fileExt := IndexOf(fileName, ".");
    var stem := if fileExt != -1 then fileName[..fileExt] else fileName;
    FirstDot(fileName);
    assert (stem + ".asm")[..|stem + ".asm"| - 4] == stem;
    stem + ".asm"
  }

  /** The text before the first dot has no dot, and the first dot is a dot. */
  lemma FirstDot(fileName: string)
    ensures var fileExt := IndexOf(fileName, ".");
            var stem := if fileExt != -1 then fileName[..fileExt] else fileName;
            NoDot(stem) && (fileExt != -1 ==> fileName[fileExt] == '.')
  {
    var fileExt := IndexOf(fileName, ".");
    var stem := if fileExt != -1 then fileName[..fileExt] else fileName;
    forall k | 0 <= k < |stem| ensures stem[k] != '.' {
      OccursAtChar(fileName, '.', k);
      if fileExt == -1 {
        assert !OccursAt(fileName, ".", k);
      }
    }
    if fileExt != -1 {
      OccursAtChar(fileName, '.', fileExt);
    }
  }

  /** A name without a dot keeps all of it: Foo becomes Foo.asm. */
  lemma ConvertDotless(fileName: string)
    requires NoDot(fileName)
    ensures ConvertFileName(fileName) == fileName + ".asm"
  {
    NoOccurrenceWithoutChar(fileName, ".", '.');
  }

  /** The name is cut at its first dot, not its last: a.b.vm becomes a.asm. */
  lemma ConvertCutsAtFirstDot(stem: string, rest: string)
    requires NoDot(stem)
    ensures ConvertFileName(stem + "." + rest) == stem + ".asm"
  {
    var name := stem + "." + rest;
    OccursAtChar(name, '.', |stem|);
    forall k | 0 <= k < |stem| ensures !OccursAt(name, ".", k) {
      OccursAtChar(name, '.', k);
    }
    assert IndexOf(name, ".") == |stem|;
    assert name[..|stem|] == stem;
  }

  /** Converting an .asm name made by the conversion gives it back. */
  lemma ConvertIdempotent(fileName: string)
    ensures ConvertFileName(ConvertFileName(fileName)) == ConvertFileName(fileName)
  {
    var asm := ConvertFileName(fileName);
    var stem := asm[..|asm| - 4];
    assert asm == stem + "." + "asm";
    ConvertCutsAtFirstDot(stem, "asm");
  }

  /** The filter of the directory listing: the name, lower-cased, ends with ".vm". */
  function Accept(pathname: string): (accepted: bool)
    ensures accepted <==> |pathname| >= 3 && pathname[|pathname| - 3] == '.'
                          && LowerChar(pathname[|pathname| - 2]) == 'v' && LowerChar(pathname[|pathname| - 1]) == 'm'
  {
    var lower := Lower(pathname);
    assert EndsWith(lower, ".vm") <==> |lower| >= 3 && lower[|lower| - 3] == '.' && lower[|lower| - 2] == 'v' && lower[|lower| - 1] == 'm' by {
      if |lower| >= 3 {
        assert lower[|lower| - 3..] == [lower[|lower| - 3], lower[|lower| - 2], lower[|lower| - 1]];
      }
    }
    EndsWith(lower, ".vm")
  }

  /** The filter ignores letter case: X.VM and x.vm are both taken, X.asm is not. */
  lemma AcceptIgnoresCase(pathname: string)
    ensures Accept(pathname) == Accept(Lower(pathname))
    ensures Accept("X.VM") && Accept("x.vm") && !Accept("X.asm")
  {
    LowerIdempotent(pathname);
  }

  // ---------------------------------------------------------------------------
  // The file name handed to the code writer
  // ---------------------------------------------------------------------------

  /**
    What the driver does at the start of each file: it hands the writer the converted
    name, Foo.asm for Foo.vm.
  */
  method BeginFile(w: CodeWriter, fileName: string)
    modifies w`curVMfileName
    ensures w.curVMfileName == FileNameAfter(old(w.curVMfileName), ConvertFileName(fileName))
  {
    w.SetFileName(ConvertFileName(fileName));
  }

  /**
    The converted name never contains ".vm", so handing it to the writer changes nothing:
    the static prefix stays what it was before the first file, whatever the files are called.
  */
  lemma BeginFileKeepsPrefix(current: Option<string>, fileName: string)
    ensures FileNameAfter(current, ConvertFileName(fileName)) == current
  {
    var asm := ConvertFileName(fileName);
    var stem := asm[..|asm| - 4];
    assert asm == stem + ".asm";
    forall k: nat | k <= |asm| ensures !OccursAt(asm, ".vm", k) {
      if k + 3 <= |asm| {
        if k < |stem| {
          assert asm[k] == stem[k] != '.';
        } else {
          assert asm[|stem|..] == ".asm";
          assert asm[k..k + 3][0] == asm[k] && asm[k..k + 3][1] == asm[k + 1];
          if k == |stem| {
            assert asm[k + 1] == 'a';
          } else {
            assert asm[k] == 'a';
          }
        }
      }
    }
  }

  /** So the statics of two files, whatever their names, share labels: static 0 of both is the same symbol. */
  lemma StaticsOfFilesCollide(current: Option<string>, first: string, second: string, index: int)
    ensures var afterFirst := FileNameAfter(current, ConvertFileName(first));
            var afterSecond := FileNameAfter(afterFirst, ConvertFileName(second));
            StaticLabelOf(afterFirst, index) == StaticLabelOf(afterSecond, index)
  {
    BeginFileKeepsPrefix(current, first);
    BeginFileKeepsPrefix(FileNameAfter(current, ConvertFileName(first)), second);
  }

  /** The start of a file with the name itself handed to the writer, as setFileName expects. */
  method BeginFileCorrected(w: CodeWriter, fileName: string)
    modifies w`curVMfileName
    ensures w.curVMfileName == FileNameAfter(old(w.curVMfileName), fileName)
  {
    w.SetFileName(fileName);
  }

  /**
    Handing the writer the .vm name itself sets the prefix to the file's stem, so the statics
    of files with different stems get different labels.
  */
  lemma CorrectedPrefixSeparatesFiles(current: Option<string>, first: string, second: string, i: int, j: int)
    requires NoDot(first) && NoDot(second) && first != second
    ensures FileNameAfter(current, first + ".vm") == Some(first)
    ensures StaticLabelOf(FileNameAfter(current, first + ".vm"), i)
            != StaticLabelOf(FileNameAfter(Some(first), second + ".vm"), j)
  {
    FileNameOfVmFile(current, first);
    FileNameOfVmFile(Some(first), second);
    StaticLabelInjective(Some(first), Some(second), i, j);
  }

  // ---------------------------------------------------------------------------
  // Routing a parsed line
  // ---------------------------------------------------------------------------

  /** The writer call a parsed line leads to, with the arguments it is given. */
  datatype Route =
    | ToArithmetic(command: string)
    | ToPushPop(kind: Command, segment: string, index: string)
    | ToLabel(name: string)
    | ToGoto(name: string)
    | ToIfGoto(name: string)
    | ToCall(name: string, args: string)
    | ToFunction(name: string, locals: string)
    | ToReturn
    | NoWriter  // a blank line, a comment, or a line whose kind was never set

  /** The chain of tests on the command type, in the driver's order. */
  function RouteOf(commandType: Option<Command>, command: string, arg1: string, arg2: string): (r: Route)
    ensures r == NoWriter <==> commandType == None || commandType == Some(CNone)
    ensures r.ToArithmetic? <==> commandType == Some(CArithmetic)
    ensures r.ToArithmetic? ==> r.command == command
    ensures r.ToPushPop? <==> commandType == Some(CPush) || commandType == Some(CPop)
    ensures r.ToPushPop? ==> r.kind == commandType.value && r.segment == arg1 && r.index == arg2
  {
    match commandType
    case None => NoWriter
    case Some(kind) =>
      match kind
      case CArithmetic => ToArithmetic(command)
      case CPush => ToPushPop(kind, arg1, arg2)
      case CPop => ToPushPop(kind, arg1, arg2)
      case CLabel => ToLabel(arg1)
      case CGoto => ToGoto(arg1)
      case CIf => ToIfGoto(arg1)
      case CCall => ToCall(arg1, arg2)
      case CFunction => ToFunction(arg1, arg2)
      case CReturn => ToReturn
      case CNone => NoWriter
  }

  /** Different kinds go to different writers: the route tells the kind back. */
  lemma RouteDeterminesKind(t: Option<Command>, u: Option<Command>, command: string, arg1: string, arg2: string)
    requires t != u && t != None && t != Some(CNone) && u != None && u != Some(CNone)
    ensures RouteOf(t, command, arg1, arg2) != RouteOf(u, command, arg1, arg2)
  {
  }

  /**
    The writer call for a parsed line, with the index already read as a number. Lines of the
    kinds whose writers are not part of the code writer write nothing here (handled is false).
    A push or pop on a segment outside the table writes "@null" and then throws, which ends the
    whole translation: completed is false exactly then, and the driver goes no further.
  */
  method Dispatch(w: CodeWriter, commandType: Option<Command>, command: string, arg1: string, index: int)
    returns (handled: bool, completed: bool)
    requires w.Valid()
    modifies w`output, w`labelCounter, w`issued
    ensures w.Valid()
    ensures handled <==> commandType in {None, Some(CNone), Some(CArithmetic), Some(CPush), Some(CPop)}
    ensures completed <==> commandType !in {Some(CPush), Some(CPop)}
                           || PushPopEmission(commandType.value, Lower(arg1), index, w.curVMfileName, w.translator).completed
    ensures commandType == Some(CArithmetic) ==>
              && w.output == old(w.output) + ArithmeticLines(Lower(command), old(w.labelCounter))
              && w.labelCounter == old(w.labelCounter) + LabelsUsed(Lower(command))
              && |w.issued| == |old(w.issued)| + LabelsUsed(Lower(command)) && old(w.issued) <= w.issued
    ensures commandType == Some(CPush) || commandType == Some(CPop) ==>
              && w.output == old(w.output)
                             + PushPopEmission(commandType.value, Lower(arg1), index, w.curVMfileName, w.translator).lines
              && w.labelCounter == old(w.labelCounter) && w.issued == old(w.issued)
    ensures commandType !in {Some(CArithmetic), Some(CPush), Some(CPop)} ==>
              w.output == old(w.output) && w.labelCounter == old(w.labelCounter) && w.issued == old(w.issued)
  {
    completed := true;
    match RouteOf(commandType, command, arg1, "") {
      case ToArithmetic(c) =>
        w.WriteArithmetic(c);
        handled := true;
      case ToPushPop(kind, segment, _) =>
        completed := w.WritePushPop(kind, segment, index);
        handled := true;
      case NoWriter =>
        handled := true;
      case _ =>
        handled := false;
    }
  }

  /** A blank line or a whole-line comment, read by the parser, is sent to no writer. */
  lemma BlankLineWritesNothing(raw: string, previous: Option<Command>)
    requires CleanLineOf(raw) == []
    ensures var clean := CleanLineOf(raw);
            RouteOf(CommandTypeOf(clean, Field(Split(clean), 0), previous), Field(Split(clean), 0),
                    Field(Split(clean), 1), Field(Split(clean), 2)) == NoWriter
  {
    BlankLineIsNone(raw, previous);
  }
}
