/**
  The command reader of the translator: it reads the lines of one .vm file in
  order, strips each line of its comment and surrounding whitespace, splits it
  into a command and up to two arguments, and classifies it.
*/
module VmParser {
  import opened Wrappers
  import opened Text

  /** The kinds of VM command, in their declaration order (Command.values()). */
  datatype Command =
    | CArithmetic
    | CPush
    | CPop
    | CLabel
    | CGoto
    | CIf
    | CFunction
    | CReturn
    | CCall
    | CNone  // a blank line or a whole-line comment

  /** Command.values(): the kinds in declaration order. */
  const CommandValues: seq<Command> :=
    [CArithmetic, CPush, CPop, CLabel, CGoto, CIf, CFunction, CReturn, CCall, CNone]

  /** The nine arithmetic and logical commands. */
  const ArithmeticNames: seq<string> :=
    ["add", "sub", "neg", "eq", "gt", "lt", "and", "or", "not"]

  /** The other keywords; keyword i names the kind CommandValues[i + 1]. */
  const KeywordNames: seq<string> :=
    ["push", "pop", "label", "goto", "if-goto", "function", "return", "call"]

  /** The position of the first entry of table equal to x, or |table| when there is none. */
  function IndexIn(table: seq<string>, x: string): (r: nat)
    ensures r <= |table|
    ensures r < |table| ==> table[r] == x
    ensures forall k :: 0 <= k < r ==> table[k] != x
  {
    if table == [] then 0
    else if table[0] == x then 0
    else 1 + IndexIn(table[1..], x)
  }

  // ---------------------------------------------------------------------------
  // What one line parses to
  // ---------------------------------------------------------------------------

  /** The raw line up to its first "//", or all of it when it has none. */
  function CodePart(raw: string): (code: string)
    ensures !Contains(code, "//")
  {
    var at := IndexOf(raw, "//");
    if at == -1 then raw
    else
      PrefixBeforeFirstOccurrence(raw, "//");
      raw[..at]
  }

  /** The raw line without its comment and trimmed: no "//" is left in it. */
  function CleanLineOf(raw: string): (clean: string)
    ensures !Contains(clean, "//")
  {
    var code := CodePart(raw);
    TrimKeepsAbsence(code, "//");
    Trim(code)
  }

  /** A cleaned line has no trimmable character at either end. */
  lemma CleanLineEnds(raw: string)
    ensures var clean := CleanLineOf(raw);
            clean == [] || (!IsTrimmable(clean[0]) && !IsTrimmable(clean[|clean| - 1]))
  {
    TrimEnds(CodePart(raw));
  }

  /** The i-th whitespace-separated part of a line, or "" when the line has fewer parts. */
  function Field(parts: seq<string>, i: nat): string {
    if i < |parts| then parts[i] else ""
  }

  /**
    A line made of up to three tokens separated by single spaces reads back as those tokens:
    the command is the first, arg1 the second and arg2 the third, and a missing one is "".
  */
  lemma FieldsOfTokens(parts: seq<string>)
    requires |parts| <= 3 && forall i :: 0 <= i < |parts| ==> IsToken(parts[i])
    ensures forall i: nat :: i < 3 ==> Field(Split(Unsplit(parts)), i) == if i < |parts| then parts[i] else ""
  {
    SplitUnsplit(parts);
  }

  /**
    The kind of a line whose cleaned text is clean and whose first part is command,
    when the kind held before reading it was previous. An unrecognised command
    does not change the kind.
  */
  function CommandTypeOf(clean: string, command: string, previous: Option<Command>): Option<Command> {
    if command == "" then Some(CNone)
    else if Lower(clean) in ArithmeticNames then Some(CArithmetic)
    else
      var k := IndexIn(KeywordNames, Lower(command));
      if k < |KeywordNames| then Some(CommandValues[k + 1]) else previous
  }

  // ---------------------------------------------------------------------------
  // The reader
  // ---------------------------------------------------------------------------

  /** Reads one .vm file, given as its lines, one command at a time. */
  class Parser {
    var lines: seq<string>    // the lines of the input file
    var position: nat         // how many of them have been read
    var isClosed: bool        // the input stream has been closed
    var rawLine: string
    var cleanLine: string
    var commandType: Option<Command>   // None until a line sets it
    var command: string
    var arg1: string
    var arg2: string

    ghost predicate Valid()
      reads this`lines, this`position, this`isClosed
    {
      position <= |lines| && (isClosed ==> position == |lines|)
    }

    constructor (input: seq<string>)
      ensures Valid()
      ensures lines == input && position == 0 && !isClosed
      ensures rawLine == "" && cleanLine == "" && commandType == None
      ensures command == "" && arg1 == "" && arg2 == ""
    {
      lines := input;
      position := 0;
      isClosed := false;
      rawLine := "";
      cleanLine := "";
      commandType := None;
      command := "";
      arg1 := "";
      arg2 := "";
    }

    /** True while unread lines remain; the first time it answers false it closes the input. */
    method HasMoreCommands() returns (more: bool)
      requires Valid()
      modifies this`isClosed
      ensures Valid()
      ensures more == (!old(isClosed) && position < |lines|)
      ensures isClosed == !more
    {
      if isClosed {
        // asking a closed scanner fails, which is answered with false
        return false;
      }
      if position < |lines| {
        return true;
      }
      isClosed := true;
      return false;
    }

    /** Reads the next line and recomputes every parsed field from it. */
    method Advance()
      requires Valid() && !isClosed && position < |lines|
      modifies this`position, this`rawLine, this`cleanLine, this`command, this`arg1, this`arg2, this`commandType
      ensures Valid()
      ensures position == old(position) + 1
      ensures rawLine == lines[old(position)]
      ensures cleanLine == CleanLineOf(rawLine)
      ensures command == Field(Split(cleanLine), 0)
      ensures arg1 == Field(Split(cleanLine), 1)
      ensures arg2 == Field(Split(cleanLine), 2)
      ensures commandType == CommandTypeOf(cleanLine, command, old(commandType))
    {
      rawLine := lines[position];
      position := position + 1;
      CleanLine();
      Parse();
    }

    /** Cuts rawLine at its first "//" and trims what is left. */
    method CleanLine()
      requires Valid()
      modifies this`cleanLine
      ensures Valid()
      ensures cleanLine == CleanLineOf(rawLine)
    {
      var line := rawLine;
      var commentIndex := IndexOf(line, "//");
      if commentIndex != -1 {
        line := line[..commentIndex];
      }
      cleanLine := Trim(line);
    }

    /** Splits cleanLine on runs of whitespace into command, arg1 and arg2, then classifies it. */
    method Parse()
      requires Valid()
      modifies this`command, this`arg1, this`arg2, this`commandType
      ensures Valid()
      ensures command == Field(Split(cleanLine), 0)
      ensures arg1 == Field(Split(cleanLine), 1)
      ensures arg2 == Field(Split(cleanLine), 2)
      ensures commandType == CommandTypeOf(cleanLine, command, old(commandType))
    {
      var parts := Split(cleanLine);
      var i := 0;
      if i < |parts| { command := parts[i]; i := i + 1; } else { command := ""; }
      if i < |parts| { arg1 := parts[i]; i := i + 1; } else { arg1 := ""; }
      arg2 := if i < |parts| then parts[i] else "";
      ParseCommandType();
    }

    /** Sets commandType from command and cleanLine; leaves it alone for an unrecognised command. */
    method ParseCommandType()
      modifies this`commandType
      ensures commandType == CommandTypeOf(cleanLine, command, old(commandType))
    {
      if command == "" {
        commandType := Some(CNone);
      } else {
        var arithmetic := IsArithmeticCommand();
        if arithmetic {
          commandType := Some(CArithmetic);
        } else {
          var i := 0;
          while i < |KeywordNames|
            invariant 0 <= i <= |KeywordNames|
            invariant forall k :: 0 <= k < i ==> KeywordNames[k] != Lower(command)
            invariant commandType == old(commandType)
          {
            if Lower(command) == KeywordNames[i] {
              commandType := Some(CommandValues[i + 1]);
              return;
            }
            i := i + 1;
          }
        }
      }
    }

    /** Whether the whole cleaned line, ignoring case, is one of the nine arithmetic commands. */
    method IsArithmeticCommand() returns (found: bool)
      ensures found == (Lower(cleanLine) in ArithmeticNames)
    {
      for i := 0 to |ArithmeticNames|
        invariant forall k :: 0 <= k < i ==> ArithmeticNames[k] != Lower(cleanLine)
      {
        if Lower(cleanLine) == ArithmeticNames[i] {
          return true;
        }
      }
      return false;
    }

    function GetCommandType(): Option<Command>
      reads this
    {
      commandType
    }

    function GetCommand(): string
      reads this
    {
      command
    }

    function GetArg1(): string
      reads this
    {
      arg1
    }

    function GetArg2(): string
      reads this
    {
      arg2
    }
  }

  // ---------------------------------------------------------------------------
  // Properties of the reader
  // ---------------------------------------------------------------------------

  /** Cleaning an already cleaned line changes nothing. */
  lemma CleanLineIdempotent(raw: string)
    ensures CleanLineOf(CleanLineOf(raw)) == CleanLineOf(raw)
  {
    var clean := CleanLineOf(raw);
    assert IndexOf(clean, "//") == -1;
    CleanLineEnds(raw);
    if clean != [] {
      assert TrimStart(clean) == clean;
      assert TrimEnd(clean) == clean;
    }
  }

  /** A text that does not start with a trimmable character has an empty first part exactly when it is empty. */
  lemma FirstFieldEmptyIffBlank(clean: string)
    requires clean == [] || !IsTrimmable(clean[0])
    ensures (Field(Split(clean), 0) == "") <==> (clean == "")
  {
    if clean != "" {
      WhitespaceIsTrimmable(clean[0]);
      SplitOfNonBlank(clean);
    }
  }

  /** A line that cleans to nothing has an empty command; one that cleans to something has a non-empty one. */
  lemma CommandEmptyIffBlank(raw: string)
    ensures (Field(Split(CleanLineOf(raw)), 0) == "") <==> (CleanLineOf(raw) == "")
  {
    CleanLineEnds(raw);
    FirstFieldEmptyIffBlank(CleanLineOf(raw));
  }

  /** A blank line or a whole-line comment is of kind CNone, whatever came before. */
  lemma BlankLineIsNone(raw: string, previous: Option<Command>)
    requires CleanLineOf(raw) == ""
    ensures Field(Split(CleanLineOf(raw)), 0) == ""
    ensures CommandTypeOf(CleanLineOf(raw), Field(Split(CleanLineOf(raw)), 0), previous) == Some(CNone)
  {
    CommandEmptyIffBlank(raw);
  }

  /** A cleaned line that, ignoring case, is one of the nine names is arithmetic. */
  lemma ArithmeticNameIsArithmetic(clean: string, previous: Option<Command>)
    requires clean == [] || !IsTrimmable(clean[0])
    requires Lower(clean) in ArithmeticNames
    ensures CommandTypeOf(clean, Field(Split(clean), 0), previous) == Some(CArithmetic)
  {
    FirstFieldEmptyIffBlank(clean);
    assert clean != "";
  }

  /** A cleaned line comes out arithmetic only by its name or by keeping an arithmetic previous kind. */
  lemma ArithmeticOnlyByNameOrPrevious(clean: string, command: string, previous: Option<Command>)
    requires CommandTypeOf(clean, command, previous) == Some(CArithmetic)
    ensures Lower(clean) in ArithmeticNames || previous == Some(CArithmetic)
  {
    if command != "" && Lower(clean) !in ArithmeticNames {
      var k := IndexIn(KeywordNames, Lower(command));
      if k < |KeywordNames| {
        assert false;
      }
    }
  }

  /**
    A cleaned line is classified as arithmetic exactly when the whole line, ignoring case,
    is one of the nine names, or when the previous kind was arithmetic and nothing else matched.
  */
  lemma ArithmeticClassification(clean: string, previous: Option<Command>)
    requires clean == [] || !IsTrimmable(clean[0])
    ensures var command := Field(Split(clean), 0);
            && (Lower(clean) in ArithmeticNames ==> CommandTypeOf(clean, command, previous) == Some(CArithmetic))
            && (CommandTypeOf(clean, command, previous) == Some(CArithmetic) ==>
                  Lower(clean) in ArithmeticNames || previous == Some(CArithmetic))
  {
    if Lower(clean) in ArithmeticNames {
      ArithmeticNameIsArithmetic(clean, previous);
    }
    if CommandTypeOf(clean, Field(Split(clean), 0), previous) == Some(CArithmetic) {
      ArithmeticOnlyByNameOrPrevious(clean, Field(Split(clean), 0), previous);
    }
  }

  /** The keyword at position i selects kind i + 1 of the enumeration. */
  lemma KeywordSelectsKind(clean: string, command: string, previous: Option<Command>, i: nat)
    requires command != "" && Lower(clean) !in ArithmeticNames
    requires i < |KeywordNames| && Lower(command) == KeywordNames[i]
    ensures CommandTypeOf(clean, command, previous) == Some(CommandValues[i + 1])
  {
  }

  /** Each keyword, in any letter case, selects the kind of the same name. */
  lemma KeywordKinds(clean: string, command: string, previous: Option<Command>)
    requires command != "" && Lower(clean) !in ArithmeticNames
    ensures Lower(command) == "push" ==> CommandTypeOf(clean, command, previous) == Some(CPush)
    ensures Lower(command) == "pop" ==> CommandTypeOf(clean, command, previous) == Some(CPop)
    ensures Lower(command) == "label" ==> CommandTypeOf(clean, command, previous) == Some(CLabel)
    ensures Lower(command) == "goto" ==> CommandTypeOf(clean, command, previous) == Some(CGoto)
    ensures Lower(command) == "if-goto" ==> CommandTypeOf(clean, command, previous) == Some(CIf)
    ensures Lower(command) == "function" ==> CommandTypeOf(clean, command, previous) == Some(CFunction)
    ensures Lower(command) == "return" ==> CommandTypeOf(clean, command, previous) == Some(CReturn)
    ensures Lower(command) == "call" ==> CommandTypeOf(clean, command, previous) == Some(CCall)
  {
    StackKeywordKinds(clean, command, previous);
    BranchKeywordKinds(clean, command, previous);
    FunctionKeywordKinds(clean, command, previous);
  }

  /** The stack keywords: push and pop. */
  lemma StackKeywordKinds(clean: string, command: string, previous: Option<Command>)
    requires command != "" && Lower(clean) !in ArithmeticNames
    ensures Lower(command) == "push" ==> CommandTypeOf(clean, command, previous) == Some(CPush)
    ensures Lower(command) == "pop" ==> CommandTypeOf(clean, command, previous) == Some(CPop)
  {
    var lower := Lower(command);
    if lower == "push" { KeywordSelectsKind(clean, command, previous, 0); }
    if lower == "pop" { KeywordSelectsKind(clean, command, previous, 1); }
  }

  /** The branching keywords: label, goto and if-goto. */
  lemma BranchKeywordKinds(clean: string, command: string, previous: Option<Command>)
    requires command != "" && Lower(clean) !in ArithmeticNames
    ensures Lower(command) == "label" ==> CommandTypeOf(clean, command, previous) == Some(CLabel)
    ensures Lower(command) == "goto" ==> CommandTypeOf(clean, command, previous) == Some(CGoto)
    ensures Lower(command) == "if-goto" ==> CommandTypeOf(clean, command, previous) == Some(CIf)
  {
    var lower := Lower(command);
    if lower == "label" { KeywordSelectsKind(clean, command, previous, 2); }
    if lower == "goto" { KeywordSelectsKind(clean, command, previous, 3); }
    if lower == "if-goto" { KeywordSelectsKind(clean, command, previous, 4); }
  }

  /** The function keywords: function, return and call. */
  lemma FunctionKeywordKinds(clean: string, command: string, previous: Option<Command>)
    requires command != "" && Lower(clean) !in ArithmeticNames
    ensures Lower(command) == "function" ==> CommandTypeOf(clean, command, previous) == Some(CFunction)
    ensures Lower(command) == "return" ==> CommandTypeOf(clean, command, previous) == Some(CReturn)
    ensures Lower(command) == "call" ==> CommandTypeOf(clean, command, previous) == Some(CCall)
  {
    var lower := Lower(command);
    if lower == "function" { KeywordSelectsKind(clean, command, previous, 5); }
    if lower == "return" { KeywordSelectsKind(clean, command, previous, 6); }
    if lower == "call" { KeywordSelectsKind(clean, command, previous, 7); }
  }

  /** A non-empty command that is neither arithmetic nor a keyword leaves the kind as it was. */
  lemma UnrecognisedKeepsPrevious(clean: string, command: string, previous: Option<Command>)
    requires command != "" && Lower(clean) !in ArithmeticNames && Lower(command) !in KeywordNames
    ensures CommandTypeOf(clean, command, previous) == previous
  {
  }

  /** "add 1" needs no cleaning. */
  lemma CleanAddOne()
    ensures CleanLineOf("add 1") == "add 1"
  {
    var s := "add 1";
    NoOccurrenceWithoutChar(s, "//", '/');
    assert CodePart(s) == s;
    assert TrimStart(s) == s;
    assert TrimEnd(s) == s;
  }

  /** "add 1" splits into the command "add" and the argument "1". */
  lemma SplitAddOne()
    ensures Split("add 1") == ["add", "1"]
  {
    var s := "add 1";
    assert TokenRun(s) == 3;
    assert s[..3] == "add" && s[3..] == " 1";
    var t := " 1";
    assert Split(t) == Split(t[1..]);
    assert t[1..] == "1" && TokenRun("1") == 1;
    assert "1"[..1] == "1" && "1"[1..] == [];
  }

  /** "add 1" is not an arithmetic line: its kind is whatever the previous line left. */
  lemma AddWithArgumentKeepsPrevious(previous: Option<Command>)
    ensures CommandTypeOf(CleanLineOf("add 1"), Field(Split(CleanLineOf("add 1")), 0), previous) == previous
  {
    CleanAddOne();
    SplitAddOne();
    AddOneIsNoName();
    UnrecognisedKeepsPrevious("add 1", "add", previous);
  }

  /** Neither "add 1" nor "add" is in the table its test looks in. */
  lemma AddOneIsNoName()
    ensures Lower("add 1") !in ArithmeticNames
    ensures Lower("add") !in KeywordNames
  {
    assert Lower("add 1") == "add 1";
    assert Lower("add") == "add";
  }
}
