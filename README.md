# VM translator: parser, code writer and driver dispatch

This project models the core of a translator from the stack-based VM language
(nand2tetris project 7) to Hack assembly. It has three parts.

- **Parser** (`parser.dfy`, module `VmParser`) is a class over the lines of
  one `.vm` file. It reads them one at a time. It cuts each line at its first
  `//` and trims it. It splits the line on runs of whitespace into a command
  and two arguments. It then classifies the line as one of the ten command
  kinds. An unrecognised command keeps the kind left by the previous line.
- **Code writer** (`codegen.dfy`, module `CodeGen`) is a class holding:
  - the lines written so far;
  - the current file name, which is the prefix of static labels;
  - the translation table;
  - the branch-label counter.

  It writes the arithmetic/logical commands, push and pop. The lines each
  helper appends are given by functions.
- **Driver** (`virtualmachine.dfy`, module `VirtualMachine`) covers three
  things: the `.vm` → `.asm` file-name conversion, the `.vm` directory
  filter, and the routing of each parsed line to a writer.

What the emitted code *does* is stated against a small model of the Hack
computer. The model has 16-bit words, the A and D registers, RAM, the program
counter, and only the instructions the writer emits. It lives in `hack.dfy`
(module `Hack`). Two modules prove what each command's lines do to the stack
pointer `RAM[0]` and to memory:
- `codegen_semantics.dfy` (module `CodeGenSemantics`) covers push, pop and
  the straight-line arithmetic.
- `comparison.dfy` (module `ComparisonSemantics`) covers `eq`/`lt`/`gt`, whose
  code jumps.

`text.dfy` (module `Text`) gives the Java string operations the source relies
on:
- `trim`, which drops characters `<= ' '`;
- `split("\\s+")`;
- `indexOf`;
- ASCII `toLowerCase`;
- rendering an `int` with `+`.

## Model

| member | source | states |
|---|---|---|
| Text.Lower | src/edu/miracosta/cs220/CodeWriter.java:138 | lower-casing keeps the length and maps each character to its lower-case letter (A–Z shift by 32, all else unchanged) |
| Text.LowerIdempotent | src/edu/miracosta/cs220/Parser.java:181 | lower-casing twice is lower-casing once |
| Text.TrimStart | src/edu/miracosta/cs220/Parser.java:159 | the result is a suffix of the text, all dropped characters are `<= ' '`, and it does not start with one |
| Text.TrimEnd | src/edu/miracosta/cs220/Parser.java:159 | the result is a prefix of the text, all dropped characters are `<= ' '`, and it does not end with one |
| Text.TrimSlice | src/edu/miracosta/cs220/Parser.java:159 | trimming yields a contiguous slice of the text with no trimmable character at either end |
| Text.TrimIdempotent | src/edu/miracosta/cs220/Parser.java:159 | trimming a trimmed text changes nothing |
| Text.IndexOf | src/edu/miracosta/cs220/Parser.java:155 | -1 exactly when the pattern does not occur; otherwise the pattern occurs there and at no earlier position |
| Text.PrefixBeforeFirstOccurrence | src/edu/miracosta/cs220/CodeWriter.java:103-106 | the text before the first occurrence of a pattern does not contain it |
| Text.Split | src/edu/miracosta/cs220/Parser.java:223 | no part of the split is empty |
| Text.SplitCharacterization | src/edu/miracosta/cs220/Parser.java:223 | the parts of the split, joined, are the line with all whitespace removed |
| Text.SplitPartsHaveNoWhitespace | src/edu/miracosta/cs220/Parser.java:223 | no part of the split contains whitespace |
| Text.SplitOfNonBlank | src/edu/miracosta/cs220/Parser.java:223-226 | a line not starting with whitespace has a first part, namely its leading run of non-whitespace |
| Text.SplitSkipsWhitespace | src/edu/miracosta/cs220/Parser.java:223 | whitespace in front of the text adds no part |
| Text.SplitTakesToken | src/edu/miracosta/cs220/Parser.java:223 | a token followed by whitespace is the first part, and the parts after it are the split of what follows the whitespace |
| Text.SplitOfToken | src/edu/miracosta/cs220/Parser.java:223 | a token on its own splits into exactly itself |
| Text.SplitUnsplit | src/edu/miracosta/cs220/Parser.java:223 | tokens written out with single spaces split back into the same tokens, in order |
| Text.IntToStringInjective | src/edu/miracosta/cs220/CodeWriter.java:256 | different integers render as different decimal texts |
| Text.IntToStringSign | src/edu/miracosta/cs220/CodeWriter.java:269 | the rendering starts with '-' exactly for negative numbers |
| Text.ParseNatToString | src/edu/miracosta/cs220/CodeWriter.java:301 | reading back the decimal text of a natural number gives the number |
| VmParser.IndexIn | src/edu/miracosta/cs220/Parser.java:180-185 | the position of the first equal entry of a table, or its length when there is none |
| VmParser.CleanLineOf | src/edu/miracosta/cs220/Parser.java:153-160 | a cleaned line contains no `//` |
| VmParser.CleanLineEnds | src/edu/miracosta/cs220/Parser.java:153-160 | a cleaned line neither starts nor ends with whitespace |
| VmParser.CleanLineIdempotent | src/edu/miracosta/cs220/Parser.java:153-160 | cleaning a cleaned line changes nothing |
| VmParser.Parser.constructor | src/edu/miracosta/cs220/Parser.java:82-93 | a new reader is open, at the first line, with every parsed field empty and no command kind |
| VmParser.Parser.HasMoreCommands | src/edu/miracosta/cs220/Parser.java:109-124 | true exactly while the input is open and lines remain; the first false closes the input, and a closed input answers false |
| VmParser.Parser.Advance | src/edu/miracosta/cs220/Parser.java:134-141 | reads the next line and sets the clean line, command, arguments and kind from it and the previous kind |
| VmParser.Parser.CleanLine | src/edu/miracosta/cs220/Parser.java:153-160 | the clean line is the raw line cut at its first `//` and trimmed |
| VmParser.Parser.Parse | src/edu/miracosta/cs220/Parser.java:217-235 | command, arg1 and arg2 are the first three whitespace-separated parts (or empty), and the kind is classified |
| VmParser.FieldsOfTokens | src/edu/miracosta/cs220/Parser.java:223-234 | for a line of up to three space-separated tokens, the command, arg1 and arg2 are the first, second and third token, and a missing one is empty |
| VmParser.Parser.ParseCommandType | src/edu/miracosta/cs220/Parser.java:169-188 | empty command gives C_NONE, an arithmetic line C_ARITHMETIC, keyword i kind i+1, anything else keeps the old kind |
| VmParser.Parser.IsArithmeticCommand | src/edu/miracosta/cs220/Parser.java:199-208 | true exactly when the whole clean line, lower-cased, is one of the nine arithmetic names |
| VmParser.FirstFieldEmptyIffBlank | src/edu/miracosta/cs220/Parser.java:223-226 | for a trimmed line, the command is empty exactly when the line is |
| VmParser.CommandEmptyIffBlank | src/edu/miracosta/cs220/Parser.java:170-172 | a raw line gives an empty command exactly when it cleans to nothing |
| VmParser.BlankLineIsNone | src/edu/miracosta/cs220/Parser.java:170-172 | a blank or comment-only line is C_NONE, whatever came before |
| VmParser.ArithmeticNameIsArithmetic | src/edu/miracosta/cs220/Parser.java:173-175 | a line that is an arithmetic name in any case is C_ARITHMETIC |
| VmParser.ArithmeticOnlyByNameOrPrevious | src/edu/miracosta/cs220/Parser.java:169-188 | a line is C_ARITHMETIC only by its name or by keeping an arithmetic previous kind |
| VmParser.ArithmeticClassification | src/edu/miracosta/cs220/Parser.java:169-188 | both directions: arithmetic name ⇒ C_ARITHMETIC, and C_ARITHMETIC ⇒ arithmetic name or arithmetic previous kind |
| VmParser.KeywordSelectsKind | src/edu/miracosta/cs220/Parser.java:179-185 | keyword i of the keyword table selects enumeration value i+1 |
| VmParser.KeywordKinds | src/edu/miracosta/cs220/Parser.java:31-51 | push, pop, label, goto, if-goto, function, return and call, in any case, select the kind of that name |
| VmParser.UnrecognisedKeepsPrevious | src/edu/miracosta/cs220/Parser.java:176-187 | an unrecognised non-empty command leaves the kind unchanged |
| VmParser.AddWithArgumentKeepsPrevious | src/edu/miracosta/cs220/Parser.java:199-208 | "add 1" is not recognised as arithmetic (the whole line is compared), so it keeps the previous kind |
| CodeGen.CodeWriter.constructor | src/edu/miracosta/cs220/CodeWriter.java:63-70 | a new writer has no output, no file name, the full translation table, and label counter 1 |
| CodeGen.CodeWriter.WithFileName | src/edu/miracosta/cs220/CodeWriter.java:85-88 | as the plain constructor, then the file name set from the given name |
| CodeGen.CodeWriter.InitTranslator | src/edu/miracosta/cs220/CodeWriter.java:224-246 | the table maps the four binary commands to their operator, eq/lt/gt to JEQ/JGT/JLT, and the six memory segments to LCL, ARG, THIS, THAT, 3 and 5 |
| CodeGen.CodeWriter.SetFileName | src/edu/miracosta/cs220/CodeWriter.java:102-108 | the file name becomes the text before the first ".vm", or is unchanged when there is none |
| CodeGen.FileNameStem | src/edu/miracosta/cs220/CodeWriter.java:102-108 | without ".vm" the name is unchanged; with it, the kept name is a ".vm"-free prefix followed by ".vm" |
| CodeGen.FileNameOfVmFile | src/edu/miracosta/cs220/CodeWriter.java:102-108 | the name Foo.vm (Foo dot-free) sets the prefix to Foo |
| CodeGen.CodeWriter.GetBranchLabel | src/edu/miracosta/cs220/CodeWriter.java:255-257 | returns "_" and the counter, bumps the counter, and the label was never handed out before |
| CodeGen.BranchLabelInjective | src/edu/miracosta/cs220/CodeWriter.java:255-257 | different counter values give different branch labels |
| CodeGen.StaticLabelInjective | src/edu/miracosta/cs220/CodeWriter.java:268-270 | equal static labels mean equal index and equal file-name text |
| CodeGen.LastDotSplits | src/edu/miracosta/cs220/CodeWriter.java:268-270 | a label name.index can be split back at its last dot |
| CodeGen.CodeWriter.Emit | src/edu/miracosta/cs220/CodeWriter.java:301 | one line is appended to the output |
| CodeGen.CodeWriter.WriteIndexOffset | src/edu/miracosta/cs220/CodeWriter.java:292-302 | appends the offset lines (direct D=A for 3 and 5, indirect D=M otherwise); a null segment writes "@null" and stops |
| CodeGen.CodeWriter.WritePopD | src/edu/miracosta/cs220/CodeWriter.java:311-315 | appends the three lines that pop into D |
| CodeGen.CodeWriter.WritePopToMem | src/edu/miracosta/cs220/CodeWriter.java:329-338 | appends the pop-to-segment lines; a null segment writes "@null" and stops |
| CodeGen.CodeWriter.WritePopToStatic | src/edu/miracosta/cs220/CodeWriter.java:351-355 | appends the pop into the file's static label for the index |
| CodeGen.CodeWriter.WritePushD | src/edu/miracosta/cs220/CodeWriter.java:365-370 | appends the four lines that push D |
| CodeGen.CodeWriter.WritePushConstant | src/edu/miracosta/cs220/CodeWriter.java:380-384 | appends the push of the constant |
| CodeGen.CodeWriter.WritePushMemory | src/edu/miracosta/cs220/CodeWriter.java:398-403 | appends the push of segment[index]; a null segment writes "@null" and stops |
| CodeGen.CodeWriter.WritePushStatic | src/edu/miracosta/cs220/CodeWriter.java:416-420 | appends the push of the file's static variable |
| CodeGen.CodeWriter.WriteBinaryOp | src/edu/miracosta/cs220/CodeWriter.java:436-440 | appends pop-to-D and the operator line |
| CodeGen.CodeWriter.WriteUnaryOp | src/edu/miracosta/cs220/CodeWriter.java:452-456 | appends the bitwise not of the top |
| CodeGen.CodeWriter.WriteInequality | src/edu/miracosta/cs220/CodeWriter.java:467-485 | appends the comparison lines with two fresh labels and uses up two counter values |
| CodeGen.CodeWriter.WriteArithmetic | src/edu/miracosta/cs220/CodeWriter.java:136-161 | appends the lines of the lower-cased command at the current counter; only comparisons use labels; unknown text writes nothing |
| CodeGen.CodeWriter.WritePushPop | src/edu/miracosta/cs220/CodeWriter.java:174-202 | appends the lines for push/pop of the lower-cased segment, with constant and static special-cased and others looked up in the table; false for a segment not in the table |
| CodeGen.ArithmeticLineCount | src/edu/miracosta/cs220/CodeWriter.java:136-161 | exactly the nine arithmetic names write code: 5, 3, 4 or 16 lines |
| CodeGen.ArithmeticLabelLines | src/edu/miracosta/cs220/CodeWriter.java:467-485 | only comparisons write label lines, at lines 11 and 13, and the two labels differ |
| CodeGen.PushPopLineCount | src/edu/miracosta/cs220/CodeWriter.java:174-202 | push/pop fails exactly for a segment outside the table (writing only "@null"), otherwise writes 6, 9, 5 or 12 lines and never a label |
| CodeGen.SegmentAddressing | src/edu/miracosta/cs220/CodeWriter.java:292-302 | pointer and temp are addressed directly, the other table segments through their pointer |
| CodeGenSemantics.IndexOffsetEffect | src/edu/miracosta/cs220/CodeWriter.java:292-302 | the offset lines leave D at the segment's start and A at the index, memory untouched |
| CodeGenSemantics.PushConstantEffect | src/edu/miracosta/cs220/CodeWriter.java:380-384 | push constant c puts c on top and raises SP by one, nothing else changes |
| CodeGenSemantics.PushMemoryEffect | src/edu/miracosta/cs220/CodeWriter.java:398-403 | push segment i copies segment[i] onto the stack and raises SP by one, nothing else changes |
| CodeGenSemantics.PushStaticEffect | src/edu/miracosta/cs220/CodeWriter.java:416-420 | push static i copies the static variable onto the stack and raises SP by one |
| CodeGenSemantics.PopToStaticEffect | src/edu/miracosta/cs220/CodeWriter.java:351-355 | pop static i moves the top into the static variable and lowers SP by one |
| CodeGenSemantics.PopToMemEffect | src/edu/miracosta/cs220/CodeWriter.java:329-338 | pop segment i moves the top into segment[i] and lowers SP, and leaves the address in RAM[5] |
| CodeGenSemantics.PushPopRoundTrip | src/edu/miracosta/cs220/CodeWriter.java:329-338 | push segment i then pop segment i leaves the cell and SP as they were; RAM[5] ends holding the cell's address (unless it is the cell), the cell just above the stack holds a copy of the value, and no other cell changes |
| CodeGenSemantics.PopToMemClobbersTemp0 | src/edu/miracosta/cs220/CodeWriter.java:329-338 | after such a pop, temp 0 holds the target address, whatever it held before |
| CodeGenSemantics.PopTemp1Example | src/edu/miracosta/cs220/CodeWriter.java:329-338 | pop temp 1 stores the top in temp 1 and leaves 6 in temp 0 |
| CodeGenSemantics.PopToMemSafeEffect | src/edu/miracosta/cs220/CodeWriter.java:329-338 | the pop parked in RAM[13] moves the top into segment[i], lowers SP, and leaves every other cell but RAM[13] as it was |
| CodeGenSemantics.OperatorLine | src/edu/miracosta/cs220/CodeWriter.java:436-440 | the operator line of add/sub/and/or computes the command's 16-bit result |
| CodeGenSemantics.BinaryEffect | src/edu/miracosta/cs220/CodeWriter.java:436-440 | a binary command replaces the two top values by its result and lowers SP by one |
| CodeGenSemantics.NotEffect | src/edu/miracosta/cs220/CodeWriter.java:452-456 | not replaces the top by its bitwise negation |
| CodeGenSemantics.NegEffect | src/edu/miracosta/cs220/CodeWriter.java:149-153 | neg (bitwise not, then +1) replaces the top by its two's-complement negation |
| CodeGenSemantics.NegMeaning | src/edu/miracosta/cs220/CodeWriter.java:149-153 | that negation is the signed negative except for -32768, and is its own inverse |
| CodeGenSemantics.PushPushAddExample | src/edu/miracosta/cs220/CodeWriter.java:136-161 | push constant 7, push constant 8, add leaves 15 on top, one above the old SP |
| ComparisonSemantics.TestLine | src/edu/miracosta/cs220/CodeWriter.java:474-475 | the test line of eq/lt/gt jumps on D with JEQ/JGT/JLT |
| ComparisonSemantics.TestMeaning | src/edu/miracosta/cs220/CodeWriter.java:472-475 | the jump on top - second is taken exactly when the command's signed comparison holds (for lt/gt: when the difference does not overflow) |
| ComparisonSemantics.ComparisonOverflowExample | src/edu/miracosta/cs220/CodeWriter.java:472-475 | -2 lt 32767 holds, yet the jump on the wrapped difference is not taken |
| ComparisonSemantics.InequalityRun | src/edu/miracosta/cs220/CodeWriter.java:467-485 | the comparison lines, run in place, end after the last line with SP one lower and -1 or 0 according to the jump |
| ComparisonSemantics.ComparisonEffect | src/edu/miracosta/cs220/CodeWriter.java:136-161 | eq/lt/gt as written, run in a program where their labels sit where the lines put them, replace the two top values by -1 if the comparison holds and 0 if not, SP one lower |
| ComparisonSemantics.AddThenPushFifteen | src/edu/miracosta/cs220/CodeWriter.java:136-161 | push constant 7, push constant 8, add, push constant 15 leaves two 15s on top of the old stack, 23 lines on |
| ComparisonSemantics.AddThenEqualExample | src/edu/miracosta/cs220/CodeWriter.java:136-161 | continuing with eq, the stack ends one above where it started with true (-1) on top |
| VirtualMachine.ConvertFileName | src/edu/miracosta/cs220/VirtualMachine.java:266-272 | the result ends in ".asm" after a dot-free prefix of the name that stops at its end or its first dot |
| VirtualMachine.ConvertDotless | src/edu/miracosta/cs220/VirtualMachine.java:266-272 | a name without a dot just gets ".asm" appended |
| VirtualMachine.ConvertCutsAtFirstDot | src/edu/miracosta/cs220/VirtualMachine.java:267-270 | the name is cut at its first dot, so a.b.vm becomes a.asm |
| VirtualMachine.ConvertIdempotent | src/edu/miracosta/cs220/VirtualMachine.java:266-272 | converting a converted name gives it back |
| VirtualMachine.Accept | src/edu/miracosta/cs220/VirtualMachine.java:50-52 | a name is accepted exactly when it ends in a dot, v and m, in any case |
| VirtualMachine.AcceptIgnoresCase | src/edu/miracosta/cs220/VirtualMachine.java:50-52 | acceptance does not depend on letter case: X.VM and x.vm pass, X.asm does not |
| VirtualMachine.BeginFile | src/edu/miracosta/cs220/VirtualMachine.java:182 | at each file the writer is told the converted .asm name |
| VirtualMachine.BeginFileKeepsPrefix | src/edu/miracosta/cs220/VirtualMachine.java:182 | the converted name never contains ".vm", so the static prefix never changes |
| VirtualMachine.StaticsOfFilesCollide | src/edu/miracosta/cs220/VirtualMachine.java:176-182 | so static i of any two files gets the same label |
| VirtualMachine.BeginFileCorrected | src/edu/miracosta/cs220/VirtualMachine.java:182 | the writer is told the .vm name itself |
| VirtualMachine.CorrectedPrefixSeparatesFiles | src/edu/miracosta/cs220/CodeWriter.java:102-108 | with the .vm name, files with different dot-free stems get different static labels |
| VirtualMachine.RouteOf | src/edu/miracosta/cs220/VirtualMachine.java:196-229 | no writer exactly for no kind or C_NONE; writeArithmetic exactly for C_ARITHMETIC with the command; writePushPop exactly for push/pop with arg1 and arg2 |
| VirtualMachine.RouteDeterminesKind | src/edu/miracosta/cs220/VirtualMachine.java:196-229 | different kinds are routed to different writer calls |
| VirtualMachine.Dispatch | src/edu/miracosta/cs220/VirtualMachine.java:196-229 | arithmetic lines append what writeArithmetic appends and advance the label counter by the labels they use; push/pop lines append what writePushPop appends, leave the counter alone, and report the translation stopped (completed false) exactly when the segment is outside the table; blank lines write nothing; the other kinds are reported unhandled and write nothing |
| VirtualMachine.BlankLineWritesNothing | src/edu/miracosta/cs220/VirtualMachine.java:196-229 | a blank or comment-only line reaches no writer |

## Left out

- File and console I/O are not modelled: `Scanner`, `PrintWriter`, `File`, `close`, the file chooser, `main` and the bootstrap prompt. The parser is given the file's lines, and the writer's output is a sequence of lines.
- The driver's three-argument `CodeWriter` constructor (bootstrap code) does not exist in `CodeWriter.java`, so it is not modelled.
- `writeLabel`, `writeGoto`, `writeIfGoto`, `writeCall`, `writeFunction` and `writeReturn` are called by the driver but not defined in `CodeWriter.java`. `Dispatch` reports these kinds as unhandled and writes nothing for them.
- `Integer.parseInt(arg2)` is not modelled. `Dispatch` receives the index already as a number, so the `NumberFormatException` on a bad index is not modelled.
- `labelCounter` and `translator` are `static` in the source, so all writers share them. Each modelled writer has its own, and its counter starts at 1. The driver makes one writer per translated program, and without a single command-line argument it loops back to the file chooser. In Java the counter then carries over: a second program translated in the same run gets branch labels continuing from where the first stopped, while a new modelled writer starts again at `_1`. For the first program of a run the labels are the same in both.
- CodeGen.CodeWriter.GetBranchLabel: the 32-bit wrap-around of `labelCounter` is not modelled; the counter is unbounded.
- The Java string functions are modelled on ASCII only. `toLowerCase` ignores locale and non-ASCII letters. `\s` is the ASCII whitespace set.
- The `NullPointerException` after an unknown segment is modelled as the method returning `false` after it writes `"@null"`. `Dispatch` passes that `false` on as `completed`; the exception itself, and the end of the translation it causes, are not modelled.
- The Parser getters (`getCommandType`, `getCommand`, `getArg1`, `getArg2`) are plain field reads, modelled as functions without a contract.
- `CodeWriter.getStaticLabel` is a plain function; its use is covered by the static-label lemmas.
- The Hack model covers only the instructions the writer emits. Labels are resolved through a given symbol table rather than by an assembler.
- The semantic lemmas assume the stack pointer stays between 16 and 65534. They also assume indexes below 32768, as an `@` instruction needs.
- ComparisonSemantics.ComparisonEffect: for `lt` and `gt` it holds only when top − second fits in 16 signed bits. On overflow the written code answers wrongly; `ComparisonOverflowExample` shows one such input.
- CodeGenSemantics.PopToMemEffect: only the straight-line pop is stated. An index at 32768 or above cannot be loaded by an `@` instruction and is not modelled.

## Findings

| source | as written | input that shows it | evidently intended | confidence | as-written member | corrected member |
|---|---|---|---|---|---|---|
| src/edu/miracosta/cs220/VirtualMachine.java:182 | the driver hands `setFileName` the converted `.asm` name; `setFileName` keeps the prefix only for a name containing ".vm", so the static prefix is never set | two files `Foo.vm` and `Bar.vm`, each with `push static 0`: both use the label `null.0` | hand `setFileName` the `.vm` name, so the prefixes are `Foo` and `Bar` | not executed | VirtualMachine.StaticsOfFilesCollide | VirtualMachine.CorrectedPrefixSeparatesFiles |
| src/edu/miracosta/cs220/CodeWriter.java:329-338 | pop to a segment parks the target address in `RAM[5]`, the first cell of the temp segment | `pop temp 1` stores the top in `RAM[6]` and overwrites temp 0 with 6 | park the address in `R13`, the translator's own scratch register | not executed | CodeGenSemantics.PopTemp1Example | CodeGenSemantics.PopToMemSafeEffect |

The writer class keeps the lines as written. `CodeGen.PopToMemLinesSafe` is
the corrected pop, and `CodeGenSemantics.PopToMemSafeEffect` proves that it
leaves every cell except `RAM[13]`, the target and SP unchanged.
