# Lox, modelled in Dafny

This project is a Dafny model of the core of Farsyte's Lox workspace. The workspace holds two implementations of the Lox scripting language, plus a small C exercise:

- **jlox**, the tree-walking interpreter in Java:
  - the recursive-descent `Parser`;
  - the statement and expression interpreter (`Interpeter.java`);
  - the earlier expression-only evaluator (`Interpreter.java`);
  - the two syntax-tree printers: parenthesised prefix (`AstPrinter`) and reverse Polish (`AstRpnPrinter`).
- **clox**, the bytecode virtual machine in C:
  - the array growth policy (`memory.h`);
  - the run-length table of source lines (`iline.c`);
  - the constant pool (`value.c`);
  - the keyword recogniser (`keyword.c`);
  - the two disassemblers (`chunk_debug.c`, `debug.c`);
  - the virtual machine's stack and dispatch loop (`vm.c`);
  - the stub scanner (`scanner.c`);
  - string objects (`object.c`);
  - command-line parsing (`options.c`).
- **c/hello**: the circular doubly linked list of strings (`list.c`).

Each source file has its own module. Source code written as expressions and recursion becomes datatypes, functions and lemmas: the keyword switch, the printers, the old evaluator and the interpreter's semantics. Code that updates state in place keeps that form:

- The clox structures (`ILine`, `ValueArray`, `VM`, the scanner state, the options counters, string objects) are classes with array fields.
- The parser is a class whose token cursor, `canBreak` flag and error list are fields.
- The jlox `Interpreter` is a class whose environment, heap, output and `locals` fields its visit methods update.
- The hello list is a ring of heap nodes.

Each method is proved against a specification function, and the properties of interest are lemmas about that function:

- The line table encodes exactly the lines written.
- The disassembler decodes what the encoder produced.
- Every keyword is recognised, and nothing else is.
- The parser's trees derive exactly the tokens it consumed, and respect operator precedence and left grouping.
- Assignment is seen by the next lookup.
- `while` absorbs `break`.
- The earlier evaluator agrees with the later interpreter wherever both are defined.
- Prefix output carries one pair of parentheses per operator.

Files:

| file | module | models |
|---|---|---|
| wrappers.dfy | Wrappers | the optional value standing for C's `NULL` and Java's `null` |
| clox_memory.dfy | Memory | `GROW_CAPACITY`, `GROW_ARRAY` |
| clox_iline.dfy | ILines | `iline.c` |
| clox_value.dfy | Values | `value.c` |
| clox_keyword.dfy | Keyword | `keyword.c` |
| clox_chunk_debug.dfy | ChunkDebug | `chunk_debug.c` |
| clox_debug.dfy | Debug | `debug.c` |
| clox_vm.dfy | VirtualMachine | `vm.c` |
| clox_scanner.dfy | Scanner | `scanner.c` |
| clox_object.dfy | Objects | `object.c` |
| clox_options.dfy | CommandLine | `options.c` |
| hello_list.dfy | HelloList | `c/hello/src/list.c` |
| jlox_tokens.dfy, jlox_ast.dfy | Tokens, Ast | the token and syntax-tree types the Java files use |
| jlox_parser.dfy | Parsing | `Parser.java` |
| jlox_values.dfy | LoxValues | Lox runtime values, truthiness and equality |
| jlox_environment.dfy | Environments | the environment chain as the interpreter uses it |
| jlox_interpreter.dfy | Interpreting | `Interpeter.java` |
| jlox_expr_eval.dfy | ExpressionEvaluator | `Interpreter.java` |
| jlox_printer.dfy | AstPrinting | `AstPrinter.java`, `AstRpnPrinter.java` |

Where the code behaves differently from what its documentation or help text suggests, the model follows the code:

- `--dryrun` and `--no-dryrun` raise and lower the *debug* counter (options.c:114-132). `CommandLine.DryrunLongOptionsMoveDebug` states this.
- The automatic REPL is not a single fallback. It runs again after each short-flag group and each unrecognised long option, as long as no file and no lone `-` has been seen (options.c:186-195). Recognised long options and `--` skip it. With no arguments at all, no REPL runs. `CommandLine.ShortFlagGroupsRepeatRepl` states the repetition.
- A function's parameter list is rejected only above 256 parameters (`> 255`), while call arguments are rejected from 256 arguments on (`>= 255` before adding one).
- The virtual machine's dispatch loop has no case for `OP_CONSTANT_LONG`. It steps over that opcode as one byte, although the disassembler reads it as four.
- `break` inside a function body that sits in a loop is accepted by the parser. At run time it unwinds out of the call to the enclosing loop.
- `list_find` is documented to return the header when the string is absent (list.h:72-73), but it returns NULL (list.c:105-120). `HelloList.Find` follows the code.
- `list_delete` is documented to return the header when nothing is removed, but it returns NULL (list.c:121-142). `HelloList.Delete` follows the code.
- When a loop body fails to parse, `canBreak` is not put back, so a later `break;` outside any loop is accepted (Parser.java:99-108). `Parsing.Parser.LoopBody` states this.

## Model

| member | source | states |
|---|---|---|
| Memory.GrowCapacity | c/clox/inc/memory.h:8-9 | the new capacity is at least 8; it is 8 below 8 and double the old one from 8 on, so it always exceeds a non-negative old capacity |
| Memory.Capacities | c/clox/inc/memory.h:8-9 | the sequence of capacities reached by n growths starts at the given capacity and has n + 1 entries |
| Memory.CapacitiesFromZero | c/clox/inc/memory.h:8-9 | growing from an empty array, the k-th capacity is 8 * 2^(k-1) |
| Memory.CapacitiesFromEight | c/clox/inc/memory.h:8-9 | growing from 8, the k-th capacity is 8 * 2^k |
| Memory.CapacitiesScale | c/clox/inc/memory.h:8-9 | from 8 on, doubling the starting capacity doubles every later capacity |
| Memory.GrowArray | c/clox/inc/memory.h:11-19 | a new count of zero frees (yields null); otherwise the result is a fresh array of the new count that keeps the first min(old, new) elements |
| ILines.LineAtFirst | c/clox/src/iline.c:61-83 | the line of an offset is the line of the first run whose end offset reaches it, or of the last run |
| ILines.LineAtDecodes | c/clox/src/iline.c:61-83 | a table that encodes a line sequence yields, for every written offset, exactly the line written there |
| ILines.EncodesExtend | c/clox/src/iline.c:27-59 | writing one more line keeps the encoding: either the last run is extended (same line) or a new run is appended |
| ILines.EncodesMerge | c/clox/src/iline.c:40-43 | a write with the same line as the last run moves that run's end to the new offset and still encodes all lines |
| ILines.EncodesAppend | c/clox/src/iline.c:45-58 | a write with a different line appends a run (offset, line) and still encodes all lines |
| ILines.ILine.constructor | c/clox/src/iline.c:7-14 | a new table is empty, with no storage, and encodes no lines |
| ILines.ILine.Init | c/clox/src/iline.c:7-14 | initialisation empties the table and its storage |
| ILines.ILine.Free | c/clox/src/iline.c:16-25 | freeing releases storage and leaves an empty, valid table |
| ILines.ILine.Write | c/clox/src/iline.c:27-59 | the written lines gain the new line at the end; the run table is merged or appended as above and stays a valid encoding |
| ILines.ILine.GetLine | c/clox/src/iline.c:61-83 | the binary search returns the line recorded for every written offset; 0 for an empty table; the first run's line before it and the last run's line beyond it |
| Values.ValueArray.constructor | c/clox/src/value.c:6-13 | a new pool holds no values and no storage |
| Values.ValueArray.Init | c/clox/src/value.c:6-13 | initialisation empties the pool |
| Values.ValueArray.Free | c/clox/src/value.c:15-24 | freeing releases storage and leaves an empty pool |
| Values.ValueArray.Write | c/clox/src/value.c:26-46 | the contents gain the value at the end; the capacity grows by the growth policy exactly when the pool is full, otherwise the storage is kept |
| Keyword.CaseReturnMaybe | c/clox/src/keyword.c:24-29 | the keyword's type is returned exactly when the remaining characters match its tail, otherwise identifier |
| Keyword.KeywordTokenType | c/clox/src/keyword.c:8-62 | a lexeme of at most one character is an identifier; the result is an identifier or a keyword type |
| Keyword.KeywordTokenTypeIsLookUp | c/clox/src/keyword.c:8-62 | the switch agrees with looking the lexeme up in the table of Lox keywords |
| Keyword.KeywordTokenTypeNotKeyword | c/clox/src/keyword.c:8-62 | a lexeme that is not a keyword is an identifier |
| Keyword.KeywordsAreRecognised | c/clox/src/keyword.c:31-57 | every Lox keyword gets its own token type |
| Keyword.FirstTwoCharsDetermineKeyword | c/clox/src/keyword.c:21-58 | the first character, and for f and t the second, single out the keyword, which is why the nested switch is enough |
| Keyword.NoKeywordIsAPrefix | c/clox/src/keyword.c:31-57 | no keyword is a proper prefix of another |
| Keyword.PrefixesAndExtensionsAreIdentifiers | c/clox/src/keyword.c:24-29 | a proper prefix or an extension of a keyword is an identifier |
| Keyword.OnlyPrefixMatters | c/clox/src/keyword.c:8-62 | only the first n characters of the text are read |
| ChunkDebug.Encode | c/clox/src/chunk_debug.c:86-115 | an instruction occupies one to four bytes |
| ChunkDebug.Width | c/clox/src/chunk_debug.c:36-75 | every opcode is one, two or four bytes wide |
| ChunkDebug.DisassembleInstruction | c/clox/src/chunk_debug.c:36-75 | decoding advances past the instruction, and the bytes read are exactly the encoding of the instruction returned: simple opcodes take one byte, OP_CONSTANT one index byte, OP_CONSTANT_LONG a little-endian 24-bit index |
| ChunkDebug.DecodeEncode | c/clox/src/chunk_debug.c:36-115 | decoding an encoded instruction, anywhere in the code, gives that instruction back |
| ChunkDebug.DecodeFromFlattens | c/clox/src/chunk_debug.c:22-34 | re-encoding the decoded instruction list gives back the code |
| ChunkDebug.FlattenDecodes | c/clox/src/chunk_debug.c:22-34 | decoding the encoding of any instruction list gives the list back |
| ChunkDebug.DisassembleChunk | c/clox/src/chunk_debug.c:22-34 | the loop visits exactly the instruction offsets of the chunk, strictly increasing and in range, and decodes every instruction |
| ChunkDebug.ShowsBarIffSameLine | c/clox/src/chunk_debug.c:43-49 | the line column shows the bar exactly when the offset is not the first one and its line equals the previous offset's line |
| Debug.DisassembleInstruction | c/clox/src/debug.c:52-74 | every byte is one instruction; OP_RETURN is recognised exactly on its opcode, and any other opcode is reported as unknown with its value |
| Debug.DecodeAll | c/clox/src/debug.c:19-29 | one decoding per byte, which gives its byte back (nothing is lost), and every OP_RETURN byte is recognised as a return |
| Debug.DisassembleChunk | c/clox/src/debug.c:19-29 | the loop visits every offset in order and decodes each one |
| VirtualMachine.ReturnEnd | c/clox/src/vm.c:39-68 | a runnable chunk ends its run right after an OP_RETURN, inside the code |
| VirtualMachine.RunPrintsLoadedConstants | c/clox/src/vm.c:39-68 | running code assembled from instructions prints the constants loaded before the first OP_RETURN, in order; unknown opcodes are stepped over as one byte |
| VirtualMachine.VM.constructor | c/clox/src/vm.c:12-14 | a new machine has an empty stack and no code |
| VirtualMachine.VM.InitVM | c/clox/src/vm.c:12-14 | initialisation empties the stack and changes nothing else |
| VirtualMachine.VM.ResetStack | c/clox/src/vm.c:19-21 | the stack becomes empty and nothing else changes |
| VirtualMachine.VM.Push | c/clox/src/vm.c:23-26 | the value is added on top of the stack; code and ip are unchanged |
| VirtualMachine.VM.Pop | c/clox/src/vm.c:28-31 | the top value is returned and removed; code and ip are unchanged |
| VirtualMachine.VM.Interpret | c/clox/src/vm.c:33-37 | the chunk is installed and run from offset 0, reports OK, and prints what the run semantics prints |
| VirtualMachine.VM.Run | c/clox/src/vm.c:39-68 | the dispatch loop prints each loaded constant, stops after OP_RETURN with OK and leaves the stack height as it found it |
| Scanner.TokenAt | c/clox/src/scanner.c:26-34 | the token is EOF exactly at the terminating NUL, and an error token otherwise |
| Scanner.ScannerState.constructor | c/clox/src/scanner.c:17-24 | a scanner starts at offset 0 of its source on line 1 |
| Scanner.ScannerState.InitScanner | c/clox/src/scanner.c:17-24 | re-initialisation restarts at offset 0 on line 1 |
| Scanner.ScannerState.IsAtEnd | c/clox/src/scanner.c:36-41 | the scanner is at its end exactly when the current character is NUL |
| Scanner.ScannerState.MakeToken | c/clox/src/scanner.c:43-55 | the token's pointer and length denote exactly the characters scanned since the lexeme started, with the given type and the current line |
| Scanner.ScannerState.ErrorToken | c/clox/src/scanner.c:57-69 | an error token's pointer and length denote exactly the message's characters, whatever the source, on the current line |
| Scanner.ScannerState.ScanToken | c/clox/src/scanner.c:26-34 | the lexeme start moves to the current position and the token is the one at that position |
| Objects.ObjString.AllocateObject | c/clox/src/object.c:15-22 | a new object carries the requested type |
| Objects.AllocateString | c/clox/src/object.c:33-41 | a fresh string object wraps the given characters and length |
| Objects.CopyString | c/clox/src/object.c:53-61 | a fresh, NUL-terminated copy of the first length characters, not sharing the caller's buffer, which is unchanged |
| CommandLine.ParseExtendsEvents | c/clox/src/options.c:79-197 | parsing only appends events; it never drops one already produced |
| CommandLine.AfterDoubleDashAllFiles | c/clox/src/options.c:94-97 | after `--` every remaining argument is a file |
| CommandLine.ShortFlagsCount | c/clox/src/options.c:154-183 | a flag group without help raises each counter by the number of its letters |
| CommandLine.ShortFlagsHelpStops | c/clox/src/options.c:176-181 | a help letter in a group ends the program after the letters before it take effect |
| CommandLine.DryrunLongOptionsMoveDebug | c/clox/src/options.c:114-132 | `--dryrun` raises and `--no-dryrun` lowers the debug counter, as the code is written |
| CommandLine.ShortFlagGroupsRepeatRepl | c/clox/src/options.c:192-195 | with the automatic REPL on, each flag group is followed by a REPL event |
| CommandLine.Options.constructor | c/clox/src/options.c:12 | the counters start at zero |
| CommandLine.Options.ParseOptions | c/clox/src/options.c:79-197 | the loop's counters, events and exit flag are those of the parsing semantics above |
| HelloList.Node.constructor | c/hello/src/list.c:165-180 | a new node is a ring of one, holding its data |
| HelloList.InsertContents | c/hello/src/list.c:191-202 | linking a node before position k inserts its string at the matching place in the list's contents |
| HelloList.RemoveContents | c/hello/src/list.c:209-221 | unlinking node j removes exactly its string from the contents |
| HelloList.Data | c/hello/src/list.c:27-31 | the header has no data; any other node returns its string |
| HelloList.Next | c/hello/src/list.c:43-47 | the next node in ring order, wrapping from the last node to the header |
| HelloList.Prev | c/hello/src/list.c:59-63 | the previous node in ring order, wrapping from the header to the last node |
| HelloList.New | c/hello/src/list.c:72-75 | a new list is a lone header with no contents |
| HelloList.Link | c/hello/src/list.c:191-202 | a lone node is spliced in before l and the ring stays doubly linked |
| HelloList.Insert | c/hello/src/list.c:89-96 | a fresh node holding the string is placed before l; the contents gain the string there (at the end when l is the header) |
| HelloList.Find | c/hello/src/list.c:108-120 | the first node after l holding the string, or null when no node after l holds it |
| HelloList.Del | c/hello/src/list.c:209-221 | unlinking a node returns its predecessor and leaves a valid ring without it (null for a lone node) |
| HelloList.Delete | c/hello/src/list.c:134-142 | the first node after l holding the string is removed and its predecessor returned; when none exists nothing changes and null is returned |
| HelloList.Free | c/hello/src/list.c:149-153 | every node after l is released in ring order, and l last |
| Parsing.BinaryOperatorWithin | j/jlox/src/farsyte/lox/Parser.java:263-313 | a binary node parsed at a level has an operator of that level or a tighter one |
| Parsing.RightOperandBindsTighter | j/jlox/src/farsyte/lox/Parser.java:263-313 | operators are left-associative: a binary node's right operand uses only operators of strictly tighter levels |
| Parsing.BinaryOperatorsUpToExcludes | j/jlox/src/farsyte/lox/Parser.java:263-313 | the operator sets of the precedence levels are disjoint from tighter levels' |
| Parsing.ParsedLoosens | j/jlox/src/farsyte/lox/Parser.java:213-382 | an expression produced at a tighter level is also valid at every looser level |
| Parsing.BreaksAllowedInLoop | j/jlox/src/farsyte/lox/Parser.java:90-97 | a statement whose breaks are allowed outside a loop is also allowed inside one |
| Parsing.DesugarFor | j/jlox/src/farsyte/lox/Parser.java:149-175 | a for loop becomes a while loop whose body runs the increment after the body, wrapped in a block with the initializer when there is one |
| Parsing.DesugarForWellFormed | j/jlox/src/farsyte/lox/Parser.java:125-176 | the desugared loop is well formed and its breaks sit inside the loop |
| Parsing.Parser.constructor | j/jlox/src/farsyte/lox/Parser.java:16-18 | parsing starts at the first token with no diagnostics, outside any loop |
| Parsing.Parser.Advance | j/jlox/src/farsyte/lox/Parser.java:405-408 | the cursor moves by one unless at EOF, and the token passed over is returned |
| Parsing.Parser.Match | j/jlox/src/farsyte/lox/Parser.java:384-392 | true exactly when the current token (not EOF) has one of the types; only then the cursor moves past it |
| Parsing.Parser.Error | j/jlox/src/farsyte/lox/Parser.java:422-425 | the diagnostic is recorded and the cursor is unchanged |
| Parsing.Parser.Consume | j/jlox/src/farsyte/lox/Parser.java:394-398 | an expected token is returned and skipped; otherwise the message is reported at the current token and parsing fails |
| Parsing.Parser.Synchronize | j/jlox/src/farsyte/lox/Parser.java:427-445 | the cursor moves forward (unless at EOF) to the first statement boundary, skipping no boundary |
| Parsing.Parser.Parse | j/jlox/src/farsyte/lox/Parser.java:20-27 | all tokens are consumed; the statements, one per declaration and in order, derive the consumed tokens one after another (a failed declaration leaves a gap); every statement is well formed, and when nothing is reported every break sits in a loop |
| Parsing.Parser.Declaration | j/jlox/src/farsyte/lox/Parser.java:29-39 | a declaration always makes progress; a parsed one derives exactly the tokens consumed, and a failure is reported and leaves the cursor at a statement boundary |
| Parsing.Parser.VarDeclaration | j/jlox/src/farsyte/lox/Parser.java:41-51 | success consumed the name, then `;` or `=`, an expression deriving the tokens up to the `;`, and the `;`; the declaration holds that name token and expression; failure is reported |
| Parsing.Parser.FunctionDeclaration | j/jlox/src/farsyte/lox/Parser.java:53-77 | success consumed the name, `(`, the parameter identifiers separated by commas, `)`, `{` and the body block, which the declaration holds; parameters beyond 256 each leave a diagnostic |
| Parsing.Parser.Statement | j/jlox/src/farsyte/lox/Parser.java:79-88 | a parsed statement is well formed and derives exactly the tokens consumed, keyword included; an `if` left without an else (OpenIf) is never followed by an unconsumed `else`; failures are reported |
| Parsing.Parser.BreakStatement | j/jlox/src/farsyte/lox/Parser.java:90-97 | break is accepted only inside a loop and reported outside one |
| Parsing.Parser.WhileStatement | j/jlox/src/farsyte/lox/Parser.java:99-108 | success consumed `(`, the condition's tokens, `)` and the body's tokens; breaks in the body are allowed, and the loop flag is restored |
| Parsing.Parser.LoopBody | j/jlox/src/farsyte/lox/Parser.java:103-106 | the body is parsed with break allowed; the outer loop flag is restored on success and stays set after a failure |
| Parsing.Parser.IfStatement | j/jlox/src/farsyte/lox/Parser.java:110-123 | success consumed `(`, the condition's tokens, `)`, the then-branch's tokens and, when there is an else branch, `else` and its tokens; an `else` goes to the nearest `if`: an if without an else is never followed by `else`, and a then-branch that is an open if never leaves one for the outer `if` |
| Parsing.Parser.Condition | j/jlox/src/farsyte/lox/Parser.java:100-102 | success consumed `(`, an assignment-level expression deriving the tokens up to the `)`, and the `)`; a missing parenthesis is reported |
| Parsing.Parser.ElseBranch | j/jlox/src/farsyte/lox/Parser.java:117-120 | no else branch exactly when the next token is not `else`, and then nothing is consumed; otherwise `else` and a statement deriving the tokens after it |
| Parsing.Parser.ForStatement | j/jlox/src/farsyte/lox/Parser.java:125-176 | success is the desugaring of the initializer, condition, increment and body that derive the consumed tokens in order, with the loop flag restored |
| Parsing.Parser.ForHeader | j/jlox/src/farsyte/lox/Parser.java:125-147 | success consumed `(`, an initializer clause, a condition clause ending at `;` and an increment clause ending at `)`, each deriving its tokens; the initializer is a variable declaration or an expression statement |
| Parsing.Parser.ForInitializer | j/jlox/src/farsyte/lox/Parser.java:127-135 | the clause consumed is `;` alone, `var` and a variable declaration, or an expression statement, and the result holds what those tokens derive |
| Parsing.Parser.ForClause | j/jlox/src/farsyte/lox/Parser.java:137-147 | a clause ends at its closing token and is absent exactly when that token comes first; otherwise the expression derives the tokens before it |
| Parsing.Parser.Block | j/jlox/src/farsyte/lox/Parser.java:178-197 | the statements derive, in order, the tokens up to the `}` consumed last; each is well formed |
| Parsing.Parser.ExpressionStatement | j/jlox/src/farsyte/lox/Parser.java:199-204 | the expression derives the consumed tokens before the final `;` |
| Parsing.Parser.PrintStatement | j/jlox/src/farsyte/lox/Parser.java:206-211 | the expression derives the consumed tokens before the final `;` |
| Parsing.Parser.Expression | j/jlox/src/farsyte/lox/Parser.java:213-216 | the tree derives exactly the consumed tokens at the assignment level, and the next token cannot continue any expression level (EndsBefore) |
| Parsing.Parser.Assignment | j/jlox/src/farsyte/lox/Parser.java:218-235 | the tree derives exactly the consumed tokens; an assignment holds its name token and the position of its `=`, and the next token cannot continue any expression level, `=` included (EndsBefore) |
| Parsing.Parser.Or | j/jlox/src/farsyte/lox/Parser.java:237-248 | the tree derives exactly the consumed tokens at the or level, and parsing stopped before a token that neither this level nor a tighter one could continue with (EndsBefore), so no longer expression was available |
| Parsing.Parser.And | j/jlox/src/farsyte/lox/Parser.java:250-261 | the tree derives exactly the consumed tokens at the and level, and parsing stopped before a token that neither this level nor a tighter one could continue with (EndsBefore), so no longer expression was available |
| Parsing.Parser.Equality | j/jlox/src/farsyte/lox/Parser.java:263-274 | the tree derives exactly the consumed tokens at the equality level, and parsing stopped before a token that neither this level nor a tighter one could continue with (EndsBefore), so no longer expression was available |
| Parsing.Parser.Comparison | j/jlox/src/farsyte/lox/Parser.java:276-287 | the tree derives exactly the consumed tokens at the comparison level, and parsing stopped before a token that neither this level nor a tighter one could continue with (EndsBefore), so no longer expression was available |
| Parsing.Parser.Term | j/jlox/src/farsyte/lox/Parser.java:289-300 | the tree derives exactly the consumed tokens at the term level, and parsing stopped before a token that neither this level nor a tighter one could continue with (EndsBefore), so no longer expression was available |
| Parsing.TermParsesMinusChain | j/jlox/src/farsyte/lox/Parser.java:289-300 | on `n1 - n2 - n3` what the term method can return (a term-level derivation ending where EndsBefore holds) is the whole chain grouped to the left, `(n1 - n2) - n3` |
| Parsing.Parser.Factor | j/jlox/src/farsyte/lox/Parser.java:302-313 | the tree derives exactly the consumed tokens at the factor level, and parsing stopped before a token that neither this level nor a tighter one could continue with (EndsBefore), so no longer expression was available |
| Parsing.Parser.Unary | j/jlox/src/farsyte/lox/Parser.java:315-324 | the tree derives exactly the consumed tokens: a prefix operator token and its operand's tokens, or a call; the next token cannot continue a call (EndsBefore) |
| Parsing.Parser.Call | j/jlox/src/farsyte/lox/Parser.java:326-340 | the tree derives exactly the consumed tokens: a primary followed by argument lists, the innermost call first; it stops only before a token other than `(` (EndsBefore) |
| Parsing.Parser.Arguments | j/jlox/src/farsyte/lox/Parser.java:343-352 | at least one argument; the arguments derive the comma-separated tokens consumed, and those from the 256th on each leave a diagnostic (their number is stated, not the message text or the token it is reported at) |
| Parsing.Parser.FinishCall | j/jlox/src/farsyte/lox/Parser.java:342-359 | the call wraps the callee, its arguments derive the comma-separated tokens consumed before the closing `)`, which is its paren; arguments from the 256th on each leave a diagnostic |
| Parsing.Parser.Primary | j/jlox/src/farsyte/lox/Parser.java:361-382 | the tree derives exactly the consumed tokens: a literal holds its token's value, a variable its name token and position, a grouping its parentheses and inner expression |
| Parsing.Parser.Peek | j/jlox/src/farsyte/lox/Parser.java:410-412 | the token at the cursor; on the last token it is EOF |
| Parsing.Parser.Previous | j/jlox/src/farsyte/lox/Parser.java:414-416 | the token before the cursor, never the terminating EOF |
| Parsing.Parser.IsAtEnd | j/jlox/src/farsyte/lox/Parser.java:418-420 | the cursor is on EOF, as it always is on the last token |
| Parsing.Parser.Check | j/jlox/src/farsyte/lox/Parser.java:400-403 | true exactly when the next token has the type, and never for EOF or at the last token |
| Parsing.Parser.Parameters | j/jlox/src/farsyte/lox/Parser.java:61-70 | the parameters are the identifiers consumed, separated by commas; those beyond 256 each leave a diagnostic (their number is stated, not the message text or the token it is reported at) |
| Parsing.DerivesParsed | j/jlox/src/farsyte/lox/Parser.java:213-382 | a tree deriving tokens at a level respects the precedence levels (Parsed) |
| Parsing.MinusGroupsLeft | j/jlox/src/farsyte/lox/Parser.java:289-300 | `n1 - n2 - n3` derives exactly one term, `(n1 - n2) - n3`; TermParsesMinusChain applies it to the term method |
| Parsing.NumberDerives | j/jlox/src/farsyte/lox/Parser.java:361-382 | a lone number token derives its literal and nothing else |
| LoxValues.FromLiteral | j/jlox/src/farsyte/lox/Interpeter.java:295-297 | a literal's value is the same nil, boolean, number or string |
| LoxValues.IsTruthy | j/jlox/src/farsyte/lox/Interpeter.java:368-372 | only nil and false are falsey |
| LoxValues.IsEqual | j/jlox/src/farsyte/lox/Interpeter.java:374-378 | equality is value equality, and nil equals only nil |
| Environments.Parent | j/jlox/src/farsyte/lox/Interpeter.java:51-64 | an enclosing environment was created before the one it encloses |
| Environments.Owner | j/jlox/src/farsyte/lox/Interpeter.java:403 | the environment found for a name binds it and lies on the chain; the current one wins when it binds the name |
| Environments.Define | j/jlox/src/farsyte/lox/Interpeter.java:143 | defining keeps every environment and every enclosing link |
| Environments.Assign | j/jlox/src/farsyte/lox/Interpeter.java:166 | assignment fails exactly for an undefined name, and keeps every enclosing link |
| Environments.Ancestor | j/jlox/src/farsyte/lox/Interpeter.java:401 | the environment at a distance lies on the chain |
| Environments.AssignAt | j/jlox/src/farsyte/lox/Interpeter.java:164 | assignment at a distance fails exactly when the chain is shorter, and keeps every enclosing link |
| Environments.AncestorFollowsLinks | j/jlox/src/farsyte/lox/Interpeter.java:164 | walking the chain depends only on the enclosing links |
| Environments.OwnerFollowsBindings | j/jlox/src/farsyte/lox/Interpeter.java:403 | name lookup depends only on which environments bind the name |
| Environments.GetAfterDefine | j/jlox/src/farsyte/lox/Interpeter.java:143 | a defined name reads back as the defined value |
| Environments.DefineKeepsOtherNames | j/jlox/src/farsyte/lox/Interpeter.java:143 | defining a name changes no other name's value |
| Environments.GetAfterAssign | j/jlox/src/farsyte/lox/Interpeter.java:166 | an assigned name reads back as the new value, and other names are unchanged |
| Environments.GetAtAfterAssignAt | j/jlox/src/farsyte/lox/Interpeter.java:164 | assigning at a distance is read back at that distance |
| Environments.GetAtOwner | j/jlox/src/farsyte/lox/Interpeter.java:398-405 | reading at the distance of the name's owner equals the dynamic lookup |
| Interpreting.Decimal | j/jlox/src/farsyte/lox/Interpeter.java:266-273 | a count is printed as decimal digits without leading zeros |
| Interpreting.DecimalRoundTrip | j/jlox/src/farsyte/lox/Interpeter.java:266-273 | reading the printed digits back gives the count |
| Interpreting.CodeUnits | j/jlox/src/farsyte/lox/Interpeter.java:210-241 | the UTF-16 code units of a character, as a Java string holds them: one unit outside the surrogate range below U+10000, otherwise a high surrogate followed by a low one |
| Interpreting.CodeUnitsDetermine | j/jlox/src/farsyte/lox/Interpeter.java:210-241 | one character's code units are never a prefix of another's, so the encoding reads back uniquely |
| Interpreting.Utf16Injective | j/jlox/src/farsyte/lox/Interpeter.java:210-241 | two strings with the same UTF-16 code units are equal |
| Interpreting.CompareToZero | j/jlox/src/farsyte/lox/Interpeter.java:210-241 | String.compareTo is zero exactly for equal strings |
| Interpreting.CompareToAntisymmetric | j/jlox/src/farsyte/lox/Interpeter.java:210-241 | swapping the strings negates String.compareTo |
| Interpreting.SurrogatesSortBelowHighBmp | j/jlox/src/farsyte/lox/Interpeter.java:210-241 | strings order by UTF-16 code units, not by character: "\uFFFF" compares above "😀", whose first unit is the surrogate U+D83D |
| Interpreting.Comparison | j/jlox/src/farsyte/lox/Interpeter.java:210-241 | a comparison succeeds exactly for two numbers or two strings, yields a boolean, and otherwise reports the operand error at the operator; two strings are compared through CompareTo, whose code-unit order SurrogatesSortBelowHighBmp, CompareToZero and CompareToAntisymmetric state |
| Interpreting.ComparisonConverse | j/jlox/src/farsyte/lox/Interpeter.java:210-241 | a < b agrees with b > a, and a <= b with b >= a |
| Interpreting.BinaryOp | j/jlox/src/farsyte/lox/Interpeter.java:173-252 | `+` adds numbers or concatenates onto a string (stringifying a non-string right operand) and fails otherwise; `-`, `*`, `/` need numbers; a quotient times the divisor is the dividend and division by zero is an error; equality is IsEqual; unknown operators are not implemented |
| Interpreting.EqualityOperatorsComplement | j/jlox/src/farsyte/lox/Interpeter.java:243-246 | `!=` is always the negation of `==` |
| Interpreting.UnaryOp | j/jlox/src/farsyte/lox/Interpeter.java:332-345 | `!` flips truthiness; `-` succeeds exactly on numbers and yields the additive inverse, with an operand error otherwise |
| Interpreting.StripPointZero | j/jlox/src/farsyte/lox/Interpeter.java:384-388 | the text loses a trailing ".0" exactly when it has one |
| Interpreting.Stringify | j/jlox/src/farsyte/lox/Interpeter.java:380-392 | a string prints without quotes; a number prints as its Double text or that text less a trailing ".0", and is shortened only when the text ends in ".0"; an instance prints ending in " instance" and a function as `<fn …>` |
| Interpreting.InstanceGet | j/jlox/src/farsyte/lox/Interpeter.java:279-287 | a field is read when present; the only failure is the undefined-property error at the name |
| Interpreting.SetField | j/jlox/src/farsyte/lox/Interpeter.java:313-324 | only the instance's field changes, and no other object does |
| Interpreting.Bind | j/jlox/src/farsyte/lox/Interpeter.java:268-275 | a call's environment binds exactly the parameter names |
| Interpreting.BindParameters | j/jlox/src/farsyte/lox/Interpeter.java:268-275 | a parameter whose name no later parameter repeats is bound to its own argument; a repeated name keeps the later argument, as Java's define does |
| Interpreting.MethodTable | j/jlox/src/farsyte/lox/Interpeter.java:84-94 | one closure per method is added to the heap, and the table maps each method name to its last closure |
| Interpreting.EndLoop | j/jlox/src/farsyte/lox/Interpeter.java:148-157 | a loop never passes a break on |
| Interpreting.LookUpVariable | j/jlox/src/farsyte/lox/Interpeter.java:398-405 | a resolved name reads the value bound at its distance (failing only when that ancestor does not exist); an unresolved name reads the globals' value and reports an undefined-variable error when missing |
| Interpreting.Eval | j/jlox/src/farsyte/lox/Interpeter.java:354-356 | evaluation restores the current environment, never shrinks the environment and object arenas, only appends to the output, and never leaks a return |
| Interpreting.EvalAssign | j/jlox/src/farsyte/lox/Interpeter.java:160-170 | an assignment yields the assigned value |
| Interpreting.EvalBinary | j/jlox/src/farsyte/lox/Interpeter.java:173-252 | a binary expression keeps the state discipline of Eval |
| Interpreting.EvalArguments | j/jlox/src/farsyte/lox/Interpeter.java:258-261 | one value per argument |
| Interpreting.EvalCall | j/jlox/src/farsyte/lox/Interpeter.java:255-276 | a call keeps the state discipline of Eval |
| Interpreting.Invoke | j/jlox/src/farsyte/lox/Interpeter.java:263-275 | a non-callable value and a wrong argument count are errors at the parenthesis; calling a class adds a fresh instance; the function-call path is stated by InvokeFunction |
| Interpreting.InvokeFunction | j/jlox/src/farsyte/lox/Interpeter.java:263-275 | calling a function with the right argument count runs its body as a block in a new environment enclosing the closure, with each parameter not repeated later bound to its argument; a Return from the body is the call's value, a normal end yields nil, and any other signal passes on |
| Interpreting.EvalGet | j/jlox/src/farsyte/lox/Interpeter.java:279-287 | reading a property changes only what evaluating the receiver changes |
| Interpreting.EvalLogical | j/jlox/src/farsyte/lox/Interpeter.java:300-310 | a logical expression keeps the state discipline of Eval |
| Interpreting.EvalSet | j/jlox/src/farsyte/lox/Interpeter.java:313-324 | setting a property keeps the state discipline of Eval |
| Interpreting.EvalUnary | j/jlox/src/farsyte/lox/Interpeter.java:332-345 | a unary expression keeps the state discipline of Eval |
| Interpreting.Exec | j/jlox/src/farsyte/lox/Interpeter.java:66-68 | a statement restores the current environment, never shrinks the environment and object arenas, and only appends to the output |
| Interpreting.ExecStatements | j/jlox/src/farsyte/lox/Interpeter.java:41-49 | a statement list keeps the discipline of Exec |
| Interpreting.ExecBlockIn | j/jlox/src/farsyte/lox/Interpeter.java:51-64 | after the block, normal or abrupt, the previous environment is current again |
| Interpreting.ExecBlock | j/jlox/src/farsyte/lox/Interpeter.java:73-76 | a block runs in a new environment |
| Interpreting.ExecClass | j/jlox/src/farsyte/lox/Interpeter.java:84-94 | a class adds its methods' closures and then the class object, and binds its name to the class |
| Interpreting.ExecFunction | j/jlox/src/farsyte/lox/Interpeter.java:103-107 | a declaration adds a closure over the current environment and binds its name to it |
| Interpreting.ExecIf | j/jlox/src/farsyte/lox/Interpeter.java:110-117 | an if statement keeps the discipline of Exec |
| Interpreting.ExecPrint | j/jlox/src/farsyte/lox/Interpeter.java:120-124 | print succeeds exactly when its expression does, and then appends the stringified value to the output |
| Interpreting.ExecReturn | j/jlox/src/farsyte/lox/Interpeter.java:127-133 | return always unwinds, with nil when it has no value |
| Interpreting.ExecVar | j/jlox/src/farsyte/lox/Interpeter.java:136-145 | a variable without initializer is defined as nil in the current environment |
| Interpreting.ExecWhile | j/jlox/src/farsyte/lox/Interpeter.java:148-157 | a while loop never lets a break escape |
| Interpreting.AssignThenLookUp | j/jlox/src/farsyte/lox/Interpeter.java:160-170 | after an assignment, looking the same variable up gives the assigned value |
| Interpreting.LogicalShortCircuit | j/jlox/src/farsyte/lox/Interpeter.java:300-310 | `or` stops at a truthy and `and` at a falsey left value, which is then the result; otherwise the right operand is evaluated after the left |
| Interpreting.BlockRestoresEnvironment | j/jlox/src/farsyte/lox/Interpeter.java:51-64 | every statement leaves the current environment as it found it |
| Interpreting.WhileCatchesBreak | j/jlox/src/farsyte/lox/Interpeter.java:148-157 | executing a while loop never ends in a break |
| Interpreting.BinaryOperandsInOrder | j/jlox/src/farsyte/lox/Interpeter.java:173-176 | the left operand runs first and its output comes first; a throwing left operand is the result and the right operand never runs; otherwise the right operand starts from the left's final state |
| Interpreting.CallEvaluatesBeforeChecks | j/jlox/src/farsyte/lox/Interpeter.java:255-266 | the callee runs first, then the arguments; a throwing callee or argument stops the call there, and the not-callable check happens only after every argument has run |
| Interpreting.StatementsInOrder | j/jlox/src/farsyte/lox/Interpeter.java:41-49 | running a list is running its first j statements and, only when they all complete normally, the rest from the state they leave; so the first abrupt statement ends the list |
| Interpreting.IfChoosesByTruthiness | j/jlox/src/farsyte/lox/Interpeter.java:110-117 | exactly one branch runs, the then-branch when the condition is truthy, from the state the condition left; no else branch means normal completion |
| Interpreting.Interpreter.constructor | j/jlox/src/farsyte/lox/Interpeter.java:15-25 | the globals hold only the clock native and are current; heap, output and resolutions are empty |
| Interpreting.Interpreter.Resolve | j/jlox/src/farsyte/lox/Interpeter.java:394-396 | the expression's depth is recorded and nothing else changes |
| Interpreting.Interpreter.Interpret | j/jlox/src/farsyte/lox/Interpeter.java:41-49 | the new state is that of executing the statements in order |
| Interpreting.Interpreter.InterpretExpression | j/jlox/src/farsyte/lox/Interpeter.java:32-39 | the new state is that of printing the expression's value |
| Interpreting.Interpreter.ExecuteBlock | j/jlox/src/farsyte/lox/Interpeter.java:51-64 | the method follows ExecBlockIn, including restoring the environment |
| Interpreting.Interpreter.Execute | j/jlox/src/farsyte/lox/Interpeter.java:66-68 | the method follows Exec |
| Interpreting.Interpreter.VisitBlockStmt | j/jlox/src/farsyte/lox/Interpeter.java:73-76 | the method follows ExecBlock |
| Interpreting.Interpreter.VisitClassStmt | j/jlox/src/farsyte/lox/Interpeter.java:84-94 | the method follows ExecClass |
| Interpreting.Interpreter.VisitFunctionStmt | j/jlox/src/farsyte/lox/Interpeter.java:103-107 | the method follows ExecFunction |
| Interpreting.Interpreter.VisitIfStmt | j/jlox/src/farsyte/lox/Interpeter.java:110-117 | the method follows ExecIf |
| Interpreting.Interpreter.VisitPrintStmt | j/jlox/src/farsyte/lox/Interpeter.java:120-124 | the method follows ExecPrint |
| Interpreting.Interpreter.VisitReturnStmt | j/jlox/src/farsyte/lox/Interpeter.java:127-133 | the method follows ExecReturn |
| Interpreting.Interpreter.VisitVarStmt | j/jlox/src/farsyte/lox/Interpeter.java:136-145 | the method follows ExecVar |
| Interpreting.Interpreter.VisitWhileStmt | j/jlox/src/farsyte/lox/Interpeter.java:148-157 | the loop follows ExecWhile, so no break escapes it |
| Interpreting.Interpreter.Evaluate | j/jlox/src/farsyte/lox/Interpeter.java:354-356 | the method follows Eval |
| Interpreting.Interpreter.VisitAssignExpr | j/jlox/src/farsyte/lox/Interpeter.java:160-170 | the method follows EvalAssign |
| Interpreting.Interpreter.VisitBinaryExpr | j/jlox/src/farsyte/lox/Interpeter.java:173-252 | the method follows EvalBinary |
| Interpreting.Interpreter.VisitCallExpr | j/jlox/src/farsyte/lox/Interpeter.java:255-276 | the argument loop and call follow EvalCall |
| Interpreting.Interpreter.CallValue | j/jlox/src/farsyte/lox/Interpeter.java:263-275 | the call follows Invoke |
| Interpreting.Interpreter.VisitGetExpr | j/jlox/src/farsyte/lox/Interpeter.java:279-287 | the method follows EvalGet |
| Interpreting.Interpreter.VisitLogicalExpr | j/jlox/src/farsyte/lox/Interpeter.java:300-310 | the method follows EvalLogical |
| Interpreting.Interpreter.VisitSetExpr | j/jlox/src/farsyte/lox/Interpeter.java:313-324 | the method follows EvalSet |
| Interpreting.Interpreter.VisitUnaryExpr | j/jlox/src/farsyte/lox/Interpeter.java:332-345 | the method follows EvalUnary |
| ExpressionEvaluator.Arithmetic | j/jlox/src/farsyte/lox/Interpreter.java:41-55 | arithmetic succeeds exactly on two numbers (a zero divisor excepted) and yields a number |
| ExpressionEvaluator.Relational | j/jlox/src/farsyte/lox/Interpreter.java:57-64 | comparisons succeed exactly on two numbers and yield a boolean |
| ExpressionEvaluator.BinaryOperator | j/jlox/src/farsyte/lox/Interpreter.java:36-75 | `+` adds numbers or concatenates strings and fails on mixed operands; equality is IsEqual; other operators reach the unreachable end |
| ExpressionEvaluator.UnaryOperator | j/jlox/src/farsyte/lox/Interpreter.java:20-33 | succeeds exactly for `!` and for `-` on a number; `!` answers the opposite of the operand's truthiness, `-` a number that sums with the operand to zero, and a non-number under `-` is the operand error; any other operator is not implemented |
| ExpressionEvaluator.UnaryTwice | j/jlox/src/farsyte/lox/Interpreter.java:20-33 | applying `!` twice gives the operand's truthiness and `-` twice gives the operand back |
| ExpressionEvaluator.LiteralAndGrouping | j/jlox/src/farsyte/lox/Interpreter.java:10-17 | a literal evaluates to its value, and a grouping to its inner expression's value |
| ExpressionEvaluator.BinaryAgrees | j/jlox/src/farsyte/lox/Interpreter.java:36-75 | where the old evaluator's operator succeeds, the later interpreter's gives the same value |
| ExpressionEvaluator.UnaryAgrees | j/jlox/src/farsyte/lox/Interpreter.java:20-33 | where the old unary operator succeeds, the later interpreter's agrees |
| ExpressionEvaluator.BinaryNodeAgrees | j/jlox/src/farsyte/lox/Interpreter.java:36-75 | on a binary node whose operands agree, both evaluators agree |
| ExpressionEvaluator.UnaryNodeAgrees | j/jlox/src/farsyte/lox/Interpreter.java:20-33 | on a unary node whose operand agrees, both evaluators agree |
| ExpressionEvaluator.Evaluate | j/jlox/src/farsyte/lox/Interpreter.java:5-75 | the earlier tree-walking evaluate: operands left to right, the first error stops it; what it computes is stated by ExpressionEvaluator.LaterInterpreterAgrees (the same value as the later interpreter wherever it succeeds) and ExpressionEvaluator.EvaluatePlainValues (only nil, booleans, numbers and strings) |
| ExpressionEvaluator.EvaluatePlainValues | j/jlox/src/farsyte/lox/Interpreter.java:5-75 | evaluating a binary, grouping, literal or unary expression yields only nil, a boolean, a number or a string |
| ExpressionEvaluator.LaterInterpreterAgrees | j/jlox/src/farsyte/lox/Interpreter.java:5-7 | on every expression the old evaluator can evaluate, the later interpreter yields the same value and leaves the state unchanged |
| AstPrinting.LiteralTextIsStringify | j/jlox/src/farsyte/lox/AstPrinter.java:20-23 | a printed literal is what the interpreter's stringify shows for its value, except that a number keeps the trailing ".0" stringify removes |
| AstPrinting.FormatText | j/jlox/src/farsyte/lox/AstPrinter.java:31-41 | the specification of format that AstPrinting.Format is proved against; what it gives for one and two children is stated by AstPrinting.FormatShapes |
| AstPrinting.Print | j/jlox/src/farsyte/lox/AstPrinter.java:4-6 | printing an expression gives its text in the printer's style |
| AstPrinting.Accept | j/jlox/src/farsyte/lox/AstPrinter.java:9-29 | the visitor's dispatch gives the expression's text |
| AstPrinting.Format | j/jlox/src/farsyte/lox/AstPrinter.java:31-41 | the loop builds the formatted text of the children's texts |
| AstPrinting.FormatPrefix | j/jlox/src/farsyte/lox/AstPrinter.java:31-41 | the prefix loop builds the parenthesised form |
| AstPrinting.FormatPostfix | j/jlox/src/farsyte/lox/AstRpnPrinter.java:6-15 | the postfix loop builds the reverse Polish form |
| AstPrinting.FormatShapes | j/jlox/src/farsyte/lox/AstPrinter.java:31-41 | with one or two children the prefix form is "(name a)" / "(name a b)" and the postfix form "a name" / "a b name" |
| AstPrinting.PrefixShapes | j/jlox/src/farsyte/lox/AstPrinter.java:9-29 | binary, grouping and unary nodes print as "(op l r)", "(group e)" and "(op e)" |
| AstPrinting.PostfixShapes | j/jlox/src/farsyte/lox/AstRpnPrinter.java:6-15 | the same nodes print as "l r op", "e group" and "e op" |
| AstPrinting.PrefixParenthesised | j/jlox/src/farsyte/lox/AstPrinter.java:31-41 | without parentheses in the leaves, the prefix text has exactly one "(" and one ")" per operator node |
| AstPrinting.PostfixUnparenthesised | j/jlox/src/farsyte/lox/AstRpnPrinter.java:6-15 | a character that no leaf contains (such as a parenthesis) does not occur in the reverse Polish text |
| AstPrinting.PrefixLongerByParentheses | j/jlox/src/farsyte/lox/AstRpnPrinter.java:6-15 | the prefix text is longer than the reverse Polish text by exactly two characters per operator node |
| AstPrinting.BlockText | j/jlox/src/farsyte/lox/AstRpnPrinter.java:18-29 | a statement group opens with "{" and a newline and closes with "} " followed by its name |
| AstPrinting.LinesPerStatement | j/jlox/src/farsyte/lox/AstRpnPrinter.java:18-29 | without newlines inside statements, the body holds exactly one newline per statement |
| AstPrinting.FormatBlock | j/jlox/src/farsyte/lox/AstRpnPrinter.java:18-29 | the loop builds the block text of the statements' texts |

## Left out

- Real I/O is not modelled. Output, diagnostics and printed values are sequences the model appends to. This covers `printf`, `fprintf`, jlox's `System.out` and the Lox error reporter.
- Floating point: Lox numbers are mathematical reals.
  - NaN, infinities, rounding and `-0.0` are not modelled.
  - The number-to-text conversion (`Double.toString`) and the clock's reading are parameters.
- Interpreting.Eval and the other Exec/Eval functions take a fuel bound. A run that exhausts it ends in an out-of-fuel signal, so non-terminating Lox programs are not described beyond that bound.
- Java exceptions that neither interpreter catches become result values.
  - In the earlier evaluator, a cast of a non-number to `double` becomes a class-cast or null-pointer result.
  - In the later interpreter, a missing scope at a resolved distance (a null dereference in Java) becomes a null-pointer signal.
- The earlier evaluator's division by zero, which yields an infinity or NaN in Java, becomes a non-finite result.
- The later interpreter's NaN and infinity checks after a division cannot fire on reals; only its division-by-zero error is modelled.
- The interpreter's environments, functions, classes and instances live in Environment.java, LoxFunction.java, LoxClass.java and LoxInstance.java, which are not part of this model. They are modelled as indices into a sequence of frames and a sequence of heap objects.
- The Resolver, the scanner of jlox, Lox.java, the compiler, the tables and the built-in self tests of clox are not part of this model.
- Interpreting.Interpreter.Resolve: records depths only for variable and assignment expressions, keyed by their name or `=` token position. Java accepts any expression object as a key.
- `this` and `super` evaluate to a not-implemented signal, as in the source.
- AstPrinting.FormatBlock: AstPrinter.java implements only Expr.Visitor<String>, and AstRpnPrinter.java extends it without a statement visitor, so the text of each statement is a parameter.
- The property receiver of get and set expressions is the field `receiver`, because `object` is reserved in Dafny.
- VirtualMachine.VM.Push: requires room on the stack, and VirtualMachine.VM.Pop requires a non-empty stack. The C code does not check either, and c/clox/inc/vm.h declares neither a stack nor STACK_MAX, so the stack size is a constructor argument.
- freeVM has an empty body, so the model has nothing to capture for it.
- The opcodes OP_ADD to OP_DIVIDE, named by chunk_debug.c but not declared in c/clox/inc/opcode.h (lines 7-12 declare only OP_CONSTANT, OP_CONSTANT_LONG, OP_NEGATE and OP_RETURN), get placeholder byte values distinct from the others.
- memory.h's FREE_ARRAY is modelled as dropping the array reference: Dafny has no explicit deallocation.
- list.c's allocation-failure assertions (`malloc`, `strdup`) are not modelled: allocation always succeeds in Dafny.
- HelloList.Free: states the release order only; the nodes stay allocated in the model.
- The help text of options.c is not modelled; asking for help is an event.
- ChunkDebug.DisassembleInstruction: requires the whole instruction to lie within the code. A last OP_CONSTANT or OP_CONSTANT_LONG whose operand bytes are cut off by `count` makes the C read past the chunk (chunk_debug.c:86-115); that read is not modelled.
- ChunkDebug.DisassembleChunk: requires the chunk to split into whole instructions, for the same reason: a chunk ending in a truncated constant instruction (chunk_debug.c:22-34) is not modelled.
- Memory.GrowCapacity: integers are unbounded, so the doubling never overflows. In C, `capacity * 2` on an `int` overflows from 2^30 on; that overflow is not modelled.
- VirtualMachine.VM.Run: requires the code from the start to reach an OP_RETURN, with every executed OP_CONSTANT's index byte inside the code and below the constant count; VirtualMachine.VM.Interpret requires the same. Code without a reachable OP_RETURN, with a final OP_CONSTANT whose index byte is cut off, or with an index at or beyond the constant count makes the C read past the chunk or the constant pool (vm.c:40-41, 51-62); those reads are not modelled.
- Parsing.Parser.IfStatement: an `else` is stated to belong to the nearest `if` through directly nested `if` statements (OpenIf). When a loop stands between them, as in `if (a) while (c) if (b) s; else t;`, the contracts of IfStatement, Statement, Block and Parse also admit the outer `if` taking the `else`, which the method never does.
- Parsing.Parser.Parameters: the "Can't have more than 255 parameters." diagnostics are stated by their number only; their text and the token they are reported at are not stated.
- Parsing.Parser.Arguments: the "Can't have more than 255 arguments." diagnostics are stated by their number only; their text and the token they are reported at are not stated.
- Parsing.Parser.Assignment: a non-variable target is stated as a reported failure with no `=` left unconsumed, not as the exact "Invalid assignment target." diagnostic at the `=` token.
