# The super tiny compiler, modelled in Dafny

This project models three versions of the "super tiny compiler". Each one turns
Lisp-style calls such as `(add 2 (subtract 4 2))` into C-style calls such as
`add(2,subtract(4,2));`.

- **The C# compiler** runs both ways.
  - The compiler is `tokenizer` → `parser`/`walk` → `transformer` (over the
    preorder `traverser`) → `codeGenerator`.
  - The decompiler is `detokenizer` → `deparser`/`dewalk` → `detransformer`
    (over `detraverser`) → `decodeGenerator`.
- **The JavaScript tokenizer** is a hardened forward tokenizer. It tracks each
  token's start and end `Position` (index, line, column) and adds string
  literals.
- **The Python compiler** runs forward only. It tokenizes over a
  `BacktrackingGenerator`. It reads number literals with `int` and writes them
  with `str`. It joins call arguments with `", "`.

Every stage is a pure function that returns a `Result`. Where the source
throws, the model returns `Err`:

- an unknown character is `UnknownCharacter`;
- a read past the end of the input or of the token list is `UnexpectedEnd`.
  This covers the C# `input[++current]` reads and every unchecked
  `tokens[...]` read;
- a token that cannot start an expression is `UnexpectedToken`.

Trees are shared between the versions:

- `Ast.LispNode` is a `Call` or a `Literal`. `Ast.CNode` is an
  `ExpressionStatement`, a `CallExpression`, an `Identifier` or a
  `NumberLiteral`.
- The program root is its own datatype in each tree.
- Both trees are generic in the type of names and literal values. The C# code
  uses strings for both. The Python code uses token values: a string, or the
  `int` of a digit run.

The source hands results up through a mutable `Context` list. The model
replaces that with recursion that returns the new node. The
`TraversalBuilds*` lemmas show that this produces the same nodes as running
the visitor callbacks over the preorder traversal. `TraversalBuildsTree`
shows that pushing those nodes onto their parents' `Context` lists builds the
same tree.

Main results:

- **Round trip (C#).** Take a Lisp program whose names are letter runs, whose
  literals are digit runs and whose last top-level item is a call.
  - Compiling its decompiled text gives the generated code of its
    transformation.
  - Decompiling that code gives the text back.
  - At the level of trees, detransforming the deparsed, detokenized generated
    code gives the program back.
- **Parser and spelling.** The C# and Python parsers read back every program
  from its token spelling. A successful C# parse accounts for every token.
- **Tokenizer success.** The C# tokenizer succeeds exactly when every
  character is known and the text does not end inside a digit or letter run.
  The Python tokenizer succeeds exactly when every character is known.
- **JavaScript vs C#.** Wherever the C# tokenizer succeeds, the JavaScript
  tokenizer returns the same tokens. Each JavaScript token spells the input
  between its positions. Token starts strictly increase. Positions are the
  true line and column whenever no string literal holds a line feed.
- **Python vs C#.** Take a program both can carry whose literals have no
  leading zeros. The Python output is the C# output with a space after every
  comma.
- **Worked examples.** The `test.py` example holds stage by stage, and so do
  the inputs on which the versions differ.

## Model

| member | source | states |
|---|---|---|
| Tokenizer.Tokenize | the-super-thiny-compiler-net-cn.cs:25-106 | Every token returned is a one-character paren, or a non-empty run of digits (number) or of letters (name). A failure is either an unknown character that occurs in the input, or a read past the end of the input. |
| Tokenizer.TokenizeKeepsText | the-super-thiny-compiler-net-cn.cs:25-106 | On success, the token texts concatenated are exactly the input with its whitespace removed: only whitespace is dropped, and nothing is reordered. |
| Tokenizer.TokenizeSucceedsIff | the-super-thiny-compiler-net-cn.cs:25-106 | The tokenizer succeeds if and only if every character is a paren, whitespace, a digit or a letter, and the last character is not a digit or a letter. A run at the very end reads past the input at lines 72 and 92. |
| Tokenizer.TokenizeSpaced | the-super-thiny-compiler-net-cn.cs:25-106 | Any sequence of well-formed tokens, written out with a space after each, tokenizes back to exactly that sequence. |
| Tokenizer.TokenizeParen | the-super-thiny-compiler-net-cn.cs:35-56 | `(` or `)` yields one single-character paren token in front of the tokens of the rest. |
| Tokenizer.TokenizeWhitespace | the-super-thiny-compiler-net-cn.cs:58-63 | A whitespace character yields no token. |
| Tokenizer.TokenizeNumberRun | the-super-thiny-compiler-net-cn.cs:65-82 | A maximal digit run, followed by a non-digit, yields one number token holding the whole run. |
| Tokenizer.TokenizeNameRun | the-super-thiny-compiler-net-cn.cs:84-100 | A maximal letter run, followed by a non-letter, yields one name token holding the whole run. |
| Tokenizer.TokenizeAt | the-super-thiny-compiler-net-cn.cs:35-102 | At any cursor: a paren yields its token; whitespace yields nothing; a character no rule accepts is the error, whatever follows it. |
| Tokenizer.TokenizeAtRun | the-super-thiny-compiler-net-cn.cs:65-100 | A digit or letter run at a cursor either reaches the end of the input (an error) or yields one token holding exactly the run, with scanning going on after it. |
| Tokenizer.TokenizerLoop | the-super-thiny-compiler-net-cn.cs:25-106 | The source's imperative cursor loop, with its inner run loops, returns the same tokens or error as the recursive definition. |
| Tokenizer.ReadRun | the-super-thiny-compiler-net-cn.cs:68-73 | The inner run loop stops at the end of the maximal run, and the value it collects is the input between the start and the stop. |
| Parser.Walk | the-super-thiny-compiler-net-cn.cs:131-170 | A successful `walk` moves the cursor forward by at least one token and never past the end. It reads a literal exactly when the token is a number. A token that is neither a number nor `(` fails with its own kind. |
| Parser.WalkParams | the-super-thiny-compiler-net-cn.cs:156-166 | A successful params loop moves the cursor forward, past the closing paren, and never past the end. |
| Parser.ParseSpelled | the-super-thiny-compiler-net-cn.cs:114-170 | Parsing the token spelling of any Lisp program gives that program back: one body element per top-level expression, in order, params in order. |
| Parser.ParseFromSpelled | the-super-thiny-compiler-net-cn.cs:124-127 | From any cursor at which the remaining tokens spell a list of nodes, the top-level loop reads exactly those nodes. |
| Parser.WalkSpelled | the-super-thiny-compiler-net-cn.cs:131-170 | `walk` reads a number token as its literal and advances one token. It reads a spelled call as that call and stops right after its closing paren. |
| Parser.WalkParamsSpelled | the-super-thiny-compiler-net-cn.cs:156-166 | Given the spelling of some params followed by `)`, the params loop reads those params in order and consumes the `)`. |
| Parser.ParseConsumesAll | the-super-thiny-compiler-net-cn.cs:114-130 | After a successful parse, the values of the program's spelling are the values of the input tokens: every token is accounted for, in order. |
| Parser.WalkConsumes | the-super-thiny-compiler-net-cn.cs:131-170 | The values of the tokens `walk` consumes are the values of the spelling of the node it returns. The name token's kind is not checked. |
| Parser.WalkParamsConsumes | the-super-thiny-compiler-net-cn.cs:156-166 | The tokens the params loop consumes spell its params followed by the closing paren. |
| Traverser.LispVisitsAllConcat | the-super-thiny-compiler-net-cn.cs:182-185 | Visiting a concatenation of siblings visits the first list, then the second. |
| Transformer.TransformNode | the-super-thiny-compiler-net-cn.cs:226-261 | The result is an `ExpressionStatement` if and only if the node is a call whose parent is not a call. Below a call there is no statement. A literal stays a literal and nothing else becomes one. |
| Transformer.TransformAll | the-super-thiny-compiler-net-cn.cs:223-262 | Siblings are transformed one for one, in order, each under the same parent. |
| Transformer.Transform | the-super-thiny-compiler-net-cn.cs:213-265 | There is one C item per top-level expression, in order. Exactly the calls become statements. |
| Transformer.TraversalBuildsTransform | the-super-thiny-compiler-net-cn.cs:178-265 | The nodes the visitor callbacks create, run over the preorder traversal, are the nodes of the transformed tree in creation order. So the source's single pass and the structural recursion create the same nodes in the same order. |
| Transformer.TraversalBuildsTree | the-super-thiny-compiler-net-cn.cs:213-265 | Replaying the `Context` lists over the preorder traversal builds exactly the transformed tree. Each created node is pushed onto the list of its parent, starting from the program's `Body`, and every visit is used. |
| Transformer.ReplayNode | the-super-thiny-compiler-net-cn.cs:236-261 | For one subtree: its visits replayed, with the rest of the traversal after them, give its transformation and leave the rest untouched. |
| Transformer.ShellsOfNode | the-super-thiny-compiler-net-cn.cs:186-205 | For one subtree: the callbacks along its preorder traversal create the nodes of its transformation, in order. |
| CodeGenerator.GenerateAll | the-super-thiny-compiler-net-cn.cs:643-644 | `Map(codeGenerator)` renders each node once, in order. |
| CodeGenerator.GenerateLines | the-super-thiny-compiler-net-cn.cs:273-288 | When no name or value holds a line feed, the output of a non-empty program has exactly one line per top-level item. |
| CodeGenerator.GenerateNodeLineFree | the-super-thiny-compiler-net-cn.cs:279-288 | Rendering a statement, call, identifier or number adds no line feed of its own. |
| Compiler.CompileBlank | the-super-thiny-compiler-net-cn.cs:301-309 | Input made only of whitespace, including the empty string, compiles to the empty output. |
| Compiler.TokenizeBlank | the-super-thiny-compiler-net-cn.cs:58-63 | Input made only of whitespace yields no tokens. |
| Detokenizer.Detokenize | the-super-thiny-compiler-net-cn.cs:324-426 | Every token is a one-character `(`, `)`, `,` or `;` of paren kind, or a non-empty digit or letter run. A failure is an unknown character of the input or a read past its end. |
| Detokenizer.DetokenizeKeepsText | the-super-thiny-compiler-net-cn.cs:324-426 | On success, the token texts concatenated are the input with its whitespace removed. |
| Detokenizer.DetokenizePunct | the-super-thiny-compiler-net-cn.cs:358-420 | `(`, `)`, `,` and `;` each yield one paren-kind token holding that character. |
| Detokenizer.DetokenizeWhitespace | the-super-thiny-compiler-net-cn.cs:333-338 | A whitespace character yields no token. |
| Detokenizer.DetokenizeNumberRun | the-super-thiny-compiler-net-cn.cs:370-387 | A maximal digit run, followed by a non-digit, yields one number token holding the whole run. |
| Detokenizer.DetokenizeNameRun | the-super-thiny-compiler-net-cn.cs:340-356 | A maximal letter run, followed by a non-letter, yields one name token holding the whole run. |
| Detokenizer.DetokenizeStep | the-super-thiny-compiler-net-cn.cs:329-423 | Each turn of the loop consumes at least one character. The tokens it emits spell the visible part of what it consumed. |
| Deparser.Dewalk | the-super-thiny-compiler-net-cn.cs:452-511 | A successful `dewalk` moves the cursor forward by at least one token and never past the end. It reads a literal exactly when the token is a number. A paren token fails as an unexpected paren. |
| Deparser.DewalkSkipsOpen | the-super-thiny-compiler-net-cn.cs:483-485 | The token after a name is never checked: replacing it with any token leaves the result of `dewalk` unchanged. |
| Deparser.DewalkFrame | the-super-thiny-compiler-net-cn.cs:452-511 | `dewalk` depends only on the tokens from its cursor on. |
| Deparser.DewalkFinalCall | the-super-thiny-compiler-net-cn.cs:499-504 | A call whose `)` is the last token fails with a read past the end, because the token after the `)` is read to look for a `;`. |
| Deparser.DeparseLoneCall | the-super-thiny-compiler-net-cn.cs:499-504 | So a program that is a single call with no `;` after it does not deparse. |
| Deparser.DewalkArgs | the-super-thiny-compiler-net-cn.cs:487-500 | A successful argument loop moves the cursor forward, past the closing paren, and never past the end. |
| Deparser.DeparseSpelled | the-super-thiny-compiler-net-cn.cs:434-511 | Deparsing the token spelling of generated code gives back every item of the program in order, with each statement unwrapped to its call. Separators are skipped, and one trailing `;` per call is consumed. |
| Deparser.DewalkItem | the-super-thiny-compiler-net-cn.cs:452-507 | A top-level item is read up to and including its `;`. |
| Deparser.DewalkSpelled | the-super-thiny-compiler-net-cn.cs:452-507 | An argument is read back from its spelling, and a `;` right after a call is consumed with it. |
| Deparser.DewalkArgsSpelled | the-super-thiny-compiler-net-cn.cs:487-500 | Arguments spelled with commas between them and followed by `)` are read back in order, and the `)` is consumed. |
| Deparser.DewalkArgsSkip | the-super-thiny-compiler-net-cn.cs:489-493 | A `,` or `;` inside the argument list is skipped and is never an argument. |
| Deparser.DewalkArgsClose | the-super-thiny-compiler-net-cn.cs:487-500 | At `)` the argument loop ends with no arguments, one token further on. |
| Detransformer.DetransformNode | the-super-thiny-compiler-net-cn.cs:570-593 | A C node adds at most one Lisp node to its parent's list, and it adds exactly one if and only if it is a literal or a call. |
| Detransformer.DetransformTransformNode | the-super-thiny-compiler-net-cn.cs:560-596 | Detransforming the unwrapped transformation of any Lisp node gives the node back. |
| Detransformer.DetransformTransformAll | the-super-thiny-compiler-net-cn.cs:560-596 | The same holds for any list of Lisp nodes: the detransformer inverts the transformer below the top level. |
| Detransformer.DetransformDropsStatements | the-super-thiny-compiler-net-cn.cs:540-541 | Applied directly to the transformer's output, the detransformer keeps only the top-level literals. The callback of a call under a statement writes to the statement's own `Context`, which nothing reads. |
| Detransformer.TraversalBuildsDetransform | the-super-thiny-compiler-net-cn.cs:519-596 | For a tree without statements, the callbacks run over the preorder `detraverser` traversal create the nodes of the detransformed tree, in order. |
| Detransformer.ShellsOfNode | the-super-thiny-compiler-net-cn.cs:529-552 | For one subtree without statements: the callbacks along its traversal create the nodes of its detransformation. The callee visit adds nothing. |
| DecodeGenerator.DecodeAll | the-super-thiny-compiler-net-cn.cs:609-613 | `Map(decodeGenerator)` renders each node once, in order. |
| RoundTrip.TokenizeDecoded | the-super-thiny-compiler-net-cn.cs:604-617 | The forward tokenizer turns the decoded text of a good program into exactly the token spelling that the parser reads back as that program. |
| RoundTrip.DetokenizeGenerated | the-super-thiny-compiler-net-cn.cs:273-293 | The detokenizer turns the generated code of a good program's transformation into exactly the token spelling that the deparser reads back. |
| RoundTrip.TransformedItems | the-super-thiny-compiler-net-cn.cs:213-265 | Every top-level item of a transformation is one the deparser reads. Unwrapping its statement gives the transformation of the node under a call. |
| RoundTrip.CompileDecoded | the-super-thiny-compiler-net-cn.cs:301-309 | The compiler maps the decoded text of a good program to the generated code of its transformation. |
| RoundTrip.DecompileGenerated | the-super-thiny-compiler-net-cn.cs:626-633 | The decompiler maps the generated code of a good program's transformation back to the program's decoded text. |
| RoundTrip.AstRoundTrip | the-super-thiny-compiler-net-cn.cs:434-596 | For a good program, detokenizing and deparsing the generated code of its transformation succeeds, and detransforming the result gives the program back. |
| RoundTrip.DecompileCompile | the-super-thiny-compiler-net-cn.cs:301-309 | On the decoded text of a good program, the compiler succeeds and the decompiler turns its output back into that text. |
| RoundTrip.CompileDecompile | the-super-thiny-compiler-net-cn.cs:626-633 | On the generated code of a good program, the decompiler succeeds and the compiler turns its output back into that code. |
| Scenarios.CompileAddTwoTwo | the-super-thiny-compiler-net-cn.cs:301-309 | `(add 2 2)` compiles to `add(2,2);`, and `add(2,2);` decompiles to `(add 2 2)`. |
| Scenarios.CompileUnclosed | the-super-thiny-compiler-net-cn.cs:156-162 | An unclosed call runs out of tokens inside the params loop. |
| Scenarios.CompileStrayClose | the-super-thiny-compiler-net-cn.cs:169 | `)` alone tokenizes, then fails in the parser as an unexpected paren. |
| Scenarios.CompileUnknown | the-super-thiny-compiler-net-cn.cs:102 | `@` stops the compiler with an unknown-character error. |
| JsTokenizer.Step | 1-tokenizer.js:63-240 | One turn of the loop strictly advances the cursor and emits at most one token. Any token emitted starts at the cursor and spells the input between its positions. An error names an unknown character, or an unclosed quote. |
| JsTokenizer.ReadRun | 1-tokenizer.js:131-157 | A number or name token is the maximal run of its class at the cursor. Its value is the input from its start index to its end index, and a run that reaches the end of the input ends cleanly. |
| JsTokenizer.ReadString | 1-tokenizer.js:166-206 | A string token's value is exactly the text between its quotes, with no quote in it. A quote with no closing quote after it is an `UnterminatedString` error, reported from the quote to the last character. |
| JsTokenizer.Scan | 1-tokenizer.js:63-240 | Every token spells the input between its start and end. The paren rule is end == start for `(` and one character on for `)`. Token starts strictly increase. Every error is explained by the input. |
| JsTokenizer.WhereStep | 1-tokenizer.js:27-36 | Moving the true position over one character is `nextCh`, and then `nextLine` when the character is a line feed. |
| JsTokenizer.ScanTracksPositions | 1-tokenizer.js:111-120 | Started at the true position, on any input whose scan succeeds and whose string tokens hold no line feed, every token's start and end are the true line and column of their indices. Line feeds between tokens move to the next line, as in `(f "a")` followed by a line feed and `(g)`. |
| JsTokenizer.StepTracksPositions | 1-tokenizer.js:63-240 | One turn started at the true position ends at the true position, and its token lies where its positions say, unless that token is a string holding a line feed. |
| JsTokenizer.ScanString | 1-tokenizer.js:166-206 | A quoted text yields one string token spanning both quotes, and scanning goes on after the closing quote. |
| JsScenarios.UnknownAt | 1-tokenizer.js:239 | `(add 2 @)` fails on `@`, at index 7, line 1, column 8. |
| JsScenarios.UnterminatedAt | 1-tokenizer.js:185-191 | An opening quote never closed fails with the quote's position and the position of the last character. |
| JsScenarios.LineFeedInString | 1-tokenizer.js:185-196 | A line feed inside a string literal does not move the cursor to the next line. The name after such a string is reported on line 1 although it lies on line 2. |
| JsScenarios.RunAtEnd | 1-tokenizer.js:143-150 | `42` tokenizes cleanly here, to one number token from column 1 to column 3. The C# tokenizer reads past the end on the same input. |
| TokenizersAgree.TokenizersAgree | 1-tokenizer.js:63-240 | Wherever the C# tokenizer succeeds, the JavaScript tokenizer succeeds with the same tokens, kind for kind and text for text. |
| TokenizersAgree.StepAgrees | 1-tokenizer.js:63-240 | One turn of the JavaScript loop reads what one step of the C# tokenizer reads, and both continue at the same index. |
| PyNumbers.NatToString | super_tiny_compiler_unannotated.py:181-182 | `str` of a number is a non-empty digit run that starts with `0` only when it is `"0"`. |
| PyNumbers.DecimalOfString | super_tiny_compiler_unannotated.py:8 | `int` of `str(n)` is `n`. |
| PyNumbers.StringOfDecimal | super_tiny_compiler_unannotated.py:8 | `str` of `int(s)` is `s` for every digit run without a leading zero. |
| PyTokenizer.TakeWhile | super_tiny_compiler_unannotated.py:33-38 | `take_while` yields the longest run from the cursor that satisfies the predicate. It leaves the cursor on the first character that fails, so that character is not consumed. |
| PyTokenizer.TakeWhileExample | test.py:50-54 | On `abcde`: `next` yields `a`, `take_while` up to `e` yields `bcd`, and the next `next` yields `e`. |
| PyTokenizer.Scan | super_tiny_compiler_unannotated.py:45-63 | Every token is a one-character paren, a number whose value is an `int`, or a non-empty letter run. Every error is a character of the input that no rule accepts. |
| PyTokenizer.ScanSucceedsIff | super_tiny_compiler_unannotated.py:55-63 | From any index, the tokenizer succeeds if and only if every remaining character is whitespace, a paren, a digit or a letter. A run at the end of the input ends cleanly. |
| PyTokenizer.TokenizeSucceedsIff | super_tiny_compiler_unannotated.py:45-63 | The same for the whole input. |
| PyTokenizer.TokenizeAgrees | super_tiny_compiler_unannotated.py:45-63 | Wherever the C# tokenizer succeeds, the Python tokenizer yields the same tokens, with each number's digits replaced by their `int`. |
| PyParser.Walk | super_tiny_compiler_unannotated.py:76-87 | A successful `walk` consumes at least one token. It reads a literal exactly when the token is a number. A `(` as the last token fails at `next`. Any token that is neither a number nor `(` fails with its own type. No other failure occurs. |
| PyParser.WalkParams | super_tiny_compiler_unannotated.py:82-86 | The params loop never moves past the end of the tokens, and it fails only as `walk` does. |
| PyParser.ParseFrom | super_tiny_compiler_unannotated.py:89-92 | The top-level loop never returns more nodes than tokens remain. |
| PyParser.ParseSpelled | super_tiny_compiler_unannotated.py:74-92 | Parsing the token spelling of any program gives that program back: one body node per top-level expression, in order, params in order. |
| PyParser.ParseUnclosed | super_tiny_compiler_unannotated.py:82-86 | When the last top-level item is a call, its closing paren may be left out: the end of the tokens closes the call, and the parse still succeeds with the same program. |
| PyParser.WalkParamsSpelled | super_tiny_compiler_unannotated.py:82-86 | Params spelled in order and followed by `)`, or by the end of the tokens, are read back in order. The `)` is consumed if it is there. |
| PyParser.UnclosedFrom | super_tiny_compiler_unannotated.py:89-92 | From any cursor where the rest is a spelling whose final `)` is missing, the top-level loop reads back the spelled nodes. |
| PyGenerator.Render | super_tiny_compiler_unannotated.py:176-182 | `str` of a number is its canonical decimal text, which reads back as the number. A name is printed as is. |
| PyGenerator.GenerateWidens | super_tiny_compiler_unannotated.py:159-182 | On any comma-free tree, the Python rendering is the C# rendering of the same tree with a space after every comma. So arguments are joined by `", "` where C# joins them by `","`. |
| PyGenerator.GenerateProgramWidens | super_tiny_compiler_unannotated.py:162-164 | The same holds for whole programs, whose lines are joined by a line feed in both. |
| PyGenerator.WidenJoin | super_tiny_compiler_unannotated.py:162-174 | Widening text joined by any separator gives the widened parts joined by the widened separator. So C# arguments joined by `","` become the Python arguments joined by `", "`, and program lines joined by a line feed stay joined by a line feed. |
| PyCompiler.TransformConverted | super_tiny_compiler_unannotated.py:134-153 | The Python transformer on the Python reading of a plain C# tree, printed with `str`, gives the C# transformation of the original. No name or literal in it prints with a comma. |
| PyCompiler.SpellConverted | super_tiny_compiler_unannotated.py:74-92 | Reading the C# spelling of nodes as Python tokens gives the Python spelling of the Python reading of those nodes. |
| PyCompiler.PlainOfGood | super_tiny_compiler_unannotated.py:8-9 | A tree the round trip carries, whose literals have no leading zeros, prints every name and literal through `str` unchanged. |
| PyCompiler.CompilersAgree | super_tiny_compiler_unannotated.py:185-189 | On any good program without leading zeros, both compilers succeed on its decoded text, and the Python output is the C# output with a space after every comma. |
| PyCompiler.PythonReadsDecoded | super_tiny_compiler_unannotated.py:45-92 | On any good program, Python's `tokenize` and `parse` read its decoded text as the same program, with names as text and literals as `int`. |
| PyCompiler.ConvertedRenders | super_tiny_compiler_unannotated.py:134-153 | On any good program without leading zeros, the transformation of the converted program is comma-free and renders back to the C# transformation. |
| PyScenarios.TokenizeSample | test.py:57-60 | `(add 2 (subtract 4 2))` tokenizes to the nine tokens of the test case, with numbers as `int`. |
| PyScenarios.ParseSample | test.py:63-66 | Those tokens parse to the test case's tree. |
| PyScenarios.TransformSample | test.py:69-72 | That tree transforms to the test case's C tree. The top call is a statement and the nested call is not. |
| PyScenarios.GenerateSample | test.py:75-78 | That C tree generates `add(2, subtract(4, 2));`. |
| PyScenarios.CompileSample | test.py:81-84 | `compile_` maps the test case's input to its output. |
| PyScenarios.CompileSampleAgrees | super_tiny_compiler_unannotated.py:185-189 | The C# compiler gives `add(2,subtract(4,2));` on the same input, and widening that is the Python output. |
| PyScenarios.CompileUnclosed | super_tiny_compiler_unannotated.py:82-86 | `(add 2 2 ` compiles in Python to `add(2, 2);` because the end of the tokens closes the call. The C# compiler runs out of tokens on the same input. |
| PyScenarios.CompileLeadingZeros | super_tiny_compiler_unannotated.py:176-182 | `(f 007)` compiles in Python to `f(7);` because `int` then `str` drops the zeros. The C# compiler copies `f(007);` through. |
| PyScenarios.CompileLoneParen | super_tiny_compiler_unannotated.py:79-80 | A lone `(` fails: `next` finds no name token. |
| PyScenarios.CompileStrayClose | super_tiny_compiler_unannotated.py:87 | A `)` where an expression should start fails with the token's type. |

## Left out

- **Character classes are ASCII.**
  - Whitespace is the six characters space, tab, line feed, carriage return,
    vertical tab and form feed. That is Python's `string.whitespace`.
  - The C# and JavaScript `\s` also match Unicode spaces, which are not
    modelled.
  - Letters and digits are ASCII. That is exact for Python, which tests
    `digits` and `ascii_letters`, and for the JavaScript `/[a-z]/i` and
    `/[0-9]/`, which carry no Unicode flag.
  - The C# letter class is only approximated by ASCII. Under .NET
    case-insensitive matching, its `[a-z]` also matches some non-ASCII
    letters, for example U+212A KELVIN SIGN. The model rejects such a
    character as unknown.
- **Exceptions become error values.** The model gives a kind, the offending
  character and, for JavaScript, positions. It does not give exception
  types or message strings.
  - The JavaScript unknown-character message names only the character. The
    model also gives its position.
- **The visitor dictionaries and the `Context` lists are not modelled.**
  - They are replaced by recursion that returns the new node. The
    `TraversalBuilds*` lemmas relate the two.
  - The visit of the root program node is left out of the visit sequences
    because no visitor registers a callback for it.
  - The `default: throw` branches of the traversers and generators cannot
    be reached with the closed datatypes.
- **Integer widths.** The cursors are unbounded naturals. Inputs longer than
  a C# or JavaScript `int` index can address are not modelled.
- **JavaScript `clone` and `toString`.** Positions are immutable values, so
  `clone` is the identity. `toString` only formats error messages.
- **Python generators.**
  - `BacktrackingGenerator` becomes a cursor that `take_while` leaves on the
    rejected character.
  - The "Cannot backtrack twice in a row" `ValueError` is not modelled. The
    tokenizer always calls `next` between two pushbacks, so it cannot occur.
- **Python `tokenize` is lazy.** `parse` consumes it lazily, but the model
  tokenizes first. On an input with both a parse error and a later unknown
  character:
  - Python reports the parse error;
  - the model reports the tokenizer's error.

  Success, and the output on success, are the same in both, because `parse`
  drains the token iterator.
- **Python `int` and `str`.** These are modelled on digit strings and
  naturals only, with no sign, underscore or whitespace handling. The
  tokenizer never passes them any of those.
- **Other files.** `server.js`, the browser client and its page tests are HTTP
  serving, file reading and DOM code around the compiler. They are not part
  of this model.
- RoundTrip.DecompileCompile: requires a good program, as do
  RoundTrip.CompileDecompile, RoundTrip.CompileDecoded,
  RoundTrip.DecompileGenerated and RoundTrip.AstRoundTrip.
  - A good program has letter names, digit literals and a call as its last
    top-level item.
  - A literal at the very end would make both C# tokenizers read past the
    input.
- JsTokenizer.Scan: positions count Unicode scalar values, because a Dafny
  `char` is one. JavaScript indexes strings in UTF-16 code units. A character
  outside the Basic Multilingual Plane, which can only occur inside a string
  literal, advances the JavaScript `index` and `column` by 2 and the model's
  by 1. Every later position then differs. In `"😀" x`, JavaScript puts `x` at
  index 5 and the model puts it at index 4. The same holds for
  JsTokenizer.ScanTracksPositions, whose true positions also count scalar
  values.
- JsTokenizer.ScanTracksPositions: promises true positions only when no
  string token holds a line feed. The string loop advances with `nextCh`
  only, so such a line feed makes later positions drift from the true line
  and column. `JsScenarios.LineFeedInString` shows the drift.
- PyCompiler.CompilersAgree: requires literals without leading zeros. `int`
  then `str` rewrites those, as `PyScenarios.CompileLeadingZeros` shows.
- PyCompiler.TransformConverted: requires a plain tree, meaning names without
  commas and canonical literals. Otherwise `str` changes a literal, or the
  widening adds a space inside a name.
