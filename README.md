# The type-getting language front end, in Dafny

`TypeGettingLanguage.cpp` is a single-pass translator for a tiny block
language. A program is one block `{ ... }`. A block holds three kinds of
statement: nested blocks, declarations `type id;` (where `type` is `int`,
`bool` or `char`), and uses `id;`. The translator reads the program, checks
that every used name is declared in an open scope, and checks that no name is
declared twice in the same scope. It prints the program again, one line per
brace and per use, with tab indentation. Each use is printed as `name: type;`,
with the type of the innermost declaration that binds the name. The first
error stops the run with a diagnostic and its line number, and nothing is
printed.

The model has the same three parts as the source.

- `lexer.dfy` (module `Lexing`) models the lexer as a class `Lexer`. Its
  fields are the input sequence, a read position, the one-character
  lookahead (a character or end of input), the line counter and the keyword
  table. Each method is proved against the pure function `Scan`, which gives
  one call of `lex` on the stream "lookahead followed by unread input".
- `env.dfy` (module `Scopes`) models `Env` as a map from names to type names
  (`Push`, `Find`). The scope stack is a sequence of such maps, innermost
  last. `Resolve` is the innermost-first lookup.
- `translation.dfy` (module `Translation`) gives the parser as pure functions
  of its whole state (`PState`): `ParseBlock`, `ParseStmts`, `ParseStmt`,
  `ParseDecl`, `ParseUse` and `Translate`. An error comes back as a `Result`
  carrying the message and the lexer's line at that moment.
- `parser.dfy` (module `Parsing`) models the parser as a class `Parser`. It
  owns the lexer, the lookahead token `now`, the output `result`, the scope
  stack and `tabs`. Every method, including the two-loop scope search of a
  use, is proved to do what the corresponding function says. `Run` is `main`:
  it returns `Translate(input)`.
- `properties.dfy` (module `Properties`) states what the translation
  promises:
  - blocks restore the indentation and the scope stack, and frame their
    output in braces;
  - statements only append output and keep the enclosing scopes;
  - the indentation of every printed line follows the nesting depth;
  - the declaration and use rules, including shadowing;
  - the output of a successful run has balanced braces.
- `scenarios.dfy` (module `Scenarios`) works whole runs out to their exact
  results. The inputs are `{int x; x;}`, `{int x; int x;}`, `{x;}`,
  `{int x; {bool x; x;} x;}` and `{char c; c; undeclared;}`, and `{}` followed
  by arbitrary trailing text. Each may be preceded by any whitespace.

Points where the code is easy to misread:

- The line counter is modelled as the code computes it. `line++` runs only
  for a newline read inside the whitespace loop (lines 69-74). A newline that
  is already the lookahead when `lex` starts is not counted: for example, one
  that ended an identifier at line 81 (`NewlinesAfterFirst`). One might
  expect every newline to be counted; the model only claims what the code
  does, and that the line never decreases.
- The scope search of a use pops scopes onto a temporary stack and pushes
  them back (lines 231-241). One might expect a lookup to leave the stack
  alone; `Parser.SearchScopes` keeps the two loops, and proves that the stack
  afterwards equals the stack before.
- The test at line 224 is the assignment `now.kind = Tag::Id`, so it is
  always true. `stmt` is only entered when the kind is `'{'`, `Type` or `Id`
  (line 196), so that branch is the identifier case. `Parser.Stmt` and
  `ParseStmt` therefore require `StartsStmt(now.kind)`.
- `std::stack<Env>` holds scopes by value, and `temp.push(stack.top())`
  copies one. So `Env` is a value (`map`) here, not an object.

## Model

| member | source | states |
|---|---|---|
| Scopes.Push | TypeGettingLanguage.cpp:110-112 | the pushed name is bound afterwards. Its type is the old one if the name was already bound (first binding wins), otherwise the given type. The other bindings are unchanged and the keys grow by exactly the name |
| Scopes.PushKeepsFirst | TypeGettingLanguage.cpp:110-112 | a second push of the same name changes nothing, and find still gives the first type |
| Scopes.Find | TypeGettingLanguage.cpp:114-122 | a non-empty result is the type bound to the name. With non-empty types, find returns "" exactly when the name is unbound, and the bound type otherwise |
| Scopes.Resolve | TypeGettingLanguage.cpp:229-241 | with no open scope nothing is found, and a name the innermost scope binds resolves to that scope's type without looking further |
| Scopes.ResolveInnermost | TypeGettingLanguage.cpp:229-241 | the lookup returns the type from the innermost scope that binds the name |
| Scopes.ResolveUnbound | TypeGettingLanguage.cpp:229-245 | the lookup gives "" if and only if no open scope binds the name |
| Scopes.ResolveBound | TypeGettingLanguage.cpp:229-241 | whatever the lookup returns is "" or a type that some open scope binds to the name |
| Lexing.WordToken | TypeGettingLanguage.cpp:84-90 | a word's token carries exactly the word. Its kind is Type if and only if the word is int, bool or char, and Id if and only if it is not |
| Lexing.WordCharRun | TypeGettingLanguage.cpp:79-82 | the run length covers only letters and digits and stops at the first other character or at end of input |
| Lexing.RunLength | TypeGettingLanguage.cpp:79-82 | any length that covers only letters and digits and is followed by another character (or the end) is the run length: the run is maximal and unique |
| Lexing.SkipSpaces | TypeGettingLanguage.cpp:69-74 | the whitespace loop never decreases the line, never lengthens the stream, and stops at a character that is not whitespace or at the end |
| Lexing.SkipSpacesShape | TypeGettingLanguage.cpp:69-74 | the whitespace loop removes a prefix of spaces, tabs and newlines and stops at a character that is not one. The line counter never decreases |
| Lexing.SkipSpacesOver | TypeGettingLanguage.cpp:69-74 | skipping a whitespace run counts the newlines in it except the first character, the lookahead read before the call |
| Lexing.ScanAfterSpaces | TypeGettingLanguage.cpp:76-96 | after the whitespace loop, lex keeps the line. It returns kind -1 exactly at end of input, leaving a blank, and otherwise consumes at least one character |
| Lexing.Scan | TypeGettingLanguage.cpp:62-98 | one call of lex never decreases the line, and after kind -1 the stream left is empty or one blank |
| Lexing.ScanFacts | TypeGettingLanguage.cpp:62-97 | one call of lex never decreases the line counter. It returns kind -1 exactly when only whitespace remains, and then leaves nothing or one blank. Any other token shrinks what is left. On byte text the token is one lex can produce |
| Lexing.ScanWord | TypeGettingLanguage.cpp:69-91 | whitespace, then a maximal word, gives that word's token. The rest starts right after the word, and the line grows by the counted newlines |
| Lexing.ScanOther | TypeGettingLanguage.cpp:94-96 | whitespace, then a character that is neither a letter nor whitespace, gives a token whose kind is that character. It consumes just that character and leaves a blank lookahead |
| Lexing.ScanEnd | TypeGettingLanguage.cpp:62-96 | at end of input lex returns kind -1, and every later call returns kind -1 again |
| Lexing.Lexer.constructor | TypeGettingLanguage.cpp:47-52 | a new lexer starts at line 1 with a blank lookahead before the input |
| Lexing.Lexer.Add | TypeGettingLanguage.cpp:54-56 | adds the keyword's Type token unless the keyword is already in the table |
| Lexing.Lexer.Next | TypeGettingLanguage.cpp:58-60 | reads the next input character into the lookahead, or the end marker at end of input, and drops the old lookahead from the stream |
| Lexing.Lexer.SkipWhitespace | TypeGettingLanguage.cpp:69-74 | the loop leaves the stream and line that the whitespace function gives |
| Lexing.Lexer.ReadWord | TypeGettingLanguage.cpp:78-82 | the loop returns exactly the maximal run of letters and digits and consumes it |
| Lexing.Lexer.Lex | TypeGettingLanguage.cpp:62-98 | the returned token, the new stream and the new line are those Scan gives for the old stream and line |
| Translation.Initial | TypeGettingLanguage.cpp:138-142 | the parser starts with empty output, no scopes and no indentation, at line 1 or later, with the first token already read. That token is the end token exactly when the input is only whitespace |
| Translation.Advance | TypeGettingLanguage.cpp:160 | reading the next token changes only the lexer's part of the state, never decreases the line, and strictly decreases the measure unless the current token is the end token |
| Translation.Enter | TypeGettingLanguage.cpp:183-186 | entering a block keeps the lexer state, opens one new empty innermost scope and only appends output. Leaving right after gives back the scopes and the indentation |
| Translation.Leave | TypeGettingLanguage.cpp:189-192 | leaving a block keeps the lexer state, closes exactly the innermost scope and keeps every other scope, and only appends output |
| Translation.MatchToken | TypeGettingLanguage.cpp:157-166 | match succeeds exactly when the current kind is the expected one, and then reads the next token. Otherwise it fails with the caller's message at the current line |
| Translation.Tabs | TypeGettingLanguage.cpp:168-173 | the indentation is exactly n tab characters (none for n <= 0) |
| Translation.ParseBlock | TypeGettingLanguage.cpp:180-193 | a block that succeeds consumes input and leaves as many scopes open as before. The line never moves back, neither in the state reached nor in the error reported |
| Translation.ParseStmts | TypeGettingLanguage.cpp:195-202 | a statement list that succeeds does not consume more than it had, keeps the number of scopes, and stops at a token that cannot start a statement. The line never moves back, neither in the state reached nor in the error reported |
| Translation.ParseStmt | TypeGettingLanguage.cpp:204-252 | a statement that succeeds consumes at least one token and keeps the number of scopes. The line never moves back, neither in the state reached nor in the error reported |
| Translation.ParseDecl | TypeGettingLanguage.cpp:209-223 | a declaration that succeeds consumes input and keeps the number of scopes. The line never moves back, neither in the state reached nor in the error reported |
| Translation.ParseUse | TypeGettingLanguage.cpp:224-250 | a use that succeeds consumes input and keeps the number of scopes. The line never moves back, neither in the state reached nor in the error reported |
| Translation.Translate | TypeGettingLanguage.cpp:258-266 | on byte input (the only input the program reads), a run that fails reports a line of 1 or later, and input that is only whitespace fails with "Expect a '{'" |
| Parsing.Parser.constructor | TypeGettingLanguage.cpp:132-142 | a new parser over byte input is in the initial state: empty output, no scopes, no indentation, and the first token already read |
| Parsing.Parser.Match | TypeGettingLanguage.cpp:157-166 | the method's outcome and new state are those of MatchToken, and it returns the matched token |
| Parsing.Parser.PrintTabs | TypeGettingLanguage.cpp:168-173 | the for loop appends exactly Tabs(tabs) to the output |
| Parsing.Parser.Code | TypeGettingLanguage.cpp:175-178 | the outcome and new state are those of ParseBlock |
| Parsing.Parser.EnterBlock | TypeGettingLanguage.cpp:183-186 | the new state is Enter of the old: the opening line is appended, one more level of indentation, and an empty scope is pushed |
| Parsing.Parser.LeaveBlock | TypeGettingLanguage.cpp:189-192 | the new state is Leave of the old: one level less, the closing line is appended, and the innermost scope is popped |
| Parsing.Parser.Block | TypeGettingLanguage.cpp:180-193 | the outcome and new state are those of ParseBlock |
| Parsing.Parser.Stmts | TypeGettingLanguage.cpp:195-202 | the outcome and new state are those of ParseStmts |
| Parsing.Parser.Stmt | TypeGettingLanguage.cpp:204-252 | the outcome and new state are those of ParseStmt |
| Parsing.Parser.Declaration | TypeGettingLanguage.cpp:209-223 | the outcome and new state are those of ParseDecl |
| Parsing.Parser.Use | TypeGettingLanguage.cpp:224-250 | the outcome and new state are those of ParseUse |
| Parsing.Parser.PrintUse | TypeGettingLanguage.cpp:248-249 | appends exactly the indentation followed by "name: type;" and a newline |
| Parsing.Parser.SearchScopes | TypeGettingLanguage.cpp:229-241 | the pop/temporary/restore loops leave the stack exactly as it was, and find the innermost-first lookup result |
| Parsing.Run | TypeGettingLanguage.cpp:258-266 | running the parser on a byte input gives exactly Translate of the input: the output if the block parses, otherwise the first error and no output |
| Properties.BlockShape | TypeGettingLanguage.cpp:180-193 | a block that succeeds restores the scope stack and the indentation. Its output is the old output, the opening line at the entry indentation, the body, and the closing line at the same indentation |
| Properties.StmtsShape | TypeGettingLanguage.cpp:195-202 | a statement list keeps the indentation, the enclosing scopes and every binding of the innermost scope, and only appends output |
| Properties.StmtShape | TypeGettingLanguage.cpp:204-252 | the same for one statement of any kind |
| Properties.DeclConfined | TypeGettingLanguage.cpp:209-223 | the same for a declaration |
| Properties.UseConfined | TypeGettingLanguage.cpp:224-250 | the same for a use |
| Properties.BlockDepth | TypeGettingLanguage.cpp:180-193 | when the indentation equals the number of open scopes, a block prints its brace lines at that depth and returns with the two equal again |
| Properties.StmtsDepth | TypeGettingLanguage.cpp:195-202 | a statement list keeps the indentation equal to the number of open scopes |
| Properties.UseDepth | TypeGettingLanguage.cpp:248-249 | when the indentation equals the number of open scopes, a use prints its line with one tab per open scope, then the name, its innermost type and ";" |
| Properties.DeclRule | TypeGettingLanguage.cpp:209-223 | the full result of a declaration: "Expect a id after a type", then "Expect a ';'". "Id was defined" comes exactly when the innermost scope binds the name; a binding in an outer scope does not block it. On success only the innermost scope gains the binding, and nothing is printed |
| Properties.UseRule | TypeGettingLanguage.cpp:224-250 | a use fails with "Id not found" if and only if no open scope binds the name. On success it appends the indented "name: type;" line with the innermost scope's type, and leaves the scopes as they were |
| Properties.BraceLineBalances | TypeGettingLanguage.cpp:180-193 | an opening block line has one more "{" than "}", and a closing block line one fewer |
| Properties.UseLineBalances | TypeGettingLanguage.cpp:248-249 | a use line has no braces |
| Properties.AdvanceWellFormed | TypeGettingLanguage.cpp:62-98 | on byte text every token read is one the lexer can produce, and the rest stays byte text |
| Properties.EnterBalanced | TypeGettingLanguage.cpp:183-186 | entering a block adds one to the brace balance of the output |
| Properties.LeaveBalanced | TypeGettingLanguage.cpp:189-192 | leaving a block subtracts one from the brace balance |
| Properties.BlockBalanced | TypeGettingLanguage.cpp:180-193 | a block that succeeds prints as many "{" as "}" and keeps every bound type a keyword |
| Properties.StmtsBalanced | TypeGettingLanguage.cpp:195-202 | the same for a statement list |
| Properties.StmtBalanced | TypeGettingLanguage.cpp:204-252 | the same for one statement |
| Properties.KeywordScopesBind | TypeGettingLanguage.cpp:222 | binding a keyword type in the innermost scope keeps every bound type a keyword |
| Properties.DeclBalanced | TypeGettingLanguage.cpp:209-223 | a declaration prints nothing and keeps every bound type a keyword |
| Properties.UseBalanced | TypeGettingLanguage.cpp:224-250 | a use keeps the brace balance of the output |
| Properties.TranslateBalanced | TypeGettingLanguage.cpp:175-193 | on byte input, the output of a successful run starts with the line "{", ends with the line "}" (no indentation), and has as many "{" as "}" |
| Scenarios.TrailingIgnored | TypeGettingLanguage.cpp:175-178 | "{}" after any whitespace translates to "{\n}\n" whatever text follows it: code parses one block and never looks at the rest |
| Scenarios.DeclareThenUse | TypeGettingLanguage.cpp:204-250 | "{int x; x;}" translates to the block with the line "\tx: int;" |
| Scenarios.RedeclarationRejected | TypeGettingLanguage.cpp:216-220 | "{int x; int x;}" fails with "Id was defined" on the line where the text starts |
| Scenarios.UndeclaredRejected | TypeGettingLanguage.cpp:242-245 | "{x;}" fails with "Id not found" |
| Scenarios.ShadowingScenario | TypeGettingLanguage.cpp:216-241 | "{int x; {bool x; x;} x;}" prints x as bool inside the inner block and as int after it |
| Scenarios.NothingPrintedOnFailure | TypeGettingLanguage.cpp:261-263 | "{char c; c; undeclared;}" gives only the "Id not found" error. The "c: char;" line already built is not part of the result |

## Left out

- `operator<<` for `Token` (lines 22-33): unused debug printing.
- `freopen`, `getchar`, `std::cout` and `std::cerr` (lines 58-60, 153, 255, 259): the input is a `seq<char>` parameter. A run returns the output string or the error, and `Run` stands for printing either.
- `exit(0)` and the process exit status (line 154): an error is a returned `Error` value that every parser method passes up at once.
- The diagnostic's exact text `SyntaxError: ... on line N.` (line 153): only the message and the line number are modelled.
- The signed-`char` conversion of `getchar` (line 59): a byte 0xFF reads as `EOF`, and bytes from 128 upward give negative token kinds. The model reads characters as they are and uses a separate end-of-input marker. The lemmas about well-formed tokens assume byte text (`ByteText`, every character below 256).
- Characters from 256 upward: the program reads bytes, so such a character has no counterpart in it. Its one-character token kind `c as int` would collide with the Type (256) and Id (257) tags, so `Translate`, `Run` and the parser's constructor require byte text.
