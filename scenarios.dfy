/** Worked runs of the translator on small programs: one declaration and use,
    a redeclaration, an undeclared use, shadowing in a nested block, the empty
    block followed by arbitrary input, and a failure after output was built. */
module Scenarios {
  import opened Lexing
  import opened Scopes
  import opened Translation
  import opened Properties

  // How the grammar functions compose once the tokens are known.

  lemma BlockOk(st: PState, body: PState)
    requires st.now.kind == LBrace && ParseStmts(Enter(Advance(st))) == Ok(body) && body.now.kind == RBrace
    ensures ParseBlock(st) == Ok(Leave(Advance(body)))
  {
  }

  lemma StmtsStep(st: PState, s1: PState)
    requires |st.scopes| > 0 && StartsStmt(st.now.kind) && ParseStmt(st) == Ok(s1)
    ensures ParseStmts(st) == ParseStmts(s1)
  {
  }

  lemma StmtsFail(st: PState, e: Error)
    requires |st.scopes| > 0 && StartsStmt(st.now.kind) && ParseStmt(st) == Err(e)
    ensures ParseStmts(st) == Err(e)
  {
  }

  lemma BlockFail(st: PState, e: Error)
    requires st.now.kind == LBrace && ParseStmts(Enter(Advance(st))) == Err(e)
    ensures ParseBlock(st) == Err(e)
  {
  }

  /** Facts about a stack holding one scope, before and after it binds name. */
  lemma SingleScope(name: string, typ: string)
    requires typ != ""
    ensures TypedStack([map[]]) && name !in Top([map[]])
    ensures [map[]][..0] + [map[][name := typ]] == [map[name := typ]]
    ensures TypedStack([map[name := typ]]) && Innermost([map[name := typ]], name, 0)
    ensures [map[name := typ]][0][name] == typ
  {
  }

  lemma SingleScopeMissing(name: string, typ: string, other: string)
    requires other != name
    ensures forall j | 0 <= j < |[map[name := typ]]| :: other !in [map[name := typ]][j]
  {
  }

  lemma DeclOk(st: PState, a: Scanned, b: Scanned, c: Scanned, scopes: seq<Env>)
    requires |st.scopes| > 0 && st.now.kind == TypeKind && TypedStack(st.scopes)
    requires Scan(st.rest, st.line) == a && Scan(a.rest, a.line) == b && Scan(b.rest, b.line) == c
    requires a.token.kind == IdKind && b.token.kind == Semicolon && a.token.value !in Top(st.scopes)
    requires scopes == st.scopes[..|st.scopes| - 1] + [Top(st.scopes)[a.token.value := st.now.value]]
    ensures ParseDecl(st) == Ok(PState(c.rest, c.line, c.token, st.result, scopes, st.tabs))
  {
    DeclRule(st);
  }

  lemma DeclDefined(st: PState, a: Scanned, b: Scanned, c: Scanned)
    requires |st.scopes| > 0 && st.now.kind == TypeKind && TypedStack(st.scopes)
    requires Scan(st.rest, st.line) == a && Scan(a.rest, a.line) == b && Scan(b.rest, b.line) == c
    requires a.token.kind == IdKind && b.token.kind == Semicolon && a.token.value in Top(st.scopes)
    ensures ParseDecl(st) == Err(Error("Id was defined", c.line))
  {
    DeclRule(st);
  }

  lemma UseFound(st: PState, a: Scanned, b: Scanned, i: int, out: string)
    requires |st.scopes| > 0 && st.now.kind == IdKind && TypedStack(st.scopes)
    requires Scan(st.rest, st.line) == a && Scan(a.rest, a.line) == b && a.token.kind == Semicolon
    requires Innermost(st.scopes, st.now.value, i)
    requires out == st.result + UseLine(st.tabs, st.now.value, st.scopes[i][st.now.value])
    ensures ParseUse(st) == Ok(PState(b.rest, b.line, b.token, out, st.scopes, st.tabs))
  {
    UseRule(st, i);
  }

  lemma UseMissing(st: PState, a: Scanned, b: Scanned)
    requires |st.scopes| > 0 && st.now.kind == IdKind && TypedStack(st.scopes)
    requires Scan(st.rest, st.line) == a && Scan(a.rest, a.line) == b && a.token.kind == Semicolon
    requires forall j | 0 <= j < |st.scopes| :: st.now.value !in st.scopes[j]
    ensures ParseUse(st) == Err(Error("Id not found", b.line))
  {
    UseRule(st, 0);
  }

  lemma OpenOk(st: PState, sc: Scanned, out: string)
    requires Scan(st.rest, st.line) == sc && out == st.result + OpenLine(st.tabs)
    ensures Enter(Advance(st)) == PState(sc.rest, sc.line, sc.token, out, st.scopes + [map[]], st.tabs + 1)
  {
  }

  /** The opening brace of a run starts the first scope. */
  lemma OpenFirst(st: PState, sc: Scanned)
    requires Scan(st.rest, st.line) == sc && st.result == "" && st.scopes == [] && st.tabs == 0
    ensures Enter(Advance(st)) == PState(sc.rest, sc.line, sc.token, "{\n", [map[]], 1)
  {
    assert "" + OpenLine(0) == "{\n";
    OpenOk(st, sc, "{\n");
  }

  lemma CloseOk(st: PState, sc: Scanned, out: string)
    requires Scan(st.rest, st.line) == sc && |st.scopes| > 0 && out == st.result + CloseLine(st.tabs - 1)
    ensures Leave(Advance(st)) == PState(sc.rest, sc.line, sc.token, out, st.scopes[..|st.scopes| - 1], st.tabs - 1)
  {
  }

  lemma TranslateOk(input: seq<char>, st: PState, r: PState)
    requires ByteText(input) && Initial(input) == st && ParseBlock(st) == Ok(r)
    ensures Translate(input) == Ok(r.result)
  {
  }

  lemma TranslateErr(input: seq<char>, st: PState, e: Error)
    requires ByteText(input) && Initial(input) == st && ParseBlock(st) == Err(e)
    ensures Translate(input) == Err(e)
  {
  }

  lemma StmtsStop(st: PState)
    requires |st.scopes| > 0 && st.now.kind == RBrace
    ensures ParseStmts(st) == Ok(st)
  {
  }

  /** Every scenario's text is byte text, so it is a possible input of the program. */
  lemma ScenarioBytes(ws: seq<char>)
    requires AllSpace(ws)
    ensures ByteText(ws + "{int x; x;}") && ByteText(ws + "{int x; int x;}") && ByteText(ws + "{x;}")
    ensures ByteText(ws + "{int x; {bool x; x;} x;}") && ByteText(ws + "{char c; c; undeclared;}")
  {
  }

  /** "{}" after any whitespace prints an empty block, and whatever input comes
      after it is never parsed. Translate looks at no token after the one that
      follows a block's "}", so this holds for every block; "{}" is one instance. */
  lemma TrailingIgnored(ws: seq<char>, tail: seq<char>)
    requires AllSpace(ws) && ByteText(tail)
    ensures Translate(ws + "{}" + tail) == Ok("{\n}\n")
  {
    var input := ws + "{}" + tail;
    var w0 := [' '] + ws;
    assert [' '] + input == w0 + ['{'] + ("}" + tail);
    ScanOther(w0, '{', "}" + tail, 1);
    var st := Initial(input);
    assert st.now == Token(LBrace, "") && st.rest == [' '] + "}" + tail;
    ScanOther([' '], '}', tail, st.line);
    var s1 := Advance(st);
    assert s1.now == Token(RBrace, "");
    var s2 := Enter(s1);
    assert ParseStmts(s2) == Ok(s2);
    var s3 := Advance(s2);
    assert ParseBlock(st) == Ok(Leave(s3));
    assert Leave(s3).result == "{\n}\n";
  }


  /** The parser's first token, after any leading whitespace, is "{". */
  lemma InitialBrace(ws: seq<char>, input: seq<char>, tail: seq<char>, rest: seq<char>)
    requires AllSpace(ws) && input == ['{'] + tail && rest == [' '] + tail
    ensures Initial(ws + input) == PState(rest, 1 + NewlineCount(ws), Token(LBrace, ""), "", [], 0)
  {
    var w0 := [' '] + ws;
    assert [' '] + (ws + input) == w0 + ['{'] + tail;
    assert w0[1..] == ws;
    ScanOther(w0, '{', tail, 1);
  }

  // Lexer steps on the inputs of the runs below, one lemma per token.

  // The tokens of "{int x; x;}".

  lemma DeclUseText()
    ensures "{int x; x;}" == ['{'] + "int x; x;}"
    ensures [' '] + "int x; x;}" == " int x; x;}"
  {
  }

  lemma LexDeclTypeText()
    ensures " int x; x;}" == " " + "int" + " x; x;}"
  {
  }

  lemma LexDeclType(line: int)
    ensures Scan(" int x; x;}", line) == Scanned(Token(TypeKind, "int"), " x; x;}", line)
  {
    LexDeclTypeText();
    ScanWord(" ", "int", " x; x;}", line);
  }

  lemma LexDeclNameText()
    ensures " x; x;}" == " " + "x" + "; x;}"
  {
  }

  lemma LexDeclName(line: int)
    ensures Scan(" x; x;}", line) == Scanned(Token(IdKind, "x"), "; x;}", line)
  {
    LexDeclNameText();
    ScanWord(" ", "x", "; x;}", line);
  }

  lemma LexDeclSemiText()
    ensures "; x;}" == "" + [';'] + " x;}"
    ensures [' '] + " x;}" == "  x;}"
  {
  }

  lemma LexDeclSemi(line: int)
    ensures Scan("; x;}", line) == Scanned(Token(Semicolon, ""), "  x;}", line)
  {
    LexDeclSemiText();
    ScanOther("", ';', " x;}", line);
  }

  lemma LexUseNameText()
    ensures "  x;}" == "  " + "x" + ";}"
  {
  }

  lemma LexUseName(line: int)
    ensures Scan("  x;}", line) == Scanned(Token(IdKind, "x"), ";}", line)
  {
    LexUseNameText();
    ScanWord("  ", "x", ";}", line);
  }

  lemma LexSemiBeforeCloseText()
    ensures ";}" == "" + [';'] + "}"
    ensures [' '] + "}" == " }"
  {
  }

  lemma LexSemiBeforeClose(line: int)
    ensures Scan(";}", line) == Scanned(Token(Semicolon, ""), " }", line)
  {
    LexSemiBeforeCloseText();
    ScanOther("", ';', "}", line);
  }

  lemma LexCloseText()
    ensures " }" == " " + ['}'] + ""
    ensures [' '] + "" == " "
  {
  }

  lemma LexClose(line: int)
    ensures Scan(" }", line) == Scanned(Token(RBrace, ""), " ", line)
  {
    LexCloseText();
    ScanOther(" ", '}', "", line);
  }

  lemma LexEndAfterClose(line: int)
    ensures Scan(" ", line) == Scanned(EndToken, " ", line)
  {
    ScanEnd(" ", line);
  }

  // The tokens of "{int x; int x;}".

  lemma RedeclareText()
    ensures "{int x; int x;}" == ['{'] + "int x; int x;}"
    ensures [' '] + "int x; int x;}" == " int x; int x;}"
  {
  }

  lemma LexRedeclTypeText()
    ensures " int x; int x;}" == " " + "int" + " x; int x;}"
  {
  }

  lemma LexRedeclType(line: int)
    ensures Scan(" int x; int x;}", line) == Scanned(Token(TypeKind, "int"), " x; int x;}", line)
  {
    LexRedeclTypeText();
    ScanWord(" ", "int", " x; int x;}", line);
  }

  lemma LexRedeclNameText()
    ensures " x; int x;}" == " " + "x" + "; int x;}"
  {
  }

  lemma LexRedeclName(line: int)
    ensures Scan(" x; int x;}", line) == Scanned(Token(IdKind, "x"), "; int x;}", line)
  {
    LexRedeclNameText();
    ScanWord(" ", "x", "; int x;}", line);
  }

  lemma LexRedeclSemiText()
    ensures "; int x;}" == "" + [';'] + " int x;}"
    ensures [' '] + " int x;}" == "  int x;}"
  {
  }

  lemma LexRedeclSemi(line: int)
    ensures Scan("; int x;}", line) == Scanned(Token(Semicolon, ""), "  int x;}", line)
  {
    LexRedeclSemiText();
    ScanOther("", ';', " int x;}", line);
  }

  lemma LexRedeclSecondTypeText()
    ensures "  int x;}" == "  " + "int" + " x;}"
  {
  }

  lemma LexRedeclSecondType(line: int)
    ensures Scan("  int x;}", line) == Scanned(Token(TypeKind, "int"), " x;}", line)
  {
    LexRedeclSecondTypeText();
    ScanWord("  ", "int", " x;}", line);
  }

  lemma LexNameBeforeCloseText()
    ensures " x;}" == " " + "x" + ";}"
  {
  }

  lemma LexNameBeforeClose(line: int)
    ensures Scan(" x;}", line) == Scanned(Token(IdKind, "x"), ";}", line)
  {
    LexNameBeforeCloseText();
    ScanWord(" ", "x", ";}", line);
  }

  // The tokens of "{x;}".

  lemma UndeclaredText()
    ensures "{x;}" == ['{'] + "x;}"
    ensures [' '] + "x;}" == " x;}"
  {
  }

  // The tokens of "{int x; {bool x; x;} x;}".

  lemma ShadowText()
    ensures "{int x; {bool x; x;} x;}" == ['{'] + "int x; {bool x; x;} x;}"
    ensures [' '] + "int x; {bool x; x;} x;}" == " int x; {bool x; x;} x;}"
  {
  }

  lemma LexShadowOuterTypeText()
    ensures " int x; {bool x; x;} x;}" == " " + "int" + " x; {bool x; x;} x;}"
  {
  }

  lemma LexShadowOuterType(line: int)
    ensures Scan(" int x; {bool x; x;} x;}", line) == Scanned(Token(TypeKind, "int"), " x; {bool x; x;} x;}", line)
  {
    LexShadowOuterTypeText();
    ScanWord(" ", "int", " x; {bool x; x;} x;}", line);
  }

  lemma LexShadowOuterNameText()
    ensures " x; {bool x; x;} x;}" == " " + "x" + "; {bool x; x;} x;}"
  {
  }

  lemma LexShadowOuterName(line: int)
    ensures Scan(" x; {bool x; x;} x;}", line) == Scanned(Token(IdKind, "x"), "; {bool x; x;} x;}", line)
  {
    LexShadowOuterNameText();
    ScanWord(" ", "x", "; {bool x; x;} x;}", line);
  }

  lemma LexShadowOuterSemiText()
    ensures "; {bool x; x;} x;}" == "" + [';'] + " {bool x; x;} x;}"
    ensures [' '] + " {bool x; x;} x;}" == "  {bool x; x;} x;}"
  {
  }

  lemma LexShadowOuterSemi(line: int)
    ensures Scan("; {bool x; x;} x;}", line) == Scanned(Token(Semicolon, ""), "  {bool x; x;} x;}", line)
  {
    LexShadowOuterSemiText();
    ScanOther("", ';', " {bool x; x;} x;}", line);
  }

  lemma LexShadowInnerBraceText()
    ensures "  {bool x; x;} x;}" == "  " + ['{'] + "bool x; x;} x;}"
    ensures [' '] + "bool x; x;} x;}" == " bool x; x;} x;}"
  {
  }

  lemma LexShadowInnerBrace(line: int)
    ensures Scan("  {bool x; x;} x;}", line) == Scanned(Token(LBrace, ""), " bool x; x;} x;}", line)
  {
    LexShadowInnerBraceText();
    ScanOther("  ", '{', "bool x; x;} x;}", line);
  }

  lemma LexShadowInnerTypeText()
    ensures " bool x; x;} x;}" == " " + "bool" + " x; x;} x;}"
  {
  }

  lemma LexShadowInnerType(line: int)
    ensures Scan(" bool x; x;} x;}", line) == Scanned(Token(TypeKind, "bool"), " x; x;} x;}", line)
  {
    LexShadowInnerTypeText();
    ScanWord(" ", "bool", " x; x;} x;}", line);
  }

  lemma LexShadowInnerNameText()
    ensures " x; x;} x;}" == " " + "x" + "; x;} x;}"
  {
  }

  lemma LexShadowInnerName(line: int)
    ensures Scan(" x; x;} x;}", line) == Scanned(Token(IdKind, "x"), "; x;} x;}", line)
  {
    LexShadowInnerNameText();
    ScanWord(" ", "x", "; x;} x;}", line);
  }

  lemma LexShadowInnerSemiText()
    ensures "; x;} x;}" == "" + [';'] + " x;} x;}"
    ensures [' '] + " x;} x;}" == "  x;} x;}"
  {
  }

  lemma LexShadowInnerSemi(line: int)
    ensures Scan("; x;} x;}", line) == Scanned(Token(Semicolon, ""), "  x;} x;}", line)
  {
    LexShadowInnerSemiText();
    ScanOther("", ';', " x;} x;}", line);
  }

  lemma LexShadowInnerUseNameText()
    ensures "  x;} x;}" == "  " + "x" + ";} x;}"
  {
  }

  lemma LexShadowInnerUseName(line: int)
    ensures Scan("  x;} x;}", line) == Scanned(Token(IdKind, "x"), ";} x;}", line)
  {
    LexShadowInnerUseNameText();
    ScanWord("  ", "x", ";} x;}", line);
  }

  lemma LexShadowInnerUseSemiText()
    ensures ";} x;}" == "" + [';'] + "} x;}"
    ensures [' '] + "} x;}" == " } x;}"
  {
  }

  lemma LexShadowInnerUseSemi(line: int)
    ensures Scan(";} x;}", line) == Scanned(Token(Semicolon, ""), " } x;}", line)
  {
    LexShadowInnerUseSemiText();
    ScanOther("", ';', "} x;}", line);
  }

  lemma LexShadowInnerCloseText()
    ensures " } x;}" == " " + ['}'] + " x;}"
    ensures [' '] + " x;}" == "  x;}"
  {
  }

  lemma LexShadowInnerClose(line: int)
    ensures Scan(" } x;}", line) == Scanned(Token(RBrace, ""), "  x;}", line)
  {
    LexShadowInnerCloseText();
    ScanOther(" ", '}', " x;}", line);
  }

  // The tokens of "{char c; c; undeclared;}".

  lemma PartialText()
    ensures "{char c; c; undeclared;}" == ['{'] + "char c; c; undeclared;}"
    ensures [' '] + "char c; c; undeclared;}" == " char c; c; undeclared;}"
  {
  }

  lemma LexPartialTypeText()
    ensures " char c; c; undeclared;}" == " " + "char" + " c; c; undeclared;}"
  {
  }

  lemma LexPartialType(line: int)
    ensures Scan(" char c; c; undeclared;}", line) == Scanned(Token(TypeKind, "char"), " c; c; undeclared;}", line)
  {
    LexPartialTypeText();
    ScanWord(" ", "char", " c; c; undeclared;}", line);
  }

  lemma LexPartialNameText()
    ensures " c; c; undeclared;}" == " " + "c" + "; c; undeclared;}"
  {
  }

  lemma LexPartialName(line: int)
    ensures Scan(" c; c; undeclared;}", line) == Scanned(Token(IdKind, "c"), "; c; undeclared;}", line)
  {
    LexPartialNameText();
    ScanWord(" ", "c", "; c; undeclared;}", line);
  }

  lemma LexPartialSemiText()
    ensures "; c; undeclared;}" == "" + [';'] + " c; undeclared;}"
    ensures [' '] + " c; undeclared;}" == "  c; undeclared;}"
  {
  }

  lemma LexPartialSemi(line: int)
    ensures Scan("; c; undeclared;}", line) == Scanned(Token(Semicolon, ""), "  c; undeclared;}", line)
  {
    LexPartialSemiText();
    ScanOther("", ';', " c; undeclared;}", line);
  }

  lemma LexPartialUseNameText()
    ensures "  c; undeclared;}" == "  " + "c" + "; undeclared;}"
  {
  }

  lemma LexPartialUseName(line: int)
    ensures Scan("  c; undeclared;}", line) == Scanned(Token(IdKind, "c"), "; undeclared;}", line)
  {
    LexPartialUseNameText();
    ScanWord("  ", "c", "; undeclared;}", line);
  }

  lemma LexPartialUseSemiText()
    ensures "; undeclared;}" == "" + [';'] + " undeclared;}"
    ensures [' '] + " undeclared;}" == "  undeclared;}"
  {
  }

  lemma LexPartialUseSemi(line: int)
    ensures Scan("; undeclared;}", line) == Scanned(Token(Semicolon, ""), "  undeclared;}", line)
  {
    LexPartialUseSemiText();
    ScanOther("", ';', " undeclared;}", line);
  }

  lemma LexUndeclaredNameText()
    ensures "  undeclared;}" == "  " + "undeclared" + ";}"
  {
  }

  lemma LexUndeclaredName(line: int)
    ensures Scan("  undeclared;}", line) == Scanned(Token(IdKind, "undeclared"), ";}", line)
  {
    LexUndeclaredNameText();
    ScanWord("  ", "undeclared", ";}", line);
  }

  // The output lines of the runs below.

  lemma DeclUseLine()
    ensures "{\n" + UseLine(1, "x", "int") == "{\n\tx: int;\n"
  {
    assert Tabs(1) == "\t";
  }

  lemma ShadowInnerLine()
    ensures "{\n\t{\n" + UseLine(2, "x", "bool") == "{\n\t{\n\t\tx: bool;\n"
  {
    assert Tabs(2) == "\t\t";
  }

  lemma ShadowOuterLine()
    ensures "{\n\t{\n\t\tx: bool;\n\t}\n" + UseLine(1, "x", "int") == "{\n\t{\n\t\tx: bool;\n\t}\n\tx: int;\n"
  {
    assert Tabs(1) == "\t";
  }

  lemma PartialLine()
    ensures "{\n" + UseLine(1, "c", "char") == "{\n\tc: char;\n"
  {
    assert Tabs(1) == "\t";
  }

  lemma ShadowBraceLines()
    ensures "{\n" + OpenLine(1) == "{\n\t{\n"
    ensures "{\n\t{\n\t\tx: bool;\n" + CloseLine(1) == "{\n\t{\n\t\tx: bool;\n\t}\n"
  {
    assert Tabs(1) == "\t";
  }

  lemma ClosingLines()
    ensures "{\n\tx: int;\n" + CloseLine(0) == "{\n\tx: int;\n}\n"
    ensures "{\n\t{\n\t\tx: bool;\n\t}\n\tx: int;\n" + CloseLine(0) == "{\n\t{\n\t\tx: bool;\n\t}\n\tx: int;\n}\n"
  {
    assert Tabs(0) == "";
  }

  // "{int x; x;}": a declaration, then a use.

  lemma DeclUseDecl(line: int)
    ensures ParseDecl(PState(" x; x;}", line, Token(TypeKind, "int"), "{\n", [map[]], 1))
         == Ok(PState(";}", line, Token(IdKind, "x"), "{\n", [map["x" := "int"]], 1))
  {
    LexDeclName(line); LexDeclSemi(line); LexUseName(line);
    SingleScope("x", "int");
    DeclOk(PState(" x; x;}", line, Token(TypeKind, "int"), "{\n", [map[]], 1), Scanned(Token(IdKind, "x"), "; x;}", line), Scanned(Token(Semicolon, ""), "  x;}", line), Scanned(Token(IdKind, "x"), ";}", line),
      [map["x" := "int"]]);
  }

  lemma DeclUseUse(line: int)
    ensures ParseUse(PState(";}", line, Token(IdKind, "x"), "{\n", [map["x" := "int"]], 1))
         == Ok(PState(" ", line, Token(RBrace, ""), "{\n\tx: int;\n", [map["x" := "int"]], 1))
  {
    LexSemiBeforeClose(line); LexClose(line);
    var st := PState(";}", line, Token(IdKind, "x"), "{\n", [map["x" := "int"]], 1);
    DeclUseLine();
    SingleScope("x", "int");
    UseFound(st, Scanned(Token(Semicolon, ""), " }", line), Scanned(Token(RBrace, ""), " ", line), 0, "{\n\tx: int;\n");
  }

  lemma DeclUseBody(line: int)
    ensures ParseStmts(PState(" x; x;}", line, Token(TypeKind, "int"), "{\n", [map[]], 1))
         == Ok(PState(" ", line, Token(RBrace, ""), "{\n\tx: int;\n", [map["x" := "int"]], 1))
  {
    var s0 := PState(" x; x;}", line, Token(TypeKind, "int"), "{\n", [map[]], 1);
    var s1 := PState(";}", line, Token(IdKind, "x"), "{\n", [map["x" := "int"]], 1);
    var s2 := PState(" ", line, Token(RBrace, ""), "{\n\tx: int;\n", [map["x" := "int"]], 1);
    DeclUseDecl(line);
    StmtsStep(s0, s1);
    DeclUseUse(line);
    StmtsStep(s1, s2);
    StmtsStop(s2);
  }

  lemma DeclUseOpen(line: int)
    ensures Enter(Advance(PState(" int x; x;}", line, Token(LBrace, ""), "", [], 0)))
         == PState(" x; x;}", line, Token(TypeKind, "int"), "{\n", [map[]], 1)
  {
    LexDeclType(line);
    OpenFirst(PState(" int x; x;}", line, Token(LBrace, ""), "", [], 0), Scanned(Token(TypeKind, "int"), " x; x;}", line));
  }

  lemma DeclUseClose(line: int)
    ensures Leave(Advance(PState(" ", line, Token(RBrace, ""), "{\n\tx: int;\n", [map["x" := "int"]], 1)))
         == PState(" ", line, EndToken, "{\n\tx: int;\n}\n", [], 0)
  {
    LexEndAfterClose(line);
    ClosingLines();
    CloseOk(PState(" ", line, Token(RBrace, ""), "{\n\tx: int;\n", [map["x" := "int"]], 1), Scanned(EndToken, " ", line), "{\n\tx: int;\n}\n");
  }

  lemma DeclUseBlock(line: int)
    ensures ParseBlock(PState(" int x; x;}", line, Token(LBrace, ""), "", [], 0))
         == Ok(PState(" ", line, EndToken, "{\n\tx: int;\n}\n", [], 0))
  {
    DeclUseOpen(line); DeclUseBody(line); DeclUseClose(line);
    BlockOk(PState(" int x; x;}", line, Token(LBrace, ""), "", [], 0),
            PState(" ", line, Token(RBrace, ""), "{\n\tx: int;\n", [map["x" := "int"]], 1));
  }

  /** A declaration followed by a use prints the use with the declared type. */
  lemma DeclareThenUse(ws: seq<char>)
    requires AllSpace(ws)
    ensures Translate(ws + "{int x; x;}") == Ok("{\n\tx: int;\n}\n")
  {
    ScenarioBytes(ws);
    DeclUseText();
    InitialBrace(ws, "{int x; x;}", "int x; x;}", " int x; x;}");
    var line := 1 + NewlineCount(ws);
    DeclUseBlock(line);
    TranslateOk(ws + "{int x; x;}", PState(" int x; x;}", line, Token(LBrace, ""), "", [], 0),
                PState(" ", line, EndToken, "{\n\tx: int;\n}\n", [], 0));
  }

  // "{int x; int x;}": the same name declared twice in one block.

  lemma RedeclareFirst(line: int)
    ensures ParseDecl(PState(" x; int x;}", line, Token(TypeKind, "int"), "{\n", [map[]], 1))
         == Ok(PState(" x;}", line, Token(TypeKind, "int"), "{\n", [map["x" := "int"]], 1))
  {
    LexRedeclName(line); LexRedeclSemi(line); LexRedeclSecondType(line);
    SingleScope("x", "int");
    DeclOk(PState(" x; int x;}", line, Token(TypeKind, "int"), "{\n", [map[]], 1), Scanned(Token(IdKind, "x"), "; int x;}", line), Scanned(Token(Semicolon, ""), "  int x;}", line), Scanned(Token(TypeKind, "int"), " x;}", line),
      [map["x" := "int"]]);
  }

  lemma RedeclareSecond(line: int)
    ensures ParseDecl(PState(" x;}", line, Token(TypeKind, "int"), "{\n", [map["x" := "int"]], 1))
         == Err(Error("Id was defined", line))
  {
    LexNameBeforeClose(line); LexSemiBeforeClose(line); LexClose(line);
    DeclDefined(PState(" x;}", line, Token(TypeKind, "int"), "{\n", [map["x" := "int"]], 1), Scanned(Token(IdKind, "x"), ";}", line), Scanned(Token(Semicolon, ""), " }", line), Scanned(Token(RBrace, ""), " ", line));
  }

  lemma RedeclareBlock(line: int)
    ensures ParseBlock(PState(" int x; int x;}", line, Token(LBrace, ""), "", [], 0))
         == Err(Error("Id was defined", line))
  {
    var st := PState(" int x; int x;}", line, Token(LBrace, ""), "", [], 0);
    var s0 := PState(" x; int x;}", line, Token(TypeKind, "int"), "{\n", [map[]], 1);
    var s1 := PState(" x;}", line, Token(TypeKind, "int"), "{\n", [map["x" := "int"]], 1);
    LexRedeclType(line);
    OpenFirst(st, Scanned(s0.now, s0.rest, s0.line));
    RedeclareFirst(line);
    StmtsStep(s0, s1);
    RedeclareSecond(line);
    StmtsFail(s1, Error("Id was defined", line));
    BlockFail(st, Error("Id was defined", line));
  }

  /** A second declaration of a name in the same block is rejected, and
      nothing is printed; the diagnostic carries the line of the failure. */
  lemma RedeclarationRejected(ws: seq<char>)
    requires AllSpace(ws)
    ensures Translate(ws + "{int x; int x;}") == Err(Error("Id was defined", 1 + NewlineCount(ws)))
  {
    ScenarioBytes(ws);
    RedeclareText();
    InitialBrace(ws, "{int x; int x;}", "int x; int x;}", " int x; int x;}");
    var line := 1 + NewlineCount(ws);
    RedeclareBlock(line);
    TranslateErr(ws + "{int x; int x;}", PState(" int x; int x;}", line, Token(LBrace, ""), "", [], 0),
                 Error("Id was defined", line));
  }

  // "{x;}": a use with no declaration.

  lemma UndeclaredUse(line: int)
    ensures ParseUse(PState(";}", line, Token(IdKind, "x"), "{\n", [map[]], 1))
         == Err(Error("Id not found", line))
  {
    LexSemiBeforeClose(line); LexClose(line);
    UseMissing(PState(";}", line, Token(IdKind, "x"), "{\n", [map[]], 1), Scanned(Token(Semicolon, ""), " }", line), Scanned(Token(RBrace, ""), " ", line));
  }

  lemma UndeclaredBlock(line: int)
    ensures ParseBlock(PState(" x;}", line, Token(LBrace, ""), "", [], 0))
         == Err(Error("Id not found", line))
  {
    var st := PState(" x;}", line, Token(LBrace, ""), "", [], 0);
    var s0 := PState(";}", line, Token(IdKind, "x"), "{\n", [map[]], 1);
    LexNameBeforeClose(line);
    OpenFirst(st, Scanned(s0.now, s0.rest, s0.line));
    UndeclaredUse(line);
    StmtsFail(s0, Error("Id not found", line));
    BlockFail(st, Error("Id not found", line));
  }

  /** A use of a name no open scope declares is rejected, and nothing is printed. */
  lemma UndeclaredRejected(ws: seq<char>)
    requires AllSpace(ws)
    ensures Translate(ws + "{x;}") == Err(Error("Id not found", 1 + NewlineCount(ws)))
  {
    ScenarioBytes(ws);
    UndeclaredText();
    InitialBrace(ws, "{x;}", "x;}", " x;}");
    var line := 1 + NewlineCount(ws);
    UndeclaredBlock(line);
    TranslateErr(ws + "{x;}", PState(" x;}", line, Token(LBrace, ""), "", [], 0), Error("Id not found", line));
  }

  // "{int x; {bool x; x;} x;}": an inner declaration shadows an outer one
  // until its block closes.

  lemma ShadowOuterDecl(line: int)
    ensures ParseDecl(PState(" x; {bool x; x;} x;}", line, Token(TypeKind, "int"), "{\n", [map[]], 1))
         == Ok(PState(" bool x; x;} x;}", line, Token(LBrace, ""), "{\n", [map["x" := "int"]], 1))
  {
    LexShadowOuterName(line); LexShadowOuterSemi(line); LexShadowInnerBrace(line);
    SingleScope("x", "int");
    DeclOk(PState(" x; {bool x; x;} x;}", line, Token(TypeKind, "int"), "{\n", [map[]], 1), Scanned(Token(IdKind, "x"), "; {bool x; x;} x;}", line), Scanned(Token(Semicolon, ""), "  {bool x; x;} x;}", line), Scanned(Token(LBrace, ""), " bool x; x;} x;}", line),
      [map["x" := "int"]]);
  }

  lemma ShadowInnerScopes()
    ensures TypedStack([map["x" := "int"], map[]]) && "x" !in Top([map["x" := "int"], map[]])
    ensures [map["x" := "int"], map[]][..1] + [map[]["x" := "bool"]] == [map["x" := "int"], map["x" := "bool"]]
  {
  }

  lemma ShadowInnerDecl(line: int)
    ensures ParseDecl(PState(" x; x;} x;}", line, Token(TypeKind, "bool"), "{\n\t{\n", [map["x" := "int"], map[]], 2))
         == Ok(PState(";} x;}", line, Token(IdKind, "x"), "{\n\t{\n", [map["x" := "int"], map["x" := "bool"]], 2))
  {
    LexShadowInnerName(line); LexShadowInnerSemi(line); LexShadowInnerUseName(line);
    ShadowInnerScopes();
    DeclOk(PState(" x; x;} x;}", line, Token(TypeKind, "bool"), "{\n\t{\n", [map["x" := "int"], map[]], 2), Scanned(Token(IdKind, "x"), "; x;} x;}", line), Scanned(Token(Semicolon, ""), "  x;} x;}", line), Scanned(Token(IdKind, "x"), ";} x;}", line),
      [map["x" := "int"], map["x" := "bool"]]);
  }

  lemma ShadowInnerUse(line: int)
    ensures ParseUse(PState(";} x;}", line, Token(IdKind, "x"), "{\n\t{\n", [map["x" := "int"], map["x" := "bool"]], 2))
         == Ok(PState("  x;}", line, Token(RBrace, ""), "{\n\t{\n\t\tx: bool;\n", [map["x" := "int"], map["x" := "bool"]], 2))
  {
    LexShadowInnerUseSemi(line); LexShadowInnerClose(line);
    var st := PState(";} x;}", line, Token(IdKind, "x"), "{\n\t{\n", [map["x" := "int"], map["x" := "bool"]], 2);
    ShadowInnerLine();
    UseFound(st, Scanned(Token(Semicolon, ""), " } x;}", line), Scanned(Token(RBrace, ""), "  x;}", line), 1, "{\n\t{\n\t\tx: bool;\n");
  }

  lemma ShadowInnerBody(line: int)
    ensures ParseStmts(PState(" x; x;} x;}", line, Token(TypeKind, "bool"), "{\n\t{\n", [map["x" := "int"], map[]], 2))
         == Ok(PState("  x;}", line, Token(RBrace, ""), "{\n\t{\n\t\tx: bool;\n", [map["x" := "int"], map["x" := "bool"]], 2))
  {
    var s0 := PState(" x; x;} x;}", line, Token(TypeKind, "bool"), "{\n\t{\n", [map["x" := "int"], map[]], 2);
    var s1 := PState(";} x;}", line, Token(IdKind, "x"), "{\n\t{\n", [map["x" := "int"], map["x" := "bool"]], 2);
    var s2 := PState("  x;}", line, Token(RBrace, ""), "{\n\t{\n\t\tx: bool;\n", [map["x" := "int"], map["x" := "bool"]], 2);
    ShadowInnerDecl(line);
    StmtsStep(s0, s1);
    ShadowInnerUse(line);
    StmtsStep(s1, s2);
    StmtsStop(s2);
  }

  lemma ShadowInnerOpen(line: int)
    ensures Enter(Advance(PState(" bool x; x;} x;}", line, Token(LBrace, ""), "{\n", [map["x" := "int"]], 1)))
         == PState(" x; x;} x;}", line, Token(TypeKind, "bool"), "{\n\t{\n", [map["x" := "int"], map[]], 2)
  {
    LexShadowInnerType(line);
    ShadowBraceLines();
    OpenOk(PState(" bool x; x;} x;}", line, Token(LBrace, ""), "{\n", [map["x" := "int"]], 1), Scanned(Token(TypeKind, "bool"), " x; x;} x;}", line), "{\n\t{\n");
  }

  lemma ShadowInnerClose(line: int)
    ensures Leave(Advance(PState("  x;}", line, Token(RBrace, ""), "{\n\t{\n\t\tx: bool;\n", [map["x" := "int"], map["x" := "bool"]], 2)))
         == PState(";}", line, Token(IdKind, "x"), "{\n\t{\n\t\tx: bool;\n\t}\n", [map["x" := "int"]], 1)
  {
    LexUseName(line);
    ShadowBraceLines();
    CloseOk(PState("  x;}", line, Token(RBrace, ""), "{\n\t{\n\t\tx: bool;\n", [map["x" := "int"], map["x" := "bool"]], 2), Scanned(Token(IdKind, "x"), ";}", line), "{\n\t{\n\t\tx: bool;\n\t}\n");
  }

  lemma ShadowInnerBlock(line: int)
    ensures ParseBlock(PState(" bool x; x;} x;}", line, Token(LBrace, ""), "{\n", [map["x" := "int"]], 1))
         == Ok(PState(";}", line, Token(IdKind, "x"), "{\n\t{\n\t\tx: bool;\n\t}\n", [map["x" := "int"]], 1))
  {
    ShadowInnerOpen(line); ShadowInnerBody(line); ShadowInnerClose(line);
    BlockOk(PState(" bool x; x;} x;}", line, Token(LBrace, ""), "{\n", [map["x" := "int"]], 1),
            PState("  x;}", line, Token(RBrace, ""), "{\n\t{\n\t\tx: bool;\n", [map["x" := "int"], map["x" := "bool"]], 2));
  }

  lemma ShadowOuterUse(line: int)
    ensures ParseUse(PState(";}", line, Token(IdKind, "x"), "{\n\t{\n\t\tx: bool;\n\t}\n", [map["x" := "int"]], 1))
         == Ok(PState(" ", line, Token(RBrace, ""), "{\n\t{\n\t\tx: bool;\n\t}\n\tx: int;\n", [map["x" := "int"]], 1))
  {
    LexSemiBeforeClose(line); LexClose(line);
    var st := PState(";}", line, Token(IdKind, "x"), "{\n\t{\n\t\tx: bool;\n\t}\n", [map["x" := "int"]], 1);
    ShadowOuterLine();
    UseFound(st, Scanned(Token(Semicolon, ""), " }", line), Scanned(Token(RBrace, ""), " ", line), 0, "{\n\t{\n\t\tx: bool;\n\t}\n\tx: int;\n");
  }

  lemma ShadowOuterBody(line: int)
    ensures ParseStmts(PState(" x; {bool x; x;} x;}", line, Token(TypeKind, "int"), "{\n", [map[]], 1))
         == Ok(PState(" ", line, Token(RBrace, ""), "{\n\t{\n\t\tx: bool;\n\t}\n\tx: int;\n", [map["x" := "int"]], 1))
  {
    var s0 := PState(" x; {bool x; x;} x;}", line, Token(TypeKind, "int"), "{\n", [map[]], 1);
    var s1 := PState(" bool x; x;} x;}", line, Token(LBrace, ""), "{\n", [map["x" := "int"]], 1);
    var s2 := PState(";}", line, Token(IdKind, "x"), "{\n\t{\n\t\tx: bool;\n\t}\n", [map["x" := "int"]], 1);
    var s3 := PState(" ", line, Token(RBrace, ""), "{\n\t{\n\t\tx: bool;\n\t}\n\tx: int;\n", [map["x" := "int"]], 1);
    ShadowOuterDecl(line);
    StmtsStep(s0, s1);
    ShadowInnerBlock(line);
    StmtsStep(s1, s2);
    ShadowOuterUse(line);
    StmtsStep(s2, s3);
    StmtsStop(s3);
  }

  lemma ShadowOuterOpen(line: int)
    ensures Enter(Advance(PState(" int x; {bool x; x;} x;}", line, Token(LBrace, ""), "", [], 0)))
         == PState(" x; {bool x; x;} x;}", line, Token(TypeKind, "int"), "{\n", [map[]], 1)
  {
    LexShadowOuterType(line);
    OpenFirst(PState(" int x; {bool x; x;} x;}", line, Token(LBrace, ""), "", [], 0), Scanned(Token(TypeKind, "int"), " x; {bool x; x;} x;}", line));
  }

  lemma ShadowOuterClose(line: int)
    ensures Leave(Advance(PState(" ", line, Token(RBrace, ""), "{\n\t{\n\t\tx: bool;\n\t}\n\tx: int;\n", [map["x" := "int"]], 1)))
         == PState(" ", line, EndToken, "{\n\t{\n\t\tx: bool;\n\t}\n\tx: int;\n}\n", [], 0)
  {
    LexEndAfterClose(line);
    ClosingLines();
    CloseOk(PState(" ", line, Token(RBrace, ""), "{\n\t{\n\t\tx: bool;\n\t}\n\tx: int;\n", [map["x" := "int"]], 1), Scanned(EndToken, " ", line),
            "{\n\t{\n\t\tx: bool;\n\t}\n\tx: int;\n}\n");
  }

  lemma ShadowOuterBlock(line: int)
    ensures ParseBlock(PState(" int x; {bool x; x;} x;}", line, Token(LBrace, ""), "", [], 0))
         == Ok(PState(" ", line, EndToken, "{\n\t{\n\t\tx: bool;\n\t}\n\tx: int;\n}\n", [], 0))
  {
    ShadowOuterOpen(line); ShadowOuterBody(line); ShadowOuterClose(line);
    BlockOk(PState(" int x; {bool x; x;} x;}", line, Token(LBrace, ""), "", [], 0),
            PState(" ", line, Token(RBrace, ""), "{\n\t{\n\t\tx: bool;\n\t}\n\tx: int;\n", [map["x" := "int"]], 1));
  }

  /** Inside the inner block the inner declaration wins; once the block has
      closed, the outer declaration is visible again. */
  lemma ShadowingScenario(ws: seq<char>)
    requires AllSpace(ws)
    ensures Translate(ws + "{int x; {bool x; x;} x;}") == Ok("{\n\t{\n\t\tx: bool;\n\t}\n\tx: int;\n}\n")
  {
    ScenarioBytes(ws);
    ShadowText();
    InitialBrace(ws, "{int x; {bool x; x;} x;}", "int x; {bool x; x;} x;}", " int x; {bool x; x;} x;}");
    var line := 1 + NewlineCount(ws);
    ShadowOuterBlock(line);
    TranslateOk(ws + "{int x; {bool x; x;} x;}", PState(" int x; {bool x; x;} x;}", line, Token(LBrace, ""), "", [], 0),
                PState(" ", line, EndToken, "{\n\t{\n\t\tx: bool;\n\t}\n\tx: int;\n}\n", [], 0));
  }

  // "{char c; c; undeclared;}": the failure comes after a use line was
  // already built, and that line is never printed.

  lemma PartialDecl(line: int)
    ensures ParseDecl(PState(" c; c; undeclared;}", line, Token(TypeKind, "char"), "{\n", [map[]], 1))
         == Ok(PState("; undeclared;}", line, Token(IdKind, "c"), "{\n", [map["c" := "char"]], 1))
  {
    LexPartialName(line); LexPartialSemi(line); LexPartialUseName(line);
    SingleScope("c", "char");
    DeclOk(PState(" c; c; undeclared;}", line, Token(TypeKind, "char"), "{\n", [map[]], 1), Scanned(Token(IdKind, "c"), "; c; undeclared;}", line), Scanned(Token(Semicolon, ""), "  c; undeclared;}", line), Scanned(Token(IdKind, "c"), "; undeclared;}", line),
      [map["c" := "char"]]);
  }

  lemma PartialUse(line: int)
    ensures ParseUse(PState("; undeclared;}", line, Token(IdKind, "c"), "{\n", [map["c" := "char"]], 1))
         == Ok(PState(";}", line, Token(IdKind, "undeclared"), "{\n\tc: char;\n", [map["c" := "char"]], 1))
  {
    LexPartialUseSemi(line); LexUndeclaredName(line);
    var st := PState("; undeclared;}", line, Token(IdKind, "c"), "{\n", [map["c" := "char"]], 1);
    PartialLine();
    SingleScope("c", "char");
    UseFound(st, Scanned(Token(Semicolon, ""), "  undeclared;}", line), Scanned(Token(IdKind, "undeclared"), ";}", line), 0, "{\n\tc: char;\n");
  }

  lemma PartialFailure(line: int)
    ensures ParseUse(PState(";}", line, Token(IdKind, "undeclared"), "{\n\tc: char;\n", [map["c" := "char"]], 1))
         == Err(Error("Id not found", line))
  {
    LexSemiBeforeClose(line); LexClose(line);
    SingleScope("c", "char");
    SingleScopeMissing("c", "char", "undeclared");
    UseMissing(PState(";}", line, Token(IdKind, "undeclared"), "{\n\tc: char;\n", [map["c" := "char"]], 1), Scanned(Token(Semicolon, ""), " }", line), Scanned(Token(RBrace, ""), " ", line));
  }

  lemma PartialBlock(line: int)
    ensures ParseBlock(PState(" char c; c; undeclared;}", line, Token(LBrace, ""), "", [], 0))
         == Err(Error("Id not found", line))
  {
    var st := PState(" char c; c; undeclared;}", line, Token(LBrace, ""), "", [], 0);
    var s0 := PState(" c; c; undeclared;}", line, Token(TypeKind, "char"), "{\n", [map[]], 1);
    var s1 := PState("; undeclared;}", line, Token(IdKind, "c"), "{\n", [map["c" := "char"]], 1);
    var s2 := PState(";}", line, Token(IdKind, "undeclared"), "{\n\tc: char;\n", [map["c" := "char"]], 1);
    LexPartialType(line);
    OpenFirst(st, Scanned(s0.now, s0.rest, s0.line));
    PartialDecl(line);
    StmtsStep(s0, s1);
    PartialUse(line);
    StmtsStep(s1, s2);
    PartialFailure(line);
    StmtsFail(s2, Error("Id not found", line));
    BlockFail(st, Error("Id not found", line));
  }

  /** A run that fails after a use line was built yields only the error: the
      output built so far never reaches the result. */
  lemma NothingPrintedOnFailure(ws: seq<char>)
    requires AllSpace(ws)
    ensures Translate(ws + "{char c; c; undeclared;}") == Err(Error("Id not found", 1 + NewlineCount(ws)))
  {
    ScenarioBytes(ws);
    PartialText();
    InitialBrace(ws, "{char c; c; undeclared;}", "char c; c; undeclared;}", " char c; c; undeclared;}");
    var line := 1 + NewlineCount(ws);
    PartialBlock(line);
    TranslateErr(ws + "{char c; c; undeclared;}", PState(" char c; c; undeclared;}", line, Token(LBrace, ""), "", [], 0),
                 Error("Id not found", line));
  }
}
