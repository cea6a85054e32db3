/** What the translation guarantees: blocks restore indentation and scopes and
    frame their output in braces; statements only append output and keep the
    enclosing scopes; declarations and uses follow the scope rules; and the
    output of a successful run has balanced braces. */
module Properties {
  import opened Lexing
  import opened Scopes
  import opened Translation

  /** A block restores the scope stack (the scope it pushed is gone) and the
      indentation, and its output is its opening line, its body and its closing
      line, both at the entry indentation. */
  lemma {:induction false} BlockShape(st: PState)
    ensures ParseBlock(st).Ok? ==>
      var r := ParseBlock(st).value;
      r.scopes == st.scopes && r.tabs == st.tabs && Framed(st.result, r.result, st.tabs)
    decreases PMeasure(st), 0
  {
    match MatchToken(st, LBrace, "Expect a '{'")
    case Err(_) =>
    case Ok(s1) =>
      var s2 := Enter(s1);
      StmtsShape(s2);
      match ParseStmts(s2)
      case Err(_) =>
      case Ok(s3) =>
        match MatchToken(s3, RBrace, "Expect a '}'")
        case Err(_) =>
        case Ok(s4) =>
          assert s2.scopes[..|s2.scopes| - 1] == st.scopes;
          CloseFramed(st.result, s3.result, st.tabs, Leave(s4).result);
  }

  /** Text that starts with an opening line, followed by the closing line at the
      same depth, is framed. */
  lemma CloseFramed(before: string, body: string, depth: int, after: string)
    requires Extends(before + OpenLine(depth), body) && after == body + CloseLine(depth)
    ensures Framed(before, after, depth)
  {
    var open := |before| + |OpenLine(depth)|;
    assert after[..open] == body[..open];
  }

  /** A statement list consumes input, keeps the indentation, the enclosing
      scopes and every binding of the innermost scope, and only appends output. */
  lemma {:induction false} StmtsShape(st: PState)
    requires |st.scopes| > 0
    ensures ParseStmts(st).Ok? ==> Confined(st, ParseStmts(st).value)
    decreases PMeasure(st), 2
  {
    if StartsStmt(st.now.kind) {
      StmtShape(st);
      match ParseStmt(st)
      case Err(_) =>
      case Ok(s1) =>
        StmtsShape(s1);
        if ParseStmts(s1).Ok? {
          ConfinedTrans(st, s1, ParseStmts(s1).value);
        }
    } else {
      assert st.result[..|st.result|] == st.result;
    }
  }

  /** The same for one statement. */
  lemma {:induction false} StmtShape(st: PState)
    requires |st.scopes| > 0 && StartsStmt(st.now.kind)
    ensures ParseStmt(st).Ok? ==> Confined(st, ParseStmt(st).value)
    decreases PMeasure(st), 1
  {
    if st.now.kind == LBrace {
      BlockShape(st);
      if ParseBlock(st).Ok? {
        FramedConfined(st, ParseBlock(st).value);
      }
    } else if st.now.kind == TypeKind {
      DeclConfined(st);
    } else {
      UseConfined(st);
    }
  }

  lemma FramedConfined(st: PState, r: PState)
    requires |st.scopes| > 0 && PMeasure(r) <= PMeasure(st)
    requires r.scopes == st.scopes && r.tabs == st.tabs && Framed(st.result, r.result, st.tabs)
    ensures Confined(st, r)
  {
    assert r.result[..|st.result|] == r.result[..|st.result| + |OpenLine(st.tabs)|][..|st.result|];
  }

  lemma DeclConfined(st: PState)
    requires |st.scopes| > 0 && st.now.kind == TypeKind
    ensures ParseDecl(st).Ok? ==> Confined(st, ParseDecl(st).value)
  {
    if ParseDecl(st).Ok? {
      var r := ParseDecl(st).value;
      assert r.result == st.result && r.result[..|st.result|] == st.result;
    }
  }

  lemma UseConfined(st: PState)
    requires |st.scopes| > 0 && st.now.kind == IdKind
    ensures ParseUse(st).Ok? ==> Confined(st, ParseUse(st).value)
  {
    if ParseUse(st).Ok? {
      var r := ParseUse(st).value;
      assert r.result[..|st.result|] == st.result;
    }
  }

  /** Indentation follows nesting: when the indentation equals the number of
      open scopes (as it does at the start of a run, and as Enter and Leave keep
      it), a block prints its brace lines at that depth and returns with the
      two equal again. */
  lemma BlockDepth(st: PState)
    requires st.tabs == |st.scopes|
    ensures ParseBlock(st).Ok? ==>
      var r := ParseBlock(st).value;
      r.tabs == |r.scopes| && Framed(st.result, r.result, |st.scopes|)
  {
    BlockShape(st);
  }

  /** The same for a statement list: the indentation still equals the number
      of open scopes when it ends. */
  lemma StmtsDepth(st: PState)
    requires |st.scopes| > 0 && st.tabs == |st.scopes|
    ensures ParseStmts(st).Ok? ==> ParseStmts(st).value.tabs == |ParseStmts(st).value.scopes|
  {
    StmtsShape(st);
  }

  /** Inside a block the indentation equals the number of open scopes, and a
      use prints its line at that depth. */
  lemma UseDepth(st: PState)
    requires |st.scopes| > 0 && st.now.kind == IdKind && st.tabs == |st.scopes|
    ensures ParseUse(st).Ok? ==>
      ParseUse(st).value.result
        == st.result + Tabs(|st.scopes|) + st.now.value + ": " + Resolve(st.scopes, st.now.value) + ";\n"
  {
  }

  /** A declaration fails with "Id was defined" exactly when its name is bound
      in the innermost scope; a binding in an enclosing scope does not stop it
      (shadowing). On success only the innermost scope gains the binding and
      nothing is printed. */
  lemma DeclRule(st: PState)
    requires |st.scopes| > 0 && st.now.kind == TypeKind && TypedStack(st.scopes)
    ensures
      var s1 := Advance(st);
      var s2 := Advance(s1);
      var s3 := Advance(s2);
      var name := s1.now.value;
      ParseDecl(st) ==
        if s1.now.kind != IdKind then Err(Error("Expect a id after a type", s1.line))
        else if s2.now.kind != Semicolon then Err(Error("Expect a ';'", s2.line))
        else if name in Top(st.scopes) then Err(Error("Id was defined", s3.line))
        else Ok(s3.(scopes := st.scopes[..|st.scopes| - 1] + [Top(st.scopes)[name := st.now.value]]))
  {
  }

  /** A use needs a ";"; it fails with "Id not found" exactly when no open scope
      binds the name; otherwise it prints "name: type;" at the current
      indentation with the type from the innermost scope that binds the name,
      and leaves the scope stack as it was. */
  lemma UseRule(st: PState, i: int)
    requires |st.scopes| > 0 && st.now.kind == IdKind && TypedStack(st.scopes)
    ensures
      var s1 := Advance(st);
      s1.now.kind != Semicolon ==> ParseUse(st) == Err(Error("Expect a ';'", s1.line))
    ensures
      var s2 := Advance(Advance(st));
      var name := st.now.value;
      Advance(st).now.kind == Semicolon ==>
        && (ParseUse(st).Err? <==> forall j | 0 <= j < |st.scopes| :: name !in st.scopes[j])
        && (ParseUse(st).Err? ==> ParseUse(st).error == Error("Id not found", s2.line))
        && (Innermost(st.scopes, name, i) ==>
              ParseUse(st) == Ok(s2.(result := st.result + UseLine(st.tabs, name, st.scopes[i][name]))))
  {
    ResolveUnbound(st.scopes, st.now.value);
    if Innermost(st.scopes, st.now.value, i) {
      ResolveInnermost(st.scopes, st.now.value, i);
    }
  }

  // Brace balance of the output.

  function Delta(c: char): int {
    if c == '{' then 1 else if c == '}' then -1 else 0
  }

  /** Opening braces minus closing braces. */
  function Balance(s: string): int {
    if s == [] then 0 else Balance(s[..|s| - 1]) + Delta(s[|s| - 1])
  }

  lemma {:induction false} BalanceAppend(a: string, b: string)
    ensures Balance(a + b) == Balance(a) + Balance(b)
    decreases |b|
  {
    if b == [] {
      assert a + b == a;
    } else {
      assert (a + b)[..|a + b| - 1] == a + b[..|b| - 1];
      assert (a + b)[|a + b| - 1] == b[|b| - 1];
      BalanceAppend(a, b[..|b| - 1]);
    }
  }

  predicate NoBraces(s: string) { forall i | 0 <= i < |s| :: s[i] != '{' && s[i] != '}' }

  lemma {:induction false} BalanceNoBraces(s: string)
    requires NoBraces(s)
    ensures Balance(s) == 0
    decreases |s|
  {
    if s != [] {
      BalanceNoBraces(s[..|s| - 1]);
    }
  }

  lemma NoBracesAppend(a: string, b: string)
    requires NoBraces(a) && NoBraces(b)
    ensures NoBraces(a + b)
  {
    forall i | 0 <= i < |a + b|
      ensures (a + b)[i] != '{' && (a + b)[i] != '}'
    {
      if i >= |a| {
        assert (a + b)[i] == b[i - |a|];
      }
    }
  }

  lemma BraceLineBalances(depth: int)
    ensures Balance(OpenLine(depth)) == 1 && Balance(CloseLine(depth)) == -1
  {
    var tabs := Tabs(depth);
    BalanceNoBraces(tabs);
    BalanceAppend(tabs, "{\n");
    BalanceAppend(tabs, "}\n");
    assert Balance("{\n") == 1 && Balance("}\n") == -1;
  }

  lemma UseLineBalances(depth: int, name: string, typ: string)
    requires IsWord(name) && IsKeyword(typ)
    ensures Balance(UseLine(depth, name, typ)) == 0
  {
    var tabs := Tabs(depth);
    assert NoBraces(tabs);
    assert NoBraces(name);
    assert NoBraces(": ");
    assert NoBraces(typ);
    assert NoBraces(";\n");
    NoBracesAppend(tabs, name);
    NoBracesAppend(tabs + name, ": ");
    NoBracesAppend(tabs + name + ": ", typ);
    NoBracesAppend(tabs + name + ": " + typ, ";\n");
    BalanceNoBraces(UseLine(depth, name, typ));
  }

  /** Every type bound in the scope stack is a keyword. */
  predicate KeywordScopes(scopes: seq<Env>) {
    forall i, n | 0 <= i < |scopes| && n in scopes[i] :: IsKeyword(scopes[i][n])
  }

  /** The states a run reaches: byte text left, a token the lexer can produce,
      and keyword types in every scope. */
  predicate WellFormed(st: PState) {
    ByteText(st.rest) && ValidToken(st.now) && KeywordScopes(st.scopes)
  }

  lemma AdvanceWellFormed(st: PState)
    requires WellFormed(st)
    ensures WellFormed(Advance(st))
  {
    ScanFacts(st.rest, st.line);
  }

  /** Opening a block prints one "{" and opens an empty scope. */
  lemma EnterBalanced(st: PState)
    requires WellFormed(st)
    ensures WellFormed(Enter(st)) && Balance(Enter(st).result) == Balance(st.result) + 1
  {
    BraceLineBalances(st.tabs);
    BalanceAppend(st.result, OpenLine(st.tabs));
  }

  /** Closing a block prints one "}" and closes the innermost scope. */
  lemma LeaveBalanced(st: PState)
    requires WellFormed(st) && |st.scopes| > 0
    ensures WellFormed(Leave(st)) && Balance(Leave(st).result) == Balance(st.result) - 1
  {
    BraceLineBalances(st.tabs - 1);
    BalanceAppend(st.result, CloseLine(st.tabs - 1));
    var r := Leave(st);
    assert forall i | 0 <= i < |r.scopes| :: r.scopes[i] == st.scopes[i];
  }

  /** A block keeps the state well formed and prints as many "{" as "}". */
  lemma {:induction false} BlockBalanced(st: PState)
    requires WellFormed(st)
    ensures ParseBlock(st).Ok? ==>
      WellFormed(ParseBlock(st).value) && Balance(ParseBlock(st).value.result) == Balance(st.result)
    decreases PMeasure(st), 0
  {
    match MatchToken(st, LBrace, "Expect a '{'")
    case Err(_) =>
    case Ok(s1) =>
      AdvanceWellFormed(st);
      EnterBalanced(s1);
      StmtsBalanced(Enter(s1));
      match ParseStmts(Enter(s1))
      case Err(_) =>
      case Ok(s3) =>
        match MatchToken(s3, RBrace, "Expect a '}'")
        case Err(_) =>
        case Ok(s4) =>
          AdvanceWellFormed(s3);
          LeaveBalanced(s4);
  }

  lemma {:induction false} StmtsBalanced(st: PState)
    requires |st.scopes| > 0 && WellFormed(st)
    ensures ParseStmts(st).Ok? ==>
      WellFormed(ParseStmts(st).value) && Balance(ParseStmts(st).value.result) == Balance(st.result)
    decreases PMeasure(st), 2
  {
    if StartsStmt(st.now.kind) {
      StmtBalanced(st);
      match ParseStmt(st)
      case Err(_) =>
      case Ok(s1) => StmtsBalanced(s1);
    }
  }

  lemma {:induction false} StmtBalanced(st: PState)
    requires |st.scopes| > 0 && StartsStmt(st.now.kind) && WellFormed(st)
    ensures ParseStmt(st).Ok? ==>
      WellFormed(ParseStmt(st).value) && Balance(ParseStmt(st).value.result) == Balance(st.result)
    decreases PMeasure(st), 1
  {
    if st.now.kind == LBrace {
      BlockBalanced(st);
    } else if st.now.kind == TypeKind {
      DeclBalanced(st);
    } else {
      UseBalanced(st);
    }
  }

  lemma KeywordScopesTyped(scopes: seq<Env>)
    requires KeywordScopes(scopes)
    ensures TypedStack(scopes)
  {
    forall i | 0 <= i < |scopes|
      ensures TypedEnv(scopes[i])
    {
      forall n | n in scopes[i]
        ensures scopes[i][n] != ""
      {
        assert IsKeyword(scopes[i][n]);
      }
    }
  }

  lemma KeywordScopesBind(scopes: seq<Env>, name: string, typ: string)
    requires |scopes| > 0 && KeywordScopes(scopes) && IsKeyword(typ)
    ensures KeywordScopes(scopes[..|scopes| - 1] + [Top(scopes)[name := typ]])
  {
    var r := scopes[..|scopes| - 1] + [Top(scopes)[name := typ]];
    forall i, n | 0 <= i < |r| && n in r[i]
      ensures IsKeyword(r[i][n])
    {
      if i < |scopes| - 1 {
        assert r[i] == scopes[i];
      }
    }
  }

  lemma DeclBalanced(st: PState)
    requires |st.scopes| > 0 && st.now.kind == TypeKind && WellFormed(st)
    ensures ParseDecl(st).Ok? ==>
      WellFormed(ParseDecl(st).value) && ParseDecl(st).value.result == st.result
  {
    if ParseDecl(st).Ok? {
      KeywordScopesTyped(st.scopes);
      DeclRule(st);
      var s1 := Advance(st);
      AdvanceWellFormed(st);
      AdvanceWellFormed(s1);
      AdvanceWellFormed(Advance(s1));
      assert IsKeyword(st.now.value);
      KeywordScopesBind(st.scopes, s1.now.value, st.now.value);
    }
  }

  lemma UseBalanced(st: PState)
    requires |st.scopes| > 0 && st.now.kind == IdKind && WellFormed(st)
    ensures ParseUse(st).Ok? ==>
      WellFormed(ParseUse(st).value) && Balance(ParseUse(st).value.result) == Balance(st.result)
  {
    if ParseUse(st).Ok? {
      var s1 := Advance(st);
      AdvanceWellFormed(st);
      AdvanceWellFormed(s1);
      var s2 := Advance(s1);
      var name := st.now.value;
      var found := Resolve(s2.scopes, name);
      ResolveBound(s2.scopes, name);
      assert IsKeyword(found);
      UseLineBalances(s2.tabs, name, found);
      BalanceAppend(s2.result, UseLine(s2.tabs, name, found));
    }
  }

  /** The output of a successful run is one block: it starts with "{" and ends
      with "}" lines at no indentation, and has as many "{" as "}". */
  lemma TranslateBalanced(input: seq<char>)
    requires ByteText(input)
    ensures Translate(input).Ok? ==>
      var out := Translate(input).value;
      Framed("", out, 0) && Balance(out) == 0
  {
    var st := Initial(input);
    ScanFacts([' '] + input, 1);
    assert ByteText([' '] + input);
    assert WellFormed(st);
    BlockBalanced(st);
    BlockShape(st);
  }
}
