/** The syntax-directed translation as pure functions of the parser's state:
    code -> block, block -> "{" stmts "}", stmts -> { stmt },
    stmt -> block | type id ";" | id ";".
    A failure is a returned error; nothing is printed unless the whole block parses. */
module Translation {
  import opened Lexing
  import opened Scopes

  const LBrace: int := '{' as int
  const RBrace: int := '}' as int
  const Semicolon: int := ';' as int

  /** The kinds on which stmts goes on with another stmt. */
  predicate StartsStmt(kind: int) { kind == LBrace || kind == TypeKind || kind == IdKind }

  /** A diagnostic: its message and the lexer's line when it was raised. */
  datatype Error = Error(message: string, line: int)

  datatype Result<T> = Ok(value: T) | Err(error: Error)

  /** Everything the parser's methods read and write: the lexer's unread stream
      and line, the lookahead token, the output, the scope stack, the indentation. */
  datatype PState = PState(rest: seq<char>, line: int, now: Token, result: string, scopes: seq<Env>, tabs: int)

  /** The parser just constructed: the lexer starts on a blank, and the first
      token is read before any grammar rule runs. */
  function Initial(input: seq<char>): (r: PState)
    ensures r.result == "" && r.scopes == [] && r.tabs == 0 && r.line >= 1
    ensures r.now.kind == EndKind <==> AllSpace(input)
  {
    ScanFacts([' '] + input, 1);
    assert AllSpace([' '] + input) <==> AllSpace(input) by {
      assert forall i | 0 <= i < |input| :: input[i] == ([' '] + input)[i + 1];
    }
    var sc := Scan([' '] + input, 1);
    PState(sc.rest, sc.line, sc.token, "", [], 0)
  }

  /** now = lexer.lex(): only the lexer's part of the state changes, the line
      never decreases, and reading past any token but the end token makes
      progress. */
  function Advance(st: PState): (r: PState)
    ensures r.result == st.result && r.scopes == st.scopes && r.tabs == st.tabs
    ensures r.line >= st.line
    ensures st.now.kind != EndKind ==> PMeasure(r) < PMeasure(st)
  {
    ScanFacts(st.rest, st.line);
    var sc := Scan(st.rest, st.line);
    st.(rest := sc.rest, line := sc.line, now := sc.token)
  }

  /** Decreases with every token consumed. */
  function PMeasure(st: PState): nat {
    Measure(st.rest) + (if st.now.kind == EndKind then 0 else 1)
  }

  /** A step of the parse never moves the line back, neither on success nor in
      the error it reports. */
  predicate LineKept(st: PState, r: Result<PState>) {
    && (r.Ok? ==> r.value.line >= st.line)
    && (r.Err? ==> r.error.line >= st.line)
  }

  /** Parser::match: consumes the lookahead when it has the expected kind, and
      fails with the caller's message at the current line otherwise. */
  function MatchToken(st: PState, kind: int, message: string): (r: Result<PState>)
    ensures r.Ok? <==> st.now.kind == kind
    ensures r.Ok? ==> r.value == Advance(st)
    ensures r.Ok? && kind != EndKind ==> PMeasure(r.value) < PMeasure(st)
    ensures r.Err? ==> r.error == Error(message, st.line)
  {
    if st.now.kind == kind then Ok(Advance(st)) else Err(Error(message, st.line))
  }

  /** Parser::print_tabs: one tab per indentation level. */
  function Tabs(n: int): (r: string)
    ensures |r| == if n <= 0 then 0 else n
    ensures forall i | 0 <= i < |r| :: r[i] == '\t'
  {
    if n <= 0 then "" else Tabs(n - 1) + "\t"
  }

  function OpenLine(depth: int): string { Tabs(depth) + "{\n" }
  function CloseLine(depth: int): string { Tabs(depth) + "}\n" }
  function UseLine(depth: int, name: string, typ: string): string { Tabs(depth) + name + ": " + typ + ";\n" }

  function Top(scopes: seq<Env>): Env
    requires |scopes| > 0
  {
    scopes[|scopes| - 1]
  }

  /** b is a by appending text. */
  predicate Extends(a: string, b: string) { |a| <= |b| && b[..|a|] == a }

  /** after is before followed by an opening line at depth, some text and a closing line at depth. */
  predicate Framed(before: string, after: string, depth: int) {
    && |before| + |OpenLine(depth)| + |CloseLine(depth)| <= |after|
    && after[..|before| + |OpenLine(depth)|] == before + OpenLine(depth)
    && after[|after| - |CloseLine(depth)|..] == CloseLine(depth)
  }

  /** What a statement or a statement list may change: it consumes input, keeps
      the indentation, the number of scopes and every scope but the innermost,
      keeps every binding of the innermost scope, and only appends output. */
  predicate Confined(st: PState, r: PState)
    requires |st.scopes| > 0
  {
    && PMeasure(r) <= PMeasure(st)
    && |r.scopes| == |st.scopes|
    && r.scopes[..|r.scopes| - 1] == st.scopes[..|st.scopes| - 1]
    && (forall n | n in Top(st.scopes) :: n in Top(r.scopes) && Top(r.scopes)[n] == Top(st.scopes)[n])
    && r.tabs == st.tabs
    && Extends(st.result, r.result)
  }

  lemma ConfinedTrans(a: PState, b: PState, c: PState)
    requires |a.scopes| > 0 && Confined(a, b) && Confined(b, c)
    ensures Confined(a, c)
  {
  }

  /** The entry actions of block: print "{" at the current indentation, indent
      one level deeper, and open a new, empty scope. */
  function Enter(st: PState): (r: PState)
    ensures r.rest == st.rest && r.line == st.line && r.now == st.now
    ensures |r.scopes| == |st.scopes| + 1 && Top(r.scopes) == map[] && Extends(st.result, r.result)
    ensures Leave(r).scopes == st.scopes && Leave(r).tabs == st.tabs
  {
    st.(result := st.result + OpenLine(st.tabs), tabs := st.tabs + 1, scopes := st.scopes + [map[]])
  }

  /** The exit actions of block: indent one level less, print "}" there, and
      close the innermost scope. */
  function Leave(st: PState): (r: PState)
    requires |st.scopes| > 0
    ensures r.rest == st.rest && r.line == st.line && r.now == st.now
    ensures |r.scopes| == |st.scopes| - 1 && Extends(st.result, r.result)
    ensures forall i | 0 <= i < |r.scopes| :: r.scopes[i] == st.scopes[i]
  {
    st.(tabs := st.tabs - 1, result := st.result + CloseLine(st.tabs - 1), scopes := st.scopes[..|st.scopes| - 1])
  }

  /** Parser::block. On success it has consumed input and left as many scopes
      open as before. */
  function ParseBlock(st: PState): (r: Result<PState>)
    ensures r.Ok? ==> PMeasure(r.value) < PMeasure(st) && |r.value.scopes| == |st.scopes|
    decreases PMeasure(st), 0
    ensures LineKept(st, r)
  {
    match MatchToken(st, LBrace, "Expect a '{'")
    case Err(e) => Err(e)
    case Ok(s1) =>
      match ParseStmts(Enter(s1))
      case Err(e) => Err(e)
      case Ok(s2) =>
        match MatchToken(s2, RBrace, "Expect a '}'")
        case Err(e) => Err(e)
        case Ok(s3) => Ok(Leave(s3))
  }

  /** Parser::stmts. On success it stopped at a token that cannot start a
      statement, and left as many scopes open as before. */
  function ParseStmts(st: PState): (r: Result<PState>)
    requires |st.scopes| > 0
    ensures r.Ok? ==> PMeasure(r.value) <= PMeasure(st) && |r.value.scopes| == |st.scopes|
    ensures r.Ok? ==> !StartsStmt(r.value.now.kind)
    decreases PMeasure(st), 2
    ensures LineKept(st, r)
  {
    if StartsStmt(st.now.kind) then
      match ParseStmt(st)
      case Err(e) => Err(e)
      case Ok(s1) => ParseStmts(s1)
    else
      Ok(st)
  }

  /** Parser::stmt, entered only on a token that starts a statement; the test at
      the last branch assigns Id to a kind that is already Id, so it is the
      identifier case. On success the statement consumed at least one token and
      left as many scopes open as before. */
  function ParseStmt(st: PState): (r: Result<PState>)
    requires |st.scopes| > 0 && StartsStmt(st.now.kind)
    ensures r.Ok? ==> PMeasure(r.value) < PMeasure(st) && |r.value.scopes| == |st.scopes|
    decreases PMeasure(st), 1
    ensures LineKept(st, r)
  {
    if st.now.kind == LBrace then ParseBlock(st)
    else if st.now.kind == TypeKind then ParseDecl(st)
    else ParseUse(st)
  }

  /** The declaration branch of stmt: type id ";". The name is checked against
      the innermost scope only, and bound there. */
  function ParseDecl(st: PState): (r: Result<PState>)
    requires |st.scopes| > 0 && st.now.kind == TypeKind
    ensures r.Ok? ==> PMeasure(r.value) < PMeasure(st) && |r.value.scopes| == |st.scopes|
    ensures LineKept(st, r)
  {
    var typ := st.now.value;
    match MatchToken(st, TypeKind, "")
    case Err(e) => Err(e)
    case Ok(s1) =>
      var name := s1.now.value;
      match MatchToken(s1, IdKind, "Expect a id after a type")
      case Err(e) => Err(e)
      case Ok(s2) =>
        match MatchToken(s2, Semicolon, "Expect a ';'")
        case Err(e) => Err(e)
        case Ok(s3) =>
          if Find(Top(s3.scopes), name) != "" then
            Err(Error("Id was defined", s3.line))
          else
            Ok(s3.(scopes := s3.scopes[..|s3.scopes| - 1] + [Push(Top(s3.scopes), typ, name)]))
  }

  /** The identifier branch of stmt: id ";". The name is looked up innermost
      scope first and printed with its type. */
  function ParseUse(st: PState): (r: Result<PState>)
    requires |st.scopes| > 0 && st.now.kind == IdKind
    ensures r.Ok? ==> PMeasure(r.value) < PMeasure(st) && |r.value.scopes| == |st.scopes|
    ensures LineKept(st, r)
  {
    var name := st.now.value;
    match MatchToken(st, IdKind, "")
    case Err(e) => Err(e)
    case Ok(s1) =>
      match MatchToken(s1, Semicolon, "Expect a ';'")
      case Err(e) => Err(e)
      case Ok(s2) =>
        var found := Resolve(s2.scopes, name);
        if found == "" then
          Err(Error("Id not found", s2.line))
        else
          Ok(s2.(result := s2.result + UseLine(s2.tabs, name, found)))
  }

  /** The whole program: construct the parser, run code(), and print the result
      only when it succeeded. Input after the first block is never examined
      beyond the one token of lookahead. */
  function Translate(input: seq<char>): (r: Result<string>)
    requires ByteText(input)
    ensures r.Err? ==> r.error.line >= 1
    ensures AllSpace(input) ==> r.Err? && r.error.message == "Expect a '{'"
  {
    match ParseBlock(Initial(input))
    case Ok(s) => Ok(s.result)
    case Err(e) => Err(e)
  }
}
