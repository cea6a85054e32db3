/** The recursive-descent parser as an object: it owns the lexer, the one-token
    lookahead, the output string, the indentation and the scope stack. Every
    method is proved to do what the corresponding function of Translation says. */
module Parsing {
  import opened Lexing
  import opened Scopes
  import opened Translation

  /** How a parser method ended: normally, or with the error the source reports
      before exiting. */
  datatype Outcome = Pass | Fail(error: Error)

  function OutcomeOf(r: Result<PState>): Outcome {
    match r
    case Ok(_) => Pass
    case Err(e) => Fail(e)
  }

  class Parser {
    const lexer: Lexer
    var result: string
    var stack: seq<Env>
    var tabs: int
    var now: Token

    ghost predicate Valid()
      reads this, lexer
    {
      lexer.Valid()
    }

    /** The parser's state as the functions of Translation see it. */
    ghost function State(): PState
      reads this, lexer
      requires Valid()
    {
      PState(lexer.Rest(), lexer.line, now, result, stack, tabs)
    }

    constructor (input: seq<char>)
      requires ByteText(input)
      ensures Valid() && State() == Initial(input) && fresh(lexer)
    {
      lexer := new Lexer(input);
      result, stack, tabs := "", [], 0;
      now := Token(0, "");
      new;
      now := lexer.Lex();
    }

    /** Parser::match: returns the matched token and reads the next one, or fails. */
    method Match(kind: int, message: string) returns (t: Token, out: Outcome)
      requires Valid()
      modifies this, lexer
      ensures Valid()
      ensures out == OutcomeOf(MatchToken(old(State()), kind, message))
      ensures out.Pass? ==> t == old(now) && State() == MatchToken(old(State()), kind, message).value
    {
      t := now;
      if now.kind == kind {
        now := lexer.Lex();
        out := Pass;
      } else {
        out := Fail(Error(message, lexer.line));
      }
    }

    /** Parser::print_tabs: appends tabs tab characters. */
    method PrintTabs()
      modifies this`result
      ensures result == old(result) + Tabs(tabs)
    {
      var i := 1;
      while i <= tabs
        invariant 1 <= i && (tabs >= 1 ==> i <= tabs + 1) && (tabs < 1 ==> i == 1)
        invariant result == old(result) + Tabs(i - 1)
      {
        result := result + "\t";
        i := i + 1;
      }
    }

    /** Parser::code: the program is one block. */
    method Code() returns (out: Outcome)
      requires Valid()
      modifies this, lexer
      ensures Valid()
      ensures out == OutcomeOf(ParseBlock(old(State())))
      ensures out.Pass? ==> State() == ParseBlock(old(State())).value
    {
      out := Block();
    }

    /** Lines 183-186 of block: the opening brace, one more level, a new scope. */
    method EnterBlock()
      requires Valid()
      modifies this`result, this`tabs, this`stack
      ensures Valid() && State() == Enter(old(State()))
    {
      PrintTabs();
      result := result + "{\n";
      tabs := tabs + 1;
      stack := stack + [map[]];
    }

    /** Lines 189-192 of block: one level less, the closing brace, the scope popped. */
    method LeaveBlock()
      requires Valid() && |stack| > 0
      modifies this`result, this`tabs, this`stack
      ensures Valid() && State() == Leave(old(State()))
    {
      tabs := tabs - 1;
      PrintTabs();
      result := result + "}\n";
      stack := stack[..|stack| - 1];
    }

    /** Parser::block */
    method Block() returns (out: Outcome)
      requires Valid()
      modifies this, lexer
      decreases PMeasure(State()), 0
      ensures Valid()
      ensures out == OutcomeOf(ParseBlock(old(State())))
      ensures out.Pass? ==> State() == ParseBlock(old(State())).value
    {
      var t;
      t, out := Match(LBrace, "Expect a '{'");
      if out.Fail? {
        return;
      }
      EnterBlock();
      out := Stmts();
      if out.Fail? {
        return;
      }
      t, out := Match(RBrace, "Expect a '}'");
      if out.Fail? {
        return;
      }
      LeaveBlock();
    }

    /** Parser::stmts */
    method Stmts() returns (out: Outcome)
      requires Valid() && |stack| > 0
      modifies this, lexer
      decreases PMeasure(State()), 2
      ensures Valid()
      ensures out == OutcomeOf(ParseStmts(old(State())))
      ensures out.Pass? ==> State() == ParseStmts(old(State())).value
    {
      if now.kind == LBrace || now.kind == TypeKind || now.kind == IdKind {
        out := Stmt();
        if out.Fail? {
          return;
        }
        out := Stmts();
      } else {
        out := Pass;
      }
    }

    /** Parser::stmt */
    method Stmt() returns (out: Outcome)
      requires Valid() && |stack| > 0 && StartsStmt(now.kind)
      modifies this, lexer
      decreases PMeasure(State()), 1
      ensures Valid()
      ensures out == OutcomeOf(ParseStmt(old(State())))
      ensures out.Pass? ==> State() == ParseStmt(old(State())).value
    {
      if now.kind == LBrace {
        out := Block();
      } else if now.kind == TypeKind {
        out := Declaration();
      } else {
        out := Use();
      }
    }

    /** The declaration branch of stmt (lines 209-223). */
    method Declaration() returns (out: Outcome)
      requires Valid() && |stack| > 0 && now.kind == TypeKind
      modifies this, lexer
      ensures Valid()
      ensures out == OutcomeOf(ParseDecl(old(State())))
      ensures out.Pass? ==> State() == ParseDecl(old(State())).value
    {
      var typ, name, t;
      typ, out := Match(TypeKind, "");
      if out.Fail? {
        return;
      }
      name, out := Match(IdKind, "Expect a id after a type");
      if out.Fail? {
        return;
      }
      t, out := Match(Semicolon, "Expect a ';'");
      if out.Fail? {
        return;
      }
      var find := Find(stack[|stack| - 1], name.value);
      if find != "" {
        return Fail(Error("Id was defined", lexer.line));
      }
      stack := stack[..|stack| - 1] + [Push(stack[|stack| - 1], typ.value, name.value)];
    }

    /** The identifier branch of stmt (lines 224-250). */
    method Use() returns (out: Outcome)
      requires Valid() && |stack| > 0 && now.kind == IdKind
      modifies this, lexer
      ensures Valid()
      ensures out == OutcomeOf(ParseUse(old(State())))
      ensures out.Pass? ==> State() == ParseUse(old(State())).value
    {
      var name, t;
      name, out := Match(IdKind, "");
      if out.Fail? {
        return;
      }
      ghost var s1 := State();
      t, out := Match(Semicolon, "Expect a ';'");
      if out.Fail? {
        return;
      }
      ghost var s2 := State();
      assert s2 == MatchToken(s1, Semicolon, "Expect a ';'").value;
      var find := Find(stack[|stack| - 1], name.value);
      if find == "" {
        find := SearchScopes(name.value);
        if find == "" {
          return Fail(Error("Id not found", lexer.line));
        }
      }
      assert find == Resolve(s2.scopes, name.value);
      PrintUse(name.value, find);
    }

    /** Lines 248-249: the annotated line for a use. */
    method PrintUse(name: string, typ: string)
      modifies this`result
      ensures result == old(result) + UseLine(tabs, name, typ)
    {
      PrintTabs();
      result := result + name + ": " + typ + ";\n";
    }

    /** The lookup of stmt's identifier case: pops scopes onto a temporary stack
        until one binds the name, then pushes them all back. */
    method SearchScopes(name: string) returns (find: string)
      modifies this`stack
      ensures stack == old(stack)
      ensures find == Resolve(stack, name)
    {
      ghost var s0 := stack;
      find := "";
      var temp: seq<Env> := [];
      while |stack| > 0 && find == ""
        invariant |stack| + |temp| == |s0| && stack == s0[..|stack|]
        invariant forall i | 0 <= i < |temp| :: temp[i] == s0[|s0| - 1 - i]
        invariant find == "" ==> Resolve(stack, name) == Resolve(s0, name)
        invariant find != "" ==> find == Resolve(s0, name)
      {
        find := Find(stack[|stack| - 1], name);
        temp := temp + [stack[|stack| - 1]];
        stack := stack[..|stack| - 1];
      }
      while |temp| > 0
        invariant |stack| + |temp| == |s0| && stack == s0[..|stack|]
        invariant forall i | 0 <= i < |temp| :: temp[i] == s0[|s0| - 1 - i]
      {
        assert s0[..|stack| + 1] == stack + [temp[|temp| - 1]];
        stack := stack + [temp[|temp| - 1]];
        temp := temp[..|temp| - 1];
      }
    }
  }

  /** main: runs the parser over the input and returns what print_result would
      print, or the error that ended the run with nothing printed. */
  method Run(input: seq<char>) returns (r: Result<string>)
    requires ByteText(input)
    ensures r == Translate(input)
  {
    var parser := new Parser(input);
    var out := parser.Code();
    if out.Pass? {
      r := Ok(parser.result);
    } else {
      r := Err(out.error);
    }
  }
}
