/** The lexer of the type-getting language: characters to tokens, with keyword
    recognition and a line counter for diagnostics. */
module Lexing {

  // Token kinds: a punctuation token's kind is its character code; the two tags
  // follow the byte range, and end of input is -1.
  const TypeKind: int := 256
  const IdKind: int := 257
  const EndKind: int := -1

  /** A token: its kind, and the keyword or identifier text ("" for the others). */
  datatype Token = Token(kind: int, value: string)

  const EndToken: Token := Token(EndKind, "")

  predicate IsSpace(c: char) { c == ' ' || c == '\n' || c == '\t' }
  predicate IsLower(c: char) { 'a' <= c <= 'z' }
  predicate IsDigit(c: char) { '0' <= c <= '9' }
  predicate IsWordChar(c: char) { IsLower(c) || IsDigit(c) }

  predicate AllSpace(s: seq<char>) { forall i | 0 <= i < |s| :: IsSpace(s[i]) }

  /** Text the lexer can accumulate: a lower-case letter, then letters and digits. */
  predicate IsWord(s: string) {
    |s| > 0 && IsLower(s[0]) && forall i | 0 <= i < |s| :: IsWordChar(s[i])
  }

  predicate IsKeyword(s: string) { s == "int" || s == "bool" || s == "char" }

  /** The source reads its input byte by byte. */
  predicate ByteText(s: seq<char>) { forall i | 0 <= i < |s| :: s[i] as int < 256 }

  /** The keyword table as the lexer's constructor fills it. */
  const Keywords: map<string, Token> :=
    map["int" := Token(TypeKind, "int"), "bool" := Token(TypeKind, "bool"), "char" := Token(TypeKind, "char")]

  /** The token for an accumulated word: the keyword table's entry, or an identifier. */
  function WordToken(text: string): (t: Token)
    ensures t.value == text
    ensures t.kind == TypeKind <==> IsKeyword(text)
    ensures t.kind == IdKind <==> !IsKeyword(text)
  {
    if text in Keywords then Keywords[text] else Token(IdKind, text)
  }

  /** The tokens the lexer can produce from byte text. */
  predicate ValidToken(t: Token) {
    || (t.kind == EndKind && t.value == "")
    || (t.kind == TypeKind && IsKeyword(t.value))
    || (t.kind == IdKind && IsWord(t.value) && !IsKeyword(t.value))
    || (0 <= t.kind < 256 && t.value == "")
  }

  datatype Skipped = Skipped(rest: seq<char>, line: int)

  /** The whitespace loop: while the lookahead s[0] is whitespace, read the next
      character, and count it when it is a newline. */
  function SkipSpaces(s: seq<char>, line: int): (r: Skipped)
    ensures r.line >= line && |r.rest| <= |s|
    ensures r.rest != [] ==> !IsSpace(r.rest[0])
    decreases |s|
  {
    if |s| > 0 && IsSpace(s[0]) then
      SkipSpaces(s[1..], if |s| > 1 && s[1] == '\n' then line + 1 else line)
    else
      Skipped(s, line)
  }

  /** Length of the longest prefix of letters and digits. */
  function WordCharRun(s: seq<char>): (n: nat)
    ensures n <= |s|
    ensures forall i | 0 <= i < n :: IsWordChar(s[i])
    ensures n < |s| ==> !IsWordChar(s[n])
  {
    if |s| > 0 && IsWordChar(s[0]) then 1 + WordCharRun(s[1..]) else 0
  }

  /** A prefix of letters and digits that the next character does not continue
      is the longest one. */
  lemma {:induction false} RunLength(s: seq<char>, m: nat)
    requires m <= |s| && forall i | 0 <= i < m :: IsWordChar(s[i])
    requires m < |s| ==> !IsWordChar(s[m])
    ensures WordCharRun(s) == m
  {
    if m > 0 {
      RunLength(s[1..], m - 1);
    }
  }

  function NewlineCount(s: seq<char>): nat {
    if s == [] then 0 else (if s[0] == '\n' then 1 else 0) + NewlineCount(s[1..])
  }

  /** The newlines the whitespace loop counts: the first character of the run is
      the pending lookahead, read before this call, and is never counted. */
  function NewlinesAfterFirst(ws: seq<char>): nat {
    if ws == [] then 0 else NewlineCount(ws[1..])
  }

  /** Termination measure of a character stream: a leading whitespace character
      may be the lexer's artificial blank and is not counted. */
  function Measure(s: seq<char>): nat {
    if |s| > 0 && IsSpace(s[0]) then |s| - 1 else |s|
  }

  datatype Scanned = Scanned(token: Token, rest: seq<char>, line: int)

  /** The lexer after its whitespace loop: t is empty at end of input, or starts
      with a character that is not whitespace. */
  function ScanAfterSpaces(t: seq<char>, line: int): (r: Scanned)
    ensures r.line == line
    ensures r.token.kind == EndKind <==> t == []
    ensures t == [] ==> r.rest == [' ']
    ensures t != [] ==> Measure(r.rest) < |t|
  {
    if t == [] then Scanned(EndToken, [' '], line)
    else if IsLower(t[0]) then
      var n := WordCharRun(t);
      Scanned(WordToken(t[..n]), t[n..], line)
    else
      Scanned(Token(t[0] as int, ""), [' '] + t[1..], line)
  }

  /** One call of the lexer on the stream s (the lookahead followed by the unread
      input; empty once end of input has been read). */
  function Scan(s: seq<char>, line: int): (r: Scanned)
    ensures r.line >= line
    ensures r.token.kind == EndKind ==> r.rest == [] || r.rest == [' ']
  {
    if s == [] then Scanned(EndToken, [], line)
    else
      var sk := SkipSpaces(s, line);
      ScanAfterSpaces(sk.rest, sk.line)
  }

  /** The whitespace loop stops at the first character that is not whitespace,
      and the line counter never decreases. */
  lemma {:induction false} SkipSpacesShape(s: seq<char>, line: int)
    ensures var r := SkipSpaces(s, line);
      && |r.rest| <= |s| && r.rest == s[|s| - |r.rest|..]
      && AllSpace(s[..|s| - |r.rest|])
      && (r.rest != [] ==> !IsSpace(r.rest[0]))
      && r.line >= line
    decreases |s|
  {
    if |s| > 0 && IsSpace(s[0]) {
      var l1 := if |s| > 1 && s[1] == '\n' then line + 1 else line;
      SkipSpacesShape(s[1..], l1);
      var r := SkipSpaces(s[1..], l1);
      assert s[1..][|s| - 1 - |r.rest|..] == s[|s| - |r.rest|..];
      assert s[..|s| - |r.rest|] == [s[0]] + s[1..][..|s| - 1 - |r.rest|];
    }
  }

  lemma ScanAfterSpacesValid(t: seq<char>, line: int)
    requires ByteText(t)
    ensures ValidToken(ScanAfterSpaces(t, line).token) && ByteText(ScanAfterSpaces(t, line).rest)
  {
    if t != [] && IsLower(t[0]) {
      var n := WordCharRun(t);
      assert t[..n][0] == t[0];
    }
  }

  /** What one call of the lexer guarantees: the line counter never decreases;
      it returns the end token exactly when only whitespace is left, and then
      leaves nothing or one blank behind; any other token strictly shrinks the
      stream's measure; and on byte text it produces a valid token. */
  lemma ScanFacts(s: seq<char>, line: int)
    ensures var r := Scan(s, line);
      && r.line >= line
      && (r.token.kind == EndKind <==> AllSpace(s))
      && (r.token.kind != EndKind ==> Measure(r.rest) < Measure(s))
      && (r.token.kind == EndKind ==> r.rest == [] || r.rest == [' '])
      && (ByteText(s) ==> ValidToken(r.token) && ByteText(r.rest))
  {
    if s != [] {
      SkipSpacesShape(s, line);
      var sk := SkipSpaces(s, line);
      var t := sk.rest;
      assert s == s[..|s| - |t|] + t;
      if ByteText(s) {
        ScanAfterSpacesValid(t, sk.line);
      }
      if t != [] {
        assert t[0] == s[|s| - |t|];
      }
    }
  }

  lemma {:induction false} SkipSpacesOver(ws: seq<char>, u: seq<char>, line: int)
    requires AllSpace(ws)
    requires u == [] || !IsSpace(u[0])
    ensures SkipSpaces(ws + u, line) == Skipped(u, line + NewlinesAfterFirst(ws))
    decreases |ws|
  {
    var s := ws + u;
    if ws == [] {
      assert s == u;
    } else {
      assert s[1..] == ws[1..] + u;
      var l1 := if |s| > 1 && s[1] == '\n' then line + 1 else line;
      SkipSpacesOver(ws[1..], u, l1);
      if |ws| > 1 {
        assert ws[1..][1..] == ws[2..];
        assert s[1] == ws[1];
      }
    }
  }

  /** A maximal run of letters and digits that starts with a letter, after any
      whitespace, is one token with exactly that text, a keyword or an identifier. */
  lemma {:induction false} ScanWord(ws: seq<char>, w: string, tail: seq<char>, line: int)
    requires AllSpace(ws) && IsWord(w)
    requires tail == [] || !IsWordChar(tail[0])
    ensures Scan(ws + w + tail, line) == Scanned(WordToken(w), tail, line + NewlinesAfterFirst(ws))
  {
    var t := w + tail;
    assert ws + w + tail == ws + t;
    assert t[0] == w[0];
    SkipSpacesOver(ws, t, line);
    RunLength(t, |w|);
    assert t[..|w|] == w && t[|w|..] == tail;
    assert ScanAfterSpaces(t, line + NewlinesAfterFirst(ws)) == Scanned(WordToken(w), tail, line + NewlinesAfterFirst(ws));
  }

  /** Any other character, after any whitespace, is a one-character token whose
      kind is that character; the lexer replaces it by a blank. */
  lemma {:induction false} ScanOther(ws: seq<char>, c: char, tail: seq<char>, line: int)
    requires AllSpace(ws) && !IsSpace(c) && !IsLower(c)
    ensures Scan(ws + [c] + tail, line) == Scanned(Token(c as int, ""), [' '] + tail, line + NewlinesAfterFirst(ws))
  {
    var t := [c] + tail;
    assert ws + [c] + tail == ws + t;
    SkipSpacesOver(ws, t, line);
    assert t[1..] == tail;
    assert ScanAfterSpaces(t, line + NewlinesAfterFirst(ws)) == Scanned(Token(c as int, ""), [' '] + tail, line + NewlinesAfterFirst(ws));
  }

  /** Only whitespace left: the end token, and the end token again on every later call. */
  lemma {:induction false} ScanEnd(ws: seq<char>, line: int)
    requires AllSpace(ws)
    ensures Scan(ws, line) == Scanned(EndToken, if ws == [] then [] else [' '], line + NewlinesAfterFirst(ws))
    ensures Scan(Scan(ws, line).rest, Scan(ws, line).line) == Scan(ws, line)
  {
    SkipSpacesOver(ws, [], line);
    assert ws + [] == ws;
    SkipSpacesOver([' '], [], line + NewlinesAfterFirst(ws));
    assert [' '] + [] == [' '];
  }

  /** The lexer's lookahead character, or end of input. */
  datatype Lookahead = Ch(c: char) | Eof

  class Lexer {
    const input: seq<char>
    var pos: nat
    var lookahead: Lookahead
    var line: int
    var words: map<string, Token>

    ghost predicate Valid()
      reads this
    {
      pos <= |input| && (lookahead.Eof? ==> pos == |input|) && words == Keywords
    }

    /** The characters still to be lexed: the lookahead, then the unread input. */
    ghost function Rest(): seq<char>
      reads this
      requires Valid()
    {
      match lookahead
      case Eof => []
      case Ch(c) => [c] + input[pos..]
    }

    constructor (input: seq<char>)
      ensures Valid() && Rest() == [' '] + input && line == 1
    {
      this.input := input;
      pos, lookahead, line, words := 0, Ch(' '), 1, map[];
      new;
      Add("int");
      Add("bool");
      Add("char");
    }

    /** Enters a keyword; an existing entry is kept. */
    method Add(typ: string)
      modifies this`words
      ensures words == if typ in old(words) then old(words) else old(words)[typ := Token(TypeKind, typ)]
    {
      if typ !in words {
        words := words[typ := Token(TypeKind, typ)];
      }
    }

    /** Reads the next input character into the lookahead. */
    method Next()
      requires Valid()
      modifies this`pos, this`lookahead
      ensures Valid()
      ensures old(pos) < |input| ==> lookahead == Ch(input[old(pos)]) && pos == old(pos) + 1
      ensures old(pos) == |input| ==> lookahead == Eof && pos == old(pos)
      ensures old(lookahead).Ch? ==> Rest() == old(Rest())[1..]
    {
      if pos < |input| {
        lookahead := Ch(input[pos]);
        pos := pos + 1;
      } else {
        lookahead := Eof;
      }
    }

    /** The whitespace loop of lex: skips whitespace, counting the newlines it reads. */
    method SkipWhitespace()
      requires Valid()
      modifies this`pos, this`lookahead, this`line
      ensures Valid()
      ensures Skipped(Rest(), line) == SkipSpaces(old(Rest()), old(line))
    {
      ghost var s0, line0 := Rest(), line;
      while lookahead.Ch? && IsSpace(lookahead.c)
        invariant Valid()
        invariant SkipSpaces(Rest(), line) == SkipSpaces(s0, line0)
        decreases |Rest()|
      {
        Next();
        if lookahead == Ch('\n') {
          line := line + 1;
        }
      }
    }

    /** The do-while loop of lex: accumulates letters and digits, starting at a
        lookahead letter. */
    method ReadWord() returns (value: string)
      requires Valid() && lookahead.Ch? && IsLower(lookahead.c)
      modifies this`pos, this`lookahead
      ensures Valid()
      ensures var n := WordCharRun(old(Rest())); value == old(Rest())[..n] && Rest() == old(Rest())[n..]
    {
      ghost var w := Rest();
      value := [lookahead.c];
      Next();
      while lookahead.Ch? && IsWordChar(lookahead.c)
        invariant Valid()
        invariant 1 <= |value| <= |w| && value == w[..|value|] && Rest() == w[|value|..]
        invariant forall i | 0 <= i < |value| :: IsWordChar(w[i])
        decreases |Rest()|
      {
        value := value + [lookahead.c];
        Next();
      }
      RunLength(w, |value|);
    }

    /** Returns the next token. */
    method Lex() returns (t: Token)
      requires Valid()
      modifies this`pos, this`lookahead, this`line
      ensures Valid()
      ensures Scanned(t, Rest(), line) == Scan(old(Rest()), old(line))
    {
      if lookahead == Eof {
        return EndToken;
      }
      ghost var s0 := Rest();
      SkipWhitespace();
      assert s0 != [] && Scan(s0, old(line)) == ScanAfterSpaces(Rest(), line);
      if lookahead.Ch? && IsLower(lookahead.c) {
        var value := ReadWord();
        if value in words {
          t := words[value];
        } else {
          t := Token(IdKind, value);
        }
        return;
      }
      t := Token(if lookahead.Eof? then EndKind else lookahead.c as int, "");
      lookahead := Ch(' ');
    }
  }
}
