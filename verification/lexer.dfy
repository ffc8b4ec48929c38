/**
  The lexer: a single forward pass over the source text that tracks the
  position, line and column it has reached and emits one token per lexical
  unit, ending with an end-of-input token.
*/
module Lexer {
  import opened Wrappers
  import opened Numerals

  datatype TokenKind =
    | Let | Identifier | Colon | Type | Equals | Semicolon | While | If | Else
    | LParen | RParen | LBrace | RBrace
    | IntLiteral | FloatLiteral | BoolLiteral
    | Plus | Minus | Multiply | Divide | LessThan | GreaterThan | EqualEqual | NotEqual
    | Eof | Or | And | LessEqual | GreaterEqual | Not | Break | Print

  datatype Token = Token(kind: TokenKind, lexeme: string, line: int, column: int)

  datatype LexError =
    | InvalidNumber(line: int, column: int)
      // a string literal whose closing quote is missing on its line
    | UnterminatedString(line: int)
      // a closed string literal: its token kind is not defined, so lexing fails
    | NoStringKind(line: int, column: int)
    | UnexpectedChar(ch: char, line: int, column: int)

  /** ASCII whitespace, as `str.isspace` classifies it. */
  predicate IsSpace(c: char) {
    c == ' ' || (9 <= c as int <= 13) || (28 <= c as int <= 31)
  }

  predicate IsAlpha(c: char) {
    ('a' <= c <= 'z') || ('A' <= c <= 'Z')
  }

  predicate IsIdentChar(c: char) {
    IsAlpha(c) || IsDigit(c) || c == '_'
  }

  predicate IsNumberChar(c: char) {
    IsDigit(c) || c == '.'
  }

  /** The six words that become a keyword token of the same name. */
  const Keywords: map<string, TokenKind> :=
    map["let" := Let, "while" := While, "break" := Break, "if" := If, "else" := Else, "print" := Print]

  const BoolWords: set<string> := {"true", "false"}

  const TypeNames: set<string> := {"int", "float", "bool"}

  /** The kind of a scanned word: keyword, boolean literal, type name or identifier. */
  function Classify(word: string): (k: TokenKind)
    ensures word in Keywords ==> k == Keywords[word]
    ensures k == BoolLiteral <==> word in BoolWords
    ensures k == Type <==> word in TypeNames
    ensures k == Identifier <==> word !in Keywords && word !in BoolWords && word !in TypeNames
  {
    if word in Keywords then Keywords[word]
    else if word in BoolWords then BoolLiteral
    else if word in TypeNames then Type
    else Identifier
  }

  /** Operators of two characters; they are preferred over their one-character prefixes. */
  function TwoCharKind(a: char, b: char): Option<TokenKind>
  {
    if a == '=' && b == '=' then Some(EqualEqual)
    else if a == '<' && b == '=' then Some(LessEqual)
    else if a == '>' && b == '=' then Some(GreaterEqual)
    else if a == '!' && b == '=' then Some(NotEqual)
    else if a == '|' && b == '|' then Some(Or)
    else if a == '&' && b == '&' then Some(And)
    else None
  }

  /** Punctuation and operators of one character; a lone `|` or `&` is not one of them. */
  function OneCharKind(a: char): Option<TokenKind>
  {
    match a
    case ':' => Some(Colon)
    case '=' => Some(Equals)
    case ';' => Some(Semicolon)
    case '(' => Some(LParen)
    case ')' => Some(RParen)
    case '{' => Some(LBrace)
    case '}' => Some(RBrace)
    case '+' => Some(Plus)
    case '-' => Some(Minus)
    case '*' => Some(Multiply)
    case '/' => Some(Divide)
    case '<' => Some(LessThan)
    case '>' => Some(GreaterThan)
    case '!' => Some(Not)
    case _ => None
  }

  /** The symbol token starting at `i` and its length, by maximal munch. */
  function SymbolAt(s: string, i: nat): (r: Option<(TokenKind, nat)>)
    requires i < |s|
    ensures r.Some? ==> 1 <= r.value.1 <= 2 && i + r.value.1 <= |s|
    ensures i + 1 < |s| && TwoCharKind(s[i], s[i + 1]).Some? ==> r == Some((TwoCharKind(s[i], s[i + 1]).value, 2))
    ensures r.None? <==> OneCharKind(s[i]).None? && (i + 1 == |s| || TwoCharKind(s[i], s[i + 1]).None?)
  {
    if i + 1 < |s| && TwoCharKind(s[i], s[i + 1]).Some? then Some((TwoCharKind(s[i], s[i + 1]).value, 2))
    else if OneCharKind(s[i]).Some? then Some((OneCharKind(s[i]).value, 1))
    else None
  }

  /** Which characters start an operator: the six two-character ones, and the fourteen single ones. */
  lemma OperatorChars(a: char, b: char)
    ensures TwoCharKind(a, b).Some? <==> (b == '=' && a in "=<>!") || (a == b && a in "|&")
    ensures OneCharKind(a).Some? <==> a in ":=;(){}+-*/<>!"
    ensures TwoCharKind(a, b).Some? && a != '|' && a != '&' ==> OneCharKind(a).Some?
  {
  }

  /** Number of newlines in `s`. */
  function Newlines(s: string): nat {
    if s == [] then 0 else Newlines(s[..|s| - 1]) + (if s[|s| - 1] == '\n' then 1 else 0)
  }

  /** The column reached after stepping over `s` from column `col`: a newline resets it to 1, any other character advances it by one. */
  function ColumnAfter(col: int, s: string): (c: int)
    ensures col >= 1 ==> c >= 1
  {
    if s == [] then col
    else if s[|s| - 1] == '\n' then 1
    else ColumnAfter(col, s[..|s| - 1]) + 1
  }

  /** Without a newline, the column moves by the length of the text. */
  lemma {:induction false} ColumnAfterNoNewline(col: int, s: string)
    requires forall j :: 0 <= j < |s| ==> s[j] != '\n'
    ensures ColumnAfter(col, s) == col + |s|
  {
    if s != [] {
      ColumnAfterNoNewline(col, s[..|s| - 1]);
    }
  }

  /** After a newline at `k`, the column counts the characters that follow it, starting from 1. */
  lemma {:induction false} ColumnAfterLastNewline(col: int, s: string, k: nat)
    requires k < |s| && s[k] == '\n'
    requires forall j :: k < j < |s| ==> s[j] != '\n'
    ensures ColumnAfter(col, s) == |s| - k
  {
    if k < |s| - 1 {
      ColumnAfterLastNewline(col, s[..|s| - 1], k);
    }
  }

  /** What the lexer promises of each token it emits. */
  predicate WellFormed(t: Token) {
    && t.line >= 1 && t.column >= 1
    && (t.kind == IntLiteral ==> |t.lexeme| > 0 && AllDigits(t.lexeme))
    && (t.kind == FloatLiteral ==>
          |t.lexeme| > 0 && IsDigit(t.lexeme[0]) && multiset(t.lexeme)['.'] == 1
          && forall i :: 0 <= i < |t.lexeme| ==> IsNumberChar(t.lexeme[i]))
    && (t.kind == BoolLiteral ==> t.lexeme in BoolWords)
    && (t.kind == Type ==> t.lexeme in TypeNames)
    && (t.kind == Identifier ==> |t.lexeme| > 0)
  }

  /** A scanned word's token is well formed. */
  lemma WordWellFormed(word: string, line: int, column: int)
    requires |word| > 0 && line >= 1 && column >= 1
    ensures var t := Token(Classify(word), word, line, column);
            t.kind != Eof && t.kind != IntLiteral && t.kind != FloatLiteral && WellFormed(t)
  {
    if word in Keywords {
      assert Keywords[word] in Keywords.Values;
    }
  }

  /** A scanned number's token is well formed: digits with at most one dot, starting with a digit. */
  lemma NumberWellFormed(value: string, line: int, column: int)
    requires |value| > 0 && IsDigit(value[0]) && line >= 1 && column >= 1
    requires forall k :: 0 <= k < |value| ==> IsNumberChar(value[k])
    requires multiset(value)['.'] <= 1
    ensures var t := Token(if '.' in value then FloatLiteral else IntLiteral, value, line, column);
            t.kind != Eof && WellFormed(t)
  {
    if '.' in value {
      assert multiset(value)['.'] >= 1;
    } else {
      assert forall k :: 0 <= k < |value| ==> IsDigit(value[k]) by {
        forall k | 0 <= k < |value| ensures IsDigit(value[k]) {
          assert value[k] in value;
        }
      }
    }
  }

  /** A symbol's token is well formed: its kind is none of the literal, word or end kinds. */
  lemma SymbolWellFormed(s: string, i: nat, lexeme: string, line: int, column: int)
    requires i < |s| && SymbolAt(s, i).Some? && line >= 1 && column >= 1
    ensures var t := Token(SymbolAt(s, i).value.0, lexeme, line, column);
            t.kind != Eof && WellFormed(t)
  {
  }

  lemma SliceOfOneOrTwo(s: string, i: nat)
    requires i < |s|
    ensures s[i..i + 1] == [s[i]]
    ensures i + 2 <= |s| ==> s[i..i + 2] == [s[i], s[i + 1]]
  {
  }

  /** Where the lexer stands: the index of the next character, its line and its column. */
  datatype Cursor = Cursor(pos: nat, line: int, column: int)

  /** The end of the run of whitespace that starts at `i`. */
  function SpaceEnd(s: string, i: nat): (j: nat)
    requires i <= |s|
    ensures i <= j <= |s|
    ensures forall k :: i <= k < j ==> IsSpace(s[k])
    ensures j == |s| || !IsSpace(s[j])
    decreases |s| - i
  {
    if i < |s| && IsSpace(s[i]) then SpaceEnd(s, i + 1) else i
  }

  /** The index of the first newline at or after `i`, or the end of the text. */
  function CommentEnd(s: string, i: nat): (j: nat)
    requires i <= |s|
    ensures i <= j <= |s|
    ensures forall k :: i <= k < j ==> s[k] != '\n'
    ensures j == |s| || s[j] == '\n'
    decreases |s| - i
  {
    if i < |s| && s[i] != '\n' then CommentEnd(s, i + 1) else i
  }

  /** The end of the run of letters, digits and underscores that starts at `i`. */
  function IdentEnd(s: string, i: nat): (j: nat)
    requires i <= |s|
    ensures i <= j <= |s|
    ensures forall k :: i <= k < j ==> IsIdentChar(s[k])
    ensures j == |s| || !IsIdentChar(s[j])
    decreases |s| - i
  {
    if i < |s| && IsIdentChar(s[i]) then IdentEnd(s, i + 1) else i
  }

  /**
    Scans digits and dots from `i`, `dot` telling whether a dot was already
    seen: the end of the run, or the index of a dot that would be the second.
  */
  function NumberRun(s: string, i: nat, dot: bool): (r: Result<nat, nat>)
    requires i <= |s|
    ensures r.Ok? ==> i <= r.value <= |s| && (r.value == |s| || !IsNumberChar(s[r.value]))
    ensures r.Ok? ==> Dots(s, i, r.value) + (if dot then 1 else 0) <= 1
    ensures r.Err? ==> i <= r.error < |s| && s[r.error] == '.'
    ensures r.Err? ==> Dots(s, i, r.error) + (if dot then 1 else 0) == 1
    ensures forall k :: i <= k < (if r.Ok? then r.value else r.error) ==> IsNumberChar(s[k])
    decreases |s| - i
  {
    if i < |s| && IsNumberChar(s[i]) then
      if s[i] == '.' && dot then Err(i)
      else NumberRun(s, i + 1, dot || s[i] == '.')
    else Ok(i)
  }

  /** The number of dots among the characters from `i` up to, not including, `j`. */
  function Dots(s: string, i: nat, j: nat): nat
    requires i <= j <= |s|
    decreases j - i
  {
    if i == j then 0 else (if s[i] == '.' then 1 else 0) + Dots(s, i + 1, j)
  }

  /** Dots counts the dots of the slice. */
  lemma {:induction false} DotsCount(s: string, i: nat, j: nat)
    requires i <= j <= |s|
    ensures Dots(s, i, j) == multiset(s[i..j])['.']
    decreases j - i
  {
    if i < j {
      assert s[i..j] == [s[i]] + s[i + 1..j];
      DotsCount(s, i + 1, j);
    }
  }

  /** NumberRun finds the run the characters determine: where it stops, or the dot that would be the second. */
  lemma {:induction false} NumberRunOf(s: string, i: nat, end: nat, dot: bool)
    requires i <= end <= |s|
    requires forall k :: i <= k < end ==> IsNumberChar(s[k])
    requires Dots(s, i, end) + (if dot then 1 else 0) <= 1
    ensures end == |s| || !IsNumberChar(s[end]) ==> NumberRun(s, i, dot) == Ok(end)
    ensures end < |s| && s[end] == '.' && Dots(s, i, end) + (if dot then 1 else 0) == 1 ==>
              NumberRun(s, i, dot) == Err(end)
    decreases end - i
  {
    if i < end {
      NumberRunOf(s, i + 1, end, dot || s[i] == '.');
    }
  }

  /** A closing quote follows the opening one at `i` before any newline. */
  predicate Closed(s: string, i: nat) {
    exists q :: i < q < |s| && s[q] == '"' && forall j :: i < j < q ==> s[j] != '\n'
  }

  /**
    The token that starts at the cursor and the cursor after it, for a
    character that is neither whitespace nor the start of a comment.
  */
  function TokenAt(s: string, c: Cursor): (r: Result<(Token, Cursor), LexError>)
    requires c.pos < |s|
    ensures r.Ok? ==> c.pos < r.value.1.pos <= |s| && r.value.1.line == c.line &&
                      r.value.1.column == c.column + (r.value.1.pos - c.pos)
  {
    var ch := s[c.pos];
    if IsAlpha(ch) || ch == '_' then
      var j := IdentEnd(s, c.pos);
      var word := s[c.pos..j];
      Ok((Token(Classify(word), word, c.line, c.column), Cursor(j, c.line, c.column + (j - c.pos))))
    else if IsDigit(ch) then
      match NumberRun(s, c.pos, false)
      case Ok(j) =>
        var value := s[c.pos..j];
        Ok((Token(if '.' in value then FloatLiteral else IntLiteral, value, c.line, c.column),
            Cursor(j, c.line, c.column + (j - c.pos))))
      case Err(k) => Err(InvalidNumber(c.line, c.column + (k - c.pos)))
    else if ch == '"' then
      Err(if Closed(s, c.pos) then NoStringKind(c.line, c.column) else UnterminatedString(c.line))
    else
      match SymbolAt(s, c.pos)
      case None => Err(UnexpectedChar(ch, c.line, c.column))
      case Some((kind, n)) => Ok((Token(kind, s[c.pos..c.pos + n], c.line, c.column), Cursor(c.pos + n, c.line, c.column + n)))
  }

  /**
    One lexical unit at the cursor: whitespace and a line comment give no
    token, anything else the token TokenAt scans.
  */
  function NextUnit(s: string, c: Cursor): (r: Result<(seq<Token>, Cursor), LexError>)
    requires c.pos < |s|
    ensures r.Ok? ==> c.pos < r.value.1.pos <= |s| && |r.value.0| <= 1
    ensures r.Ok? && c.line >= 1 && c.column >= 1 ==> r.value.1.line >= 1 && r.value.1.column >= 1
  {
    var ch := s[c.pos];
    if IsSpace(ch) then
      var j := SpaceEnd(s, c.pos);
      Ok(([], Cursor(j, c.line + Newlines(s[c.pos..j]), ColumnAfter(c.column, s[c.pos..j]))))
    else if ch == '/' && c.pos + 1 < |s| && s[c.pos + 1] == '/' then
      Ok(([], Cursor(CommentEnd(s, c.pos), c.line, c.column)))
    else
      match TokenAt(s, c)
      case Ok((t, next)) => Ok(([t], next))
      case Err(e) => Err(e)
  }

  /** The tokens `acc` followed by those of the text from the cursor on, ending with the end-of-input token. */
  function ScanFrom(s: string, c: Cursor, acc: seq<Token>): (r: Result<seq<Token>, LexError>)
    requires c.pos <= |s|
    ensures r.Ok? ==> |r.value| > |acc| && r.value[..|acc|] == acc
    decreases |s| - c.pos
  {
    if c.pos == |s| then Ok(acc + [Token(Eof, "", c.line, c.column)])
    else
      match NextUnit(s, c)
      case Err(e) => Err(e)
      case Ok((ts, next)) =>
        var r := ScanFrom(s, next, acc + ts);
        assert r.Ok? ==> r.value[..|acc|] == r.value[..|acc + ts|][..|acc|];
        r
  }

  /** The tokens of a whole text, lexed from its first character at line 1, column 1. */
  function Scan(s: string): Result<seq<Token>, LexError> {
    ScanFrom(s, Cursor(0, 1, 1), [])
  }

  lemma TokenAtWord(s: string, c: Cursor)
    requires c.pos < |s| && (IsAlpha(s[c.pos]) || s[c.pos] == '_')
    ensures var j, r := IdentEnd(s, c.pos), TokenAt(s, c);
            && r.Ok? && r.value.0 == Token(Classify(s[c.pos..j]), s[c.pos..j], c.line, c.column)
            && r.value.1 == Cursor(j, c.line, c.column + (j - c.pos))
  {
  }

  lemma TokenAtNumber(s: string, c: Cursor)
    requires c.pos < |s| && IsDigit(s[c.pos]) && NumberRun(s, c.pos, false).Ok?
    ensures var j, r := NumberRun(s, c.pos, false).value, TokenAt(s, c);
            && r.Ok? && r.value.0 == Token(if '.' in s[c.pos..j] then FloatLiteral else IntLiteral, s[c.pos..j], c.line, c.column)
            && r.value.1 == Cursor(j, c.line, c.column + (j - c.pos))
  {
    assert !IsAlpha(s[c.pos]) && s[c.pos] != '_';
  }

  lemma TokenAtBadNumber(s: string, c: Cursor)
    requires c.pos < |s| && IsDigit(s[c.pos]) && NumberRun(s, c.pos, false).Err?
    ensures var k, r := NumberRun(s, c.pos, false).error, TokenAt(s, c);
            r.Err? && r.error == InvalidNumber(c.line, c.column + (k - c.pos))
  {
  }

  lemma TokenAtString(s: string, c: Cursor)
    requires c.pos < |s| && s[c.pos] == '"'
    ensures var r := TokenAt(s, c);
            r.Err? && r.error == if Closed(s, c.pos) then NoStringKind(c.line, c.column) else UnterminatedString(c.line)
  {
  }

  lemma TokenAtSymbol(s: string, c: Cursor)
    requires c.pos < |s| && !IsAlpha(s[c.pos]) && s[c.pos] != '_' && !IsDigit(s[c.pos]) && s[c.pos] != '"'
    ensures var sym, r := SymbolAt(s, c.pos), TokenAt(s, c);
            && (r.Ok? <==> sym.Some?)
            && (sym.None? ==> r.error == UnexpectedChar(s[c.pos], c.line, c.column))
            && (sym.Some? ==> r.value.0 == Token(sym.value.0, s[c.pos..c.pos + sym.value.1], c.line, c.column)
                              && r.value.1 == Cursor(c.pos + sym.value.1, c.line, c.column + sym.value.1))
  {
  }

  /** A token TokenAt scans from a valid position is well formed and not the end-of-input token. */
  lemma TokenAtWellFormed(s: string, c: Cursor)
    requires c.pos < |s| && c.line >= 1 && c.column >= 1 && TokenAt(s, c).Ok?
    ensures TokenAt(s, c).value.0.kind != Eof && WellFormed(TokenAt(s, c).value.0)
  {
    var ch := s[c.pos];
    var t := TokenAt(s, c).value.0;
    if IsAlpha(ch) || ch == '_' {
      WordWellFormed(t.lexeme, c.line, c.column);
    } else if IsDigit(ch) {
      var j := NumberRun(s, c.pos, false).value;
      DotsCount(s, c.pos, j);
      NumberWellFormed(s[c.pos..j], c.line, c.column);
    } else {
      SymbolWellFormed(s, c.pos, t.lexeme, c.line, c.column);
    }
  }

  /**
    What the first character decides: a letter or `_` gives the maximal
    identifier run, classified; a digit the maximal run of digits and dots as
    an INT or FLOAT literal, or InvalidNumber at a second dot; a quote always an
    error; anything else the symbol SymbolAt finds, or UnexpectedChar.
  */
  lemma TokenAtDispatch(s: string, c: Cursor)
    requires c.pos < |s|
    ensures var ch, r := s[c.pos], TokenAt(s, c);
            (IsAlpha(ch) || ch == '_' ==>
               r.Ok? && var (t, next) := r.value;
               && t.lexeme == s[c.pos..next.pos] && t.kind == Classify(t.lexeme)
               && (forall k :: c.pos <= k < next.pos ==> IsIdentChar(s[k]))
               && (next.pos == |s| || !IsIdentChar(s[next.pos])))
    ensures var ch, r := s[c.pos], TokenAt(s, c);
            (IsDigit(ch) && r.Ok? ==>
               var (t, next) := r.value;
               && t.lexeme == s[c.pos..next.pos] && (t.kind == FloatLiteral <==> '.' in t.lexeme)
               && (t.kind == IntLiteral || t.kind == FloatLiteral)
               && multiset(t.lexeme)['.'] <= 1
               && (forall k :: c.pos <= k < next.pos ==> IsNumberChar(s[k]))
               && (next.pos == |s| || !IsNumberChar(s[next.pos])))
    ensures var ch, r := s[c.pos], TokenAt(s, c);
            (IsDigit(ch) && r.Err? ==>
               exists k :: c.pos < k < |s| && s[k] == '.' && multiset(s[c.pos..k])['.'] == 1
                           && (forall j :: c.pos <= j < k ==> IsNumberChar(s[j]))
                           && r.error == InvalidNumber(c.line, c.column + (k - c.pos)))
    ensures var ch, r := s[c.pos], TokenAt(s, c);
            (ch == '"' ==> r.Err? && (r.error.UnterminatedString? <==> !Closed(s, c.pos)))
    ensures var ch, r := s[c.pos], TokenAt(s, c);
            (!IsAlpha(ch) && ch != '_' && !IsDigit(ch) && ch != '"' ==>
               && (r.Ok? <==> SymbolAt(s, c.pos).Some?)
               && (r.Ok? ==> r.value.0.kind == SymbolAt(s, c.pos).value.0
                             && r.value.1.pos == c.pos + SymbolAt(s, c.pos).value.1
                             && r.value.0.lexeme == s[c.pos..r.value.1.pos])
               && (r.Err? ==> r.error == UnexpectedChar(ch, c.line, c.column)))
  {
    var ch := s[c.pos];
    if IsDigit(ch) {
      var run := NumberRun(s, c.pos, false);
      if run.Err? {
        var k := run.error;
        assert k != c.pos;
        DotsCount(s, c.pos, k);
        assert c.pos < k < |s| && s[k] == '.' && multiset(s[c.pos..k])['.'] == 1;
      } else {
        DotsCount(s, c.pos, run.value);
      }
    }
  }

  /** Whitespace and comments give no token; every other character gives TokenAt's token or error. */
  lemma NextUnitDispatch(s: string, c: Cursor)
    requires c.pos < |s|
    ensures var ch, r := s[c.pos], NextUnit(s, c);
            (IsSpace(ch) ==>
               r.Ok? && r.value.0 == [] && r.value.1.pos == SpaceEnd(s, c.pos)
               && r.value.1.line == c.line + Newlines(s[c.pos..r.value.1.pos]))
    ensures var ch, r := s[c.pos], NextUnit(s, c);
            (!IsSpace(ch) && ch == '/' && c.pos + 1 < |s| && s[c.pos + 1] == '/' ==>
               r.Ok? && r.value.0 == [] && r.value.1.line == c.line && r.value.1.column == c.column
               && (r.value.1.pos == |s| || s[r.value.1.pos] == '\n')
               && forall k :: c.pos <= k < r.value.1.pos ==> s[k] != '\n')
    ensures var ch, r := s[c.pos], NextUnit(s, c);
            (!IsSpace(ch) && !(ch == '/' && c.pos + 1 < |s| && s[c.pos + 1] == '/') ==>
               && (r.Ok? <==> TokenAt(s, c).Ok?)
               && (r.Ok? ==> r.value == ([TokenAt(s, c).value.0], TokenAt(s, c).value.1))
               && (r.Err? ==> r.error == TokenAt(s, c).error))
  {
  }

  /** The tokens of one unit scanned from a valid position are well formed and none is the end-of-input token. */
  lemma NextUnitWellFormed(s: string, c: Cursor)
    requires c.pos < |s| && c.line >= 1 && c.column >= 1 && NextUnit(s, c).Ok?
    ensures forall i :: 0 <= i < |NextUnit(s, c).value.0| ==>
              NextUnit(s, c).value.0[i].kind != Eof && WellFormed(NextUnit(s, c).value.0[i])
  {
    if NextUnit(s, c).value.0 != [] {
      TokenAtWellFormed(s, c);
    }
  }

  /** A lexer's output: one end-of-input token with an empty lexeme, last, and only well-formed tokens. */
  predicate Shaped(ts: seq<Token>) {
    && |ts| > 0 && ts[|ts| - 1].kind == Eof && ts[|ts| - 1].lexeme == ""
    && (forall i :: 0 <= i < |ts| - 1 ==> ts[i].kind != Eof)
    && (forall i :: 0 <= i < |ts| ==> WellFormed(ts[i]))
  }

  /**
    Every successful scan ends with exactly one end-of-input token, with an
    empty lexeme, and every token in it is well formed.
  */
  lemma {:induction false} ScanFromShape(s: string, c: Cursor, acc: seq<Token>)
    requires c.pos <= |s| && c.line >= 1 && c.column >= 1
    requires forall i :: 0 <= i < |acc| ==> acc[i].kind != Eof && WellFormed(acc[i])
    ensures ScanFrom(s, c, acc).Ok? ==> Shaped(ScanFrom(s, c, acc).value)
    decreases |s| - c.pos
  {
    if c.pos == |s| {
      var all := acc + [Token(Eof, "", c.line, c.column)];
      assert ScanFrom(s, c, acc) == Ok(all);
      assert forall i :: 0 <= i < |all| - 1 ==> all[i] == acc[i];
    } else {
      var unit := NextUnit(s, c);
      if unit.Err? {
        assert ScanFrom(s, c, acc).Err?;
      } else {
        var (ts, next) := unit.value;
        assert ScanFrom(s, c, acc) == ScanFrom(s, next, acc + ts);
        NextUnitWellFormed(s, c);
        var acc' := acc + ts;
        assert forall i :: 0 <= i < |acc'| ==> acc'[i].kind != Eof && WellFormed(acc'[i]) by {
          forall i | 0 <= i < |acc'| ensures acc'[i].kind != Eof && WellFormed(acc'[i]) {
            if i >= |acc| {
              assert acc'[i] == ts[i - |acc|];
            }
          }
        }
        ScanFromShape(s, next, acc');
      }
    }
  }

  /** The whole text's tokens end with one end-of-input token, and all are well formed. */
  lemma ScanShape(s: string)
    ensures Scan(s).Ok? ==> Shaped(Scan(s).value)
  {
    ScanFromShape(s, Cursor(0, 1, 1), []);
  }

  class Lexer {
    const source: string
    var position: nat
    var line: int
    var column: int

    ghost predicate Valid()
      reads this
    {
      position <= |source| && line >= 1 && column >= 1
    }

    constructor (source: string)
      ensures Valid()
      ensures this.source == source && position == 0 && line == 1 && column == 1
    {
      this.source := source;
      position := 0;
      line := 1;
      column := 1;
    }

    /** Where the lexer stands, as a value. */
    function Cur(): Cursor
      reads this
    {
      Cursor(position, line, column)
    }

    /** The character after the current one, if any. */
    function Peek(): (c: Option<char>)
      reads this
      ensures c.Some? <==> position + 1 < |source|
      ensures c.Some? ==> c.value == source[position + 1]
    {
      if position + 1 < |source| then Some(source[position + 1]) else None
    }

    /** Lexes the whole source; the result always ends with one end-of-input token. */
    method Tokenize() returns (r: Result<seq<Token>, LexError>)
      requires Valid()
      modifies this
      ensures Valid()
      ensures r.Ok? ==> position == |source|
      ensures r.Ok? ==> |r.value| > 0 && r.value[|r.value| - 1] == Token(Eof, "", line, column)
      ensures r.Ok? ==> forall i :: 0 <= i < |r.value| - 1 ==> r.value[i].kind != Eof
      ensures r.Ok? ==> forall i :: 0 <= i < |r.value| ==> WellFormed(r.value[i])
      ensures r == ScanFrom(source, old(Cur()), [])
    {
      var tokens: seq<Token> := [];
      while position < |source|
        invariant Valid()
        invariant forall i :: 0 <= i < |tokens| ==> tokens[i].kind != Eof && WellFormed(tokens[i])
        invariant ScanFrom(source, old(Cur()), []) == ScanFrom(source, Cur(), tokens)
        decreases |source| - position
      {
        var next := GetNextToken();
        if next.Err? {
          return Err(next.error);
        }
        tokens := tokens + next.value;
      }
      tokens := tokens + [Token(Eof, "", line, column)];
      r := Ok(tokens);
    }

    /** Scans one lexical unit: whitespace and comments give no token, anything else one. */
    method GetNextToken() returns (r: Result<seq<Token>, LexError>)
      requires Valid() && position < |source|
      modifies this
      ensures Valid()
      ensures r.Ok? ==> old(position) < position && |r.value| <= 1
      ensures r.Ok? ==> forall i :: 0 <= i < |r.value| ==> r.value[i].kind != Eof && WellFormed(r.value[i])
      ensures IsSpace(old(source[position])) ==> r == Ok([])
      ensures !IsSpace(old(source[position])) && old(source[position]) == '/' && old(Peek()) == Some('/') ==> r == Ok([])
      ensures var spec := NextUnit(source, old(Cur()));
              (r.Ok? <==> spec.Ok?) && (r.Ok? ==> r.value == spec.value.0 && Cur() == spec.value.1) &&
              (r.Err? ==> r.error == spec.error)
    {
      var c := source[position];
      if IsSpace(c) {
        ConsumeWhitespace();
        return Ok([]);
      }
      if c == '/' && Peek() == Some('/') {
        ConsumeComment();
        return Ok([]);
      }
      var t := ConsumeToken();
      if t.Err? {
        return Err(t.error);
      }
      return Ok([t.value]);
    }

    /** The token starting at a character that is neither whitespace nor the start of a comment. */
    method ConsumeToken() returns (r: Result<Token, LexError>)
      requires Valid() && position < |source|
      modifies this
      ensures Valid()
      ensures r.Ok? ==> old(position) < position && r.value.kind != Eof && WellFormed(r.value)
      ensures var spec := TokenAt(source, old(Cur()));
              (r.Ok? <==> spec.Ok?) && (r.Ok? ==> r.value == spec.value.0 && Cur() == spec.value.1) &&
              (r.Err? ==> r.error == spec.error)
    {
      var c := source[position];
      ghost var at := Cur();
      if IsAlpha(c) || c == '_' {
        var t := ConsumeIdentifier();
        TokenAtWord(source, at);
        r := Ok(t);
      } else if IsDigit(c) {
        r := ConsumeNumber();
        if r.Ok? {
          TokenAtNumber(source, at);
        } else {
          TokenAtBadNumber(source, at);
        }
      } else if c == '"' {
        r := ConsumeString();
        TokenAtString(source, at);
      } else {
        r := ConsumeSymbol();
        TokenAtSymbol(source, at);
      }
      if r.Ok? {
        TokenAtWellFormed(source, at);
      }
    }

    /** Skips a run of whitespace, counting newlines and columns. */
    method ConsumeWhitespace()
      requires Valid()
      modifies this
      ensures Valid()
      ensures old(position) <= position
      ensures forall k :: old(position) <= k < position ==> IsSpace(source[k])
      ensures position == |source| || !IsSpace(source[position])
      ensures line == old(line) + Newlines(source[old(position)..position])
      ensures column == ColumnAfter(old(column), source[old(position)..position])
      ensures position == SpaceEnd(source, old(position))
    {
      ghost var start := position;
      while position < |source| && IsSpace(source[position])
        invariant start <= position <= |source|
        invariant forall k :: start <= k < position ==> IsSpace(source[k])
        invariant line == old(line) + Newlines(source[start..position])
        invariant column == ColumnAfter(old(column), source[start..position])
        decreases |source| - position
      {
        assert source[start..position + 1][..position - start] == source[start..position];
        if source[position] == '\n' {
          line := line + 1;
          column := 1;
        } else {
          column := column + 1;
        }
        position := position + 1;
      }
    }

    /** Skips a line comment up to, not including, the next newline; the column is left as it was. */
    method ConsumeComment()
      requires Valid()
      modifies this
      ensures Valid()
      ensures old(position) <= position
      ensures forall k :: old(position) <= k < position ==> source[k] != '\n'
      ensures position == |source| || source[position] == '\n'
      ensures line == old(line) && column == old(column)
      ensures position == CommentEnd(source, old(position))
    {
      while position < |source| && source[position] != '\n'
        invariant old(position) <= position <= |source|
        invariant forall k :: old(position) <= k < position ==> source[k] != '\n'
        invariant line == old(line) && column == old(column)
        decreases |source| - position
      {
        position := position + 1;
      }
    }

    /** Scans the longest run of letters, digits and underscores and classifies it. */
    method ConsumeIdentifier() returns (t: Token)
      requires Valid()
      modifies this
      ensures Valid()
      ensures old(position) <= position
      ensures forall k :: old(position) <= k < position ==> IsIdentChar(source[k])
      ensures position == |source| || !IsIdentChar(source[position])
      ensures line == old(line) && column == old(column) + (position - old(position))
      ensures t == Token(Classify(source[old(position)..position]), source[old(position)..position], line, old(column))
      ensures position == IdentEnd(source, old(position))
    {
      var start := position;
      var startColumn := column;
      while position < |source| && IsIdentChar(source[position])
        invariant start <= position <= |source|
        invariant forall k :: start <= k < position ==> IsIdentChar(source[k])
        invariant line == old(line) && column == startColumn + (position - start)
        decreases |source| - position
      {
        position := position + 1;
        column := column + 1;
      }
      var value := source[start..position];
      t := Token(Classify(value), value, line, startColumn);
    }

    /** Scans the longest run of digits and dots; a second dot is an error. */
    method ConsumeNumber() returns (r: Result<Token, LexError>)
      requires Valid()
      modifies this
      ensures Valid()
      ensures old(position) <= position
      ensures forall k :: old(position) <= k < position ==> IsNumberChar(source[k])
      ensures line == old(line) && column == old(column) + (position - old(position))
      ensures r.Ok? ==> position == |source| || !IsNumberChar(source[position])
      ensures r.Ok? ==> multiset(source[old(position)..position])['.'] <= 1
      ensures r.Ok? ==> r.value == Token(if '.' in source[old(position)..position] then FloatLiteral else IntLiteral,
                                         source[old(position)..position], line, old(column))
      ensures r.Err? ==> position < |source| && source[position] == '.'
      ensures r.Err? ==> multiset(source[old(position)..position])['.'] == 1
      ensures r.Err? ==> r.error == InvalidNumber(line, column)
      ensures NumberRun(source, old(position), false) == if r.Ok? then Ok(position) else Err(position)
    {
      var start := position;
      var startColumn := column;
      var isFloat := false;
      while position < |source| && IsNumberChar(source[position])
        invariant start <= position <= |source|
        invariant forall k :: start <= k < position ==> IsNumberChar(source[k])
        invariant line == old(line) && column == startColumn + (position - start)
        invariant isFloat <==> '.' in source[start..position]
        invariant multiset(source[start..position])['.'] == if isFloat then 1 else 0
        decreases |source| - position
      {
        assert source[start..position + 1] == source[start..position] + [source[position]];
        if source[position] == '.' {
          if isFloat {
            DotsCount(source, start, position);
            NumberRunOf(source, start, position, false);
            return Err(InvalidNumber(line, column));
          }
          isFloat := true;
        }
        position := position + 1;
        column := column + 1;
      }
      DotsCount(source, start, position);
      NumberRunOf(source, start, position, false);
      var value := source[start..position];
      r := Ok(Token(if isFloat then FloatLiteral else IntLiteral, value, line, startColumn));
    }

    /**
      Scans a string literal. It never yields a token: it fails as unterminated
      when a newline or the end of input comes before the closing quote, and
      otherwise because its token kind does not exist.
    */
    method ConsumeString() returns (r: Result<Token, LexError>)
      requires Valid() && position < |source|
      modifies this
      ensures Valid()
      ensures r.Err?
      ensures line == old(line)
      ensures r.error.UnterminatedString? ==> r.error == UnterminatedString(old(line))
      ensures r.error.UnterminatedString? || r.error == NoStringKind(line, old(column))
      ensures r.error.UnterminatedString? <==>
                !exists q :: old(position) < q < |source| && source[q] == '"'
                             && forall j :: old(position) < j < q ==> source[j] != '\n'
    {
      var start := position;
      var startColumn := column;
      position := position + 1;
      column := column + 1;
      while position < |source| && source[position] != '"'
        invariant start < position <= |source|
        invariant forall j :: start < j < position ==> source[j] != '"' && source[j] != '\n'
        invariant line == old(line)
        invariant column >= 1
        decreases |source| - position
      {
        if source[position] == '\n' {
          return Err(UnterminatedString(line));
        }
        position := position + 1;
        column := column + 1;
      }
      if position == |source| {
        return Err(UnterminatedString(line));
      }
      assert source[position] == '"';
      position := position + 1;
      column := column + 1;
      r := Err(NoStringKind(line, startColumn));
    }

    /** Scans one operator or punctuation symbol, preferring the two-character operators. */
    method ConsumeSymbol() returns (r: Result<Token, LexError>)
      requires Valid() && position < |source|
      modifies this
      ensures Valid() && line == old(line)
      ensures SymbolAt(source, old(position)).None? ==>
                r == Err(UnexpectedChar(source[old(position)], old(line), old(column)))
      ensures SymbolAt(source, old(position)).Some? ==>
                var (kind, n) := SymbolAt(source, old(position)).value;
                && position == old(position) + n && column == old(column) + n
                && r == Ok(Token(kind, source[old(position)..position], line, old(column)))
    {
      var c := source[position];
      position := position + 1;
      var col := column;
      column := column + 1;
      var followedByEquals := position < |source| && source[position] == '=';
      if c == ':' {
        r := Ok(Token(Colon, [c], line, col));
      } else if c == '=' {
        if followedByEquals {
          position := position + 1;
          column := column + 1;
          r := Ok(Token(EqualEqual, "==", line, col));
        } else {
          r := Ok(Token(Equals, [c], line, col));
        }
      } else if c == ';' {
        r := Ok(Token(Semicolon, [c], line, col));
      } else if c == '(' {
        r := Ok(Token(LParen, [c], line, col));
      } else if c == ')' {
        r := Ok(Token(RParen, [c], line, col));
      } else if c == '{' {
        r := Ok(Token(LBrace, [c], line, col));
      } else if c == '}' {
        r := Ok(Token(RBrace, [c], line, col));
      } else if c == '+' {
        r := Ok(Token(Plus, [c], line, col));
      } else if c == '-' {
        r := Ok(Token(Minus, [c], line, col));
      } else if c == '*' {
        r := Ok(Token(Multiply, [c], line, col));
      } else if c == '/' {
        r := Ok(Token(Divide, [c], line, col));
      } else if c == '<' {
        if followedByEquals {
          position := position + 1;
          column := column + 1;
          r := Ok(Token(LessEqual, "<=", line, col));
        } else {
          r := Ok(Token(LessThan, [c], line, col));
        }
      } else if c == '>' {
        if followedByEquals {
          position := position + 1;
          column := column + 1;
          r := Ok(Token(GreaterEqual, ">=", line, col));
        } else {
          r := Ok(Token(GreaterThan, [c], line, col));
        }
      } else if c == '!' {
        if followedByEquals {
          position := position + 1;
          column := column + 1;
          r := Ok(Token(NotEqual, "!=", line, col));
        } else {
          r := Ok(Token(Not, [c], line, col));
        }
      } else if c == '|' && position < |source| && source[position] == '|' {
        position := position + 1;
        column := column + 1;
        r := Ok(Token(Or, "||", line, col));
      } else if c == '&' && position < |source| && source[position] == '&' {
        position := position + 1;
        column := column + 1;
        r := Ok(Token(And, "&&", line, col));
      } else {
        r := Err(UnexpectedChar(c, line, col));
      }
      SliceOfOneOrTwo(source, old(position));
    }
  }

  /** Lexes `source` with a fresh lexer. */
  method Lex(source: string) returns (r: Result<seq<Token>, LexError>)
    ensures r == Scan(source)
    ensures r.Ok? ==> |r.value| > 0 && r.value[|r.value| - 1].kind == Eof && r.value[|r.value| - 1].lexeme == ""
    ensures r.Ok? ==> forall i :: 0 <= i < |r.value| - 1 ==> r.value[i].kind != Eof
    ensures r.Ok? ==> forall i :: 0 <= i < |r.value| ==> WellFormed(r.value[i])
  {
    var lexer := new Lexer(source);
    r := lexer.Tokenize();
  }
}
