/**
  Surface syntax of aspect packages: the tokenizer, the S-expression parser and
  the canonical printer.
*/
module Syntax {
  import opened Common

  datatype Expr = Atom(name: string) | List(items: seq<Expr>)

  datatype Token = LParen | RParen | Word(text: string)

  datatype SyntaxError =
    | UnexpectedEof
    | UnexpectedToken(found: string)
    | EmptyList
    | UnknownDeclaration(head: string)
    | InvalidArity(form: string, expected: nat, actual: nat)
    | ExpectedAtom(found: string)
    | ForbiddenForm(form: string)
    | MalformedPolicyExtension(extension: string)
    | StringLiteralUnsupported

  // ---------------------------------------------------------------- characters

  /** The code points with the Unicode property White_Space. */
  predicate IsSpace(c: char) {
    var n := c as int;
    || 0x09 <= n <= 0x0D || n == 0x20 || n == 0x85 || n == 0xA0 || n == 0x1680
    || 0x2000 <= n <= 0x200A || n == 0x2028 || n == 0x2029 || n == 0x202F || n == 0x205F || n == 0x3000
  }

  predicate IsAtomChar(c: char) {
    !IsSpace(c) && c != '(' && c != ')' && c != ';' && c != '"'
  }

  /** Length of the longest prefix made of atom characters. */
  function AtomLength(s: string): (n: nat)
    ensures n <= |s|
    ensures forall i :: 0 <= i < n ==> IsAtomChar(s[i])
    ensures n < |s| ==> !IsAtomChar(s[n])
  {
    if s == [] || !IsAtomChar(s[0]) then 0 else 1 + AtomLength(s[1..])
  }

  /** What is left after the comment whose ';' has just been consumed. */
  function AfterComment(s: string): (r: string)
    ensures |r| <= |s|
  {
    if s == [] then [] else if s[0] == '\n' then s[1..] else AfterComment(s[1..])
  }

  // ----------------------------------------------------------------- tokenizer

  type Tokenized = Result<seq<Token>, SyntaxError>

  function Prepend(ts: seq<Token>, r: Tokenized): Tokenized {
    if r.Ok? then Ok(ts + r.value) else r
  }

  /** The token sequence of a source text. */
  function Tokens(s: string): Tokenized
    decreases |s|
  {
    if s == [] then Ok([])
    else if s[0] == '(' then Prepend([LParen], Tokens(s[1..]))
    else if s[0] == ')' then Prepend([RParen], Tokens(s[1..]))
    else if s[0] == ';' then Tokens(AfterComment(s[1..]))
    else if s[0] == '"' then Err(StringLiteralUnsupported)
    else if IsSpace(s[0]) then Tokens(s[1..])
    else
      var n := AtomLength(s);
      if n < |s| && s[n] == '"' then Err(StringLiteralUnsupported)
      else Prepend([Word(s[..n])], Tokens(s[n..]))
  }

  lemma PrependPrepend(a: seq<Token>, b: seq<Token>, r: Tokenized)
    ensures Prepend(a, Prepend(b, r)) == Prepend(a + b, r)
  {
    if r.Ok? { assert a + (b + r.value) == (a + b) + r.value; }
  }

  /** Maximal run of atom characters of `s` from `start`, as the inner loop of the tokenizer finds it. */
  method ScanAtom(s: string, start: nat) returns (end: nat)
    requires start < |s| && IsAtomChar(s[start])
    ensures end == start + AtomLength(s[start..])
  {
    end := start + 1;
    assert s[start..][1..] == s[end..];
    while end < |s| && IsAtomChar(s[end])
      invariant start < end <= |s|
      invariant start + AtomLength(s[start..]) == end + AtomLength(s[end..])
    {
      assert s[end..][1..] == s[end + 1..];
      end := end + 1;
    }
  }

  method SkipComment(s: string, start: nat) returns (end: nat)
    requires start <= |s|
    ensures start <= end <= |s| && s[end..] == AfterComment(s[start..])
  {
    end := start;
    while end < |s| && s[end] != '\n'
      invariant start <= end <= |s|
      invariant AfterComment(s[end..]) == AfterComment(s[start..])
    {
      assert s[end..][1..] == s[end + 1..];
      end := end + 1;
    }
    if end < |s| {
      assert s[end..][1..] == s[end + 1..];
      end := end + 1;
    }
  }

  method Tokenize(s: string) returns (r: Tokenized)
    ensures r == Tokens(s)
  {
    var tokens: seq<Token> := [];
    var i := 0;
    assert s[0..] == s;
    assert Tokens(s).Ok? ==> [] + Tokens(s).value == Tokens(s).value;
    while i < |s|
      invariant 0 <= i <= |s|
      invariant Prepend(tokens, Tokens(s[i..])) == Tokens(s)
    {
      var c := s[i];
      assert s[i..][0] == c && s[i..][1..] == s[i + 1..];
      if c == '(' || c == ')' {
        var t := if c == '(' then LParen else RParen;
        PrependPrepend(tokens, [t], Tokens(s[i + 1..]));
        tokens := tokens + [t];
        i := i + 1;
      } else if c == ';' {
        i := SkipComment(s, i + 1);
      } else if c == '"' {
        return Err(StringLiteralUnsupported);
      } else if IsSpace(c) {
        i := i + 1;
      } else {
        var j := ScanAtom(s, i);
        var n := j - i;
        assert n == AtomLength(s[i..]) && s[i..][..n] == s[i..j] && s[i..][n..] == s[j..];
        if j < |s| && s[j] == '"' {
          assert s[i..][n] == '"';
          return Err(StringLiteralUnsupported);
        }
        PrependPrepend(tokens, [Word(s[i..j])], Tokens(s[j..]));
        tokens := tokens + [Word(s[i..j])];
        i := j;
      }
    }
    assert s[i..] == [] && tokens + [] == tokens;
    r := Ok(tokens);
  }

  // -------------------------------------------------------------------- parser

  type Parsed<T> = Result<(T, seq<Token>), SyntaxError>

  /** Parses one expression; the second component is the unread input. */
  function ParseExpr(ts: seq<Token>): (r: Parsed<Expr>)
    ensures r.Ok? ==> |r.value.1| < |ts|
    decreases |ts|, 0
  {
    if ts == [] then Err(UnexpectedEof)
    else match ts[0]
      case Word(text) => Ok((Atom(text), ts[1..]))
      case LParen =>
        var (items, rest) :- ParseItems(ts[1..]);
        Ok((List(items), rest))
      case RParen => Err(UnexpectedToken(")"))
  }

  /** Parses expressions up to and including the closing parenthesis. */
  function ParseItems(ts: seq<Token>): (r: Parsed<seq<Expr>>)
    ensures r.Ok? ==> |r.value.1| < |ts|
    decreases |ts|, 1
  {
    if ts == [] then Err(UnexpectedEof)
    else if ts[0] == RParen then Ok(([], ts[1..]))
    else
      var (item, rest) :- ParseExpr(ts);
      var (items, rest') :- ParseItems(rest);
      Ok(([item] + items, rest'))
  }

  /** Inside a list the only error is running out of tokens. */
  lemma {:induction false} ItemsErr(ts: seq<Token>)
    ensures ParseItems(ts).Err? ==> ParseItems(ts).error == UnexpectedEof
    ensures ParseExpr(ts).Err? && ts != [] && ts[0] != RParen ==> ParseExpr(ts).error == UnexpectedEof
    decreases |ts|
  {
    if ts != [] && ts[0] != RParen {
      ItemsErr(ts[1..]);
      if ParseExpr(ts).Ok? { ItemsErr(ParseExpr(ts).value.1); }
    }
  }

  function PrependItems(es: seq<Expr>, r: Parsed<seq<Expr>>): Parsed<seq<Expr>> {
    if r.Ok? then Ok((es + r.value.0, r.value.1)) else r
  }

  /** The recursive-descent parser with its cursor. */
  class SExprParser {
    const tokens: seq<Token>
    var position: nat

    constructor (tokens: seq<Token>)
      ensures this.tokens == tokens && position == 0
    {
      this.tokens := tokens;
      position := 0;
    }

    predicate IsEof()
      reads this
    {
      position >= |tokens|
    }

    /** The unread input. */
    ghost function Rest(): seq<Token>
      reads this
      requires position <= |tokens|
    {
      tokens[position..]
    }

    method Parse() returns (r: Result<Expr, SyntaxError>)
      requires position <= |tokens|
      modifies this
      ensures old(position) <= position <= |tokens|
      ensures var spec := ParseExpr(old(Rest()));
              if spec.Ok? then r == Ok(spec.value.0) && Rest() == spec.value.1
              else r == Err(spec.error)
                   && position == (if spec.error == UnexpectedEof then |tokens| else old(position) + 1)
      decreases |tokens| - position
    {
      if position == |tokens| { return Err(UnexpectedEof); }
      var token := tokens[position];
      position := position + 1;
      assert old(Rest())[1..] == Rest();
      match token {
        case Word(text) => return Ok(Atom(text));
        case RParen => return Err(UnexpectedToken(")"));
        case LParen =>
      }
      ghost var spec := ParseItems(Rest());
      var items: seq<Expr> := [];
      assert spec.Ok? ==> [] + spec.value.0 == spec.value.0;
      while true
        invariant old(position) < position <= |tokens|
        invariant PrependItems(items, ParseItems(Rest())) == spec
        decreases |tokens| - position
      {
        if position == |tokens| { return Err(UnexpectedEof); }
        if tokens[position] == RParen {
          assert Rest()[1..] == tokens[position + 1..];
          position := position + 1;
          assert items + [] == items;
          return Ok(List(items));
        }
        ghost var before := Rest();
        ItemsErr(before);
        var item := Parse();
        if item.Err? { return item; }
        assert Rest() == ParseExpr(before).value.1;
        if ParseItems(Rest()).Ok? {
          assert items + ([item.value] + ParseItems(Rest()).value.0)
                   == (items + [item.value]) + ParseItems(Rest()).value.0;
        }
        items := items + [item.value];
      }
    }
  }

  // ------------------------------------------------------------------- printer

  function Print(e: Expr): string
    decreases e, 1
  {
    match e
    case Atom(name) => name
    case List(items) => "(" + PrintItems(items) + ")"
  }

  /** The items separated by single spaces. */
  function PrintItems(items: seq<Expr>): string
    decreases items, 0
  {
    if items == [] then ""
    else if |items| == 1 then Print(items[0])
    else Print(items[0]) + " " + PrintItems(items[1..])
  }

  /** Atoms the tokenizer can produce. */
  predicate GoodAtom(a: string) {
    a != [] && forall i :: 0 <= i < |a| ==> IsAtomChar(a[i])
  }

  predicate GoodExpr(e: Expr)
    decreases e
  {
    match e
    case Atom(name) => GoodAtom(name)
    case List(items) => forall x | x in items :: GoodExpr(x)
  }

  predicate GoodTokens(ts: seq<Token>) {
    forall t | t in ts :: t.Word? ==> GoodAtom(t.text)
  }

  function TokensOf(e: Expr): seq<Token>
    decreases e, 1
  {
    match e
    case Atom(name) => [Word(name)]
    case List(items) => [LParen] + TokensOfAll(items) + [RParen]
  }

  function TokensOfAll(items: seq<Expr>): seq<Token>
    decreases items, 0
  {
    if items == [] then [] else TokensOf(items[0]) + TokensOfAll(items[1..])
  }

  /** `s` cannot extend an atom to its left. */
  predicate Delimited(s: string) {
    s == [] || (!IsAtomChar(s[0]) && s[0] != '"')
  }

  lemma {:induction false} AtomLengthOf(a: string, rest: string)
    requires forall i :: 0 <= i < |a| ==> IsAtomChar(a[i])
    requires rest == [] || !IsAtomChar(rest[0])
    ensures AtomLength(a + rest) == |a|
  {
    if a == [] {
      assert a + rest == rest;
    } else {
      assert (a + rest)[1..] == a[1..] + rest;
      AtomLengthOf(a[1..], rest);
    }
  }

  /** Printing then tokenizing gives back the tokens of the expression. */
  lemma {:induction false} TokensOfPrint(e: Expr, rest: string)
    requires GoodExpr(e) && Delimited(rest)
    ensures Tokens(Print(e) + rest) == Prepend(TokensOf(e), Tokens(rest))
    decreases e, 1
  {
    match e
    case Atom(name) =>
      AtomLengthOf(name, rest);
      assert (name + rest)[..|name|] == name && (name + rest)[|name|..] == rest;
    case List(items) =>
      var s := Print(e) + rest;
      var tail := ")" + rest;
      assert s[1..] == PrintItems(items) + tail;
      TokensOfPrintItems(items, tail);
      assert tail[1..] == rest;
      calc {
        Tokens(s);
        Prepend([LParen], Prepend(TokensOfAll(items), Prepend([RParen], Tokens(rest))));
        { PrependPrepend(TokensOfAll(items), [RParen], Tokens(rest)); }
        Prepend([LParen], Prepend(TokensOfAll(items) + [RParen], Tokens(rest)));
        { PrependPrepend([LParen], TokensOfAll(items) + [RParen], Tokens(rest)); }
        Prepend([LParen] + (TokensOfAll(items) + [RParen]), Tokens(rest));
        { assert [LParen] + (TokensOfAll(items) + [RParen]) == TokensOf(e); }
        Prepend(TokensOf(e), Tokens(rest));
      }
  }

  lemma {:induction false} TokensOfPrintItems(items: seq<Expr>, rest: string)
    requires (forall x | x in items :: GoodExpr(x)) && Delimited(rest)
    ensures Tokens(PrintItems(items) + rest) == Prepend(TokensOfAll(items), Tokens(rest))
    decreases items, 0
  {
    if items == [] {
      assert PrintItems(items) + rest == rest;
      if Tokens(rest).Ok? { assert [] + Tokens(rest).value == Tokens(rest).value; }
    } else if |items| == 1 {
      TokensOfPrint(items[0], rest);
      assert TokensOfAll(items) == TokensOf(items[0]) + [] == TokensOf(items[0]);
    } else {
      var tail := " " + (PrintItems(items[1..]) + rest);
      assert PrintItems(items) + rest == Print(items[0]) + tail;
      TokensOfPrint(items[0], tail);
      assert tail[1..] == PrintItems(items[1..]) + rest;
      TokensOfPrintItems(items[1..], rest);
      PrependPrepend(TokensOf(items[0]), TokensOfAll(items[1..]), Tokens(rest));
    }
  }

  /** Parsing the tokens of an expression gives the expression and leaves what follows. */
  lemma {:induction false} ParseTokensOf(e: Expr, rest: seq<Token>)
    ensures ParseExpr(TokensOf(e) + rest) == Ok((e, rest))
    decreases e, 1
  {
    var ts := TokensOf(e) + rest;
    match e
    case Atom(_) => assert ts[1..] == rest;
    case List(items) =>
      assert ts[1..] == TokensOfAll(items) + ([RParen] + rest);
      ParseTokensOfAll(items, rest);
  }

  lemma {:induction false} ParseTokensOfAll(items: seq<Expr>, rest: seq<Token>)
    ensures ParseItems(TokensOfAll(items) + ([RParen] + rest)) == Ok((items, rest))
    decreases items, 0
  {
    var close := [RParen] + rest;
    if items == [] {
      assert TokensOfAll(items) + close == close;
      assert close[1..] == rest;
    } else {
      var ts := TokensOfAll(items) + close;
      assert ts == TokensOf(items[0]) + (TokensOfAll(items[1..]) + close);
      ParseTokensOf(items[0], TokensOfAll(items[1..]) + close);
      assert ts[0] != RParen;
      ParseTokensOfAll(items[1..], rest);
      assert [items[0]] + items[1..] == items;
    }
  }

  // ------------------------------------------ what a successful parse produces

  lemma {:induction false} TokensAreGood(s: string)
    ensures Tokens(s).Ok? ==> GoodTokens(Tokens(s).value)
    decreases |s|
  {
    if s == [] || s[0] == '"' {
    } else if s[0] == ';' {
      TokensAreGood(AfterComment(s[1..]));
    } else if s[0] == '(' || s[0] == ')' || IsSpace(s[0]) {
      TokensAreGood(s[1..]);
    } else {
      var n := AtomLength(s);
      TokensAreGood(s[n..]);
    }
  }

  lemma {:induction false} ParsedIsGood(ts: seq<Token>)
    requires GoodTokens(ts)
    ensures var r := ParseExpr(ts); r.Ok? ==> GoodExpr(r.value.0) && GoodTokens(r.value.1)
    ensures var r := ParseItems(ts); r.Ok? ==> (forall x | x in r.value.0 :: GoodExpr(x)) && GoodTokens(r.value.1)
    decreases |ts|
  {
    if ts != [] {
      if ts[0] == LParen { ParsedIsGood(ts[1..]); }
      var r := ParseExpr(ts);
      if r.Ok? { ParsedIsGood(r.value.1); }
    }
  }
}
