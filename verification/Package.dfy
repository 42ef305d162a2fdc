/**
  Aspect packages: the declarations read from S-expressions, their canonical
  text, and the round trip between the two.
*/
module Package {
  import opened Common
  import opened Syntax

  /** How many names and how many expressions follow a head. */
  datatype Shape = Shape(names: nat, exprs: nat)

  /** The reserved words of the language; everything below holds for any choice of them. */
  datatype Grammar = Grammar(forms: map<string, Shape>, policy: string, forbidden: set<string>)

  const GRAMMAR: Grammar := Grammar(
    map[
      ":" := Shape(1, 1), "aspect" := Shape(1, 0), "abstract-aspect" := Shape(1, 0), "bundle" := Shape(1, 0),
      "layer-of" := Shape(2, 0), "extends" := Shape(2, 0), "conflicts" := Shape(2, 0), "owns" := Shape(2, 1),
      "registry-owns" := Shape(2, 1), "provides" := Shape(2, 0), "requires" := Shape(2, 0), "action" := Shape(2, 0),
      "derived" := Shape(2, 1), "local-invariant" := Shape(2, 1), "bundle-includes" := Shape(2, 0),
      "bundle-extends" := Shape(2, 0), "bundle-constraint" := Shape(2, 1), "projection" := Shape(2, 1),
      "method-abi" := Shape(2, 2), "cross-constraint" := Shape(1, 1)],
    "method-policy",
    { "add-atom", "remove-atom", "get-atoms", "match", "import!", "py-call", "callPredicate",
      "assertzPredicate", "assertaPredicate", "retractPredicate", "translatePredicate",
      "add-translator-rule!", "remove-translator-rule!", "filesystem-access", "process-execution",
      "network-access", "wall-clock-access", "randomness" })

  /** A declaration: a head with its names and expressions, or a method policy with its optional extensions. */
  datatype Declaration =
    | Plain(head: string, names: seq<string>, exprs: seq<Expr>)
    | MethodPolicy(bundle: string, projection: string, authority: Expr, effects: Expr, invariants: Expr,
                   calls: Option<Expr>, stateReads: Option<Expr>)

  // ------------------------------------------------------------ forbidden forms

  /** The first forbidden head in reading order, if any. */
  function FirstForbidden(g: Grammar, e: Expr): Option<string>
    decreases e, 1
  {
    match e
    case Atom(_) => None
    case List(items) =>
      if items != [] && items[0].Atom? && items[0].name in g.forbidden then Some(items[0].name)
      else FirstForbiddenIn(g, items)
  }

  function FirstForbiddenIn(g: Grammar, items: seq<Expr>): (r: Option<string>)
    ensures r.None? <==> forall x | x in items :: FirstForbidden(g, x).None?
    decreases items, 0
  {
    if items == [] then None
    else
      var first := FirstForbidden(g, items[0]);
      assert items[0] in items;
      assert forall x :: x in items <==> x == items[0] || x in items[1..];
      if first.Some? then first else FirstForbiddenIn(g, items[1..])
  }

  // ------------------------------------------------- expressions to declarations

  /** `names` read from `items`, failing at the first that is not an atom. */
  function AtomNames(items: seq<Expr>): (r: Result<seq<string>, SyntaxError>)
    ensures r.Ok? ==> items == NameExprs(r.value)
  {
    if items == [] then Ok([])
    else if items[0].List? then Err(ExpectedAtom(Print(items[0])))
    else
      var rest :- AtomNames(items[1..]);
      assert NameExprs([items[0].name] + rest) == [items[0]] + NameExprs(rest);
      Ok([items[0].name] + rest)
  }

  function NameExprs(names: seq<string>): seq<Expr> {
    seq(|names|, i requires 0 <= i < |names| => Atom(names[i]))
  }

  /** The optional trailing `(calls ..)` and `(reads ..)` of a policy, each at most once, in any order. */
  function Extensions(items: seq<Expr>, calls: Option<Expr>, stateReads: Option<Expr>)
    : Result<(Option<Expr>, Option<Expr>), SyntaxError>
  {
    if items == [] then Ok((calls, stateReads))
    else
      var e := items[0];
      if e.List? && e.items != [] && e.items[0] == Atom("calls") && calls.None? then
        Extensions(items[1..], Some(e), stateReads)
      else if e.List? && e.items != [] && e.items[0] == Atom("reads") && stateReads.None? then
        Extensions(items[1..], calls, Some(e))
      else Err(MalformedPolicyExtension(Print(e)))
  }

  function DeclarationOf(g: Grammar, e: Expr): Result<Declaration, SyntaxError> {
    var forbidden := FirstForbidden(g, e);
    if forbidden.Some? then Err(ForbiddenForm(forbidden.value))
    else match e
      case Atom(name) => Err(UnknownDeclaration(name))
      case List(items) =>
        if items == [] then Err(EmptyList)
        else if items[0].List? then Err(ExpectedAtom(Print(items[0])))
        else
          var head := items[0].name;
          if head == g.policy then PolicyOf(g, items)
          else if head !in g.forms then Err(UnknownDeclaration(head))
          else PlainOf(head, g.forms[head], items)
  }

  function PlainOf(head: string, shape: Shape, items: seq<Expr>): Result<Declaration, SyntaxError>
    requires items != []
  {
    var arity := 1 + shape.names + shape.exprs;
    if |items| != arity then Err(InvalidArity(head, arity - 1, |items| - 1))
    else
      var names :- AtomNames(items[1..1 + shape.names]);
      Ok(Plain(head, names, items[1 + shape.names..]))
  }

  function PolicyOf(g: Grammar, items: seq<Expr>): Result<Declaration, SyntaxError>
    requires items != []
  {
    if !(6 <= |items| <= 8) then Err(InvalidArity(g.policy, 5, |items| - 1))
    else
      var (calls, stateReads) :- Extensions(items[6..], None, None);
      var names :- AtomNames(items[1..3]);
      Ok(MethodPolicy(items[1].name, items[2].name, items[3], items[4], items[5], calls, stateReads))
  }

  // -------------------------------------------------- declarations to canonical text

  function SpacedNames(names: seq<string>): string {
    if names == [] then "" else " " + names[0] + SpacedNames(names[1..])
  }

  function SpacedExprs(es: seq<Expr>): string {
    if es == [] then "" else " " + Print(es[0]) + SpacedExprs(es[1..])
  }

  function Present(o: Option<Expr>): seq<Expr> {
    match o case None => [] case Some(e) => [e]
  }

  /** The canonical text of one declaration. */
  function CanonicalDeclaration(g: Grammar, d: Declaration): string {
    match d
    case Plain(head, names, exprs) => "(" + head + SpacedNames(names) + SpacedExprs(exprs) + ")"
    case MethodPolicy(b, p, authority, effects, invariants, calls, stateReads) =>
      "(" + g.policy + SpacedNames([b, p]) + SpacedExprs([authority, effects, invariants])
      + SpacedExprs(Present(calls) + Present(stateReads)) + ")"
  }

  function CanonicalSource(g: Grammar, ds: seq<Declaration>): string {
    if ds == [] then ""
    else if |ds| == 1 then CanonicalDeclaration(g, ds[0])
    else CanonicalDeclaration(g, ds[0]) + "\n" + CanonicalSource(g, ds[1..])
  }

  // ------------------------------------------------------------------- packages

  function DeclarationsOf(g: Grammar, ts: seq<Token>): Result<seq<Declaration>, SyntaxError>
    decreases |ts|
  {
    if ts == [] then Ok([])
    else
      var (e, rest) :- ParseExpr(ts);
      var d :- DeclarationOf(g, e);
      var ds :- DeclarationsOf(g, rest);
      Ok([d] + ds)
  }

  function ParsePackage(g: Grammar, source: string): Result<seq<Declaration>, SyntaxError> {
    var ts :- Tokens(source);
    DeclarationsOf(g, ts)
  }

  /** The entry point: tokenize, then read declarations until the input is exhausted. */
  method ParseAspectPackage(g: Grammar, source: string) returns (r: Result<seq<Declaration>, SyntaxError>)
    ensures r == ParsePackage(g, source)
  {
    var tokenized := Tokenize(source);
    if tokenized.Err? { return Err(tokenized.error); }
    var parser := new SExprParser(tokenized.value);
    var ds: seq<Declaration> := [];
    ghost var spec := DeclarationsOf(g, tokenized.value);
    assert parser.Rest() == tokenized.value;
    assert spec.Ok? ==> [] + spec.value == spec.value;
    while !parser.IsEof()
      invariant parser.tokens == tokenized.value && parser.position <= |parser.tokens|
      invariant fresh(parser)
      invariant var rest := DeclarationsOf(g, parser.Rest());
                spec == if rest.Ok? then Ok(ds + rest.value) else rest
      decreases |parser.tokens| - parser.position
    {
      ghost var before := parser.Rest();
      var e := parser.Parse();
      if e.Err? { return Err(e.error); }
      assert parser.Rest() == ParseExpr(before).value.1;
      var d := DeclarationOf(g, e.value);
      if d.Err? { return Err(d.error); }
      var rest := DeclarationsOf(g, parser.Rest());
      assert rest.Ok? ==> ds + ([d.value] + rest.value) == (ds + [d.value]) + rest.value;
      ds := ds + [d.value];
    }
    assert ds + [] == ds;
    r := Ok(ds);
  }

  // ------------------------------------------------------------------ round trip

  /** The S-expression a declaration prints as. */
  function ExprOf(g: Grammar, d: Declaration): Expr {
    match d
    case Plain(head, names, exprs) => List([Atom(head)] + NameExprs(names) + exprs)
    case MethodPolicy(b, p, authority, effects, invariants, calls, stateReads) =>
      List([Atom(g.policy)] + NameExprs([b, p])
           + ([authority, effects, invariants] + (Present(calls) + Present(stateReads))))
  }

  lemma {:induction false} PrintItemsCons(first: Expr, rest: seq<Expr>)
    ensures PrintItems([first] + rest) == Print(first) + SpacedExprs(rest)
    decreases |rest|
  {
    var all := [first] + rest;
    assert all[1..] == rest;
    if rest == [] {
      assert Print(first) + "" == Print(first);
    } else {
      assert rest == [rest[0]] + rest[1..];
      PrintItemsCons(rest[0], rest[1..]);
      assert Print(first) + " " + (Print(rest[0]) + SpacedExprs(rest[1..]))
          == Print(first) + (" " + Print(rest[0]) + SpacedExprs(rest[1..]));
    }
  }

  lemma {:induction false} SpacedExprsAppend(a: seq<Expr>, b: seq<Expr>)
    ensures SpacedExprs(a + b) == SpacedExprs(a) + SpacedExprs(b)
  {
    if a == [] {
      assert a + b == b;
    } else {
      assert (a + b)[1..] == a[1..] + b;
      SpacedExprsAppend(a[1..], b);
    }
  }

  lemma {:induction false} SpacedNamesAreExprs(names: seq<string>)
    ensures SpacedNames(names) == SpacedExprs(NameExprs(names))
  {
    if names != [] {
      assert NameExprs(names)[1..] == NameExprs(names[1..]);
      SpacedNamesAreExprs(names[1..]);
    }
  }

  lemma CanonicalShape(head: string, names: seq<string>, exprs: seq<Expr>)
    ensures "(" + head + SpacedNames(names) + SpacedExprs(exprs) + ")"
         == Print(List([Atom(head)] + NameExprs(names) + exprs))
  {
    hide SpacedNames, SpacedExprs, NameExprs;
    var tail := NameExprs(names) + exprs;
    assert [Atom(head)] + NameExprs(names) + exprs == [Atom(head)] + tail;
    PrintItemsCons(Atom(head), tail);
    SpacedExprsAppend(NameExprs(names), exprs);
    SpacedNamesAreExprs(names);
    assert "(" + (head + (SpacedNames(names) + SpacedExprs(exprs))) + ")"
        == "(" + head + SpacedNames(names) + SpacedExprs(exprs) + ")";
  }

  /** The canonical text is the print of the declaration's S-expression. */
  lemma CanonicalIsPrint(g: Grammar, d: Declaration)
    ensures CanonicalDeclaration(g, d) == Print(ExprOf(g, d))
  {
    match d
    case Plain(head, names, exprs) => CanonicalShape(head, names, exprs);
    case MethodPolicy(b, p, authority, effects, invariants, calls, stateReads) =>
      var base := [authority, effects, invariants];
      var ext := Present(calls) + Present(stateReads);
      CanonicalShape(g.policy, [b, p], base + ext);
      SpacedExprsAppend(base, ext);
      assert "(" + g.policy + SpacedNames([b, p]) + (SpacedExprs(base) + SpacedExprs(ext)) + ")"
          == "(" + g.policy + SpacedNames([b, p]) + SpacedExprs(base) + SpacedExprs(ext) + ")";
  }

  /** `e` is a clean expression that reads as `d` and prints as its canonical text. */
  ghost predicate Represents(g: Grammar, e: Expr, d: Declaration) {
    GoodExpr(e) && DeclarationOf(g, e) == Ok(d) && CanonicalDeclaration(g, d) == Print(e)
  }

  lemma ExtensionsOne(e: Expr, calls: Option<Expr>, stateReads: Option<Expr>)
    ensures Extensions([e], calls, stateReads) ==
            if e.List? && e.items != [] && e.items[0] == Atom("calls") && calls.None? then Ok((Some(e), stateReads))
            else if e.List? && e.items != [] && e.items[0] == Atom("reads")
              && stateReads.None? then Ok((calls, Some(e)))
            else Err(MalformedPolicyExtension(Print(e)))
  {
    assert [e][1..] == [];
  }

  /** Whatever the order of the extensions read, what is kept prints as calls before reads and reads back the same. */
  lemma ExtensionsReadBack(items: seq<Expr>)
    requires |items| <= 2 && Extensions(items, None, None).Ok?
    ensures var (calls, stateReads) := Extensions(items, None, None).value;
            var es := Present(calls) + Present(stateReads);
            && Extensions(es, None, None) == Extensions(items, None, None)
            && |es| == |items|
            && (forall x | x in es :: x in items)
  {
    var (calls, stateReads) := Extensions(items, None, None).value;
    var es := Present(calls) + Present(stateReads);
    if |items| == 1 {
      assert items == [items[0]];
      ExtensionsOne(items[0], None, None);
      assert es == items;
    } else if |items| == 2 {
      TwoExtensions(items);
    }
  }

  /** Two extensions are one of each kind. */
  lemma TwoExtensions(items: seq<Expr>)
    requires |items| == 2 && Extensions(items, None, None).Ok?
    ensures var (calls, stateReads) := Extensions(items, None, None).value;
            && calls.Some? && stateReads.Some? && calls.value in items && stateReads.value in items
            && Present(calls) + Present(stateReads) == [calls.value, stateReads.value]
            && Extensions([calls.value, stateReads.value], None, None) == Extensions(items, None, None)
  {
    assert items[1..] == [items[1]];
    ExtensionsOne(items[1], Some(items[0]), None);
    ExtensionsOne(items[1], None, Some(items[0]));
    var (calls, stateReads) := Extensions(items, None, None).value;
    assert [calls.value, stateReads.value][1..] == [stateReads.value];
    ExtensionsOne(stateReads.value, calls, None);
  }

  /** Reading a clean expression yields a declaration that its own S-expression represents. */
  lemma ReadBack(g: Grammar, e: Expr)
    requires GoodExpr(e) && DeclarationOf(g, e).Ok?
    ensures var d := DeclarationOf(g, e).value; Represents(g, ExprOf(g, d), d)
  {
    var d := DeclarationOf(g, e).value;
    CanonicalIsPrint(g, d);
    if d.Plain? {
      var n := 1 + g.forms[d.head].names;
      assert e.items == [e.items[0]] + e.items[1..n] + e.items[n..];
      assert ExprOf(g, d) == e;
    } else {
      PolicyReadBack(g, e.items, d);
    }
  }

  lemma PolicyReadBack(g: Grammar, items: seq<Expr>, d: Declaration)
    requires GoodExpr(List(items)) && DeclarationOf(g, List(items)) == Ok(d) && d.MethodPolicy?
    ensures GoodExpr(ExprOf(g, d)) && DeclarationOf(g, ExprOf(g, d)) == Ok(d)
  {
    ExtensionsReadBack(items[6..]);
    var ext := Present(d.calls) + Present(d.stateReads);
    var out := ExprOf(g, d).items;
    assert items[1..3] == NameExprs([d.bundle, d.projection]);
    assert out == items[..6] + ext;
    assert out[1..3] == items[1..3] && out[6..] == ext;
    forall x | x in out ensures x in items {
      if x !in items[..6] { assert x in items[6..]; }
    }
    assert FirstForbidden(g, List(out)).None?;
  }

  ghost predicate AllRepresent(g: Grammar, es: seq<Expr>, ds: seq<Declaration>) {
    |es| == |ds| && forall i | 0 <= i < |es| :: Represents(g, es[i], ds[i])
  }

  lemma {:induction false} DeclarationsAreRepresented(g: Grammar, ts: seq<Token>) returns (es: seq<Expr>)
    requires GoodTokens(ts) && DeclarationsOf(g, ts).Ok?
    ensures AllRepresent(g, es, DeclarationsOf(g, ts).value)
    decreases |ts|
  {
    if ts == [] { return []; }
    ParsedIsGood(ts);
    var (e, rest) := ParseExpr(ts).value;
    ReadBack(g, e);
    var tail := DeclarationsAreRepresented(g, rest);
    es := [ExprOf(g, DeclarationOf(g, e).value)] + tail;
  }

  function Lines(es: seq<Expr>): string {
    if es == [] then "" else if |es| == 1 then Print(es[0]) else Print(es[0]) + "\n" + Lines(es[1..])
  }

  lemma {:induction false} CanonicalIsLines(g: Grammar, es: seq<Expr>, ds: seq<Declaration>)
    requires AllRepresent(g, es, ds)
    ensures CanonicalSource(g, ds) == Lines(es)
  {
    if ds != [] {
      assert Represents(g, es[0], ds[0]);
      CanonicalIsLines(g, es[1..], ds[1..]);
    }
  }

  lemma {:induction false} TokensOfLines(es: seq<Expr>)
    requires forall e | e in es :: GoodExpr(e)
    ensures Tokens(Lines(es)) == Ok(TokensOfAll(es))
  {
    if |es| == 1 {
      assert Print(es[0]) + "" == Print(es[0]);
      TokensOfPrint(es[0], "");
      assert TokensOfAll(es) == TokensOf(es[0]) + [] == TokensOf(es[0]);
    } else if es != [] {
      var tail := "\n" + Lines(es[1..]);
      assert Lines(es) == Print(es[0]) + tail;
      TokensOfPrint(es[0], tail);
      assert tail[1..] == Lines(es[1..]);
      TokensOfLines(es[1..]);
    }
  }

  lemma {:induction false} DeclarationsReadBack(g: Grammar, es: seq<Expr>, ds: seq<Declaration>)
    requires AllRepresent(g, es, ds)
    ensures DeclarationsOf(g, TokensOfAll(es)) == Ok(ds)
  {
    hide DeclarationOf, ParseExpr, TokensOf, GoodExpr, ExprOf;
    if ds != [] {
      assert Represents(g, es[0], ds[0]);
      ParseTokensOf(es[0], TokensOfAll(es[1..]));
      DeclarationsReadBack(g, es[1..], ds[1..]);
      assert ds == [ds[0]] + ds[1..];
    }
  }

  /** Printing a parsed package canonically and parsing it again gives the same package. */
  lemma CanonicalRoundTrip(g: Grammar, source: string)
    requires ParsePackage(g, source).Ok?
    ensures ParsePackage(g, CanonicalSource(g, ParsePackage(g, source).value)) == ParsePackage(g, source)
  {
    var ds := ParsePackage(g, source).value;
    TokensAreGood(source);
    var es := DeclarationsAreRepresented(g, Tokens(source).value);
    CanonicalIsLines(g, es, ds);
    forall e | e in es ensures GoodExpr(e) {
      var i :| 0 <= i < |es| && es[i] == e;
      assert Represents(g, es[i], ds[i]);
    }
    TokensOfLines(es);
    DeclarationsReadBack(g, es, ds);
  }

  /**
    The canonical text identifies the package: two sources have equal canonical texts exactly when they parse alike.
  */
  lemma CanonicalInjective(g: Grammar, a: string, b: string)
    requires ParsePackage(g, a).Ok? && ParsePackage(g, b).Ok?
    ensures CanonicalSource(g, ParsePackage(g, a).value) == CanonicalSource(g, ParsePackage(g, b).value)
       <==> ParsePackage(g, a) == ParsePackage(g, b)
  {
    CanonicalRoundTrip(g, a);
    CanonicalRoundTrip(g, b);
  }

  // -------------------------------------------------------- whitespace and comments

  /** `s` does not end inside a comment. */
  predicate Settled(s: string)
    decreases |s|
  {
    if s == [] then true
    else if s[0] == ';' then
      (exists i :: 1 <= i < |s| && s[i] == '\n') && Settled(AfterComment(s[1..]))
    else Settled(s[1..])
  }

  function Joined(a: Tokenized, b: Tokenized): Tokenized {
    if a.Err? then a else Prepend(a.value, b)
  }

  /** No atom runs across the seam between `a` and `b`. */
  predicate Seam(a: string, b: string) {
    a == [] || b == [] || !IsAtomChar(a[|a| - 1]) || !IsAtomChar(b[0])
  }

  lemma {:induction false} AfterCommentAppend(a: string, b: string)
    requires exists i :: 0 <= i < |a| && a[i] == '\n'
    ensures AfterComment(a + b) == AfterComment(a) + b
    ensures |AfterComment(a)| < |a| && AfterComment(a) == a[|a| - |AfterComment(a)|..]
  {
    assert (a + b)[0] == a[0] && (a + b)[1..] == a[1..] + b;
    if a[0] != '\n' {
      var i :| 0 <= i < |a| && a[i] == '\n';
      assert a[1..][i - 1] == '\n';
      AfterCommentAppend(a[1..], b);
    }
  }

  lemma {:induction false} SettledDrop(s: string, n: nat)
    requires n <= |s| && Settled(s) && forall i :: 0 <= i < n ==> IsAtomChar(s[i])
    ensures Settled(s[n..])
  {
    if n == 0 {
      assert s[0..] == s;
    } else {
      SettledDrop(s[1..], n - 1);
      assert s[1..][n - 1..] == s[n..];
    }
  }

  lemma JoinedPrepend(t: Token, a: Tokenized, b: Tokenized)
    ensures Joined(Prepend([t], a), b) == Prepend([t], Joined(a, b))
  {
    if a.Ok? { PrependPrepend([t], a.value, b); }
  }

  /** Tokenizing splits at any seam outside a comment. */
  lemma {:induction false} TokensSplit(a: string, b: string)
    requires Settled(a) && Seam(a, b)
    ensures Tokens(a + b) == Joined(Tokens(a), Tokens(b))
    decreases |a|, 1
  {
    if a == [] {
      assert a + b == b;
      assert Tokens(b).Ok? ==> [] + Tokens(b).value == Tokens(b).value;
    } else if a[0] == ';' {
      assert (a + b)[1..] == a[1..] + b;
      var i :| 1 <= i < |a| && a[i] == '\n';
      assert a[1..][i - 1] == '\n';
      AfterCommentAppend(a[1..], b);
      TokensSplit(AfterComment(a[1..]), b);
    } else if IsAtomChar(a[0]) {
      TokensSplitAtom(a, b);
    } else {
      assert (a + b)[1..] == a[1..] + b;
      TokensSplit(a[1..], b);
      JoinedPrepend(LParen, Tokens(a[1..]), Tokens(b));
      JoinedPrepend(RParen, Tokens(a[1..]), Tokens(b));
    }
  }

  lemma {:induction false} TokensSplitAtom(a: string, b: string)
    requires a != [] && IsAtomChar(a[0]) && Settled(a) && Seam(a, b)
    ensures Tokens(a + b) == Joined(Tokens(a), Tokens(b))
    decreases |a|, 0
  {
    var n := AtomLength(a);
    var atom, rest := a[..n], a[n..];
    assert a + b == atom + (rest + b);
    assert rest == [] ==> rest + b == b;
    AtomLengthOf(atom, rest + b);
    assert (a + b)[..n] == atom && (a + b)[n..] == rest + b;
    SettledDrop(a, n);
    TokensSplit(rest, b);
    JoinedPrepend(Word(atom), Tokens(rest), Tokens(b));
  }

  /** A non-empty stretch of whitespace and complete comments. */
  ghost predicate Gap(g: string) {
    g != [] && Settled(g) && Tokens(g) == Ok([]) && !IsAtomChar(g[0]) && !IsAtomChar(g[|g| - 1])
  }

  /** Layout that may stand between two parts of a source: a gap, or nothing where no atoms would run together. */
  ghost predicate Layout(before: string, gap: string, after: string) {
    Gap(gap) || (gap == [] && Seam(before, after))
  }

  /** Whitespace and comments may be changed, put in or taken out anywhere without affecting what a source parses to. */
  lemma LayoutIrrelevant(g: Grammar, before: string, gap: string, gap': string, after: string)
    requires Settled(before) && Layout(before, gap, after) && Layout(before, gap', after)
    ensures ParsePackage(g, before + gap + after) == ParsePackage(g, before + gap' + after)
  {
    LayoutTokens(before, gap, after);
    LayoutTokens(before, gap', after);
  }

  /** A comment that ends the source needs no newline: it parses as if it were not there. */
  lemma TrailingComment(g: Grammar, before: string, body: string)
    requires Settled(before) && '\n' !in body
    ensures ParsePackage(g, before + (";" + body)) == ParsePackage(g, before)
  {
    var c := ";" + body;
    assert c[1..] == body;
    OpenComment(body);
    TokensSplit(before, c);
    var none: seq<Token> := [];
    assert Tokens(before).Ok? ==> Tokens(before).value + none == Tokens(before).value;
  }

  lemma {:induction false} OpenComment(body: string)
    requires '\n' !in body
    ensures AfterComment(body) == []
  {
    if body != [] { OpenComment(body[1..]); }
  }

  lemma LayoutTokens(before: string, gap: string, after: string)
    requires Settled(before) && Layout(before, gap, after)
    ensures Tokens(before + gap + after) == Joined(Tokens(before), Tokens(after))
  {
    if Gap(gap) {
      GapTokens(before, gap, after);
    } else {
      assert before + gap + after == before + after;
      TokensSplit(before, after);
    }
  }

  lemma GapTokens(before: string, gap: string, after: string)
    requires Settled(before) && Gap(gap)
    ensures Tokens(before + gap + after) == Joined(Tokens(before), Tokens(after))
  {
    assert before + gap + after == before + (gap + after);
    TokensSplit(before, gap + after);
    TokensSplit(gap, after);
    assert Tokens(after).Ok? ==> [] + Tokens(after).value == Tokens(after).value;
  }

  /** A space, a newline and a comment line are gaps, and gaps may be run together. */
  lemma GapsCompose(body: string, g: string, h: string)
    requires '\n' !in body
    ensures Gap(" ") && Gap("\n") && Gap(";" + body + "\n")
    ensures Gap(g) && Gap(h) ==> Gap(g + h)
  {
    var c := ";" + body + "\n";
    assert c[|c| - 1] == '\n';
    assert c[1..] == body + "\n";
    CommentBody(body);
    assert " "[1..] == [] && "\n"[1..] == [];
    if Gap(g) && Gap(h) {
      TokensSplit(g, h);
      var none: seq<Token> := [];
      assert none + none == none;
      SettledAppend(g, h);
    }
  }

  lemma {:induction false} CommentBody(body: string)
    requires '\n' !in body
    ensures AfterComment(body + "\n") == []
  {
    if body != [] {
      assert (body + "\n")[1..] == body[1..] + "\n";
      CommentBody(body[1..]);
    } else {
      assert body + "\n" == "\n";
    }
  }

  lemma {:induction false} SettledAppend(a: string, b: string)
    requires Settled(a) && Settled(b)
    ensures Settled(a + b)
    decreases |a|
  {
    if a == [] {
      assert a + b == b;
    } else if a[0] == ';' {
      assert (a + b)[1..] == a[1..] + b;
      var i :| 1 <= i < |a| && a[i] == '\n';
      assert (a + b)[i] == '\n' && a[1..][i - 1] == '\n';
      AfterCommentAppend(a[1..], b);
      SettledAppend(AfterComment(a[1..]), b);
    } else {
      assert (a + b)[1..] == a[1..] + b;
      SettledAppend(a[1..], b);
    }
  }
}
