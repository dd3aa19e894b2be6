/**
 * The parser of the reader (src/parse.rs): a cursor over the token
 * sequence, one expression at a time, and the composition
 * parse(text) = Parser(tokenize(text)).
 */
module Parsing {
  import opened Wrappers
  import opened Numerals
  import opened Tokenizing
  import opened Exprs

  datatype ParseError = UnterminatedQuote | NotAtom | UnknownToken(token: Token) | Eof

  /** Integer tokens carry digit runs, which the digit fold needs (it panics on any other character). */
  predicate DigitTokens(ts: seq<Token>) {
    forall i :: 0 <= i < |ts| ==> ts[i].Integer? ==> AllDigits(ts[i].digits)
  }

  /**
   * One expression read from the front of `ts`: the expression and how
   * many tokens it takes, or the error that aborts the parse.
   */
  function ParseExpr(ts: seq<Token>): (r: Result<(Expr, nat), ParseError>)
    requires DigitTokens(ts)
    ensures r.Ok? ==> 1 <= r.value.1 <= |ts|
    decreases |ts|
  {
    if ts == [] then Err(ParseError.Eof)
    else
      match ts[0]
      case Integer(digits) =>
        var integer := DigitsValue(digits);
        if |ts| > 1 && ts[1] == Dot then
          if |ts| > 2 && ts[2].Integer? then Ok((Float(integer as real + Fraction(ts[2].digits)), 3))
          else Ok((Float(integer as real), 2))
        else Ok((Expr.Integer(integer), 1))
      case Quote =>
        if |ts| == 1 then Err(UnterminatedQuote)
        else if ts[1].Identifier? then Ok((Atom(ts[1].name), 2))
        else Err(NotAtom)
      case WhiteSpace =>
        (match ParseExpr(ts[1..])
         case Ok((e, k)) => Ok((e, k + 1))
         case Err(error) => Err(error))
      case _ => Err(UnknownToken(ts[0]))
  }

  /** Expressions read one after another until the tokens run out; the first error aborts. */
  function ParseAll(ts: seq<Token>): (r: Result<seq<Expr>, ParseError>)
    requires DigitTokens(ts)
    ensures r.Ok? ==> |r.value| <= |ts|
    decreases |ts|
  {
    if ts == [] then Ok([])
    else
      match ParseExpr(ts)
      case Err(error) => Err(error)
      case Ok((e, k)) =>
        match ParseAll(ts[k..])
        case Err(error) => Err(error)
        case Ok(es) => Ok([e] + es)
  }

  lemma TokensCarryDigits(s: string)
    ensures DigitTokens(Tokens(s))
  {
    TokensWellFormed(s);
  }

  /** What the reader makes of a text: the parse of its tokens. */
  function Parsed(src: string): (r: Result<seq<Expr>, ParseError>)
    ensures r.Ok? ==> |r.value| <= |src|
  {
    TokensCarryDigits(src);
    ParseAll(Tokens(src))
  }

  /** `es` in front of the expressions of `r`, or the error of `r`. */
  function Prepend(es: seq<Expr>, r: Result<seq<Expr>, ParseError>): Result<seq<Expr>, ParseError> {
    match r
    case Ok(tail) => Ok(es + tail)
    case Err(error) => Err(error)
  }

  /** One step of the parse loop: the first expression, then the rest; or the first expression's error. */
  lemma ParseAllStep(ts: seq<Token>, done: seq<Expr>)
    requires DigitTokens(ts) && ts != []
    ensures ParseExpr(ts).Ok? ==>
      var (e, k) := ParseExpr(ts).value;
      Prepend(done, ParseAll(ts)) == Prepend(done + [e], ParseAll(ts[k..]))
    ensures ParseExpr(ts).Err? ==> ParseAll(ts) == Err(ParseExpr(ts).error)
  {
    if ParseExpr(ts).Ok? {
      var (e, k) := ParseExpr(ts).value;
      match ParseAll(ts[k..])
      case Ok(es) =>
        assert done + [e] + es == done + ([e] + es);
      case Err(_) =>
    }
  }

  /** The parser's state: the tokens and a cursor into them, which may run past the end. */
  class Parser {
    const input: seq<Token>
    var pos: nat

    ghost predicate Valid()
      reads this
    {
      DigitTokens(input)
    }

    /** The tokens from the cursor on; none once the cursor has reached or passed the end. */
    function Remaining(): (rest: seq<Token>)
      reads this
      ensures DigitTokens(input) ==> DigitTokens(rest)
    {
      if pos <= |input| then input[pos..] else []
    }

    constructor (input: seq<Token>)
      requires DigitTokens(input)
      ensures this.input == input && pos == 0 && Valid()
    {
      this.input := input;
      pos := 0;
    }

    /** Parses expressions until the cursor reaches the end; any error aborts with no partial result. */
    method Parse() returns (r: Result<seq<Expr>, ParseError>)
      requires Valid()
      modifies this
      ensures r == ParseAll(old(Remaining()))
      ensures r.Ok? ==> Eof()
    {
      var expressions := [];
      ghost var whole := ParseAll(Remaining());
      assert Prepend([], whole) == whole by {
        if whole.Ok? {
          assert [] + whole.value == whole.value;
        }
      }
      while true
        invariant whole == Prepend(expressions, ParseAll(Remaining()))
        decreases |input| - pos
      {
        if Eof() {
          assert ParseAll(Remaining()) == Ok([]);
          break;
        }
        ghost var rest := Remaining();
        ghost var start := pos;
        var expr := ParseExpression();
        if expr.Err? {
          ParseAllStep(rest, expressions);
          return Err(expr.error);
        }
        ghost var k := pos - start;
        assert ParseExpr(rest) == Ok((expr.value, k));
        assert Remaining() == rest[k..];
        ParseAllStep(rest, expressions);
        expressions := expressions + [expr.value];
      }
      assert expressions + [] == expressions;
      return Ok(expressions);
    }

    /** True exactly when no token is left at the cursor. */
    predicate Eof()
      reads this
      ensures Eof() <==> Remaining() == []
    {
      |input| <= pos
    }

    /**
     * Reads one expression at the cursor; a WhiteSpace token is skipped by
     * reading again after it. The cursor always advances.
     */
    method ParseExpression() returns (r: Result<Expr, ParseError>)
      requires Valid()
      modifies this
      ensures pos > old(pos)
      ensures r.Ok? ==> ParseExpr(old(Remaining())) == Ok((r.value, pos - old(pos)))
      ensures r.Err? ==> ParseExpr(old(Remaining())) == Err(r.error)
      decreases |input| - pos
    {
      ghost var rest := Remaining();
      var token := Consume();
      match token
      case None =>
        r := Err(ParseError.Eof);
      case Some(t) =>
        assert rest != [] && rest[0] == t && Remaining() == rest[1..];
        match t
        case Integer(digits) =>
          var integer := DigitsValue(digits);
          var next := NextToken();
          if next == Some(Dot) {
            var _ := Consume();
            var num := ConsumeIf((t: Token) => t.Integer?);
            if num.Some? && num.value.Integer? {
              r := Ok(Float(integer as real + Fraction(num.value.digits)));
            } else {
              r := Ok(Float(integer as real));
            }
          } else {
            r := Ok(Expr.Integer(integer));
          }
        case Quote =>
          var next := Consume();
          match next {
            case Some(Identifier(identifier)) =>
              r := Ok(Atom(identifier));
            case Some(_) =>
              r := Err(NotAtom);
            case None =>
              r := Err(UnterminatedQuote);
          }
        case WhiteSpace =>
          r := ParseExpression();
        case _ =>
          r := Err(UnknownToken(t));
    }

    /** The token at the cursor, or None once the cursor has reached the end. */
    function NextToken(): (t: Option<Token>)
      reads this
      ensures t.Some? <==> pos < |input|
      ensures t.Some? ==> t.value == input[pos]
    {
      if pos < |input| then Some(input[pos]) else None
    }

    /** Takes the token at the cursor, if any; the cursor advances even past the end. */
    method Consume() returns (t: Option<Token>)
      modifies this
      ensures t == old(NextToken())
      ensures pos == old(pos) + 1
    {
      t := NextToken();
      pos := pos + 1;
    }

    /** Takes the token at the cursor only when there is one and it passes `test`. */
    method ConsumeIf(test: Token -> bool) returns (t: Option<Token>)
      modifies this
      ensures t.Some? <==> old(pos) < |input| && test(input[old(pos)])
      ensures t.Some? ==> t.value == input[old(pos)] && pos == old(pos) + 1
      ensures t.None? ==> pos == old(pos)
    {
      t := NextToken();
      if t.None? {
        return;
      }
      if test(t.value) {
        pos := pos + 1;
      } else {
        t := None;
      }
    }
  }

  /** Reads a text: tokenizes it, then parses the tokens. */
  method Parse(src: string) returns (r: Result<seq<Expr>, ParseError>)
    ensures r == Parsed(src)
  {
    var tokens := Tokenize(src);
    TokensCarryDigits(src);
    var parser := new Parser(tokens);
    r := parser.Parse();
  }

  /** A digit run not followed by a Dot is one Integer: the most-significant-first fold of its digits. */
  lemma IntegerToken(digits: string, rest: seq<Token>)
    requires AllDigits(digits) && DigitTokens(rest)
    requires rest == [] || rest[0] != Dot
    ensures DigitTokens([Token.Integer(digits)] + rest)
    ensures ParseExpr([Token.Integer(digits)] + rest) == Ok((Expr.Integer(DigitsValue(digits)), 1))
  {
  }

  /**
   * Digits, Dot, digits take three tokens and give one Float: the integer
   * part plus the fractional digits' value over 10^k, so its integer part
   * is the first run's value.
   */
  lemma FloatTokens(whole: string, fraction: string, rest: seq<Token>)
    requires AllDigits(whole) && AllDigits(fraction) && DigitTokens(rest)
    ensures DigitTokens([Token.Integer(whole), Dot, Token.Integer(fraction)] + rest)
    ensures var f := DigitsValue(whole) as real + (DigitsValue(fraction) as real) / (Pow10(|fraction|) as real);
      ParseExpr([Token.Integer(whole), Dot, Token.Integer(fraction)] + rest) == Ok((Float(f), 3)) &&
      f.Floor == DigitsValue(whole)
  {
  }

  /**
   * Digits and a Dot not followed by a digit run give Float of the integer
   * part alone, taking two tokens; the next token starts a new expression.
   */
  lemma LackFloat(whole: string, rest: seq<Token>)
    requires AllDigits(whole) && DigitTokens(rest)
    requires rest == [] || !rest[0].Integer?
    ensures DigitTokens([Token.Integer(whole), Dot] + rest)
    ensures ParseExpr([Token.Integer(whole), Dot] + rest) == Ok((Float(DigitsValue(whole) as real), 2))
  {
  }

  /**
   * A Quote needs an Identifier after it: with one it gives an Atom of the
   * identifier's text; at the end of the tokens it is an unterminated quote;
   * before any other token it is not an atom.
   */
  lemma QuoteCases(rest: seq<Token>)
    requires DigitTokens(rest)
    ensures DigitTokens([Quote] + rest)
    ensures rest == [] ==> ParseAll([Quote] + rest) == Err(UnterminatedQuote)
    ensures rest != [] && rest[0].Identifier? ==> ParseExpr([Quote] + rest) == Ok((Atom(rest[0].name), 2))
    ensures rest != [] && !rest[0].Identifier? ==> ParseAll([Quote] + rest) == Err(NotAtom)
  {
  }

  /** A Dot or an Identifier where an expression starts is an unknown token, and the parse fails. */
  lemma StrayTokenFails(ts: seq<Token>)
    requires DigitTokens(ts) && ts != []
    requires ts[0] == Dot || ts[0].Identifier?
    ensures ParseAll(ts) == Err(UnknownToken(ts[0]))
  {
  }

  lemma {:induction false} WhiteSpacesAppend(a: seq<Token>, b: seq<Token>)
    ensures WhiteSpaces(a + b) == WhiteSpaces(a) + WhiteSpaces(b)
    decreases |a|
  {
    if a == [] {
      assert a + b == b;
    } else {
      assert (a + b)[0] == a[0];
      assert (a + b)[1..] == a[1..] + b;
      WhiteSpacesAppend(a[1..], b);
    }
  }

  /** The tokens one expression takes are not all WhiteSpace. */
  lemma {:induction false} ExprTakesNonWhiteSpace(ts: seq<Token>)
    requires DigitTokens(ts) && ParseExpr(ts).Ok?
    ensures WhiteSpaces(ts[..ParseExpr(ts).value.1]) < ParseExpr(ts).value.1
    decreases |ts|
  {
    var k := ParseExpr(ts).value.1;
    assert ts[..k] == [ts[0]] + ts[1..k];
    WhiteSpacesAppend([ts[0]], ts[1..k]);
    if ts[0] == WhiteSpace {
      ExprTakesNonWhiteSpace(ts[1..]);
      assert ts[1..][..k - 1] == ts[1..k];
    }
  }

  /**
   * WhiteSpace tokens never produce an expression: a successful parse
   * yields at most as many expressions as there are other tokens.
   */
  lemma {:induction false} WhiteSpaceProducesNothing(ts: seq<Token>)
    requires DigitTokens(ts) && ParseAll(ts).Ok?
    ensures |ParseAll(ts).value| + WhiteSpaces(ts) <= |ts|
    decreases |ts|
  {
    if ts != [] {
      var k := ParseExpr(ts).value.1;
      ExprTakesNonWhiteSpace(ts);
      WhiteSpaceProducesNothing(ts[k..]);
      assert ts == ts[..k] + ts[k..];
      WhiteSpacesAppend(ts[..k], ts[k..]);
    }
  }

  /** A run made only of WhiteSpace tokens is skipped to the end, where no token is left: Eof. */
  lemma {:induction false} WhiteSpaceRunEof(ws: seq<Token>)
    requires AllWhiteSpace(ws)
    ensures DigitTokens(ws)
    ensures ParseExpr(ws) == Err(ParseError.Eof)
    decreases |ws|
  {
    if ws != [] {
      assert AllWhiteSpace(ws[1..]) by {
        forall i | 0 <= i < |ws| - 1
          ensures ws[1..][i] == WhiteSpace
        {
          assert ws[1..][i] == ws[i + 1];
        }
      }
      WhiteSpaceRunEof(ws[1..]);
    }
  }

  /** WhiteSpace tokens after a complete expression do not change how that expression is read. */
  lemma {:induction false} TrailingWhiteSpaceKeepsExpr(ts: seq<Token>, ws: seq<Token>)
    requires DigitTokens(ts) && ParseExpr(ts).Ok? && AllWhiteSpace(ws)
    ensures DigitTokens(ts + ws)
    ensures ParseExpr(ts + ws) == ParseExpr(ts)
    decreases |ts|
  {
    WhiteSpaceRunEof(ws);
    var u := ts + ws;
    assert u[0] == ts[0];
    assert |ts| == 1 ==> |u| == 1 || u[1] == WhiteSpace;
    assert |ts| > 1 ==> u[1] == ts[1];
    assert |ts| == 2 ==> |u| == 2 || u[2] == WhiteSpace;
    assert |ts| > 2 ==> u[2] == ts[2];
    if ts[0] == WhiteSpace {
      TrailingWhiteSpaceKeepsExpr(ts[1..], ws);
      assert u[1..] == ts[1..] + ws;
    }
  }

  /**
   * Any non-empty run of WhiteSpace after the last expression makes the
   * whole parse fail with Eof: skipping it reads again where no token is left.
   */
  lemma {:induction false} TrailingWhiteSpaceFails(ts: seq<Token>, ws: seq<Token>)
    requires DigitTokens(ts) && ParseAll(ts).Ok?
    requires ws != [] && AllWhiteSpace(ws)
    ensures DigitTokens(ts + ws)
    ensures ParseAll(ts + ws) == Err(ParseError.Eof)
    decreases |ts|
  {
    WhiteSpaceRunEof(ws);
    var u := ts + ws;
    if ts == [] {
      assert u == ws;
    } else {
      var k := ParseExpr(ts).value.1;
      TrailingWhiteSpaceKeepsExpr(ts, ws);
      TrailingWhiteSpaceFails(ts[k..], ws);
      assert u[k..] == ts[k..] + ws;
    }
  }

  /**
   * Spaces after a text that reads successfully and is read to its end make
   * the whole reading fail with Eof; with an empty text, a line of spaces
   * alone fails the same way.
   */
  lemma TrailingSpacesFail(s: string, spaces: string)
    requires forall i :: 0 <= i < |s| ==> Accepted(s[i])
    requires Parsed(s).Ok?
    requires spaces != [] && forall i :: 0 <= i < |spaces| ==> spaces[i] == ' '
    ensures Parsed(s + spaces) == Err(ParseError.Eof)
  {
    TokensAppend(s, spaces);
    SpaceRunTokens(spaces);
    TokensCarryDigits(s);
    TrailingWhiteSpaceFails(Tokens(s), Tokens(spaces));
    ParsedTokens(s + spaces, Tokens(s) + Tokens(spaces));
  }

  /** A line of spaces alone fails with Eof. */
  lemma BlankLineFails(spaces: string)
    requires spaces != [] && forall i :: 0 <= i < |spaces| ==> spaces[i] == ' '
    ensures Parsed(spaces) == Err(ParseError.Eof)
  {
    assert Tokens([]) == [];
    TrailingSpacesFail([], spaces);
    assert [] + spaces == spaces;
  }

  /** A parse whose first expression is `e`, taking `k` tokens, with `tail` for the rest. */
  lemma ParseAllCons(ts: seq<Token>, e: Expr, k: nat, tail: seq<Expr>)
    requires DigitTokens(ts) && ts != []
    requires ParseExpr(ts) == Ok((e, k))
    requires ParseAll(ts[k..]) == Ok(tail)
    ensures ParseAll(ts) == Ok([e] + tail)
  {
  }

  lemma ParsedTokens(s: string, ts: seq<Token>)
    requires Tokens(s) == ts
    ensures DigitTokens(ts) && Parsed(s) == ParseAll(ts)
  {
    TokensCarryDigits(s);
  }

  /** A text that is one digit run reads as one Integer, the fold of its digits. */
  lemma DigitRunParses(s: string)
    requires s != [] && AllDigits(s)
    ensures Parsed(s) == Ok([Expr.Integer(DigitsValue(s))])
  {
    DigitRunTokens(s);
    var ts := [Token.Integer(s)];
    ParsedTokens(s, ts);
    IntegerToken(s, []);
    assert ts + [] == ts;
    assert ts[1..] == [];
    ParseAllCons(ts, Expr.Integer(DigitsValue(s)), 1, []);
    assert [Expr.Integer(DigitsValue(s))] + [] == [Expr.Integer(DigitsValue(s))];
  }

  /** Rendering a non-negative Integer and reading the text back gives that Integer alone. */
  lemma IntegerRoundTrip(n: nat)
    ensures Parsed(Display(Expr.Integer(n))) == Ok([Expr.Integer(n)])
  {
    DigitRunParses(Display(Expr.Integer(n)));
  }

  /** A negative Integer's rendering starts with '-', which no recogniser accepts, so it reads as nothing. */
  lemma NegativeRendersToNothing(n: int)
    requires n < 0
    ensures Parsed(Display(Expr.Integer(n))) == Ok([])
  {
    var s := Display(Expr.Integer(n));
    assert s[0] == '-' && !Accepted(s[0]);
    assert Tokens(s) == [];
  }

  /** Reading ignores everything from the first character no recogniser accepts. */
  lemma ParseIgnoresUnaccepted(s: string)
    ensures Parsed(s) == Parsed(s[..Consumed(s)])
  {
    UnacceptedEndsInput(s);
  }

  lemma Value123()
    ensures AllDigits("123") && DigitsValue("123") == 123
  {
    assert "123"[..2] == "12";
    assert "12"[..1] == "1";
    assert "1"[..0] == "";
  }

  lemma Value456()
    ensures AllDigits("456") && DigitsValue("456") == 456
  {
    assert "456"[..2] == "45";
    assert "45"[..1] == "4";
    assert "4"[..0] == "";
  }

  /** "123" reads as Integer(123). */
  lemma ParseInteger()
    ensures Parsed("123") == Ok([Expr.Integer(123)])
  {
    Value123();
    DigitRunParses("123");
  }

  /** Skipping a WhiteSpace: the expression after it, taking one token more. */
  lemma SkipWhiteSpace(rest: seq<Token>, e: Expr, k: nat)
    requires DigitTokens(rest) && ParseExpr(rest) == Ok((e, k))
    ensures DigitTokens([WhiteSpace] + rest)
    ensures ParseExpr([WhiteSpace] + rest) == Ok((e, k + 1))
  {
    assert ([WhiteSpace] + rest)[1..] == rest;
  }

  lemma MultipleIntegerTokens()
    ensures var ts := [Token.Integer("123"), WhiteSpace, Token.Integer("456")];
      DigitTokens(ts) && ParseAll(ts) == Ok([Expr.Integer(123), Expr.Integer(456)])
  {
    Value123();
    Value456();
    var ts := [Token.Integer("123"), WhiteSpace, Token.Integer("456")];
    var u := [WhiteSpace, Token.Integer("456")];
    var v := [Token.Integer("456")];
    IntegerToken("123", u);
    assert [Token.Integer("123")] + u == ts && ts[1..] == u;
    IntegerToken("456", []);
    assert v + [] == v && v[1..] == [];
    SkipWhiteSpace(v, Expr.Integer(456), 1);
    assert [WhiteSpace] + v == u && u[2..] == [];
    ParseAllCons(u, Expr.Integer(456), 2, []);
    assert [Expr.Integer(456)] + [] == [Expr.Integer(456)];
    ParseAllCons(ts, Expr.Integer(123), 1, [Expr.Integer(456)]);
    assert [Expr.Integer(123)] + [Expr.Integer(456)] == [Expr.Integer(123), Expr.Integer(456)];
  }

  /** "123 456" reads as Integer(123), Integer(456): the space produces nothing. */
  lemma ParseMultipleInteger()
    ensures Parsed("123 456") == Ok([Expr.Integer(123), Expr.Integer(456)])
  {
    TokenizeMultipleInteger();
    MultipleIntegerTokens();
    ParsedTokens("123 456", [Token.Integer("123"), WhiteSpace, Token.Integer("456")]);
  }

  /** "'atom" reads as Atom("atom"). */
  lemma ParseAtom()
    ensures Parsed("'atom") == Ok([Atom("atom")])
  {
    TokenizeQuote();
    var ts := [Quote, Identifier("atom")];
    ParsedTokens("'atom", ts);
    QuoteCases([Identifier("atom")]);
    assert [Quote] + [Identifier("atom")] == ts;
    assert ts[2..] == [];
    ParseAllCons(ts, Atom("atom"), 2, []);
    assert [Atom("atom")] + [] == [Atom("atom")];
  }

  lemma FloatTokensParse()
    ensures var ts := [Token.Integer("123"), Dot, Token.Integer("456")];
      DigitTokens(ts) && ParseAll(ts) == Ok([Float(123.456)])
  {
    var ts := [Token.Integer("123"), Dot, Token.Integer("456")];
    assert ParseExpr(ts) == Ok((Float(123.456), 3)) by {
      Value123();
      Value456();
      assert Pow10(3) == 1000;
      FloatTokens("123", "456", []);
      assert ts + [] == ts;
    }
    assert ts[3..] == [];
    ParseAllCons(ts, Float(123.456), 3, []);
    assert [Float(123.456)] + [] == [Float(123.456)];
  }

  /** "123.456" reads as Float(123.456). */
  lemma ParseFloat()
    ensures Parsed("123.456") == Ok([Float(123.456)])
  {
    TokenizeFloat();
    FloatTokensParse();
    ParsedTokens("123.456", [Token.Integer("123"), Dot, Token.Integer("456")]);
  }

  lemma LackFloatTokens()
    ensures var ts := [Token.Integer("123"), Dot, WhiteSpace, Token.Integer("3")];
      DigitTokens(ts) && ParseAll(ts) == Ok([Float(123.0), Expr.Integer(3)])
  {
    Value123();
    var ts := [Token.Integer("123"), Dot, WhiteSpace, Token.Integer("3")];
    var u := [WhiteSpace, Token.Integer("3")];
    var v := [Token.Integer("3")];
    LackFloat("123", u);
    assert [Token.Integer("123"), Dot] + u == ts && ts[2..] == u;
    assert DigitsValue("3") == 3 by {
      assert "3"[..0] == "";
    }
    IntegerToken("3", []);
    assert v + [] == v && v[1..] == [];
    SkipWhiteSpace(v, Expr.Integer(3), 1);
    assert [WhiteSpace] + v == u && u[2..] == [];
    ParseAllCons(u, Expr.Integer(3), 2, []);
    assert [Expr.Integer(3)] + [] == [Expr.Integer(3)];
    ParseAllCons(ts, Float(123.0), 2, [Expr.Integer(3)]);
    assert [Float(123.0)] + [Expr.Integer(3)] == [Float(123.0), Expr.Integer(3)];
  }

  /** "123. 3" reads as Float(123.0), Integer(3): the digit after the space is a new expression. */
  lemma ParseLackFloat()
    ensures Parsed("123. 3") == Ok([Float(123.0), Expr.Integer(3)])
  {
    TokenizeLackFloat();
    LackFloatTokens();
    ParsedTokens("123. 3", [Token.Integer("123"), Dot, WhiteSpace, Token.Integer("3")]);
  }

  /** "'" is an unterminated quote. */
  lemma ParseUnterminatedQuote()
    ensures Parsed("'") == Err(UnterminatedQuote)
  {
    var s := "'";
    TokensStep(s, Quote, 1);
    assert ReadToken(s[1..]) == None;
    QuoteCases([]);
    assert [Quote] + [] == [Quote];
  }

  /** "123 " fails with Eof because of the trailing space. */
  lemma ParseTrailingSpace()
    ensures Parsed("123 ") == Err(ParseError.Eof)
  {
    ParseInteger();
    Value123();
    TrailingSpacesFail("123", " ");
    assert "123" + " " == "123 ";
  }

  /** "123  " fails with Eof too: every trailing space is skipped before the end is hit. */
  lemma ParseTrailingSpaces()
    ensures Parsed("123  ") == Err(ParseError.Eof)
  {
    ParseInteger();
    Value123();
    TrailingSpacesFail("123", "  ");
    assert "123" + "  " == "123  ";
  }
}
