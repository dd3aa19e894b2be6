/**
 * The tokenizer of the reader (src/tokenize.rs): a cursor over the input
 * text that tries, at each position, a fixed priority list of recognisers
 * (digit run, quote, letter run, single space, dot) and stops at the first
 * position where none of them accepts.
 */
module Tokenizing {
  import opened Wrappers
  import opened Numerals

  /** A lexical unit. The digit-run token is `Integer` here and `Number` in the parser's source. */
  datatype Token = Integer(digits: string) | Quote | Identifier(name: string) | WhiteSpace | Dot

  /** Why one recogniser declined; the tokenizer discards these and stops. */
  datatype ReadError = Eof | NotInteger | NotQuote | NotIdentifier | NotWhitespace | NotDot

  /** The letters the identifier reader accepts: the ASCII letters, lower and upper case. */
  predicate IsLetter(c: char) {
    'a' <= c <= 'z' || 'A' <= c <= 'Z'
  }

  /** The letters are exactly the 26 lower-case and the 26 upper-case ASCII letters. */
  lemma LetterCharacters(c: char)
    ensures IsLetter(c) <==> c in "abcdefghijklmnopqrstuvwxyz" || c in "ABCDEFGHIJKLMNOPQRSTUVWXYZ"
  {
    LowerCase(c);
    UpperCase(c);
  }

  lemma LowerCase(c: char)
    ensures 'a' <= c <= 'z' <==> c in "abcdefghijklmnopqrstuvwxyz"
  {
  }

  lemma UpperCase(c: char)
    ensures 'A' <= c <= 'Z' <==> c in "ABCDEFGHIJKLMNOPQRSTUVWXYZ"
  {
  }

  predicate AllLetters(s: string) {
    forall i :: 0 <= i < |s| ==> IsLetter(s[i])
  }

  /** The characters some recogniser accepts at the cursor. */
  predicate Accepted(c: char) {
    IsDigit(c) || c == '\'' || IsLetter(c) || c == ' ' || c == '.'
  }

  /** A token as the tokenizer produces it: a payload is a non-empty run of its class. */
  predicate WellFormed(t: Token) {
    match t
    case Integer(d) => d != [] && AllDigits(d)
    case Identifier(x) => x != [] && AllLetters(x)
    case _ => true
  }

  predicate AllWellFormed(ts: seq<Token>) {
    forall i :: 0 <= i < |ts| ==> WellFormed(ts[i])
  }

  /** The source text a token is read from. */
  function Text(t: Token): string {
    match t
    case Integer(d) => d
    case Quote => "'"
    case Identifier(x) => x
    case WhiteSpace => " "
    case Dot => "."
  }

  /** The source texts of a token sequence, concatenated. */
  function Flatten(ts: seq<Token>): string {
    if ts == [] then "" else Text(ts[0]) + Flatten(ts[1..])
  }

  /** The length of the longest prefix of `s` whose characters all pass `test`. */
  function Span(s: string, test: char -> bool): (n: nat)
    ensures n <= |s|
    ensures forall i :: 0 <= i < n ==> test(s[i])
    ensures n < |s| ==> !test(s[n])
  {
    if s == [] || !test(s[0]) then 0 else 1 + Span(s[1..], test)
  }

  /**
   * The recognisers tried in priority order on the unread text `s`: the
   * token read and the number of characters it takes, or None when no
   * recogniser accepts (end of input or an unaccepted character).
   */
  function ReadToken(s: string): (r: Option<(Token, nat)>)
    ensures r.None? <==> s == [] || !Accepted(s[0])
    ensures r.Some? ==> 1 <= r.value.1 <= |s| && Text(r.value.0) == s[..r.value.1]
    ensures r.Some? ==> WellFormed(r.value.0)
  {
    if s == [] then None
    else if IsDigit(s[0]) then
      var n := Span(s, IsDigit);
      Some((Integer(s[..n]), n))
    else if s[0] == '\'' then Some((Quote, 1))
    else if IsLetter(s[0]) then
      var n := Span(s, IsLetter);
      Some((Identifier(s[..n]), n))
    else if s[0] == ' ' then Some((WhiteSpace, 1))
    else if s[0] == '.' then Some((Dot, 1))
    else None
  }

  /** The tokens read from `s` up to end of input or the first unaccepted character. */
  function Tokens(s: string): (ts: seq<Token>)
    ensures |ts| <= |s|
    decreases |s|
  {
    match ReadToken(s)
    case None => []
    case Some((t, n)) => [t] + Tokens(s[n..])
  }

  /** How many characters of `s` the tokens read from it cover. */
  function Consumed(s: string): (n: nat)
    ensures n <= |s|
    decreases |s|
  {
    match ReadToken(s)
    case None => 0
    case Some((_, k)) => k + Consumed(s[k..])
  }

  /** One step of reading: the first token, then the tokens of the text after it. */
  lemma {:induction false} TokensStep(s: string, t: Token, n: nat)
    requires ReadToken(s) == Some((t, n))
    ensures n <= |s| && Tokens(s) == [t] + Tokens(s[n..]) && Consumed(s) == n + Consumed(s[n..])
  {
  }

  /** Where no token can be read, reading yields nothing and consumes nothing. */
  lemma {:induction false} TokensStuck(s: string)
    requires ReadToken(s) == None
    ensures Tokens(s) == [] && Consumed(s) == 0
  {
  }

  /** One step of reading, stated on positions of the whole input: a token read from `start` up to `stop` is followed by the tokens read from `stop`. */
  lemma TokensStepAt(input: string, start: nat, stop: nat, t: Token)
    requires start <= stop && start <= |input| && ReadToken(input[start..]) == Some((t, stop - start))
    ensures stop <= |input|
    ensures Tokens(input[start..]) == [t] + Tokens(input[stop..])
    ensures Consumed(input[start..]) == (stop - start) + Consumed(input[stop..])
  {
    TokensStep(input[start..], t, stop - start);
    SliceOfSlice(input, start, stop);
  }

  /**
   * One step of the tokenizer's loop: moving token t, read from `start` up
   * to `stop`, from the unread input to the collected tokens keeps the
   * record of what is read from the whole input exact, where `whole` and
   * `total` are the tokens and the length read from it.
   */
  lemma TokensAdvance(input: string, start: nat, stop: nat, tokens: seq<Token>, t: Token,
                      whole: seq<Token>, used: nat, total: nat)
    requires start <= stop <= |input|
    requires Tokens(input[start..]) == [t] + Tokens(input[stop..])
    requires Consumed(input[start..]) == (stop - start) + Consumed(input[stop..])
    requires whole == tokens + Tokens(input[start..])
    requires total == used + Consumed(input[start..])
    ensures whole == (tokens + [t]) + Tokens(input[stop..])
    ensures total == used + (stop - start) + Consumed(input[stop..])
  {
    ConsAssoc(tokens, t, Tokens(input[stop..]));
  }

  /** Appending one element and then a sequence is appending the one-element sequence first. */
  lemma ConsAssoc<T>(a: seq<T>, x: T, b: seq<T>)
    ensures a + ([x] + b) == (a + [x]) + b
  {
  }

  /** Dropping `stop - start` characters after dropping `start` drops `stop`. */
  lemma SliceOfSlice(s: string, start: nat, stop: nat)
    requires start <= stop <= |s|
    ensures s[start..][stop - start..] == s[stop..]
  {
  }

  /** Digit and letter tokens take maximal runs: the character after one is not of its class. */
  lemma MaximalMunch(s: string)
    requires ReadToken(s).Some?
    ensures var (t, n) := ReadToken(s).value;
      (t.Integer? <==> IsDigit(s[0])) && (t.Identifier? <==> IsLetter(s[0])) &&
      (t.Integer? && n < |s| ==> !IsDigit(s[n])) &&
      (t.Identifier? && n < |s| ==> !IsLetter(s[n]))
  {
  }

  lemma FlattenCons(t: Token, ts: seq<Token>)
    ensures Flatten([t] + ts) == Text(t) + Flatten(ts)
  {
    assert ([t] + ts)[1..] == ts;
  }

  /** Concatenating the tokens' source texts gives back the input up to where reading stopped. */
  lemma {:induction false} TokensReproduceInput(s: string)
    ensures Flatten(Tokens(s)) == s[..Consumed(s)]
    decreases |s|
  {
    var r := ReadToken(s);
    if r.None? {
      TokensStuck(s);
    } else {
      var t, n := r.value.0, r.value.1;
      var u := s[n..];
      TokensStep(s, t, n);
      var m := Consumed(u);
      calc {
        Flatten(Tokens(s));
      ==
        Flatten([t] + Tokens(u));
      == { FlattenCons(t, Tokens(u)); }
        Text(t) + Flatten(Tokens(u));
      == { TokensReproduceInput(u); }
        s[..n] + u[..m];
      == { PrefixJoin(s, n, m); }
        s[..n + m];
      }
    }
  }

  /** A prefix of `s`, then a prefix of the rest, is the longer prefix of `s`. */
  lemma PrefixJoin(s: string, n: nat, m: nat)
    requires n + m <= |s|
    ensures s[..n] + s[n..][..m] == s[..n + m]
  {
  }

  /**
   * Reading stops exactly at the first character no recogniser accepts, so
   * it covers the whole input exactly when every character is accepted.
   */
  lemma {:induction false} ConsumedPrefix(s: string)
    ensures forall i :: 0 <= i < Consumed(s) ==> Accepted(s[i])
    ensures Consumed(s) < |s| ==> !Accepted(s[Consumed(s)])
    ensures Consumed(s) == |s| <==> forall i :: 0 <= i < |s| ==> Accepted(s[i])
  {
    ConsumedAccepted(s);
    ConsumedStops(s);
  }

  /** Every character the tokens read cover is accepted. */
  lemma {:induction false} ConsumedAccepted(s: string)
    ensures forall i :: 0 <= i < Consumed(s) ==> Accepted(s[i])
    decreases |s|
  {
    var r := ReadToken(s);
    if r.None? {
      TokensStuck(s);
    } else {
      var t, n := r.value.0, r.value.1;
      var u := s[n..];
      TokensStep(s, t, n);
      ConsumedAccepted(u);
      forall i | 0 <= i < Consumed(s)
        ensures Accepted(s[i])
      {
        if i < n {
          assert s[i] == Text(t)[i];
        } else {
          assert s[i] == u[i - n];
        }
      }
    }
  }

  /** Where reading stops before the end, the character there is not accepted. */
  lemma {:induction false} ConsumedStops(s: string)
    ensures Consumed(s) < |s| ==> !Accepted(s[Consumed(s)])
    decreases |s|
  {
    var r := ReadToken(s);
    if r.None? {
      TokensStuck(s);
    } else {
      var t, n := r.value.0, r.value.1;
      var u := s[n..];
      TokensStep(s, t, n);
      ConsumedStops(u);
      if Consumed(s) < |s| {
        assert s[Consumed(s)] == u[Consumed(u)];
      }
    }
  }

  /** Every token read is well formed: digit and letter payloads are non-empty runs of their class. */
  lemma {:induction false} TokensWellFormed(s: string)
    ensures AllWellFormed(Tokens(s))
    decreases |s|
  {
    match ReadToken(s)
    case None =>
    case Some((t, n)) =>
      TokensWellFormed(s[n..]);
      assert Tokens(s) == [t] + Tokens(s[n..]);
  }

  /** A non-empty token sequence starts with the token the recognisers read first. */
  lemma FirstToken(s: string)
    requires Tokens(s) != []
    ensures ReadToken(s).Some? && Tokens(s)[0] == ReadToken(s).value.0
  {
  }

  /** Two Integer tokens are never adjacent, and neither are two Identifier tokens. */
  lemma {:induction false} NoAdjacentRuns(s: string)
    ensures var ts := Tokens(s);
      forall i :: 0 <= i < |ts| - 1 ==>
        !(ts[i].Integer? && ts[i + 1].Integer?) && !(ts[i].Identifier? && ts[i + 1].Identifier?)
    decreases |s|
  {
    match ReadToken(s)
    case None =>
    case Some((t, n)) =>
      var rest := Tokens(s[n..]);
      NoAdjacentRuns(s[n..]);
      assert Tokens(s) == [t] + rest;
      if rest != [] {
        FirstToken(s[n..]);
        MaximalMunch(s);
        MaximalMunch(s[n..]);
      }
      forall i | 1 <= i < |Tokens(s)| - 1
        ensures Tokens(s)[i] == rest[i - 1] && Tokens(s)[i + 1] == rest[i]
      {
      }
  }

  /** The number of space characters in a text. */
  function Spaces(s: string): nat {
    if s == [] then 0 else (if s[0] == ' ' then 1 else 0) + Spaces(s[1..])
  }

  /** The number of WhiteSpace tokens in a token sequence. */
  function WhiteSpaces(ts: seq<Token>): (n: nat)
    ensures n <= |ts|
  {
    if ts == [] then 0 else (if ts[0] == WhiteSpace then 1 else 0) + WhiteSpaces(ts[1..])
  }

  /** Every token of the sequence is WhiteSpace. */
  predicate AllWhiteSpace(ts: seq<Token>) {
    forall i :: 0 <= i < |ts| ==> ts[i] == WhiteSpace
  }

  /** A run of spaces reads as one WhiteSpace token per space. */
  lemma {:induction false} SpaceRunTokens(s: string)
    requires forall i :: 0 <= i < |s| ==> s[i] == ' '
    ensures AllWhiteSpace(Tokens(s)) && |Tokens(s)| == |s|
    decreases |s|
  {
    if s != [] {
      assert s == [' '] + s[1..];
      MarkThen(' ', s[1..]);
      SpaceRunTokens(s[1..]);
      assert Tokens(s) == [WhiteSpace] + Tokens(s[1..]);
    }
  }

  lemma {:induction false} SpacesAppend(a: string, b: string)
    ensures Spaces(a + b) == Spaces(a) + Spaces(b)
    decreases |a|
  {
    if a != [] {
      assert (a + b)[0] == a[0];
      SpacesAppend(a[1..], b);
      assert (a + b)[1..] == a[1..] + b;
    } else {
      assert a + b == b;
    }
  }

  lemma {:induction false} NoSpaces(s: string)
    requires forall i :: 0 <= i < |s| ==> s[i] != ' '
    ensures Spaces(s) == 0
    decreases |s|
  {
    if s != [] {
      NoSpaces(s[1..]);
    }
  }

  /** In the texts of well-formed tokens, the spaces are exactly the WhiteSpace tokens. */
  lemma {:induction false} WhiteSpacesFlatten(ts: seq<Token>)
    requires AllWellFormed(ts)
    ensures Spaces(Flatten(ts)) == WhiteSpaces(ts)
    decreases |ts|
  {
    if ts != [] {
      WhiteSpacesFlatten(ts[1..]);
      SpacesAppend(Text(ts[0]), Flatten(ts[1..]));
      match ts[0]
      case Integer(d) => NoSpaces(d);
      case Identifier(x) => NoSpaces(x);
      case _ =>
    }
  }

  /** Each space of the text read becomes exactly one WhiteSpace token: spaces are never merged. */
  lemma SpacesBecomeWhiteSpace(s: string)
    ensures WhiteSpaces(Tokens(s)) == Spaces(s[..Consumed(s)])
  {
    TokensWellFormed(s);
    TokensReproduceInput(s);
    WhiteSpacesFlatten(Tokens(s));
  }

  lemma {:induction false} SpanIgnoresTail(p: string, q: string, test: char -> bool)
    requires q == [] || !test(q[0])
    ensures Span(p + q, test) == Span(p, test)
    decreases |p|
  {
    if p == [] {
      assert p + q == q;
    } else {
      assert (p + q)[0] == p[0];
      if test(p[0]) {
        SpanIgnoresTail(p[1..], q, test);
        assert (p + q)[1..] == p[1..] + q;
      }
    }
  }

  /** The token read does not depend on text after it that starts with neither a digit nor a letter. */
  lemma {:induction false} ReadTokenIgnoresTail(p: string, q: string)
    requires p != []
    requires q == [] || (!IsDigit(q[0]) && !IsLetter(q[0]))
    ensures ReadToken(p + q) == ReadToken(p)
  {
    var w := p + q;
    assert w[0] == p[0];
    if IsDigit(p[0]) {
      SpanIgnoresTail(p, q, IsDigit);
      var n := Span(p, IsDigit);
      assert w[..n] == p[..n];
    } else if IsLetter(p[0]) {
      SpanIgnoresTail(p, q, IsLetter);
      var n := Span(p, IsLetter);
      assert w[..n] == p[..n];
    }
  }

  lemma {:induction false} TokensIgnoreTail(p: string, q: string)
    requires forall i :: 0 <= i < |p| ==> Accepted(p[i])
    requires q == [] || !Accepted(q[0])
    ensures Tokens(p + q) == Tokens(p)
    decreases |p|
  {
    if p == [] {
      assert p + q == q;
    } else {
      ReadTokenIgnoresTail(p, q);
      var n := ReadToken(p).value.1;
      assert (p + q)[n..] == p[n..] + q;
      TokensIgnoreTail(p[n..], q);
    }
  }

  /** The first token of `p` is also the first token of `p + q`, and reading goes on in `q`'s part. */
  lemma {:induction false} TokensAppendHead(p: string, q: string)
    requires p != [] && Accepted(p[0])
    requires q == [] || (!IsDigit(q[0]) && !IsLetter(q[0]))
    ensures var (t, n) := ReadToken(p).value;
      Tokens(p + q) == [t] + Tokens(p[n..] + q)
  {
    ReadTokenIgnoresTail(p, q);
    var t, n := ReadToken(p).value.0, ReadToken(p).value.1;
    TokensStep(p + q, t, n);
    assert (p + q)[n..] == p[n..] + q;
  }

  /**
   * A text read to its end, then text starting with neither a digit nor a
   * letter: the tokens are those of the first text followed by those of the second.
   */
  lemma {:induction false} TokensAppend(p: string, q: string)
    requires forall i :: 0 <= i < |p| ==> Accepted(p[i])
    requires q == [] || (!IsDigit(q[0]) && !IsLetter(q[0]))
    ensures Tokens(p + q) == Tokens(p) + Tokens(q)
    decreases |p|
  {
    if p == [] {
      assert p + q == q;
    } else {
      TokensAppendHead(p, q);
      var t, n := ReadToken(p).value.0, ReadToken(p).value.1;
      TokensAppend(p[n..], q);
      TokensStep(p, t, n);
      assert [t] + (Tokens(p[n..]) + Tokens(q)) == ([t] + Tokens(p[n..])) + Tokens(q);
    }
  }

  /** Everything from the first unaccepted character on is ignored. */
  lemma {:induction false} UnacceptedEndsInput(s: string)
    ensures Tokens(s) == Tokens(s[..Consumed(s)])
  {
    ConsumedAccepted(s);
    ConsumedStops(s);
    TokensStopAt(s, Consumed(s));
  }

  /** Cutting the input at an unaccepted character that follows an accepted prefix does not change its tokens. */
  lemma TokensStopAt(s: string, c: nat)
    requires c <= |s| && forall i :: 0 <= i < c ==> Accepted(s[i])
    requires c < |s| ==> !Accepted(s[c])
    ensures Tokens(s) == Tokens(s[..c])
  {
    TakeDropJoin(s, c);
    TokensIgnoreTail(s[..c], s[c..]);
  }

  /** Cutting a string at `c` and joining the parts gives it back. */
  lemma TakeDropJoin(s: string, c: nat)
    requires c <= |s|
    ensures s[..c] + s[c..] == s
  {
  }

  /** A digit run of length `n`, not followed by a digit, reads as one Integer token. */
  lemma ReadDigitRun(s: string, n: nat)
    requires 0 < n <= |s| && (forall i :: 0 <= i < n ==> IsDigit(s[i]))
    requires n == |s| || !IsDigit(s[n])
    ensures ReadToken(s) == Some((Integer(s[..n]), n))
  {
    assert Span(s, IsDigit) == n;
  }

  /** A letter run of length `n`, not followed by a letter, reads as one Identifier token. */
  lemma ReadLetterRun(s: string, n: nat)
    requires 0 < n <= |s| && (forall i :: 0 <= i < n ==> IsLetter(s[i]))
    requires n == |s| || !IsLetter(s[n])
    ensures ReadToken(s) == Some((Identifier(s[..n]), n))
  {
    assert !IsDigit(s[0]);
    assert Span(s, IsLetter) == n;
  }

  /** A digit run followed by text not starting with a digit: its Integer token, then the text's tokens. */
  lemma {:induction false} DigitsThen(digits: string, rest: string)
    requires digits != [] && AllDigits(digits)
    requires rest == [] || !IsDigit(rest[0])
    ensures Tokens(digits + rest) == [Integer(digits)] + Tokens(rest)
  {
    var s := digits + rest;
    ReadDigitRun(s, |digits|);
    assert s[..|digits|] == digits;
    assert s[|digits|..] == rest;
    TokensStep(s, Integer(digits), |digits|);
  }

  /** A letter run followed by text not starting with a letter: its Identifier token, then the text's tokens. */
  lemma {:induction false} LettersThen(letters: string, rest: string)
    requires letters != [] && AllLetters(letters)
    requires rest == [] || !IsLetter(rest[0])
    ensures Tokens(letters + rest) == [Identifier(letters)] + Tokens(rest)
  {
    var s := letters + rest;
    ReadLetterRun(s, |letters|);
    assert s[..|letters|] == letters;
    assert s[|letters|..] == rest;
    TokensStep(s, Identifier(letters), |letters|);
  }

  /** A quote, a space or a dot is one token of its own, whatever follows it. */
  lemma {:induction false} MarkThen(c: char, rest: string)
    requires c == '\'' || c == ' ' || c == '.'
    ensures Tokens([c] + rest) ==
      [if c == '\'' then Quote else if c == ' ' then WhiteSpace else Dot] + Tokens(rest)
  {
    var s := [c] + rest;
    assert s[1..] == rest;
    TokensStep(s, if c == '\'' then Quote else if c == ' ' then WhiteSpace else Dot, 1);
  }

  /** A non-empty digit run reads as that one Integer token. */
  lemma DigitRunTokens(s: string)
    requires s != [] && AllDigits(s)
    ensures Tokens(s) == [Integer(s)]
  {
    DigitsThen(s, []);
    assert s + [] == s;
  }

  /** Two digit runs separated by one space: the space becomes one WhiteSpace token between two Integers. */
  lemma DigitsSpaceDigits(a: string, b: string)
    requires a != [] && AllDigits(a) && b != [] && AllDigits(b)
    ensures Tokens(a + " " + b) == [Integer(a), WhiteSpace, Integer(b)]
  {
    calc {
      Tokens(a + " " + b);
    == { assert a + " " + b == a + (" " + b); }
      Tokens(a + (" " + b));
    == { DigitsThen(a, " " + b); }
      [Integer(a)] + Tokens([' '] + b);
    == { MarkThen(' ', b); }
      [Integer(a)] + ([WhiteSpace] + Tokens(b));
    == { DigitRunTokens(b); }
      [Integer(a), WhiteSpace, Integer(b)];
    }
  }

  /** Two digit runs separated by a dot: Integer, Dot, Integer. */
  lemma DigitsDotDigits(a: string, b: string)
    requires a != [] && AllDigits(a) && b != [] && AllDigits(b)
    ensures Tokens(a + "." + b) == [Integer(a), Dot, Integer(b)]
  {
    calc {
      Tokens(a + "." + b);
    == { assert a + "." + b == a + ("." + b); }
      Tokens(a + ("." + b));
    == { DigitsThen(a, "." + b); }
      [Integer(a)] + Tokens(['.'] + b);
    == { MarkThen('.', b); }
      [Integer(a)] + ([Dot] + Tokens(b));
    == { DigitRunTokens(b); }
      [Integer(a), Dot, Integer(b)];
    }
  }

  /** A quote before a letter run: Quote, Identifier. */
  lemma QuoteLetters(x: string)
    requires x != [] && AllLetters(x)
    ensures Tokens("'" + x) == [Quote, Identifier(x)]
  {
    LettersThen(x, []);
    assert x + [] == x;
    MarkThen('\'', x);
  }

  /** "123" reads as one Integer token. */
  lemma TokenizeInteger()
    ensures Tokens("123") == [Integer("123")]
  {
    DigitRunTokens("123");
  }

  /** "123 456" reads as Integer, WhiteSpace, Integer. */
  lemma TokenizeMultipleInteger()
    ensures Tokens("123 456") == [Integer("123"), WhiteSpace, Integer("456")]
  {
    DigitsSpaceDigits("123", "456");
    assert "123" + " " + "456" == "123 456";
  }

  /** "'atom" reads as Quote then Identifier("atom"). */
  lemma TokenizeQuote()
    ensures Tokens("'atom") == [Quote, Identifier("atom")]
  {
    QuoteLetters("atom");
    assert "'" + "atom" == "'atom";
  }

  /** "123.456" reads as Integer, Dot, Integer. */
  lemma TokenizeFloat()
    ensures Tokens("123.456") == [Integer("123"), Dot, Integer("456")]
  {
    DigitsDotDigits("123", "456");
    assert "123" + "." + "456" == "123.456";
  }

  /** "123. 3" reads as Integer, Dot, WhiteSpace, Integer. */
  lemma TokenizeLackFloat()
    ensures Tokens("123. 3") == [Integer("123"), Dot, WhiteSpace, Integer("3")]
  {
    calc {
      Tokens("123. 3");
    == { assert "123. 3" == "123" + ['.'] + ([' '] + "3"); }
      Tokens("123" + ['.'] + ([' '] + "3"));
    == { assert "123" + ['.'] + ([' '] + "3") == "123" + (['.'] + ([' '] + "3")); }
      Tokens("123" + (['.'] + ([' '] + "3")));
    == { DigitsThen("123", ['.'] + ([' '] + "3")); }
      [Integer("123")] + Tokens(['.'] + ([' '] + "3"));
    == { MarkThen('.', [' '] + "3"); }
      [Integer("123")] + ([Dot] + Tokens([' '] + "3"));
    == { MarkThen(' ', "3"); }
      [Integer("123")] + ([Dot] + ([WhiteSpace] + Tokens("3")));
    == { DigitRunTokens("3"); }
      [Integer("123"), Dot, WhiteSpace, Integer("3")];
    }
  }

  /** The tokenizer's state: the input text and a cursor into it. */
  class Tokenizer {
    const input: string
    var pos: nat

    ghost predicate Valid()
      reads this
    {
      pos <= |input|
    }

    constructor (input: string)
      ensures this.input == input && pos == 0 && Valid()
    {
      this.input := input;
      pos := 0;
    }

    /** Reads tokens until no recogniser accepts; never fails. */
    method Tokenize() returns (tokens: seq<Token>)
      requires Valid()
      modifies this
      ensures Valid()
      ensures tokens == Tokens(input[old(pos)..])
      ensures pos == old(pos) + Consumed(input[old(pos)..])
    {
      tokens := [];
      ghost var from := pos;
      ghost var whole, total := Tokens(input[from..]), Consumed(input[from..]);
      while true
        invariant Valid() && from <= pos
        invariant whole == tokens + Tokens(input[pos..])
        invariant total == pos - from + Consumed(input[pos..])
        decreases |input| - pos
      {
        ghost var start := pos;
        var r := ReadNext();
        if r.Err? {
          TokensStuck(input[pos..]);
          break;
        }
        TokensStepAt(input, start, pos, r.value);
        TokensAdvance(input, start, pos, tokens, r.value, whole, start - from, total);
        tokens := tokens + [r.value];
      }
    }

    /**
     * The recognisers tried in priority order at the cursor: the first that
     * accepts reads the token; if none does, nothing is read.
     */
    method ReadNext() returns (r: Result<Token, ReadError>)
      requires Valid()
      modifies this
      ensures Valid()
      ensures r.Ok? ==> pos > old(pos) && ReadToken(input[old(pos)..]) == Some((r.value, pos - old(pos)))
      ensures r.Err? ==> pos == old(pos) && ReadToken(input[old(pos)..]) == None
    {
      r := ReadInteger();
      if r.Err? {
        r := ReadQuote();
      }
      if r.Err? {
        r := ReadIdentifier();
      }
      if r.Err? {
        r := ReadWhitespace();
      }
      if r.Err? {
        r := ReadDot();
      }
    }

    method ReadInteger() returns (r: Result<Token, ReadError>)
      requires Valid()
      modifies this
      ensures Valid()
      ensures r.Ok? <==> old(pos) < |input| && IsDigit(input[old(pos)])
      ensures r.Ok? ==> pos > old(pos) && ReadToken(input[old(pos)..]) == Some((r.value, pos - old(pos)))
      ensures r.Err? ==> pos == old(pos) && r.error == if old(pos) == |input| then Eof else NotInteger
    {
      var c := NextChar();
      if c.None? {
        return Err(Eof);
      }
      if IsDigit(c.value) {
        var integer := ConsumeWhile(IsDigit);
        assert integer == input[old(pos)..][..pos - old(pos)];
        return Ok(Integer(integer));
      }
      return Err(NotInteger);
    }

    /** Reads one quote mark; the source's message when declining is "Not ascii". */
    method ReadQuote() returns (r: Result<Token, ReadError>)
      requires Valid()
      modifies this
      ensures Valid()
      ensures r.Ok? <==> old(pos) < |input| && input[old(pos)] == '\''
      ensures r.Ok? ==> pos > old(pos) && ReadToken(input[old(pos)..]) == Some((r.value, pos - old(pos)))
      ensures r.Err? ==> pos == old(pos) && r.error == if old(pos) == |input| then Eof else NotQuote
    {
      var c := NextChar();
      if c.None? {
        return Err(Eof);
      }
      if c.value == '\'' {
        var _ := Consume();
        return Ok(Quote);
      }
      return Err(NotQuote);
    }

    method ReadIdentifier() returns (r: Result<Token, ReadError>)
      requires Valid()
      modifies this
      ensures Valid()
      ensures r.Ok? <==> old(pos) < |input| && IsLetter(input[old(pos)])
      ensures r.Ok? ==> pos > old(pos) && ReadToken(input[old(pos)..]) == Some((r.value, pos - old(pos)))
      ensures r.Err? ==> pos == old(pos) && r.error == if old(pos) == |input| then Eof else NotIdentifier
    {
      var c := NextChar();
      if c.None? {
        return Err(Eof);
      }
      if IsLetter(c.value) {
        var identifier := ConsumeWhile(IsLetter);
        assert identifier == input[old(pos)..][..pos - old(pos)];
        return Ok(Identifier(identifier));
      }
      return Err(NotIdentifier);
    }

    method ReadWhitespace() returns (r: Result<Token, ReadError>)
      requires Valid()
      modifies this
      ensures Valid()
      ensures r.Ok? <==> old(pos) < |input| && input[old(pos)] == ' '
      ensures r.Ok? ==> pos > old(pos) && ReadToken(input[old(pos)..]) == Some((r.value, pos - old(pos)))
      ensures r.Err? ==> pos == old(pos) && r.error == if old(pos) == |input| then Eof else NotWhitespace
    {
      var c := NextChar();
      if c.None? {
        return Err(Eof);
      }
      if c.value == ' ' {
        pos := pos + 1;
        return Ok(WhiteSpace);
      }
      return Err(NotWhitespace);
    }

    method ReadDot() returns (r: Result<Token, ReadError>)
      requires Valid()
      modifies this
      ensures Valid()
      ensures r.Ok? <==> old(pos) < |input| && input[old(pos)] == '.'
      ensures r.Ok? ==> pos > old(pos) && ReadToken(input[old(pos)..]) == Some((r.value, pos - old(pos)))
      ensures r.Err? ==> pos == old(pos) && r.error == if old(pos) == |input| then Eof else NotDot
    {
      var c := NextChar();
      if c.None? {
        return Err(Eof);
      }
      if c.value == '.' {
        pos := pos + 1;
        return Ok(Dot);
      }
      return Err(NotDot);
    }

    /** The character at the cursor, or None at end of input. */
    function NextChar(): (c: Option<char>)
      reads this
      requires Valid()
      ensures c.Some? <==> pos < |input|
      ensures c.Some? ==> c.value == input[pos]
    {
      if pos < |input| then Some(input[pos]) else None
    }

    /** Takes the character at the cursor, if there is one. */
    method Consume() returns (c: Option<char>)
      requires Valid()
      modifies this
      ensures Valid()
      ensures c == old(NextChar())
      ensures pos == if c.Some? then old(pos) + 1 else old(pos)
    {
      c := NextChar();
      if c.Some? {
        pos := pos + 1;
      }
    }

    /** Takes the longest run of characters at the cursor that pass `test` and returns it. */
    method ConsumeWhile(test: char -> bool) returns (result: string)
      requires Valid()
      modifies this
      ensures Valid()
      ensures pos == old(pos) + Span(input[old(pos)..], test)
      ensures result == input[old(pos)..pos]
    {
      result := [];
      var c := NextChar();
      while c.Some? && test(c.value)
        invariant Valid() && old(pos) <= pos <= old(pos) + Span(input[old(pos)..], test)
        invariant result == input[old(pos)..pos]
        invariant c == NextChar()
        decreases |input| - pos
      {
        assert input[pos] == input[old(pos)..][pos - old(pos)];
        pos := pos + 1;
        result := result + [c.value];
        c := NextChar();
      }
    }
  }

  /** Tokenizes a whole text from its start; the result is the tokens read before reading stops. */
  method Tokenize(input: string) returns (tokens: seq<Token>)
    ensures tokens == Tokens(input)
  {
    var tokenizer := new Tokenizer(input);
    tokens := tokenizer.Tokenize();
  }
}
