# risp reader front-end in Dafny

This project models the reader of risp, a small Lisp-like interpreter. The
reader turns a line of text into a sequence of literal expressions.

Three pieces are modelled:

- **Tokenizer** (`src/tokenize.rs`). A cursor walks the text and tries a
  fixed priority list of recognisers at each position: a digit run, a
  quote mark, a letter run, a single space, a dot. The first recogniser
  that accepts produces the token. When none accepts, at end of input or
  at an unknown character, the tokenizer stops and returns what it has
  read so far.
- **Parser** (`src/parse.rs`). A cursor walks the tokens and reads one
  expression at a time:
  - digits give an `Integer`;
  - digits, a dot and digits give a `Float`, and digits plus a dot alone
    give a `Float` too;
  - a quote plus an identifier gives an `Atom`;
  - a whitespace token is skipped by reading again after it.

  The first error aborts the parse and no partial result is returned.
  `parse(text)` is tokenize followed by parse.
- **Literal types** (`src/expr.rs`, `src/value.rs`). `Expr` is what the
  parser builds. `Value` is an integer-only duplicate of `Expr`'s
  `Integer` variant; no other module of the crate uses it. Each comes with
  its decimal rendering and its equality.

Modules, one per source file, plus two helpers:

| module | models |
|---|---|
| `Wrappers` | `Option` and `Result` |
| `Numerals` | the digit fold `acc * 10 + d`, the fractional fold `acc + d * 10^-i`, decimal text |
| `Tokenizing` | `src/tokenize.rs` |
| `Parsing` | `src/parse.rs` |
| `Exprs` | `src/expr.rs` |
| `Values` | `src/value.rs` |

Both modelled stages work by updating a cursor in place. They are the
classes `Tokenizing.Tokenizer` and `Parsing.Parser`, each with a `pos`
field, and their methods have `modifies this`. The reading and parsing
methods are proved against pure specification functions of the unread
input:

- `ReadToken` and `Tokens` for the tokenizer, and `Span` for its
  `ConsumeWhile`;
- `ParseExpr` and `ParseAll` for the parser.

The cursor helpers (`Tokenizer.NextChar`, `Tokenizer.Consume`,
`Parser.NextToken`, `Parser.Consume`, `Parser.ConsumeIf`) state their
results directly. The lemmas are stated about the
specification functions.

The model follows the code as written:

- The tokenizer defines exactly five token kinds (src/tokenize.rs:4-10).
- Tokenizing never fails. At an unknown character the loop ends and the
  tokens read so far are returned. `UnacceptedEndsInput` and
  `ParseIgnoresUnaccepted` state this.
- Trailing spaces make the whole parse fail with the end-of-input error,
  because skipping whitespace reads again where no token is left. The
  same holds for a line of spaces alone. `TrailingWhiteSpaceFails`,
  `TrailingSpacesFail`, `BlankLineFails`, `ParseTrailingSpace` and
  `ParseTrailingSpaces` state this.
- `src/parse.rs` names the digit-run token `Token::Number`, while
  `src/tokenize.rs` defines it as `Token::Integer`. It is the same token,
  called `Integer` here.
- `src/parse.rs` builds `Expr::Float` and `Expr::Atom`, which
  `src/expr.rs` defines no variant for. `Exprs.Expr` has all three
  variants. Its equality compares variant and payload, which extends the
  source's `Integer`-only match.

## Model

| member | source | states |
|---|---|---|
| Numerals.IsDigit | src/tokenize.rs:45-46 | the characters the `'0'..='9'` pattern and `char::is_ascii_digit` accept |
| Numerals.DigitCharacters | src/tokenize.rs:45-46 | a character is a digit exactly when it is one of the ten ASCII digits `0123456789` |
| Numerals.Digit | src/parse.rs:45 | a digit character's value, as `to_digit(10)` gives it, is below 10 |
| Numerals.DigitChar | src/expr.rs:11 | the character written for a digit value is a digit, and its value is that digit |
| Numerals.DigitsValue | src/parse.rs:44-46 | the fold `acc * 10 + digit` over a k-digit run is below 10^k |
| Numerals.Fraction | src/parse.rs:53-57 | the fractional fold `acc + d_i * 10^-i` over the digits d_1 ... d_k, with i counted from 1, equals the digits' integer value over 10^k, so it lies in [0, 1) |
| Numerals.Decimal | src/expr.rs:11 | the decimal text of a natural number is a non-empty digit run that folds back to the number, with no leading zero except for 0 itself |
| Exprs.Display | src/expr.rs:8-14 | an Integer renders as its decimal text, with a minus sign when it is negative and no leading zeros |
| Exprs.Equal | src/expr.rs:16-22 | two expressions are equal exactly when they have the same variant and equal payloads; for Integers, exactly when the integers are equal |
| Exprs.DisplayInteger | src/expr.rs:29-35 | Integer(10) renders as "10" |
| Exprs.EqualIntegers | src/expr.rs:37-45 | Integer(32) equals Integer(32), and Integer(1) differs from Integer(2) |
| Exprs.DisplayInjective | src/expr.rs:8-14 | distinct Integers render to distinct texts |
| Values.Display | src/value.rs:8-14 | a Value renders as the decimal text of its integer, with a minus sign when negative |
| Values.Equal | src/value.rs:16-22 | two Values are equal exactly when their integers are |
| Values.DisplayInteger | src/value.rs:29-35 | Integer(10) renders as "10" |
| Values.EqualIntegers | src/value.rs:37-40 | Integer(32) equals itself |
| Values.NotEqualIntegers | src/value.rs:42-45 | Integer(1) and Integer(2) differ |
| Tokenizing.IsLetter | src/tokenize.rs:66-67 | the characters the identifier reader accepts as letters (ASCII only, see Left out) |
| Tokenizing.LetterCharacters | src/tokenize.rs:66-67 | a character is a letter exactly when it is one of the 26 lower-case or 26 upper-case ASCII letters |
| Tokenizing.Span | src/tokenize.rs:102-112 | the length of the longest prefix whose characters all pass the test: every character before it passes, and the next one, if any, fails |
| Tokenizing.ReadToken | src/tokenize.rs:29-34 | no token is read exactly at end of input or at a character no recogniser accepts; otherwise the token takes 1 to \|s\| characters, its text is exactly the characters taken, and it is well formed |
| Tokenizing.Tokens | src/tokenize.rs:27-40 | reading yields at most one token per character |
| Tokenizing.Consumed | src/tokenize.rs:27-40 | the tokens read cover at most the whole input |
| Tokenizing.TokensStep | src/tokenize.rs:29-38 | after one token is read, the token list is that token followed by the tokens of the rest |
| Tokenizing.TokensStuck | src/tokenize.rs:29-39 | where no recogniser accepts, reading yields no tokens and consumes nothing |
| Tokenizing.TokensStepAt | src/tokenize.rs:29-38 | a token read at one position of the input, up to another, is followed by exactly the tokens read from that second position, and the consumed length adds up |
| Tokenizing.TokensAdvance | src/tokenize.rs:29-38 | one pass of the tokenizer loop keeps the tokens collected plus the tokens still to read equal to the tokens of the whole input |
| Tokenizing.MaximalMunch | src/tokenize.rs:42-70 | a digit or letter token is produced exactly when its first character is of that class, and the character after it is not of its class |
| Tokenizing.TokensReproduceInput | src/tokenize.rs:27-112 | concatenating the texts of the tokens read gives back the input up to where reading stopped |
| Tokenizing.ConsumedPrefix | src/tokenize.rs:29-39 | reading stops exactly at the first character no recogniser accepts; it covers the whole input if and only if every character is accepted |
| Tokenizing.ConsumedAccepted | src/tokenize.rs:29-39 | every character the tokenizer reads before it stops is one some recogniser accepts |
| Tokenizing.ConsumedStops | src/tokenize.rs:29-39 | when reading stops before the end of the input, the character it stops at is accepted by no recogniser |
| Tokenizing.TokensWellFormed | src/tokenize.rs:42-70 | every Integer token carries a non-empty digit run and every Identifier a non-empty letter run |
| Tokenizing.FirstToken | src/tokenize.rs:29-37 | a non-empty token list starts with the token the priority chain reads first |
| Tokenizing.NoAdjacentRuns | src/tokenize.rs:42-70 | two Integer tokens are never adjacent, and neither are two Identifier tokens |
| Tokenizing.WhiteSpacesFlatten | src/tokenize.rs:72-80 | in the texts of well-formed tokens, the spaces are exactly the WhiteSpace tokens |
| Tokenizing.SpacesBecomeWhiteSpace | src/tokenize.rs:72-80 | each space read becomes exactly one WhiteSpace token, so spaces are never merged |
| Tokenizing.SpanIgnoresTail | src/tokenize.rs:102-112 | the run a test takes does not depend on text after a character that fails it |
| Tokenizing.SpaceRunTokens | src/tokenize.rs:72-80 | a run of spaces reads as one WhiteSpace token per space |
| Tokenizing.ReadTokenIgnoresTail | src/tokenize.rs:29-34 | the token read does not depend on text after it that starts with neither a digit nor a letter |
| Tokenizing.TokensIgnoreTail | src/tokenize.rs:27-40 | appending text that starts with an unaccepted character does not change the tokens |
| Tokenizing.TokensAppendHead | src/tokenize.rs:29-38 | the first token of a text is also the first token of the text followed by a tail that starts with neither a digit nor a letter |
| Tokenizing.TokensAppend | src/tokenize.rs:27-40 | a text that is read to its end, followed by text starting with neither a digit nor a letter, tokenizes as the tokens of the first followed by the tokens of the second |
| Tokenizing.UnacceptedEndsInput | src/tokenize.rs:27-40 | the tokens of a text are the tokens of its prefix up to the first unaccepted character |
| Tokenizing.TokensStopAt | src/tokenize.rs:27-40 | cutting the text at an unaccepted character that follows an all-accepted prefix leaves its tokens unchanged |
| Tokenizing.ReadDigitRun | src/tokenize.rs:42-51 | a digit run not followed by a digit reads as one Integer token of exactly that run |
| Tokenizing.ReadLetterRun | src/tokenize.rs:64-70 | a letter run not followed by a letter reads as one Identifier token of exactly that run |
| Tokenizing.DigitsThen | src/tokenize.rs:42-51 | a digit run followed by text that does not start with a digit gives its Integer token, then that text's tokens |
| Tokenizing.LettersThen | src/tokenize.rs:64-70 | a letter run followed by text that does not start with a letter gives its Identifier token, then that text's tokens |
| Tokenizing.MarkThen | src/tokenize.rs:53-90 | a quote, a space or a dot is one token of its own, whatever follows it |
| Tokenizing.DigitRunTokens | src/tokenize.rs:42-51 | a non-empty digit run reads as that single Integer token |
| Tokenizing.DigitsSpaceDigits | src/tokenize.rs:72-80 | two digit runs with a space between read as Integer, WhiteSpace, Integer |
| Tokenizing.DigitsDotDigits | src/tokenize.rs:82-90 | two digit runs with a dot between read as Integer, Dot, Integer |
| Tokenizing.QuoteLetters | src/tokenize.rs:53-70 | a quote before a letter run reads as Quote, Identifier |
| Tokenizing.TokenizeInteger | src/tokenize.rs:119-125 | "123" reads as [Integer("123")] |
| Tokenizing.TokenizeMultipleInteger | src/tokenize.rs:127-140 | "123 456" reads as Integer("123"), WhiteSpace, Integer("456") |
| Tokenizing.TokenizeQuote | src/tokenize.rs:142-151 | "'atom" reads as Quote, Identifier("atom") |
| Tokenizing.TokenizeFloat | src/tokenize.rs:153-166 | "123.456" reads as Integer("123"), Dot, Integer("456") |
| Tokenizing.TokenizeLackFloat | src/tokenize.rs:82-90 | "123. 3" reads as Integer("123"), Dot, WhiteSpace, Integer("3") |
| Tokenizing.Tokenizer.constructor | src/tokenize.rs:23-25 | a new tokenizer holds the input with the cursor at 0 |
| Tokenizing.Tokenizer.Tokenize | src/tokenize.rs:27-40 | the loop returns exactly the tokens of the unread input, and the cursor ends where reading stopped |
| Tokenizing.Tokenizer.ReadNext | src/tokenize.rs:29-35 | the recognisers tried in priority order: the first that accepts reads the specified token and moves the cursor by its length; if none accepts, the cursor does not move |
| Tokenizing.Tokenizer.ReadInteger | src/tokenize.rs:42-51 | succeeds exactly on a digit and reads the maximal digit run; otherwise leaves the cursor and reports Eof at end of input, else NotInteger |
| Tokenizing.Tokenizer.ReadQuote | src/tokenize.rs:53-62 | succeeds exactly on a quote mark and takes one character; otherwise leaves the cursor and reports Eof or NotQuote |
| Tokenizing.Tokenizer.ReadIdentifier | src/tokenize.rs:64-70 | succeeds exactly on a letter and reads the maximal letter run; otherwise leaves the cursor and reports Eof or NotIdentifier |
| Tokenizing.Tokenizer.ReadWhitespace | src/tokenize.rs:72-80 | succeeds exactly on a space and takes one character; otherwise leaves the cursor and reports Eof or NotWhitespace |
| Tokenizing.Tokenizer.ReadDot | src/tokenize.rs:82-90 | succeeds exactly on a dot and takes one character; otherwise leaves the cursor and reports Eof or NotDot |
| Tokenizing.Tokenizer.NextChar | src/tokenize.rs:92-94 | the character at the cursor, or None exactly at end of input |
| Tokenizing.Tokenizer.Consume | src/tokenize.rs:96-100 | returns the character at the cursor and advances by one; at end of input returns None and leaves the cursor |
| Tokenizing.Tokenizer.ConsumeWhile | src/tokenize.rs:102-112 | advances over the longest run passing the test and returns exactly the characters passed over |
| Tokenizing.Tokenize | src/tokenize.rs:12-14 | tokenizing a text from its start returns the tokens of the whole text |
| Parsing.ParseExpr | src/parse.rs:40-81 | one expression read from the front of the tokens takes between 1 and all of them |
| Parsing.ParseAll | src/parse.rs:23-34 | a successful parse yields at most one expression per token |
| Parsing.Parsed | src/parse.rs:8-11 | a successful read yields at most one expression per character of the text |
| Parsing.TokensCarryDigits | src/parse.rs:43-46 | every Integer token the tokenizer produces carries only digits, as the digit fold needs |
| Parsing.ParseAllStep | src/parse.rs:25-31 | one pass of the parse loop: the first expression is appended and parsing continues after it, or its error is the error of the whole parse |
| Parsing.Parser.Remaining | src/parse.rs:13-16 | the tokens from the cursor on still carry only digit runs in their Integer tokens |
| Parsing.Parser.constructor | src/parse.rs:19-21 | a new parser holds the tokens with the cursor at 0 |
| Parsing.Parser.Parse | src/parse.rs:23-34 | the loop returns exactly the specified parse of the remaining tokens: all expressions in order, or the first error; on success the cursor has reached the end of the tokens |
| Parsing.Parser.Eof | src/parse.rs:36-38 | true exactly when no token is left at the cursor |
| Parsing.Parser.ParseExpression | src/parse.rs:40-81 | the cursor always advances; the result is the specified expression with the cursor moved by the tokens it takes, or the specified error |
| Parsing.Parser.NextToken | src/parse.rs:83-85 | the token at the cursor, or None exactly when the cursor has reached the end |
| Parsing.Parser.Consume | src/parse.rs:87-91 | returns the token at the cursor, if any, and advances by one even past the end |
| Parsing.Parser.ConsumeIf | src/parse.rs:93-104 | takes the token at the cursor exactly when there is one and it passes the test, advancing by one; otherwise leaves the cursor |
| Parsing.Parse | src/parse.rs:8-11 | reading a text gives exactly the specified parse of its tokens |
| Parsing.IntegerToken | src/parse.rs:43-47 | a digit run not followed by a Dot is one Integer, the digit fold of the run, taking one token |
| Parsing.FloatTokens | src/parse.rs:48-58 | digits, Dot, digits give one Float taking three tokens: the integer part plus the fraction digits' value over 10^k; its floor is the integer part |
| Parsing.LackFloat | src/parse.rs:48-60 | digits and a Dot not followed by digits give Float of the integer part, taking two tokens |
| Parsing.QuoteCases | src/parse.rs:66-75 | a Quote plus an Identifier gives an Atom of its text; a Quote at the end is an unterminated quote; a Quote before any other token is not an atom |
| Parsing.StrayTokenFails | src/parse.rs:77 | a Dot or an Identifier where an expression starts fails the parse as an unknown token |
| Parsing.ExprTakesNonWhiteSpace | src/parse.rs:76 | the tokens one expression takes are not all WhiteSpace |
| Parsing.WhiteSpaceProducesNothing | src/parse.rs:76 | WhiteSpace never produces an expression: expressions plus WhiteSpace tokens number at most the tokens |
| Parsing.WhiteSpaceRunEof | src/parse.rs:76-79 | a run made only of WhiteSpace tokens is skipped to the end and fails with Eof |
| Parsing.TrailingWhiteSpaceKeepsExpr | src/parse.rs:76 | any WhiteSpace tokens after a complete expression do not change how that expression is read |
| Parsing.TrailingWhiteSpaceFails | src/parse.rs:76-79 | any non-empty run of WhiteSpace after the last expression makes the whole parse fail with Eof |
| Parsing.TrailingSpacesFail | src/parse.rs:8-11 | one or more spaces after a text that is read to its end and parses successfully make the whole reading fail with Eof |
| Parsing.BlankLineFails | src/parse.rs:76-79 | a line of spaces alone fails with Eof |
| Parsing.ParseAllCons | src/parse.rs:25-33 | a first expression plus a successful parse of the rest gives the whole parse |
| Parsing.ParsedTokens | src/parse.rs:8-11 | reading a text is parsing its tokens |
| Parsing.DigitRunParses | src/parse.rs:43-63 | a text that is one digit run reads as a single Integer, the fold of its digits |
| Parsing.IntegerRoundTrip | src/expr.rs:8-14 | rendering a non-negative Integer and reading the text back gives that Integer alone |
| Parsing.NegativeRendersToNothing | src/tokenize.rs:29-39 | a negative Integer's rendering starts with '-', which no recogniser accepts, so it reads as no expressions |
| Parsing.ParseIgnoresUnaccepted | src/parse.rs:8-11 | reading ignores everything from the first character no recogniser accepts |
| Parsing.ParseInteger | src/parse.rs:111-117 | "123" reads as [Integer(123)] |
| Parsing.SkipWhiteSpace | src/parse.rs:76 | a WhiteSpace before an expression is skipped and counts as one more token taken |
| Parsing.MultipleIntegerTokens | src/parse.rs:119-125 | Integer("123"), WhiteSpace, Integer("456") parse as [Integer(123), Integer(456)] |
| Parsing.ParseMultipleInteger | src/parse.rs:119-125 | "123 456" reads as [Integer(123), Integer(456)] |
| Parsing.ParseAtom | src/parse.rs:127-133 | "'atom" reads as [Atom("atom")] |
| Parsing.FloatTokensParse | src/parse.rs:135-141 | Integer("123"), Dot, Integer("456") parse as [Float(123.456)] |
| Parsing.ParseFloat | src/parse.rs:135-141 | "123.456" reads as [Float(123.456)] |
| Parsing.LackFloatTokens | src/parse.rs:143-149 | Integer("123"), Dot, WhiteSpace, Integer("3") parse as [Float(123.0), Integer(3)] |
| Parsing.ParseLackFloat | src/parse.rs:143-149 | "123. 3" reads as [Float(123.0), Integer(3)] |
| Parsing.ParseUnterminatedQuote | src/parse.rs:74 | a lone quote fails as an unterminated quote |
| Parsing.ParseTrailingSpace | src/parse.rs:76-79 | "123 " fails with Eof |
| Parsing.ParseTrailingSpaces | src/parse.rs:76-79 | "123  " fails with Eof |

## Left out

- The interactive loop, prompt and terminal detection in `src/main.rs` and
  `src/lib.rs`, and the evaluator, are not part of this model. They are I/O
  and glue around the reader.
- Error messages and `anyhow` context: errors are enumerations. The
  "Unknown token" context that the tokenizer attaches is dropped. It is
  never returned, because the loop treats any failure as the end of
  input.
- Parsing.ParseExpr: `Float` is an exact real. The source computes
  `10^-i` with `f64` and adds in `f64`, so its results can differ from
  the exact value by rounding.
- Numerals.DigitsValue: does not model the `i64` wrap-around or overflow
  panic of the digit fold on runs longer than the 64-bit range, because
  values are unbounded integers.
- Exprs.Display: integers are unbounded, so `i64::MIN` and the 64-bit
  range are not modelled.
- Values.Display: integers are unbounded, so the 64-bit range is not
  modelled.
- Tokenizing.IsLetter: letters are the ASCII letters only. The source
  uses Unicode `is_alphabetic`, and it advances a byte offset by 1 after
  each character. A multi-byte letter therefore makes the next slice
  panic.
- Exprs.Display: requires an Integer. The source's rendering has only an
  Integer arm, so no rendering of Float or Atom is modelled.
- Parsing.ParseExpr: requires Integer tokens to carry digit runs. The
  source's `to_digit(10).unwrap()` panics otherwise, and the tokenizer
  only produces such tokens (`TokensCarryDigits`).
- The recursion through WhiteSpace in `parse_expression` is modelled as
  recursion. The stack depth it can reach is not modelled.
