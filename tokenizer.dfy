/**
 * The character-level tokenizer of the Scheme reader: one token of
 * lookahead over a character stream.  The stream is the input string with
 * a read position; `Lex` is the pure specification of one call of `Next`,
 * and the class `Tokenizer` is the stateful object the reader drives.
 */
module Lexer {
  import opened Errors
  import opened Options

  datatype Token =
    | ConstantToken(value: int)
    | OpenBracket
    | CloseBracket
    | SymbolToken(name: string)
    | QuoteToken
    | DotToken

  /**
   * Equality of tokens as the variant compares them: same alternative, and
   * then the alternative's own `operator==` (by value for constants, by name
   * for symbols, always true for the quote and dot markers).
   */
  function SameToken(a: Token, b: Token): bool {
    match (a, b)
    case (ConstantToken(x), ConstantToken(y)) => x == y
    case (SymbolToken(x), SymbolToken(y)) => x == y
    case (QuoteToken, QuoteToken) => true
    case (DotToken, DotToken) => true
    case (OpenBracket, OpenBracket) => true
    case (CloseBracket, CloseBracket) => true
    case _ => false
  }

  lemma SameTokenIsEquality(a: Token, b: Token)
    ensures SameToken(a, b) <==> a == b
  {
  }

  // ---------------------------------------------------------------------
  // Character classes

  predicate IsBlank(c: char) { c == ' ' || c == '\n' }

  predicate IsDigit(c: char) { '0' <= c <= '9' }

  predicate IsLetter(c: char) { 'a' <= c <= 'z' || 'A' <= c <= 'Z' }

  /** Characters a symbol may start with. */
  predicate IsSymbolStart(c: char) { IsLetter(c) || c in "<=>*/#" }

  /** Characters a symbol may continue with. */
  predicate IsSymbolChar(c: char) { IsSymbolStart(c) || IsDigit(c) || c in "?!-" }

  predicate AllDigits(s: string) { forall k | 0 <= k < |s| :: IsDigit(s[k]) }

  /** The decimal value of a string of digits. */
  function DecimalValue(s: string): nat
    requires AllDigits(s)
  {
    if s == [] then 0 else 10 * DecimalValue(s[..|s| - 1]) + (s[|s| - 1] as int - '0' as int)
  }

  /** A non-empty digit string, optionally preceded by one sign character. */
  predicate SignedDigits(t: string) {
    if |t| > 0 && (t[0] == '+' || t[0] == '-') then |t| > 1 && AllDigits(t[1..])
    else |t| > 0 && AllDigits(t)
  }

  /** `std::stoi` on the strings the tokenizer hands it (overflow is not modelled). */
  function Stoi(t: string): int
    requires SignedDigits(t)
  {
    if t[0] == '-' then -(DecimalValue(t[1..]) as int)
    else if t[0] == '+' then DecimalValue(t[1..])
    else DecimalValue(t)
  }

  /** The character of a decimal digit. */
  function DigitChar(d: nat): char
    requires d < 10
  {
    (48 + d) as char
  }

  /** Decimal notation of a natural number, as `std::to_string` writes it. */
  function NatToString(n: nat): (t: string)
    ensures |t| > 0 && AllDigits(t)
  {
    if n < 10 then [DigitChar(n)] else NatToString(n / 10) + [DigitChar(n % 10)]
  }

  /** `std::to_string` on an integer: a minus sign for negatives, then the digits. */
  function IntToString(i: int): string {
    if i < 0 then "-" + NatToString(-i) else NatToString(i)
  }

  lemma {:induction false} DecimalValueOfNatToString(n: nat)
    ensures DecimalValue(NatToString(n)) == n
  {
    var t := NatToString(n);
    if n >= 10 {
      DecimalValueOfNatToString(n / 10);
      assert t[..|t| - 1] == NatToString(n / 10);
    }
  }

  /** Printing a number and converting the text back gives the number again. */
  lemma StoiOfIntToString(i: int)
    ensures SignedDigits(IntToString(i)) && Stoi(IntToString(i)) == i
  {
    var t := IntToString(i);
    if i < 0 {
      assert t[1..] == NatToString(-i);
      DecimalValueOfNatToString(-i);
    } else {
      DecimalValueOfNatToString(i);
    }
  }

  // ---------------------------------------------------------------------
  // One step of the tokenizer as a function of the input and the position

  /** The first position at or after `i` that is not a space or a newline. */
  function SkipBlanks(s: string, i: nat): (j: nat)
    requires i <= |s|
    ensures i <= j <= |s|
    ensures forall k | i <= k < j :: IsBlank(s[k])
    ensures j == |s| || !IsBlank(s[j])
    decreases |s| - i
  {
    if i < |s| && IsBlank(s[i]) then SkipBlanks(s, i + 1) else i
  }

  /** The end of the maximal run of digits starting at `i`. */
  function DigitsEnd(s: string, i: nat): (j: nat)
    requires i <= |s|
    ensures i <= j <= |s|
    ensures AllDigits(s[i..j])
    ensures j == |s| || !IsDigit(s[j])
    decreases |s| - i
  {
    if i < |s| && IsDigit(s[i]) then DigitsEnd(s, i + 1) else i
  }

  /** The end of the maximal run of symbol characters starting at `i`. */
  function SymbolEnd(s: string, i: nat): (j: nat)
    requires i <= |s|
    ensures i <= j <= |s|
    ensures forall k | i <= k < j :: IsSymbolChar(s[k])
    ensures j == |s| || !IsSymbolChar(s[j])
    decreases |s| - i
  {
    if i < |s| && IsSymbolChar(s[i]) then SymbolEnd(s, i + 1) else i
  }

  /**
   * What `Next` does when the stream is at position `i`: the position it
   * leaves the stream at, and either the new lookahead (`None` at end of
   * input) or a syntax error.
   */
  datatype Scan = Scan(pos: nat, result: Result<Option<Token>>)

  function Lex(s: string, i: nat): (r: Scan)
    requires i <= |s|
    ensures i <= r.pos <= |s|
    ensures r.result.Ok? || r.result == Raise(SyntaxError)
    ensures r.result.Ok? && r.result.value.Some? ==> r.pos > i
    ensures r.result == Ok(None) ==> r.pos == |s|
  {
    var j := SkipBlanks(s, i);
    if j == |s| then Scan(j, Ok(None))
    else
      var c := s[j];
      if c == '(' then Scan(j + 1, Ok(Some(OpenBracket)))
      else if c == ')' then Scan(j + 1, Ok(Some(CloseBracket)))
      else if c == '\'' then Scan(j + 1, Ok(Some(QuoteToken)))
      else if c == '.' then Scan(j + 1, Ok(Some(DotToken)))
      else if IsDigit(c) then
        var k := DigitsEnd(s, j);
        Scan(k, Ok(Some(ConstantToken(Stoi(s[j..k])))))
      else if c == '+' || c == '-' then
        if j + 1 < |s| && IsDigit(s[j + 1]) then
          var k := DigitsEnd(s, j + 1);
          assert s[j..k][1..] == s[j + 1..k];
          Scan(k, Ok(Some(ConstantToken(Stoi(s[j..k])))))
        else
          Scan(j + 1, Ok(Some(SymbolToken([c]))))
      else if IsSymbolStart(c) then
        var k := SymbolEnd(s, j);
        if k < |s| && !IsBlank(s[k]) then Scan(k, Raise(SyntaxError))
        else Scan(k, Ok(Some(SymbolToken(s[j..k]))))
      else
        Scan(j, Raise(SyntaxError))
  }

  /** Calling `Next` until the end of input: every token, or the syntax error met first. */
  function Tokenize(s: string, i: nat): Result<seq<Token>>
    requires i <= |s|
    decreases |s| - i
  {
    var r := Lex(s, i);
    match r.result
    case Ok(None) => Ok([])
    case Ok(Some(t)) =>
      (match Tokenize(s, r.pos)
       case Ok(ts) => Ok([t] + ts)
       case Raise(e) => Raise(e)
       case Stuck(w) => Stuck(w))
    case Raise(e) => Raise(e)
    case Stuck(w) => Stuck(w)
  }

  // ---------------------------------------------------------------------
  // What one call of `Next` reads, case by case

  lemma LexSkipsBlank(s: string, i: nat)
    requires i < |s| && IsBlank(s[i])
    ensures Lex(s, i) == Lex(s, i + 1)
  {
    assert SkipBlanks(s, i) == SkipBlanks(s, i + 1);
  }

  /** No token is left exactly when only blanks remain. */
  lemma LexAtEnd(s: string, i: nat)
    requires i <= |s|
    ensures Lex(s, i).result == Ok(None) <==> SkipBlanks(s, i) == |s|
    ensures SkipBlanks(s, i) == |s| ==> Lex(s, i).pos == |s|
  {
  }

  /** A bracket, a quote or a dot is a token of one character. */
  lemma LexPunctuation(s: string, i: nat)
    requires i <= |s| && SkipBlanks(s, i) < |s|
    ensures var j := SkipBlanks(s, i);
      (s[j] == '(' ==> Lex(s, i) == Scan(j + 1, Ok(Some(OpenBracket)))) &&
      (s[j] == ')' ==> Lex(s, i) == Scan(j + 1, Ok(Some(CloseBracket)))) &&
      (s[j] == '\'' ==> Lex(s, i) == Scan(j + 1, Ok(Some(QuoteToken)))) &&
      (s[j] == '.' ==> Lex(s, i) == Scan(j + 1, Ok(Some(DotToken))))
  {
  }

  /** `Stoi` of a plain digit run is its decimal value. */
  lemma StoiOfDigits(t: string)
    requires |t| > 0 && AllDigits(t)
    ensures SignedDigits(t) && Stoi(t) == DecimalValue(t)
  {
    assert IsDigit(t[0]);
  }

  /** `Stoi` of a sign and a digit run. */
  lemma StoiOfSigned(t: string)
    requires |t| > 1 && (t[0] == '+' || t[0] == '-') && AllDigits(t[1..])
    ensures SignedDigits(t) && Stoi(t) == if t[0] == '-' then -(DecimalValue(t[1..]) as int) else DecimalValue(t[1..])
  {
  }

  /** A run of digits is a constant holding its decimal value. */
  lemma LexNumber(s: string, i: nat)
    requires i <= |s| && SkipBlanks(s, i) < |s| && IsDigit(s[SkipBlanks(s, i)])
    ensures var j := SkipBlanks(s, i); var k := DigitsEnd(s, j);
      j < k && Lex(s, i) == Scan(k, Ok(Some(ConstantToken(DecimalValue(s[j..k])))))
  {
    var j := SkipBlanks(s, i);
    var k := DigitsEnd(s, j);
    assert s[j..k][0] == s[j];
    StoiOfDigits(s[j..k]);
  }

  /** An unsigned constant, as `Next` converts its digits. */
  lemma LexUnsigned(s: string, i: nat)
    requires i <= |s| && SkipBlanks(s, i) < |s| && IsDigit(s[SkipBlanks(s, i)])
    ensures var j := SkipBlanks(s, i); var k := DigitsEnd(s, j);
      SignedDigits(s[j..k]) && Lex(s, i) == Scan(k, Ok(Some(ConstantToken(Stoi(s[j..k])))))
  {
  }

  /** A signed constant, as `Next` collects it: the sign, then the digits after it. */
  lemma LexSigned(s: string, i: nat)
    requires i <= |s| && SkipBlanks(s, i) + 1 < |s| && (s[SkipBlanks(s, i)] == '+' || s[SkipBlanks(s, i)] == '-')
    requires IsDigit(s[SkipBlanks(s, i) + 1])
    ensures var j := SkipBlanks(s, i); var k := DigitsEnd(s, j + 1); var t := [s[j]] + s[j + 1..k];
      SignedDigits(t) && Lex(s, i) == Scan(k, Ok(Some(ConstantToken(Stoi(t)))))
  {
    var j := SkipBlanks(s, i);
    var k := DigitsEnd(s, j + 1);
    assert [s[j]] + s[j + 1..k] == s[j..k];
  }

  /**
   * A sign followed by a digit starts a signed constant; a sign followed by
   * anything else, or by nothing, is a symbol of that one character.
   */
  lemma LexSign(s: string, i: nat)
    requires i <= |s| && SkipBlanks(s, i) < |s| && (s[SkipBlanks(s, i)] == '+' || s[SkipBlanks(s, i)] == '-')
    ensures var j := SkipBlanks(s, i);
      if j + 1 < |s| && IsDigit(s[j + 1]) then
        var k := DigitsEnd(s, j + 1);
        var n := DecimalValue(s[j + 1..k]);
        Lex(s, i) == Scan(k, Ok(Some(ConstantToken(if s[j] == '-' then -(n as int) else n))))
      else Lex(s, i) == Scan(j + 1, Ok(Some(SymbolToken([s[j]]))))
  {
    var j := SkipBlanks(s, i);
    if j + 1 < |s| && IsDigit(s[j + 1]) {
      var k := DigitsEnd(s, j + 1);
      assert s[j..k][1..] == s[j + 1..k];
      StoiOfSigned(s[j..k]);
    }
  }

  /**
   * A symbol is the maximal run of symbol characters, and it must be
   * followed by a blank or the end of input: `x)` is a syntax error.
   */
  lemma LexSymbol(s: string, i: nat)
    requires i <= |s| && SkipBlanks(s, i) < |s| && IsSymbolStart(s[SkipBlanks(s, i)])
    ensures var j := SkipBlanks(s, i); var k := SymbolEnd(s, j);
      Lex(s, i).pos == k &&
      Lex(s, i).result == if k == |s| || IsBlank(s[k]) then Ok(Some(SymbolToken(s[j..k]))) else Raise(SyntaxError)
  {
  }

  /** The characters a token can start with. */
  predicate StartsToken(c: char) {
    c == '(' || c == ')' || c == '\'' || c == '.' || c == '+' || c == '-' || IsDigit(c) || IsSymbolStart(c)
  }

  /**
   * `Next` throws exactly at a character that starts no token (without
   * consuming it), or after a symbol that is followed by something other
   * than a blank.
   */
  lemma LexFails(s: string, i: nat)
    requires i <= |s|
    ensures var j := SkipBlanks(s, i);
      Lex(s, i).result.Raise? <==>
        j < |s| && (!StartsToken(s[j]) || (IsSymbolStart(s[j]) && SymbolEnd(s, j) < |s| && !IsBlank(s[SymbolEnd(s, j)])))
    ensures var j := SkipBlanks(s, i); j < |s| && !StartsToken(s[j]) ==> Lex(s, i) == Scan(j, Raise(SyntaxError))
  {
  }

  // ---------------------------------------------------------------------
  // Printing tokens, and reading the printed text back

  /** The names a symbol token can have: a lone sign, or a symbol start followed by symbol characters. */
  predicate IsSymbolName(n: string) {
    n == "+" || n == "-" || (|n| > 0 && IsSymbolStart(n[0]) && forall k | 0 <= k < |n| :: IsSymbolChar(n[k]))
  }

  /** Tokens that have a printed form the tokenizer reads back. */
  predicate Printable(t: Token) {
    t.SymbolToken? ==> IsSymbolName(t.name)
  }

  predicate AllPrintable(ts: seq<Token>) {
    forall k | 0 <= k < |ts| :: Printable(ts[k])
  }

  /** The text of a token. */
  function TokenText(t: Token): (text: string)
    ensures Printable(t) ==> |text| > 0 && !IsBlank(text[0])
  {
    match t
    case ConstantToken(v) =>
      var text := IntToString(v);
      assert IsDigit(NatToString(if v < 0 then -v else v)[0]);
      text
    case OpenBracket => "("
    case CloseBracket => ")"
    case SymbolToken(name) => name
    case QuoteToken => "'"
    case DotToken => "."
  }

  /** Tokens printed one after another, each followed by a space. */
  function Unlex(ts: seq<Token>): string {
    if ts == [] then "" else TokenText(ts[0]) + " " + Unlex(ts[1..])
  }

  /** `t` is written in `s` from position `i` on. */
  predicate TextAt(s: string, i: nat, t: string)
    decreases t
  {
    if t == [] then i <= |s| else i < |s| && s[i] == t[0] && TextAt(s, i + 1, t[1..])
  }

  /** Text written at `i` is that slice of `s`. */
  lemma {:induction false} TextAtSlice(s: string, i: nat, t: string)
    requires TextAt(s, i, t)
    ensures i + |t| <= |s| && s[i..i + |t|] == t
    decreases t
  {
    if t != [] {
      TextAtSlice(s, i + 1, t[1..]);
      assert s[i..i + |t|] == [s[i]] + s[i + 1..i + |t|];
      assert t == [t[0]] + t[1..];
    }
  }

  /** Text written at `i` is written piece by piece: its first part at `i`, the rest after it. */
  lemma {:induction false} TextAtAppend(s: string, i: nat, p: string, q: string)
    requires TextAt(s, i, p + q)
    ensures TextAt(s, i, p) && TextAt(s, i + |p|, q)
    decreases p
  {
    if p == [] {
      assert p + q == q;
    } else {
      assert (p + q)[0] == p[0] && (p + q)[1..] == p[1..] + q;
      TextAtAppend(s, i + 1, p[1..], q);
    }
  }

  /** Text written in `q` stays written, shifted, after a prefix. */
  lemma {:induction false} TextAtShift(p: string, q: string, j: nat, t: string)
    requires TextAt(q, j, t)
    ensures TextAt(p + q, |p| + j, t)
    decreases t
  {
    if t != [] {
      assert (p + q)[|p| + j] == q[j];
      TextAtShift(p, q, j + 1, t[1..]);
    }
  }

  /** A string starts with its own first part. */
  lemma {:induction false} TextAtFront(t: string, r: string)
    ensures TextAt(t + r, 0, t)
    decreases t
  {
    if t != [] {
      TextAtFront(t[1..], r);
      TextAtShift([t[0]], t[1..] + r, 0, t[1..]);
      assert [t[0]] + (t[1..] + r) == t + r;
    }
  }

  /** Digits written at `a` and followed by a space are the digit run `Next` collects there. */
  lemma {:induction false} DigitsAt(s: string, a: nat, digits: string)
    requires AllDigits(digits) && TextAt(s, a, digits) && a + |digits| < |s| && s[a + |digits|] == ' '
    ensures DigitsEnd(s, a) == a + |digits|
    decreases digits
  {
    if digits != [] {
      assert IsDigit(digits[0]);
      assert AllDigits(digits[1..]) by {
        forall k | 0 <= k < |digits[1..]| ensures IsDigit(digits[1..][k]) {
          assert digits[1..][k] == digits[k + 1];
        }
      }
      DigitsAt(s, a + 1, digits[1..]);
    }
  }

  /** Symbol characters written at `a` and followed by a space are the run `Next` collects there. */
  lemma {:induction false} SymbolCharsAt(s: string, a: nat, name: string)
    requires (forall k | 0 <= k < |name| :: IsSymbolChar(name[k])) && TextAt(s, a, name)
    requires a + |name| < |s| && s[a + |name|] == ' '
    ensures SymbolEnd(s, a) == a + |name|
    decreases name
  {
    if name != [] {
      assert IsSymbolChar(name[0]);
      forall k | 0 <= k < |name[1..]| ensures IsSymbolChar(name[1..][k]) {
        assert name[1..][k] == name[k + 1];
      }
      SymbolCharsAt(s, a + 1, name[1..]);
    }
  }

  /** A printed constant followed by a space is read back as that constant. */
  lemma LexConstantText(s: string, i: nat, v: int)
    requires TextAt(s, i, IntToString(v)) && i + |IntToString(v)| < |s| && s[i + |IntToString(v)|] == ' '
    ensures Lex(s, i) == Scan(i + |IntToString(v)|, Ok(Some(ConstantToken(v))))
  {
    var text := IntToString(v);
    var e := i + |text|;
    var digits := NatToString(if v < 0 then -v else v);
    assert s[i] == text[0];
    if v < 0 {
      TextAtAppend(s, i, "-", digits);
      assert s[i + 1] == digits[0];
      DigitsAt(s, i + 1, digits);
    } else {
      DigitsAt(s, i, digits);
    }
    assert SkipBlanks(s, i) == i;
    TextAtSlice(s, i, text);
    StoiOfIntToString(v);
  }

  /** A printed symbol followed by a space is read back as that symbol. */
  lemma LexSymbolText(s: string, i: nat, name: string)
    requires IsSymbolName(name) && TextAt(s, i, name) && i + |name| < |s| && s[i + |name|] == ' '
    ensures Lex(s, i) == Scan(i + |name|, Ok(Some(SymbolToken(name))))
  {
    var e := i + |name|;
    assert s[i] == name[0];
    assert SkipBlanks(s, i) == i;
    if name != "+" && name != "-" {
      SymbolCharsAt(s, i, name);
      TextAtSlice(s, i, name);
    }
  }

  /** A printed token followed by a space is read back as that token, up to the space. */
  lemma LexTokenText(s: string, i: nat, t: Token)
    requires Printable(t)
    requires TextAt(s, i, TokenText(t)) && i + |TokenText(t)| < |s| && s[i + |TokenText(t)|] == ' '
    ensures Lex(s, i) == Scan(i + |TokenText(t)|, Ok(Some(t)))
  {
    match t
    case ConstantToken(v) => LexConstantText(s, i, v);
    case SymbolToken(name) => LexSymbolText(s, i, name);
    case _ =>
      assert s[i] == TokenText(t)[0];
      assert SkipBlanks(s, i) == i;
  }

  lemma TokenizeStep(s: string, i: nat, t: Token, e: nat, rest: seq<Token>)
    requires i <= |s| && Lex(s, i) == Scan(e, Ok(Some(t))) && Tokenize(s, e) == Ok(rest)
    ensures Tokenize(s, i) == Ok([t] + rest)
  {
  }

  lemma TokenizeSkipsBlank(s: string, i: nat)
    requires i < |s| && IsBlank(s[i])
    ensures Tokenize(s, i) == Tokenize(s, i + 1)
  {
    LexSkipsBlank(s, i);
  }

  /** From `i` on, `s` holds each token's text followed by one space, and nothing else. */
  predicate PrintedAt(s: string, i: nat, ts: seq<Token>)
    decreases ts
  {
    if ts == [] then i == |s|
    else
      var e := i + |TokenText(ts[0])|;
      e < |s| && TextAt(s, i, TokenText(ts[0])) && s[e] == ' ' && PrintedAt(s, e + 1, ts[1..])
  }

  /** Text laid out from `j` stays laid out, shifted, after a prefix. */
  lemma {:induction false} PrintedShift(p: string, q: string, j: nat, ts: seq<Token>)
    requires PrintedAt(q, j, ts)
    ensures PrintedAt(p + q, |p| + j, ts)
    decreases ts
  {
    if ts != [] {
      var e := j + |TokenText(ts[0])|;
      TextAtShift(p, q, j, TokenText(ts[0]));
      assert (p + q)[|p| + e] == q[e];
      PrintedShift(p, q, e + 1, ts[1..]);
    }
  }

  /** The printed text of tokens lays them out one after the other. */
  lemma {:induction false} PrintedOfUnlex(ts: seq<Token>)
    ensures PrintedAt(Unlex(ts), 0, ts)
    decreases ts
  {
    if ts != [] {
      var text := TokenText(ts[0]);
      PrintedOfUnlex(ts[1..]);
      PrintedShift(text + " ", Unlex(ts[1..]), 0, ts[1..]);
      assert Unlex(ts) == (text + " ") + Unlex(ts[1..]);
      assert Unlex(ts) == text + (" " + Unlex(ts[1..]));
      TextAtFront(text, " " + Unlex(ts[1..]));
      assert Unlex(ts)[|text|] == ' ';
    }
  }

  /** Tokens laid out with a blank after each tokenize back to themselves. */
  lemma {:induction false} TokenizePrinted(s: string, i: nat, ts: seq<Token>)
    requires i <= |s| && PrintedAt(s, i, ts) && AllPrintable(ts)
    ensures Tokenize(s, i) == Ok(ts)
    decreases ts
  {
    if ts == [] {
      LexAtEnd(s, i);
    } else {
      var e := PrintedRest(s, i, ts);
      TokenizePrinted(s, e + 1, ts[1..]);
      TokenizeFirst(s, i, e, ts);
    }
  }

  /** After the first token laid out and its blank, the others are laid out. */
  lemma PrintedRest(s: string, i: nat, ts: seq<Token>) returns (e: nat)
    requires PrintedAt(s, i, ts) && ts != [] && AllPrintable(ts)
    ensures e == i + |TokenText(ts[0])| && e < |s| && PrintedAt(s, e + 1, ts[1..]) && AllPrintable(ts[1..])
  {
    e := i + |TokenText(ts[0])|;
    forall k | 0 <= k < |ts[1..]| ensures Printable(ts[1..][k]) {
      assert ts[1..][k] == ts[k + 1];
    }
  }

  /** The first token laid out is what `Next` reads; a blank and then the other tokens follow. */
  lemma TokenizeFirst(s: string, i: nat, e: nat, ts: seq<Token>)
    requires PrintedAt(s, i, ts) && ts != [] && AllPrintable(ts) && e == i + |TokenText(ts[0])|
    requires e + 1 <= |s| && Tokenize(s, e + 1) == Ok(ts[1..])
    ensures Tokenize(s, i) == Ok(ts)
  {
    LexFirst(s, i, e, ts);
    TokenizeAfterToken(s, i, e, ts);
  }

  /** The first token laid out is what `Next` reads, and a blank follows it at `e`. */
  lemma LexFirst(s: string, i: nat, e: nat, ts: seq<Token>)
    requires PrintedAt(s, i, ts) && ts != [] && AllPrintable(ts) && e == i + |TokenText(ts[0])|
    ensures i <= e < |s| && IsBlank(s[e]) && Lex(s, i) == Scan(e, Ok(Some(ts[0])))
  {
    assert Printable(ts[0]);
    LexTokenText(s, i, ts[0]);
  }

  /** The first token, a blank, and then the other tokens. */
  lemma TokenizeAfterToken(s: string, i: nat, e: nat, ts: seq<Token>)
    requires ts != [] && i <= e < |s| && Lex(s, i) == Scan(e, Ok(Some(ts[0]))) && IsBlank(s[e])
    requires Tokenize(s, e + 1) == Ok(ts[1..])
    ensures Tokenize(s, i) == Ok(ts)
  {
    TokenizeSkipsBlank(s, e);
    TokenizeStep(s, i, ts[0], e, ts[1..]);
    assert [ts[0]] + ts[1..] == ts;
  }

  /** So every sequence of printable tokens is what its printed text tokenizes to. */
  lemma TokenizeOfUnlex(ts: seq<Token>)
    requires AllPrintable(ts)
    ensures Tokenize(Unlex(ts), 0) == Ok(ts)
  {
    PrintedOfUnlex(ts);
    TokenizePrinted(Unlex(ts), 0, ts);
  }

  // ---------------------------------------------------------------------
  // The stateful tokenizer

  /** The part of a tokenizer's state that changes: read position and lookahead. */
  datatype TState = TState(pos: nat, token: Option<Token>)

  /** A state the tokenizer can be in once constructed: no lookahead only at end of input. */
  predicate Valid(s: string, st: TState) {
    st.pos <= |s| && (st.token.None? ==> st.pos == |s|)
  }

  /** `IsEnd`: the stream is exhausted and no lookahead token is held. */
  predicate AtEnd(s: string, st: TState) {
    st.pos == |s| && st.token.None?
  }

  /**
   * The state after `Next` and whether it threw.  On a syntax error the
   * characters read so far stay consumed and the old lookahead is kept.
   */
  function Step(s: string, st: TState): (TState, Result<()>)
    requires st.pos <= |s|
  {
    var r := Lex(s, st.pos);
    if r.result.Ok? then (TState(r.pos, r.result.value), Ok(()))
    else (TState(r.pos, st.token), Raise(SyntaxError))
  }

  /** Remaining characters, plus one for a held lookahead: `Next` on a held token lowers it. */
  function Measure(s: string, st: TState): nat
    requires st.pos <= |s|
  {
    |s| - st.pos + (if st.token.Some? then 1 else 0)
  }

  lemma {:induction false} StepProgress(s: string, st: TState)
    requires Valid(s, st) && st.token.Some?
    ensures var (st', r) := Step(s, st);
      st'.pos <= |s| && (r.Ok? ==> Valid(s, st') && Measure(s, st') < Measure(s, st))
  {
  }

  class Tokenizer {
    const input: string
    var pos: nat
    var token: Option<Token>

    function State(): TState
      reads this
    {
      TState(pos, token)
    }

    /** The member initialisation of the C++ constructor, before its call of `Next`. */
    constructor Open(s: string)
      ensures input == s && pos == 0 && token == None
    {
      input := s;
      pos := 0;
      token := None;
    }

    predicate IsEnd()
      reads this
    {
      AtEnd(input, State())
    }

    function GetToken(): Token
      reads this
      requires token.Some?
    {
      token.value
    }

    /** The blank-skipping loop at the head of `Next`. */
    method SkipSpaces()
      requires pos <= |input|
      modifies this
      ensures pos == SkipBlanks(input, old(pos)) && token == old(token)
    {
      ghost var start := pos;
      while pos < |input| && IsBlank(input[pos])
        invariant start <= pos <= |input| && token == old(token)
        invariant SkipBlanks(input, start) == SkipBlanks(input, pos)
      {
        pos := pos + 1;
      }
    }

    /** A digit-collecting loop of `Next`: appends the run of digits at `pos` to `temp`. */
    method TakeDigits(prefix: string) returns (temp: string)
      requires pos <= |input|
      modifies this
      ensures pos == DigitsEnd(input, old(pos)) && token == old(token)
      ensures temp == prefix + input[old(pos)..pos]
    {
      ghost var start := pos;
      temp := prefix;
      while pos < |input| && IsDigit(input[pos])
        invariant start <= pos <= |input| && token == old(token)
        invariant temp == prefix + input[start..pos]
        invariant DigitsEnd(input, start) == DigitsEnd(input, pos)
      {
        assert input[start..pos + 1] == input[start..pos] + [input[pos]];
        temp := temp + [input[pos]];
        pos := pos + 1;
      }
    }

    /** The symbol-collecting loop of `Next`. */
    method TakeSymbolChars() returns (temp: string)
      requires pos <= |input|
      modifies this
      ensures pos == SymbolEnd(input, old(pos)) && token == old(token)
      ensures temp == input[old(pos)..pos]
    {
      ghost var start := pos;
      temp := "";
      while pos < |input| && IsSymbolChar(input[pos])
        invariant start <= pos <= |input| && token == old(token)
        invariant temp == input[start..pos]
        invariant SymbolEnd(input, start) == SymbolEnd(input, pos)
      {
        assert input[start..pos + 1] == input[start..pos] + [input[pos]];
        temp := temp + [input[pos]];
        pos := pos + 1;
      }
    }

    /** Skip blanks, then read one token into the lookahead (or clear it at end of input). */
    method Next() returns (r: Result<()>)
      requires pos <= |input|
      modifies this
      ensures (State(), r) == Step(input, old(State()))
    {
      ghost var i := pos;
      SkipSpaces();
      if pos == |input| {
        LexAtEnd(input, i);
        token := None;
        return Ok(());
      }
      var curr := input[pos];
      LexPunctuation(input, i);
      if curr == '(' {
        pos := pos + 1;
        token := Some(OpenBracket);
      } else if curr == ')' {
        pos := pos + 1;
        token := Some(CloseBracket);
      } else if curr == '\'' {
        pos := pos + 1;
        token := Some(QuoteToken);
      } else if curr == '.' {
        pos := pos + 1;
        token := Some(DotToken);
      } else if IsDigit(curr) {
        ReadDigits(i);
      } else if curr == '+' || curr == '-' {
        ReadSigned(i);
      } else if IsSymbolStart(curr) {
        r := ReadSymbol(i);
        return;
      } else {
        LexFails(input, i);
        return Raise(SyntaxError);
      }
      r := Ok(());
    }

    /** The digit branch of `Next`: collect the digits and convert them with `stoi`. */
    method ReadDigits(ghost i: nat)
      requires i <= |input| && pos == SkipBlanks(input, i) < |input| && IsDigit(input[pos])
      modifies this
      ensures (State(), Ok(())) == Step(input, TState(i, old(token)))
    {
      ghost var j := pos;
      var temp := TakeDigits("");
      LexUnsigned(input, i);
      assert temp == input[j..pos];
      token := Some(ConstantToken(Stoi(temp)));
    }

    /** The branches of `Next` for `+` and `-`: a signed constant, or the sign alone as a symbol. */
    method ReadSigned(ghost i: nat)
      requires i <= |input| && pos == SkipBlanks(input, i) < |input| && (input[pos] == '+' || input[pos] == '-')
      modifies this
      ensures (State(), Ok(())) == Step(input, TState(i, old(token)))
    {
      if pos + 1 < |input| && IsDigit(input[pos + 1]) {
        ReadSignedDigits(i);
      } else {
        var curr := input[pos];
        pos := pos + 1;
        LexSign(input, i);
        token := Some(SymbolToken([curr]));
      }
    }

    /** A sign followed by a digit: the sign and the digits after it, converted together. */
    method ReadSignedDigits(ghost i: nat)
      requires i <= |input| && pos == SkipBlanks(input, i) && pos + 1 < |input|
      requires (input[pos] == '+' || input[pos] == '-') && IsDigit(input[pos + 1])
      modifies this
      ensures (State(), Ok(())) == Step(input, TState(i, old(token)))
    {
      var curr := input[pos];
      pos := pos + 1;
      var temp := TakeDigits([curr]);
      LexSigned(input, i);
      token := Some(ConstantToken(Stoi(temp)));
    }

    /** The symbol branch of `Next`, which throws unless a blank or the end of input follows. */
    method ReadSymbol(ghost i: nat) returns (r: Result<()>)
      requires i <= |input| && pos == SkipBlanks(input, i) < |input| && IsSymbolStart(input[pos])
      modifies this
      ensures (State(), r) == Step(input, TState(i, old(token)))
    {
      var temp := TakeSymbolChars();
      LexSymbol(input, i);
      if pos < |input| && !IsBlank(input[pos]) {
        return Raise(SyntaxError);
      }
      token := Some(SymbolToken(temp));
      r := Ok(());
    }
  }

  /** The C++ constructor: open the stream and read the first token at once. */
  method NewTokenizer(s: string) returns (t: Tokenizer, r: Result<()>)
    ensures fresh(t) && t.input == s
    ensures (t.State(), r) == Step(s, TState(0, None))
  {
    t := new Tokenizer.Open(s);
    r := t.Next();
  }
}
