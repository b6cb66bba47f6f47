/**
  What the tokenizer makes of a text: a text is a list of blanks, comments, literals,
  names, numbers and signs, each of which leaves its token or none.
*/
module IndexLexemes {
  import opened Base
  import opened SqlErasure
  import opened IndexShape
  import SqlVerdict

  /** One character of a quoted text, a quote written twice, or one behind a
      backslash. */
  datatype Unit = Single(c: char) | Twice | Escape(c: char)

  datatype Lexeme =
    | Space(c: char)
    | Comment(body: string)
    | LastComment(body: string)
    | Block(body: string)
    | Quoted(quote: char, units: seq<Unit>)
    | DollarQuoted(tag: string, body: string)
    | Name(text: string)
    | Number(whole: string, fraction: string)
    | Sign(c: char)

  function UnitText(quote: char, unit: Unit): string {
    match unit
    case Single(c) => [c]
    case Twice => [quote, quote]
    case Escape(c) => ['\\', c]
  }

  function UnitsText(quote: char, units: seq<Unit>): string {
    if units == [] then [] else UnitText(quote, units[0]) + UnitsText(quote, units[1..])
  }

  function Text(lexeme: Lexeme): string {
    match lexeme
    case Space(c) => [c]
    case Comment(body) => "--" + (body + "\n")
    case LastComment(body) => "--" + body
    case Block(body) => "/*" + (body + "*/")
    case Quoted(quote, units) => [quote] + (UnitsText(quote, units) + [quote])
    case DollarQuoted(tag, body) => tag + (body + tag)
    case Name(text) => text
    case Number(whole, fraction) => if fraction == [] then whole else whole + ("." + fraction)
    case Sign(c) => [c]
  }

  function Render(lexemes: seq<Lexeme>): string {
    if lexemes == [] then [] else Text(lexemes[0]) + Render(lexemes[1..])
  }

  /** Names are read in upper case, and what literals and quoted names say is not
      looked at. */
  function TokenOf(lexeme: Lexeme): seq<Token> {
    match lexeme
    case Space(_) => []
    case Comment(_) => []
    case LastComment(_) => []
    case Block(_) => []
    case Quoted(quote, _) => [if quote == '\'' then "<LITERAL>" else "<IDENTIFIER>"]
    case DollarQuoted(_, _) => ["<LITERAL>"]
    case Name(text) => [seq(|text|, i requires 0 <= i < |text| => Capital(text[i]))]
    case Number(_, _) => ["<LITERAL>"]
    case Sign(c) => [[c]]
  }

  function Capital(c: char): char {
    if 'a' <= c <= 'z' then (c as int - 32) as char else c
  }

  function TokensOf(lexemes: seq<Lexeme>): seq<Token> {
    if lexemes == [] then [] else TokenOf(lexemes[0]) + TokensOf(lexemes[1..])
  }

  // ---------------------------------------------------------------------
  // What the characters are

  predicate Alphabetic(c: char) {
    'A' <= c <= 'Z' || 'a' <= c <= 'z' || c == '_'
  }

  predicate Numeric(c: char) {
    '0' <= c <= '9'
  }

  predicate InName(c: char) {
    Alphabetic(c) || Numeric(c) || c == '$'
  }

  predicate White(c: char) {
    c == ' ' || c == '\t' || c == '\n' || c == '\r' || c == '\U{000B}' || c == '\U{000C}'
  }

  predicate QuoteMark(c: char) {
    c == '\'' || c == '"' || c == '`'
  }

  predicate UnitFits(quote: char, unit: Unit) {
    match unit
    case Single(c) => c != quote && (c == '\\' ==> quote == '`')
    case Twice => true
    case Escape(_) => quote != '`'
  }

  /** The closing text does not begin inside the body. */
  ghost predicate FirstCloser(body: string, closer: string) {
    forall i | 0 <= i < |body| :: !(closer <= (body + closer)[i..])
  }

  /** Two characters at the head. */
  predicate Heads(s: string, a: char, b: char) {
    |s| >= 2 && s[0] == a && s[1] == b
  }

  /** The text is this lexeme, given what follows it. */
  ghost predicate Fits(lexeme: Lexeme, rest: string) {
    match lexeme
    case Space(c) => White(c)
    case Comment(body) => '\n' !in body
    case LastComment(body) => '\n' !in body && rest == []
    case Block(body) => FirstCloser(body, "*/")
    case Quoted(quote, units) =>
      QuoteMark(quote) && (forall unit | unit in units :: UnitFits(quote, unit)) && !(rest != [] && rest[0] == quote)
    case DollarQuoted(tag, body) => IsTag(tag) && FirstCloser(body, tag)
    case Name(text) =>
      text != [] && Alphabetic(text[0]) && (forall c | c in text :: InName(c)) && (rest != [] ==> !InName(rest[0]))
    case Number(whole, fraction) =>
      && whole != [] && (forall c | c in whole :: Numeric(c)) && (forall c | c in fraction :: Numeric(c))
      && (rest != [] ==> !Numeric(rest[0]))
      && (fraction == [] ==> !(|rest| >= 2 && rest[0] == '.' && Numeric(rest[1])))
    case Sign(c) =>
      && !White(c) && !QuoteMark(c) && !Alphabetic(c) && !Numeric(c)
      && !Heads([c] + rest, '-', '-') && !Heads([c] + rest, '/', '*') && !BeginsTag([c] + rest)
  }

  ghost predicate WellFormed(lexemes: seq<Lexeme>) {
    lexemes == [] || (Fits(lexemes[0], Render(lexemes[1..])) && WellFormed(lexemes[1..]))
  }

  // ---------------------------------------------------------------------
  // Each kind of lexeme under the tokenizer

  lemma Regrouped(a: string, b: string, c: string)
    ensures (a + b) + c == a + (b + c)
  {
  }

  lemma HeadsAre(s: string)
    ensures StartsWith(s, "--") <==> Heads(s, '-', '-')
    ensures StartsWith(s, "/*") <==> Heads(s, '/', '*')
  {
    if |s| >= 2 {
      assert s[..2] == [s[0], s[1]];
    }
  }

  lemma CharactersAre(c: char)
    ensures IsSpace(c) <==> White(c)
    ensures IsDigit(c) <==> Numeric(c)
    ensures IsQuoteMark(c) <==> QuoteMark(c)
    ensures IsLetter(c) <==> Alphabetic(c)
    ensures IsWordChar(c) || c == '$' <==> InName(c)
  {
  }

  lemma {:induction false} LineEnds(body: string, rest: string)
    requires '\n' !in body
    ensures AfterLine(body + ("\n" + rest)) == rest && AfterLine(body) == []
    decreases |body|
  {
    var s := body + ("\n" + rest);
    if body == [] {
      assert s[1..] == rest;
    } else {
      assert s[1..] == body[1..] + ("\n" + rest);
      LineEnds(body[1..], rest);
    }
  }

  lemma {:induction false} CloserEnds(body: string, closer: string, rest: string)
    requires closer != [] && FirstCloser(body, closer)
    ensures AfterText(body + (closer + rest), closer) == Some(rest)
    decreases |body|
  {
    var s := body + (closer + rest);
    if body == [] {
      assert s[..|closer|] == closer && s[|closer|..] == rest;
    } else {
      assert (body + closer)[0..] == body + closer;
      assert s[..|closer|] == (body + closer)[..|closer|];
      assert s[1..] == body[1..] + (closer + rest);
      forall i | 0 <= i < |body[1..]| ensures !(closer <= (body[1..] + closer)[i..]) {
        assert (body[1..] + closer)[i..] == (body + closer)[i + 1..];
      }
      CloserEnds(body[1..], closer, rest);
    }
  }

  lemma UnitIsPassed(quote: char, unit: Unit, tail: string)
    requires QuoteMark(quote) && UnitFits(quote, unit)
    ensures AfterQuoted(quote, UnitText(quote, unit) + tail) == AfterQuoted(quote, tail)
  {
    var s := UnitText(quote, unit) + tail;
    match unit
    case Single(c) => assert s[0] == c && s[1..] == tail;
    case Twice => assert s[0] == quote && s[1] == quote && s[2..] == tail;
    case Escape(c) => assert s[0] == '\\' && s[2..] == tail;
  }

  lemma {:induction false} QuoteEnds(quote: char, units: seq<Unit>, rest: string)
    requires QuoteMark(quote) && (forall unit | unit in units :: UnitFits(quote, unit))
    requires !(rest != [] && rest[0] == quote)
    ensures AfterQuoted(quote, UnitsText(quote, units) + ([quote] + rest)) == Some(rest)
    decreases |units|
  {
    var tail := [quote] + rest;
    if units == [] {
      assert UnitsText(quote, units) + tail == tail;
      assert tail[1..] == rest;
    } else {
      QuoteEnds(quote, units[1..], rest);
      UnitIsPassed(quote, units[0], UnitsText(quote, units[1..]) + tail);
      Regrouped(UnitText(quote, units[0]), UnitsText(quote, units[1..]), tail);
    }
  }

  lemma {:induction false} NameEnds(text: string, rest: string)
    requires (forall c | c in text :: InName(c)) && (rest != [] ==> !InName(rest[0]))
    ensures NameLength(text + rest) == |text|
    decreases |text|
  {
    var s := text + rest;
    if text == [] {
      assert s == rest;
      if rest != [] { CharactersAre(rest[0]); }
    } else {
      CharactersAre(text[0]);
      assert s[1..] == text[1..] + rest;
      NameEnds(text[1..], rest);
    }
  }

  lemma {:induction false} DigitsEnd(digits: string, rest: string)
    requires (forall c | c in digits :: Numeric(c)) && (rest != [] ==> !Numeric(rest[0]))
    ensures DigitsLength(digits + rest) == |digits|
    decreases |digits|
  {
    var s := digits + rest;
    if digits == [] {
      assert s == rest;
    } else {
      assert s[0] == digits[0] && digits[0] in digits && s[1..] == digits[1..] + rest;
      DigitsEnd(digits[1..], rest);
    }
  }

  lemma NumberEnds(whole: string, fraction: string, rest: string)
    requires Fits(Number(whole, fraction), rest)
    ensures NumberLength(Text(Number(whole, fraction)) + rest) == |Text(Number(whole, fraction))|
  {
    var s := Text(Number(whole, fraction)) + rest;
    if fraction == [] {
      DigitsEnd(whole, rest);
    } else {
      assert s == whole + ("." + fraction + rest);
      DigitsEnd(whole, "." + fraction + rest);
      assert s[|whole|] == '.' && s[|whole| + 1..] == fraction + rest;
      assert s[|whole| + 1] == fraction[0] && fraction[0] in fraction;
      DigitsEnd(fraction, rest);
    }
  }

  lemma {:induction false} UpperIs(text: string)
    ensures Upper(text) == seq(|text|, i requires 0 <= i < |text| => Capital(text[i]))
    decreases |text|
  {
    if text != [] {
      UpperIs(text[1..]);
    }
  }

  function Read(lexeme: Lexeme, rest: string): Lexed {
    if TokenOf(lexeme) == [] then Skip(rest) else Emit(TokenOf(lexeme)[0], rest)
  }

  lemma OpeningIs(s: string)
    requires s != []
    ensures Heads(s, '-', '-') ==> LexAt(s) == Skip(AfterLine(s[2..]))
    ensures Heads(s, '/', '*') ==> LexAt(s) == Closing(AfterText(s[2..], "*/"), [])
    ensures QuoteMark(s[0])
        ==> LexAt(s) == Closing(AfterQuoted(s[0], s[1..]), [if s[0] == '\'' then "<LITERAL>" else "<IDENTIFIER>"])
    ensures s[0] == '$' && TagAt(s).Some?
        ==> LexAt(s) == Closing(AfterText(s[|TagAt(s).value|..], TagAt(s).value), ["<LITERAL>"])
  {
    HeadsAre(s);
    CharactersAre(s[0]);
  }

  function Closing(rest: Option<string>, tokens: seq<Token>): Lexed {
    match rest
    case None => Unclosed
    case Some(r) => if tokens == [] then Skip(r) else Emit(tokens[0], r)
  }

  lemma LineIsRead(body: string, rest: string)
    requires '\n' !in body
    ensures LexAt("--" + (body + "\n") + rest) == Skip(rest) && LexAt("--" + body) == Skip([])
  {
    LineEnds(body, rest);
    var s, last := "--" + (body + "\n") + rest, "--" + body;
    assert s[2..] == body + ("\n" + rest) && last[2..] == body;
    OpeningIs(s);
    OpeningIs(last);
  }

  lemma BlockIsRead(body: string, rest: string)
    requires FirstCloser(body, "*/")
    ensures LexAt("/*" + (body + "*/") + rest) == Skip(rest)
  {
    CloserEnds(body, "*/", rest);
    var s := "/*" + (body + "*/") + rest;
    assert s[2..] == body + ("*/" + rest);
    OpeningIs(s);
  }

  lemma QuotedIsRead(quote: char, units: seq<Unit>, rest: string)
    requires Fits(Quoted(quote, units), rest)
    ensures LexAt(Text(Quoted(quote, units)) + rest) == Read(Quoted(quote, units), rest)
  {
    QuoteEnds(quote, units, rest);
    var s := Text(Quoted(quote, units)) + rest;
    assert s[0] == quote && s[1..] == UnitsText(quote, units) + ([quote] + rest);
    OpeningIs(s);
  }

  lemma DollarIsRead(tag: string, body: string, rest: string)
    requires IsTag(tag) && FirstCloser(body, tag)
    ensures LexAt(tag + (body + tag) + rest) == Emit("<LITERAL>", rest)
  {
    CloserEnds(body, tag, rest);
    var s := tag + (body + tag) + rest;
    assert s[..|tag|] == tag && s[0] == tag[0] && s[|tag|..] == body + (tag + rest);
    TagAtIs(s, tag);
    OpeningIs(s);
  }

  lemma NoTagWithoutDollar(s: string)
    requires s != [] && s[0] != '$'
    ensures TagAt(s).None?
  {
  }

  lemma WordIsRead(lexeme: Lexeme, rest: string)
    requires Fits(lexeme, rest) && (lexeme.Name? || lexeme.Number?)
    ensures LexAt(Text(lexeme) + rest) == Read(lexeme, rest)
  {
    var s := Text(lexeme) + rest;
    match lexeme
    case Name(text) =>
      assert s[0] == text[0] && text[0] in text;
      HeadsAre(s);
      CharactersAre(s[0]);
      NoTagWithoutDollar(s);
      NameEnds(text, rest);
      UpperIs(text);
      assert s[..|text|] == text && s[|text|..] == rest;
    case Number(whole, fraction) =>
      assert s[0] == whole[0] && whole[0] in whole;
      HeadsAre(s);
      CharactersAre(s[0]);
      NoTagWithoutDollar(s);
      NumberEnds(whole, fraction, rest);
      assert s[|Text(lexeme)|..] == rest;
  }

  lemma LexemeIsRead(lexeme: Lexeme, rest: string)
    requires Fits(lexeme, rest)
    ensures Text(lexeme) + rest != [] && LexAt(Text(lexeme) + rest) == Read(lexeme, rest)
  {
    var s := Text(lexeme) + rest;
    match lexeme
    case Space(c) =>
      CharactersAre(c);
      assert s[0] == c && s[1..] == rest;
    case Quoted(quote, units) => QuotedIsRead(quote, units, rest);
    case DollarQuoted(tag, body) => DollarIsRead(tag, body, rest);
    case Comment(body) => LineIsRead(body, rest);
    case LastComment(body) =>
      LineIsRead(body, rest);
      assert s == Text(lexeme);
    case Block(body) => BlockIsRead(body, rest);
    case Name(_) => WordIsRead(lexeme, rest);
    case Number(_, _) => WordIsRead(lexeme, rest);
    case Sign(c) =>
      HeadsAre(s);
      CharactersAre(c);
      BeginsTagIs(s);
      assert s[0] == c && s[1..] == rest;
  }

  /** Every list of lexemes has their tokens, in any letter case, with any blanks and
      comments between them. */
  lemma {:induction false} LexemesAreRead(lexemes: seq<Lexeme>)
    requires WellFormed(lexemes)
    ensures AllTokens(Render(lexemes)) == Some(TokensOf(lexemes))
    decreases |lexemes|
  {
    if lexemes != [] {
      var rest := Render(lexemes[1..]);
      LexemeIsRead(lexemes[0], rest);
      LexemesAreRead(lexemes[1..]);
      if TokenOf(lexemes[0]) == [] {
        assert TokensOf(lexemes) == TokensOf(lexemes[1..]);
      } else {
        assert TokenOf(lexemes[0]) == [TokenOf(lexemes[0])[0]];
      }
    }
  }

  // ---------------------------------------------------------------------
  // Every text with tokens is a list of lexemes

  lemma {:induction false} FindLine(s: string) returns (body: string)
    ensures '\n' !in body && (s == body || (s == body + ("\n" + AfterLine(s))))
    ensures s == body ==> AfterLine(s) == []
    decreases |s|
  {
    if s == [] {
      body := [];
    } else if s[0] == '\n' {
      body := [];
      assert s == "\n" + s[1..];
    } else {
      var further := FindLine(s[1..]);
      body := [s[0]] + further;
      assert s == [s[0]] + s[1..];
      Regrouped([s[0]], further, "\n" + AfterLine(s));
      assert s == body <==> s[1..] == further;
    }
  }

  lemma FindComment(s: string) returns (lexeme: Lexeme, rest: string)
    requires Heads(s, '-', '-')
    ensures Fits(lexeme, rest) && Text(lexeme) + rest == s
  {
    var body := FindLine(s[2..]);
    rest := AfterLine(s[2..]);
    assert s == "--" + s[2..];
    if s[2..] == body {
      lexeme := LastComment(body);
      assert Text(lexeme) + rest == Text(lexeme);
    } else {
      lexeme := Comment(body);
      Regrouped(body, "\n", rest);
      Regrouped("--", body + "\n", rest);
    }
  }

  lemma FurtherCloser(closer: string, c: char, further: string, rest: string)
    requires FirstCloser(further, closer) && !(closer <= [c] + further + closer + rest)
    ensures FirstCloser([c] + further, closer)
  {
    var body := [c] + further;
    forall i | 0 <= i < |body| ensures !(closer <= (body + closer)[i..]) {
      if i > 0 {
        assert (body + closer)[i..] == (further + closer)[i - 1..];
      } else {
        assert (body + closer)[0..] == body + closer <= body + closer + rest;
      }
    }
  }

  lemma {:induction false} FindCloser(closer: string, s: string) returns (body: string)
    requires closer != [] && AfterText(s, closer).Some?
    ensures FirstCloser(body, closer) && s == (body + closer) + AfterText(s, closer).value
    decreases |s|
  {
    if StartsWith(s, closer) {
      body := [];
      assert body + closer == closer;
      assert s == closer + s[|closer|..];
    } else {
      var further := FindCloser(closer, s[1..]);
      var rest := AfterText(s, closer).value;
      body := [s[0]] + further;
      assert s == [s[0]] + s[1..];
      Regrouped([s[0]], further + closer, rest);
      Regrouped([s[0]], further, closer);
      FurtherCloser(closer, s[0], further, rest);
    }
  }

  lemma FurtherUnit(quote: char, unit: Unit, units: seq<Unit>, rest: string)
    ensures UnitsText(quote, [unit] + units) + rest == UnitText(quote, unit) + (UnitsText(quote, units) + rest)
  {
    assert ([unit] + units)[1..] == units;
  }

  lemma FindUnit(quote: char, s: string) returns (unit: Unit, n: nat)
    requires QuoteMark(quote) && AfterQuoted(quote, s).Some?
    requires s[0] == quote ==> |s| > 1 && s[1] == quote
    ensures UnitFits(quote, unit) && 0 < n <= |s| && s == UnitText(quote, unit) + s[n..]
    ensures AfterQuoted(quote, s) == AfterQuoted(quote, s[n..])
  {
    if s[0] == quote {
      unit, n := Twice, 2;
    } else if s[0] == '\\' && quote != '`' {
      unit, n := Escape(s[1]), 2;
    } else {
      unit, n := Unit.Single(s[0]), 1;
    }
  }

  lemma {:induction false} FindQuote(quote: char, s: string) returns (units: seq<Unit>)
    requires QuoteMark(quote) && AfterQuoted(quote, s).Some?
    ensures forall unit | unit in units :: UnitFits(quote, unit)
    ensures var rest := AfterQuoted(quote, s).value;
            s == UnitsText(quote, units) + ([quote] + rest) && !(rest != [] && rest[0] == quote)
    decreases |s|
  {
    if s[0] == quote && !(|s| > 1 && s[1] == quote) {
      units := [];
      assert s == [quote] + s[1..];
    } else {
      var unit, n := FindUnit(quote, s);
      var further := FindQuote(quote, s[n..]);
      FurtherUnit(quote, unit, further, [quote] + AfterQuoted(quote, s).value);
      units := [unit] + further;
    }
  }

  lemma {:induction false} FindName(s: string)
    ensures var n := NameLength(s);
            (forall c | c in s[..n] :: InName(c)) && (n < |s| ==> !InName(s[n]))
    decreases |s|
  {
    if s != [] {
      CharactersAre(s[0]);
      if InName(s[0]) {
        FindName(s[1..]);
        var n := NameLength(s);
        assert s[..n] == [s[0]] + s[1..][..n - 1];
      }
    }
  }

  lemma {:induction false} FindDigits(s: string)
    ensures var n := DigitsLength(s);
            (forall c | c in s[..n] :: Numeric(c)) && (n < |s| ==> !Numeric(s[n]))
    decreases |s|
  {
    if s != [] && Numeric(s[0]) {
      FindDigits(s[1..]);
      var n := DigitsLength(s);
      assert s[..n] == [s[0]] + s[1..][..n - 1];
    }
  }

  lemma FindNumber(s: string) returns (lexeme: Lexeme)
    requires s != [] && Numeric(s[0])
    ensures lexeme.Number? && Fits(lexeme, s[NumberLength(s)..]) && Text(lexeme) + s[NumberLength(s)..] == s
  {
    var whole := DigitsLength(s);
    var n := NumberLength(s);
    FindDigits(s);
    if n == whole {
      lexeme := Number(s[..whole], []);
    } else {
      lexeme := FindFraction(s);
    }
  }

  lemma FindFraction(s: string) returns (lexeme: Lexeme)
    requires s != [] && Numeric(s[0]) && NumberLength(s) != DigitsLength(s)
    ensures lexeme.Number? && Fits(lexeme, s[NumberLength(s)..]) && Text(lexeme) + s[NumberLength(s)..] == s
  {
    var n, whole := NumberLength(s), DigitsLength(s);
    var behind := s[whole + 1..];
    FindDigits(s);
    FindDigits(behind);
    lexeme := Number(s[..whole], behind[..n - whole - 1]);
    assert behind[..n - whole - 1] == s[whole + 1..n];
    assert Text(lexeme) == s[..n];
    assert n < |s| ==> s[n] == behind[n - whole - 1];
  }

  lemma FindLexeme(s: string) returns (lexeme: Lexeme, rest: string)
    requires s != [] && !LexAt(s).Unclosed?
    ensures Fits(lexeme, rest) && Text(lexeme) + rest == s
  {
    OpeningIs(s);
    BeginsTagIs(s);
    if White(s[0]) {
      lexeme, rest := Space(s[0]), s[1..];
    } else if Heads(s, '-', '-') {
      lexeme, rest := FindComment(s);
    } else if Heads(s, '/', '*') {
      lexeme, rest := FindBlock(s);
    } else if QuoteMark(s[0]) {
      lexeme, rest := FindQuoted(s);
    } else if TagAt(s).Some? {
      lexeme, rest := FindDollar(s);
    } else {
      lexeme, rest := FindWord(s);
    }
  }

  lemma FindBlock(s: string) returns (lexeme: Lexeme, rest: string)
    requires Heads(s, '/', '*') && AfterText(s[2..], "*/").Some?
    ensures Fits(lexeme, rest) && Text(lexeme) + rest == s
  {
    var body := FindCloser("*/", s[2..]);
    lexeme, rest := Lexeme.Block(body), AfterText(s[2..], "*/").value;
    assert s == "/*" + s[2..];
    Regrouped("/*", body + "*/", rest);
  }

  lemma FindQuoted(s: string) returns (lexeme: Lexeme, rest: string)
    requires s != [] && QuoteMark(s[0]) && AfterQuoted(s[0], s[1..]).Some?
    ensures Fits(lexeme, rest) && Text(lexeme) + rest == s
  {
    var units := FindQuote(s[0], s[1..]);
    lexeme, rest := Quoted(s[0], units), AfterQuoted(s[0], s[1..]).value;
    assert s == [s[0]] + s[1..];
    Regrouped(UnitsText(s[0], units), [s[0]], rest);
    Regrouped([s[0]], UnitsText(s[0], units) + [s[0]], rest);
  }

  lemma FindDollar(s: string) returns (lexeme: Lexeme, rest: string)
    requires TagAt(s).Some? && AfterText(s[|TagAt(s).value|..], TagAt(s).value).Some?
    ensures Fits(lexeme, rest) && Text(lexeme) + rest == s
  {
    var tag := TagAt(s).value;
    TagAtIs(s, tag);
    var further := s[|tag|..];
    var body := FindCloser(tag, further);
    lexeme, rest := DollarQuoted(tag, body), AfterText(further, tag).value;
    assert s == tag + further;
    Regrouped(tag, body + tag, rest);
  }

  lemma FindWord(s: string) returns (lexeme: Lexeme, rest: string)
    requires s != [] && !White(s[0]) && !Heads(s, '-', '-') && !Heads(s, '/', '*') && !QuoteMark(s[0]) && !BeginsTag(s)
    ensures Fits(lexeme, rest) && Text(lexeme) + rest == s
  {
    CharactersAre(s[0]);
    if Alphabetic(s[0]) {
      FindName(s);
      var n := NameLength(s);
      lexeme, rest := Name(s[..n]), s[n..];
      assert s == s[..n] + s[n..];
    } else if Numeric(s[0]) {
      lexeme := FindNumber(s);
      rest := s[NumberLength(s)..];
    } else {
      lexeme, rest := Sign(s[0]), s[1..];
      assert [s[0]] + rest == s;
    }
  }

  /** Whatever has tokens is some list of lexemes, so a text has none exactly when a
      literal or a comment in it does not end. */
  lemma {:induction false} EveryTextIsLexemes(s: string) returns (lexemes: seq<Lexeme>)
    requires AllTokens(s).Some?
    ensures WellFormed(lexemes) && Render(lexemes) == s
    decreases |s|
  {
    if s == [] {
      lexemes := [];
    } else {
      var lexeme, rest := FindLexeme(s);
      LexemeIsRead(lexeme, rest);
      var further := EveryTextIsLexemes(rest);
      lexemes := [lexeme] + further;
      assert lexemes[1..] == further;
    }
  }

  lemma TokensExactly(s: string)
    ensures AllTokens(s).Some? <==> exists lexemes :: WellFormed(lexemes) && Render(lexemes) == s
  {
    if AllTokens(s).Some? {
      var lexemes := EveryTextIsLexemes(s);
      assert WellFormed(lexemes) && Render(lexemes) == s;
    }
    if lexemes :| WellFormed(lexemes) && Render(lexemes) == s {
      LexemesAreRead(lexemes);
    }
  }

  /** A token is read as a name exactly when it was written as one: bare, or in
      double quotes or backticks. */
  lemma NamesAreIdentifiers(lexeme: Lexeme, rest: string)
    requires Fits(lexeme, rest) && TokenOf(lexeme) != []
    ensures IsIdentifier(TokenOf(lexeme)[0]) <==> lexeme.Name? || (lexeme.Quoted? && lexeme.quote != '\'')
  {
    if lexeme.Name? {
      var text := lexeme.text;
      assert text[0] in text;
      forall i | 0 <= i < |text| ensures InName(text[i]) {
        assert text[i] in text;
      }
    }
  }

  // ---------------------------------------------------------------------
  // The canonical text, and its tokens

  /** Newlines made one kind, the blanks at both ends and then every blank and
      semicolon at the end dropped. */
  ghost predicate IsCanonical(sql: string, text: string) {
    exists middle :: SqlVerdict.IsTrimmed(SqlVerdict.UnixLines(sql), middle) && IsStripped(middle, text)
  }

  ghost predicate IsStripped(s: string, text: string) {
    && text <= s && (forall k | |text| <= k < |s| :: SqlVerdict.IsBlank(s[k]) || s[k] == ';')
    && (text != [] ==> !SqlVerdict.IsBlank(text[|text| - 1]) && text[|text| - 1] != ';')
  }

  lemma TrimmedIsOne(s: string, r: string, t: string)
    requires SqlVerdict.IsTrimmed(s, r) && SqlVerdict.IsTrimmed(s, t)
    ensures r == t
  {
    var i: nat, j: nat :| SqlVerdict.IsMiddle(s, i, j, r);
    var m: nat, n: nat :| SqlVerdict.IsMiddle(s, m, n, t);
    if r != [] {
      assert r[0] == s[i] && r[|r| - 1] == s[j - 1];
      assert m <= i && j <= n;
    }
    if t != [] {
      assert t[0] == s[m] && t[|t| - 1] == s[n - 1];
      assert i <= m && n <= j;
    }
  }

  lemma CanonicalIs(sql: string, text: string)
    ensures IsCanonical(sql, text) <==> text == SqlVerdict.StripTail(SqlVerdict.Normalize(sql))
  {
    var middle := SqlVerdict.Normalize(sql);
    var stripped := SqlVerdict.StripTail(middle);
    SqlVerdict.NormalizeIs(sql);
    SqlVerdict.StripTailDrops(middle);
    assert IsStripped(middle, stripped);
    if other :| SqlVerdict.IsTrimmed(SqlVerdict.UnixLines(sql), other) && IsStripped(other, text) {
      TrimmedIsOne(SqlVerdict.UnixLines(sql), other, middle);
      assert text == middle[..|text|];
      assert stripped == middle[..|stripped|];
    }
  }

  /** Nowhere more closing than opening parentheses, and as many in all. */
  ghost predicate Even(tokens: seq<Token>, depth: nat) {
    && (forall k | 0 <= k <= |tokens| :: Closed(tokens, k) <= depth + Opened(tokens, k))
    && Closed(tokens, |tokens|) == depth + Opened(tokens, |tokens|)
  }

  ghost function Opened(tokens: seq<Token>, k: nat): nat
    requires k <= |tokens|
  {
    multiset(tokens[..k])["("]
  }

  ghost function Closed(tokens: seq<Token>, k: nat): nat
    requires k <= |tokens|
  {
    multiset(tokens[..k])[")"]
  }

  lemma CountedFromNext(tokens: seq<Token>, k: nat)
    requires 0 < k <= |tokens|
    ensures Opened(tokens, k) == Opened(tokens[1..], k - 1) + (if tokens[0] == "(" then 1 else 0)
    ensures Closed(tokens, k) == Closed(tokens[1..], k - 1) + (if tokens[0] == ")" then 1 else 0)
  {
    assert tokens[..k] == [tokens[0]] + tokens[1..][..k - 1];
  }

  lemma {:induction false} BalancedIsEven(tokens: seq<Token>, depth: nat)
    ensures Balanced(tokens, depth) <==> Even(tokens, depth)
    decreases |tokens|
  {
    if tokens == [] {
      assert Opened(tokens, 0) == Closed(tokens, 0) == 0;
    } else {
      EvenFromNext(tokens, depth);
      var further := if tokens[0] == "(" then depth + 1 else if tokens[0] == ")" then depth - 1 else depth;
      if further >= 0 {
        BalancedIsEven(tokens[1..], further);
      }
    }
  }

  lemma EvenFromNext(tokens: seq<Token>, depth: nat)
    requires tokens != []
    ensures var further := if tokens[0] == "(" then depth + 1 else if tokens[0] == ")" then depth - 1 else depth;
            Even(tokens, depth) <==> further >= 0 && Even(tokens[1..], further)
  {
    var further := if tokens[0] == "(" then depth + 1 else if tokens[0] == ")" then depth - 1 else depth;
    forall k | 0 < k <= |tokens|
      ensures Closed(tokens, k) <= depth + Opened(tokens, k)
         <==> Closed(tokens[1..], k - 1) <= further + Opened(tokens[1..], k - 1)
      ensures Closed(tokens, k) == depth + Opened(tokens, k)
         <==> Closed(tokens[1..], k - 1) == further + Opened(tokens[1..], k - 1)
    {
      CountedFromNext(tokens, k);
    }
    assert Closed(tokens, 0) == Opened(tokens, 0) == 0;
    if Even(tokens, depth) {
      assert Closed(tokens, 1) <= depth + Opened(tokens, 1);
      assert Closed(tokens[1..], 0) == Opened(tokens[1..], 0) == 0;
      forall k | 0 <= k <= |tokens[1..]| ensures Closed(tokens[1..], k) <= further + Opened(tokens[1..], k) {
        assert Closed(tokens, k + 1) <= depth + Opened(tokens, k + 1);
      }
    }
  }

  /** The SQL is some writing of the shape: the canonical text is a list of lexemes
      whose tokens are its words, with all parentheses closed. */
  ghost predicate Writes(driver: Driver, sql: string, lexemes: seq<Lexeme>, shape: Shape) {
    && Grammatical(driver, shape) && TokensOf(lexemes) == Words(shape) && Even(Words(shape), 0)
    && WellFormed(lexemes) && IsCanonical(sql, Render(lexemes))
  }

  lemma WritingHasTheTokens(driver: Driver, sql: string, lexemes: seq<Lexeme>, shape: Shape)
    requires Writes(driver, sql, lexemes, shape)
    ensures AllTokens(SqlVerdict.StripTail(SqlVerdict.Normalize(sql))) == Some(Words(shape))
    ensures Balanced(Words(shape), 0)
  {
    LexemesAreRead(lexemes);
    CanonicalIs(sql, Render(lexemes));
    BalancedIsEven(Words(shape), 0);
  }

  lemma TokensHaveAWriting(driver: Driver, sql: string, shape: Shape) returns (lexemes: seq<Lexeme>)
    requires Grammatical(driver, shape) && Balanced(Words(shape), 0)
    requires AllTokens(SqlVerdict.StripTail(SqlVerdict.Normalize(sql))) == Some(Words(shape))
    ensures Writes(driver, sql, lexemes, shape)
  {
    lexemes := EveryTextIsLexemes(SqlVerdict.StripTail(SqlVerdict.Normalize(sql)));
    LexemesAreRead(lexemes);
    CanonicalIs(sql, Render(lexemes));
    BalancedIsEven(Words(shape), 0);
  }

  /** `statementShape`: it accepts exactly what writes a shape of the driver, in any
      letter case, with blanks and comments anywhere between its words, and names
      that shape. */
  method StatementShape(driver: Driver, sql: string) returns (r: Option<Signature>)
    ensures r.Some? <==> exists lexemes, shape :: Writes(driver, sql, lexemes, shape)
    ensures forall lexemes, shape | Writes(driver, sql, lexemes, shape) ::
              r == Some(Signature(driver, shape.modifier, shape.concurrently))
  {
    var canonical := SqlVerdict.StripTrailingTerminator(SqlVerdict.Normalize(sql));
    var tokens := Tokens(canonical);
    forall lexemes, shape | Writes(driver, sql, lexemes, shape)
      ensures tokens == Some(Words(shape))
    {
      WritingHasTheTokens(driver, sql, lexemes, shape);
    }
    if tokens.None? {
      return None;
    }
    r := ShapeOfTokens(driver, tokens.value);
    if shape :| Grammatical(driver, shape) && tokens.value == Words(shape) {
      var lexemes := TokensHaveAWriting(driver, sql, shape);
      assert Writes(driver, sql, lexemes, shape);
    }
  }
}
