/**
  What the erasing lexer means: SQL is a list of code, literals and comments,
  and each literal or comment becomes one space.
*/
module SqlSegments {
  import opened Base
  import opened SqlErasure

  /** The last four kinds run to the end of the text. Literals hold their
      contents with doubled quotes read as one. */
  datatype Segment =
    | Plain(text: string)
    | Literal(quote: char, body: string)
    | DollarQuoted(tag: string, body: string)
    | LineComment(body: string)
    | BlockComment(body: string)
    | OpenLiteral(quote: char, body: string)
    | OpenDollar(tag: string, body: string)
    | OpenLine(body: string)
    | OpenBlock(body: string)

  function Doubled(quote: char, body: string): string {
    if body == [] then []
    else (if body[0] == quote then [quote, quote] else [body[0]]) + Doubled(quote, body[1..])
  }

  function Opener(segment: Segment): string {
    match segment
    case Plain(_) => ""
    case Literal(quote, _) => [quote]
    case DollarQuoted(tag, _) => tag
    case LineComment(_) => "--"
    case BlockComment(_) => "/*"
    case OpenLiteral(quote, _) => [quote]
    case OpenDollar(tag, _) => tag
    case OpenLine(_) => "--"
    case OpenBlock(_) => "/*"
  }

  function Inside(segment: Segment): string {
    match segment
    case Plain(text) => text
    case Literal(quote, body) => Doubled(quote, body)
    case OpenLiteral(quote, body) => Doubled(quote, body)
    case _ => segment.body
  }

  function Closer(segment: Segment): string {
    match segment
    case Literal(quote, _) => [quote]
    case DollarQuoted(tag, _) => tag
    case LineComment(_) => "\n"
    case BlockComment(_) => "*/"
    case _ => ""
  }

  function Rendered(segment: Segment): string {
    Opener(segment) + Inside(segment) + Closer(segment)
  }

  function Erased(segment: Segment): string {
    match segment
    case Plain(text) => text
    case LineComment(_) => " \n"
    case _ => " "
  }

  function Render(segments: seq<Segment>): string {
    if segments == [] then [] else Rendered(segments[0]) + Render(segments[1..])
  }

  function ErasedAll(segments: seq<Segment>): string {
    if segments == [] then [] else Erased(segments[0]) + ErasedAll(segments[1..])
  }

  predicate IsQuote(c: char) {
    c == '\'' || c == '"'
  }

  predicate IsOpen(segment: Segment) {
    segment.OpenLiteral? || segment.OpenDollar? || segment.OpenLine? || segment.OpenBlock?
  }

  /** No occurrence of the closing text begins inside the body. */
  ghost predicate Unclosed(body: string, closer: string) {
    forall i | 0 <= i < |body| :: !StartsWith((body + closer)[i..], closer)
  }

  ghost predicate NotAHint(body: string) {
    body == [] || body[0] !in {'!', '+'}
  }

  /** The segment is what the text says, given what follows it. */
  ghost predicate Fits(segment: Segment, rest: string) {
    match segment
    case Plain(text) => forall i | 0 <= i < |text| :: !Opens((text + rest)[i..])
    case Literal(quote, _) => IsQuote(quote) && !StartsWith(rest, [quote])
    case DollarQuoted(tag, body) => IsTag(tag) && Unclosed(body, tag)
    case LineComment(body) => '\n' !in body
    case BlockComment(body) => NotAHint(body) && Unclosed(body, "*/")
    case OpenLiteral(quote, _) => IsQuote(quote) && rest == []
    case OpenDollar(tag, body) =>
      IsTag(tag) && rest == [] && forall i | 0 <= i < |body| :: !StartsWith(body[i..], tag)
    case OpenLine(body) => '\n' !in body && rest == []
    case OpenBlock(body) => NotAHint(body) && rest == [] && forall i | 0 <= i < |body| :: !StartsWith(body[i..], "*/")
  }

  ghost predicate WellFormed(segments: seq<Segment>) {
    segments == [] || (Fits(segments[0], Render(segments[1..])) && WellFormed(segments[1..]))
  }

  // ---------------------------------------------------------------------
  // Each kind of segment under the scan

  lemma {:induction false} ScanPlain(text: string, rest: string)
    requires Fits(Plain(text), rest)
    ensures Scan(Code, text + rest) == Then(text, Scan(Code, rest))
    decreases |text|
  {
    var s := text + rest;
    if text == [] {
      assert s == rest;
    } else {
      assert s[0..] == s;
      OpensIs(s);
      assert s[1..] == text[1..] + rest;
      forall i | 0 <= i < |text[1..]| ensures !Opens((text[1..] + rest)[i..]) {
        assert (text[1..] + rest)[i..] == s[i + 1..];
      }
      ScanPlain(text[1..], rest);
      ThenThen([text[0]], text[1..], Scan(Code, rest));
      assert [text[0]] + text[1..] == text;
    }
  }

  lemma {:induction false} ScanLine(body: string, rest: string)
    requires '\n' !in body
    ensures Scan(Line, body + "\n" + rest) == Then("\n", Scan(Code, rest))
    ensures Scan(Line, body) == Some([])
    decreases |body|
  {
    var s := body + "\n" + rest;
    if body == [] {
      assert s[1..] == rest;
    } else {
      assert s[1..] == body[1..] + "\n" + rest;
      ScanLine(body[1..], rest);
    }
  }

  /** Block comments and dollar quotes: the first closing text ends them. */
  lemma {:induction false} ScanToCloser(mode: Mode, body: string, closer: string, rest: string)
    requires (mode.Block? && closer == "*/") || (mode.Dollar? && closer == mode.tag && closer != [])
    requires Unclosed(body, closer)
    ensures Scan(mode, body + closer + rest) == Scan(Code, rest)
    decreases |body|
  {
    var s := body + closer + rest;
    if body == [] {
      assert s[..|closer|] == closer && s[|closer|..] == rest;
    } else {
      assert (body + closer)[0..] == body + closer;
      assert s[..|closer|] == (body + closer)[..|closer|];
      assert s[1..] == body[1..] + closer + rest;
      forall i | 0 <= i < |body[1..]| ensures !StartsWith((body[1..] + closer)[i..], closer) {
        assert (body[1..] + closer)[i..] == (body + closer)[i + 1..];
      }
      ScanToCloser(mode, body[1..], closer, rest);
    }
  }

  lemma {:induction false} ScanToEnd(mode: Mode, body: string, closer: string)
    requires (mode.Block? && closer == "*/") || (mode.Dollar? && closer == mode.tag && closer != [])
    requires forall i | 0 <= i < |body| :: !StartsWith(body[i..], closer)
    ensures Scan(mode, body) == Some([])
    decreases |body|
  {
    if body != [] {
      assert body[0..] == body;
      forall i | 0 <= i < |body[1..]| ensures !StartsWith(body[1..][i..], closer) {
        assert body[1..][i..] == body[i + 1..];
      }
      ScanToEnd(mode, body[1..], closer);
    }
  }

  function QuoteMode(quote: char): Mode {
    if quote == '\'' then Single else Double
  }

  lemma ScanDoubledQuote(quote: char, t: string)
    requires IsQuote(quote)
    ensures Scan(QuoteMode(quote), [quote, quote] + t) == Scan(QuoteMode(quote), t)
  {
    var s := [quote, quote] + t;
    assert s[..2] == [quote, quote] && s[2..] == t;
  }

  lemma ScanInsideQuote(quote: char, c: char, t: string)
    requires IsQuote(quote) && c != quote
    ensures Scan(QuoteMode(quote), [c] + t) == Scan(QuoteMode(quote), t)
  {
    var s := [c] + t;
    assert s[1..] == t;
  }

  lemma ScanClosingQuote(quote: char, rest: string)
    requires IsQuote(quote) && !StartsWith(rest, [quote])
    ensures Scan(QuoteMode(quote), [quote] + rest) == Scan(Code, rest)
  {
    var s := [quote] + rest;
    assert s[1..] == rest;
    if rest != [] {
      assert rest[..1] == [rest[0]];
      assert s[1] == rest[0];
    }
  }

  lemma DoubledSplit(quote: char, body: string, tail: string)
    requires body != []
    ensures Doubled(quote, body) + tail
         == (if body[0] == quote then [quote, quote] else [body[0]]) + (Doubled(quote, body[1..]) + tail)
  {
  }

  lemma {:induction false} ScanLiteral(quote: char, body: string, tail: string)
    requires IsQuote(quote)
    ensures Scan(QuoteMode(quote), Doubled(quote, body) + tail) == Scan(QuoteMode(quote), tail)
    decreases |body|
  {
    if body == [] {
      assert Doubled(quote, body) + tail == tail;
    } else {
      var rest := Doubled(quote, body[1..]) + tail;
      ScanLiteral(quote, body[1..], tail);
      DoubledSplit(quote, body, tail);
      if body[0] == quote {
        ScanDoubledQuote(quote, rest);
      } else {
        ScanInsideQuote(quote, body[0], rest);
      }
    }
  }

  lemma ScanLineOpener(t: string)
    ensures Scan(Code, "--" + t) == Then(" ", Scan(Line, t))
  {
    var s := "--" + t;
    assert s[..2] == "--" && s[2..] == t;
  }

  lemma ScanBlockOpener(t: string)
    requires t != [] ==> t[0] !in {'!', '+'}
    ensures Scan(Code, "/*" + t) == Then(" ", Scan(Block, t))
  {
    var s := "/*" + t;
    assert s[..2] == "/*" && s[2..] == t;
    assert |s| > 2 ==> s[2] == t[0];
  }

  lemma ScanQuoteOpener(quote: char, t: string)
    requires IsQuote(quote)
    ensures Scan(Code, [quote] + t) == Then(" ", Scan(QuoteMode(quote), t))
  {
    var s := [quote] + t;
    assert s[0] == quote && s[1..] == t;
  }

  lemma ScanTagOpener(tag: string, t: string)
    requires IsTag(tag)
    ensures Scan(Code, tag + t) == Then(" ", Scan(Dollar(tag), t))
  {
    TagAtIs(tag, tag);
    var s := tag + t;
    assert s[0] == tag[0] == '$' && s[|tag|..] == t && s[..|tag|] == tag;
    TagOfPrefix(tag, s);
  }

  // ---------------------------------------------------------------------
  // Segment by segment

  function ModeOf(segment: Segment): Mode {
    match segment
    case Plain(_) => Code
    case Literal(quote, _) => QuoteMode(quote)
    case DollarQuoted(tag, _) => Dollar(tag)
    case LineComment(_) => Line
    case BlockComment(_) => Block
    case OpenLiteral(quote, _) => QuoteMode(quote)
    case OpenDollar(tag, _) => Dollar(tag)
    case OpenLine(_) => Line
    case OpenBlock(_) => Block
  }

  /** An opening text switches the mode and leaves a space. */
  lemma ScanOpener(segment: Segment, rest: string)
    requires !segment.Plain? && Fits(segment, rest)
    ensures var inside := Inside(segment) + Closer(segment) + rest;
            Scan(Code, Opener(segment) + inside) == Then(" ", Scan(ModeOf(segment), inside))
  {
    var inside := Inside(segment) + Closer(segment) + rest;
    match segment
    case Literal(quote, _) => ScanQuoteOpener(quote, inside);
    case OpenLiteral(quote, _) => ScanQuoteOpener(quote, inside);
    case DollarQuoted(tag, _) => ScanTagOpener(tag, inside);
    case OpenDollar(tag, _) => ScanTagOpener(tag, inside);
    case LineComment(_) => ScanLineOpener(inside);
    case OpenLine(_) => ScanLineOpener(inside);
    case BlockComment(body) =>
      BlockIsNoHint(body, inside);
      ScanBlockOpener(inside);
    case OpenBlock(body) =>
      BlockIsNoHint(body, inside);
      ScanBlockOpener(inside);
  }

  lemma BlockIsNoHint(body: string, inside: string)
    requires NotAHint(body) && body <= inside
    requires body == [] ==> inside == [] || inside[0] == '*'
    ensures inside != [] ==> inside[0] !in {'!', '+'}
  {
    if body != [] {
      assert inside[0] == inside[..|body|][0];
    }
  }

  lemma ScanInsideOpen(segment: Segment, rest: string)
    requires IsOpen(segment) && Fits(segment, rest)
    ensures Scan(ModeOf(segment), Inside(segment)) == Some([])
  {
    match segment
    case OpenLiteral(quote, body) =>
      assert Doubled(quote, body) == Doubled(quote, body) + [];
      ScanLiteral(quote, body, []);
    case OpenDollar(tag, body) => ScanToEnd(Dollar(tag), body, tag);
    case OpenLine(body) => ScanLine(body, []);
    case OpenBlock(body) => ScanToEnd(Block, body, "*/");
  }

  lemma ScanInside(segment: Segment, rest: string)
    requires !segment.Plain? && Fits(segment, rest)
    ensures var inside := Inside(segment) + Closer(segment) + rest;
            Scan(ModeOf(segment), inside) == Then(if segment.LineComment? then "\n" else "", Scan(Code, rest))
  {
    var inside := Inside(segment) + Closer(segment) + rest;
    if IsOpen(segment) {
      assert inside == Inside(segment);
      ScanInsideOpen(segment, rest);
    } else {
      match segment
      case Literal(quote, body) =>
        assert inside == Doubled(quote, body) + ([quote] + rest);
        ScanLiteral(quote, body, [quote] + rest);
        ScanClosingQuote(quote, rest);
      case DollarQuoted(tag, body) => ScanToCloser(Dollar(tag), body, tag, rest);
      case LineComment(body) => ScanLine(body, rest);
      case BlockComment(body) => ScanToCloser(Block, body, "*/", rest);
    }
  }

  lemma RenderedSplit(segment: Segment, rest: string)
    ensures Rendered(segment) + rest == Opener(segment) + (Inside(segment) + Closer(segment) + rest)
  {
  }

  lemma ScanSegment(segment: Segment, rest: string)
    requires Fits(segment, rest)
    ensures Scan(Code, Rendered(segment) + rest) == Then(Erased(segment), Scan(Code, rest))
  {
    if segment.Plain? {
      ScanPlain(segment.text, rest);
      assert Rendered(segment) == segment.text;
    } else {
      RenderedSplit(segment, rest);
      ScanOpener(segment, rest);
      ScanInside(segment, rest);
      var emitted := if segment.LineComment? then "\n" else "";
      ThenThen(" ", emitted, Scan(Code, rest));
      assert " " + "\n" == " \n" && " " + "" == " ";
    }
  }

  /** Erasing a text is erasing it segment by segment. */
  lemma {:induction false} ErasureIsSegmentwise(segments: seq<Segment>)
    requires WellFormed(segments)
    ensures Erase(Render(segments)) == Some(ErasedAll(segments))
    decreases |segments|
  {
    if segments != [] {
      ErasureIsSegmentwise(segments[1..]);
      ScanSegment(segments[0], Render(segments[1..]));
      assert Erased(segments[0]) == [] ==> Erased(segments[0]) + ErasedAll(segments[1..]) == ErasedAll(segments[1..]);
    }
  }

  // ---------------------------------------------------------------------
  // Every text is a list of segments

  lemma {:induction false} FindQuote(quote: char, s: string) returns (body: string, closed: bool, rest: string)
    ensures closed ==> s == Doubled(quote, body) + [quote] + rest && !StartsWith(rest, [quote])
    ensures !closed ==> s == Doubled(quote, body)
    decreases |s|
  {
    body, closed, rest := [], false, [];
    if s == [] {
    } else if s[0] == quote {
      if |s| > 1 && s[1] == quote {
        body, closed, rest := FindQuote(quote, s[2..]);
        assert s == [quote, quote] + s[2..];
        DoubledSplit(quote, [quote] + body, []);
        assert Doubled(quote, [quote] + body) + [] == Doubled(quote, [quote] + body);
        assert ([quote] + body)[1..] == body;
        body := [quote] + body;
      } else {
        closed, rest := true, s[1..];
        assert s == [quote] + rest;
      }
    } else {
      body, closed, rest := FindQuote(quote, s[1..]);
      assert s == [s[0]] + s[1..];
      DoubledSplit(quote, [s[0]] + body, []);
      assert Doubled(quote, [s[0]] + body) + [] == Doubled(quote, [s[0]] + body);
      assert ([s[0]] + body)[1..] == body;
      body := [s[0]] + body;
    }
  }

  lemma UnclosedFurther(c: char, body: string, closer: string, s: string)
    requires Unclosed(body, closer) && closer != []
    requires body + closer <= s && !StartsWith([c] + s, closer)
    ensures Unclosed([c] + body, closer)
  {
    var longer := [c] + body;
    forall i | 0 <= i < |longer| ensures !StartsWith((longer + closer)[i..], closer) {
      if i > 0 {
        assert (longer + closer)[i..] == (body + closer)[i - 1..];
      } else {
        assert longer + closer == [c] + (body + closer);
        assert (longer + closer)[0..][..|closer|] == ([c] + s)[..|closer|];
      }
    }
  }

  lemma {:induction false} FindCloser(closer: string, s: string) returns (body: string, closed: bool, rest: string)
    requires closer != []
    ensures closed ==> s == body + closer + rest && Unclosed(body, closer)
    ensures !closed ==> s == body && forall i | 0 <= i < |body| :: !StartsWith(body[i..], closer)
    decreases |s|
  {
    body, closed, rest := [], false, [];
    if s == [] {
    } else if StartsWith(s, closer) {
      closed, rest := true, s[|closer|..];
    } else {
      body, closed, rest := FindCloser(closer, s[1..]);
      assert s == [s[0]] + s[1..];
      if closed {
        UnclosedFurther(s[0], body, closer, s[1..]);
      } else {
        forall i | 0 <= i < |s| ensures !StartsWith(s[i..], closer) {
          if i > 0 {
            assert s[i..] == s[1..][i - 1..];
          } else {
            assert s[0..] == s;
          }
        }
      }
      body := [s[0]] + body;
    }
  }

  lemma {:induction false} FindNewline(s: string) returns (body: string, closed: bool, rest: string)
    ensures '\n' !in body
    ensures closed ==> s == body + "\n" + rest
    ensures !closed ==> s == body
    decreases |s|
  {
    body, closed, rest := [], false, [];
    if s == [] {
    } else if s[0] == '\n' {
      closed, rest := true, s[1..];
    } else {
      body, closed, rest := FindNewline(s[1..]);
      body := [s[0]] + body;
    }
  }

  lemma HeadComment(s: string) returns (segment: Segment, rest: string)
    requires Erase(s).Some? && (StartsWith(s, "--") || StartsWith(s, "/*"))
    ensures Fits(segment, rest) && s == Rendered(segment) + rest && |rest| < |s|
  {
    var body, closed;
    assert s == s[..2] + s[2..];
    if StartsWith(s, "--") {
      body, closed, rest := FindNewline(s[2..]);
      segment := if closed then LineComment(body) else OpenLine(body);
    } else {
      body, closed, rest := FindCloser("*/", s[2..]);
      assert body != [] ==> body[0] == s[2];
      segment := if closed then BlockComment(body) else OpenBlock(body);
    }
    if !closed {
      rest := [];
    }
  }

  lemma HeadLiteral(s: string) returns (segment: Segment, rest: string)
    requires s != [] && IsQuote(s[0])
    ensures Fits(segment, rest) && s == Rendered(segment) + rest && |rest| < |s|
  {
    var body, closed;
    assert s == [s[0]] + s[1..];
    body, closed, rest := FindQuote(s[0], s[1..]);
    segment := if closed then Literal(s[0], body) else OpenLiteral(s[0], body);
    if !closed {
      rest := [];
    }
  }

  lemma HeadDollar(s: string) returns (segment: Segment, rest: string)
    requires TagAt(s).Some?
    ensures Fits(segment, rest) && s == Rendered(segment) + rest && |rest| < |s|
  {
    var tag := TagAt(s).value;
    var body, closed;
    assert s == tag + s[|tag|..];
    TagAtIs(s, tag);
    body, closed, rest := FindCloser(tag, s[|tag|..]);
    segment := if closed then DollarQuoted(tag, body) else OpenDollar(tag, body);
    if !closed {
      rest := [];
    }
  }

  lemma Head(s: string) returns (segment: Segment, rest: string)
    requires s != [] && Erase(s).Some?
    ensures Fits(segment, rest) && s == Rendered(segment) + rest && |rest| < |s|
  {
    if StartsWith(s, "--") || StartsWith(s, "/*") {
      segment, rest := HeadComment(s);
    } else if IsQuote(s[0]) {
      segment, rest := HeadLiteral(s);
    } else if TagAt(s).Some? {
      segment, rest := HeadDollar(s);
    } else {
      segment, rest := Plain([s[0]]), s[1..];
      OpensIs(s);
      assert ([s[0]] + rest)[0..] == s;
    }
  }

  /** Every text the lexer does not reject is some list of segments. */
  lemma {:induction false} EveryTextIsSegments(s: string) returns (segments: seq<Segment>)
    requires Erase(s).Some?
    ensures WellFormed(segments) && Render(segments) == s
    decreases |s|
  {
    if s == [] {
      segments := [];
    } else {
      var segment, rest := Head(s);
      ScanSegment(segment, rest);
      var tail := EveryTextIsSegments(rest);
      segments := [segment] + tail;
      assert segments[1..] == tail;
    }
  }

  /** The lexer rejects exactly what is no such list: an executable comment or an
      optimizer hint stands in it. */
  lemma RejectedExactly(s: string)
    ensures Erase(s).Some? <==> exists segments :: WellFormed(segments) && Render(segments) == s
  {
    if Erase(s).Some? {
      var segments := EveryTextIsSegments(s);
      assert WellFormed(segments) && Render(segments) == s;
    }
    if segments :| WellFormed(segments) && Render(segments) == s {
      ErasureIsSegmentwise(segments);
    }
  }

  /** A dollar literal behind any code: its name may be empty, or begins with a letter
      or an underscore and goes on with those or digits; the first occurrence of the
      tag behind its opening ends it. */
  lemma DollarQuoteErases(before: string, name: string, body: string, rest: string)
    requires name != "" ==> 'A' <= name[0] <= 'Z' || 'a' <= name[0] <= 'z' || name[0] == '_'
    requires forall c | c in name :: 'A' <= c <= 'Z' || 'a' <= c <= 'z' || c == '_' || '0' <= c <= '9'
    requires var tag := "$" + name + "$"; forall i | 0 <= i < |body| :: !(tag <= (body + tag)[i..])
    requires var tag := "$" + name + "$"; var behind := tag + body + tag + rest;
             forall i | 0 <= i < |before| :: !Opens((before + behind)[i..])
    ensures var tag := "$" + name + "$";
            Erase(before + (tag + body + tag + rest)) == Then(before + " ", Erase(rest))
  {
    var tag := "$" + name + "$";
    forall i | 0 < i < |tag| - 1 ensures tag[i] in name {
      assert tag[i] == name[i - 1];
    }
    assert |tag| > 2 ==> tag[1] == name[0];
    assert IsTag(tag);
    var literal := DollarQuoted(tag, body);
    ScanPlain(before, tag + body + tag + rest);
    ScanSegment(literal, rest);
    assert Rendered(literal) + rest == tag + body + tag + rest;
    ThenThen(before, " ", Scan(Code, rest));
  }

  /** A dollar sign that begins no tag is code. */
  lemma LoneDollarIsKept(rest: string)
    requires forall tag | IsTag(tag) :: !(tag <= "$" + rest)
    ensures Erase("$" + rest) == Then("$", Erase(rest))
  {
    var s := "$" + rest;
    assert s[0] == '$' && s[0..] == s;
    assert !Opens(s);
    assert Fits(Plain("$"), rest);
    ScanPlain("$", rest);
  }
}
