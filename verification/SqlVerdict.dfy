/**
  Structural safety of governed SQL: what is submitted is normalised, stripped
  of its terminator, erased, and judged by what is left. What stands inside
  literals and ordinary comments has no say in it.
*/
module SqlVerdict {
  import opened Base
  import opened SqlErasure
  import opened SqlSegments

  // ---------------------------------------------------------------------
  // Normalising

  predicate Blank(c: char) {
    c == ' ' || c == '\t' || c == '\n' || c == '\r' || c == '\0' || c == 11 as char
  }

  /** Line ends of either kind become newlines. */
  function Newlines(s: string): string {
    if s == [] then []
    else if StartsWith(s, "\r\n") then "\n" + Newlines(s[2..])
    else (if s[0] == '\r' then "\n" else [s[0]]) + Newlines(s[1..])
  }

  function LTrim(s: string): (r: string)
    ensures r != [] ==> !Blank(r[0])
  {
    if s != [] && Blank(s[0]) then LTrim(s[1..]) else s
  }

  function RTrim(s: string): (r: string)
    ensures r <= s
  {
    if s != [] && Blank(s[|s| - 1]) then RTrim(s[..|s| - 1]) else s
  }

  function Normalize(sql: string): string {
    RTrim(LTrim(Newlines(sql)))
  }

  predicate Strippable(c: char) {
    Blank(c) || c == ';'
  }

  /** Without the blanks and terminators at its end. */
  function StripTail(s: string): (r: string)
    ensures r <= s
    ensures r != [] ==> !Strippable(r[|r| - 1])
  {
    if s != [] && Strippable(s[|s| - 1]) then StripTail(s[..|s| - 1]) else s
  }

  lemma {:induction false} StripTrimmed(s: string)
    ensures StripTail(RTrim(s)) == StripTail(s)
    decreases |s|
  {
    if s != [] && Blank(s[|s| - 1]) {
      StripTrimmed(s[..|s| - 1]);
    }
  }

  // What normalising is, character by character.

  predicate IsBlank(c: char) {
    c == ' ' || c == '\t' || c == '\n' || c == '\r' || c == '\0' || c == '\U{000B}'
  }

  /** A carriage return becomes a newline, and a newline behind one is dropped. */
  function UnixLines(s: string): string {
    if s == [] then []
    else
      var init, last := s[..|s| - 1], s[|s| - 1];
      if last == '\n' && init != [] && init[|init| - 1] == '\r' then UnixLines(init)
      else UnixLines(init) + [Unix(last)]
  }

  /** A middle part, with only blanks around it and none at its ends. */
  ghost predicate IsTrimmed(s: string, r: string) {
    && (exists i: nat, j: nat :: IsMiddle(s, i, j, r))
    && (r != [] ==> !IsBlank(r[0]) && !IsBlank(r[|r| - 1]))
  }

  ghost predicate IsMiddle(s: string, i: nat, j: nat, r: string) {
    && i <= j <= |s| && r == s[i..j]
    && (forall k | 0 <= k < i :: IsBlank(s[k])) && (forall k | j <= k < |s| :: IsBlank(s[k]))
  }

  lemma CrLf(s: string)
    ensures StartsWith(s, "\r\n") <==> |s| >= 2 && s[0] == '\r' && s[1] == '\n'
  {
    if |s| >= 2 {
      assert s[..2] == [s[0], s[1]];
    }
  }

  function Unix(c: char): char {
    if c == '\r' then '\n' else c
  }

  lemma NewlinesHead(s: string)
    requires s != []
    ensures |s| >= 2 && s[0] == '\r' && s[1] == '\n' ==> Newlines(s) == ['\n'] + Newlines(s[2..])
    ensures !(|s| >= 2 && s[0] == '\r' && s[1] == '\n') ==> Newlines(s) == [Unix(s[0])] + Newlines(s[1..])
  {
    CrLf(s);
  }

  lemma {:induction false} NewlinesAppend(s: string, c: char)
    ensures Newlines(s + [c])
         == if c == '\n' && s != [] && s[|s| - 1] == '\r' then Newlines(s) else Newlines(s) + [Unix(c)]
    decreases |s|
  {
    var t := s + [c];
    NewlinesHead(t);
    if s == [] {
      assert t[1..] == [];
    } else {
      NewlinesHead(s);
      if |s| >= 2 && s[0] == '\r' && s[1] == '\n' {
        assert t[2..] == s[2..] + [c];
        NewlinesAppend(s[2..], c);
      } else if |s| == 1 && s[0] == '\r' && c == '\n' {
        assert t[2..] == [] && s[1..] == [];
      } else {
        assert t[1..] == s[1..] + [c];
        NewlinesAppend(s[1..], c);
      }
    }
  }

  lemma {:induction false} NewlinesAreUnix(s: string)
    ensures Newlines(s) == UnixLines(s)
    decreases |s|
  {
    if s != [] {
      NewlinesAreUnix(s[..|s| - 1]);
      assert s == s[..|s| - 1] + [s[|s| - 1]];
      NewlinesAppend(s[..|s| - 1], s[|s| - 1]);
    }
  }

  lemma {:induction false} LTrimDropsBlanks(s: string)
    ensures |LTrim(s)| <= |s| && LTrim(s) == s[|s| - |LTrim(s)|..]
    ensures forall k | 0 <= k < |s| - |LTrim(s)| :: IsBlank(s[k])
    decreases |s|
  {
    if s != [] && Blank(s[0]) {
      LTrimDropsBlanks(s[1..]);
      forall k | 0 <= k < |s| - |LTrim(s)| ensures IsBlank(s[k]) {
        assert k > 0 ==> s[k] == s[1..][k - 1];
      }
    }
  }

  lemma {:induction false} RTrimDropsBlanks(s: string)
    ensures forall k | |RTrim(s)| <= k < |s| :: IsBlank(s[k])
    ensures RTrim(s) != [] ==> !IsBlank(RTrim(s)[|RTrim(s)| - 1])
    decreases |s|
  {
    if s != [] && Blank(s[|s| - 1]) {
      RTrimDropsBlanks(s[..|s| - 1]);
      forall k | |RTrim(s)| <= k < |s| ensures IsBlank(s[k]) {
        assert k < |s| - 1 ==> s[k] == s[..|s| - 1][k];
      }
    }
  }

  /** `normalize`: the text with newlines for all line ends, trimmed. */
  lemma NormalizeIs(sql: string)
    ensures IsTrimmed(UnixLines(sql), Normalize(sql))
  {
    NewlinesAreUnix(sql);
    TrimIs(UnixLines(sql));
  }

  lemma TrimIs(s: string)
    ensures IsTrimmed(s, RTrim(LTrim(s)))
  {
    var l := LTrim(s);
    var r := RTrim(l);
    LTrimDropsBlanks(s);
    RTrimDropsBlanks(l);
    MiddleIs(s, l, r);
    assert r != [] ==> r[0] == l[0];
  }

  lemma MiddleIs(s: string, l: string, r: string)
    requires |l| <= |s| && l == s[|s| - |l|..] && r <= l
    requires forall k | 0 <= k < |s| - |l| :: IsBlank(s[k])
    requires forall k | |r| <= k < |l| :: IsBlank(l[k])
    ensures IsMiddle(s, |s| - |l|, |s| - |l| + |r|, r)
  {
    var i := |s| - |l|;
    assert r == l[..|r|] == s[i..i + |r|];
    forall k | i + |r| <= k < |s| ensures IsBlank(s[k]) {
      assert s[k] == l[k - i];
    }
  }

  lemma {:induction false} StripTailDrops(s: string)
    ensures forall k | |StripTail(s)| <= k < |s| :: IsBlank(s[k]) || s[k] == ';'
    ensures StripTail(s) != [] ==> !IsBlank(StripTail(s)[|StripTail(s)| - 1]) && StripTail(s)[|StripTail(s)| - 1] != ';'
    decreases |s|
  {
    if s != [] && Strippable(s[|s| - 1]) {
      StripTailDrops(s[..|s| - 1]);
      forall k | |StripTail(s)| <= k < |s| ensures IsBlank(s[k]) || s[k] == ';' {
        assert k < |s| - 1 ==> s[k] == s[..|s| - 1][k];
      }
    }
  }

  /** `stripTrailingTerminator`: what is left ends in neither a blank nor a
      semicolon, and only those were dropped. */
  method StripTrailingTerminator(sql: string) returns (statement: string)
    ensures statement == StripTail(sql)
    ensures statement <= sql && forall k | |statement| <= k < |sql| :: IsBlank(sql[k]) || sql[k] == ';'
    ensures statement != [] ==> !IsBlank(statement[|statement| - 1]) && statement[|statement| - 1] != ';'
  {
    StripTailDrops(sql);
    statement := RTrim(sql);
    StripTrimmed(sql);
    RTrimEnds(sql);
    while statement != [] && statement[|statement| - 1] == ';'
      invariant StripTail(statement) == StripTail(sql)
      invariant statement != [] ==> !Blank(statement[|statement| - 1])
      decreases |statement|
    {
      var shorter := statement[..|statement| - 1];
      StripTrimmed(shorter);
      RTrimEnds(shorter);
      statement := RTrim(shorter);
    }
  }

  lemma {:induction false} RTrimEnds(s: string)
    ensures RTrim(s) != [] ==> !Blank(RTrim(s)[|RTrim(s)| - 1])
    decreases |s|
  {
    if s != [] && Blank(s[|s| - 1]) {
      RTrimEnds(s[..|s| - 1]);
    }
  }

  // ---------------------------------------------------------------------
  // The verdict

  /** Statement families are read off the erased text as well, so equal verdicts
      come with equal families. */
  datatype Verdict = Empty | Hints | SeveralStatements | Blocked | Accepted(executable: string)

  /** `validateStructuralSafety`. The keyword patterns are one predicate on the
      erased text. */
  function Judge(sql: string, blocked: string -> bool): Verdict {
    if Normalize(sql) == [] then Empty
    else
      match Erase(StripTail(Normalize(sql)))
      case None => Hints
      case Some(executable) =>
        if ';' in executable then SeveralStatements
        else if blocked(executable) then Blocked
        else Accepted(executable)
  }

  lemma {:induction false} UnixLinesOfBlanks(s: string)
    ensures (forall c | c in s :: IsBlank(c)) <==> (forall c | c in UnixLines(s) :: IsBlank(c))
    decreases |s|
  {
    if s != [] {
      var init, last := s[..|s| - 1], s[|s| - 1];
      UnixLinesOfBlanks(init);
      assert s == init + [last];
      assert forall c :: c in s <==> c in init || c == last;
      assert last == '\r' || last == '\n' ==> IsBlank(last);
    }
  }

  lemma EmptyIsBlank(sql: string)
    ensures Normalize(sql) == [] <==> forall c | c in sql :: IsBlank(c)
  {
    NormalizeIs(sql);
    UnixLinesOfBlanks(sql);
    var s, r := UnixLines(sql), Normalize(sql);
    var i: nat, j: nat :| IsMiddle(s, i, j, r);
    if r == [] {
      forall c | c in s ensures IsBlank(c) {
        var k :| 0 <= k < |s| && s[k] == c;
        assert k < i || j <= k;
      }
    } else {
      assert r[0] == s[i];
      assert s[i] in s;
    }
  }

  /** The checks in their order: something has to be there, no hint, no second
      statement, no blocked keyword. */
  method ValidateStructuralSafety(sql: string, blocked: string -> bool) returns (verdict: Verdict)
    ensures verdict == Judge(sql, blocked)
    ensures verdict == Empty <==> forall c | c in sql :: IsBlank(c)
    ensures var erased := Erase(StripTail(Normalize(sql)));
            verdict != Empty ==>
              && (verdict == Hints <==> erased.None?)
              && (verdict == SeveralStatements <==> erased.Some? && ';' in erased.value)
              && (verdict == Blocked <==> erased.Some? && ';' !in erased.value && blocked(erased.value))
              && (verdict.Accepted? <==> erased.Some? && ';' !in erased.value && !blocked(erased.value))
              && (verdict.Accepted? ==> verdict.executable == erased.value)
  {
    EmptyIsBlank(sql);
    var normalized := Normalize(sql);
    if normalized == [] {
      return Empty;
    }
    var statement := StripTrailingTerminator(normalized);
    var executable := ExecutableSql(statement);
    if executable.None? {
      return Hints;
    }
    if ';' in executable.value {
      return SeveralStatements;
    }
    if blocked(executable.value) {
      return Blocked;
    }
    verdict := Accepted(executable.value);
  }

  // ---------------------------------------------------------------------
  // Trimming segments

  lemma {:induction false} LTrimConcat(a: string, b: string)
    ensures LTrim(a + b) == if LTrim(a) == [] then LTrim(b) else LTrim(a) + b
    decreases |a|
  {
    if a == [] {
      assert a + b == b;
    } else if Blank(a[0]) {
      assert (a + b)[1..] == a[1..] + b;
      LTrimConcat(a[1..], b);
    }
  }

  lemma {:induction false} StripConcat(a: string, b: string)
    ensures StripTail(a + b) == if StripTail(b) == [] then StripTail(a) else a + StripTail(b)
    decreases |b|
  {
    if b == [] {
      assert a + b == a;
    } else {
      assert (a + b)[|a + b| - 1] == b[|b| - 1];
      if Strippable(b[|b| - 1]) {
        assert (a + b)[..|a + b| - 1] == a + b[..|b| - 1];
        StripConcat(a, b[..|b| - 1]);
      }
    }
  }

  function TrimLeft(segments: seq<Segment>): seq<Segment> {
    if segments == [] || !segments[0].Plain? then segments
    else if LTrim(segments[0].text) == [] then TrimLeft(segments[1..])
    else [Plain(LTrim(segments[0].text))] + segments[1..]
  }

  /** What stripping leaves of the last segment. A line comment loses its line
      end, and with it some of its body. */
  function StripLast(segment: Segment): seq<Segment> {
    match segment
    case Plain(text) => if StripTail(text) == [] then [] else [Plain(StripTail(text))]
    case LineComment(body) => [OpenLine(StripTail(body))]
    case OpenLine(body) => [OpenLine(StripTail(body))]
    case OpenBlock(body) => [OpenBlock(StripTail(body))]
    case OpenDollar(tag, body) => [OpenDollar(tag, StripTail(body))]
    case OpenLiteral(quote, body) => [OpenLiteral(quote, StripTail(body))]
    case _ => [segment]
  }

  function StripRight(segments: seq<Segment>): seq<Segment> {
    if segments == [] then []
    else
      var tail := StripRight(segments[1..]);
      if tail == [] then StripLast(segments[0]) else [segments[0]] + tail
  }

  lemma TagEnds(tag: string)
    requires IsTag(tag)
    ensures tag[0] == '$' && tag[|tag| - 1] == '$'
  {
  }

  /** No segment but code begins with a blank. */
  lemma OpenerIsNoBlank(segment: Segment, rest: string)
    requires !segment.Plain? && Fits(segment, rest)
    ensures Opener(segment) != [] && !Blank(Opener(segment)[0])
    ensures !Strippable(Opener(segment)[|Opener(segment)| - 1])
  {
    if segment.DollarQuoted? || segment.OpenDollar? {
      TagEnds(segment.tag);
    }
  }

  lemma LTrimStops(s: string)
    requires s != [] && !Blank(s[0])
    ensures LTrim(s) == s
  {
  }

  lemma RenderCons(segment: Segment, tail: seq<Segment>)
    ensures Render([segment] + tail) == Rendered(segment) + Render(tail)
  {
    assert ([segment] + tail)[1..] == tail;
  }

  lemma {:induction false} LTrimIsSuffix(s: string)
    ensures |LTrim(s)| <= |s| && s[|s| - |LTrim(s)|..] == LTrim(s)
    decreases |s|
  {
    if s != [] && Blank(s[0]) {
      LTrimIsSuffix(s[1..]);
    }
  }

  lemma FitsTrimmed(text: string, rest: string)
    requires Fits(Plain(text), rest)
    ensures Fits(Plain(LTrim(text)), rest)
  {
    LTrimIsSuffix(text);
    var k := |text| - |LTrim(text)|;
    forall i | 0 <= i < |LTrim(text)| ensures !Opens((LTrim(text) + rest)[i..]) {
      assert (LTrim(text) + rest)[i..] == (text + rest)[k + i..];
    }
  }

  lemma TrimHeadRenders(text: string, tail: seq<Segment>)
    requires WellFormed([Plain(text)] + tail) && LTrim(text) != []
    ensures WellFormed([Plain(LTrim(text))] + tail)
    ensures Render([Plain(LTrim(text))] + tail) == LTrim(text) + Render(tail)
  {
    var trimmed := Plain(LTrim(text));
    assert ([Plain(text)] + tail)[1..] == tail && ([trimmed] + tail)[1..] == tail;
    FitsTrimmed(text, Render(tail));
    RenderCons(trimmed, tail);
    assert Rendered(trimmed) == LTrim(text);
  }

  lemma UntrimmedRenders(segments: seq<Segment>)
    requires WellFormed(segments) && segments != [] && !segments[0].Plain?
    ensures LTrim(Render(segments)) == Render(segments)
  {
    OpenerIsNoBlank(segments[0], Render(segments[1..]));
    LTrimStops(Render(segments));
  }

  lemma {:induction false} TrimLeftRenders(segments: seq<Segment>)
    requires WellFormed(segments)
    ensures WellFormed(TrimLeft(segments)) && Render(TrimLeft(segments)) == LTrim(Render(segments))
    decreases |segments|
  {
    if segments == [] {
    } else if !segments[0].Plain? {
      UntrimmedRenders(segments);
    } else {
      var text, tail := segments[0].text, segments[1..];
      assert segments == [Plain(text)] + tail && Rendered(segments[0]) == text;
      LTrimConcat(text, Render(tail));
      if LTrim(text) == [] {
        TrimLeftRenders(tail);
      } else {
        TrimHeadRenders(text, tail);
      }
    }
  }

  // ---------------------------------------------------------------------
  // Stripping segments

  /** What does not open keeps not opening when the text is cut short. */
  lemma OpensInLonger(s: string, t: string)
    requires s <= t && Opens(s)
    ensures Opens(t)
  {
    if BeginsTag(s) {
      var tag :| IsTag(tag) && tag <= s;
      assert tag <= t;
    } else if s != [] && IsQuote(s[0]) {
      assert t[0] == s[0];
    } else {
      assert t[..2] == s[..2];
    }
  }

  lemma PlainCut(text: string, rest: string, shorter: string)
    requires Fits(Plain(text), rest) && shorter <= text + rest
    ensures forall i | 0 <= i < |text| && i < |shorter| :: !Opens(shorter[i..])
  {
    forall i | 0 <= i < |text| && i < |shorter| ensures !Opens(shorter[i..]) {
      assert shorter[i..] <= (text + rest)[i..];
      if Opens(shorter[i..]) {
        OpensInLonger(shorter[i..], (text + rest)[i..]);
      }
    }
  }

  lemma FitsCut(segment: Segment, rest: string, shorter: string)
    requires Fits(segment, rest) && shorter <= rest
    ensures Fits(segment, shorter)
  {
    if segment.Plain? {
      PlainCut(segment.text, rest, segment.text + shorter);
    }
  }

  /** Quotes are not stripped, so stripping and doubling them commute. */
  lemma {:induction false} DoubledConcat(quote: char, a: string, b: string)
    ensures Doubled(quote, a + b) == Doubled(quote, a) + Doubled(quote, b)
    decreases |a|
  {
    if a == [] {
      assert a + b == b;
    } else {
      assert (a + b)[1..] == a[1..] + b;
      DoubledConcat(quote, a[1..], b);
    }
  }

  lemma {:induction false} StripDoubled(quote: char, body: string)
    requires IsQuote(quote)
    ensures StripTail(Doubled(quote, body)) == Doubled(quote, StripTail(body))
    decreases |body|
  {
    if body != [] {
      var init, last := body[..|body| - 1], body[|body| - 1];
      assert body == init + [last];
      DoubledConcat(quote, init, [last]);
      if Strippable(last) {
        assert Doubled(quote, [last]) == [last];
        StripConcat(Doubled(quote, init), [last]);
        StripDoubled(quote, init);
      } else {
        assert Doubled(quote, [last]) == if last == quote then [quote, quote] else [last];
        StripConcat(Doubled(quote, init), Doubled(quote, [last]));
        assert Doubled(quote, body) == Doubled(quote, init) + Doubled(quote, [last]);
      }
    }
  }

  lemma StripStops(s: string)
    requires s != [] && !Strippable(s[|s| - 1])
    ensures StripTail(s) == s
  {
  }

  lemma StripAfter(opener: string, inside: string)
    requires opener != [] && !Strippable(opener[|opener| - 1])
    ensures StripTail(opener + inside) == opener + StripTail(inside)
  {
    StripConcat(opener, inside);
    assert opener + [] == opener;
  }

  lemma OpenBodyCut(body: string, closer: string)
    requires forall i | 0 <= i < |body| :: !StartsWith(body[i..], closer)
    ensures forall i | 0 <= i < |StripTail(body)| :: !StartsWith(StripTail(body)[i..], closer)
  {
    forall i | 0 <= i < |StripTail(body)| ensures !StartsWith(StripTail(body)[i..], closer) {
      assert StripTail(body)[i..] <= body[i..];
    }
  }

  lemma StripLastFits(segment: Segment, rest: string)
    requires Fits(segment, rest)
    ensures forall last | last in StripLast(segment) :: Fits(last, "")
  {
    match segment
    case Plain(text) => PlainCut(text, rest, StripTail(text) + "");
    case OpenBlock(body) =>
      OpenBodyCut(body, "*/");
      assert StripTail(body) != [] ==> StripTail(body)[0] == body[0];
    case OpenDollar(tag, body) => OpenBodyCut(body, tag);
    case _ =>
  }

  lemma RenderOne(segment: Segment)
    ensures Render([segment]) == Rendered(segment)
  {
    assert Render([segment][1..]) == [];
  }

  lemma StripOpenRenders(segment: Segment, rest: string)
    requires Fits(segment, rest) && IsOpen(segment)
    ensures Render(StripLast(segment)) == StripTail(Rendered(segment))
  {
    OpenerIsNoBlank(segment, rest);
    var last := StripLast(segment)[0];
    RenderOne(last);
    StripAfter(Opener(segment), Inside(segment));
    assert Rendered(segment) == Opener(segment) + Inside(segment);
    assert Rendered(last) == Opener(last) + Inside(last);
    if segment.OpenLiteral? {
      StripDoubled(segment.quote, segment.body);
    }
  }

  lemma StripLastRenders(segment: Segment, rest: string)
    requires Fits(segment, rest)
    ensures Render(StripLast(segment)) == StripTail(Rendered(segment))
  {
    if segment.Plain? {
      assert Rendered(segment) == segment.text;
      RenderOne(Plain(StripTail(segment.text)));
      assert Rendered(Plain(StripTail(segment.text))) == StripTail(segment.text);
    } else if IsOpen(segment) {
      StripOpenRenders(segment, rest);
    } else {
      OpenerIsNoBlank(segment, rest);
      RenderOne(StripLast(segment)[0]);
      if segment.LineComment? {
        StripConcat("--" + segment.body, "\n");
        StripAfter("--", segment.body);
      } else {
        if segment.DollarQuoted? {
          TagEnds(segment.tag);
        }
        StripStops(Rendered(segment));
      }
    }
  }

  lemma StripLastWellFormed(segment: Segment, rest: string)
    requires Fits(segment, rest)
    ensures WellFormed(StripLast(segment))
    ensures Render(StripLast(segment)) == [] ==> StripLast(segment) == []
  {
    var stripped := StripLast(segment);
    if stripped != [] {
      StripLastFits(segment, rest);
      var last := stripped[0];
      assert last in stripped && stripped == [last] && stripped[1..] == [];
      RenderOne(last);
      if !last.Plain? {
        OpenerIsNoBlank(last, "");
      }
    }
  }

  lemma StripBefore(head: Segment, rest: string, tail: seq<Segment>)
    requires Fits(head, rest) && WellFormed(tail) && Render(tail) <= rest
    ensures WellFormed([head] + tail) && Render([head] + tail) == Rendered(head) + Render(tail)
  {
    FitsCut(head, rest, Render(tail));
    RenderCons(head, tail);
    assert ([head] + tail)[1..] == tail;
  }

  lemma {:induction false} StripRightRenders(segments: seq<Segment>)
    requires WellFormed(segments)
    ensures WellFormed(StripRight(segments)) && Render(StripRight(segments)) == StripTail(Render(segments))
    ensures Render(StripRight(segments)) == [] ==> StripRight(segments) == []
    decreases |segments|
  {
    if segments != [] {
      var head, rest := segments[0], Render(segments[1..]);
      var tail := StripRight(segments[1..]);
      StripRightRenders(segments[1..]);
      StripConcat(Rendered(head), rest);
      if tail == [] {
        StripLastRenders(head, rest);
        StripLastWellFormed(head, rest);
      } else {
        StripBefore(head, rest, tail);
      }
    }
  }

  // ---------------------------------------------------------------------
  // Literals and comments have no say

  /** The same code, and literals and comments of the same kinds around it. */
  predicate SameKind(a: Segment, b: Segment) {
    match a
    case Plain(text) => b == Plain(text)
    case Literal(quote, _) => b.Literal? && b.quote == quote
    case DollarQuoted(_, _) => b.DollarQuoted?
    case LineComment(_) => b.LineComment?
    case BlockComment(_) => b.BlockComment?
    case OpenLiteral(quote, _) => b.OpenLiteral? && b.quote == quote
    case OpenDollar(_, _) => b.OpenDollar?
    case OpenLine(_) => b.OpenLine?
    case OpenBlock(_) => b.OpenBlock?
  }

  predicate SameShape(a: seq<Segment>, b: seq<Segment>) {
    if a == [] || b == [] then a == b else SameKind(a[0], b[0]) && SameShape(a[1..], b[1..])
  }

  lemma {:induction false} SameShapeErases(a: seq<Segment>, b: seq<Segment>)
    requires SameShape(a, b)
    ensures ErasedAll(a) == ErasedAll(b)
    decreases |a|
  {
    if a != [] && b != [] {
      SameShapeErases(a[1..], b[1..]);
    }
  }

  lemma {:induction false} SameShapeTrims(a: seq<Segment>, b: seq<Segment>)
    requires SameShape(a, b)
    ensures SameShape(TrimLeft(a), TrimLeft(b))
    decreases |a|
  {
    if a != [] && b != [] && a[0].Plain? {
      if LTrim(a[0].text) == [] {
        SameShapeTrims(a[1..], b[1..]);
      } else {
        var trimmed := Plain(LTrim(a[0].text));
        assert ([trimmed] + a[1..])[1..] == a[1..] && ([trimmed] + b[1..])[1..] == b[1..];
      }
    }
  }

  lemma {:induction false} SameShapeStrips(a: seq<Segment>, b: seq<Segment>)
    requires SameShape(a, b)
    ensures SameShape(StripRight(a), StripRight(b))
    decreases |a|
  {
    if a != [] && b != [] {
      SameShapeStrips(a[1..], b[1..]);
      var s, t := StripRight(a[1..]), StripRight(b[1..]);
      if s == [] {
        assert StripLast(a[0]) != [] ==> StripLast(a[0])[1..] == [] == StripLast(b[0])[1..];
      } else {
        assert ([a[0]] + s)[1..] == s && ([b[0]] + t)[1..] == t;
      }
    }
  }

  lemma {:induction false} RTrimEmpty(s: string)
    requires s == [] || !Blank(s[0])
    ensures RTrim(s) == [] <==> s == []
    decreases |s|
  {
    if s != [] && Blank(s[|s| - 1]) {
      assert s[..|s| - 1][0] == s[0];
      RTrimEmpty(s[..|s| - 1]);
    }
  }

  /** The verdict on a text, from the segments of what its line ends make of
      it. */
  lemma JudgeSegments(sql: string, segments: seq<Segment>, blocked: string -> bool)
    requires WellFormed(segments) && Newlines(sql) == Render(segments)
    ensures var trimmed := TrimLeft(segments);
            var executable := ErasedAll(StripRight(trimmed));
            (Judge(sql, blocked)
             == if Render(trimmed) == [] then Empty
                else if ';' in executable then SeveralStatements
                else if blocked(executable) then Blocked
                else Accepted(executable))
  {
    var normalized := Render(segments);
    var trimmed := TrimLeft(segments);
    TrimLeftRenders(segments);
    RTrimEmpty(LTrim(normalized));
    StripTrimmed(LTrim(normalized));
    StripRightRenders(trimmed);
    ErasureIsSegmentwise(StripRight(trimmed));
  }

  lemma SameShapeEmpty(a: seq<Segment>, b: seq<Segment>)
    requires SameShape(a, b) && WellFormed(a) && WellFormed(b)
    ensures Render(TrimLeft(a)) == [] <==> Render(TrimLeft(b)) == []
  {
    TrimmedIsEmpty(a);
    TrimmedIsEmpty(b);
    SameShapeTrims(a, b);
  }

  lemma {:induction false} TrimmedIsEmpty(segments: seq<Segment>)
    requires WellFormed(segments)
    ensures Render(TrimLeft(segments)) == [] <==> TrimLeft(segments) == []
    decreases |segments|
  {
    if segments != [] {
      var head := segments[0];
      if !head.Plain? {
        OpenerIsNoBlank(head, Render(segments[1..]));
      } else if LTrim(head.text) == [] {
        TrimmedIsEmpty(segments[1..]);
      } else {
        RenderCons(Plain(LTrim(head.text)), segments[1..]);
      }
    }
  }

  /** Whatever stands inside literals and ordinary comments, the verdict, and
      with it the erased text that statement families are read off, is the
      same. */
  lemma LiteralsHaveNoSay(x: string, a: seq<Segment>, y: string, b: seq<Segment>, blocked: string -> bool)
    requires WellFormed(a) && WellFormed(b) && SameShape(a, b)
    requires Newlines(x) == Render(a) && Newlines(y) == Render(b)
    ensures Judge(x, blocked) == Judge(y, blocked)
  {
    JudgeSegments(x, a, blocked);
    JudgeSegments(y, b, blocked);
    SameShapeEmpty(a, b);
    SameShapeTrims(a, b);
    SameShapeStrips(TrimLeft(a), TrimLeft(b));
    SameShapeErases(StripRight(TrimLeft(a)), StripRight(TrimLeft(b)));
  }

  lemma {:induction false} CodeOfErased(segments: seq<Segment>, i: nat, c: char)
    requires i < |segments| && segments[i].Plain? && c in segments[i].text
    ensures c in ErasedAll(segments)
    decreases i
  {
    if i > 0 {
      CodeOfErased(segments[1..], i - 1, c);
    }
  }

  /** What is accepted is one statement: every terminator left stands inside a
      literal or a comment. */
  lemma AcceptedIsOneStatement(sql: string, segments: seq<Segment>, blocked: string -> bool, i: nat)
    requires WellFormed(segments) && Newlines(sql) == Render(segments) && Judge(sql, blocked).Accepted?
    requires i < |StripRight(TrimLeft(segments))| && StripRight(TrimLeft(segments))[i].Plain?
    ensures ';' !in StripRight(TrimLeft(segments))[i].text
  {
    JudgeSegments(sql, segments, blocked);
    if ';' in StripRight(TrimLeft(segments))[i].text {
      CodeOfErased(StripRight(TrimLeft(segments)), i, ';');
    }
  }
}
