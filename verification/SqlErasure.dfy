/**
  The lexer that erases literals and comments before governed SQL is judged.
*/
module SqlErasure {
  import opened Base

  // ---------------------------------------------------------------------
  // The scan

  datatype Mode = Code | Line | Block | Single | Double | Dollar(tag: string)

  function StartsWith(s: string, t: string): (r: bool)
    ensures r <==> t <= s
  {
    |t| <= |s| && s[..|t|] == t
  }

  predicate IsLetter(c: char) {
    'a' <= c <= 'z' || 'A' <= c <= 'Z' || c == '_'
  }

  predicate IsWordChar(c: char) {
    IsLetter(c) || '0' <= c <= '9'
  }

  /** How many word characters s starts with. */
  function WordLength(s: string): (n: nat)
    ensures n <= |s| && forall i | 0 <= i < n :: IsWordChar(s[i])
    ensures n < |s| ==> !IsWordChar(s[n])
  {
    if s == [] || !IsWordChar(s[0]) then 0 else 1 + WordLength(s[1..])
  }

  /** `$name$` or `$$` at the head of s. */
  function TagAt(s: string): (tag: Option<string>)
    ensures tag.Some? ==> tag.value <= s && |tag.value| >= 2
  {
    if s == [] || s[0] != '$' then None
    else
      var n := WordLength(s[1..]);
      if n < |s| - 1 && s[1 + n] == '$' && (n == 0 || IsLetter(s[1])) then Some(s[..n + 2]) else None
  }

  /** Nothing when the text holds an executable comment or an optimizer hint. */
  function Scan(mode: Mode, s: string): Option<string>
    decreases |s|
  {
    if s == [] then Some([])
    else
      match mode
      case Line => if s[0] == '\n' then Then("\n", Scan(Code, s[1..])) else Scan(Line, s[1..])
      case Block => if StartsWith(s, "*/") then Scan(Code, s[2..]) else Scan(Block, s[1..])
      case Dollar(tag) =>
        if StartsWith(s, tag) && tag != [] then Scan(Code, s[|tag|..]) else Scan(mode, s[1..])
      case Single =>
        if StartsWith(s, "''") then Scan(Single, s[2..])
        else if s[0] == '\'' then Scan(Code, s[1..])
        else Scan(Single, s[1..])
      case Double =>
        if StartsWith(s, "\"\"") then Scan(Double, s[2..])
        else if s[0] == '"' then Scan(Code, s[1..])
        else Scan(Double, s[1..])
      case Code =>
        if StartsWith(s, "--") then Then(" ", Scan(Line, s[2..]))
        else if StartsWith(s, "/*") then
          if |s| > 2 && s[2] in {'!', '+'} then None else Then(" ", Scan(Block, s[2..]))
        else if s[0] == '\'' then Then(" ", Scan(Single, s[1..]))
        else if s[0] == '"' then Then(" ", Scan(Double, s[1..]))
        else
          match TagAt(s)
          case Some(tag) => Then(" ", Scan(Dollar(tag), s[|tag|..]))
          case None => Then([s[0]], Scan(Code, s[1..]))
  }

  function Then(head: string, tail: Option<string>): Option<string> {
    if head == [] then tail else if tail.Some? then Some(head + tail.value) else None
  }

  function Erase(sql: string): Option<string> {
    Scan(Code, sql)
  }

  lemma ThenThen(a: string, b: string, tail: Option<string>)
    ensures Then(a, Then(b, tail)) == Then(a + b, tail)
  {
    if tail.Some? {
      assert a + (b + tail.value) == (a + b) + tail.value;
    }
    assert a + [] == a && [] + b == b;
  }

  /** One turn of the scanning loop: the next mode, how much it consumes and
      what it emits, or a rejection. */
  datatype Turn = Turn(mode: Mode, width: nat, emitted: string) | Rejected

  function TurnAt(mode: Mode, s: string): (turn: Turn)
    requires s != []
    ensures turn.Turn? ==> 0 < turn.width <= |s|
    ensures Scan(mode, s) == if turn.Rejected? then None else Then(turn.emitted, Scan(turn.mode, s[turn.width..]))
  {
    match mode
    case Line => if s[0] == '\n' then Turn(Code, 1, "\n") else Turn(Line, 1, "")
    case Block => if StartsWith(s, "*/") then Turn(Code, 2, "") else Turn(Block, 1, "")
    case Dollar(tag) => if StartsWith(s, tag) && tag != [] then Turn(Code, |tag|, "") else Turn(mode, 1, "")
    case Single =>
      if StartsWith(s, "''") then Turn(Single, 2, "")
      else Turn(if s[0] == '\'' then Code else Single, 1, "")
    case Double =>
      if StartsWith(s, "\"\"") then Turn(Double, 2, "")
      else Turn(if s[0] == '"' then Code else Double, 1, "")
    case Code =>
      if StartsWith(s, "--") then Turn(Line, 2, " ")
      else if StartsWith(s, "/*") then
        if |s| > 2 && s[2] in {'!', '+'} then Rejected else Turn(Block, 2, " ")
      else if s[0] == '\'' then Turn(Single, 1, " ")
      else if s[0] == '"' then Turn(Double, 1, " ")
      else
        match TagAt(s)
        case Some(tag) => Turn(Dollar(tag), |tag|, " ")
        case None => Turn(Code, 1, [s[0]])
  }

  /** `executableSql`: one pass over the text, with the mode it is in. */
  method ExecutableSql(sql: string) returns (r: Option<string>)
    ensures r == Erase(sql)
  {
    var executable := "";
    var mode := Code;
    var index := 0;
    assert sql[0..] == sql;
    while index < |sql|
      invariant index <= |sql| && Erased(sql, executable, mode, index)
    {
      OneTurn(sql, executable, mode, index);
      var turn := TurnAt(mode, sql[index..]);
      if turn.Rejected? {
        return None;
      }
      executable := executable + turn.emitted;
      mode, index := turn.mode, index + turn.width;
    }
    assert sql[index..] == [] && executable + [] == executable;
    r := Some(executable);
  }

  /** What is erased so far, and the rest scanned in this mode, is the erasure. */
  predicate Erased(sql: string, executable: string, mode: Mode, index: nat)
    requires index <= |sql|
  {
    Erase(sql) == Then(executable, Scan(mode, sql[index..]))
  }

  lemma OneTurn(sql: string, executable: string, mode: Mode, index: nat)
    requires index < |sql| && Erased(sql, executable, mode, index)
    ensures var turn := TurnAt(mode, sql[index..]);
            if turn.Rejected? then Erase(sql).None?
            else Erased(sql, executable + turn.emitted, turn.mode, index + turn.width)
  {
    var rest := sql[index..];
    var turn := TurnAt(mode, rest);
    if turn.Turn? {
      ThenThen(executable, turn.emitted, Scan(turn.mode, rest[turn.width..]));
      assert rest[turn.width..] == sql[index + turn.width..];
    }
  }

  // ---------------------------------------------------------------------
  // Erasing twice

  /** Two dollar signs, with a name between them or nothing. */
  predicate IsTag(t: string) {
    && |t| >= 2 && t[0] == '$' && t[|t| - 1] == '$'
    && (|t| > 2 ==> 'A' <= t[1] <= 'Z' || 'a' <= t[1] <= 'z' || t[1] == '_')
    && forall i | 0 < i < |t| - 1 ::
         'A' <= t[i] <= 'Z' || 'a' <= t[i] <= 'z' || t[i] == '_' || '0' <= t[i] <= '9'
  }

  /** Something other than code starts here: a comment, a quote or a dollar tag. */
  ghost predicate Opens(s: string) {
    || (|s| >= 2 && s[0] == '-' && s[1] == '-')
    || (|s| >= 2 && s[0] == '/' && s[1] == '*')
    || (s != [] && (s[0] == '\'' || s[0] == '"'))
    || BeginsTag(s)
  }

  ghost predicate BeginsTag(s: string) {
    exists t :: IsTag(t) && t <= s
  }

  /** The lexer finds the tag a text begins with, and there is only one. */
  lemma TagAtIs(s: string, t: string)
    ensures TagAt(s) == Some(t) <==> IsTag(t) && t <= s
  {
    if IsTag(t) && t <= s {
      var n := |t| - 2;
      forall i | 0 <= i < n ensures IsWordChar(s[1..][i]) {
        assert s[1..][i] == t[i + 1];
      }
      assert s[1..][n] == t[n + 1];
      assert n > 0 ==> s[1] == t[1];
      WordLengthOfPrefix(s[1..], n, []);
      assert t == s[..n + 2];
    }
    if TagAt(s) == Some(t) {
      forall i | 0 < i < |t| - 1 ensures IsWordChar(t[i]) {
        assert t[i] == s[1..][i - 1];
      }
      assert t[|t| - 1] == s[1..][|t| - 2];
    }
  }

  lemma BeginsTagIs(s: string)
    ensures BeginsTag(s) <==> TagAt(s).Some?
  {
    if TagAt(s).Some? {
      TagAtIs(s, TagAt(s).value);
    }
    if t :| IsTag(t) && t <= s {
      TagAtIs(s, t);
    }
  }

  lemma OpensIs(s: string)
    ensures Opens(s) <==> || StartsWith(s, "--") || StartsWith(s, "/*")
                          || (s != [] && (s[0] == '\'' || s[0] == '"')) || TagAt(s).Some?
  {
    BeginsTagIs(s);
    if |s| >= 2 {
      assert s[..2] == [s[0], s[1]];
    }
  }

  ghost predicate NothingOpens(s: string) {
    forall i | 0 <= i < |s| :: !Opens(s[i..])
  }

  lemma {:induction false} WordLengthOfPrefix(s: string, n: nat, rest: string)
    requires n <= |s| && (forall i | 0 <= i < n :: IsWordChar(s[i])) && n < |s| && !IsWordChar(s[n])
    ensures WordLength(s) == n && WordLength(s + rest) == n
  {
    if n > 0 {
      WordLengthOfPrefix(s[1..], n - 1, rest);
      assert (s + rest)[1..] == s[1..] + rest;
    }
  }

  /** What a tag is does not depend on what follows it. */
  lemma TagOfPrefix(s: string, t: string)
    requires TagAt(s).Some? && TagAt(s).value <= t
    ensures TagAt(t) == TagAt(s)
  {
    var tag := TagAt(s).value;
    var n := |tag| - 2;
    assert s[1..][..n + 1] == tag[1..] == t[1..][..n + 1];
    forall i | 0 <= i < n ensures IsWordChar(t[1..][i]) {
      assert t[1..][i] == s[1..][i];
    }
    assert t[1..][n] == '$';
    WordLengthOfPrefix(t[1..], n, []);
    assert t[1..] + [] == t[1..];
    assert t[1] == tag[1] == s[1];
    assert t[..n + 2] == tag;
  }

  lemma TagHasNoSpace(s: string)
    requires TagAt(s).Some?
    ensures ' ' !in TagAt(s).value
  {
    var tag := TagAt(s).value;
    forall i | 0 <= i < |tag| ensures tag[i] != ' ' {
      if 0 < i < |tag| - 1 {
        assert tag[i] == s[1..][i - 1];
      }
    }
  }

  /** As long as no space comes out, what comes out is what went in. */
  lemma {:induction false} ErasedPrefix(s: string, k: nat)
    requires Scan(Code, s).Some? && k <= |Scan(Code, s).value| && ' ' !in Scan(Code, s).value[..k]
    ensures k <= |s| && s[..k] == Scan(Code, s).value[..k]
    decreases |s|
  {
    if k > 0 {
      OpensIs(s);
      var out := Scan(Code, s).value;
      assert out[0] == out[..k][0];
      assert !Opens(s);
      var rest := Scan(Code, s[1..]).value;
      assert out == [s[0]] + rest;
      assert out[..k] == [s[0]] + rest[..k - 1];
      ErasedPrefix(s[1..], k - 1);
      assert s[..k] == [s[0]] + s[1..][..k - 1];
    }
  }

  /** Whatever opens in the output opened in the input. */
  lemma OpensReflects(s: string)
    requires Scan(Code, s).Some? && Opens(Scan(Code, s).value)
    ensures Opens(s)
  {
    var out := Scan(Code, s).value;
    OpensIs(out);
    OpensIs(s);
    if TagAt(out).Some? {
      TagHasNoSpace(out);
      ErasedPrefix(s, |TagAt(out).value|);
      TagOfPrefix(out, s);
    } else if StartsWith(out, "--") || StartsWith(out, "/*") {
      assert out[..2] == "--" || out[..2] == "/*";
      ErasedPrefix(s, 2);
    } else {
      assert out[..1] == [out[0]];
      ErasedPrefix(s, 1);
      assert s[0] == s[..1][0];
    }
  }

  lemma OpenerLeavesASpace(s: string)
    requires Scan(Code, s).Some? && Opens(s)
    ensures Scan(Code, s).value != [] && Scan(Code, s).value[0] == ' '
  {
    OpensIs(s);
  }

  lemma SpaceOpensNothing(s: string)
    requires s != [] && s[0] in {' ', '\n'}
    ensures !Opens(s)
  {
    OpensIs(s);
  }

  lemma NothingOpensAtHead(mode: Mode, s: string)
    requires s != [] && Scan(mode, s).Some? && TurnAt(mode, s).Turn? && TurnAt(mode, s).emitted != []
    ensures !Opens(Scan(mode, s).value)
  {
    if mode != Code {
      SpaceOpensNothing(Scan(mode, s).value);
    } else if Opens(s) {
      OpenerLeavesASpace(s);
      SpaceOpensNothing(Scan(mode, s).value);
    } else if Opens(Scan(Code, s).value) {
      OpensReflects(s);
    }
  }

  lemma NothingOpensAfter(head: char, tail: string)
    requires NothingOpens(tail) && !Opens([head] + tail)
    ensures NothingOpens([head] + tail)
  {
    forall i | 0 <= i < 1 + |tail| ensures !Opens(([head] + tail)[i..]) {
      if i > 0 {
        assert ([head] + tail)[i..] == tail[i - 1..];
      } else {
        assert ([head] + tail)[0..] == [head] + tail;
      }
    }
  }

  /** Nothing that comes out can be taken for a literal or a comment. */
  lemma {:induction false} ErasedIsCode(mode: Mode, s: string)
    requires Scan(mode, s).Some?
    ensures NothingOpens(Scan(mode, s).value)
    decreases |s|
  {
    if s != [] {
      var turn := TurnAt(mode, s);
      var rest := Scan(turn.mode, s[turn.width..]);
      ErasedIsCode(turn.mode, s[turn.width..]);
      if turn.emitted == [] {
        assert Scan(mode, s).value == rest.value;
      } else {
        assert turn.emitted == [turn.emitted[0]];
        assert Scan(mode, s).value == [turn.emitted[0]] + rest.value;
        NothingOpensAtHead(mode, s);
        NothingOpensAfter(turn.emitted[0], rest.value);
      }
    }
  }

  /** Text in which nothing opens is left as it is. */
  lemma {:induction false} CodeIsKept(s: string)
    requires NothingOpens(s)
    ensures Erase(s) == Some(s)
    decreases |s|
  {
    if s != [] {
      assert s[0..] == s;
      OpensIs(s);
      forall i | 0 <= i < |s[1..]| ensures !Opens(s[1..][i..]) {
        assert s[1..][i..] == s[i + 1..];
      }
      CodeIsKept(s[1..]);
      assert [s[0]] + s[1..] == s;
    }
  }

  /** Erasing is a projection: for every text, erasing what was erased changes
      nothing. */
  lemma ErasureIsIdempotent(sql: string)
    requires Erase(sql).Some?
    ensures Erase(Erase(sql).value) == Erase(sql)
  {
    ErasedIsCode(Code, sql);
    CodeIsKept(Erase(sql).value);
  }
}
