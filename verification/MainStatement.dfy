/**
  Finding the main statement behind a WITH clause: a scan of the erased text
  that counts parentheses and looks for one of four keywords outside them.
*/
module MainStatement {
  import opened Base
  import opened SqlErasure

  // ---------------------------------------------------------------------
  // Keywords

  /** What `\s` matches. */
  predicate Space(c: char) {
    c == ' ' || 9 as char <= c <= 13 as char
  }

  function Lower(c: char): char {
    if 'A' <= c <= 'Z' then ((c as int) + 32) as char else c
  }

  /** A word of the text, in any case, with no word character after it. */
  predicate WordAt(s: string, word: string) {
    && |word| <= |s|
    && (forall i | 0 <= i < |word| :: Lower(s[i]) == word[i])
    && (|s| == |word| || !IsWordChar(s[|word|]))
  }

  /** A keyword starts here. Nothing is asked of the character before it. */
  predicate KeywordAt(s: string) {
    WordAt(s, "select") || WordAt(s, "insert") || WordAt(s, "update") || WordAt(s, "delete")
  }

  lemma KeywordStart(s: string)
    requires KeywordAt(s)
    ensures s != [] && !Space(s[0]) && s[0] != '(' && s[0] != ')'
  {
    assert WordAt(s, "select") ==> Lower(s[0]) == "select"[0];
    assert WordAt(s, "insert") ==> Lower(s[0]) == "insert"[0];
    assert WordAt(s, "update") ==> Lower(s[0]) == "update"[0];
    assert WordAt(s, "delete") ==> Lower(s[0]) == "delete"[0];
  }

  /** The match of `\G\s*(keyword)\b`: the text from the keyword on. */
  function MatchAt(s: string): Option<string> {
    if s == [] then None
    else if Space(s[0]) then MatchAt(s[1..])
    else if KeywordAt(s) then Some(s)
    else None
  }

  // ---------------------------------------------------------------------
  // The scan

  function Deeper(c: char, depth: nat): nat {
    if c == '(' then depth + 1
    else if c == ')' then (if depth == 0 then 0 else depth - 1)
    else depth
  }

  predicate IsParenthesis(c: char) {
    c == '(' || c == ')'
  }

  function Seek(s: string, depth: nat): Option<string>
    decreases |s|
  {
    if s == [] then None
    else if !IsParenthesis(s[0]) && depth == 0 && MatchAt(s).Some? then MatchAt(s)
    else Seek(s[1..], Deeper(s[0], depth))
  }

  function TopLevel(executable: string): string {
    if !WordAt(executable, "with") then executable
    else
      match Seek(executable[4..], 0)
      case Some(statement) => statement
      case None => executable
  }

  // ---------------------------------------------------------------------
  // What it finds

  function DepthAt(s: string, p: nat, depth: nat): nat
    requires p <= |s|
  {
    if p == 0 then depth else DepthAt(s[1..], p - 1, Deeper(s[0], depth))
  }

  /** A keyword outside all parentheses. */
  predicate MainAt(s: string, p: nat, depth: nat) {
    p < |s| && DepthAt(s, p, depth) == 0 && KeywordAt(s[p..])
  }

  /** r begins at the first keyword outside all parentheses. */
  ghost predicate FirstMain(s: string, depth: nat, r: string) {
    exists p: nat :: MainAt(s, p, depth) && r == s[p..] && forall q: nat | q < p :: !MainAt(s, q, depth)
  }

  lemma MainAtTail(s: string, depth: nat, p: nat)
    requires s != [] && p > 0
    ensures MainAt(s, p, depth) <==> MainAt(s[1..], p - 1, Deeper(s[0], depth))
  {
    if p < |s| {
      assert s[p..] == s[1..][p - 1..];
    }
  }

  /** A keyword behind blanks is the first one. */
  lemma {:induction false} MatchIsFirst(s: string)
    requires MatchAt(s).Some?
    ensures FirstMain(s, 0, MatchAt(s).value)
    decreases |s|
  {
    if Space(s[0]) {
      MatchIsFirst(s[1..]);
      var p: nat :| MainAt(s[1..], p, 0) && MatchAt(s).value == s[1..][p..]
                    && forall q: nat | q < p :: !MainAt(s[1..], q, 0);
      FirstBehind(s, 0, p);
    } else {
      assert s[0..] == s;
      assert MainAt(s, 0, 0);
    }
  }

  lemma FirstBehind(s: string, depth: nat, p: nat)
    requires s != [] && !MainAt(s, 0, depth)
    requires MainAt(s[1..], p, Deeper(s[0], depth)) && forall q: nat | q < p :: !MainAt(s[1..], q, Deeper(s[0], depth))
    ensures FirstMain(s, depth, s[1..][p..])
  {
    MainAtTail(s, depth, p + 1);
    assert s[p + 1..] == s[1..][p..];
    forall q: nat | q < p + 1 ensures !MainAt(s, q, depth) {
      if q > 0 {
        MainAtTail(s, depth, q);
      }
    }
  }

  lemma NotMainHere(s: string, depth: nat)
    requires s != [] && (IsParenthesis(s[0]) || depth != 0 || MatchAt(s).None?)
    ensures !MainAt(s, 0, depth)
  {
    assert s[0..] == s;
    if KeywordAt(s) {
      KeywordStart(s);
    }
  }

  /** The scan finds the first keyword outside all parentheses, and nothing
      exactly when there is none. */
  lemma {:induction false} SeekFindsFirst(s: string, depth: nat)
    ensures Seek(s, depth).Some? ==> FirstMain(s, depth, Seek(s, depth).value)
    ensures Seek(s, depth).None? ==> forall p: nat :: !MainAt(s, p, depth)
    decreases |s|
  {
    if s == [] {
    } else if !IsParenthesis(s[0]) && depth == 0 && MatchAt(s).Some? {
      MatchIsFirst(s);
    } else {
      var deeper := Deeper(s[0], depth);
      NotMainHere(s, depth);
      SeekFindsFirst(s[1..], deeper);
      if Seek(s, depth).Some? {
        var p: nat :| MainAt(s[1..], p, deeper) && Seek(s, depth).value == s[1..][p..]
                      && forall q: nat | q < p :: !MainAt(s[1..], q, deeper);
        FirstBehind(s, depth, p);
      } else {
        forall p: nat ensures !MainAt(s, p, depth) {
          if p > 0 {
            MainAtTail(s, depth, p);
          }
        }
      }
    }
  }

  // ---------------------------------------------------------------------
  // Common table expressions

  /** A header is what stands between the parenthesised parts: names, commas,
      AS, RECURSIVE. */
  datatype Part = Header(text: string) | Body(text: string)

  predicate Balanced(s: string, depth: nat)
    decreases |s|
  {
    if s == [] then depth == 0
    else if s[0] == ')' then depth > 0 && Balanced(s[1..], depth - 1)
    else Balanced(s[1..], if s[0] == '(' then depth + 1 else depth)
  }

  function Rendered(part: Part): string {
    match part
    case Header(text) => text
    case Body(text) => "(" + text + ")"
  }

  function RenderParts(parts: seq<Part>): string {
    if parts == [] then [] else Rendered(parts[0]) + RenderParts(parts[1..])
  }

  /** No parenthesis, and no word that ends in a keyword. */
  ghost predicate QuietHeader(text: string, rest: string) {
    && (forall i | 0 <= i < |text| :: !IsParenthesis(text[i]))
    && (forall i | 0 <= i < |text| :: !KeywordAt((text + rest)[i..]))
  }

  ghost predicate Clause(parts: seq<Part>, main: string) {
    parts != [] ==>
      && (match parts[0]
          case Header(text) => QuietHeader(text, RenderParts(parts[1..]) + main)
          case Body(text) => Balanced(text, 0))
      && Clause(parts[1..], main)
  }

  lemma {:induction false} SeekPastBody(body: string, depth: nat, rest: string)
    requires Balanced(body, depth)
    ensures Seek(body + ")" + rest, depth + 1) == Seek(rest, 0)
    decreases |body|
  {
    var s := body + ")" + rest;
    if body == [] {
      assert s[1..] == rest;
    } else {
      assert s[1..] == body[1..] + ")" + rest;
      SeekPastBody(body[1..], if body[0] == '(' then depth + 1 else if body[0] == ')' then depth - 1 else depth, rest);
    }
  }

  /** Whatever matches here is the main statement. */
  ghost predicate OnlyMain(s: string, main: string) {
    MatchAt(s).Some? ==> MatchAt(s) == Some(main)
  }

  lemma {:induction false} SeekPastHeader(text: string, rest: string, main: string)
    requires QuietHeader(text, rest) && OnlyMain(rest, main) && Seek(rest, 0) == Some(main)
    ensures OnlyMain(text + rest, main) && Seek(text + rest, 0) == Some(main)
    decreases |text|
  {
    var s := text + rest;
    if text == [] {
      assert s == rest;
    } else {
      assert s[0..] == s && s[1..] == text[1..] + rest;
      forall i | 0 <= i < |text[1..]| ensures !KeywordAt((text[1..] + rest)[i..]) {
        assert (text[1..] + rest)[i..] == s[i + 1..];
      }
      SeekPastHeader(text[1..], rest, main);
    }
  }

  lemma SeekFromBody(body: string, rest: string, main: string)
    requires Balanced(body, 0) && Seek(rest, 0) == Some(main)
    ensures var s := Rendered(Body(body)) + rest; OnlyMain(s, main) && Seek(s, 0) == Some(main)
  {
    var s := Rendered(Body(body)) + rest;
    assert s[0] == '(' && s[1..] == body + ")" + rest;
    SeekPastBody(body, 0, rest);
  }

  lemma SeekFromMain(main: string)
    requires KeywordAt(main)
    ensures OnlyMain(main, main) && Seek(main, 0) == Some(main)
  {
    KeywordStart(main);
  }

  lemma RenderSplit(parts: seq<Part>, main: string)
    requires parts != []
    ensures RenderParts(parts) + main == Rendered(parts[0]) + (RenderParts(parts[1..]) + main)
  {
  }

  lemma {:induction false} SeekPastClause(parts: seq<Part>, main: string)
    requires Clause(parts, main) && KeywordAt(main)
    ensures var s := RenderParts(parts) + main; OnlyMain(s, main) && Seek(s, 0) == Some(main)
    decreases |parts|
  {
    SeekFromMain(main);
    if parts == [] {
      assert RenderParts(parts) + main == main;
    } else {
      var rest := RenderParts(parts[1..]) + main;
      SeekPastClause(parts[1..], main);
      RenderSplit(parts, main);
      match parts[0]
      case Header(text) => SeekPastHeader(text, rest, main);
      case Body(text) => SeekFromBody(text, rest, main);
    }
  }

  /** For any list of common table expressions with balanced bodies, keywords in
      them notwithstanding, the main statement is found where it starts. */
  lemma MainStatementIsFound(keyword: string, parts: seq<Part>, main: string)
    requires |keyword| == 4 && Clause(parts, main) && KeywordAt(main)
    requires WordAt(keyword + (RenderParts(parts) + main), "with")
    ensures TopLevel(keyword + (RenderParts(parts) + main)) == main
  {
    var s := RenderParts(parts) + main;
    SeekPastClause(parts, main);
    assert (keyword + s)[4..] == s;
  }

  /** A header word that merely ends in a keyword is taken for the main
      statement: nothing is asked of the character before a keyword. */
  lemma WordEndingInAKeyword(keyword: string, header: string, ending: string)
    requires |keyword| == 4 && QuietHeader(header, ending) && KeywordAt(ending)
    requires header != [] && IsWordChar(header[|header| - 1])
    requires WordAt(keyword + (header + ending), "with")
    ensures TopLevel(keyword + (header + ending)) == ending
  {
    var parts := [Header(header)];
    assert parts[1..] == [] && RenderParts(parts[1..]) + ending == ending;
    assert RenderParts(parts) == header + RenderParts(parts[1..]) == header;
    assert Clause(parts[1..], ending);
    MainStatementIsFound(keyword, parts, ending);
  }

  // ---------------------------------------------------------------------
  // The same, character by character

  /** Upper case or lower. */
  predicate IsLetterOf(c: char, letter: char) {
    c == letter || ('A' <= c <= 'Z' && c as int + 32 == letter as int)
  }

  /** The word in any case, and no letter, digit or underscore behind it. */
  predicate IsWord(s: string, word: string) {
    && |word| <= |s| && (forall i | 0 <= i < |word| :: IsLetterOf(s[i], word[i]))
    && (|s| == |word| || !(var c := s[|word|]; 'A' <= c <= 'Z' || 'a' <= c <= 'z' || '0' <= c <= '9' || c == '_'))
  }

  predicate IsMain(s: string) {
    IsWord(s, "select") || IsWord(s, "insert") || IsWord(s, "update") || IsWord(s, "delete")
  }

  /** Opening parentheses less closing ones. */
  function Net(s: string): int {
    if s == [] then 0 else (if s[0] == '(' then 1 else if s[0] == ')' then -1 else 0) + Net(s[1..])
  }

  /** No parenthesis before the end is still open there: every later part of the
      text closes at least as many as it opens. */
  ghost predicate AllClosed(s: string) {
    forall i | 0 <= i <= |s| :: Net(s[i..]) <= 0
  }

  /** A main keyword stands at p, behind the clause's own word, outside all
      parentheses. */
  ghost predicate MainStandsAt(s: string, p: nat) {
    4 <= p < |s| && IsMain(s[p..]) && AllClosed(s[4..p])
  }

  lemma WordIs(s: string, word: string)
    requires forall c | c in word :: 'a' <= c <= 'z'
    ensures WordAt(s, word) <==> IsWord(s, word)
  {
    if |word| <= |s| {
      forall i | 0 <= i < |word| ensures Lower(s[i]) == word[i] <==> IsLetterOf(s[i], word[i]) {
        assert word[i] in word;
      }
    }
  }

  lemma KeywordIsMain(s: string)
    ensures KeywordAt(s) <==> IsMain(s)
  {
    WordIs(s, "select");
    WordIs(s, "insert");
    WordIs(s, "update");
    WordIs(s, "delete");
  }

  /** The clamped depth is zero when nothing is open. */
  lemma {:induction false} DepthIs(s: string, p: nat, depth: nat)
    requires p <= |s|
    ensures DepthAt(s, p, depth) == 0 <==> depth + Net(s[..p]) <= 0 && AllClosed(s[..p])
    decreases p
  {
    if p == 0 {
      assert s[..0] == [];
    } else {
      var t := s[1..];
      DepthIs(t, p - 1, Deeper(s[0], depth));
      assert s[..p][1..] == t[..p - 1];
      ClosedCons(s[..p]);
    }
  }

  lemma ClosedCons(s: string)
    requires s != []
    ensures AllClosed(s) <==> Net(s) <= 0 && AllClosed(s[1..])
    ensures AllClosed(s[1..]) ==> Net(s[1..]) <= 0
  {
    assert s[0..] == s && s[1..][0..] == s[1..];
    forall i | 0 <= i <= |s[1..]| ensures s[1..][i..] == s[i + 1..] {
    }
    if Net(s) <= 0 && AllClosed(s[1..]) {
      forall i | 0 <= i <= |s| ensures Net(s[i..]) <= 0 {
        assert i > 0 ==> s[i..] == s[1..][i - 1..];
      }
    }
  }

  lemma MainAtIs(s: string, p: nat)
    requires |s| >= 4
    ensures p >= 4 ==> (MainAt(s[4..], p - 4, 0) <==> MainStandsAt(s, p))
  {
    if 4 <= p < |s| {
      var t := s[4..];
      DepthIs(t, p - 4, 0);
      assert t[..p - 4] == s[4..p] && t[p - 4..] == s[p..];
      assert AllClosed(t[..p - 4]) ==> Net(t[..p - 4][0..]) <= 0;
      assert t[..p - 4][0..] == t[..p - 4];
      KeywordIsMain(s[p..]);
    }
  }

  /** Behind WITH the scan stops at the first main keyword outside parentheses, and
      leaves the text whole when there is none. */
  lemma TopLevelIs(s: string)
    ensures !IsWord(s, "with") ==> TopLevel(s) == s
    ensures IsWord(s, "with") && (forall p: nat :: !MainStandsAt(s, p)) ==> TopLevel(s) == s
    ensures IsWord(s, "with") ==>
              forall p: nat | MainStandsAt(s, p) && (forall q: nat | q < p :: !MainStandsAt(s, q)) ::
                TopLevel(s) == s[p..]
  {
    WordIs(s, "with");
    if IsWord(s, "with") {
      var t := s[4..];
      SeekFindsFirst(t, 0);
      forall p: nat ensures p >= 4 ==> (MainAt(t, p - 4, 0) <==> MainStandsAt(s, p)) {
        MainAtIs(s, p);
      }
      if Seek(t, 0).Some? {
        var p: nat :| MainAt(t, p, 0) && Seek(t, 0).value == t[p..] && forall q: nat | q < p :: !MainAt(t, q, 0);
        assert t[p..] == s[p + 4..];
        assert MainStandsAt(s, p + 4);
        forall q: nat | MainStandsAt(s, q) && (forall r: nat | r < q :: !MainStandsAt(s, r)) ensures q == p + 4 {
          assert MainAt(t, q - 4, 0);
        }
      } else {
        forall p: nat ensures !MainStandsAt(s, p) {
          assert p >= 4 ==> !MainAt(t, p - 4, 0);
        }
      }
    }
  }

  /** `topLevelExecutableSql`, on the erased text without its leading blanks. */
  method TopLevelExecutableSql(executable: string) returns (r: string)
    ensures r == TopLevel(executable)
    ensures !IsWord(executable, "with") || (forall p: nat :: !MainStandsAt(executable, p)) ==> r == executable
    ensures IsWord(executable, "with") ==>
              forall p: nat | MainStandsAt(executable, p) && (forall q: nat | q < p :: !MainStandsAt(executable, q)) ::
                r == executable[p..]
  {
    TopLevelIs(executable);
    if !WordAt(executable, "with") {
      return executable;
    }
    var depth: nat := 0;
    var index := 4;
    while index < |executable|
      invariant 4 <= index <= |executable|
      invariant Seek(executable[4..], 0) == Seek(executable[index..], depth)
    {
      var character := executable[index];
      assert executable[index..][1..] == executable[index + 1..];
      if !IsParenthesis(character) && depth == 0 {
        var found := MatchAt(executable[index..]);
        if found.Some? {
          return found.value;
        }
      }
      depth := Deeper(character, depth);
      index := index + 1;
    }
    r := executable;
  }
}
