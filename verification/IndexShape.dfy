/**
  Reusable CREATE INDEX shapes: the tokenizer that refuses unbalanced text, and
  the recogniser over its tokens.
*/
module IndexShape {
  import opened Base
  import opened SqlErasure
  import SqlVerdict

  datatype Driver = PostgreSql | MySql

  type Token = string

  const LITERAL: Token := "<LITERAL>"
  const IDENTIFIER: Token := "<IDENTIFIER>"

  // ---------------------------------------------------------------------
  // The tokenizer

  predicate IsSpace(c: char) {
    c == ' ' || 9 as char <= c <= 13 as char
  }

  predicate IsDigit(c: char) {
    '0' <= c <= '9'
  }

  predicate IsQuoteMark(c: char) {
    c == '\'' || c == '"' || c == '`'
  }

  function Upper(s: string): (r: string)
    ensures |r| == |s|
  {
    if s == [] then []
    else [if 'a' <= s[0] <= 'z' then ((s[0] as int) - 32) as char else s[0]] + Upper(s[1..])
  }

  /** What follows the first line end; nothing when there is none. */
  function AfterLine(s: string): (r: string)
    ensures |r| <= |s|
  {
    if s == [] then [] else if s[0] == '\n' then s[1..] else AfterLine(s[1..])
  }

  function AfterText(s: string, text: string): (r: Option<string>)
    ensures r.Some? ==> |r.value| <= |s|
  {
    if StartsWith(s, text) then Some(s[|text|..]) else if s == [] then None else AfterText(s[1..], text)
  }

  /** A doubled quote and, but for backticks, a backslash keep it open. */
  function AfterQuoted(quote: char, s: string): (r: Option<string>)
    ensures r.Some? ==> |r.value| <= |s|
  {
    if s == [] then None
    else if s[0] == quote then
      if |s| > 1 && s[1] == quote then AfterQuoted(quote, s[2..]) else Some(s[1..])
    else if s[0] == '\\' && quote != '`' then
      if |s| > 1 then AfterQuoted(quote, s[2..]) else None
    else AfterQuoted(quote, s[1..])
  }

  function NameLength(s: string): (n: nat)
    ensures n <= |s|
  {
    if s != [] && (IsWordChar(s[0]) || s[0] == '$') then 1 + NameLength(s[1..]) else 0
  }

  function DigitsLength(s: string): (n: nat)
    ensures n <= |s| && (s != [] && IsDigit(s[0]) ==> n > 0)
  {
    if s != [] && IsDigit(s[0]) then 1 + DigitsLength(s[1..]) else 0
  }

  function NumberLength(s: string): (n: nat)
    ensures n <= |s| && (s != [] && IsDigit(s[0]) ==> n > 0)
  {
    var whole := DigitsLength(s);
    if whole + 1 < |s| && s[whole] == '.' && IsDigit(s[whole + 1])
    then whole + 1 + DigitsLength(s[whole + 1..])
    else whole
  }

  datatype Lexed = Skip(rest: string) | Emit(token: Token, rest: string) | Unclosed

  /** One turn of the tokenizing loop. */
  function LexAt(s: string): (r: Lexed)
    requires s != []
    ensures !r.Unclosed? ==> |r.rest| < |s|
  {
    if IsSpace(s[0]) then Skip(s[1..])
    else if StartsWith(s, "--") then Skip(AfterLine(s[2..]))
    else if StartsWith(s, "/*") then
      match AfterText(s[2..], "*/")
      case Some(rest) => Skip(rest)
      case None => Unclosed
    else if IsQuoteMark(s[0]) then
      match AfterQuoted(s[0], s[1..])
      case Some(rest) => Emit(if s[0] == '\'' then LITERAL else IDENTIFIER, rest)
      case None => Unclosed
    else if TagAt(s).Some? then
      match AfterText(s[|TagAt(s).value|..], TagAt(s).value)
      case Some(rest) => Emit(LITERAL, rest)
      case None => Unclosed
    else if IsLetter(s[0]) then Emit(Upper(s[..NameLength(s)]), s[NameLength(s)..])
    else if IsDigit(s[0]) then Emit(LITERAL, s[NumberLength(s)..])
    else Emit([s[0]], s[1..])
  }

  /** All tokens, balanced or not. */
  function AllTokens(s: string): Option<seq<Token>>
    decreases |s|
  {
    if s == [] then Some([])
    else
      match LexAt(s)
      case Unclosed => None
      case Skip(rest) => AllTokens(rest)
      case Emit(token, rest) =>
        match AllTokens(rest)
        case None => None
        case Some(tokens) => Some([token] + tokens)
  }

  /** Every closing parenthesis has an opening one before it, and the other way
      round; depth are the ones open already. */
  predicate Balanced(tokens: seq<Token>, depth: nat)
    decreases |tokens|
  {
    if tokens == [] then depth == 0
    else if tokens[0] == "(" then Balanced(tokens[1..], depth + 1)
    else if tokens[0] == ")" then depth > 0 && Balanced(tokens[1..], depth - 1)
    else Balanced(tokens[1..], depth)
  }

  /** The depth after reading some tokens, unless it went below zero. */
  function DepthOf(tokens: seq<Token>): Option<nat>
    decreases |tokens|
  {
    if tokens == [] then Some(0)
    else
      match DepthOf(tokens[..|tokens| - 1])
      case None => None
      case Some(depth) =>
        if tokens[|tokens| - 1] == "(" then Some(depth + 1)
        else if tokens[|tokens| - 1] == ")" then (if depth == 0 then None else Some(depth - 1))
        else Some(depth)
  }

  lemma {:induction false} BalancedConcat(before: seq<Token>, after: seq<Token>)
    ensures Balanced(before + after, 0) <==> DepthOf(before).Some? && Balanced(after, DepthOf(before).value)
    decreases |before|
  {
    if before == [] {
      assert before + after == after;
    } else {
      var init, last := before[..|before| - 1], before[|before| - 1];
      assert before + after == init + ([last] + after);
      assert ([last] + after)[1..] == after;
      BalancedConcat(init, [last] + after);
    }
  }

  /** `all` is what is read so far, and then the tokens of the rest. */
  predicate Remaining(all: Option<seq<Token>>, tokens: seq<Token>, rest: string) {
    all == match AllTokens(rest) case None => None case Some(more) => Some(tokens + more)
  }

  lemma RemainingAtStart(s: string)
    ensures Remaining(AllTokens(s), [], s)
  {
    if AllTokens(s).Some? {
      assert [] + AllTokens(s).value == AllTokens(s).value;
    }
  }

  lemma RemainingAfter(all: Option<seq<Token>>, tokens: seq<Token>, s: string)
    requires s != [] && Remaining(all, tokens, s)
    ensures LexAt(s).Unclosed? ==> all.None?
    ensures LexAt(s).Skip? ==> Remaining(all, tokens, LexAt(s).rest)
    ensures LexAt(s).Emit? ==> Remaining(all, tokens + [LexAt(s).token], LexAt(s).rest)
  {
    if LexAt(s).Emit? && AllTokens(LexAt(s).rest).Some? {
      var more := AllTokens(LexAt(s).rest).value;
      assert tokens + ([LexAt(s).token] + more) == (tokens + [LexAt(s).token]) + more;
    }
  }

  lemma DepthAfter(tokens: seq<Token>, token: Token)
    ensures DepthOf(tokens + [token])
         == match DepthOf(tokens)
            case None => None
            case Some(depth) =>
              if token == "(" then Some(depth + 1)
              else if token == ")" then (if depth == 0 then None else Some(depth - 1))
              else Some(depth)
  {
    assert (tokens + [token])[..|tokens|] == tokens;
  }

  lemma BelowZeroIsUnbalanced(all: Option<seq<Token>>, tokens: seq<Token>, rest: string)
    requires Remaining(all, tokens, rest) && DepthOf(tokens).None?
    ensures all.None? || !Balanced(all.value, 0)
  {
    if AllTokens(rest).Some? {
      BalancedConcat(tokens, AllTokens(rest).value);
    }
  }

  lemma BalancedAtEnd(all: Option<seq<Token>>, tokens: seq<Token>)
    requires Remaining(all, tokens, []) && DepthOf(tokens).Some?
    ensures all == Some(tokens) && (Balanced(tokens, 0) <==> DepthOf(tokens) == Some(0))
  {
    BalancedConcat(tokens, []);
    assert tokens + [] == tokens;
  }

  /** `tokens`: a single pass that counts parentheses as it goes. Unbalanced and
      unterminated text has no tokens, and any other text has all of its. */
  method Tokens(sql: string) returns (r: Option<seq<Token>>)
    ensures r.Some? ==> r == AllTokens(sql) && Balanced(r.value, 0)
    ensures r.None? ==> AllTokens(sql).None? || !Balanced(AllTokens(sql).value, 0)
  {
    var tokens: seq<Token> := [];
    var depth: nat := 0;
    var s := sql;
    RemainingAtStart(sql);
    while s != []
      invariant DepthOf(tokens) == Some(depth) && Remaining(AllTokens(sql), tokens, s)
      decreases |s|
    {
      RemainingAfter(AllTokens(sql), tokens, s);
      match LexAt(s)
      case Unclosed => return None;
      case Skip(rest) => s := rest;
      case Emit(token, rest) =>
        DepthAfter(tokens, token);
        tokens := tokens + [token];
        if token == ")" && depth == 0 {
          BelowZeroIsUnbalanced(AllTokens(sql), tokens, rest);
          return None;
        }
        depth := if token == "(" then depth + 1 else if token == ")" then depth - 1 else depth;
        s := rest;
    }
    BalancedAtEnd(AllTokens(sql), tokens);
    r := if depth == 0 then Some(tokens) else None;
  }

  // ---------------------------------------------------------------------
  // Closing parentheses

  /** Some closing parenthesis brings the depth back to zero. */
  predicate Closes(tokens: seq<Token>, depth: nat)
    decreases |tokens|
  {
    if tokens == [] then false
    else if tokens[0] == "(" then Closes(tokens[1..], depth + 1)
    else if tokens[0] == ")" then depth == 1 || (depth > 1 && Closes(tokens[1..], depth - 1))
    else Closes(tokens[1..], depth)
  }

  /** `hasClosingParenthesis`, at an opening one. */
  method HasClosingParenthesis(tokens: seq<Token>, opening: nat) returns (closed: bool)
    requires opening < |tokens| && tokens[opening] == "("
    ensures closed == Closes(tokens[opening..], 0)
  {
    var depth: nat := 0;
    var index := opening;
    while index < |tokens|
      invariant opening <= index <= |tokens| && (index == opening || depth > 0)
      invariant Closes(tokens[opening..], 0) == Closes(tokens[index..], depth)
    {
      assert tokens[index..][1..] == tokens[index + 1..];
      if tokens[index] == "(" {
        depth := depth + 1;
      } else if tokens[index] == ")" {
        if depth == 1 {
          return true;
        }
        depth := depth - 1;
      }
      index := index + 1;
    }
    closed := false;
  }

  lemma {:induction false} OpenOnesClose(tokens: seq<Token>, depth: nat, open: nat)
    requires Balanced(tokens, depth) && 0 < open <= depth
    ensures Closes(tokens, open)
    decreases |tokens|
  {
    if tokens[0] == "(" {
      OpenOnesClose(tokens[1..], depth + 1, open + 1);
    } else if tokens[0] == ")" {
      if open > 1 {
        OpenOnesClose(tokens[1..], depth - 1, open - 1);
      }
    } else {
      OpenOnesClose(tokens[1..], depth, open);
    }
  }

  /** Balance makes every opening parenthesis a closed one, so the recogniser's
      check of the column list cannot fail. */
  lemma BalancedAlwaysCloses(tokens: seq<Token>, opening: nat)
    requires Balanced(tokens, 0) && opening < |tokens| && tokens[opening] == "("
    ensures Closes(tokens[opening..], 0)
  {
    assert tokens == tokens[..opening] + tokens[opening..];
    BalancedConcat(tokens[..opening], tokens[opening..]);
    var depth := DepthOf(tokens[..opening]).value;
    OpenOnesClose(tokens[opening..][1..], depth + 1, 1);
  }

  // ---------------------------------------------------------------------
  // The grammar

  /** A CREATE INDEX statement. `columns` is everything after the parenthesis
      that opens the column list. */
  datatype Shape = Shape(
    modifier: Option<Token>,
    concurrently: bool,
    guarded: bool,
    name: Token,
    mysqlMethod: Option<Token>,
    only: bool,
    path: seq<Token>,
    indexMethod: Option<Token>,
    columns: seq<Token>)

  datatype Signature = Signature(driver: Driver, modifier: Option<Token>, concurrently: bool)

  predicate IsIdentifier(token: Token) {
    token == IDENTIFIER
    || (token != [] && ('A' <= token[0] <= 'Z' || token[0] == '_')
        && forall i | 0 < i < |token| ::
             'A' <= token[i] <= 'Z' || token[i] == '_' || IsDigit(token[i]) || token[i] == '$')
  }

  predicate IsModifier(driver: Driver, token: Token) {
    token == "UNIQUE" || (driver == MySql && token in {"FULLTEXT", "SPATIAL"})
  }

  function Maybe(present: bool, tokens: seq<Token>): seq<Token> {
    if present then tokens else []
  }

  function MaybeOne(token: Option<Token>): seq<Token> {
    if token.Some? then [token.value] else []
  }

  function MaybeUsing(token: Option<Token>): seq<Token> {
    if token.Some? then ["USING", token.value] else []
  }

  /** Further names, each behind a dot. */
  function Dotted(path: seq<Token>): seq<Token> {
    if path == [] then [] else [".", path[0]] + Dotted(path[1..])
  }

  function ColumnWords(shape: Shape): seq<Token> {
    MaybeUsing(shape.indexMethod) + (["("] + shape.columns)
  }

  function TableWords(shape: Shape): seq<Token>
    requires shape.path != []
  {
    Maybe(shape.only, ["ONLY"]) + ([shape.path[0]] + (Dotted(shape.path[1..]) + ColumnWords(shape)))
  }

  function NameWords(shape: Shape): seq<Token>
    requires shape.path != []
  {
    Maybe(shape.guarded, ["IF", "NOT", "EXISTS"])
    + ([shape.name] + (MaybeUsing(shape.mysqlMethod) + (["ON"] + TableWords(shape))))
  }

  function Words(shape: Shape): seq<Token>
    requires shape.path != []
  {
    ["CREATE"] + (MaybeOne(shape.modifier)
                  + (["INDEX"] + (Maybe(shape.concurrently, ["CONCURRENTLY"]) + NameWords(shape))))
  }

  /** The grammar of a driver. Optional keywords are read as keywords wherever
      they may stand, so a name must not look like one. */
  predicate Grammatical(driver: Driver, shape: Shape) {
    && (shape.modifier.Some? ==> || shape.modifier.value == "UNIQUE"
                                 || (driver == MySql && shape.modifier.value in {"FULLTEXT", "SPATIAL"}))
    && (shape.concurrently || shape.only || shape.indexMethod.Some? ==> driver == PostgreSql)
    && (shape.mysqlMethod.Some? ==> driver == MySql)
    && IsIdentifier(shape.name) && shape.path != [] && (forall name | name in shape.path :: IsIdentifier(name))
    && (shape.indexMethod.Some? ==> IsIdentifier(shape.indexMethod.value))
    && (!shape.guarded ==> shape.name != "IF")
    && (driver == PostgreSql && !shape.concurrently && !shape.guarded ==> shape.name != "CONCURRENTLY")
    && (driver == PostgreSql && !shape.only ==> shape.path[0] != "ONLY")
  }

  // ---------------------------------------------------------------------
  // The recogniser

  function Peek(tokens: seq<Token>): Token {
    if tokens == [] then [] else tokens[0]
  }

  function Drop(tokens: seq<Token>, n: nat): seq<Token> {
    if n <= |tokens| then tokens[n..] else []
  }

  /** `consumeQualifiedIdentifier`, after its first name. */
  function AfterDotted(tokens: seq<Token>): Option<seq<Token>>
    decreases |tokens|
  {
    if Peek(tokens) != "." then Some(tokens)
    else if !IsIdentifier(Peek(tokens[1..])) then None
    else AfterDotted(tokens[2..])
  }

  predicate ReadsColumns(driver: Driver, tokens: seq<Token>) {
    if driver == PostgreSql && Peek(tokens) == "USING"
    then IsIdentifier(Peek(tokens[1..])) && Peek(tokens[2..]) == "("
    else Peek(tokens) == "("
  }

  predicate ReadsTable(driver: Driver, tokens: seq<Token>) {
    var names := if driver == PostgreSql && Peek(tokens) == "ONLY" then tokens[1..] else tokens;
    IsIdentifier(Peek(names)) && AfterDotted(names[1..]).Some? && ReadsColumns(driver, AfterDotted(names[1..]).value)
  }

  predicate ReadsTarget(driver: Driver, tokens: seq<Token>) {
    var target := if driver == MySql && Peek(tokens) == "USING" then Drop(tokens, 2) else tokens;
    Peek(target) == "ON" && ReadsTable(driver, target[1..])
  }

  /** After IF NOT EXISTS, or where it might have been. */
  function AfterGuard(tokens: seq<Token>): Option<seq<Token>> {
    if Peek(tokens) != "IF" then Some(tokens)
    else if Peek(tokens[1..]) == "NOT" && Peek(tokens[2..]) == "EXISTS" then Some(tokens[3..])
    else None
  }

  predicate ReadsName(driver: Driver, tokens: seq<Token>) {
    match AfterGuard(tokens)
    case None => false
    case Some(named) => IsIdentifier(Peek(named)) && ReadsTarget(driver, named[1..])
  }

  /** After INDEX; whether CONCURRENTLY is there. */
  function ReadsIndex(driver: Driver, tokens: seq<Token>): Option<bool> {
    var concurrently := driver == PostgreSql && Peek(tokens) == "CONCURRENTLY";
    if ReadsName(driver, if concurrently then tokens[1..] else tokens) then Some(concurrently) else None
  }

  function Reads(driver: Driver, tokens: seq<Token>): Option<Signature> {
    if Peek(tokens) != "CREATE" then None
    else
      var modified := IsModifier(driver, Peek(tokens[1..]));
      var index := if modified then tokens[2..] else tokens[1..];
      if Peek(index) != "INDEX" then None
      else
        match ReadsIndex(driver, index[1..])
        case None => None
        case Some(concurrently) => Some(Signature(driver, if modified then Some(tokens[1]) else None, concurrently))
  }

  // ---------------------------------------------------------------------
  // Everything grammatical is read

  lemma {:induction false} DottedCons(path: seq<Token>, rest: seq<Token>)
    requires path != []
    ensures var tokens := Dotted(path) + rest;
            && tokens[0] == "." && tokens[1..] == [path[0]] + (Dotted(path[1..]) + rest)
            && tokens[2..] == Dotted(path[1..]) + rest
  {
    var more := Dotted(path[1..]) + rest;
    assert Dotted(path) + rest == [".", path[0]] + more;
  }

  lemma {:induction false} DottedIsRead(path: seq<Token>, rest: seq<Token>)
    requires (forall name | name in path :: IsIdentifier(name)) && Peek(rest) != "."
    ensures AfterDotted(Dotted(path) + rest) == Some(rest)
    decreases |path|
  {
    if path == [] {
      assert Dotted(path) + rest == rest;
    } else {
      DottedCons(path, rest);
      DottedIsRead(path[1..], rest);
    }
  }

  lemma ColumnsAreRead(driver: Driver, shape: Shape)
    requires Grammatical(driver, shape)
    ensures ReadsColumns(driver, ColumnWords(shape)) && Peek(ColumnWords(shape)) != "."
  {
    var tokens := ColumnWords(shape);
    if shape.indexMethod.Some? {
      assert tokens[1..] == [shape.indexMethod.value, "("] + shape.columns;
      assert tokens[2..] == ["("] + shape.columns;
    }
  }

  lemma TableIsRead(driver: Driver, shape: Shape)
    requires Grammatical(driver, shape)
    ensures ReadsTable(driver, TableWords(shape))
  {
    var after := Dotted(shape.path[1..]) + ColumnWords(shape);
    var names := [shape.path[0]] + after;
    assert names[1..] == after;
    ColumnsAreRead(driver, shape);
    DottedIsRead(shape.path[1..], ColumnWords(shape));
    if shape.only {
      assert TableWords(shape)[1..] == names;
    } else {
      assert TableWords(shape) == names;
    }
  }

  lemma TargetIsRead(driver: Driver, shape: Shape)
    requires Grammatical(driver, shape)
    ensures ReadsTarget(driver, MaybeUsing(shape.mysqlMethod) + (["ON"] + TableWords(shape)))
  {
    var target := ["ON"] + TableWords(shape);
    assert target[1..] == TableWords(shape);
    TableIsRead(driver, shape);
    if shape.mysqlMethod.Some? {
      assert Drop(MaybeUsing(shape.mysqlMethod) + target, 2) == target;
    } else {
      assert MaybeUsing(shape.mysqlMethod) + target == target;
    }
  }

  lemma NameIsRead(driver: Driver, shape: Shape)
    requires Grammatical(driver, shape)
    ensures ReadsName(driver, NameWords(shape))
  {
    var target := MaybeUsing(shape.mysqlMethod) + (["ON"] + TableWords(shape));
    var named := [shape.name] + target;
    var tokens := NameWords(shape);
    TargetIsRead(driver, shape);
    assert named[1..] == target;
    if shape.guarded {
      assert tokens == ["IF", "NOT", "EXISTS"] + named;
      assert tokens[1..][0] == "NOT" && tokens[2..][0] == "EXISTS" && tokens[3..] == named;
    } else {
      assert tokens == named;
    }
  }

  lemma IndexIsRead(driver: Driver, shape: Shape)
    requires Grammatical(driver, shape)
    ensures ReadsIndex(driver, Maybe(shape.concurrently, ["CONCURRENTLY"]) + NameWords(shape))
            == Some(shape.concurrently)
  {
    var named := NameWords(shape);
    var keyed := Maybe(shape.concurrently, ["CONCURRENTLY"]) + named;
    NameIsRead(driver, shape);
    if shape.concurrently {
      assert keyed[1..] == named;
    } else {
      assert keyed == named;
      assert named[0] == if shape.guarded then "IF" else shape.name;
    }
  }

  /** Every grammatical statement is recognised, under the signature of its
      modifier and CONCURRENTLY alone. */
  lemma GrammaticalIsRead(driver: Driver, shape: Shape)
    requires Grammatical(driver, shape)
    ensures Reads(driver, Words(shape)) == Some(Signature(driver, shape.modifier, shape.concurrently))
  {
    var keyed := Maybe(shape.concurrently, ["CONCURRENTLY"]) + NameWords(shape);
    var index := ["INDEX"] + keyed;
    IndexIsRead(driver, shape);
    assert index[1..] == keyed;
    CreateIsRead(driver, shape.modifier, index);
    assert Words(shape) == ["CREATE"] + (MaybeOne(shape.modifier) + index);
  }

  lemma CreateIsRead(driver: Driver, modifier: Option<Token>, index: seq<Token>)
    requires Peek(index) == "INDEX" && (modifier.Some? ==> IsModifier(driver, modifier.value))
    ensures Reads(driver, ["CREATE"] + (MaybeOne(modifier) + index))
         == match ReadsIndex(driver, index[1..])
            case None => None
            case Some(concurrently) => Some(Signature(driver, modifier, concurrently))
  {
    var tokens := ["CREATE"] + (MaybeOne(modifier) + index);
    assert !IsModifier(driver, "INDEX");
    if modifier.Some? {
      assert tokens[1] == modifier.value && tokens[2..] == index;
    } else {
      assert tokens[1..] == index;
    }
  }

  // ---------------------------------------------------------------------
  // Everything read is grammatical

  lemma HeadOf(tokens: seq<Token>)
    requires Peek(tokens) != []
    ensures tokens != [] && tokens == [Peek(tokens)] + tokens[1..]
  {
  }

  lemma DottedSplit(name: Token, path: seq<Token>, rest: seq<Token>)
    ensures Dotted([name] + path) + rest == [".", name] + (Dotted(path) + rest)
  {
    assert ([name] + path)[1..] == path;
  }

  lemma {:induction false} ReadIsDotted(tokens: seq<Token>) returns (path: seq<Token>)
    requires AfterDotted(tokens).Some?
    ensures tokens == Dotted(path) + AfterDotted(tokens).value && forall name | name in path :: IsIdentifier(name)
    decreases |tokens|
  {
    if Peek(tokens) != "." {
      path := [];
      assert Dotted(path) + tokens == tokens;
    } else {
      var more := ReadIsDotted(tokens[2..]);
      assert tokens == [".", tokens[1]] + tokens[2..];
      DottedSplit(tokens[1], more, AfterDotted(tokens).value);
      path := [tokens[1]] + more;
    }
  }

  lemma ReadColumns(driver: Driver, tokens: seq<Token>) returns (indexMethod: Option<Token>, columns: seq<Token>)
    requires ReadsColumns(driver, tokens)
    ensures tokens == MaybeUsing(indexMethod) + (["("] + columns)
    ensures indexMethod.Some? ==> driver == PostgreSql && IsIdentifier(indexMethod.value)
  {
    if driver == PostgreSql && Peek(tokens) == "USING" {
      indexMethod, columns := Some(tokens[1]), tokens[3..];
      assert tokens == ["USING", tokens[1]] + (["("] + columns);
    } else {
      indexMethod, columns := None, tokens[1..];
      assert tokens == [] + (["("] + columns);
    }
  }

  lemma ReadPath(names: seq<Token>) returns (path: seq<Token>)
    requires IsIdentifier(Peek(names)) && AfterDotted(names[1..]).Some?
    ensures path != [] && (forall name | name in path :: IsIdentifier(name)) && path[0] == names[0]
    ensures names == [path[0]] + (Dotted(path[1..]) + AfterDotted(names[1..]).value)
  {
    var more := ReadIsDotted(names[1..]);
    path := [names[0]] + more;
    assert path[1..] == more;
    HeadOf(names);
  }

  lemma ReadNames(driver: Driver, names: seq<Token>)
    returns (path: seq<Token>, indexMethod: Option<Token>, columns: seq<Token>)
    requires IsIdentifier(Peek(names)) && AfterDotted(names[1..]).Some?
    requires ReadsColumns(driver, AfterDotted(names[1..]).value)
    ensures path != [] && (forall name | name in path :: IsIdentifier(name)) && path[0] == Peek(names)
    ensures indexMethod.Some? ==> driver == PostgreSql && IsIdentifier(indexMethod.value)
    ensures names == [path[0]] + (Dotted(path[1..]) + (MaybeUsing(indexMethod) + (["("] + columns)))
  {
    path := ReadPath(names);
    indexMethod, columns := ReadColumns(driver, AfterDotted(names[1..]).value);
  }

  lemma ReadTable(driver: Driver, tokens: seq<Token>)
    returns (only: bool, path: seq<Token>, indexMethod: Option<Token>, columns: seq<Token>)
    requires ReadsTable(driver, tokens)
    ensures path != [] && (forall name | name in path :: IsIdentifier(name)) && (only ==> driver == PostgreSql)
    ensures driver == PostgreSql && !only ==> path[0] != "ONLY"
    ensures indexMethod.Some? ==> driver == PostgreSql && IsIdentifier(indexMethod.value)
    ensures tokens == Maybe(only, ["ONLY"])
                      + ([path[0]] + (Dotted(path[1..]) + (MaybeUsing(indexMethod) + (["("] + columns))))
  {
    only := driver == PostgreSql && Peek(tokens) == "ONLY";
    if only {
      HeadOf(tokens);
      path, indexMethod, columns := ReadNames(driver, tokens[1..]);
    } else {
      path, indexMethod, columns := ReadNames(driver, tokens);
      assert [] + tokens == tokens;
    }
  }

  lemma ReadTarget(driver: Driver, tokens: seq<Token>) returns (mysqlMethod: Option<Token>, rest: seq<Token>)
    requires ReadsTarget(driver, tokens)
    ensures tokens == MaybeUsing(mysqlMethod) + (["ON"] + rest) && ReadsTable(driver, rest)
    ensures mysqlMethod.Some? ==> driver == MySql
  {
    if driver == MySql && Peek(tokens) == "USING" {
      mysqlMethod, rest := Some(tokens[1]), tokens[3..];
      assert Drop(tokens, 2)[1..] == rest;
      assert tokens == ["USING", tokens[1]] + (["ON"] + rest);
    } else {
      mysqlMethod, rest := None, tokens[1..];
      assert tokens == [] + (["ON"] + rest);
    }
  }

  lemma ReadName(driver: Driver, tokens: seq<Token>) returns (guarded: bool, name: Token, rest: seq<Token>)
    requires ReadsName(driver, tokens)
    ensures tokens == Maybe(guarded, ["IF", "NOT", "EXISTS"]) + ([name] + rest)
    ensures IsIdentifier(name) && (!guarded ==> name != "IF") && ReadsTarget(driver, rest)
  {
    guarded := Peek(tokens) == "IF";
    if guarded {
      name, rest := tokens[3], tokens[4..];
      assert tokens[1] == "NOT" && tokens[2] == "EXISTS" && tokens[3..][1..] == rest;
      assert tokens == ["IF", "NOT", "EXISTS"] + ([name] + rest);
    } else {
      name, rest := tokens[0], tokens[1..];
      assert tokens == [] + ([name] + rest);
    }
  }

  lemma ReadFromName(driver: Driver, modifier: Option<Token>, concurrently: bool, tokens: seq<Token>)
    returns (shape: Shape)
    requires ReadsName(driver, tokens) && (modifier.Some? ==> IsModifier(driver, modifier.value))
    requires if concurrently then driver == PostgreSql else driver == PostgreSql ==> Peek(tokens) != "CONCURRENTLY"
    ensures shape.modifier == modifier && shape.concurrently == concurrently
    ensures Grammatical(driver, shape) && NameWords(shape) == tokens
  {
    var guarded, name, target := ReadName(driver, tokens);
    var mysqlMethod, table := ReadTarget(driver, target);
    var only, path, indexMethod, columns := ReadTable(driver, table);
    shape := Shape(modifier, concurrently, guarded, name, mysqlMethod, only, path, indexMethod, columns);
    assert TableWords(shape) == table;
    assert !guarded ==> Peek(tokens) == name;
  }

  lemma ReadFromIndex(driver: Driver, modifier: Option<Token>, tokens: seq<Token>) returns (shape: Shape)
    requires ReadsIndex(driver, tokens).Some? && (modifier.Some? ==> IsModifier(driver, modifier.value))
    ensures shape.modifier == modifier && Grammatical(driver, shape)
    ensures tokens == Maybe(shape.concurrently, ["CONCURRENTLY"]) + NameWords(shape)
  {
    var concurrently := ReadsIndex(driver, tokens).value;
    var named := if concurrently then tokens[1..] else tokens;
    shape := ReadFromName(driver, modifier, concurrently, named);
    assert tokens == Maybe(concurrently, ["CONCURRENTLY"]) + named;
  }

  lemma ReadCreate(driver: Driver, tokens: seq<Token>) returns (modifier: Option<Token>, rest: seq<Token>)
    requires Reads(driver, tokens).Some?
    ensures tokens == ["CREATE"] + (MaybeOne(modifier) + (["INDEX"] + rest))
    ensures ReadsIndex(driver, rest).Some? && (modifier.Some? ==> IsModifier(driver, modifier.value))
  {
    if IsModifier(driver, Peek(tokens[1..])) {
      modifier, rest := Some(tokens[1]), tokens[3..];
      assert tokens[2..][1..] == rest;
    } else {
      modifier, rest := None, tokens[2..];
      assert tokens[1..][1..] == rest;
    }
  }

  /** Whatever is recognised is a grammatical statement. */
  lemma ReadIsGrammatical(driver: Driver, tokens: seq<Token>) returns (shape: Shape)
    requires Reads(driver, tokens).Some?
    ensures Grammatical(driver, shape) && tokens == Words(shape)
  {
    var modifier, rest := ReadCreate(driver, tokens);
    shape := ReadFromIndex(driver, modifier, rest);
  }

  /** The recogniser accepts exactly the grammar, and its signature says no more
      than the driver, the modifier and CONCURRENTLY. */
  lemma RecognisesTheGrammar(driver: Driver, tokens: seq<Token>)
    ensures Reads(driver, tokens).Some? <==> exists shape :: Grammatical(driver, shape) && tokens == Words(shape)
    ensures forall shape | Grammatical(driver, shape) && tokens == Words(shape) ::
              Reads(driver, tokens) == Some(Signature(driver, shape.modifier, shape.concurrently))
  {
    if Reads(driver, tokens).Some? {
      var shape := ReadIsGrammatical(driver, tokens);
    }
    forall shape | Grammatical(driver, shape) && tokens == Words(shape)
      ensures Reads(driver, tokens) == Some(Signature(driver, shape.modifier, shape.concurrently))
    {
      GrammaticalIsRead(driver, shape);
    }
  }

  // ---------------------------------------------------------------------
  // Reading with an index

  function At(tokens: seq<Token>, index: nat): (token: Token)
    ensures token == Peek(Drop(tokens, index))
  {
    if index < |tokens| then tokens[index] else []
  }

  lemma DropFurther(tokens: seq<Token>, index: nat, k: nat)
    requires k <= |Drop(tokens, index)|
    ensures Drop(tokens, index)[k..] == Drop(tokens, index + k)
  {
  }

  lemma AtFurther(tokens: seq<Token>, index: nat)
    requires Drop(tokens, index) != []
    ensures At(tokens, index + 1) == Peek(Drop(tokens, index)[1..])
    ensures |Drop(tokens, index)| > 1 ==> At(tokens, index + 2) == Peek(Drop(tokens, index)[2..])
  {
    DropFurther(tokens, index, 1);
    if |Drop(tokens, index)| > 1 {
      DropFurther(tokens, index, 2);
    }
  }

  lemma {:induction false} DotAt(tokens: seq<Token>, index: nat)
    requires At(tokens, index) == "."
    ensures AfterDotted(Drop(tokens, index))
         == if IsIdentifier(At(tokens, index + 1)) then AfterDotted(Drop(tokens, index + 2)) else None
  {
    AtFurther(tokens, index);
    if IsIdentifier(At(tokens, index + 1)) {
      DropFurther(tokens, index, 2);
    }
  }

  lemma {:induction false} NoDotAt(tokens: seq<Token>, index: nat)
    requires At(tokens, index) != "."
    ensures AfterDotted(Drop(tokens, index)) == Some(Drop(tokens, index))
  {
  }

  /** The loop over dotted names. */
  method SkipDotted(tokens: seq<Token>, start: nat) returns (r: Option<nat>)
    ensures r.Some? ==> AfterDotted(Drop(tokens, start)) == Some(Drop(tokens, r.value))
    ensures r.None? ==> AfterDotted(Drop(tokens, start)).None?
  {
    var index := start;
    ghost var result := AfterDotted(Drop(tokens, start));
    while At(tokens, index) == "."
      invariant AfterDotted(Drop(tokens, index)) == result
      decreases |tokens| - index
    {
      DotAt(tokens, index);
      if !IsIdentifier(At(tokens, index + 1)) {
        return None;
      }
      index := index + 2;
    }
    NoDotAt(tokens, index);
    r := Some(index);
  }

  method ConsumeQualifiedIdentifier(tokens: seq<Token>, start: nat) returns (r: Option<nat>)
    ensures r.Some? <==> && IsIdentifier(At(tokens, start))
                         && AfterDotted(Drop(tokens, start)[1..]).Some?
    ensures r.Some? ==> AfterDotted(Drop(tokens, start)[1..]) == Some(Drop(tokens, r.value))
  {
    if !IsIdentifier(At(tokens, start)) {
      return None;
    }
    DropFurther(tokens, start, 1);
    r := SkipDotted(tokens, start + 1);
  }

  method ReadColumnsAt(driver: Driver, tokens: seq<Token>, start: nat) returns (ok: bool)
    requires Balanced(tokens, 0)
    ensures ok == ReadsColumns(driver, Drop(tokens, start))
  {
    var index := start;
    if driver == PostgreSql && At(tokens, index) == "USING" {
      AtFurther(tokens, index);
      if !IsIdentifier(At(tokens, index + 1)) {
        return false;
      }
      index := index + 2;
    }
    if At(tokens, index) != "(" {
      return false;
    }
    BalancedAlwaysCloses(tokens, index);
    ok := HasClosingParenthesis(tokens, index);
  }

  method ReadTableAt(driver: Driver, tokens: seq<Token>, start: nat) returns (ok: bool)
    requires Balanced(tokens, 0)
    ensures ok == ReadsTable(driver, Drop(tokens, start))
  {
    var index := start;
    if driver == PostgreSql && At(tokens, index) == "ONLY" {
      DropFurther(tokens, index, 1);
      index := index + 1;
    }
    var next := ConsumeQualifiedIdentifier(tokens, index);
    if next.None? {
      return false;
    }
    ok := ReadColumnsAt(driver, tokens, next.value);
  }

  method ReadTargetAt(driver: Driver, tokens: seq<Token>, start: nat) returns (ok: bool)
    requires Balanced(tokens, 0)
    ensures ok == ReadsTarget(driver, Drop(tokens, start))
  {
    var index := start;
    if driver == MySql && At(tokens, index) == "USING" {
      index := index + 2;
      assert Drop(Drop(tokens, start), 2) == Drop(tokens, index);
    }
    if At(tokens, index) != "ON" {
      return false;
    }
    DropFurther(tokens, index, 1);
    ok := ReadTableAt(driver, tokens, index + 1);
  }

  method SkipGuard(tokens: seq<Token>, start: nat) returns (r: Option<nat>)
    ensures r.Some? <==> AfterGuard(Drop(tokens, start)).Some?
    ensures r.Some? ==> AfterGuard(Drop(tokens, start)) == Some(Drop(tokens, r.value))
  {
    if At(tokens, start) != "IF" {
      return Some(start);
    }
    AtFurther(tokens, start);
    if At(tokens, start + 1) != "NOT" || At(tokens, start + 2) != "EXISTS" {
      return None;
    }
    DropFurther(tokens, start, 3);
    r := Some(start + 3);
  }

  method ReadNameAt(driver: Driver, tokens: seq<Token>, start: nat) returns (ok: bool)
    requires Balanced(tokens, 0)
    ensures ok == ReadsName(driver, Drop(tokens, start))
  {
    var named := SkipGuard(tokens, start);
    if named.None? || !IsIdentifier(At(tokens, named.value)) {
      return false;
    }
    DropFurther(tokens, named.value, 1);
    ok := ReadTargetAt(driver, tokens, named.value + 1);
  }

  method ReadIndexAt(driver: Driver, tokens: seq<Token>, start: nat) returns (concurrently: Option<bool>)
    requires Balanced(tokens, 0)
    ensures concurrently == ReadsIndex(driver, Drop(tokens, start))
  {
    var index := start;
    var present := driver == PostgreSql && At(tokens, index) == "CONCURRENTLY";
    if present {
      DropFurther(tokens, index, 1);
      index := index + 1;
    }
    var ok := ReadNameAt(driver, tokens, index);
    concurrently := if ok then Some(present) else None;
  }

  method ReadAll(driver: Driver, tokens: seq<Token>) returns (r: Option<Signature>)
    requires Balanced(tokens, 0)
    ensures r == Reads(driver, tokens)
  {
    if At(tokens, 0) != "CREATE" {
      return None;
    }
    var index := 1;
    var modifier := None;
    AtFurther(tokens, 0);
    if IsModifier(driver, At(tokens, 1)) {
      modifier := Some(tokens[1]);
      index := 2;
    }
    if At(tokens, index) != "INDEX" {
      return None;
    }
    DropFurther(tokens, index, 1);
    var concurrently := ReadIndexAt(driver, tokens, index + 1);
    r := if concurrently.Some? then Some(Signature(driver, modifier, concurrently.value)) else None;
  }

  method ShapeOfTokens(driver: Driver, tokens: seq<Token>) returns (r: Option<Signature>)
    requires Balanced(tokens, 0)
    ensures r.Some? <==> exists shape :: Grammatical(driver, shape) && tokens == Words(shape)
    ensures forall shape | Grammatical(driver, shape) && tokens == Words(shape) ::
              r == Some(Signature(driver, shape.modifier, shape.concurrently))
  {
    r := ReadAll(driver, tokens);
    RecognisesTheGrammar(driver, tokens);
  }
}
