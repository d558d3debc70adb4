/** The query bar's lexer: a scanning loop, the longest-match reading of a query, and what a cursor may rely on. */
module KqlLexer {
  import opened Encoding

  datatype Kind = Table | Pipe | Keyword | Function | Operator | Field | Ident | Text | Number | Whitespace

  datatype Token = Token(kind: Kind, text: string, start: nat, end: nat)

  /** The word lists that the lexer reads; the schema of the query bar is one of them. */
  datatype Schema = Schema(
    tables: seq<string>, fields: seq<string>, keywords: seq<string>, functions: seq<string>, operators: seq<string>)

  const KQL := Schema(
    ["DeviceLog", "File", "Entry"],
    ["device_id", "parse_state", "ingested_utc", "collected_utc", "size_bytes",
     "session_id", "relative_path", "parser_kind", "entry_count", "parse_error_count",
     "file_id", "line_number", "ts_ms", "severity", "component", "message"],
    ["where", "summarize", "project", "extend", "join", "take", "count", "order", "by", "asc", "desc",
     "and", "or", "not", "in", "between"],
    ["ago", "now", "count", "countif", "sum", "avg", "min", "max", "dcount", "startofday", "endofday"],
    KQL_OPERATORS)

  const KQL_OPERATORS := ["==", "!=", ">=", "<=", ">", "<", "has", "contains", "startswith", "endswith"]

  // ---------------------------------------------------------------------------------------------
  // Operators in the order in which they are tried
  // ---------------------------------------------------------------------------------------------

  predicate LongestFirst(ops: seq<string>) {
    |ops| > 1 ==> |ops[0]| >= |ops[1]| && LongestFirst(ops[1..])
  }

  /** Stable insertion: before the first operator that is not longer. */
  function Insert(op: string, ops: seq<string>): (r: seq<string>)
    requires LongestFirst(ops)
    ensures LongestFirst(r) && r != [] && (r[0] == op || (ops != [] && r[0] == ops[0]))
  {
    if ops == [] then [op]
    else if |op| >= |ops[0]| then
      assert ([op] + ops)[1..] == ops;
      [op] + ops
    else
      var rest := Insert(op, ops[1..]);
      assert ([ops[0]] + rest)[1..] == rest;
      [ops[0]] + rest
  }

  function SortByLength(ops: seq<string>): (r: seq<string>)
    ensures LongestFirst(r)
  {
    if ops == [] then [] else Insert(ops[0], SortByLength(ops[1..]))
  }

  lemma {:induction false} InsertKeepsAll(op: string, ops: seq<string>)
    requires LongestFirst(ops)
    ensures multiset(Insert(op, ops)) == multiset{op} + multiset(ops)
  {
    if ops != [] {
      assert ops == [ops[0]] + ops[1..];
      if |op| < |ops[0]| {
        InsertKeepsAll(op, ops[1..]);
      }
    }
  }

  /** The same operators in the order in which they are tried. */
  ghost predicate Ordering(sorted: seq<string>, ops: seq<string>) {
    LongestFirst(sorted) && forall o :: o in sorted <==> o in ops
  }

  lemma SortOrders(ops: seq<string>)
    ensures Ordering(SortByLength(ops), ops)
  {
    SortKeepsAll(ops);
    forall o
      ensures o in SortByLength(ops) <==> o in ops
    {
      assert o in SortByLength(ops) <==> o in multiset(SortByLength(ops));
      assert o in ops <==> o in multiset(ops);
    }
  }

  /** Sorting keeps every operator as often as it is listed. */
  lemma {:induction false} SortKeepsAll(ops: seq<string>)
    ensures multiset(SortByLength(ops)) == multiset(ops)
  {
    if ops != [] {
      assert ops == [ops[0]] + ops[1..];
      SortKeepsAll(ops[1..]);
      InsertKeepsAll(ops[0], SortByLength(ops[1..]));
    }
  }

  lemma {:induction false} EarlierIsLonger(ops: seq<string>, i: nat, j: nat)
    requires LongestFirst(ops) && i <= j < |ops|
    ensures |ops[i]| >= |ops[j]|
    decreases j
  {
    if i > 0 {
      EarlierIsLonger(ops[1..], i - 1, j - 1);
    } else if j > 0 {
      EarlierIsLonger(ops[1..], 0, j - 1);
    }
  }

  // ---------------------------------------------------------------------------------------------
  // Longest-match reading of a query
  // ---------------------------------------------------------------------------------------------

  predicate IsSpace(c: char) {
    c in {'\t', '\n', '\U{0B}', '\U{0C}', '\r', ' ', '\U{A0}', '\U{1680}', '\U{2028}', '\U{2029}', '\U{202F}',
          '\U{205F}', '\U{3000}', '\U{FEFF}'} ||
    '\U{2000}' <= c <= '\U{200A}'
  }

  predicate IsDigit(c: char) {
    '0' <= c <= '9'
  }

  predicate IsLetter(c: char) {
    'A' <= c <= 'Z' || 'a' <= c <= 'z'
  }

  predicate IsIdentStart(c: char) {
    IsLetter(c) || c == '_'
  }

  predicate IsIdentPart(c: char) {
    IsLetter(c) || IsDigit(c) || c == '_'
  }

  predicate IsNumberPart(c: char) {
    IsLetter(c) || IsDigit(c)
  }

  predicate NotQuote(c: char) {
    c != '"'
  }

  /** The length of the longest prefix all of whose characters satisfy the predicate. */
  function Span(s: string, p: char -> bool): (n: nat)
    ensures n <= |s| && (forall k :: 0 <= k < n ==> p(s[k])) && (n < |s| ==> !p(s[n]))
  {
    if s != [] && p(s[0]) then 1 + Span(s[1..], p) else 0
  }

  /** The longest of the given operators that the text starts with, the empty string if there is none. */
  function Longest(ops: seq<string>, s: string): (r: string)
    ensures r <= s && (r == "" || r in ops)
    ensures forall o :: o in ops && o <= s ==> |o| <= |r|
  {
    if ops == [] then ""
    else
      var rest := Longest(ops[1..], s);
      if ops[0] <= s && |ops[0]| > |rest| then ops[0] else rest
  }

  function Lower(s: string): (r: string)
    ensures |r| == |s| && forall k :: 0 <= k < |s| ==> r[k] == LowerChar(s[k])
  {
    if s == [] then [] else [LowerChar(s[0])] + Lower(s[1..])
  }

  function WordKind(x: Schema, text: string): Kind {
    if text in x.tables then Table
    else if Lower(text) in x.keywords then Keyword
    else if Lower(text) in x.functions then Function
    else if text in x.fields then Field
    else Ident
  }

  /** The length of the token at the start of a text. */
  function TokenLength(x: Schema, s: string): (n: nat)
    requires s != []
    ensures 1 <= n <= |s|
  {
    var op := Longest(x.operators, s);
    if IsSpace(s[0]) then Span(s, IsSpace)
    else if s[0] == '|' then 1
    else if s[0] == '"' then
      var body := Span(s[1..], NotQuote);
      if 1 + body < |s| then body + 2 else body + 1
    else if IsDigit(s[0]) then Span(s, IsNumberPart)
    else if op != "" then |op|
    else if IsIdentStart(s[0]) then Span(s, IsIdentPart)
    else 1
  }

  function TokenKind(x: Schema, s: string): Kind
    requires s != []
  {
    if IsSpace(s[0]) then Whitespace
    else if s[0] == '|' then Pipe
    else if s[0] == '"' then Text
    else if IsDigit(s[0]) then Number
    else if Longest(x.operators, s) != "" then Operator
    else if IsIdentStart(s[0]) then WordKind(x, s[..TokenLength(x, s)])
    else Ident
  }

  function Lex(x: Schema, s: string, at: nat): seq<Token>
    decreases |s|
  {
    if s == [] then []
    else
      var n := TokenLength(x, s);
      [FirstToken(x, s, at)] + Lex(x, s[n..], at + n)
  }

  function FirstToken(x: Schema, s: string, at: nat): (t: Token)
    requires s != []
    ensures t.start == at && t.end == at + TokenLength(x, s) && t.text == s[..TokenLength(x, s)]
  {
    var n := TokenLength(x, s);
    Token(TokenKind(x, s), s[..n], at, at + n)
  }

  // ---------------------------------------------------------------------------------------------
  // The scanning loop
  // ---------------------------------------------------------------------------------------------

  method ReadWhile(input: string, i: nat, p: char -> bool) returns (r: nat)
    requires i <= |input|
    ensures r == i + Span(input[i..], p)
  {
    r := i;
    while r < |input| && p(input[r])
      invariant i <= r <= |input|
      invariant i + Span(input[i..], p) == r + Span(input[r..], p)
    {
      assert input[r..][1..] == input[r + 1..];
      r := r + 1;
    }
  }

  /** The first of the operators, longest first, that the input continues with. */
  method MatchOperator(sorted: seq<string>, ghost ops: seq<string>, input: string, i: nat) returns (matched: string)
    requires i < |input| && Ordering(sorted, ops)
    ensures matched == Longest(ops, input[i..])
  {
    matched := "";
    for k := 0 to |sorted|
      invariant matched == ""
      invariant forall j :: 0 <= j < k ==> !(sorted[j] <= input[i..])
    {
      if sorted[k] <= input[i..] {
        FirstIsLongest(sorted, ops, input[i..], k);
        return sorted[k];
      }
    }
  }

  lemma FirstIsLongest(sorted: seq<string>, ops: seq<string>, s: string, k: nat)
    requires Ordering(sorted, ops) && k < |sorted| && sorted[k] <= s
    requires forall j :: 0 <= j < k ==> !(sorted[j] <= s)
    ensures sorted[k] == Longest(ops, s)
  {
    var longest := Longest(ops, s);
    assert sorted[k] in ops;
    if longest != "" {
      var j :| 0 <= j < |sorted| && sorted[j] == longest;
      EarlierIsLonger(sorted, k, j);
    }
    SamePrefix(sorted[k], longest, s);
  }

  lemma SamePrefix(a: string, b: string, s: string)
    requires a <= s && b <= s && |a| == |b|
    ensures a == b
  {
    assert a == s[..|a|];
  }

  method ReadString(x: Schema, input: string, i: nat) returns (r: nat)
    requires i < |input| && input[i] == '"'
    ensures i < r <= |input| && r == i + TokenLength(x, input[i..])
  {
    r := i + 1;
    while r < |input| && input[r] != '"'
      invariant i < r <= |input|
      invariant i + 1 + Span(input[i + 1..], NotQuote) == r + Span(input[r..], NotQuote)
    {
      assert input[r..][1..] == input[r + 1..];
      r := r + 1;
    }
    assert input[i..][1..] == input[i + 1..];
    if r < |input| {
      r := r + 1;
    }
  }

  /** One turn of the scanning loop: the token that starts at the given place. */
  method Scan(x: Schema, sorted: seq<string>, input: string, start: nat) returns (kind: Kind, i: nat)
    requires start < |input| && Ordering(sorted, x.operators)
    ensures kind == TokenKind(x, input[start..]) && i == start + TokenLength(x, input[start..])
  {
    var c := input[start];
    i := start;
    if IsSpace(c) {
      i := ReadWhile(input, i, IsSpace);
      kind := Whitespace;
    } else if c == '|' {
      i := i + 1;
      kind := Pipe;
    } else if c == '"' {
      i := ReadString(x, input, i);
      kind := Text;
    } else if IsDigit(c) {
      i := ReadWhile(input, i, IsNumberPart);
      kind := Number;
    } else {
      var matched := MatchOperator(sorted, x.operators, input, i);
      if matched != "" {
        i := i + |matched|;
        kind := Operator;
      } else if IsIdentStart(c) {
        i := ReadWhile(input, i, IsIdentPart);
        assert input[start..][..i - start] == input[start..i];
        kind := WordKind(x, input[start..i]);
      } else {
        i := i + 1;
        kind := Ident;
      }
    }
  }

  method Tokenize(x: Schema, input: string) returns (tokens: seq<Token>)
    ensures tokens == Lex(x, input, 0)
  {
    hide Lex, TokenLength, TokenKind, SortByLength, Ordering;
    var sorted := SortByLength(x.operators);
    SortOrders(x.operators);
    tokens := [];
    var i := 0;
    assert input[0..] == input;
    while i < |input|
      invariant i <= |input|
      invariant Lex(x, input, 0) == tokens + Lex(x, input[i..], i)
    {
      ghost var before := tokens;
      var start := i;
      var kind;
      kind, i := Scan(x, sorted, input, start);
      var t := Token(kind, input[start..i], start, i);
      tokens := tokens + [t];
      LexStep(x, input, start);
      assert before + ([t] + Lex(x, input[i..], i)) == tokens + Lex(x, input[i..], i);
    }
    LexEnd(x, input[i..], i);
  }

  lemma LexStep(x: Schema, input: string, start: nat)
    requires start < |input|
    ensures var s := input[start..];
            var end := start + TokenLength(x, s);
            Lex(x, s, start) == [Token(TokenKind(x, s), input[start..end], start, end)] + Lex(x, input[end..], end)
  {
    hide TokenLength, TokenKind;
    var n := TokenLength(x, input[start..]);
    assert input[start..][..n] == input[start..start + n];
    assert input[start..][n..] == input[start + n..];
  }

  lemma LexEnd(x: Schema, s: string, at: nat)
    requires s == ""
    ensures Lex(x, s, at) == []
  {
  }

  lemma LexCons(x: Schema, s: string, at: nat)
    requires s != ""
    ensures var n := TokenLength(x, s); Lex(x, s, at) == [FirstToken(x, s, at)] + Lex(x, s[n..], at + n)
  {
    hide TokenLength, FirstToken;
  }

  // ---------------------------------------------------------------------------------------------
  // Losslessness
  // ---------------------------------------------------------------------------------------------

  /** The tokens cover the text without a gap, an overlap or an empty token, and each shows what it covers. */
  predicate Tiles(tokens: seq<Token>, s: string, at: nat) {
    if tokens == [] then s == ""
    else
      var t := tokens[0];
      && t.start == at < t.end <= at + |s| && t.text == s[..t.end - at]
      && Tiles(tokens[1..], s[t.end - at..], t.end)
  }

  function Concat(tokens: seq<Token>): string {
    if tokens == [] then "" else tokens[0].text + Concat(tokens[1..])
  }

  lemma LosslessCons(t: Token, rest: seq<Token>, s: string, at: nat, n: nat)
    requires 1 <= n <= |s| && t.start == at && t.end == at + n && t.text == s[..n]
    requires Tiles(rest, s[n..], at + n) && Concat(rest) == s[n..]
    ensures Tiles([t] + rest, s, at) && Concat([t] + rest) == s
  {
    assert ([t] + rest)[1..] == rest;
    assert s[..n] + s[n..] == s;
  }

  lemma LosslessEnd(at: nat)
    ensures Tiles([], "", at) && Concat([]) == ""
  {
  }

  /** Losslessness: the tokens tile the query and their texts make it up. */
  lemma {:induction false} LexIsLossless(x: Schema, s: string, at: nat)
    ensures Tiles(Lex(x, s, at), s, at) && Concat(Lex(x, s, at)) == s
    decreases |s|
  {
    hide TokenLength, FirstToken, Tiles, Concat, Lex;
    if s == "" {
      LexEnd(x, s, at);
      LosslessEnd(at);
    } else {
      var n := TokenLength(x, s);
      LexCons(x, s, at);
      LexIsLossless(x, s[n..], at + n);
      LosslessCons(FirstToken(x, s, at), Lex(x, s[n..], at + n), s, at, n);
    }
  }

  predicate Increasing(tokens: seq<Token>, at: nat) {
    && (forall i :: 0 <= i < |tokens| ==> at <= tokens[i].start < tokens[i].end)
    && (forall i, j :: 0 <= i < j < |tokens| ==> tokens[i].end <= tokens[j].start)
  }

  lemma {:induction false} TilesIncrease(tokens: seq<Token>, s: string, at: nat)
    requires Tiles(tokens, s, at)
    ensures Increasing(tokens, at)
    decreases |tokens|
  {
    if tokens != [] {
      TilesIncrease(tokens[1..], s[tokens[0].end - at..], tokens[0].end);
    }
  }

  /** Each tile shows the part of the text that it covers and starts where the one before it ends. */
  lemma {:induction false} TileAt(tokens: seq<Token>, s: string, at: nat, k: nat)
    requires Tiles(tokens, s, at) && k < |tokens|
    ensures at <= tokens[k].start < tokens[k].end <= at + |s|
    ensures tokens[k].text == s[tokens[k].start - at..tokens[k].end - at]
    ensures tokens[k].start == if k == 0 then at else tokens[k - 1].end
    ensures k == |tokens| - 1 ==> tokens[k].end == at + |s|
    decreases k
  {
    var n := tokens[0].end - at;
    if k > 0 {
      TileAt(tokens[1..], s[n..], tokens[0].end, k - 1);
      var t := tokens[k];
      assert s[n..][t.start - at - n..t.end - at - n] == s[t.start - at..t.end - at];
    }
  }

  /** Reading on from the start of a token gives the remaining tokens. */
  lemma {:induction false} LexFrom(x: Schema, s: string, at: nat, k: nat)
    requires k < |Lex(x, s, at)|
    ensures var start := Lex(x, s, at)[k].start;
            at <= start < at + |s| && Lex(x, s[start - at..], start) == Lex(x, s, at)[k..]
    decreases |s|
  {
    hide Lex, TokenLength, FirstToken;
    if s == "" {
      LexEnd(x, s, at);
    } else if k == 0 {
      LexCons(x, s, at);
      assert s[0..] == s;
    } else {
      var n := TokenLength(x, s);
      var rest := Lex(x, s[n..], at + n);
      LexCons(x, s, at);
      LexFrom(x, s[n..], at + n, k - 1);
      var start := rest[k - 1].start;
      assert s[n..][start - at - n..] == s[start - at..];
      assert Lex(x, s, at)[k..] == rest[k - 1..];
    }
  }

  /** An operator token is the longest listed operator at its place, and no word starts with a listed operator. */
  lemma OperatorsAreLongest(x: Schema, q: string, k: nat)
    requires k < |Lex(x, q, 0)| && Lex(x, q, 0)[k].start < |q|
    ensures var t := Lex(x, q, 0)[k];
            && (t.kind == Operator ==> IsLongest(t.text, x.operators, q[t.start..]))
            && (t.kind != Operator && IsIdentStart(q[t.start]) ==> StartsWithNone(x.operators, q[t.start..]))
  {
    hide Lex, TokenLength, TokenKind, IsLongest, StartsWithNone;
    var tokens := Lex(x, q, 0);
    var start := tokens[k].start;
    LexFrom(x, q, 0, k);
    FirstOperatorIsLongest(x, q[start..]);
    LexStarts(x, q[start..], start);
    assert tokens[k] == tokens[k..][0];
  }

  lemma LexStarts(x: Schema, s: string, at: nat)
    requires s != ""
    ensures Lex(x, s, at) != [] && Lex(x, s, at)[0] == FirstToken(x, s, at)
  {
  }

  lemma FirstOperatorIsLongest(x: Schema, s: string)
    requires s != ""
    ensures TokenKind(x, s) == Operator ==> IsLongest(s[..TokenLength(x, s)], x.operators, s)
    ensures TokenKind(x, s) != Operator && IsIdentStart(s[0]) ==> StartsWithNone(x.operators, s)
  {
    var op := Longest(x.operators, s);
    assert op == s[..|op|];
  }

  /** What the first character of a token says about it, in the order in which the lexer asks. */
  predicate FirstDecides(t: Token) {
    && t.text != ""
    && var c := t.text[0];
    && (t.kind == Pipe <==> c == '|') && (t.kind == Text <==> c == '"') && (t.kind == Number <==> '0' <= c <= '9')
    && (c in {' ', '\t', '\n', '\r'} ==> t.kind == Whitespace) && (t.kind == Whitespace <==> IsSpace(c))
  }

  predicate AllOf(s: string, p: char -> bool) {
    forall k :: 0 <= k < |s| ==> p(s[k])
  }

  /** The longest run of such characters at the start of the text. */
  predicate IsRun(run: string, s: string, p: char -> bool) {
    run <= s && AllOf(run, p) && (|run| < |s| ==> !p(s[|run|]))
  }

  predicate IsWordCharacter(c: char) {
    'a' <= c <= 'z' || 'A' <= c <= 'Z' || '0' <= c <= '9' || c == '_'
  }

  predicate IsAlphanumeric(c: char) {
    IsWordCharacter(c) && c != '_'
  }

  /** A string ends at the next quote, or with the query if there is none. */
  predicate IsQuoted(t: string, s: string) {
    && t <= s && t != "" && t[0] == '"' && (forall k :: 0 < k < |t| - 1 ==> t[k] != '"')
    && if |t| > 1 && t[|t| - 1] == '"' then true else t == s
  }

  /** Which list a word is found in: tables and fields as they are written, keywords and functions in any case. */
  predicate IsFiled(x: Schema, t: Token) {
    var table, keyword, name, field :=
      t.text in x.tables, Lower(t.text) in x.keywords, Lower(t.text) in x.functions, t.text in x.fields;
    && (t.kind == Table <==> table) && (t.kind == Keyword <==> !table && keyword)
    && (t.kind == Function <==> !table && !keyword && name)
    && (t.kind == Field <==> !table && !keyword && !name && field)
    && (t.kind == Ident <==> !table && !keyword && !name && !field)
  }

  /** A token as the grammar of the query language has it, given what is left of the query from its start on. */
  predicate FollowsGrammar(x: Schema, t: Token, s: string) {
    && FirstDecides(t)
    && match t.kind
       case Whitespace => IsRun(t.text, s, IsSpace)
       case Pipe => t.text == "|"
       case Text => IsQuoted(t.text, s)
       case Number => IsRun(t.text, s, IsAlphanumeric)
       case Operator => IsLongest(t.text, x.operators, s)
       case _ => IsFiledWord(x, t, s) || (t.kind == Ident && |t.text| == 1 && !StartsWord(t.text[0]))
  }

  predicate StartsWord(c: char) {
    IsWordCharacter(c) && !('0' <= c <= '9')
  }

  predicate IsFiledWord(x: Schema, t: Token, s: string) {
    t.text != "" && StartsWord(t.text[0]) && IsRun(t.text, s, IsWordCharacter) && IsFiled(x, t)
  }

  /** Spans do not depend on how the class of characters is written down. */
  lemma {:induction false} SpanBySameClass(s: string, p: char -> bool, q: char -> bool)
    requires forall c :: p(c) == q(c)
    ensures IsRun(s[..Span(s, p)], s, q)
  {
    var n := Span(s, p);
    assert forall k :: 0 <= k < n ==> p(s[k]);
  }

  lemma FirstTokenFollowsGrammar(x: Schema, s: string, at: nat)
    requires s != ""
    ensures FollowsGrammar(x, FirstToken(x, s, at), s)
  {
    hide Span, WordKind, Longest, IsLongest, IsSpace;
    FirstOperatorIsLongest(x, s);
    var t := FirstToken(x, s, at);
    assert t.text[0] == s[0];
    if IsSpace(s[0]) {
      SpanBySameClass(s, IsSpace, IsSpace);
      SpacesAreNothingElse(s[0]);
    } else if s[0] == '"' {
      QuotedUpTo(x, s);
    } else if '0' <= s[0] <= '9' {
      SpanBySameClass(s, IsNumberPart, IsAlphanumeric);
    } else if s[0] != '|' && Longest(x.operators, s) == "" && IsIdentStart(s[0]) {
      SpanBySameClass(s, IsIdentPart, IsWordCharacter);
      WordIsFiled(x, t.text, t);
    }
    BlanksAreSpaces(s[0]);
  }

  lemma SpacesAreNothingElse(c: char)
    requires IsSpace(c)
    ensures c != '|' && c != '"' && !('0' <= c <= '9')
  {
  }

  lemma BlanksAreSpaces(c: char)
    ensures c in {' ', '\t', '\n', '\r'} ==> IsSpace(c)
  {
  }

  lemma WordIsFiled(x: Schema, text: string, t: Token)
    requires t.text == text && t.kind == WordKind(x, text)
    ensures IsFiled(x, t)
  {
  }

  lemma QuotedUpTo(x: Schema, s: string)
    requires s != "" && s[0] == '"'
    ensures IsQuoted(s[..TokenLength(x, s)], s)
  {
    var body := Span(s[1..], NotQuote);
    assert forall k :: 0 <= k < body ==> NotQuote(s[1..][k]);
    assert forall k :: 0 < k <= body ==> s[k] == s[1..][k - 1];
    assert 1 + body < |s| ==> s[1 + body] == s[1..][body];
  }

  /** Every token of a query follows the grammar. */
  lemma TokensFollowGrammar(x: Schema, q: string, k: nat)
    requires k < |Lex(x, q, 0)|
    ensures var t := Lex(x, q, 0)[k]; t.start < |q| && FollowsGrammar(x, t, q[t.start..])
  {
    hide Lex, TokenLength, TokenKind, FollowsGrammar;
    var tokens := Lex(x, q, 0);
    var start := tokens[k].start;
    LexFrom(x, q, 0, k);
    FirstTokenFollowsGrammar(x, q[start..], start);
    LexStarts(x, q[start..], start);
    assert tokens[k] == tokens[k..][0];
  }

  /** Keywords and functions are found whatever the case of their letters. */
  lemma WordsIgnoreCase(x: Schema, u: string, v: string)
    requires |u| == |v| && forall k :: 0 <= k < |u| ==> SameLetter(u[k], v[k])
    requires u !in x.tables && v !in x.tables
    ensures WordKind(x, u) == Keyword <==> WordKind(x, v) == Keyword
    ensures WordKind(x, u) == Function <==> WordKind(x, v) == Function
  {
    assert Lower(u) == Lower(v);
  }

  /** In the query bar `count` is listed as a function but always read as a keyword. */
  lemma CountIsNeverAFunction(text: string)
    requires Lower(text) == "count" && text !in KQL.tables
    ensures WordKind(KQL, text) == Keyword && Lower(text) in KQL.functions
  {
    assert KQL.keywords[6] == "count" && KQL.functions[2] == "count";
  }

  predicate SameLetter(c: char, d: char) {
    c == d || ('A' <= c <= 'Z' && d as int == c as int + 32) || ('A' <= d <= 'Z' && c as int == d as int + 32)
  }

  predicate StartsWithNone(ops: seq<string>, s: string) {
    forall o :: o in ops && o != "" ==> !(o <= s)
  }

  predicate IsLongest(r: string, ops: seq<string>, s: string) {
    && r != "" && r in ops && r <= s
    && forall o :: o in ops && o <= s ==> |o| <= |r|
  }

  // ---------------------------------------------------------------------------------------------
  // Lexing up to a cursor
  // ---------------------------------------------------------------------------------------------

  predicate Boundary(tokens: seq<Token>, c: nat) {
    c == 0 || exists k :: 0 <= k < |tokens| && tokens[k].end == c
  }

  /** All tokens before the cursor but the last are tokens of the query, and at a token boundary the last one too. */
  predicate CursorSafe(x: Schema, q: string, c: nat)
    requires c <= |q|
  {
    var whole, cut := Lex(x, q, 0), Lex(x, q[..c], 0);
    && (cut != [] ==> cut[..|cut| - 1] <= whole)
    && (Boundary(whole, c) ==> cut <= whole)
  }

  /** Every proper prefix of an operator is read as a single token. */
  ghost predicate CutsClean(x: Schema) {
    forall o, c: nat :: o in x.operators && 0 < c < |o| && TokenKind(x, o) == Operator ==>
      TokenLength(x, o[..c]) == c
  }

  lemma {:induction false} SpanOfPrefix(s: string, c: nat, p: char -> bool)
    requires c <= |s|
    ensures Span(s[..c], p) == if Span(s, p) <= c then Span(s, p) else c
  {
    if c > 0 && p(s[0]) {
      SpanOfPrefix(s[1..], c - 1, p);
      assert s[..c][1..] == s[1..][..c - 1];
    }
  }

  lemma LongestOfPrefix(ops: seq<string>, s: string, c: nat)
    requires c <= |s| && |Longest(ops, s)| <= c
    ensures Longest(ops, s[..c]) == Longest(ops, s)
  {
    var long, short := Longest(ops, s), Longest(ops, s[..c]);
    assert long <= s[..c] by {
      assert long == s[..|long|] == s[..c][..|long|];
    }
    assert short <= s by {
      assert short == s[..c][..|short|] == s[..|short|];
    }
    assert |short| == |long|;
    SamePrefix(short, long, s);
  }

  lemma LongOperatorIsCut(x: Schema, s: string, c: nat)
    requires CutsClean(x) && 0 < c <= |s| && TokenKind(x, s) == Operator && c < |Longest(x.operators, s)|
    ensures TokenLength(x, s[..c]) == c
  {
    var op := Longest(x.operators, s);
    LongestOfPrefix(x.operators, s, |op|);
    assert op == s[..|op|] && op[0] == s[0] && op[..c] == s[..c];
    assert TokenKind(x, op) == Operator;
  }

  lemma StringOfPrefix(s: string, c: nat)
    requires 0 < c <= |s|
    ensures Span(s[..c][1..], NotQuote) == if Span(s[1..], NotQuote) <= c - 1 then Span(s[1..], NotQuote) else c - 1
  {
    SpanOfPrefix(s[1..], c - 1, NotQuote);
    assert s[..c][1..] == s[1..][..c - 1];
  }

  predicate SameUpTo(x: Schema, s: string, c: nat)
    requires 0 < c <= |s|
  {
    if TokenLength(x, s) <= c then
      TokenLength(x, s[..c]) == TokenLength(x, s) && TokenKind(x, s[..c]) == TokenKind(x, s)
    else TokenLength(x, s[..c]) == c
  }

  /** The first token of a text cut at the cursor: the same one if it ends before the cursor, else all that is left. */
  lemma FirstTokenOfPrefix(x: Schema, s: string, c: nat)
    requires CutsClean(x) && 0 < c <= |s|
    ensures SameUpTo(x, s, c)
  {
    var op, n := Longest(x.operators, s), TokenLength(x, s);
    assert s[..c][0] == s[0];
    if TokenKind(x, s) == Operator {
      if c < |op| {
        LongOperatorIsCut(x, s, c);
      } else {
        LongestOfPrefix(x.operators, s, c);
      }
    } else if IsSpace(s[0]) || s[0] == '|' || s[0] == '"' || IsDigit(s[0]) {
      ClosedTokenOfPrefix(x, s, c);
    } else {
      hide CutsClean, IsSpace, IsDigit, IsIdentStart, Span, WordKind;
      LongestOfPrefix(x.operators, s, c);
      SpanOfPrefix(s, c, IsIdentPart);
      assert n <= c ==> s[..c][..n] == s[..n];
    }
  }

  lemma ClosedTokenOfPrefix(x: Schema, s: string, c: nat)
    requires 0 < c <= |s| && (IsSpace(s[0]) || s[0] == '|' || s[0] == '"' || IsDigit(s[0]))
    ensures SameUpTo(x, s, c)
  {
    hide Longest, WordKind, Span, IsIdentStart;
    assert s[..c][0] == s[0];
    if IsSpace(s[0]) {
      SpanOfPrefix(s, c, IsSpace);
    } else if s[0] == '"' {
      StringOfPrefix(s, c);
    } else if IsDigit(s[0]) {
      SpanOfPrefix(s, c, IsNumberPart);
    }
  }

  /** How many tokens end at or before the cursor. */
  function Before(tokens: seq<Token>, c: nat): (n: nat)
    ensures n <= |tokens|
  {
    if tokens == [] || tokens[0].end > c then 0 else 1 + Before(tokens[1..], c)
  }

  /** The tokens up to a cursor are those of the query that end there or earlier, then at most one cut token. */
  predicate CutAt(whole: seq<Token>, cut: seq<Token>, c: nat) {
    var n := Before(whole, c);
    && n <= |cut| <= n + 1 && cut[..n] == whole[..n]
    && (|cut| == n + 1 ==>
         n < |whole| && cut[n].start == whole[n].start < c < whole[n].end && cut[n].end == c)
  }

  lemma CutAtCons(t: Token, whole: seq<Token>, cut: seq<Token>, c: nat)
    requires t.end <= c && CutAt(whole, cut, c)
    ensures CutAt([t] + whole, [t] + cut, c)
  {
    assert ([t] + whole)[1..] == whole;
    var n := Before(whole, c);
    assert ([t] + cut)[..n + 1] == [t] + cut[..n] == [t] + whole[..n] == ([t] + whole)[..n + 1];
  }

  lemma LexUpToStep(x: Schema, s: string, at: nat, c: nat)
    requires CutsClean(x) && s != "" && TokenLength(x, s) <= c <= |s|
    requires var n := TokenLength(x, s);
             CutAt(Lex(x, s[n..], at + n), Lex(x, s[n..][..c - n], at + n), at + c)
    ensures CutAt(Lex(x, s, at), Lex(x, s[..c], at), at + c)
  {
    hide TokenLength, TokenKind, FirstToken, CutsClean, CutAt;
    var n := TokenLength(x, s);
    var t, rest, cutRest := FirstToken(x, s, at), Lex(x, s[n..], at + n), Lex(x, s[n..][..c - n], at + n);
    FirstTokenOfPrefix(x, s, c);
    assert s[..c][n..] == s[n..][..c - n] && s[..c][..n] == s[..n];
    SameFirstToken(x, s, s[..c], at);
    LexCons(x, s, at);
    LexCons(x, s[..c], at);
    hide Lex;
    CutAtCons(t, rest, cutRest, at + c);
  }

  lemma LexUpToInside(x: Schema, s: string, at: nat, c: nat)
    requires CutsClean(x) && 0 < c <= |s| && c < TokenLength(x, s)
    ensures CutAt(Lex(x, s, at), Lex(x, s[..c], at), at + c)
  {
    hide TokenLength, TokenKind, FirstToken, CutsClean, CutAt;
    var n := TokenLength(x, s);
    var t, rest, t' := FirstToken(x, s, at), Lex(x, s[n..], at + n), FirstToken(x, s[..c], at);
    FirstTokenOfPrefix(x, s, c);
    LexCons(x, s, at);
    LexCons(x, s[..c], at);
    assert TokenLength(x, s[..c]) == c;
    LexEnd(x, s[..c][c..], at + c);
    assert Lex(x, s[..c], at) == [t'];
    hide Lex;
    CutInside(t, rest, t', at + c);
  }

  lemma {:induction false} LexUpTo(x: Schema, s: string, at: nat, c: nat)
    requires CutsClean(x) && c <= |s|
    ensures CutAt(Lex(x, s, at), Lex(x, s[..c], at), at + c)
    decreases |s|
  {
    hide TokenLength, TokenKind, CutsClean;
    if c == 0 {
      assert s != "" ==> Lex(x, s, at)[0].end > at;
    } else if c < TokenLength(x, s) {
      LexUpToInside(x, s, at, c);
    } else {
      hide CutAt, Lex;
      var n := TokenLength(x, s);
      LexUpTo(x, s[n..], at + n, c - n);
      LexUpToStep(x, s, at, c);
    }
  }

  lemma CutInside(t: Token, rest: seq<Token>, t': Token, c: nat)
    requires t'.start == t.start < c == t'.end < t.end
    ensures CutAt([t] + rest, [t'], c)
  {
  }

  lemma SameFirstToken(x: Schema, s: string, p: string, at: nat)
    requires s != "" && p != "" && TokenLength(x, s) == TokenLength(x, p) && TokenKind(x, s) == TokenKind(x, p)
    requires s[..TokenLength(x, s)] == p[..TokenLength(x, p)]
    ensures FirstToken(x, s, at) == FirstToken(x, p, at)
  {
  }

  lemma {:induction false} EndsAreBefore(tokens: seq<Token>, c: nat, k: nat)
    requires Increasing(tokens, 0) && k < |tokens|
    ensures tokens[k].end <= c <==> k < Before(tokens, c)
    decreases k
  {
    if k > 0 {
      EndsAreBefore(tokens[1..], c, k - 1);
    }
  }

  /** Prefix stability holds for every query and cursor exactly when no operator falls apart when it is cut. */
  lemma PrefixStability(x: Schema)
    ensures (forall q, c: nat :: c <= |q| ==> CursorSafe(x, q, c)) <==> CutsClean(x)
  {
    if CutsClean(x) {
      forall q, c: nat | c <= |q|
        ensures CursorSafe(x, q, c)
      {
        CleanCutsAreSafe(x, q, c);
      }
    } else {
      var o, c: nat :| o in x.operators && 0 < c < |o| && TokenKind(x, o) == Operator && TokenLength(x, o[..c]) != c;
      BrokenOperatorIsUnsafe(x, o, c);
    }
  }

  lemma CutAtBoundary(whole: seq<Token>, cut: seq<Token>, c: nat, k: nat)
    requires CutAt(whole, cut, c) && Increasing(whole, 0) && k < |whole| && whole[k].end == c
    ensures cut == whole[..k + 1]
  {
    EndsAreBefore(whole, c, k);
    if k + 1 < |whole| {
      EndsAreBefore(whole, c, k + 1);
    }
    assert Before(whole, c) == k + 1;
  }

  lemma CleanCutsAreSafe(x: Schema, q: string, c: nat)
    requires CutsClean(x) && c <= |q|
    ensures CursorSafe(x, q, c)
  {
    hide Lex, CutsClean;
    var whole, cut := Lex(x, q, 0), Lex(x, q[..c], 0);
    LexUpTo(x, q, 0, c);
    if c == 0 {
      LexIsLossless(x, "", 0);
      assert q[..c] == "";
    } else if Boundary(whole, c) {
      var k :| 0 <= k < |whole| && whole[k].end == c;
      LexIsLossless(x, q, 0);
      TilesIncrease(whole, q, 0);
      CutAtBoundary(whole, cut, c, k);
    }
    assert cut != [] ==> cut[..|cut| - 1] == whole[..|cut| - 1];
  }

  lemma BrokenOperatorIsUnsafe(x: Schema, o: string, c: nat)
    requires o in x.operators && 0 < c < |o| && TokenKind(x, o) == Operator && TokenLength(x, o[..c]) != c
    ensures !CursorSafe(x, o, c)
  {
    var whole, cut := Lex(x, o, 0), Lex(x, o[..c], 0);
    SamePrefix(Longest(x.operators, o), o, o);
    assert TokenLength(x, o) == |o|;
    hide TokenLength, TokenKind;
    assert whole[0].end == |o|;
    var n := TokenLength(x, o[..c]);
    assert cut == [cut[0]] + Lex(x, o[..c][n..], n) && cut[0].end == n < |o|;
    assert |cut| >= 2;
    assert cut[..|cut| - 1][0] == cut[0];
  }

  lemma TokensIncrease(x: Schema, q: string)
    ensures Increasing(Lex(x, q, 0), 0)
    ensures forall k :: 0 <= k < |Lex(x, q, 0)| ==> Lex(x, q, 0)[k].end <= |q|
  {
    LexIsLossless(x, q, 0);
    TilesIncrease(Lex(x, q, 0), q, 0);
    forall k | 0 <= k < |Lex(x, q, 0)|
      ensures Lex(x, q, 0)[k].end <= |q|
    {
      TileAt(Lex(x, q, 0), q, 0, k);
    }
  }

  lemma RestIncreases(tokens: seq<Token>, j: nat, k: nat)
    requires Increasing(tokens, 0) && j <= k < |tokens|
    ensures Increasing(tokens[j..], 0) && tokens[j].start < tokens[k].end
  {
  }

  /** A slice between two token boundaries is read as the tokens between them; in particular each token stands alone. */
  lemma SliceIsStable(x: Schema, q: string, j: nat, k: nat)
    requires CutsClean(x) && j <= k < |Lex(x, q, 0)|
    ensures var tokens := Lex(x, q, 0);
            && tokens[j].start < tokens[k].end <= |q|
            && Lex(x, q[tokens[j].start..tokens[k].end], tokens[j].start) == tokens[j..k + 1]
  {
    hide Lex, CutsClean, CutAt, Increasing;
    var tokens := Lex(x, q, 0);
    var from, to := tokens[j].start, tokens[k].end;
    TokensIncrease(x, q);
    RestIncreases(tokens, j, k);
    LexFrom(x, q, 0, j);
    LexUpTo(x, q[from..], from, to - from);
    assert q[from..][..to - from] == q[from..to];
    CutAtBoundary(tokens[j..], Lex(x, q[from..to], from), to, k - j);
    assert tokens[j..][..k - j + 1] == tokens[j..k + 1];
  }

  /** The operators with more than two characters are words of small letters. */
  predicate IsWord(o: string) {
    |o| > 2 && forall k :: 0 <= k < |o| ==> 'a' <= o[k] <= 'z'
  }

  lemma LongOperatorsAreWords(i: nat)
    requires i < |KQL_OPERATORS|
    ensures 1 <= |KQL_OPERATORS[i]|
    ensures |KQL_OPERATORS[i]| > 2 ==> IsWord(KQL_OPERATORS[i])
  {
    assert KQL_OPERATORS[i][0] in {'=', '!', '>', '<', 'h', 'c', 's', 'e'};
  }

  lemma FirstLetterDecides(i: nat, j: nat)
    requires i < |KQL_OPERATORS| && j < |KQL_OPERATORS|
    requires |KQL_OPERATORS[i]| > 2 && |KQL_OPERATORS[j]| > 0 && KQL_OPERATORS[i][0] == KQL_OPERATORS[j][0]
    ensures i == j
  {
  }

  /** No operator of the query bar falls apart when it is cut. */
  lemma KqlCutsClean()
    ensures CutsClean(KQL)
  {
    forall o, c: nat | o in KQL.operators && 0 < c < |o| && TokenKind(KQL, o) == Operator
      ensures TokenLength(KQL, o[..c]) == c
    {
      var i :| 0 <= i < |KQL_OPERATORS| && KQL_OPERATORS[i] == o;
      if |o| > 2 {
        LongOperatorsAreWords(i);
        NoOperatorInside(i, c);
        CutWord(KQL, o, c);
      }
    }
  }

  /** What autocomplete relies on: lexing the query up to the cursor gives the query's own tokens. */
  lemma QueryBarIsCursorSafe(q: string, c: nat)
    requires c <= |q|
    ensures CursorSafe(KQL, q, c)
  {
    KqlCutsClean();
    CleanCutsAreSafe(KQL, q, c);
  }

  lemma CutWord(x: Schema, o: string, c: nat)
    requires IsWord(o) && 0 < c < |o| && Longest(x.operators, o[..c]) == ""
    ensures TokenLength(x, o[..c]) == c
  {
    hide Longest;
    var p := o[..c];
    assert p[0] == o[0];
    assert Span(p, IsIdentPart) == c;
  }

  lemma NoOperatorInside(i: nat, c: nat)
    requires i < |KQL_OPERATORS| && 2 < |KQL_OPERATORS[i]| && 0 < c < |KQL_OPERATORS[i]|
    ensures Longest(KQL_OPERATORS, KQL_OPERATORS[i][..c]) == ""
  {
    var p := KQL_OPERATORS[i][..c];
    var op := Longest(KQL_OPERATORS, p);
    if op != "" {
      var j :| 0 <= j < |KQL_OPERATORS| && KQL_OPERATORS[j] == op;
      assert op[0] == p[0] == KQL_OPERATORS[i][0];
      FirstLetterDecides(i, j);
      assert false;
    }
  }
}
