/** Redaction of staged evidence files: the rule list, the whole-file path and the line-by-line path. */
module Redaction {
  import opened Encoding
  import opened Wrappers

  const BACKSLASH: Byte := 92

  /** Files above this size take the line-by-line path. */
  const STREAMING_THRESHOLD := 4 * 1024 * 1024

  /** What a replacement hands back: the text it was given, or a new one. */
  datatype Cow = Borrowed | Owned(text: Bytes)

  /** A compiled rule: replace all matches in a text. */
  type Rule = Bytes -> Cow

  function Text(cow: Cow, input: Bytes): Bytes {
    match cow
    case Borrowed => input
    case Owned(text) => text
  }

  // ---------------------------------------------------------------------------------------------
  // Applying the rules
  // ---------------------------------------------------------------------------------------------

  /** All rules in order, each on the result of the one before it. */
  function Redacted(rules: seq<Rule>, input: Bytes): Bytes {
    if rules == [] then input else Redacted(rules[1..], Text(rules[0](input), input))
  }

  /** Some rule matches when its turn comes. */
  predicate Fires(rules: seq<Rule>, input: Bytes) {
    rules != [] && (rules[0](input).Owned? || Fires(rules[1..], input))
  }

  lemma {:induction false} SilentRulesChangeNothing(rules: seq<Rule>, input: Bytes)
    requires !Fires(rules, input)
    ensures Redacted(rules, input) == input
  {
    if rules != [] {
      SilentRulesChangeNothing(rules[1..], input);
    }
  }

  /** The lazy copy does not show: a new text exactly when a rule fires, and then the fold of all rules. */
  method Apply(rules: seq<Rule>, input: Bytes) returns (r: Cow)
    ensures r == if Fires(rules, input) then Owned(Redacted(rules, input)) else Borrowed
    ensures Text(r, input) == Redacted(rules, input)
  {
    var result: Option<Bytes> := None;
    for k := 0 to |rules|
      invariant Redacted(rules, input) == Redacted(rules[k..], if result.Some? then result.value else input)
      invariant Fires(rules, input) <==> result.Some? || Fires(rules[k..], input)
    {
      var src := if result.Some? then result.value else input;
      assert rules[k..][1..] == rules[k + 1..];
      match rules[k](src)
      case Owned(s) => result := Some(s);
      case Borrowed =>
    }
    r := if result.Some? then Owned(result.value) else Borrowed;
    if result.None? {
      SilentRulesChangeNothing(rules, input);
    }
  }

  // ---------------------------------------------------------------------------------------------
  // Lines
  // ---------------------------------------------------------------------------------------------

  /** The first line with its newline, or all that is left when there is none. */
  function FirstLine(s: Bytes): (n: nat)
    ensures n <= |s| && (s != [] ==> n > 0)
    ensures forall k :: 0 <= k < n - 1 ==> s[k] != NEWLINE
    ensures n < |s| ==> EndsLine(s[..n])
  {
    if s == [] then 0 else if s[0] == NEWLINE then 1 else 1 + FirstLine(s[1..])
  }

  function RedactedLine(rules: seq<Rule>, line: Bytes): Bytes {
    if Utf8(line) then Redacted(rules, line) else line
  }

  /** Redaction of a file in one piece; a file that is not text is left alone. */
  function WholeFile(rules: seq<Rule>, s: Bytes): Bytes {
    if Utf8(s) then Redacted(rules, s) else s
  }

  /** Redaction line by line; a line that is not text is left alone. */
  function ByLines(rules: seq<Rule>, s: Bytes): Bytes {
    if s == [] then []
    else RedactedLine(rules, s[..FirstLine(s)]) + ByLines(rules, s[FirstLine(s)..])
  }

  // ---------------------------------------------------------------------------------------------
  // The two file operations
  // ---------------------------------------------------------------------------------------------

  /** The number of file operations that succeed before one fails, if one does. */
  datatype Budget = Unlimited | Fails(after: nat)

  lemma NextLine(rules: seq<Rule>, s: Bytes)
    requires s != []
    ensures ByLines(rules, s) == RedactedLine(rules, s[..FirstLine(s)]) + ByLines(rules, s[FirstLine(s)..])
  {
  }

  lemma NoLines(rules: seq<Rule>)
    ensures ByLines(rules, []) == []
  {
  }

  /** The read and write loop of the line-by-line path; each read and each write may fail. */
  method CopyLines(rules: seq<Rule>, source: Bytes, budget: Budget) returns (go: bool, out: Bytes, left: Budget)
    ensures go ==> out == ByLines(rules, source)
    ensures out <= ByLines(rules, source)
    ensures budget.Unlimited? ==> go && left.Unlimited?
  {
    hide Utf8, FirstLine, Redacted, RedactedLine, Fires, ByLines;
    NoLines(rules);
    left, out := budget, [];
    var position := 0;
    while position < |source|
      invariant position <= |source|
      invariant ByLines(rules, source) == out + ByLines(rules, source[position..])
      invariant budget.Unlimited? ==> left.Unlimited?
    {
      go, left := Spend(left);
      if !go { return; }
      var rest := source[position..];
      var line := rest[..FirstLine(rest)];
      var written := RedactLine(rules, line);
      go, left := Spend(left);
      if !go { return; }
      NextLine(rules, rest);
      assert source[position + |line|..] == rest[|line|..];
      position := position + |line|;
      out := out + written;
    }
    assert source[position..] == [];
    go := true;
  }

  method RedactLine(rules: seq<Rule>, line: Bytes) returns (written: Bytes)
    ensures written == RedactedLine(rules, line)
  {
    if Utf8(line) {
      var red := Apply(rules, line);
      written := Text(red, line);
    } else {
      written := line;
    }
  }

  class StagedFile {
    var content: Bytes
    var temp: Option<Bytes>

    constructor (content: Bytes)
      ensures this.content == content && temp == None
    {
      this.content := content;
      temp := None;
    }

    /** A failing write leaves some part of the new text behind. */
    method RedactWhole(rules: seq<Rule>, readFails: bool, written: Option<nat>) returns (ok: bool)
      modifies this`content
      ensures ok ==> content == WholeFile(rules, old(content))
      ensures !ok ==> content == old(content) || content <= WholeFile(rules, old(content))
      ensures !readFails && written.None? ==> ok
    {
      if readFails {
        return false;
      }
      var raw := content;
      if !Utf8(raw) {
        return true;
      }
      var redacted := Apply(rules, raw);
      if redacted.Owned? {
        if written.Some? && written.value <= |redacted.text| {
          content := redacted.text[..written.value];
          return false;
        }
        content := redacted.text;
      }
      return true;
    }

    /** All or nothing: a failure at any operation leaves the file as it was. */
    method RedactStreaming(rules: seq<Rule>, budget: Budget) returns (ok: bool)
      modifies this
      ensures ok ==> content == ByLines(rules, old(content)) && temp == None
      ensures !ok ==> content == old(content)
      ensures !ok ==> temp == old(temp) || (temp.Some? && temp.value <= ByLines(rules, old(content)))
      ensures budget.Unlimited? ==> ok
    {
      var go, left := Spend(budget);
      if !go { return false; }
      go, left := Spend(left);
      if !go { return false; }
      temp := Some([]);
      var out;
      go, out, left := CopyLines(rules, content, left);
      temp := Some(out);
      if !go { return false; }
      go, left := Spend(left);
      if !go { return false; }
      go, left := Spend(left);
      if !go { return false; }
      content, temp := out, None;
      return true;
    }
  }

  method Spend(budget: Budget) returns (go: bool, left: Budget)
    ensures budget.Unlimited? ==> go && left.Unlimited?
    ensures budget.Fails? ==> go == (budget.after > 0) && (go ==> left == Fails(budget.after - 1))
  {
    match budget
    case Unlimited => return true, budget;
    case Fails(n) =>
      if n == 0 {
        return false, budget;
      }
      return true, Fails(n - 1);
  }

  // ---------------------------------------------------------------------------------------------
  // The two paths agree
  // ---------------------------------------------------------------------------------------------

  /** What a rule makes of a text. */
  function Out(rule: Rule, s: Bytes): Bytes {
    Text(rule(s), s)
  }

  predicate SplitsAt(rule: Rule, a: Bytes, b: Bytes) {
    Out(rule, a + b) == Out(rule, a) + Out(rule, b) && EndsLine(Out(rule, a))
  }

  /** A rule that treats the text before and after a newline separately and keeps the newline. */
  ghost predicate NewlineLocal(rule: Rule) {
    forall a, b :: EndsLine(a) ==> SplitsAt(rule, a, b)
  }

  lemma {:induction false} LocalRulesSplit(rules: seq<Rule>, a: Bytes, b: Bytes)
    requires (forall rule :: rule in rules ==> NewlineLocal(rule)) && EndsLine(a)
    ensures Redacted(rules, a + b) == Redacted(rules, a) + Redacted(rules, b)
  {
    if rules != [] {
      var rule := rules[0];
      assert NewlineLocal(rule) && SplitsAt(rule, a, b);
      LocalRulesSplit(rules[1..], Out(rule, a), Out(rule, b));
    }
  }

  /** A file is text exactly when its first line and the rest are. */
  lemma TextLineByLine(s: Bytes)
    requires s != []
    ensures Utf8(s) <==> Utf8(s[..FirstLine(s)]) && Utf8(s[FirstLine(s)..])
  {
    var a, b := s[..FirstLine(s)], s[FirstLine(s)..];
    assert s == a + b;
    if b == [] {
      assert a == s;
    } else if Utf8(s) {
      Utf8Cut(a, b);
    }
    if Utf8(a) {
      Utf8Append(a, b);
    }
  }

  /** On text, rules that are local to lines give the same bytes whichever path the file takes. */
  lemma {:induction false} StreamingIsWholeFile(rules: seq<Rule>, s: Bytes)
    requires Utf8(s) && forall rule :: rule in rules ==> NewlineLocal(rule)
    ensures s != [] ==> ByLines(rules, s) == WholeFile(rules, s)
    decreases |s|
  {
    if s != [] {
      var a, b := s[..FirstLine(s)], s[FirstLine(s)..];
      TextLineByLine(s);
      assert s == a + b;
      if b != [] {
        StreamingIsWholeFile(rules, b);
        LocalRulesSplit(rules, a, b);
      } else {
        assert s == a;
      }
    }
  }

  lemma {:induction false} FirstLineBeforeMore(a: Bytes, b: Bytes)
    requires EndsLine(a)
    ensures FirstLine(a + b) == FirstLine(a)
  {
    if a[0] != NEWLINE {
      assert (a + b)[1..] == a[1..] + b;
      FirstLineBeforeMore(a[1..], b);
    }
  }

  /** Line by line, what comes before a newline and what comes after it are redacted separately. */
  lemma {:induction false} ByLinesSplits(rules: seq<Rule>, a: Bytes, b: Bytes)
    requires EndsLine(a)
    ensures ByLines(rules, a + b) == ByLines(rules, a) + ByLines(rules, b)
    decreases |a|
  {
    hide FirstLine, RedactedLine, ByLines;
    var n := FirstLine(a);
    FirstLineBeforeMore(a, b);
    NextLine(rules, a);
    NextLine(rules, a + b);
    assert (a + b)[..n] == a[..n] && (a + b)[n..] == a[n..] + b;
    if n < |a| {
      ByLinesSplits(rules, a[n..], b);
    } else {
      NoLines(rules);
      assert a[n..] == [] && [] + b == b;
    }
  }

  /** One line of a file, with its newline if it has one. */
  predicate IsLine(line: Bytes) {
    line != [] && forall k :: 0 <= k < |line| - 1 ==> line[k] != NEWLINE
  }

  lemma {:induction false} OneLine(line: Bytes)
    requires IsLine(line)
    ensures FirstLine(line) == |line|
  {
    if |line| > 1 {
      OneLine(line[1..]);
    }
  }

  lemma ALineAlone(rules: seq<Rule>, line: Bytes)
    requires IsLine(line)
    ensures ByLines(rules, line) == if Utf8(line) then Redacted(rules, line) else line
  {
    hide Utf8, Redacted, FirstLine;
    OneLine(line);
    NoLines(rules);
    NextLine(rules, line);
    assert line[..|line|] == line && line[|line|..] == [];
  }

  lemma LastLine(rules: seq<Rule>, line: Bytes, after: Bytes)
    requires EndsLine(line) || after == []
    ensures ByLines(rules, line + after) == ByLines(rules, line) + ByLines(rules, after)
  {
    hide ByLines;
    if EndsLine(line) {
      ByLinesSplits(rules, line, after);
    } else {
      NoLines(rules);
      assert line + after == line;
    }
  }

  /** Every line of a file is redacted by itself if it is text, and stays in the file as it is if it is not. */
  lemma EachLineByItself(rules: seq<Rule>, before: Bytes, line: Bytes, after: Bytes)
    requires (before == [] || EndsLine(before)) && IsLine(line) && (EndsLine(line) || after == [])
    ensures ByLines(rules, before + (line + after))
         == ByLines(rules, before) + ((if Utf8(line) then Redacted(rules, line) else line) + ByLines(rules, after))
  {
    hide Utf8, Redacted, ByLines, IsLine;
    ALineAlone(rules, line);
    LastLine(rules, line, after);
    if before != [] {
      ByLinesSplits(rules, before, line + after);
    } else {
      NoLines(rules);
      assert before + (line + after) == line + after;
    }
  }

  /** The size of a text file does not show in its redaction. */
  method RedactFile(file: StagedFile, rules: seq<Rule>) returns (ok: bool)
    requires forall rule :: rule in rules ==> NewlineLocal(rule)
    modifies file
    ensures Utf8(old(file.content)) ==> file.content == Redacted(rules, old(file.content))
    ensures !Utf8(old(file.content)) && |old(file.content)| <= 4_194_304 ==> file.content == old(file.content)
    ensures |old(file.content)| > 4_194_304 ==> file.content == ByLines(rules, old(file.content))
    ensures ok
  {
    if |file.content| > STREAMING_THRESHOLD {
      if Utf8(file.content) {
        StreamingIsWholeFile(rules, file.content);
      }
      ok := file.RedactStreaming(rules, Unlimited);
    } else {
      ok := file.RedactWhole(rules, false, None);
    }
  }

  // ---------------------------------------------------------------------------------------------
  // The default rule that is not local to lines
  // ---------------------------------------------------------------------------------------------

  /** "C:\Users\" */
  const USERS: Bytes := [67, 58, 92, 85, 115, 101, 114, 115, 92]

  /** "<USER>" */
  const USER: Bytes := [60, 85, 83, 69, 82, 62]

  /** How far a user name reaches: up to the next backslash, over newlines too. */
  function NameLength(s: Bytes): (n: nat)
    ensures n <= |s| && (forall k :: 0 <= k < n ==> s[k] != BACKSLASH) && (n < |s| ==> s[n] == BACKSLASH)
  {
    if s == [] || s[0] == BACKSLASH then 0 else 1 + NameLength(s[1..])
  }

  /** The length of a match of the rule at the start of the text, zero if there is none. */
  function PathMatch(s: Bytes): (n: nat)
    ensures n == 0 || |USERS| < n <= |s|
  {
    if USERS <= s && NameLength(s[|USERS|..]) > 0 then |USERS| + NameLength(s[|USERS|..]) else 0
  }

  function HidePaths(s: Bytes): Bytes {
    if s == [] then []
    else if PathMatch(s) > 0 then USERS + USER + HidePaths(s[PathMatch(s)..])
    else [s[0]] + HidePaths(s[1..])
  }

  predicate HasPath(s: Bytes) {
    s != [] && (PathMatch(s) > 0 || HasPath(s[1..]))
  }

  function UsernamePath(s: Bytes): Cow {
    if HasPath(s) then Owned(HidePaths(s)) else Borrowed
  }

  lemma {:induction false} PathlessIsKept(s: Bytes)
    requires !HasPath(s)
    ensures HidePaths(s) == s
  {
    if s != [] {
      PathlessIsKept(s[1..]);
    }
  }

  lemma PathsAreHidden(s: Bytes)
    ensures Out(UsernamePath, s) == HidePaths(s)
  {
    if !HasPath(s) {
      PathlessIsKept(s);
    }
  }

  /** After `C:\Users\` at the start of the text comes no name, or the placeholder. */
  predicate NameIsHidden(s: Bytes) {
    USERS <= s ==> var rest := s[|USERS|..]; NameLength(rest) == 0 || rest[..NameLength(rest)] == USER
  }

  /** No user name but the placeholder follows `C:\Users\` anywhere. */
  predicate NamesAreHidden(s: Bytes) {
    forall p :: 0 <= p <= |s| ==> NameIsHidden(s[p..])
  }

  lemma HiddenInRest(s: Bytes, n: nat)
    requires NamesAreHidden(s) && n <= |s|
    ensures NamesAreHidden(s[n..]) && NameIsHidden(s)
  {
    assert s[0..] == s;
    forall p | 0 <= p <= |s[n..]| ensures NameIsHidden(s[n..][p..]) {
      assert s[n..][p..] == s[n + p..];
    }
  }

  lemma HiddenInWhole(s: Bytes, n: nat)
    requires n <= |s| && NamesAreHidden(s[n..])
    requires NameIsHidden(s) && forall p :: 0 < p < n ==> s[p] != USERS[0]
    ensures NamesAreHidden(s)
  {
    forall p | 0 <= p <= |s| ensures NameIsHidden(s[p..]) {
      if p == 0 {
        assert s[p..] == s;
      } else if p >= n {
        assert s[p..] == s[n..][p - n..];
      } else {
        assert s[p..][0] == s[p];
      }
    }
  }

  /** What follows the name of a match, redacted or not, does not go on with the name. */
  lemma PlaceholderIsTheName(rest: Bytes)
    requires rest != [] ==> rest[0] == BACKSLASH
    ensures NameLength(USER + rest) == |USER| && PathMatch(USERS + USER + rest) == |USERS| + |USER|
  {
    NameUpTo(USER, rest);
    var s := USERS + USER + rest;
    assert s[|USERS|..] == USER + rest;
  }

  lemma {:induction false} NameUpTo(name: Bytes, rest: Bytes)
    requires (forall k :: 0 <= k < |name| ==> name[k] != BACKSLASH) && (rest != [] ==> rest[0] == BACKSLASH)
    ensures NameLength(name + rest) == |name|
  {
    if name == [] {
      assert name + rest == rest;
    } else {
      assert (name + rest)[1..] == name[1..] + rest;
      NameUpTo(name[1..], rest);
    }
  }

  /** What a match leaves over is nothing or starts with a backslash, before and after redaction. */
  lemma AfterAMatch(s: Bytes)
    requires PathMatch(s) > 0
    ensures var rest := s[PathMatch(s)..];
            && (rest != [] ==> rest[0] == BACKSLASH) && (HidePaths(rest) != [] ==> HidePaths(rest)[0] == BACKSLASH)
  {
    var rest := s[PathMatch(s)..];
    assert rest == s[|USERS|..][NameLength(s[|USERS|..])..];
    if rest != [] {
      StartIsKept(rest);
    }
  }

  /** Redaction writes a C only where it writes a whole match: a part without one is copied as it is. */
  lemma {:induction false} CopiedAsItIs(s: Bytes, part: Bytes)
    requires part <= HidePaths(s) && forall k :: 0 <= k < |part| ==> part[k] != USERS[0]
    ensures part <= s && HidePaths(s)[|part|..] == HidePaths(s[|part|..])
  {
    hide HidePaths, NameLength, PathMatch, OpenEnded;
    if part != [] {
      assert s != [] by {
        NothingToHide();
      }
      HideStep(s);
      assert HidePaths(s)[0] == part[0];
      assert Head(s)[0] == part[0] && PathMatch(s) == 0;
      CopiedAsItIs(s[1..], part[1..]);
      assert HidePaths(s)[|part|..] == HidePaths(s[1..])[|part| - 1..];
      assert s[|part|..] == s[1..][|part| - 1..];
    }
  }

  /** Redaction makes no match out of what was none. */
  lemma NoNewMatch(s: Bytes)
    requires s != [] && PathMatch(s) == 0
    ensures PathMatch(HidePaths(s)) == 0
  {
    var out := HidePaths(s);
    if USERS <= out {
      var tail := s[1..];
      assert out[1..] == HidePaths(tail);
      assert USERS[1..] <= HidePaths(tail) by {
        assert out[1..][..|USERS| - 1] == out[..|USERS|][1..];
      }
      CopiedAsItIs(tail, USERS[1..]);
      var rest := s[|USERS|..];
      assert tail[|USERS| - 1..] == rest && out[|USERS|..] == HidePaths(tail)[|USERS| - 1..];
      assert s == [s[0]] + tail && USERS == [USERS[0]] + USERS[1..];
      assert NameLength(rest) == 0;
      if rest != [] {
        StartIsKept(rest);
      }
    }
  }

  /** Redacting twice is redacting once. */
  lemma {:induction false} RedactingAgainChangesNothing(s: Bytes)
    ensures HidePaths(HidePaths(s)) == HidePaths(s)
    decreases |s|
  {
    if s != [] {
      var n := Step(s);
      RedactingAgainChangesNothing(s[n..]);
      HideStep(s);
      var out, rest := HidePaths(s), HidePaths(s[n..]);
      if PathMatch(s) > 0 {
        AfterAMatch(s);
        PlaceholderIsTheName(rest);
        assert out == USERS + USER + rest && out[|USERS| + |USER|..] == rest;
      } else {
        NoNewMatch(s);
        assert out[1..] == rest;
      }
    }
  }

  /** The texts that redaction leaves alone are those in which every name is hidden. */
  lemma {:induction false} LeftAloneIffHidden(s: Bytes)
    ensures HidePaths(s) == s <==> NamesAreHidden(s)
    decreases |s|
  {
    if s != [] {
      var n := Step(s);
      var rest := s[n..];
      LeftAloneIffHidden(rest);
      HideStep(s);
      if PathMatch(s) > 0 {
        MatchIsHiddenIff(s);
      } else {
        assert s == [s[0]] + rest;
        Cancel([s[0]], HidePaths(rest), rest);
        assert NameIsHidden(s);
      }
      if NamesAreHidden(s) {
        HiddenInRest(s, n);
      } else if NameIsHidden(s) && NamesAreHidden(rest) {
        HiddenInWhole(s, n);
      }
    }
  }

  /** A match stays as it is exactly when its name is the placeholder and what follows stays as it is. */
  lemma MatchIsHiddenIff(s: Bytes)
    requires PathMatch(s) > 0
    ensures var rest := s[PathMatch(s)..];
            && (HidePaths(s) == s <==> NameIsHidden(s) && HidePaths(rest) == rest)
            && (NameIsHidden(s) ==> forall p :: 0 < p < PathMatch(s) ==> s[p] != USERS[0])
  {
    var n := PathMatch(s);
    var rest := s[n..];
    var name := s[|USERS|..][..n - |USERS|];
    assert s == USERS + name + rest;
    if NameIsHidden(s) {
      assert name == USER;
      Cancel(USERS + USER, HidePaths(rest), rest);
      assert forall p :: 0 < p < n ==> s[p] == (USERS + USER)[p];
    } else if HidePaths(s) == s {
      AfterAMatch(s);
      PlaceholderIsTheName(HidePaths(rest));
      assert false;
    }
  }

  /** After redaction no user name is left, and redacting again changes nothing. */
  lemma NoNameIsLeft(s: Bytes)
    ensures NamesAreHidden(Out(UsernamePath, s))
    ensures Out(UsernamePath, Out(UsernamePath, s)) == Out(UsernamePath, s)
    ensures Out(UsernamePath, s) == s <==> NamesAreHidden(s)
  {
    PathsAreHidden(s);
    PathsAreHidden(HidePaths(s));
    RedactingAgainChangesNothing(s);
    LeftAloneIffHidden(s);
    LeftAloneIffHidden(HidePaths(s));
  }

  /** The last name in the line reaches to its end, newline included. */
  predicate OpenEnded(line: Bytes) {
    line != [] &&
    if PathMatch(line) > 0 then PathMatch(line) == |line| || OpenEnded(line[PathMatch(line)..])
    else OpenEnded(line[1..])
  }

  /** Before a newline, more text changes a match only if its name reaches the end. */
  lemma MatchBeforeMore(a: Bytes, b: Bytes)
    requires EndsLine(a)
    ensures PathMatch(a + b) == if PathMatch(a) == |a| then |a| + NameLength(b) else PathMatch(a)
  {
    var s := a + b;
    assert s[|a| - 1] == NEWLINE;
    if USERS <= s {
      assert forall k :: 0 <= k < |USERS| ==> s[k] == USERS[k] != NEWLINE;
      assert |a| > |USERS|;
      assert s[|USERS|..] == a[|USERS|..] + b;
      NameBeforeMore(a[|USERS|..], b);
    }
    if USERS <= a {
      assert USERS <= s;
    }
  }

  lemma {:induction false} NameBeforeMore(a: Bytes, b: Bytes)
    ensures NameLength(a + b) == if NameLength(a) == |a| then |a| + NameLength(b) else NameLength(a)
  {
    if a == [] {
      assert a + b == b;
    } else if a[0] != BACKSLASH {
      assert (a + b)[1..] == a[1..] + b;
      NameBeforeMore(a[1..], b);
    }
  }

  function Step(s: Bytes): (n: nat)
    requires s != []
    ensures 0 < n <= |s|
  {
    if PathMatch(s) > 0 then PathMatch(s) else 1
  }

  function Head(s: Bytes): (h: Bytes)
    requires s != []
    ensures PathMatch(s) == 0 ==> h == [s[0]]
  {
    if PathMatch(s) > 0 then USERS + USER else [s[0]]
  }

  lemma HideStep(s: Bytes)
    requires s != []
    ensures HidePaths(s) == Head(s) + HidePaths(s[Step(s)..])
    ensures OpenEnded(s) <==> PathMatch(s) == |s| || OpenEnded(s[Step(s)..])
    ensures HidePaths([]) == [] && !OpenEnded([])
  {
  }

  lemma DropAppend(a: Bytes, b: Bytes, n: nat)
    requires n <= |a|
    ensures (a + b)[n..] == a[n..] + b
  {
  }

  /** A match that takes the whole line goes on into the text after it. */
  lemma MatchOverNewline(a: Bytes, b: Bytes)
    requires EndsLine(a) && PathMatch(a) == |a|
    ensures HidePaths(a + b) == HidePaths(a) + HidePaths(b[NameLength(b)..]) && OpenEnded(a)
  {
    hide PathMatch, NameLength, HidePaths, OpenEnded;
    MatchBeforeMore(a, b);
    HideStep(a + b);
    HideStep(a);
    assert a[|a|..] == [] && (a + b)[|a| + NameLength(b)..] == b[NameLength(b)..];
  }

  /** Any other step of the scan is the same with more text after the line. */
  lemma StepBeforeMore(a: Bytes, b: Bytes)
    requires EndsLine(a) && PathMatch(a) != |a|
    ensures HidePaths(a) == Head(a) + HidePaths(a[Step(a)..])
    ensures HidePaths(a + b) == Head(a) + HidePaths(a[Step(a)..] + b)
    ensures OpenEnded(a) == OpenEnded(a[Step(a)..])
    ensures Step(a) == |a| ==> Head(a) == [NEWLINE]
  {
    hide PathMatch, NameLength, HidePaths, OpenEnded;
    MatchBeforeMore(a, b);
    HideStep(a + b);
    HideStep(a);
    assert Step(a + b) == Step(a) && Head(a + b) == Head(a);
    DropAppend(a, b, Step(a));
  }

  /** Redaction over a newline: a name that reaches the end of the line swallows the start of the next one. */
  lemma {:induction false} PathsOverNewline(a: Bytes, b: Bytes)
    requires EndsLine(a)
    ensures HidePaths(a + b) == HidePaths(a) + HidePaths(if OpenEnded(a) then b[NameLength(b)..] else b)
    ensures !OpenEnded(a) ==> EndsLine(HidePaths(a))
    decreases |a|
  {
    hide PathMatch, NameLength, HidePaths, OpenEnded, Head, Step;
    if PathMatch(a) == |a| {
      MatchOverNewline(a, b);
    } else {
      StepBeforeMore(a, b);
      var rest := a[Step(a)..];
      if rest != [] {
        PathsOverNewline(rest, b);
      } else {
        assert rest + b == b;
        NothingToHide();
      }
    }
  }

  lemma NothingToHide()
    ensures HidePaths([]) == [] && !OpenEnded([])
  {
  }

  /** No line ends inside a user name that goes on in the next line. */
  predicate NamesEndWithLines(s: Bytes) {
    s == [] ||
    (var rest := s[FirstLine(s)..];
     (OpenEnded(s[..FirstLine(s)]) && rest != [] ==> rest[0] == BACKSLASH) && NamesEndWithLines(rest))
  }

  lemma OnePathRule(s: Bytes)
    ensures Redacted([UsernamePath], s) == HidePaths(s)
  {
    PathsAreHidden(s);
    assert [UsernamePath][1..] == [];
    assert Redacted([], HidePaths(s)) == HidePaths(s);
  }

  lemma StartIsKept(s: Bytes)
    requires s != []
    ensures HidePaths(s) != [] && HidePaths(s)[0] == s[0]
  {
  }

  lemma Cancel(a: Bytes, x: Bytes, y: Bytes)
    ensures a + x == a + y <==> x == y
  {
    assert (a + x)[|a|..] == x && (a + y)[|a|..] == y;
  }

  lemma StreamOneLine(s: Bytes)
    requires Utf8(s) && s != []
    ensures ByLines([UsernamePath], s) == HidePaths(s[..FirstLine(s)]) + ByLines([UsernamePath], s[FirstLine(s)..])
    ensures WholeFile([UsernamePath], s) == HidePaths(s)
  {
    TextLineByLine(s);
    OnePathRule(s);
    OnePathRule(s[..FirstLine(s)]);
  }

  /** For the path rule the two paths agree on a text exactly when no name goes on from one line into the next. */
  lemma {:induction false} PathRuleStreamsIff(s: Bytes)
    requires Utf8(s)
    ensures ByLines([UsernamePath], s) == WholeFile([UsernamePath], s) <==> NamesEndWithLines(s)
    decreases |s|
  {
    if s == [] {
      OnePathRule(s);
    } else {
      var a, b := s[..FirstLine(s)], s[FirstLine(s)..];
      assert s == a + b;
      StreamOneLine(s);
      TextLineByLine(s);
      PathRuleStreamsIff(b);
      OnePathRule(b);
      hide ByLines, Redacted, Utf8, HidePaths;
      if b == [] {
        NoLines([UsernamePath]);
        assert a == s;
      } else {
        PathsOverNewline(a, b);
        if OpenEnded(a) && b[0] != BACKSLASH {
          SwallowedTextShows(a, b);
        } else {
          assert OpenEnded(a) ==> b[NameLength(b)..] == b;
          Cancel(HidePaths(a), ByLines([UsernamePath], b), HidePaths(b));
        }
      }
    }
  }

  /** The rest of a name that the whole-file path removes stays in the file on the line-by-line path. */
  lemma SwallowedTextShows(a: Bytes, b: Bytes)
    requires b != [] && b[0] != BACKSLASH && Utf8(b)
    ensures HidePaths(a) + HidePaths(b[NameLength(b)..]) != HidePaths(a) + ByLines([UsernamePath], b)
  {
    var swallowed, shown := HidePaths(b[NameLength(b)..]), ByLines([UsernamePath], b);
    if NameLength(b) < |b| {
      StartIsKept(b[NameLength(b)..]);
    }
    TextLineByLine(b);
    var line := b[..FirstLine(b)];
    OnePathRule(line);
    StartIsKept(line);
    assert shown[0] == b[0];
    assert (HidePaths(a) + shown)[|HidePaths(a)|] == b[0];
    if swallowed != [] {
      assert (HidePaths(a) + swallowed)[|HidePaths(a)|] == BACKSLASH;
    }
  }

  /** A name broken by a newline: read in one piece the file loses its second line, read by lines it does not. */
  lemma ANameOverTwoLines()
    ensures var s := USERS + [97, NEWLINE, 98];
            && Utf8(s) && WholeFile([UsernamePath], s) == USERS + USER
            && ByLines([UsernamePath], s) == USERS + USER + [98]
  {
    hide HidePaths, NameLength, PathMatch, Utf8, FirstLine, ByLines, WholeFile;
    var a, b: Bytes := USERS + [97, NEWLINE], [98];
    var s := USERS + [97, NEWLINE, 98];
    assert s == a + b && b + [] == b;
    AsciiIsText(s);
    AsciiIsText(b);
    FirstLineIs(a, b);
    assert s[..|a|] == a && s[|a|..] == b && b[..1] == b && b[1..] == [];
    WholeName([97, NEWLINE]);
    WholeName([97, NEWLINE, 98]);
    StreamOneLine(s);
    StreamOneLine(b);
    NoLines([UsernamePath]);
    OneLetterIsKept(b);
  }

  lemma OneLetterIsKept(s: Bytes)
    requires |s| == 1
    ensures HidePaths(s) == s && (s[0] != NEWLINE ==> FirstLine(s) == 1)
  {
    assert s[1..] == [];
  }

  lemma WholeName(name: Bytes)
    requires name != [] && forall k :: 0 <= k < |name| ==> name[k] != BACKSLASH
    ensures HidePaths(USERS + name) == USERS + USER
  {
    hide HidePaths, NameLength;
    var s := USERS + name;
    NameUpTo(name, []);
    assert name + [] == name && s[|USERS|..] == name && USERS <= s;
    HideStep(s);
    assert Step(s) == |s| && s[|s|..] == [];
  }

  lemma {:induction false} FirstLineIs(a: Bytes, b: Bytes)
    requires EndsLine(a) && forall k :: 0 <= k < |a| - 1 ==> a[k] != NEWLINE
    ensures FirstLine(a + b) == |a|
  {
    if |a| > 1 {
      assert (a + b)[1..] == a[1..] + b;
      FirstLineIs(a[1..], b);
    }
  }

  lemma {:induction false} AsciiIsText(s: Bytes)
    requires forall k :: 0 <= k < |s| ==> s[k] < 0x80
    ensures Utf8(s)
  {
    if s != [] {
      AsciiIsText(s[1..]);
    }
  }

  predicate NoLineIsOpenEnded(s: Bytes) {
    s == [] || (!OpenEnded(s[..FirstLine(s)]) && NoLineIsOpenEnded(s[FirstLine(s)..]))
  }

  lemma LineIsClosed(s: Bytes)
    requires s != [] && NoLineIsOpenEnded(s)
    ensures !OpenEnded(s[..FirstLine(s)]) && NoLineIsOpenEnded(s[FirstLine(s)..])
  {
  }

  lemma FirstRule(others: seq<Rule>, s: Bytes)
    ensures Redacted([UsernamePath] + others, s) == Redacted(others, HidePaths(s))
  {
    assert ([UsernamePath] + others)[1..] == others;
    PathsAreHidden(s);
  }

  /** The path rule followed by rules that are local to lines: the two paths agree while every name ends in its line. */
  lemma {:induction false} DefaultRulesStream(others: seq<Rule>, s: Bytes)
    requires Utf8(s) && s != [] && NoLineIsOpenEnded(s) && forall rule :: rule in others ==> NewlineLocal(rule)
    ensures ByLines([UsernamePath] + others, s) == WholeFile([UsernamePath] + others, s)
    decreases |s|
  {
    hide Redacted, HidePaths, OpenEnded, NewlineLocal, Utf8, FirstLine, ByLines, NameLength, NoLineIsOpenEnded;
    var a, b := s[..FirstLine(s)], s[FirstLine(s)..];
    TextLineByLine(s);
    NextLine([UsernamePath] + others, s);
    NoLines([UsernamePath] + others);
    LineIsClosed(s);
    assert s == a + b;
    FirstRule(others, s);
    FirstRule(others, a);
    FirstRule(others, b);
    if b == [] {
      assert a == s;
    } else {
      DefaultRulesStream(others, b);
      PathsOverNewline(a, b);
      LocalRulesSplit(others, HidePaths(a), HidePaths(b));
    }
  }

  // ---------------------------------------------------------------------------------------------
  // Default rules that are local to lines
  // ---------------------------------------------------------------------------------------------

  /** The length of the match of a pattern after some text and at the start of some other, zero if there is none. */
  type Matcher = (Bytes, Bytes) -> nat

  /** Every match, from left to right, is replaced. */
  function Replace(m: Matcher, sub: Bytes, before: Bytes, s: Bytes): Bytes
    decreases |s|
  {
    if s == [] then []
    else if 0 < m(before, s) <= |s| then sub + Replace(m, sub, before + s[..m(before, s)], s[m(before, s)..])
    else [s[0]] + Replace(m, sub, before + [s[0]], s[1..])
  }

  predicate Occurs(m: Matcher, before: Bytes, s: Bytes)
    decreases |s|
  {
    s != [] && (0 < m(before, s) <= |s| || Occurs(m, before + [s[0]], s[1..]))
  }

  lemma {:induction false} NoMatchNoChange(m: Matcher, sub: Bytes, before: Bytes, s: Bytes)
    requires !Occurs(m, before, s)
    ensures Replace(m, sub, before, s) == s
    decreases |s|
  {
    if s != [] {
      NoMatchNoChange(m, sub, before + [s[0]], s[1..]);
    }
  }

  /** No match starts before position n of the text. */
  predicate NoneBefore(m: Matcher, s: Bytes, n: nat)
    requires n <= |s|
  {
    forall p :: 0 <= p < n ==> !(0 < m(s[..p], s[p..]) <= |s| - p)
  }

  /** What stands before the first match is kept, the match gives way to the substitute, and the rest is gone over. */
  lemma {:induction false} FirstMatchIsReplaced(m: Matcher, sub: Bytes, s: Bytes, i: nat, n: nat)
    requires i <= n < |s| && NoneBefore(m, s, n) && 0 < m(s[..n], s[n..]) <= |s| - n
    ensures var end := n + m(s[..n], s[n..]);
            Replace(m, sub, s[..i], s[i..]) == s[i..n] + sub + Replace(m, sub, s[..end], s[end..])
    decreases n - i
  {
    hide Replace, NoneBefore;
    ReplaceStep(m, sub, s[..i], s[i..]);
    if i == n {
      var k := m(s[..n], s[n..]);
      assert s[n..][..k] == s[n..n + k] && s[..n] + s[n..n + k] == s[..n + k] && s[n..][k..] == s[n + k..];
      assert s[i..n] == [];
    } else {
      NoneThere(m, s, n, i);
      assert s[i..][..1] == [s[i]] && s[..i] + [s[i]] == s[..i + 1] && s[i..][1..] == s[i + 1..];
      FirstMatchIsReplaced(m, sub, s, i + 1, n);
      assert s[i..n] == [s[i]] + s[i + 1..n];
    }
  }

  lemma NoneThere(m: Matcher, s: Bytes, n: nat, p: nat)
    requires p < n <= |s| && NoneBefore(m, s, n)
    ensures !(0 < m(s[..p], s[p..]) <= |s| - p)
  {
  }

  function RuleOf(m: Matcher, sub: Bytes): Rule {
    (s: Bytes) => if Occurs(m, [], s) then Owned(Replace(m, sub, [], s)) else Borrowed
  }

  predicate EndsMatches(m: Matcher, before: Bytes, x: Bytes, b: Bytes) {
    m(before, x + b) == m(before, x) < |x|
  }

  predicate StartsMatches(m: Matcher, a: Bytes, before: Bytes, s: Bytes) {
    m(a + before, s) == m(before, s)
  }

  /** No match reaches over a newline, and text beyond one does not matter to it. */
  ghost predicate LineBound(m: Matcher) {
    && (forall before, x, b :: EndsLine(x) ==> EndsMatches(m, before, x, b))
    && (forall a, before, s :: EndsLine(a) ==> StartsMatches(m, a, before, s))
  }

  /** How far one step of the replacement goes, and what it writes. */
  function MatchStep(m: Matcher, before: Bytes, s: Bytes): (n: nat)
    requires s != []
    ensures 0 < n <= |s|
  {
    if 0 < m(before, s) <= |s| then m(before, s) else 1
  }

  function MatchHead(m: Matcher, sub: Bytes, before: Bytes, s: Bytes): Bytes
    requires s != []
  {
    if 0 < m(before, s) <= |s| then sub else [s[0]]
  }

  lemma ReplaceStep(m: Matcher, sub: Bytes, before: Bytes, s: Bytes)
    requires s != []
    ensures var n := MatchStep(m, before, s);
            Replace(m, sub, before, s) == MatchHead(m, sub, before, s) + Replace(m, sub, before + s[..n], s[n..])
    ensures Replace(m, sub, before, []) == []
  {
    assert s[..1] == [s[0]];
  }

  lemma {:induction false} ReplaceSplits(m: Matcher, sub: Bytes, before: Bytes, x: Bytes, b: Bytes)
    requires LineBound(m) && EndsLine(x)
    ensures Replace(m, sub, before, x + b) == Replace(m, sub, before, x) + Replace(m, sub, before + x, b)
    ensures EndsLine(Replace(m, sub, before, x))
    decreases |x|
  {
    hide Replace;
    assert EndsMatches(m, before, x, b);
    var n := MatchStep(m, before, x);
    var head, rest := x[..n], x[n..];
    ReplaceStep(m, sub, before, x);
    ReplaceStep(m, sub, before, x + b);
    assert (x + b)[..n] == head && (x + b)[n..] == rest + b && before + head + rest == before + x;
    if rest == [] {
      ReplaceStep(m, sub, before + head, x);
      assert rest + b == b && x == [NEWLINE] && before + head == before + x;
    } else {
      ReplaceSplits(m, sub, before + head, rest, b);
    }
  }

  lemma {:induction false} NewlineIsAFreshStart(m: Matcher, sub: Bytes, a: Bytes, before: Bytes, s: Bytes)
    requires LineBound(m) && EndsLine(a)
    ensures Replace(m, sub, a + before, s) == Replace(m, sub, before, s)
    decreases |s|
  {
    if s != [] {
      assert StartsMatches(m, a, before, s);
      var n := if 0 < m(before, s) <= |s| then m(before, s) else 1;
      assert n == 1 ==> s[..n] == [s[0]];
      NewlineIsAFreshStart(m, sub, a, before + s[..n], s[n..]);
      assert a + before + s[..n] == a + (before + s[..n]);
    }
  }

  /** A rule whose pattern is bound to lines is local to them. */
  lemma LineBoundRulesAreLocal(m: Matcher, sub: Bytes)
    requires LineBound(m)
    ensures NewlineLocal(RuleOf(m, sub))
  {
    forall a, b | EndsLine(a) ensures SplitsAt(RuleOf(m, sub), a, b) {
      RuleReplaces(m, sub, a + b);
      RuleReplaces(m, sub, a);
      RuleReplaces(m, sub, b);
      ReplaceSplits(m, sub, [], a, b);
      NewlineIsAFreshStart(m, sub, a, [], b);
      assert a + [] == a && [] + a == a;
    }
  }

  lemma RuleReplaces(m: Matcher, sub: Bytes, s: Bytes)
    ensures Out(RuleOf(m, sub), s) == Replace(m, sub, [], s)
  {
    if !Occurs(m, [], s) {
      NoMatchNoChange(m, sub, [], s);
    }
  }

  /** Whether a text ends or starts with a word character, for the word boundaries of the patterns. */
  datatype Words = Words(atEnd: Bytes -> bool, atStart: Bytes -> bool)

  /** A character does not reach over a newline, and a newline is no word character. */
  ghost predicate Linewise(w: Words) {
    && (forall a, s :: EndsLine(a) ==> w.atEnd(a + s) == w.atEnd(s))
    && (forall x, b :: EndsLine(x) ==> w.atStart(x + b) == w.atStart(x))
  }

  predicate IsHex(b: Byte) {
    48 <= b <= 57 || 65 <= b <= 70 || 97 <= b <= 102
  }

  const DASH: Byte := 45

  /** Eight, four, four, four and twelve hexadecimal digits with dashes between them. */
  predicate IsGuid(s: Bytes) {
    |s| == 36 && forall k :: 0 <= k < 36 ==> if k in {8, 13, 18, 23} then s[k] == DASH else IsHex(s[k])
  }

  /** "0123456789ABCDEFabcdef" */
  const HEX_DIGITS: Bytes :=
    [48, 49, 50, 51, 52, 53, 54, 55, 56, 57, 65, 66, 67, 68, 69, 70, 97, 98, 99, 100, 101, 102]

  lemma HexDigitsAre(b: Byte)
    ensures IsHex(b) <==> b in HEX_DIGITS
  {
    assert 48 <= b <= 57 ==> HEX_DIGITS[b - 48] == b;
    assert 65 <= b <= 70 ==> HEX_DIGITS[b - 55] == b;
    assert 97 <= b <= 102 ==> HEX_DIGITS[b - 81] == b;
  }

  /** A run of hexadecimal digits of that length. */
  predicate HexRun(s: Bytes, n: nat) {
    |s| == n && forall k :: 0 <= k < n ==> IsHex(s[k])
  }

  /** Five parts joined by dashes. */
  function Dashed(a: Bytes, b: Bytes, c: Bytes, d: Bytes, e: Bytes): Bytes {
    a + [DASH] + b + [DASH] + c + [DASH] + d + [DASH] + e
  }

  predicate FiveRuns(a: Bytes, b: Bytes, c: Bytes, d: Bytes, e: Bytes) {
    HexRun(a, 8) && HexRun(b, 4) && HexRun(c, 4) && HexRun(d, 4) && HexRun(e, 12)
  }

  /** The pattern as it is written: five runs of hexadecimal digits joined by dashes. */
  lemma GuidIsFiveRuns(s: Bytes)
    ensures IsGuid(s) <==> exists a, b, c, d, e :: FiveRuns(a, b, c, d, e) && s == Dashed(a, b, c, d, e)
  {
    hide IsHex;
    if IsGuid(s) {
      var a, b, c, d, e := s[..8], s[9..13], s[14..18], s[19..23], s[24..];
      assert s == Dashed(a, b, c, d, e);
      assert FiveRuns(a, b, c, d, e);
    }
    forall a, b, c, d, e | FiveRuns(a, b, c, d, e) && s == Dashed(a, b, c, d, e) ensures IsGuid(s) {
      RunsMakeAGuid(a, b, c, d, e);
    }
  }

  lemma RunsMakeAGuid(a: Bytes, b: Bytes, c: Bytes, d: Bytes, e: Bytes)
    requires FiveRuns(a, b, c, d, e)
    ensures IsGuid(Dashed(a, b, c, d, e))
  {
    hide IsHex;
  }

  function GuidAt(w: Words, before: Bytes, s: Bytes): nat {
    if |s| >= 36 && IsGuid(s[..36]) && !w.atEnd(before) && !w.atStart(s[36..]) then 36 else 0
  }

  lemma GuidIsLineBound(w: Words)
    requires Linewise(w)
    ensures LineBound((before, s) => GuidAt(w, before, s))
  {
    var m := (before, s) => GuidAt(w, before, s);
    forall before, x, b | EndsLine(x) ensures EndsMatches(m, before, x, b) {
      var s := x + b;
      if |s| >= 36 && IsGuid(s[..36]) {
        GuidHasNoNewline(s[..36]);
        assert s[|x| - 1] == NEWLINE;
        assert forall k :: 0 <= k < 36 ==> s[k] == s[..36][k] != NEWLINE;
        assert |x| > 36;
        assert s[..36] == x[..36] && s[36..] == x[36..] + b;
      }
      if |x| >= 36 {
        assert s[..36] == x[..36];
        if IsGuid(x[..36]) {
          GuidHasNoNewline(x[..36]);
        }
        assert |x| == 36 ==> x[..36][35] == NEWLINE;
      }
    }
    forall a, before, s | EndsLine(a) ensures StartsMatches(m, a, before, s) {
    }
  }

  lemma GuidHasNoNewline(s: Bytes)
    requires IsGuid(s)
    ensures forall k :: 0 <= k < 36 ==> s[k] != NEWLINE
  {
    forall k | 0 <= k < 36 ensures s[k] != NEWLINE {
      assert if k in {8, 13, 18, 23} then s[k] == DASH else IsHex(s[k]);
    }
  }

  /** How many decimal digits the text starts with. */
  function Digits(s: Bytes): (n: nat)
    ensures n <= |s| && forall k :: 0 <= k < n ==> s[k] != NEWLINE
  {
    if s != [] && 48 <= s[0] <= 57 then 1 + Digits(s[1..]) else 0
  }

  /** The length of that many numbers with a dash behind them and one without, zero if they are not there. */
  function Numbers(s: Bytes, dashed: nat): (n: nat)
    ensures n <= |s|
    decreases dashed
  {
    var n := Digits(s);
    if n == 0 || dashed == 0 then n
    else if n < |s| && s[n] == DASH then
      var more := Numbers(s[n + 1..], dashed - 1);
      if more == 0 then 0 else n + 1 + more
    else 0
  }

  /** "S-1-5-21-" */
  const DOMAIN_SID: Bytes := [83, 45, 49, 45, 53, 45, 50, 49, 45]

  function SidAt(w: Words, before: Bytes, s: Bytes): nat {
    if DOMAIN_SID <= s && Numbers(s[|DOMAIN_SID|..], 3) > 0 && !w.atEnd(before)
       && !w.atStart(s[|DOMAIN_SID| + Numbers(s[|DOMAIN_SID|..], 3)..])
    then |DOMAIN_SID| + Numbers(s[|DOMAIN_SID|..], 3) else 0
  }

  predicate DigitRun(s: Bytes) {
    s != [] && forall k :: 0 <= k < |s| ==> 48 <= s[k] <= 57
  }

  /** Numbers joined by dashes. */
  function Joined(numbers: seq<Bytes>): Bytes
    requires numbers != []
  {
    if |numbers| == 1 then numbers[0] else numbers[0] + [DASH] + Joined(numbers[1..])
  }

  lemma {:induction false} DigitsOfRun(run: Bytes, rest: Bytes)
    requires forall k :: 0 <= k < |run| ==> 48 <= run[k] <= 57
    requires rest == [] || !(48 <= rest[0] <= 57)
    ensures Digits(run + rest) == |run|
  {
    if run != [] {
      assert (run + rest)[1..] == run[1..] + rest;
      DigitsOfRun(run[1..], rest);
    } else {
      assert run + rest == rest;
    }
  }

  lemma {:induction false} DigitsAreARun(s: Bytes)
    ensures forall k :: 0 <= k < Digits(s) ==> 48 <= s[k] <= 57
    ensures Digits(s) < |s| ==> !(48 <= s[Digits(s)] <= 57)
  {
    if s != [] && 48 <= s[0] <= 57 {
      DigitsAreARun(s[1..]);
    }
  }

  lemma NumbersCons(run: Bytes, more: Bytes, dashed: nat)
    requires DigitRun(run) && Numbers(more, dashed) > 0
    ensures Numbers(run + [DASH] + more, dashed + 1) == |run| + 1 + Numbers(more, dashed)
  {
    var s := run + [DASH] + more;
    assert s == run + ([DASH] + more);
    DigitsOfRun(run, [DASH] + more);
    assert s[|run| + 1..] == more;
  }

  lemma LastNumber(run: Bytes, rest: Bytes)
    requires DigitRun(run) && (rest == [] || !(48 <= rest[0] <= 57))
    ensures Numbers(run + rest, 0) == |run|
  {
    DigitsOfRun(run, rest);
  }

  /** That many numbers joined by dashes, with no digit behind them, are read whole. */
  lemma {:induction false} JoinedIsRead(numbers: seq<Bytes>, rest: Bytes)
    requires numbers != [] && forall run :: run in numbers ==> DigitRun(run)
    requires rest == [] || !(48 <= rest[0] <= 57)
    ensures Numbers(Joined(numbers) + rest, |numbers| - 1) == |Joined(numbers)| > 0
  {
    hide Numbers;
    var run := numbers[0];
    assert run in numbers && run != [];
    if |numbers| == 1 {
      LastNumber(run, rest);
    } else {
      var others := Joined(numbers[1..]);
      assert forall other :: other in numbers[1..] ==> other in numbers;
      JoinedIsRead(numbers[1..], rest);
      NumbersCons(run, others + rest, |numbers| - 2);
      assert Joined(numbers) + rest == run + [DASH] + (others + rest);
    }
  }

  /** What is read is that many numbers joined by dashes, and no digit follows. */
  lemma {:induction false} ReadIsJoined(s: Bytes, dashed: nat) returns (numbers: seq<Bytes>)
    requires Numbers(s, dashed) > 0
    ensures |numbers| == dashed + 1 && (forall run :: run in numbers ==> DigitRun(run))
    ensures s[..Numbers(s, dashed)] == Joined(numbers)
    ensures Numbers(s, dashed) < |s| ==> !(48 <= s[Numbers(s, dashed)] <= 57)
    decreases dashed
  {
    hide Numbers, DigitRun;
    FirstNumber(s, dashed);
    var n := Digits(s);
    if dashed == 0 {
      numbers := [s[..n]];
    } else {
      var more := s[n + 1..];
      var others := ReadIsJoined(more, dashed - 1);
      numbers := [s[..n]] + others;
      var m := Numbers(more, dashed - 1);
      assert numbers[1..] == others && s[..n + 1 + m] == s[..n] + [DASH] + more[..m];
      assert n + 1 + m < |s| ==> s[n + 1 + m] == more[m];
    }
  }

  lemma FirstNumber(s: Bytes, dashed: nat)
    requires Numbers(s, dashed) > 0
    ensures var n := Digits(s);
            && DigitRun(s[..n])
            && if dashed == 0 then Numbers(s, dashed) == n && (n < |s| ==> !(48 <= s[n] <= 57))
               else n < |s| && s[n] == DASH && Numbers(s[n + 1..], dashed - 1) > 0
                    && Numbers(s, dashed) == n + 1 + Numbers(s[n + 1..], dashed - 1)
  {
    DigitsAreARun(s);
  }

  /**
   The pattern as it is written: the prefix and four numbers joined by dashes, between word boundaries and with no
   digit behind them. (A digit is a word character, so the second boundary says the last part as well.)
   */
  lemma SidIsPrefixAndFourNumbers(w: Words, before: Bytes, s: Bytes, n: nat)
    ensures SidAt(w, before, s) == n > 0 <==>
            && n <= |s| && !w.atEnd(before) && !w.atStart(s[n..]) && (n < |s| ==> !(48 <= s[n] <= 57))
            && exists a, b, c, d ::
                 && DigitRun(a) && DigitRun(b) && DigitRun(c) && DigitRun(d)
                 && s[..n] == DOMAIN_SID + Joined([a, b, c, d])
  {
    hide Joined, DigitRun, Numbers;
    var p := |DOMAIN_SID|;
    if SidAt(w, before, s) == n > 0 {
      var numbers := ReadIsJoined(s[p..], 3);
      assert numbers == [numbers[0], numbers[1], numbers[2], numbers[3]];
      assert s[..n] == DOMAIN_SID + s[p..][..n - p];
      assert n < |s| ==> s[n] == s[p..][n - p];
    }
    if n <= |s| && !w.atEnd(before) && !w.atStart(s[n..]) && (n < |s| ==> !(48 <= s[n] <= 57)) {
      forall a, b, c, d | DigitRun(a) && DigitRun(b) && DigitRun(c) && DigitRun(d)
                          && s[..n] == DOMAIN_SID + Joined([a, b, c, d])
        ensures SidAt(w, before, s) == n > 0
      {
        JoinedIsRead([a, b, c, d], s[n..]);
        assert s == DOMAIN_SID + Joined([a, b, c, d]) + s[n..];
        assert s[p..] == Joined([a, b, c, d]) + s[n..];
      }
    }
  }

  lemma {:induction false} DigitsEndWithLine(x: Bytes, b: Bytes)
    requires EndsLine(x)
    ensures Digits(x + b) == Digits(x) < |x|
  {
    if 48 <= x[0] <= 57 {
      assert (x + b)[1..] == x[1..] + b;
      DigitsEndWithLine(x[1..], b);
    }
  }

  lemma {:induction false} NumbersEndWithLine(x: Bytes, b: Bytes, dashed: nat)
    requires EndsLine(x)
    ensures Numbers(x + b, dashed) == Numbers(x, dashed) < |x|
    decreases dashed
  {
    DigitsEndWithLine(x, b);
    var n := Digits(x);
    if n > 0 && dashed > 0 && x[n] == DASH {
      assert (x + b)[n + 1..] == x[n + 1..] + b;
      NumbersEndWithLine(x[n + 1..], b, dashed - 1);
    }
  }

  lemma SidIsLineBound(w: Words)
    requires Linewise(w)
    ensures LineBound((before, s) => SidAt(w, before, s))
  {
    var m := (before, s) => SidAt(w, before, s);
    forall before, x, b | EndsLine(x) ensures EndsMatches(m, before, x, b) {
      SidBeforeMore(w, before, x, b);
    }
    forall a, before, s | EndsLine(a) ensures StartsMatches(m, a, before, s) {
    }
  }

  lemma SidBeforeMore(w: Words, before: Bytes, x: Bytes, b: Bytes)
    requires Linewise(w) && EndsLine(x)
    ensures SidAt(w, before, x + b) == SidAt(w, before, x) < |x|
  {
    hide Numbers;
    var s := x + b;
    if DOMAIN_SID <= s {
      assert s[|x| - 1] == NEWLINE;
      assert |x| > |DOMAIN_SID| by {
        assert forall k :: 0 <= k < |DOMAIN_SID| ==> s[k] == DOMAIN_SID[k] != NEWLINE;
      }
      var rest := x[|DOMAIN_SID|..];
      assert s[|DOMAIN_SID|..] == rest + b && DOMAIN_SID <= x;
      NumbersEndWithLine(rest, b, 3);
      var n := Numbers(rest, 3);
      assert s[|DOMAIN_SID| + n..] == x[|DOMAIN_SID| + n..] + b;
    }
  }

  /** "<GUID>" and "<SID>" */
  const GUID: Bytes := [60, 71, 85, 73, 68, 62]
  const SID: Bytes := [60, 83, 73, 68, 62]

  function GuidRule(w: Words): Rule { RuleOf((before, s) => GuidAt(w, before, s), GUID) }

  function SidRule(w: Words): Rule { RuleOf((before, s) => SidAt(w, before, s), SID) }

  /** The rules for GUIDs and for domain SIDs are local to lines. */
  lemma GuidAndSidAreLocal(w: Words)
    requires Linewise(w)
    ensures NewlineLocal(GuidRule(w)) && NewlineLocal(SidRule(w))
  {
    hide NewlineLocal, LineBound;
    GuidIsLineBound(w);
    SidIsLineBound(w);
    LineBoundRulesAreLocal((before, s) => GuidAt(w, before, s), GUID);
    LineBoundRulesAreLocal((before, s) => SidAt(w, before, s), SID);
  }
}
