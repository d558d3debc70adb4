/** Search highlighting in the entry list: finding the matches of a needle and cutting a text at them. */
module Highlight {
  import opened Wrappers

  datatype Span = Span(start: nat, end: nat)

  datatype Piece = Plain(text: string) | Mark(text: string)

  predicate OccursAt(haystack: string, needle: string, i: nat) {
    i + |needle| <= |haystack| && haystack[i..i + |needle|] == needle
  }

  /** The first occurrence of the needle at or after a position. */
  function IndexOf(haystack: string, needle: string, from: nat): (r: Option<nat>)
    ensures r.Some? ==> from <= r.value && OccursAt(haystack, needle, r.value)
    ensures forall i :: from <= i && OccursAt(haystack, needle, i) ==> r.Some? && r.value <= i
    decreases |haystack| - from
  {
    if from > |haystack| then None
    else if OccursAt(haystack, needle, from) then Some(from)
    else IndexOf(haystack, needle, from + 1)
  }

  /** Each span is the first occurrence after the one before it, and none follows the last. */
  function Greedy(haystack: string, needle: string, from: nat): (spans: seq<Span>)
    requires needle != ""
    ensures Matches(haystack, needle, spans, from)
    decreases |haystack| - from
  {
    match IndexOf(haystack, needle, from)
    case None => []
    case Some(i) => [Span(i, i + |needle|)] + Greedy(haystack, needle, i + |needle|)
  }

  /** Occurrences in order, without overlap, none before the given position. */
  predicate Matches(haystack: string, needle: string, spans: seq<Span>, from: nat) {
    && (forall k :: 0 <= k < |spans| ==> from <= spans[k].start && spans[k].end == spans[k].start + |needle|)
    && (forall k :: 0 <= k < |spans| ==> OccursAt(haystack, needle, spans[k].start))
    && (forall j, k :: 0 <= j < k < |spans| ==> spans[j].end <= spans[k].start)
  }

  lemma GreedyStep(haystack: string, needle: string, from: nat, before: seq<Span>)
    requires needle != ""
    ensures IndexOf(haystack, needle, from).None? ==> Greedy(haystack, needle, from) == []
    ensures IndexOf(haystack, needle, from).Some? ==>
      var i := IndexOf(haystack, needle, from).value;
      && Greedy(haystack, needle, from) == [Span(i, i + |needle|)] + Greedy(haystack, needle, i + |needle|)
      && before + Greedy(haystack, needle, from)
         == before + [Span(i, i + |needle|)] + Greedy(haystack, needle, i + |needle|)
  {
    hide IndexOf;
  }

  lemma GreedyEnd(haystack: string, needle: string, from: nat)
    requires needle != "" && from > |haystack|
    ensures Greedy(haystack, needle, from) == []
  {
  }

  method CollectMatches(haystack: string, needle: string) returns (spans: seq<Span>)
    ensures spans == if needle == "" then [] else Greedy(haystack, needle, 0)
  {
    hide Greedy, Matches, OccursAt, IndexOf;
    spans := [];
    if needle == "" {
      return;
    }
    var from: nat := 0;
    while from <= |haystack|
      invariant Greedy(haystack, needle, 0) == spans + Greedy(haystack, needle, from)
      decreases |haystack| - from
    {
      GreedyStep(haystack, needle, from, spans);
      var found := IndexOf(haystack, needle, from);
      if found.None? {
        break;
      }
      spans := spans + [Span(found.value, found.value + |needle|)];
      from := found.value + |needle|;
    }
    if from > |haystack| {
      GreedyEnd(haystack, needle, from);
    }
  }

  // ---------------------------------------------------------------------------------------------
  // Optimality
  // ---------------------------------------------------------------------------------------------

  /** Starts of occurrences, none before the given position, any two at least a needle apart. */
  ghost predicate Disjoint(haystack: string, needle: string, starts: set<nat>, from: nat) {
    && (forall i :: i in starts ==> from <= i && OccursAt(haystack, needle, i))
    && (forall i, j :: i in starts && j in starts && i < j ==> i + |needle| <= j)
  }

  function Later(starts: set<nat>, next: nat): set<nat> {
    set i | i in starts && i >= next
  }

  /** Only one of the occurrences can overlap the first one. */
  lemma OneOverlapsTheFirst(haystack: string, needle: string, starts: set<nat>, first: nat)
    requires Disjoint(haystack, needle, starts, first)
    ensures |starts| <= 1 + |Later(starts, first + |needle|)|
  {
    var later := Later(starts, first + |needle|);
    if i :| i in starts && i < first + |needle| {
      assert starts == later + {i};
    } else {
      assert starts == later;
    }
  }

  /** No choice of disjoint occurrences is larger than the one the loop makes. */
  lemma {:induction false} GreedyIsMaximum(haystack: string, needle: string, starts: set<nat>, from: nat)
    requires needle != "" && Disjoint(haystack, needle, starts, from)
    ensures |starts| <= |Greedy(haystack, needle, from)|
    decreases |haystack| - from
  {
    hide Greedy, Matches;
    GreedyStep(haystack, needle, from, []);
    var found := IndexOf(haystack, needle, from);
    if found.None? {
      assert starts == {};
    } else {
      var next := found.value + |needle|;
      assert Disjoint(haystack, needle, starts, found.value);
      assert Disjoint(haystack, needle, Later(starts, next), next);
      hide IndexOf, OccursAt;
      OneOverlapsTheFirst(haystack, needle, starts, found.value);
      GreedyIsMaximum(haystack, needle, Later(starts, next), next);
    }
  }

  function Starts(spans: seq<Span>): set<nat> {
    set k | 0 <= k < |spans| :: spans[k].start
  }

  lemma StartIsIn(spans: seq<Span>, i: nat)
    requires i in Starts(spans)
    ensures exists k :: 0 <= k < |spans| && spans[k].start == i
  {
  }

  /** The spans are themselves such a choice, so the maximum is reached. */
  lemma GreedyIsDisjoint(haystack: string, needle: string)
    requires needle != ""
    ensures var spans := Greedy(haystack, needle, 0);
            Disjoint(haystack, needle, Starts(spans), 0) && |Starts(spans)| == |spans|
  {
    hide Greedy, OccursAt;
    var spans := Greedy(haystack, needle, 0);
    hide Starts;
    forall i | i in Starts(spans)
      ensures OccursAt(haystack, needle, i)
    {
      StartIsIn(spans, i);
    }
    forall i, j | i in Starts(spans) && j in Starts(spans) && i < j
      ensures i + |needle| <= j
    {
      StartIsIn(spans, i);
      StartIsIn(spans, j);
    }
    assert InOrder(spans) && forall k :: 0 <= k < |spans| ==> spans[k].start < spans[k].end;
    hide Matches;
    StartsAreDistinct(spans);
  }

  lemma StartsOneMore(spans: seq<Span>)
    requires spans != []
    ensures Starts(spans) == Starts(spans[..|spans| - 1]) + {spans[|spans| - 1].start}
  {
    var init := spans[..|spans| - 1];
    forall k | 0 <= k < |spans|
      ensures spans[k].start in Starts(init) + {spans[|spans| - 1].start}
    {
      assert k < |init| ==> init[k] == spans[k];
    }
  }

  lemma {:induction false} StartsAreDistinct(spans: seq<Span>)
    requires InOrder(spans) && forall k :: 0 <= k < |spans| ==> spans[k].start < spans[k].end
    ensures |Starts(spans)| == |spans|
  {
    if spans != [] {
      var init, last := spans[..|spans| - 1], spans[|spans| - 1];
      StartsAreDistinct(init);
      assert forall k :: 0 <= k < |init| ==> init[k] == spans[k] && init[k].start < last.start;
      assert last.start !in Starts(init);
      StartsOneMore(spans);
    }
  }

  // ---------------------------------------------------------------------------------------------
  // Rendering
  // ---------------------------------------------------------------------------------------------

  function Clamp<T>(n: nat, s: seq<T>): nat {
    if n <= |s| then n else |s|
  }

  /** A slice whose bounds may lie beyond the text. */
  function Slice(s: string, start: nat, end: nat): string {
    if Clamp(start, s) <= Clamp(end, s) then s[Clamp(start, s)..Clamp(end, s)] else ""
  }

  function Concat(pieces: seq<Piece>): string {
    if pieces == [] then "" else Concat(pieces[..|pieces| - 1]) + pieces[|pieces| - 1].text
  }

  function Marks(pieces: seq<Piece>): seq<string> {
    if pieces == [] then []
    else Marks(pieces[..|pieces| - 1]) + if pieces[|pieces| - 1].Mark? then [pieces[|pieces| - 1].text] else []
  }

  lemma Push(pieces: seq<Piece>, p: Piece)
    ensures Concat(pieces + [p]) == Concat(pieces) + p.text
    ensures Marks(pieces + [p]) == Marks(pieces) + if p.Mark? then [p.text] else []
  {
    assert (pieces + [p])[..|pieces|] == pieces;
  }

  lemma SliceOn(s: string, i: nat, j: nat, k: nat)
    requires i <= j <= k
    ensures Slice(s, i, j) + Slice(s, j, k) == Slice(s, i, k)
  {
  }

  lemma WholeSlice(s: string, end: nat)
    ensures end >= |s| ==> Slice(s, 0, end) == s
    ensures Slice(s, 0, |s|) == s
  {
  }

  lemma AloneIsTheText(text: string)
    ensures Concat([Plain(text)]) == text && Marks([Plain(text)]) == [] == Shown(text, [])
    ensures Concat([]) == Slice(text, 0, 0) && Marks([]) == []
  {
    Push([], Plain(text));
  }

  predicate InOrder(spans: seq<Span>) {
    && (forall k :: 0 <= k < |spans| ==> spans[k].start <= spans[k].end)
    && (forall j, k :: 0 <= j < k < |spans| ==> spans[j].end <= spans[k].start)
  }

  /** What the spans show of the text. */
  function Shown(text: string, spans: seq<Span>): seq<string> {
    seq(|spans|, k requires 0 <= k < |spans| => Slice(text, spans[k].start, spans[k].end))
  }

  lemma ShownOneMore(text: string, spans: seq<Span>, i: nat)
    requires i < |spans|
    ensures Shown(text, spans[..i + 1]) == Shown(text, spans[..i]) + [Slice(text, spans[i].start, spans[i].end)]
  {
  }

  /** Whatever the spans, the pieces make up the text again, and the marked ones are the slices at the spans. */
  method Render(text: string, spans: seq<Span>) returns (pieces: seq<Piece>)
    requires InOrder(spans)
    ensures Concat(pieces) == text
    ensures Marks(pieces) == Shown(text, spans)
  {
    hide Concat, Marks, Shown, Slice;
    if |spans| == 0 {
      AloneIsTheText(text);
      return [Plain(text)];
    }
    AloneIsTheText(text);
    pieces := [];
    var cursor: nat := 0;
    for i := 0 to |spans|
      invariant i < |spans| ==> cursor <= spans[i].start
      invariant Concat(pieces) == Slice(text, 0, cursor)
      invariant Marks(pieces) == Shown(text, spans[..i])
    {
      ShownOneMore(text, spans, i);
      var start, end := spans[i].start, spans[i].end;
      if start > cursor {
        Push(pieces, Plain(Slice(text, cursor, start)));
        SliceOn(text, 0, cursor, start);
        pieces := pieces + [Plain(Slice(text, cursor, start))];
      }
      Push(pieces, Mark(Slice(text, start, end)));
      SliceOn(text, 0, start, end);
      pieces := pieces + [Mark(Slice(text, start, end))];
      cursor := end;
    }
    assert spans[..|spans|] == spans;
    WholeSlice(text, cursor);
    if cursor < |text| {
      Push(pieces, Plain(Slice(text, cursor, |text|)));
      SliceOn(text, 0, cursor, |text|);
      pieces := pieces + [Plain(Slice(text, cursor, |text|))];
    }
  }

  /** The whole rendering of a text under some lower-casing. */
  method RenderHighlighted(text: string, needle: string, lower: string -> string) returns (pieces: seq<Piece>)
    ensures Concat(pieces) == text
    ensures needle == "" ==> Marks(pieces) == []
    ensures needle != "" ==>
      var spans := Greedy(lower(text), needle, 0);
      Marks(pieces) == Shown(text, spans)
  {
    var spans := CollectMatches(lower(text), needle);
    pieces := Render(text, spans);
  }

  // ---------------------------------------------------------------------------------------------
  // Matches are found in the lower-cased text and marked in the text itself
  // ---------------------------------------------------------------------------------------------

  /** What each letter of a text becomes, in its context, when the text is lower-cased; none becomes nothing. */
  type Images = images: seq<string> | forall k :: 0 <= k < |images| ==> images[k] != ""

  function Lowered(images: Images): string {
    if images == [] then "" else Lowered(images[..|images| - 1]) + images[|images| - 1]
  }

  /** Where the image of letter k starts. */
  function Offset(images: Images, k: nat): (o: nat)
    requires k <= |images|
    ensures o >= k
  {
    if k == 0 then 0 else Offset(images, k - 1) + |images[k - 1]|
  }

  lemma {:induction false} OffsetOfPrefix(images: Images, n: nat, k: nat)
    requires k <= n <= |images|
    ensures Offset(images[..n], k) == Offset(images, k)
  {
    if k > 0 {
      OffsetOfPrefix(images, n, k - 1);
    }
  }

  lemma {:induction false} LoweredLength(images: Images)
    ensures |Lowered(images)| == Offset(images, |images|)
  {
    if images != [] {
      LoweredLength(images[..|images| - 1]);
      OffsetOfPrefix(images, |images| - 1, |images| - 1);
    }
  }

  lemma {:induction false} OffsetsRise(images: Images, j: nat, k: nat)
    requires j <= k <= |images|
    ensures Offset(images, j) + k - j <= Offset(images, k)
  {
    if j < k {
      OffsetsRise(images, j, k - 1);
    }
  }

  /** The letter, among the first n, whose image covers a position of the lower-cased text. */
  function LetterBelow(images: Images, n: nat, at: nat): (k: nat)
    requires n <= |images| && at < Offset(images, n)
    ensures k < n && Offset(images, k) <= at < Offset(images, k + 1)
  {
    if Offset(images, n - 1) <= at then n - 1 else LetterBelow(images, n - 1, at)
  }

  function LetterAt(images: Images, at: nat): (k: nat)
    requires at < |Lowered(images)|
    ensures k < |images| && Offset(images, k) <= at < Offset(images, k + 1)
  {
    LoweredLength(images);
    LetterBelow(images, |images|, at)
  }

  /** No letter before the k-th becomes longer. */
  predicate Straight(images: Images, k: nat)
    requires k <= |images|
  {
    forall j :: 0 <= j < k ==> |images[j]| == 1
  }

  lemma {:induction false} StraightIff(images: Images, k: nat)
    requires k <= |images|
    ensures Straight(images, k) <==> Offset(images, k) == k
  {
    if k > 0 {
      StraightIff(images, k - 1);
    }
  }

  predicate IsMatch(images: Images, span: Span) {
    span.start < span.end <= |Lowered(images)|
  }

  function FirstLetter(images: Images, span: Span): (k: nat)
    requires IsMatch(images, span)
    ensures k < |images|
  {
    LetterAt(images, span.start)
  }

  function LastLetter(images: Images, span: Span): (k: nat)
    requires IsMatch(images, span)
    ensures k < |images|
  {
    LetterAt(images, span.end - 1)
  }

  /** The letters that are marked, cut off at the end of the text, are those the match came from. */
  predicate MarksItsLetters(images: Images, span: Span)
    requires IsMatch(images, span)
  {
    && Clamp(span.start, images) == FirstLetter(images, span)
    && Clamp(span.end, images) == LastLetter(images, span) + 1
  }

  lemma RightMarksShowTheirLetters(text: string, images: Images, span: Span)
    requires |text| == |images| && IsMatch(images, span) && MarksItsLetters(images, span)
    ensures FirstLetter(images, span) <= LastLetter(images, span)
    ensures Slice(text, span.start, span.end) == text[FirstLetter(images, span)..LastLetter(images, span) + 1]
  {
  }

  /**
   A mark covers exactly the letters its match came from if and only if no letter before the match becomes
   longer and the match starts with a letter, and either it reaches into the last letter of the text, or no
   letter before its last one becomes longer either and it takes no more than one character of that one.
   */
  lemma MarksItsLettersIff(images: Images, span: Span)
    requires IsMatch(images, span)
    ensures var first, last := FirstLetter(images, span), LastLetter(images, span);
            MarksItsLetters(images, span) <==>
              && Straight(images, first) && span.start == Offset(images, first)
              && (last + 1 < |images| ==> Straight(images, last) && span.end == Offset(images, last) + 1)
  {
    StraightIff(images, FirstLetter(images, span));
    StraightIff(images, LastLetter(images, span));
  }

  /** For a match of whole letters that leaves letters after it: iff no letter up to its end becomes longer. */
  lemma WholeLettersMarkedIff(images: Images, first: nat, end: nat)
    requires first < end < |images|
    ensures var span := Span(Offset(images, first), Offset(images, end));
            IsMatch(images, span) && (MarksItsLetters(images, span) <==> Straight(images, end))
  {
    hide Straight, Lowered, LetterAt, LetterBelow, MarksItsLetters;
    var span := Span(Offset(images, first), Offset(images, end));
    LoweredLength(images);
    OffsetsRise(images, first, end - 1);
    OffsetsRise(images, end, |images|);
    SameLetter(images, FirstLetter(images, span), first, span.start);
    SameLetter(images, LastLetter(images, span), end - 1, span.end - 1);
    MarksItsLettersIff(images, span);
    StraightIff(images, first);
    StraightIff(images, end - 1);
    StraightIff(images, end);
  }

  lemma SameLetter(images: Images, j: nat, k: nat, at: nat)
    requires j < |images| && k < |images|
    requires Offset(images, j) <= at < Offset(images, j + 1) && Offset(images, k) <= at < Offset(images, k + 1)
    ensures j == k
  {
    if j < k {
      OffsetsRise(images, j + 1, k);
    } else if k < j {
      OffsetsRise(images, k + 1, j);
    }
  }

  /** A match that ends before one whose mark is right has a right mark too. */
  lemma EarlierMarksAreRight(images: Images, span: Span, later: Span)
    requires IsMatch(images, span) && IsMatch(images, later) && span.end <= later.start
    requires MarksItsLetters(images, later)
    ensures MarksItsLetters(images, span)
  {
    var k := FirstLetter(images, later);
    MarksItsLettersIff(images, later);
    StraightIff(images, k);
    StraightMeansSame(images, k, span.start);
    StraightMeansSame(images, k, span.end - 1);
  }

  /** Before the first letter that becomes longer, every position is that of its letter. */
  lemma StraightMeansSame(images: Images, k: nat, at: nat)
    requires k <= |images| && Straight(images, k) && at < k && at < |Lowered(images)|
    ensures LetterAt(images, at) == at
  {
    StraightIff(images, at);
    StraightIff(images, at + 1);
    SameLetter(images, LetterAt(images, at), at, at);
  }

  lemma GreedyAreMatches(images: Images, needle: string, k: nat)
    requires needle != "" && k < |Greedy(Lowered(images), needle, 0)|
    ensures IsMatch(images, Greedy(Lowered(images), needle, 0)[k])
  {
  }

  ghost predicate AllMarksAreRight(images: Images, spans: seq<Span>) {
    forall k :: 0 <= k < |spans| ==> IsMatch(images, spans[k]) && MarksItsLetters(images, spans[k])
  }

  /** All marks of a text are right if and only if the last one is. */
  lemma AllMarksAreRightIff(images: Images, needle: string)
    requires needle != "" && Greedy(Lowered(images), needle, 0) != []
    ensures var spans := Greedy(Lowered(images), needle, 0);
            && IsMatch(images, spans[|spans| - 1])
            && (AllMarksAreRight(images, spans) <==> MarksItsLetters(images, spans[|spans| - 1]))
  {
    hide MarksItsLetters;
    var spans := Greedy(Lowered(images), needle, 0);
    var last := spans[|spans| - 1];
    GreedyAreMatches(images, needle, |spans| - 1);
    if MarksItsLetters(images, last) {
      forall k: nat | k < |spans| ensures IsMatch(images, spans[k]) && MarksItsLetters(images, spans[k]) {
        GreedyAreMatches(images, needle, k);
        if k < |spans| - 1 {
          EarlierMarksAreRight(images, spans[k], last);
        }
      }
    }
  }

  /** A text in which no letter up to the end of a match becomes longer shows the needle up to case. */
  lemma MarksShowTheNeedle(images: Images, needle: string, k: nat)
    requires needle != "" && k < |Greedy(Lowered(images), needle, 0)|
    ensures var span := Greedy(Lowered(images), needle, 0)[k];
            span.end <= |images| && Straight(images, span.end) ==>
              Lowered(images[span.start..span.end]) == needle
  {
    var span := Greedy(Lowered(images), needle, 0)[k];
    if span.end <= |images| && Straight(images, span.end) {
      GreedyAreMatches(images, needle, k);
      assert OccursAt(Lowered(images), needle, span.start);
      StraightSlice(images, span.start, span.end);
    }
  }

  lemma {:induction false} StraightSlice(images: Images, i: nat, j: nat)
    requires i <= j <= |images| && Straight(images, j) && j <= |Lowered(images)|
    ensures Lowered(images)[i..j] == Lowered(images[i..j])
    decreases j
  {
    if i < j {
      assert images[i..j][..j - 1 - i] == images[i..j - 1];
      StraightSlice(images, i, j - 1);
      LetterShows(images, j - 1);
      assert Lowered(images)[i..j] == Lowered(images)[i..j - 1] + [Lowered(images)[j - 1]];
    }
  }

  /** The image of a letter stands in the lower-cased text where it starts. */
  lemma {:induction false} LetterShows(images: Images, k: nat)
    requires k < |images| && Straight(images, k + 1)
    ensures k < |Lowered(images)| && [Lowered(images)[k]] == images[k]
    decreases |images|
  {
    var init := images[..|images| - 1];
    LoweredLength(init);
    if k < |images| - 1 {
      LetterShows(init, k);
    } else {
      StraightIff(init, k);
    }
  }

  /** Capital I with a dot above is the one letter that becomes longer, and it becomes two characters. */
  function Dotted(c: char): string {
    if c == '\U{130}' then ['i', '\U{307}'] else [c]
  }

  /** A concrete text, dotted I and x: searching x marks nothing, because its match lies beyond the end. */
  lemma LongerLowerCaseShiftsMarks()
    ensures var images: Images := [Dotted('\U{130}'), Dotted('x')];
            && Greedy(Lowered(images), "x", 0) == [Span(2, 3)]
            && Slice(['\U{130}', 'x'], 2, 3) == ""
            && IsMatch(images, Span(2, 3)) && !MarksItsLetters(images, Span(2, 3))
  {
    var images: Images := [Dotted('\U{130}'), Dotted('x')];
    var haystack := ['i', '\U{307}', 'x'];
    assert images[..1] == [Dotted('\U{130}')] && images[..1][..0] == [];
    assert Lowered(images[..1]) == ['i', '\U{307}'];
    assert Lowered(images) == haystack;
    assert haystack[0..1] == ['i'] && haystack[1..2] == ['\U{307}'] && haystack[2..3] == ['x'] == "x";
    assert "x"[0] == 'x' && haystack[0..1][0] != 'x' && haystack[1..2][0] != 'x';
    assert !OccursAt(haystack, "x", 0) && !OccursAt(haystack, "x", 1) && OccursAt(haystack, "x", 2);
    assert IndexOf(haystack, "x", 0) == Some(2);
    assert IndexOf(haystack, "x", 3) == None;
    assert Greedy(haystack, "x", 3) == [];
  }
}
