/** The guard on body rewrites (`refine.py`) and the rewrite it protects (`_apply_restructure_body`). */
module Refinement {
  import opened Text
  import opened Frontmatter

  // ---- the word multiset ----

  predicate IsDigit(c: char) { '0' <= c <= '9' }

  /** `[0-9A-Za-zÀ-ɏ']` */
  predicate IsWordChar(c: char) {
    IsDigit(c) || 'A' <= c <= 'Z' || 'a' <= c <= 'z' || '\U{c0}' <= c <= '\U{24f}' || c == '\''
  }

  function SpaceRun(s: string): (n: nat)
    ensures n <= |s|
  {
    if s != "" && IsSpace(s[0]) then 1 + SpaceRun(s[1..]) else 0
  }

  function DigitRun(s: string): (n: nat)
    ensures n <= |s|
  {
    if s != "" && IsDigit(s[0]) then 1 + DigitRun(s[1..]) else 0
  }

  /** The length matched at the front of `s` by `\s*\d+[.)]\s+`, or 0. */
  function MarkerLength(s: string): (n: nat)
    ensures n <= |s|
  {
    var a := SpaceRun(s);
    var d := DigitRun(s[a..]);
    if d > 0 && a + d < |s| && (s[a + d] == '.' || s[a + d] == ')') && SpaceRun(s[a + d + 1..]) > 0
    then a + d + 1 + SpaceRun(s[a + d + 1..])
    else 0
  }

  /** `_ORDERED_MARKER.sub("", text)`; `atLineStart` says whether `^` matches here. */
  function DropMarkers(s: string, atLineStart: bool): string
    decreases |s|
  {
    if s == "" then ""
    else
      var n := if atLineStart then MarkerLength(s) else 0;
      if n > 0 then DropMarkers(s[n..], s[n - 1] == '\n')
      else [s[0]] + DropMarkers(s[1..], s[0] == '\n')
  }

  function WordRun(s: string): (n: nat)
    ensures n <= |s|
  {
    if s != "" && IsWordChar(s[0]) then 1 + WordRun(s[1..]) else 0
  }

  function Words(s: string): seq<string>
    decreases |s|
  {
    if s == "" then []
    else if WordRun(s) > 0 then [LowerAscii(s[..WordRun(s)])] + Words(s[WordRun(s)..])
    else Words(s[1..])
  }

  /** `content_words`. */
  function ContentWords(text: string): multiset<string> {
    multiset(Words(DropMarkers(text, true)))
  }

  // ---- the guard ----

  datatype Budget = Budget(maxAdded: nat, allowDropped: nat)

  /** `meaning_preserved`. */
  predicate MeaningPreserved(old_: string, new_: string, b: Budget) {
    |ContentWords(old_) - ContentWords(new_)| <= b.allowDropped && |ContentWords(new_) - ContentWords(old_)| <= b.maxAdded
  }

  lemma DifferenceTriangle<T>(a: multiset<T>, b: multiset<T>, c: multiset<T>)
    ensures |a - c| <= |a - b| + |b - c|
  {
    var x, y := a - c, (a - b) + (b - c);
    assert |y| == |a - b| + |b - c|;
    forall e: T ensures x[e] <= y[e] { }
    assert y == x + (y - x);
    assert |x + (y - x)| == |x| + |y - x|;
  }

  lemma OneMore(k: nat, x: nat)
    requires k > 0
    ensures (k - 1) * x + x == k * x
  {
  }

  /** A chain of bodies in which every step passed the guard. */
  ghost predicate Chain(bodies: seq<string>, b: Budget) {
    bodies != [] && forall i | 0 <= i < |bodies| - 1 :: MeaningPreserved(bodies[i], bodies[i + 1], b)
  }

  /** After k accepted rewrites, at most k times the budget of the original words is missing and at
      most k times the budget of words is new. */
  lemma {:induction false} ChainStaysInBudget(bodies: seq<string>, b: Budget)
    requires Chain(bodies, b)
    ensures var k := |bodies| - 1;
            && |ContentWords(bodies[0]) - ContentWords(bodies[k])| <= k * b.allowDropped
            && |ContentWords(bodies[k]) - ContentWords(bodies[0])| <= k * b.maxAdded
  {
    hide ContentWords;
    var k := |bodies| - 1;
    var first, last := ContentWords(bodies[0]), ContentWords(bodies[k]);
    if k == 0 {
      assert first - last == multiset{};
    } else {
      ChainStaysInBudget(bodies[..k], b);
      var before := ContentWords(bodies[k - 1]);
      assert bodies[..k][k - 1] == bodies[k - 1];
      assert MeaningPreserved(bodies[k - 1], bodies[k - 1 + 1], b);
      DifferenceTriangle(first, before, last);
      DifferenceTriangle(last, before, first);
      OneMore(k, b.allowDropped);
      OneMore(k, b.maxAdded);
    }
  }

  // ---- rewriting a note's body ----

  function WithFinalNewline(body: string): string {
    if body != "" && body[|body| - 1] == '\n' then body else body + "\n"
  }

  function BodyOf(text: string): string {
    match SplitNote(text) case Plain(body) => body case Unclosed => text case Front(_, body) => body
  }

  /** `_apply_restructure_body` on the note's text; None when it refuses. `yamlOk` says whether the
      frontmatter block loads. */
  function Restructure(text: string, body: string, b: Budget, yamlOk: string -> bool): Option<string> {
    match SplitNote(text)
    case Unclosed => None
    case Front(raw, old_) =>
      if yamlOk(raw) && MeaningPreserved(old_, body, b)
      then Some(WithFinalNewline(text[..|text| - |BodyOf(text)|] + body)) else None
    case Plain(old_) =>
      if MeaningPreserved(old_, body, b) then Some(WithFinalNewline(body)) else None
  }

  lemma FrontShape(text: string)
    requires SplitNote(text).Front?
    ensures var Front(raw, body) := SplitNote(text);
            text == "---\n" + (raw + (Fence() + body)) && Find(text, Fence(), 4) == 4 + |raw|
  {
    var end := Find(text, Fence(), 4);
    assert text[end..end + 5] == Fence();
    assert text[..4] == "---\n";
    hide Fence;
    assert text[end..] == text[end..end + 5] + text[end + 5..];
    assert text[4..] == text[4..end] + text[end..];
    assert text == text[..4] + text[4..];
  }

  lemma RestructuredAs(text: string, body: string, b: Budget, yamlOk: string -> bool)
    requires SplitNote(text).Front? && Restructure(text, body, b, yamlOk).Some? && body != ""
    ensures var Front(raw, old_) := SplitNote(text);
            Restructure(text, body, b, yamlOk).value == "---\n" + (raw + (Fence() + WithFinalNewline(body)))
  {
    hide MeaningPreserved;
    var Front(raw, old_) := SplitNote(text);
    FrontShape(text);
    assert Restructure(text, body, b, yamlOk).value == WithFinalNewline(text[..|text| - |old_|] + body);
    hide Fence, SplitNote, Restructure;
    var prefix := text[..|text| - |old_|];
    PrefixShape(raw, Fence(), old_, WithFinalNewline(body));
    assert prefix + WithFinalNewline(body) == WithFinalNewline(prefix + body);
  }

  lemma SharedStart(raw: string, fence: string, a: string, b: string)
    ensures var u, v := raw + (fence + a), raw + (fence + b);
            |raw| + |fence| <= |u| && |raw| + |fence| <= |v| && u[..|raw| + |fence|] == v[..|raw| + |fence|]
  {
    var u, v := raw + (fence + a), raw + (fence + b);
    assert u[..|raw| + |fence|] == raw + fence;
    assert v[..|raw| + |fence|] == raw + fence;
  }

  lemma FoundBehind(opening: string, u: string, fence: string, n: nat)
    requires Find(opening + u, fence, |opening|) == |opening| + n
    ensures Find(u, fence, 0) == n
  {
    assert (opening + u)[|opening|..] == u;
    FindFrom(opening + u, fence, |opening|);
  }

  lemma FoundAgain(raw: string, fence: string, a: string, b: string)
    requires Find(raw + (fence + a), fence, 0) == |raw|
    ensures Find(raw + (fence + b), fence, 0) == |raw|
  {
    hide *;
    SharedStart(raw, fence, a, b);
    FindInPrefix(raw + (fence + a), raw + (fence + b), fence, |raw| + |fence|);
  }

  lemma FenceAgain(raw: string, old_: string, body: string)
    requires Find("---\n" + (raw + (Fence() + old_)), Fence(), 4) == 4 + |raw|
    ensures Find(raw + (Fence() + body), Fence(), 0) == |raw|
  {
    hide *;
    FoundBehind("---\n", raw + (Fence() + old_), Fence(), |raw|);
    FoundAgain(raw, Fence(), old_, body);
  }

  /** Rewriting the body of a note with closed frontmatter leaves the frontmatter block byte for byte
      as it was, and reading the result back gives exactly that block and the new body. */
  lemma RestructureKeepsFrontmatter(text: string, body: string, b: Budget, yamlOk: string -> bool)
    requires SplitNote(text).Front? && Restructure(text, body, b, yamlOk).Some? && body != ""
    ensures SplitNote(Restructure(text, body, b, yamlOk).value) == Front(SplitNote(text).raw, WithFinalNewline(body))
  {
    var Front(raw, old_) := SplitNote(text);
    FrontShape(text);
    RestructuredAs(text, body, b, yamlOk);
    hide *;
    var body' := WithFinalNewline(body);
    FenceAgain(raw, old_, body');
    SplitAtFence(raw, body');
  }

  lemma PrefixShape(raw: string, fence: string, old_: string, new_: string)
    ensures var text := "---\n" + (raw + (fence + old_));
            text[..|text| - |old_|] + new_ == "---\n" + (raw + (fence + new_))
  {
    var text := "---\n" + (raw + (fence + old_));
    assert text[..|text| - |old_|] == "---\n" + (raw + fence);
  }

  lemma FindFrom(s: string, needle: string, k: nat)
    requires k <= |s| && Find(s, needle, k) != -1
    ensures Find(s[k..], needle, 0) == Find(s, needle, k) - k
  {
    var x := Find(s, needle, k);
    assert s == s[..k] + s[k..];
    FindFirst(s, needle, k);
    OccursShift(s[..k], s[k..], needle, x - k);
    forall i | 0 <= i < x - k ensures !OccursAt(s[k..], needle, i) { OccursShift(s[..k], s[k..], needle, i); }
    FindIs(s[k..], needle, 0, x - k);
  }

  /** A chain of notes in which every step is a rewrite that was applied. */
  ghost predicate RewriteChain(texts: seq<string>, bodies: seq<string>, b: Budget, yamlOk: string -> bool) {
    && texts != [] && |bodies| == |texts| - 1
    && forall i | 0 <= i < |bodies| :: Restructure(texts[i], bodies[i], b, yamlOk) == Some(texts[i + 1])
  }

  /** A note without frontmatter is read back as the new body exactly when that body does not itself
      open like a frontmatter block. */
  lemma RestructurePlainIff(text: string, body: string, b: Budget, yamlOk: string -> bool)
    requires SplitNote(text).Plain? && Restructure(text, body, b, yamlOk).Some?
    ensures var r := Restructure(text, body, b, yamlOk).value;
            SplitNote(r) == Plain(WithFinalNewline(body)) <==> !("---\n" <= WithFinalNewline(body))
  {
    hide MeaningPreserved;
  }

  // ---- the newline that is added at the end ----

  /** The whole of `s` is white space, a number, and a dot or a closing parenthesis. */
  predicate BareMarker(s: string) {
    var a := SpaceRun(s);
    var d := DigitRun(s[a..]);
    d > 0 && a + d + 1 == |s| && (s[a + d] == '.' || s[a + d] == ')')
  }

  /** Looking for list markers from left to right ends, at the start of a line, on a number that is
      marked like one but has no white space after it. */
  predicate EndsOnBareMarker(s: string, atLineStart: bool)
    decreases |s|
  {
    if s == "" then false
    else if atLineStart && BareMarker(s) then true
    else
      var n := if atLineStart then MarkerLength(s) else 0;
      if n > 0 then EndsOnBareMarker(s[n..], s[n - 1] == '\n') else EndsOnBareMarker(s[1..], s[0] == '\n')
  }

  lemma {:induction false} SpaceRunMore(s: string)
    ensures SpaceRun(s + "\n") == if SpaceRun(s) == |s| then |s| + 1 else SpaceRun(s)
  {
    assert IsSpace('\n');
    hide IsSpace;
    if s == "" {
      assert s + "\n" == "\n" && "\n"[1..] == "";
    } else {
      assert (s + "\n")[1..] == s[1..] + "\n";
      SpaceRunMore(s[1..]);
    }
  }

  lemma {:induction false} DigitRunMore(s: string)
    ensures DigitRun(s + "\n") == DigitRun(s)
  {
    if s == "" {
      assert s + "\n" == "\n";
    } else {
      assert (s + "\n")[1..] == s[1..] + "\n";
      DigitRunMore(s[1..]);
    }
  }

  lemma BareMore(s: string)
    requires SpaceRun(s) < |s|
    ensures var t := s + "\n"; SpaceRun(t) == SpaceRun(s) && DigitRun(t[SpaceRun(s)..]) == DigitRun(s[SpaceRun(s)..])
  {
    hide *;
    SpaceRunMore(s);
    var a := SpaceRun(s);
    DigitRunMore(s[a..]);
    assert (s + "\n")[a..] == s[a..] + "\n";
  }

  lemma NoDigits()
    ensures DigitRun("") == 0 && SpaceRun("") == 0 && SpaceRun("\n") == 1
  {
    assert IsSpace('\n') && "\n"[1..] == "";
  }

  /** What the newline does to a marker at the front. */
  lemma MarkerMore(s: string)
    ensures BareMarker(s) ==> MarkerLength(s) == 0 && MarkerLength(s + "\n") == |s| + 1
    ensures !BareMarker(s) ==>
              MarkerLength(s + "\n") == if MarkerLength(s) > 0 && MarkerLength(s) == |s| then |s| + 1 else MarkerLength(s)
  {
    var t := s + "\n";
    var a := SpaceRun(s);
    NoDigits();
    hide SpaceRun, DigitRun;
    if a == |s| {
      SpaceRunMore(s);
      assert s[a..] == "" && t[|s| + 1..] == "";
    } else {
      BareMore(s);
      var d := DigitRun(s[a..]);
      if a + d < |s| {
        assert t[a + d + 1..] == s[a + d + 1..] + "\n";
        SpaceRunMore(s[a + d + 1..]);
        assert a + d + 1 == |s| ==> s[a + d + 1..] == "";
      }
    }
  }

  function Leap(s: string, at: bool): (n: nat)
    ensures n <= |s|
  {
    if at then MarkerLength(s) else 0
  }

  lemma DropStep(s: string, at: bool)
    requires s != ""
    ensures DropMarkers(s, at) == if Leap(s, at) > 0 then DropMarkers(s[Leap(s, at)..], s[Leap(s, at) - 1] == '\n')
                                  else [s[0]] + DropMarkers(s[1..], s[0] == '\n')
    ensures EndsOnBareMarker(s, at)
       <==> ((at && BareMarker(s))
             || if Leap(s, at) > 0 then EndsOnBareMarker(s[Leap(s, at)..], s[Leap(s, at) - 1] == '\n')
                else EndsOnBareMarker(s[1..], s[0] == '\n'))
  {
    hide MarkerLength, BareMarker;
    if at { MarkerMore(s); }
  }

  lemma DropNothing(at: bool)
    ensures DropMarkers("", at) == "" && !EndsOnBareMarker("", at) && MarkerLength("") == 0
  {
  }

  lemma LeapMore(s: string, at: bool)
    ensures !at ==> Leap(s, at) == 0
    ensures at && BareMarker(s) ==> Leap(s, at) == 0 && Leap(s + "\n", at) == |s| + 1
    ensures !(at && BareMarker(s)) ==>
              Leap(s + "\n", at) == if Leap(s, at) > 0 && Leap(s, at) == |s| then |s| + 1 else Leap(s, at)
  {
    hide MarkerLength, BareMarker;
    MarkerMore(s);
  }

  lemma {:induction false} NewlineKept(s: string, at: bool)
    requires !EndsOnBareMarker(s, at)
    ensures DropMarkers(s + "\n", at) == DropMarkers(s, at) + "\n" || DropMarkers(s + "\n", at) == DropMarkers(s, at)
    decreases |s|
  {
    hide *;
    var t := s + "\n";
    var n := Leap(s, at);
    LeapMore(s, at);
    DropStep(t, at);
    DropNothing(at);
    DropNothing(true);
    if s == "" {
      assert t == "\n" && t[1..] == "" && [t[0]] + "" == "\n";
    } else {
      DropStep(s, at);
      if n > 0 && n == |s| {
        assert s[n..] == "" && t[n + 1..] == "";
        DropNothing(s[n - 1] == '\n');
      } else if n > 0 {
        assert t[n..] == s[n..] + "\n";
        NewlineKept(s[n..], s[n - 1] == '\n');
      } else {
        assert t[1..] == s[1..] + "\n";
        NewlineKept(s[1..], s[0] == '\n');
        assert [s[0]] + (DropMarkers(s[1..], s[0] == '\n') + "\n") == [s[0]] + DropMarkers(s[1..], s[0] == '\n') + "\n";
      }
    }
  }

  lemma {:induction false} MarkerLost(s: string, at: bool) returns (x: string, y: string)
    requires EndsOnBareMarker(s, at)
    ensures BareMarker(y) && DropMarkers(s, at) == x + y && DropMarkers(s + "\n", at) == x
    ensures (x == "" && at) || (x != "" && x[|x| - 1] == '\n')
    decreases |s|
  {
    hide *;
    var t := s + "\n";
    var n := Leap(s, at);
    DropNothing(at);
    LeapMore(s, at);
    DropStep(s, at);
    DropStep(t, at);
    if at && BareMarker(s) {
      x, y := "", s;
      BareStays(s, true);
      DropNothing(t[|s|] == '\n');
      assert t[|s| + 1..] == "" && "" + s == s;
    } else if n > 0 {
      DropNothing(s[n - 1] == '\n');
      assert s[n..] == "" || n < |s|;
      assert t[n..] == s[n..] + "\n" && t[n - 1] == s[n - 1];
      x, y := MarkerLost(s[n..], s[n - 1] == '\n');
    } else {
      assert t[1..] == s[1..] + "\n";
      var x', y' := MarkerLost(s[1..], s[0] == '\n');
      x, y := [s[0]] + x', y';
      assert [s[0]] + (x' + y') == x + y && t[0] == s[0];
      assert DropMarkers(t, at) == [t[0]] + DropMarkers(t[1..], t[0] == '\n');
    }
  }

  lemma BareTail(y: string)
    requires BareMarker(y)
    ensures |y| >= 2 && (BareMarker(y[1..]) || (|y| == 2 && IsDigit(y[0]) && !IsWordChar(y[1]) && !IsDigit(y[1])))
  {
    var a := SpaceRun(y);
    if a > 0 {
      assert y[1..][a - 1..] == y[a..];
    } else {
      assert y[0..] == y && !IsSpace(y[0]) && IsDigit(y[0]);
      if |y| > 2 {
        assert DigitRun(y) == 1 + DigitRun(y[1..]);
        assert IsDigit(y[1..][0]) && !IsSpace(y[1]);
        assert y[1..][0..] == y[1..];
      }
    }
  }

  lemma LoneMark(y: string, at: bool)
    requires |y| == 1 && !IsDigit(y[0])
    ensures DropMarkers(y, at) == y && MarkerLength(y) == 0
  {
    assert y[1..] == "";
    hide IsSpace;
    assert SpaceRun(y) == 0 ==> y[0..] == y;
    assert SpaceRun(y) == 1 ==> y[1..] == "";
  }

  lemma {:induction false} BareStays(y: string, at: bool)
    requires BareMarker(y)
    ensures DropMarkers(y, at) == y
    decreases |y|
  {
    MarkerMore(y);
    BareTail(y);
    hide MarkerLength;
    if BareMarker(y[1..]) {
      hide BareMarker;
      BareStays(y[1..], y[0] == '\n');
    } else {
      hide BareMarker;
      LoneMark(y[1..], y[0] == '\n');
    }
    assert [y[0]] + y[1..] == y;
  }

  lemma {:induction false} WordRunMore(x: string, y: string)
    requires y == "" || !IsWordChar(y[0])
    ensures WordRun(x + y) == WordRun(x)
  {
    hide IsWordChar;
    if x == "" {
      assert x + y == y;
    } else {
      assert (x + y)[1..] == x[1..] + y;
      WordRunMore(x[1..], y);
    }
  }

  lemma {:induction false} WordRunLess(x: string, y: string)
    requires x != "" && !IsWordChar(x[|x| - 1])
    ensures WordRun(x + y) == WordRun(x) < |x|
  {
    hide IsWordChar;
    assert (x + y)[1..] == x[1..] + y;
    if |x| > 1 { WordRunLess(x[1..], y); }
  }

  /** Words on the two sides of a break are counted apart. */
  lemma {:induction false} WordsApart(x: string, y: string)
    requires x == "" || !IsWordChar(x[|x| - 1])
    ensures Words(x + y) == Words(x) + Words(y)
    decreases |x|
  {
    hide IsWordChar, LowerAscii;
    if x == "" {
      assert x + y == y;
    } else {
      WordRunLess(x, y);
      var n := if WordRun(x) > 0 then WordRun(x) else 1;
      assert (x + y)[n..] == x[n..] + y && (x + y)[..n] == x[..n];
      WordsApart(x[n..], y);
    }
  }

  lemma {:induction false} WordsNewline(x: string)
    ensures Words(x + "\n") == Words(x)
    decreases |x|
  {
    assert !IsWordChar('\n');
    hide IsWordChar, LowerAscii;
    WordRunMore(x, "\n");
    if x == "" {
      assert x + "\n" == "\n" && "\n"[1..] == "";
    } else {
      var n := if WordRun(x) > 0 then WordRun(x) else 1;
      assert (x + "\n")[n..] == x[n..] + "\n" && (x + "\n")[..n] == x[..n];
      WordsNewline(x[n..]);
    }
  }

  lemma {:induction false} BareHasWord(y: string)
    requires BareMarker(y)
    ensures Words(y) != []
    decreases |y|
  {
    BareTail(y);
    hide BareMarker, LowerAscii;
    if WordRun(y) == 0 { BareHasWord(y[1..]); }
  }

  /** The newline added to a body changes its words exactly when the body ends on a bare list marker,
      whose number then stops counting as a word: `7.` for one. Such a body ends in a digit and a mark. */
  lemma AddedNewlineKeepsWordsIff(body: string)
    ensures ContentWords(WithFinalNewline(body)) == ContentWords(body) <==> !EndsOnBareMarker(body, true)
    ensures EndsOnBareMarker(body, true) ==> ContentWords(WithFinalNewline(body)) < ContentWords(body)
  {
    if EndsOnBareMarker(body, true) {
      var x, y := MarkerLost(body, true);
      NotOnNewline(body, true);
      assert !IsWordChar('\n');
      BareHasWord(y);
      hide *;
      WordsApart(x, y);
      LostWord(body, x, y);
    } else if WithFinalNewline(body) != body {
      NewlineKept(body, true);
      hide DropMarkers, EndsOnBareMarker, Words;
      WordsNewline(DropMarkers(body, true));
    }
  }

  /** Such a body. */
  lemma AddedNewlineCanLoseAWord()
    ensures ContentWords(WithFinalNewline("7.")) < ContentWords("7.")
  {
    var s := "7.";
    assert SpaceRun(s) == 0 && s[0..] == s && s[1..][0] == '.';
    assert DigitRun(s) == 1;
    AddedNewlineKeepsWordsIff(s);
  }

  lemma LostWord(body: string, x: string, y: string)
    requires WithFinalNewline(body) == body + "\n" && Words(x + y) == Words(x) + Words(y) && Words(y) != []
    requires DropMarkers(body, true) == x + y && DropMarkers(body + "\n", true) == x
    ensures ContentWords(WithFinalNewline(body)) < ContentWords(body)
  {
    hide WithFinalNewline, DropMarkers, Words;
    assert multiset(Words(x + y)) == multiset(Words(x)) + multiset(Words(y));
    assert Words(y)[0] in multiset(Words(y));
  }

  lemma {:induction false} NotOnNewline(s: string, at: bool)
    requires EndsOnBareMarker(s, at)
    ensures s != "" && s[|s| - 1] != '\n' && WithFinalNewline(s) == s + "\n"
    decreases |s|
  {
    if at && BareMarker(s) {
    } else {
      var n := if at then MarkerLength(s) else 0;
      hide MarkerLength, BareMarker;
      if n > 0 { NotOnNewline(s[n..], s[n - 1] == '\n'); } else { NotOnNewline(s[1..], s[0] == '\n'); }
    }
  }

  /** Along any chain of applied rewrites of a note with closed frontmatter none of whose bodies ends on
      a bare list marker, the frontmatter block never changes and the words stay within k times the
      budget. */
  lemma RewriteChainSafe(texts: seq<string>, bodies: seq<string>, b: Budget, yamlOk: string -> bool)
    requires RewriteChain(texts, bodies, b, yamlOk) && SplitNote(texts[0]).Front?
    requires forall i | 0 <= i < |bodies| :: bodies[i] != "" && !EndsOnBareMarker(bodies[i], true)
    ensures var k := |bodies|; var last := SplitNote(texts[k]);
            && last.Front? && last.raw == SplitNote(texts[0]).raw
            && |ContentWords(BodyOf(texts[0])) - ContentWords(last.body)| <= k * b.allowDropped
            && |ContentWords(last.body) - ContentWords(BodyOf(texts[0]))| <= k * b.maxAdded
  {
    hide ContentWords, SplitNote, EndsOnBareMarker;
    ChainReads(texts, bodies, b, yamlOk, |bodies|);
    var chain := Written(texts[0], bodies);
    forall i | 0 <= i < |chain| - 1 ensures MeaningPreserved(chain[i], chain[i + 1], b) {
      ChainReads(texts, bodies, b, yamlOk, i);
      assert Restructure(texts[i], bodies[i], b, yamlOk) == Some(texts[i + 1]);
      AddedNewlineKeepsWordsIff(bodies[i]);
    }
    ChainStaysInBudget(chain, b);
  }

  /** The bodies as they are in the note, the first one before the rewrites. */
  function Written(text: string, bodies: seq<string>): seq<string> {
    [BodyOf(text)] + seq(|bodies|, i requires 0 <= i < |bodies| => WithFinalNewline(bodies[i]))
  }

  lemma {:induction false} ChainReads(texts: seq<string>, bodies: seq<string>, b: Budget, yamlOk: string -> bool, i: nat)
    requires RewriteChain(texts, bodies, b, yamlOk) && SplitNote(texts[0]).Front? && i <= |bodies|
    requires forall j | 0 <= j < |bodies| :: bodies[j] != ""
    ensures SplitNote(texts[i]) == Front(SplitNote(texts[0]).raw, Written(texts[0], bodies)[i])
  {
    hide ContentWords, SplitNote, Restructure;
    if i > 0 {
      ChainReads(texts, bodies, b, yamlOk, i - 1);
      assert Restructure(texts[i - 1], bodies[i - 1], b, yamlOk) == Some(texts[i - 1 + 1]);
      RestructureKeepsFrontmatter(texts[i - 1], bodies[i - 1], b, yamlOk);
    } else {
      assert SplitNote(texts[0]).body == BodyOf(texts[0]);
    }
  }
}
