/** What the guard on body rewrites counts, and when a rewrite is accepted. */
module RefinementLaws {
  import opened Text
  import opened Frontmatter
  import opened Refinement

  // ---- words ----

  predicate AllWord(s: string) {
    forall i | 0 <= i < |s| :: IsWordChar(s[i])
  }

  lemma {:induction false} RunOf(w: string, rest: string)
    requires AllWord(w) && (rest != "" ==> !IsWordChar(rest[0]))
    ensures WordRun(w + rest) == |w|
  {
    hide IsWordChar;
    if w == "" {
      assert w + rest == rest;
    } else {
      assert (w + rest)[1..] == w[1..] + rest;
      RunOf(w[1..], rest);
    }
  }

  /** What the words of a text are: a run of word characters as long as it goes is one, in lower case, and any
      other character is passed over. */
  lemma WordsAre(w: string, rest: string)
    requires AllWord(w) && (rest != "" ==> !IsWordChar(rest[0]))
    ensures Words(w + rest) == (if w == "" then [] else [LowerAscii(w)]) + (if rest == "" then [] else Words(rest[1..]))
  {
    RunOf(w, rest);
    hide IsWordChar, LowerAscii;
    var s := w + rest;
    assert s[|w|..] == rest && s[..|w|] == w;
    if rest != "" { assert rest == "" + rest; RunOf("", rest); }
    assert Words(rest) == if rest == "" then [] else Words(rest[1..]);
    if w == "" { assert s == rest; }
  }

  // ---- list markers ----

  /** White space, digits, a full stop or bracket, and at least one white space. */
  ghost predicate IsMarker(m: string, indent: string, digits: string, point: char, gap: string) {
    && m == indent + (digits + ([point] + gap)) && (point == '.' || point == ')')
    && AllSpace(indent) && AllSpace(gap) && gap != ""
    && digits != "" && forall i | 0 <= i < |digits| :: '0' <= digits[i] <= '9'
  }

  lemma {:induction false} SpaceRunOf(a: string, b: string)
    requires AllSpace(a) && (b != "" ==> !IsSpace(b[0]))
    ensures SpaceRun(a + b) == |a|
  {
    hide IsSpace;
    if a == "" {
      assert a + b == b;
    } else {
      assert (a + b)[1..] == a[1..] + b;
      SpaceRunOf(a[1..], b);
    }
  }

  lemma {:induction false} DigitRunOf(a: string, b: string)
    requires (forall i | 0 <= i < |a| :: '0' <= a[i] <= '9') && (b != "" ==> !('0' <= b[0] <= '9'))
    ensures DigitRun(a + b) == |a|
  {
    if a == "" {
      assert a + b == b;
    } else {
      assert (a + b)[1..] == a[1..] + b;
      DigitRunOf(a[1..], b);
    }
  }

  lemma {:induction false} RunsAre(s: string)
    ensures AllSpace(s[..SpaceRun(s)]) && (SpaceRun(s) < |s| ==> !IsSpace(s[SpaceRun(s)]))
    ensures (forall i | 0 <= i < DigitRun(s) :: '0' <= s[i] <= '9') && (DigitRun(s) < |s| ==> !('0' <= s[DigitRun(s)] <= '9'))
  {
    hide IsSpace;
    if s != "" {
      RunsAre(s[1..]);
      if IsSpace(s[0]) { assert s[..SpaceRun(s)] == [s[0]] + s[1..][..SpaceRun(s[1..])]; }
    }
  }

  lemma MarkerLengthOf(m: string, indent: string, digits: string, point: char, gap: string, rest: string)
    requires IsMarker(m, indent, digits, point, gap) && (rest != "" ==> !IsSpace(rest[0]))
    ensures MarkerLength(m + rest) == |m|
  {
    assert forall c: char | '0' <= c <= '9' :: !IsSpace(c);
    assert !IsSpace('.') && !IsSpace(')');
    hide IsSpace, SpaceRun, DigitRun;
    var s := m + rest;
    var tail := [point] + (gap + rest);
    assert s == indent + (digits + tail);
    SpaceRunOf(indent, digits + tail);
    assert s[|indent|..] == digits + tail;
    DigitRunOf(digits, tail);
    var k := |indent| + |digits|;
    assert s[k] == point && s[k + 1..] == gap + rest;
    SpaceRunOf(gap, rest);
  }

  lemma MarkerFound(s: string) returns (indent: string, digits: string, point: char, gap: string)
    requires MarkerLength(s) > 0
    ensures IsMarker(s[..MarkerLength(s)], indent, digits, point, gap)
    ensures MarkerLength(s) < |s| ==> !IsSpace(s[MarkerLength(s)])
  {
    hide IsSpace, SpaceRun, DigitRun, AllSpace;
    var a := SpaceRun(s);
    var t := s[a..];
    var d := DigitRun(t);
    var rest := t[d + 1..];
    var g := SpaceRun(rest);
    RunsAre(s);
    RunsAre(t);
    RunsAre(rest);
    assert rest == s[a + d + 1..] && t[d] == s[a + d];
    assert MarkerLength(s) == a + d + 1 + g;
    hide MarkerLength;
    indent, digits, point, gap := s[..a], t[..d], s[a + d], rest[..g];
    Pieces(s, a, d, g);
  }

  lemma Pieces(s: string, a: nat, d: nat, g: nat)
    requires a + d + 1 + g <= |s|
    ensures s[..a + d + 1 + g] == s[..a] + (s[a..][..d] + ([s[a + d]] + s[a..][d + 1..][..g]))
    ensures a + d + 1 + g < |s| ==> s[a..][d + 1..][g] == s[a + d + 1 + g]
  {
  }

  /** A text starts with a marker of a length exactly when it has that form, white space taken as far as it goes. */
  lemma MarkerIff(s: string, n: nat)
    requires 0 < n <= |s|
    ensures MarkerLength(s) == n <==>
      && (n < |s| ==> !IsSpace(s[n]))
      && exists indent, digits, point, gap :: IsMarker(s[..n], indent, digits, point, gap)
  {
    hide IsMarker, MarkerLength, IsSpace;
    if MarkerLength(s) == n {
      var indent, digits, point, gap := MarkerFound(s);
      assert IsMarker(s[..n], indent, digits, point, gap);
    }
    if (n < |s| ==> !IsSpace(s[n])) && exists indent, digits, point, gap :: IsMarker(s[..n], indent, digits, point, gap) {
      var indent, digits, point, gap :| IsMarker(s[..n], indent, digits, point, gap);
      MarkerLengthOf(s[..n], indent, digits, point, gap, s[n..]);
      assert s[..n] + s[n..] == s;
    }
  }

  predicate LineStart(s: string, i: nat, start: bool)
    requires i <= |s|
  {
    if i == 0 then start else s[i - 1] == '\n'
  }

  /** Up to the first marker at the start of a line nothing is dropped; that marker is, and the rest goes on as
      a text of its own. */
  lemma {:induction false} DropFirst(s: string, n: nat, start: bool)
    requires n <= |s| && forall i: nat | i < n && LineStart(s, i, start) :: MarkerLength(s[i..]) == 0
    ensures DropMarkers(s, start) == s[..n] + DropMarkers(s[n..], LineStart(s, n, start))
    ensures var m := MarkerLength(s[n..]);
      n < |s| && LineStart(s, n, start) && m > 0 ==>
        DropMarkers(s[n..], LineStart(s, n, start)) == DropMarkers(s[n + m..], s[n + m - 1] == '\n')
    ensures n == |s| ==> DropMarkers(s, start) == s
  {
    hide DropMarkers, MarkerLength;
    if n > 0 {
      DropFirst(s, n - 1, start);
      var t := s[n - 1..];
      assert t[1..] == s[n..] && t[0] == s[n - 1];
      KeptStep(t, LineStart(s, n - 1, start));
      assert s[..n] == s[..n - 1] + [s[n - 1]];
    } else {
      assert s[0..] == s;
    }
    MarkerStep(s[n..], LineStart(s, n, start));
    if n < |s| && MarkerLength(s[n..]) > 0 { assert s[n..][MarkerLength(s[n..])..] == s[n + MarkerLength(s[n..])..]; }
  }

  lemma MarkerStep(s: string, start: bool)
    ensures DropMarkers("", start) == ""
    ensures s != "" && start && MarkerLength(s) > 0 ==> DropMarkers(s, start) == DropMarkers(s[MarkerLength(s)..], s[MarkerLength(s) - 1] == '\n')
  {
    hide MarkerLength;
  }

  lemma KeptStep(s: string, start: bool)
    requires s != "" && (start ==> MarkerLength(s) == 0)
    ensures DropMarkers(s, start) == [s[0]] + DropMarkers(s[1..], s[0] == '\n')
  {
    hide MarkerLength;
  }

  // ---- when a rewrite is accepted ----

  /** How many of the words of one text, counted with repetition, the other lacks. */
  ghost function Lost(old_: string, new_: string): nat {
    |multiset(Words(DropMarkers(old_, true))) - multiset(Words(DropMarkers(new_, true)))|
  }

  /** A rewrite of a body is accepted if and only if the frontmatter can be read, at most the allowed number of
      words is lost, and at most the allowed number is new. */
  lemma AcceptedIff(text: string, body: string, b: Budget, yamlOk: string -> bool)
    ensures Restructure(text, body, b, yamlOk).Some? <==>
      match SplitNote(text)
      case Unclosed => false
      case Front(raw, was) => yamlOk(raw) && Lost(was, body) <= b.allowDropped && Lost(body, was) <= b.maxAdded
      case Plain(was) => Lost(was, body) <= b.allowDropped && Lost(body, was) <= b.maxAdded
  {
    hide Words, DropMarkers, SplitNote;
  }
}
