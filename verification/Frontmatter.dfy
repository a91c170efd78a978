/** Splitting a note and rendering its frontmatter (`frontmatter.py`). */
module Frontmatter {
  import opened Text

  /** A frontmatter value; scalars are kept as text. */
  datatype Value = Null | Flag(on: bool) | Scalar(text: string) | List(items: seq<string>)

  /** A mapping in insertion order. */
  type Dict = seq<(string, Value)>

  ghost predicate IsDict(d: Dict) {
    forall i, j | 0 <= i < j < |d| :: d[i].0 != d[j].0
  }

  // ---- splitting ----

  datatype Split = Plain(body: string) | Unclosed | Front(raw: string, body: string)

  function Fence(): string { "\n---\n" }

  /** The part of `parse_note` that comes before YAML. */
  function SplitNote(text: string): Split {
    if !("---\n" <= text) then Plain(text)
    else
      var end := Find(text, Fence(), 4);
      if end == -1 then Unclosed else Front(text[4..end], text[end + 5..])
  }

  // ---- rendering ----

  function DropNewlines(s: string): (r: string)
    ensures r == "" || r[0] != '\n'
    ensures |r| <= |s| && s[|s| - |r|..] == r
  {
    if s != "" && s[0] == '\n' then DropNewlines(s[1..]) else s
  }

  predicate Ambiguous(text: string) {
    || LowerAscii(text) in {"true", "false", "null", "none", "yes", "no", "on", "off"}
    || AllDigits(if text != "" && text[0] in "+-" then text[1..] else text)
  }

  predicate AllDigits(s: string) {
    s != "" && forall i | 0 <= i < |s| :: '0' <= s[i] <= '9'
  }

  predicate Special(c: char) {
    c == '[' || c == ']' || c == '{' || c == '}' || c == ':' || c == ',' || c == '#' || c == '\\'
  }

  predicate Leading(c: char) {
    || c == '*' || c == '&' || c == '!' || c == '|' || c == '>' || c == '@' || c == '`' || c == '\''
    || c == '"' || c == '%' || c == '-' || c == '?'
  }

  predicate NeedsQuotes(text: string)
    requires text != ""
  {
    || (exists i | 0 <= i < |text| :: Special(text[i]))
    || Strip(text) != text
    || Leading(text[0])
    || Ambiguous(text)
  }

  function EscapeChar(c: char): string {
    if c == '\\' then "\\\\" else if c == '"' then "\\\"" else [c]
  }

  function Escape(text: string): string {
    if text == "" then "" else EscapeChar(text[0]) + Escape(text[1..])
  }

  function FormatText(text: string): string {
    if text == "" then "" else if NeedsQuotes(text) then "\"" + (Escape(text) + "\"") else text
  }

  /** A word that YAML takes for a truth value or for nothing, in whatever case. */
  ghost predicate Keyword(text: string) {
    exists w | w in {"true", "false", "null", "none", "yes", "no", "on", "off"} ::
      |w| == |text| && forall i | 0 <= i < |w| :: text[i] == w[i] || (text[i] as int) + 32 == w[i] as int
  }

  /** Digits, with a sign or without. */
  ghost predicate Integer(text: string) {
    exists sign: string, digits: string ::
      && text == sign + digits && (sign == "" || sign == "+" || sign == "-")
      && digits != "" && forall i | 0 <= i < |digits| :: '0' <= digits[i] <= '9'
  }

  lemma KeywordIff(text: string)
    ensures LowerAscii(text) in {"true", "false", "null", "none", "yes", "no", "on", "off"} <==> Keyword(text)
  {
    var low := LowerAscii(text);
    if Keyword(text) {
      var w :| w in {"true", "false", "null", "none", "yes", "no", "on", "off"}
        && |w| == |text| && forall i | 0 <= i < |w| :: text[i] == w[i] || (text[i] as int) + 32 == w[i] as int;
      assert forall i | 0 <= i < |w| :: 'a' <= w[i] <= 'z';
      assert low == w;
    }
  }

  lemma IntegerIff(text: string)
    ensures AllDigits(if text != "" && text[0] in "+-" then text[1..] else text) <==> Integer(text)
  {
    if text != "" && text[0] in "+-" {
      assert text == [text[0]] + text[1..] && ([text[0]] == "+" || [text[0]] == "-");
      if Integer(text) {
        var sign: string, digits: string :| text == sign + digits && (sign == "" || sign == "+" || sign == "-")
          && digits != "" && forall i | 0 <= i < |digits| :: '0' <= digits[i] <= '9';
        assert sign != "" ==> digits == text[1..];
        assert (sign + digits)[0] == text[0];
      }
    } else {
      if AllDigits(text) { assert text == "" + text; }
      if Integer(text) {
        var sign: string, digits: string :| text == sign + digits && (sign == "" || sign == "+" || sign == "-")
          && digits != "" && forall i | 0 <= i < |digits| :: '0' <= digits[i] <= '9';
        assert sign == "" ==> text == digits;
      }
    }
  }

  /** A text is printed bare if and only if YAML can only take it for that text: no character of the flow and
      comment syntax, no white space around it, no indicator in front, no keyword and no integer. */
  lemma BareIff(text: string)
    requires text != ""
    ensures FormatText(text) == text <==>
      && (forall i | 0 <= i < |text| :: text[i] !in "[]{}:,#\\")
      && !IsSpace(text[0]) && !IsSpace(text[|text| - 1]) && text[0] !in "*&!|>@`'\"%-?"
      && !Keyword(text) && !Integer(text)
  {
    KeywordIff(text);
    IntegerIff(text);
    StripKeepsIff(text);
    forall i | 0 <= i < |text| ensures Special(text[i]) <==> text[i] in "[]{}:,#\\" { SpecialIs(text[i]); }
    LeadingIs(text[0]);
    hide Strip, IsSpace, Keyword, Integer, LowerAscii, AllDigits, Escape, Special, Leading;
    if NeedsQuotes(text) && FormatText(text) == text {
      EscapeGrows(text);
      assert false;
    }
  }

  lemma SpecialIs(c: char)
    ensures Special(c) <==> c in "[]{}:,#\\"
  {
  }

  lemma LeadingIs(c: char)
    ensures Leading(c) <==> c in "*&!|>@`'\"%-?"
  {
  }

  lemma {:induction false} EscapeGrows(text: string)
    ensures |Escape(text)| >= |text|
  {
    if text != "" { EscapeGrows(text[1..]); }
  }

  lemma StripKeepsIff(text: string)
    requires text != ""
    ensures Strip(text) == text <==> !IsSpace(text[0]) && !IsSpace(text[|text| - 1])
  {
    StripIsTrimmed(text);
    if Trimmed(text) { StripTrimmed(text); }
    hide Strip, IsSpace;
  }

  function FormatItems(items: seq<string>): (r: seq<string>)
    ensures |r| == |items| && forall i | 0 <= i < |items| :: r[i] == FormatText(items[i])
  {
    seq(|items|, i requires 0 <= i < |items| => FormatText(items[i]))
  }

  function FormatValue(v: Value): string {
    match v
    case Null => ""
    case Flag(on) => if on then "true" else "false"
    case Scalar(text) => FormatText(text)
    case List(items) => "[" + (JoinWith(FormatItems(items), ", ") + "]")
  }

  /** Code-point order, as Python compares strings. */
  predicate Leq(a: string, b: string) {
    a == "" || (b != "" && (a[0] < b[0] || (a[0] == b[0] && Leq(a[1..], b[1..]))))
  }

  function Insert(x: string, s: seq<string>): seq<string> {
    if s == [] || Leq(x, s[0]) then [x] + s else [s[0]] + Insert(x, s[1..])
  }

  function Sort(s: seq<string>): seq<string> {
    if s == [] then [] else Insert(s[0], Sort(s[1..]))
  }

  predicate HasKey(d: Dict, key: string) {
    exists i | 0 <= i < |d| :: d[i].0 == key
  }

  function Lookup(d: Dict, key: string): Value {
    if d == [] then Null else if d[0].0 == key then d[0].1 else Lookup(d[1..], key)
  }

  function Present(order: seq<string>, d: Dict): seq<string> {
    if order == [] then []
    else (if HasKey(d, order[0]) then [order[0]] else []) + Present(order[1..], d)
  }

  function Others(d: Dict, order: seq<string>): seq<string> {
    if d == [] then []
    else (if d[0].0 in order then [] else [d[0].0]) + Others(d[1..], order)
  }

  /** `_ordered_keys`. */
  function OrderedKeys(d: Dict, order: seq<string>): seq<string> {
    Present(order, d) + Sort(Others(d, order))
  }

  function Line(d: Dict, key: string): string {
    key + (": " + FormatValue(Lookup(d, key)))
  }

  function Lines(d: Dict, keys: seq<string>): (r: seq<string>)
    ensures |r| == |keys| && forall i | 0 <= i < |keys| :: r[i] == Line(d, keys[i])
  {
    seq(|keys|, i requires 0 <= i < |keys| => Line(d, keys[i]))
  }

  /** `"\n".join(["---", *lines, "---", ""]) + body.lstrip("\n")`. */
  function RenderNote(d: Dict, body: string, order: seq<string>): string {
    var lines := Lines(d, OrderedKeys(d, order));
    if lines == [] then "---\n---\n" + DropNewlines(body)
    else "---\n" + (JoinWith(lines, "\n") + (Fence() + DropNewlines(body)))
  }

  /** `render_note` as the loops write it. */
  method RenderLines(d: Dict, order: seq<string>) returns (lines: seq<string>)
    ensures lines == ["---"] + Lines(d, OrderedKeys(d, order)) + ["---", ""]
  {
    var keys := OrderedKeys(d, order);
    lines := ["---"];
    for i := 0 to |keys|
      invariant lines == ["---"] + Lines(d, keys)[..i]
    {
      lines := lines + [Line(d, keys[i])];
    }
    assert Lines(d, keys)[..|keys|] == Lines(d, keys);
    lines := lines + ["---", ""];
  }

  // ---- the first close is the printed one ----

  predicate PrintedLine(line: string) {
    line != "---" && '\n' !in line
  }

  lemma NoFenceUpTo(l: string, u: string, i: nat)
    requires '\n' !in l && !OccursAt(l + ("\n" + u), Fence(), |l|) && i <= |l|
    ensures !OccursAt(l + ("\n" + u), Fence(), i)
  {
    assert Fence() != "" && Fence()[0] == '\n';
    hide Fence, OccursAt;
    if i < |l| { OccursNotBefore(l, "\n" + u, Fence(), i); }
  }

  lemma FenceStep(l: string, u: string, n: nat)
    requires '\n' !in l && !OccursAt(l + ("\n" + u), Fence(), |l|) && Find(u, Fence(), 0) == n
    ensures Find(l + ("\n" + u), Fence(), 0) == |l| + 1 + n
  {
    hide Fence, OccursAt;
    forall i: nat | i <= |l| ensures !OccursAt(l + ("\n" + u), Fence(), i) {
      NoFenceUpTo(l, u, i);
    }
    var p := l + "\n";
    assert l + ("\n" + u) == p + u;
    FindShift(p, u, Fence(), n);
  }

  /** Between lines that are not `---`, no closing fence appears before the one printed after them. */
  lemma {:induction false} FirstFence(lines: seq<string>, rest: string)
    requires lines != [] && forall i | 0 <= i < |lines| :: PrintedLine(lines[i])
    ensures Find(JoinWith(lines, "\n") + (Fence() + rest), Fence(), 0) == |JoinWith(lines, "\n")|
  {
    var l := lines[0];
    if |lines| == 1 {
      OnlyFence(l, rest);
    } else {
      hide Fence;
      var u := JoinWith(lines[1..], "\n") + (Fence() + rest);
      FirstFence(lines[1..], rest);
      assert JoinWith(lines, "\n") + (Fence() + rest) == l + ("\n" + u);
      NextLineNoFence(l, lines[1], u) by { NextLineStarts(lines[1..], rest); }
      FenceStep(l, u, |JoinWith(lines[1..], "\n")|);
    }
  }

  lemma OnlyFence(l: string, rest: string)
    requires '\n' !in l
    ensures Find(l + (Fence() + rest), Fence(), 0) == |l|
  {
    assert Fence()[0] == '\n' && Fence() <= Fence() + rest;
    hide Fence;
    var t := l + (Fence() + rest);
    OccursShift(l, Fence() + rest, Fence(), 0);
    forall i | 0 <= i < |l| ensures !OccursAt(t, Fence(), i) {
      OccursNotBefore(l, Fence() + rest, Fence(), i);
    }
    FindIs(t, Fence(), 0, |l|);
  }

  lemma NextLineStarts(lines: seq<string>, rest: string)
    requires lines != []
    ensures lines[0] + "\n" <= JoinWith(lines, "\n") + (Fence() + rest)
  {
    if |lines| > 1 {
      assert JoinWith(lines, "\n") == (lines[0] + "\n") + JoinWith(lines[1..], "\n");
    }
  }

  lemma NextLineNoFence(l: string, m: string, u: string)
    requires PrintedLine(m) && m + "\n" <= u
    ensures !OccursAt(l + ("\n" + u), Fence(), |l|)
  {
    OccursShift(l, "\n" + u, Fence(), 0);
    if |u| >= 4 {
      var w := ("\n" + u)[..5];
      assert forall k | 0 <= k < 4 :: w[k + 1] == u[k];
      if |m| < 3 {
        assert w[|m| + 1] == '\n';
      } else if |m| == 3 {
        assert m == [m[0], m[1], m[2]];
        var k := if m[0] != '-' then 0 else if m[1] != '-' then 1 else 2;
        assert w[k + 1] == m[k] != '-';
      } else {
        assert w[4] == m[3] != '\n';
      }
    }
  }

  // ---- sorted order ----

  lemma {:induction false} LeqTotal(a: string, b: string)
    ensures Leq(a, b) || Leq(b, a)
    ensures Leq(a, b) && Leq(b, a) ==> a == b
  {
    if a != "" && b != "" && a[0] == b[0] {
      LeqTotal(a[1..], b[1..]);
      assert a == [a[0]] + a[1..] && b == [b[0]] + b[1..];
    }
  }

  lemma {:induction false} LeqTransitive(a: string, b: string, c: string)
    requires Leq(a, b) && Leq(b, c)
    ensures Leq(a, c)
  {
    if a != "" && a[0] == b[0] && b[0] == c[0] { LeqTransitive(a[1..], b[1..], c[1..]); }
  }

  ghost predicate Sorted(s: seq<string>) {
    forall i, j | 0 <= i < j < |s| :: Leq(s[i], s[j])
  }

  lemma {:induction false} InsertSorted(x: string, s: seq<string>)
    requires Sorted(s)
    ensures Sorted(Insert(x, s)) && multiset(Insert(x, s)) == multiset{x} + multiset(s)
  {
    hide Leq;
    if s != [] {
      LeqTotal(x, s[0]);
      assert s == [s[0]] + s[1..];
      if Leq(x, s[0]) {
        forall i | 0 <= i < |s| ensures Leq(x, s[i]) {
          if i > 0 { LeqTransitive(x, s[0], s[i]); }
        }
      } else {
        InsertSorted(x, s[1..]);
        var t := Insert(x, s[1..]);
        forall i | 0 <= i < |t| ensures Leq(s[0], t[i]) {
          assert t[i] in multiset(t);
        }
      }
    }
  }

  /** `sorted` returns the same keys in code-point order. */
  lemma {:induction false} SortSorts(s: seq<string>)
    ensures Sorted(Sort(s)) && multiset(Sort(s)) == multiset(s)
  {
    if s != [] {
      SortSorts(s[1..]);
      InsertSorted(s[0], Sort(s[1..]));
      assert s == [s[0]] + s[1..];
    }
  }

  lemma SortedLeast(a: seq<string>, x: string)
    requires Sorted(a) && x in a
    ensures Leq(a[0], x)
  {
    LeqTotal(x, x);
  }

  lemma SortedTail(a: seq<string>)
    requires Sorted(a) && a != []
    ensures Sorted(a[1..]) && multiset(a[1..]) == multiset(a) - multiset{a[0]}
  {
    hide Leq;
    assert a == [a[0]] + a[1..];
  }

  lemma {:induction false} SortedUnique(a: seq<string>, b: seq<string>)
    requires Sorted(a) && Sorted(b) && multiset(a) == multiset(b)
    ensures a == b
  {
    hide Leq, Sorted;
    assert |a| == |multiset(a)| == |b|;
    if a != [] {
      assert a[0] in b by { assert a[0] in multiset(b); }
      assert b[0] in a by { assert b[0] in multiset(a); }
      SortedLeast(a, b[0]);
      SortedLeast(b, a[0]);
      LeqTotal(a[0], b[0]);
      SortedTail(a);
      SortedTail(b);
      SortedUnique(a[1..], b[1..]);
      assert a == [a[0]] + a[1..] && b == [b[0]] + b[1..];
    }
  }

  // ---- the rendering depends only on the mapping ----

  lemma {:induction false} OthersCount(d: Dict, order: seq<string>, key: string)
    requires IsDict(d)
    ensures multiset(Others(d, order))[key] == if HasKey(d, key) && key !in order then 1 else 0
  {
    if d != [] {
      OthersCount(d[1..], order, key);
      assert HasKey(d, key) <==> d[0].0 == key || HasKey(d[1..], key) by { HasKeySplit(d, key); }
      if HasKey(d[1..], key) {
        var i :| 0 <= i < |d[1..]| && d[1..][i].0 == key;
        assert d[i + 1].0 == key;
      }
    }
  }

  lemma HasKeySplit(d: Dict, key: string)
    requires d != []
    ensures HasKey(d, key) <==> d[0].0 == key || HasKey(d[1..], key)
  {
    if HasKey(d, key) {
      var i :| 0 <= i < |d| && d[i].0 == key;
      if i > 0 { assert d[1..][i - 1].0 == key; }
    }
    if HasKey(d[1..], key) {
      var i :| 0 <= i < |d[1..]| && d[1..][i].0 == key;
      assert d[i + 1].0 == key;
    }
  }

  ghost predicate SameMapping(d: Dict, e: Dict) {
    forall key: string :: HasKey(d, key) == HasKey(e, key) && Lookup(d, key) == Lookup(e, key)
  }

  lemma {:induction false} PresentSame(order: seq<string>, d: Dict, e: Dict)
    requires SameMapping(d, e)
    ensures Present(order, d) == Present(order, e)
  {
    if order != [] { PresentSame(order[1..], d, e); }
  }

  lemma OthersSortSame(d: Dict, e: Dict, order: seq<string>)
    requires IsDict(d) && IsDict(e) && SameMapping(d, e)
    ensures Sort(Others(d, order)) == Sort(Others(e, order))
  {
    hide HasKey, Lookup;
    var a, b := Others(d, order), Others(e, order);
    forall key: string ensures multiset(a)[key] == multiset(b)[key] {
      OthersCount(d, order, key);
      OthersCount(e, order, key);
    }
    hide Others;
    assert multiset(a) == multiset(b);
    SortSorts(a);
    SortSorts(b);
    SortedUnique(Sort(a), Sort(b));
  }

  /** Rendering depends only on the mapping, not on the order its keys were inserted in. */
  lemma RenderIgnoresInsertionOrder(d: Dict, e: Dict, body: string, order: seq<string>)
    requires IsDict(d) && IsDict(e) && SameMapping(d, e)
    ensures RenderNote(d, body, order) == RenderNote(e, body, order)
  {
    hide HasKey, Lookup, FormatValue, Fence, DropNewlines;
    PresentSame(order, d, e);
    OthersSortSame(d, e, order);
    hide Others, Sort, SameMapping, IsDict;
    assert Lines(d, OrderedKeys(d, order)) == Lines(e, OrderedKeys(e, order));
  }

  // ---- print, then split ----

  predicate NoBreaks(v: Value) {
    match v
    case Scalar(text) => '\n' !in text
    case List(items) => forall i | 0 <= i < |items| :: '\n' !in items[i]
    case _ => true
  }

  predicate Printable(d: Dict) {
    forall i | 0 <= i < |d| :: '\n' !in d[i].0 && NoBreaks(d[i].1)
  }

  lemma {:induction false} EscapeNoBreaks(text: string)
    requires '\n' !in text
    ensures '\n' !in Escape(text)
  {
    if text != "" { EscapeNoBreaks(text[1..]); }
  }

  lemma FormatTextNoBreaks(text: string)
    requires '\n' !in text
    ensures '\n' !in FormatText(text)
  {
    EscapeNoBreaks(text);
  }

  lemma {:induction false} JoinNoBreaks(parts: seq<string>, sep: string)
    requires '\n' !in sep && forall i | 0 <= i < |parts| :: '\n' !in parts[i]
    ensures '\n' !in JoinWith(parts, sep)
  {
    if |parts| > 1 { JoinNoBreaks(parts[1..], sep); }
  }

  lemma FormatValueNoBreaks(v: Value)
    requires NoBreaks(v)
    ensures '\n' !in FormatValue(v)
  {
    match v
    case Scalar(text) => FormatTextNoBreaks(text);
    case List(items) =>
      forall i | 0 <= i < |items| ensures '\n' !in FormatItems(items)[i] { FormatTextNoBreaks(items[i]); }
      JoinNoBreaks(FormatItems(items), ", ");
    case _ =>
  }

  lemma {:induction false} LookupIn(d: Dict, key: string) returns (i: nat)
    requires HasKey(d, key)
    ensures i < |d| && d[i] == (key, Lookup(d, key))
  {
    if d[0].0 == key {
      i := 0;
    } else {
      HasKeySplit(d, key);
      i := LookupIn(d[1..], key);
      i := i + 1;
    }
  }

  lemma {:induction false} PresentKeys(order: seq<string>, d: Dict)
    ensures forall i | 0 <= i < |Present(order, d)| :: HasKey(d, Present(order, d)[i])
    ensures forall i | 0 <= i < |order| && HasKey(d, order[i]) :: order[i] in Present(order, d)
  {
    hide HasKey;
    if order != [] {
      PresentKeys(order[1..], d);
      assert forall i | 0 < i < |order| :: order[i] == order[1..][i - 1];
    }
  }

  lemma {:induction false} OthersKeys(d: Dict, order: seq<string>)
    ensures forall i | 0 <= i < |Others(d, order)| :: HasKey(d, Others(d, order)[i])
    ensures forall i | 0 <= i < |d| && d[i].0 !in order :: d[i].0 in Others(d, order)
  {
    if d != [] {
      OthersKeys(d[1..], order);
      forall i | 0 <= i < |Others(d, order)| ensures HasKey(d, Others(d, order)[i]) {
        HasKeySplit(d, Others(d, order)[i]);
      }
      assert forall i | 0 < i < |d| :: d[i] == d[1..][i - 1];
    }
  }

  /** The printed keys are exactly the keys of the mapping. */
  lemma OrderedKeysComplete(d: Dict, order: seq<string>)
    ensures forall i | 0 <= i < |OrderedKeys(d, order)| :: HasKey(d, OrderedKeys(d, order)[i])
    ensures forall i | 0 <= i < |d| :: d[i].0 in OrderedKeys(d, order)
  {
    var keys := OrderedKeys(d, order);
    PresentKeys(order, d);
    OthersKeys(d, order);
    SortSorts(Others(d, order));
    forall i | 0 <= i < |keys| ensures HasKey(d, keys[i]) {
      if i >= |Present(order, d)| {
        assert keys[i] in multiset(Sort(Others(d, order)));
        assert keys[i] in Others(d, order);
      }
    }
    forall i | 0 <= i < |d| ensures d[i].0 in keys {
      assert HasKey(d, d[i].0);
      if d[i].0 !in order {
        assert d[i].0 in multiset(Others(d, order));
        assert d[i].0 in Sort(Others(d, order));
      }
    }
  }

  /** Splitting a rendered note at its first close recovers the printed lines and the body without
      its leading newlines, for any non-empty frontmatter without line breaks. */
  lemma SplitRendered(d: Dict, body: string, order: seq<string>)
    requires d != [] && Printable(d)
    ensures var lines := Lines(d, OrderedKeys(d, order));
            lines != [] && SplitNote(RenderNote(d, body, order)) == Front(JoinWith(lines, "\n"), DropNewlines(body))
  {
    var keys := OrderedKeys(d, order);
    var lines := Lines(d, keys);
    OrderedKeysComplete(d, order);
    assert d[0].0 in keys;
    forall i | 0 <= i < |lines| ensures PrintedLine(lines[i]) {
      var at := LookupIn(d, keys[i]);
      FormatValueNoBreaks(d[at].1);
      assert lines[i][|keys[i]|] == ':';
    }
    var joined := JoinWith(lines, "\n");
    FirstFence(lines, DropNewlines(body));
    SplitAtFence(joined, DropNewlines(body));
  }

  lemma SplitAtFence(joined: string, rest: string)
    requires Find(joined + (Fence() + rest), Fence(), 0) == |joined|
    ensures SplitNote("---\n" + (joined + (Fence() + rest))) == Front(joined, rest)
  {
    var u := joined + (Fence() + rest);
    var text := "---\n" + u;
    assert |Fence()| == 5 && u[|joined|..] == Fence() + rest && u[|joined| + 5..] == rest;
    assert text[..4] == "---\n" && text[4..] == u;
    hide Fence;
    FindFirst(u, Fence(), 0);
    hide OccursAt;
    OccursShift("---\n", u, Fence(), |joined|);
    forall i | 4 <= i < 4 + |joined| ensures !OccursAt(text, Fence(), i) {
      OccursShift("---\n", u, Fence(), i - 4);
    }
    FindIs(text, Fence(), 4, 4 + |joined|);
    assert text[4..4 + |joined|] == joined;
    assert text[4 + |joined| + 5..] == rest;
  }

  /** Rendering again what was split off changes nothing. */
  lemma RenderFixedPoint(d: Dict, body: string, order: seq<string>)
    requires d != [] && Printable(d)
    ensures SplitNote(RenderNote(d, body, order)).Front?
    ensures RenderNote(d, SplitNote(RenderNote(d, body, order)).body, order) == RenderNote(d, body, order)
  {
    SplitRendered(d, body, order);
  }

  /** An empty frontmatter is printed as a block without a close of its own: the note is read back as
      closed exactly when its body happens to contain a closing fence, and then everything before that
      fence is taken for frontmatter. */
  lemma EmptyFrontmatterUnclosedIff(body: string, order: seq<string>)
    ensures SplitNote(RenderNote([], body, order)).Unclosed? <==> !Occurs("\n" + DropNewlines(body), Fence())
  {
    var rest := DropNewlines(body);
    var inner := "\n" + rest;
    EmptyRendered(body, order);
    FenceBehind(rest);
    hide Fence, RenderNote, DropNewlines;
    UnclosedIff("---\n" + rest);
    var text := "---\n" + ("---\n" + rest);
    FindFirst(text, Fence(), 4);
    var r := Find(text, Fence(), 4);
    if r != -1 {
      assert OccursAt(inner, Fence(), r - 7);
      assert r - 7 <= |inner|;
    }
    hide OccursAt;
    if Occurs(inner, Fence()) {
      var i :| 0 <= i <= |inner| && OccursAt(inner, Fence(), i);
      assert OccursAt(text, Fence(), i + 7);
    }
  }

  lemma NothingDropped(body: string)
    requires body != "" && body[0] != '\n'
    ensures DropNewlines(body) == body
  {
  }

  lemma BodyWithFence()
    ensures Occurs("\n" + "x\n---\ny", Fence()) && !Occurs("\n" + "x", Fence())
  {
    var t := "\n" + "x\n---\ny";
    assert t[2..7] == Fence() && |"\n" + "x"| < |Fence()|;
    assert OccursAt(t, Fence(), 2);
  }

  /** Both ways it can go wrong: a body without a fence, and a body whose fence closes the block. */
  lemma EmptyFrontmatterMisread(order: seq<string>)
    ensures SplitNote(RenderNote([], "x", order)).Unclosed?
    ensures !SplitNote(RenderNote([], "x\n---\ny", order)).Unclosed?
  {
    NothingDropped("x");
    NothingDropped("x\n---\ny");
    hide *;
    EmptyFrontmatterUnclosedIff("x", order);
    EmptyFrontmatterUnclosedIff("x\n---\ny", order);
    BodyWithFence();
  }

  lemma UnclosedIff(rest: string)
    ensures SplitNote("---\n" + rest).Unclosed? <==> Find("---\n" + rest, Fence(), 4) == -1
  {
    hide Fence, Find;
  }

  lemma NoKeyInEmpty(key: string)
    ensures !HasKey([], key)
  {
  }

  lemma EmptyRendered(body: string, order: seq<string>)
    ensures RenderNote([], body, order) == "---\n" + ("---\n" + DropNewlines(body))
  {
    OrderedKeysComplete([], order);
    if OrderedKeys([], order) != [] { NoKeyInEmpty(OrderedKeys([], order)[0]); }
    hide OrderedKeys, DropNewlines;
    assert "---\n---\n" == "---\n" + "---\n";
  }

  /** Where the fence can be, past the opening: only from the end of the second line on. */
  lemma FenceBehind(rest: string)
    ensures forall i: int {:trigger OccursAt("\n" + rest, Fence(), i)} | i >= 0 ::
              OccursAt("\n" + rest, Fence(), i) == OccursAt("---\n" + ("---\n" + rest), Fence(), i + 7)
    ensures forall i: int {:trigger OccursAt("---\n" + ("---\n" + rest), Fence(), i)} | 4 <= i < 7 ::
              !OccursAt("---\n" + ("---\n" + rest), Fence(), i)
  {
    var text := "---\n" + ("---\n" + rest);
    assert text == "---\n---" + ("\n" + rest);
    assert text[4] == '-' && text[5] == '-' && text[6] == '-' && Fence()[0] == '\n';
    forall i: int | i >= 0 ensures OccursAt("\n" + rest, Fence(), i) == OccursAt(text, Fence(), i + 7) {
      OccursShift("---\n---", "\n" + rest, Fence(), i);
    }
    forall i: int | 4 <= i < 7 ensures !OccursAt(text, Fence(), i) {
      if i + |Fence()| <= |text| { assert text[i..i + |Fence()|][0] == text[i]; }
    }
  }

  /** What YAML 1.2, section 5.1, calls printable, but for line breaks, tabs and the byte order mark. */
  predicate PrintableChar(c: char) {
    || ' ' <= c <= '~'
    || ('\U{a0}' <= c && c !in {'\U{2028}', '\U{2029}', '\U{feff}', '\U{fffe}', '\U{ffff}'})
  }

  /** The characters on which all versions of YAML agree. */
  predicate FlowText(s: string) {
    forall i | 0 <= i < |s| :: PrintableChar(s[i]) || s[i] in "\t\n\r"
  }

  // ---- reading a printed list back: flow sequences of plain and double-quoted scalars
  //      (sections 7.3.1, 7.3.3 and 7.4.1 of YAML 1.2) ----

  /** The text of a double-quoted scalar, after its opening quote, and what follows the closing one. */
  function ReadQuoted(s: string): Option<(string, string)> {
    if s == "" then None
    else if s[0] == '"' then Some(("", s[1..]))
    else if s[0] == '\\' then
      if |s| >= 2 && (s[1] == '\\' || s[1] == '"') then
        match ReadQuoted(s[2..]) case None => None case Some((t, rest)) => Some(([s[1]] + t, rest))
      else None
    else match ReadQuoted(s[1..]) case None => None case Some((t, rest)) => Some(([s[0]] + t, rest))
  }

  function ReadEntry(s: string): Option<(string, string)> {
    var t := TrimLeft(s);
    if t == "" then None
    else if t[0] == '"' then ReadQuoted(t[1..])
    else if Special(t[0]) || Leading(t[0]) then None
    else var n := Run(t, ",]"); Some((Strip(t[..n]), t[n..]))
  }

  function ReadEntries(s: string): Option<seq<string>>
    decreases |s|
  {
    match ReadEntry(s)
    case None => None
    case Some((entry, rest)) =>
      if rest == "]" then Some([entry])
      else if rest != "" && rest[0] == ',' && |rest| <= |s| then
        match ReadEntries(rest[1..]) case None => None case Some(more) => Some([entry] + more)
      else None
  }

  // Line folding (sections 6.5, 7.3.1 and 7.3.3): a line break and the blanks around it become one blank,
  // and of several breaks all but the first are kept. No escape read here stands for a blank or a break,
  // so folding may come last.

  predicate Breaking(c: char) { c == '\n' || c == '\r' }

  predicate Unbroken(s: string) { '\n' !in s && '\r' !in s }

  function BlankRun(s: string): (n: nat)
    ensures n <= |s|
  {
    if s == "" || !(Breaking(s[0]) || s[0] == ' ' || s[0] == '\t') then 0 else 1 + BlankRun(s[1..])
  }

  function LineBreaks(s: string): nat {
    if s == "" then 0
    else if "\r\n" <= s then 1 + LineBreaks(s[2..])
    else (if Breaking(s[0]) then 1 else 0) + LineBreaks(s[1..])
  }

  function Filler(breaks: nat): string {
    if breaks <= 1 then " " else if breaks == 2 then "\n" else "\n" + Filler(breaks - 1)
  }

  function Fold(s: string): string
    decreases |s|
  {
    if s == "" then ""
    else
      var n := BlankRun(s);
      if n > 0 && LineBreaks(s[..n]) > 0 then Filler(LineBreaks(s[..n])) + Fold(s[n..]) else [s[0]] + Fold(s[1..])
  }

  function FoldAll(items: seq<string>): seq<string> {
    seq(|items|, i requires 0 <= i < |items| => Fold(items[i]))
  }

  function ReadFlow(s: string): Option<seq<string>> {
    if s == "[]" then Some([])
    else if s != "" && s[0] == '[' then
      match ReadEntries(s[1..]) case None => None case Some(items) => Some(FoldAll(items))
    else None
  }

  function BreakCount(s: string): nat {
    if s == "" then 0 else (if Breaking(s[0]) then 1 else 0) + BreakCount(s[1..])
  }

  lemma {:induction false} BreakCountConcat(s: string, t: string)
    ensures BreakCount(s + t) == BreakCount(s) + BreakCount(t)
  {
    if s == "" {
      assert s + t == t;
    } else {
      assert (s + t)[1..] == s[1..] + t;
      BreakCountConcat(s[1..], t);
    }
  }

  lemma {:induction false} NoBreakCount(s: string)
    ensures BreakCount(s) == 0 <==> Unbroken(s)
  {
    if s != "" {
      NoBreakCount(s[1..]);
      assert s == [s[0]] + s[1..];
    }
  }

  lemma {:induction false} LineBreaksAtMost(s: string)
    ensures LineBreaks(s) <= BreakCount(s)
    decreases |s|
  {
    if s != "" {
      if "\r\n" <= s {
        LineBreaksAtMost(s[2..]);
        assert s[1..][1..] == s[2..];
      } else {
        LineBreaksAtMost(s[1..]);
      }
    }
  }

  lemma {:induction false} FillerCount(n: nat)
    ensures BreakCount(Filler(n)) == if n <= 1 then 0 else n - 1
  {
    if n > 2 {
      FillerCount(n - 1);
      assert Filler(n)[1..] == Filler(n - 1);
    } else {
      assert Filler(n)[1..] == "";
    }
  }

  lemma StartsBreaking(s: string)
    requires s != "" && Breaking(s[0])
    ensures BlankRun(s) > 0 && LineBreaks(s[..BlankRun(s)]) > 0
  {
    assert s[..BlankRun(s)][0] == s[0];
  }

  lemma GapLoses(gap: string, rest: string, folded: string)
    requires LineBreaks(gap) > 0 && BreakCount(folded) <= BreakCount(rest)
    ensures BreakCount(Filler(LineBreaks(gap)) + folded) < BreakCount(gap + rest)
  {
    LineBreaksAtMost(gap);
    FillerCount(LineBreaks(gap));
    BreakCountConcat(gap, rest);
    BreakCountConcat(Filler(LineBreaks(gap)), folded);
  }

  /** Folding loses a line break wherever there is one, and changes nothing else. */
  lemma {:induction false} FoldLoses(s: string)
    ensures if BreakCount(s) > 0 then BreakCount(Fold(s)) < BreakCount(s) else Fold(s) == s
    decreases |s|
  {
    if s != "" {
      var n := BlankRun(s);
      if n > 0 && LineBreaks(s[..n]) > 0 {
        FoldLoses(s[n..]);
        assert s == s[..n] + s[n..];
        hide BreakCount, LineBreaks, Filler, BlankRun;
        GapLoses(s[..n], s[n..], Fold(s[n..]));
      } else {
        FoldLoses(s[1..]);
        if Breaking(s[0]) { StartsBreaking(s); }
        hide BlankRun, LineBreaks;
        assert Fold(s)[1..] == Fold(s[1..]) && [s[0]] + s[1..] == s;
      }
    }
  }

  lemma FoldAllSameIff(items: seq<string>)
    ensures FoldAll(items) == items <==> forall i | 0 <= i < |items| :: Unbroken(items[i])
  {
    forall i | 0 <= i < |items| ensures FoldAll(items)[i] == items[i] <==> Unbroken(items[i]) {
      FoldLoses(items[i]);
      NoBreakCount(items[i]);
    }
    hide Fold, Unbroken;
  }

  lemma ReadEscapedChar(c: char, s: string)
    ensures ReadQuoted(EscapeChar(c) + s) ==
      match ReadQuoted(s) case None => None case Some((t, rest)) => Some(([c] + t, rest))
  {
    var u := EscapeChar(c) + s;
    assert u[|EscapeChar(c)|..] == s;
  }

  lemma EscapeThen(text: string, tail: string)
    requires text != ""
    ensures Escape(text) + tail == EscapeChar(text[0]) + (Escape(text[1..]) + tail)
  {
    hide EscapeChar;
  }

  lemma ReadEscapedEnd(rest: string)
    ensures ReadQuoted(Escape("") + ("\"" + rest)) == Some(("", rest))
  {
    assert Escape("") + ("\"" + rest) == "\"" + rest && ("\"" + rest)[1..] == rest;
  }

  lemma {:induction false} ReadEscaped(text: string, rest: string)
    ensures ReadQuoted(Escape(text) + ("\"" + rest)) == Some((text, rest))
  {
    hide *;
    if text == "" {
      ReadEscapedEnd(rest);
    } else {
      var tail := Escape(text[1..]) + ("\"" + rest);
      ReadEscaped(text[1..], rest);
      EscapeThen(text, "\"" + rest);
      ReadEscapedChar(text[0], tail);
      assert text == [text[0]] + text[1..];
    }
  }

  lemma QuoteOpens(inner: string)
    ensures ReadEntry("\"" + inner) == ReadQuoted(inner)
  {
    hide ReadQuoted, Special, Leading, Strip;
    assert TrimLeft("\"" + inner) == "\"" + inner && ("\"" + inner)[1..] == inner;
  }

  lemma QuotedText(text: string, rest: string)
    requires text != "" && NeedsQuotes(text)
    ensures FormatText(text) + rest == "\"" + (Escape(text) + ("\"" + rest))
  {
    hide NeedsQuotes, Escape;
    assert "\"" + (Escape(text) + "\"") + rest == "\"" + (Escape(text) + ("\"" + rest));
  }

  lemma ReadQuotedItem(text: string, rest: string)
    requires text != "" && NeedsQuotes(text)
    ensures ReadEntry(FormatText(text) + rest) == Some((text, rest))
  {
    hide *;
    QuotedText(text, rest);
    QuoteOpens(Escape(text) + ("\"" + rest));
    ReadEscaped(text, rest);
  }

  lemma ReadPlainItem(text: string, rest: string)
    requires text != "" && !NeedsQuotes(text)
    requires rest != "" && (rest[0] == ',' || rest[0] == ']')
    ensures ReadEntry(FormatText(text) + rest) == Some((text, rest))
  {
    var s := text + rest;
    StripIsTrimmed(text);
    assert !Special(text[0]) && !Leading(text[0]) && text[0] != '"';
    assert forall i | 0 <= i < |text| :: s[i] == text[i] && !Special(text[i]);
    assert forall i | 0 <= i < |text| :: s[i] != ',' && s[i] != ']';
    hide Special, Leading, NeedsQuotes, IsSpace;
    assert FormatText(text) == text;
    assert s[|text|] == rest[0];
    RunIs(s, ",]", |text|);
    assert s[..|text|] == text && s[|text|..] == rest;
    assert TrimLeft(s) == s;
  }

  /** A printed item, up to the comma or bracket after it, is read back as the same text. */
  lemma ReadItem(text: string, rest: string)
    requires text != "" && rest != "" && (rest[0] == ',' || rest[0] == ']')
    ensures ReadEntry(FormatText(text) + rest) == Some((text, rest))
    ensures ReadEntry(" " + (FormatText(text) + rest)) == Some((text, rest))
  {
    if NeedsQuotes(text) { ReadQuotedItem(text, rest); } else { ReadPlainItem(text, rest); }
    SpaceSkipped(FormatText(text) + rest);
  }

  lemma SpaceSkipped(s: string)
    ensures ReadEntry(" " + s) == ReadEntry(s)
  {
    assert (" " + s)[1..] == s;
  }

  lemma {:induction false} ReadItems(items: seq<string>)
    requires items != [] && forall i | 0 <= i < |items| :: items[i] != ""
    ensures var s := JoinWith(FormatItems(items), ", ") + "]";
            ReadEntries(s) == Some(items) && ReadEntries(" " + s) == Some(items)
  {
    hide FormatText, ReadEntry;
    var parts := FormatItems(items);
    var s := JoinWith(parts, ", ") + "]";
    if |items| == 1 {
      ReadItem(items[0], "]");
      assert s == FormatText(items[0]) + "]";
      assert items == [items[0]];
    } else {
      ReadItems(items[1..]);
      assert parts[1..] == FormatItems(items[1..]);
      var u := JoinWith(parts[1..], ", ") + "]";
      var rest := "," + (" " + u);
      assert s == FormatText(items[0]) + rest;
      ReadItem(items[0], rest);
      assert rest[1..] == " " + u;
      assert rest[0] == ',' && rest != "]";
      assert items == [items[0]] + items[1..];
    }
  }

  /** A printed list of non-empty strings of printable characters, tabs and line breaks is read back as the
      same strings if and only if none of them holds a line break. */
  lemma ListRoundTripIff(items: seq<string>)
    requires forall i | 0 <= i < |items| :: items[i] != "" && FlowText(items[i])
    ensures ReadFlow(FormatValue(List(items))) == Some(items) <==> forall i | 0 <= i < |items| :: Unbroken(items[i])
  {
    hide ReadEntries, FoldAll, FlowText, Unbroken, FormatItems;
    FoldAllSameIff(items);
    if items != [] {
      ReadItems(items);
      var s := JoinWith(FormatItems(items), ", ") + "]";
      assert ("[" + s)[1..] == s;
      if "[" + s == "[]" {
        assert s == "]";
        EmptyListHasNoEntries();
      }
    }
  }

  lemma EmptyListHasNoEntries()
    ensures ReadEntries("]") == None
  {
  }
}
