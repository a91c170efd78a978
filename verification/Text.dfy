/** String operations shared by the text machines: the parts of Python's `str` they rely on. */
module Text {

  datatype Option<+T> = None | Some(value: T)

  predicate OccursAt(s: string, needle: string, i: int) {
    0 <= i && i + |needle| <= |s| && s[i..i + |needle|] == needle
  }

  predicate Occurs(s: string, needle: string) {
    exists i | 0 <= i <= |s| :: OccursAt(s, needle, i)
  }

  predicate EndsWith(s: string, end: string) {
    |end| <= |s| && s[|s| - |end|..] == end
  }

  /** `s.find(needle, from)`: the least index of an occurrence at or after `from`, or -1. */
  function Find(s: string, needle: string, from: nat): (r: int)
    ensures r == -1 || (from <= r && OccursAt(s, needle, r))
    decreases |s| - from
  {
    if from + |needle| > |s| then -1
    else if OccursAt(s, needle, from) then from
    else Find(s, needle, from + 1)
  }

  /** `Find` gives the first occurrence there is. */
  lemma {:induction false} FindFirst(s: string, needle: string, from: nat)
    ensures var r := Find(s, needle, from); forall i :: from <= i && (r == -1 || i < r) ==> !OccursAt(s, needle, i)
    decreases |s| - from
  {
    if from + |needle| <= |s| && !OccursAt(s, needle, from) { FindFirst(s, needle, from + 1); }
  }

  lemma FindOccurs(s: string, needle: string)
    ensures Find(s, needle, 0) != -1 <==> Occurs(s, needle)
  {
    FindFirst(s, needle, 0);
    hide OccursAt;
    if Find(s, needle, 0) != -1 { assert Find(s, needle, 0) <= |s| by { assert OccursAt(s, needle, Find(s, needle, 0)); } }
  }

  /** The least index of an occurrence determines `Find`. */
  lemma FindIs(s: string, needle: string, from: nat, r: nat)
    requires from <= r && OccursAt(s, needle, r)
    requires forall i :: from <= i < r ==> !OccursAt(s, needle, i)
    ensures Find(s, needle, from) == r
  {
    FindFirst(s, needle, from);
  }

  lemma OccursShift(l: string, u: string, needle: string, i: nat)
    ensures OccursAt(l + u, needle, |l| + i) == OccursAt(u, needle, i)
  {
    if i + |needle| <= |u| {
      assert (l + u)[|l| + i..|l| + i + |needle|] == u[i..i + |needle|];
    }
  }

  /** When no occurrence starts in `l`, searching `l + u` is searching `u`. */
  lemma FindShift(l: string, u: string, needle: string, n: nat)
    requires Find(u, needle, 0) == n
    requires forall i | 0 <= i < |l| :: !OccursAt(l + u, needle, i)
    ensures Find(l + u, needle, 0) == |l| + n
  {
    var t := l + u;
    OccursShift(l, u, needle, n);
    FindFirst(u, needle, 0);
    forall i | 0 <= i < |l| + n ensures !OccursAt(t, needle, i) {
      if i >= |l| { OccursShift(l, u, needle, i - |l|); }
    }
    FindIs(t, needle, 0, |l| + n);
  }

  /** A needle whose first character a text lacks does not start inside it. */
  lemma OccursNotBefore(l: string, u: string, needle: string, i: nat)
    requires needle != "" && needle[0] !in l && i < |l|
    ensures !OccursAt(l + u, needle, i)
  {
    if i + |needle| <= |l + u| {
      assert (l + u)[i..i + |needle|][0] == l[i];
    }
  }

  /** An occurrence that ends inside a common prefix is an occurrence in both texts. */
  lemma OccursInPrefix(s: string, t: string, needle: string, i: int, n: nat)
    requires n <= |s| && n <= |t| && s[..n] == t[..n]
    requires 0 <= i && i + |needle| <= n
    ensures OccursAt(s, needle, i) == OccursAt(t, needle, i)
  {
    assert s[i..i + |needle|] == s[..n][i..i + |needle|];
    assert t[i..i + |needle|] == t[..n][i..i + |needle|];
  }

  /** The length of the longest prefix of `s` that avoids every character of `stops`. */
  function Run(s: string, stops: string): (n: nat)
    ensures n <= |s|
    ensures forall i | 0 <= i < n :: s[i] !in stops
    ensures n < |s| ==> s[n] in stops
  {
    if s == "" || s[0] in stops then 0 else 1 + Run(s[1..], stops)
  }

  lemma RunIs(s: string, stops: string, n: nat)
    requires n <= |s| && (forall i | 0 <= i < n :: s[i] !in stops) && (n < |s| ==> s[n] in stops)
    ensures Run(s, stops) == n
  {
  }

  predicate Avoids(s: string, stops: string) {
    forall i | 0 <= i < |s| :: s[i] !in stops
  }

  /** A marker whose first character occurs nowhere else in it, so it cannot overlap itself. */
  predicate Unbordered(m: string) {
    m != "" && forall j | 0 < j < |m| :: m[j] != m[0]
  }

  /** An unbordered marker after a text without it is first found right there. */
  lemma FirstMarker(r: string, m: string, after: string)
    requires Unbordered(m) && !Occurs(r, m)
    ensures Find(r + (m + after), m, 0) == |r|
  {
    var t := r + (m + after);
    assert t[|r|..|r| + |m|] == m;
    forall i | 0 <= i < |r| ensures !OccursAt(t, m, i) {
      if i + |m| <= |r| {
        assert r[i..i + |m|] == t[i..i + |m|];
        assert !OccursAt(r, m, i);
      } else if i + |m| <= |t| {
        assert t[i..i + |m|][|r| - i] == t[|r|] == m[0];
      }
    }
    FindIs(t, m, 0, |r|);
  }

  lemma OccursSuffix(text: string, needle: string, i: nat)
    requires i <= |text| && Occurs(text[i..], needle)
    ensures Occurs(text, needle)
  {
    var j :| 0 <= j <= |text[i..]| && OccursAt(text[i..], needle, j);
    assert text[i..][j..j + |needle|] == text[i + j..i + j + |needle|];
    assert OccursAt(text, needle, i + j);
  }

  /** `Find` only looks as far as it needs: texts that agree up to the end of the first occurrence
      give the same answer. */
  lemma FindInPrefix(s: string, t: string, needle: string, n: nat)
    requires n <= |s| && n <= |t| && s[..n] == t[..n]
    requires Find(s, needle, 0) != -1 && Find(s, needle, 0) + |needle| <= n
    ensures Find(t, needle, 0) == Find(s, needle, 0)
  {
    var x := Find(s, needle, 0);
    FindFirst(s, needle, 0);
    hide OccursAt;
    OccursInPrefix(s, t, needle, x, n);
    forall k | 0 <= k < x ensures !OccursAt(t, needle, k) {
      OccursInPrefix(s, t, needle, k, n);
    }
    FindIs(t, needle, 0, x);
  }

  // ---- whitespace ----

  /** `str.isspace` of one character. */
  predicate IsSpace(c: char) {
    || '\t' <= c <= '\r' || '\U{1c}' <= c <= ' ' || c == '\U{85}' || c == '\U{a0}' || c == '\U{1680}'
    || '\U{2000}' <= c <= '\U{200a}' || c == '\U{2028}' || c == '\U{2029}' || c == '\U{202f}'
    || c == '\U{205f}' || c == '\U{3000}'
  }

  predicate Trimmed(s: string) {
    s == "" || (!IsSpace(s[0]) && !IsSpace(s[|s| - 1]))
  }

  function TrimLeft(s: string): string {
    if s != "" && IsSpace(s[0]) then TrimLeft(s[1..]) else s
  }

  function TrimRight(s: string): string {
    if s != "" && IsSpace(s[|s| - 1]) then TrimRight(s[..|s| - 1]) else s
  }

  /** `s.strip()`. */
  function Strip(s: string): string {
    TrimRight(TrimLeft(s))
  }

  predicate AllSpace(s: string) {
    forall i | 0 <= i < |s| :: IsSpace(s[i])
  }

  lemma {:induction false} TrimLeftPadded(before: string, s: string)
    requires AllSpace(before) && (s == "" || !IsSpace(s[0]))
    ensures TrimLeft(before + s) == s
  {
    if before == "" {
      assert before + s == s;
    } else {
      assert (before + s)[1..] == before[1..] + s;
      TrimLeftPadded(before[1..], s);
    }
  }

  lemma {:induction false} TrimRightPadded(s: string, after: string)
    requires AllSpace(after) && (s == "" || !IsSpace(s[|s| - 1]))
    ensures TrimRight(s + after) == s
  {
    if after == "" {
      assert s + after == s;
    } else {
      assert (s + after)[..|s + after| - 1] == s + after[..|after| - 1];
      TrimRightPadded(s, after[..|after| - 1]);
    }
  }

  /** Stripping removes exactly the surrounding whitespace. */
  lemma StripPadded(before: string, core: string, after: string)
    requires AllSpace(before) && AllSpace(after) && Trimmed(core)
    ensures Strip(before + core + after) == core
  {
    assert before + core + after == before + (core + after);
    if core == "" {
      assert before + (core + after) == (before + after) + "";
      TrimLeftPadded(before + after, "");
    } else {
      TrimLeftPadded(before, core + after);
      TrimRightPadded(core, after);
    }
  }

  lemma {:induction false} TrimLeftShape(s: string) returns (before: string)
    ensures s == before + TrimLeft(s) && AllSpace(before) && (TrimLeft(s) == "" || !IsSpace(TrimLeft(s)[0]))
  {
    hide IsSpace;
    before := "";
    if s != "" && IsSpace(s[0]) {
      var more := TrimLeftShape(s[1..]);
      before := [s[0]] + more;
    }
  }

  lemma {:induction false} TrimRightShape(s: string) returns (after: string)
    ensures s == TrimRight(s) + after && AllSpace(after)
    ensures TrimRight(s) == "" || !IsSpace(TrimRight(s)[|TrimRight(s)| - 1])
  {
    hide IsSpace;
    after := "";
    if s != "" && IsSpace(s[|s| - 1]) {
      var more := TrimRightShape(s[..|s| - 1]);
      after := more + [s[|s| - 1]];
    }
  }

  /** What stripping takes away. */
  lemma StripShape(s: string) returns (before: string, after: string)
    ensures s == before + Strip(s) + after && AllSpace(before) && AllSpace(after) && Trimmed(Strip(s))
  {
    before := TrimLeftShape(s);
    after := TrimRightShape(TrimLeft(s));
    hide IsSpace, TrimLeft, TrimRight;
    assert before + (Strip(s) + after) == before + Strip(s) + after;
  }

  lemma StripIsTrimmed(s: string)
    ensures Trimmed(Strip(s))
  {
    var _, _ := StripShape(s);
  }

  lemma StripWithin(s: string)
    ensures forall i | 0 <= i < |Strip(s)| :: Strip(s)[i] in s
  {
    var before, after := StripShape(s);
    hide Strip;
    forall i | 0 <= i < |Strip(s)| ensures Strip(s)[i] in s { assert s[|before| + i] == Strip(s)[i]; }
  }

  lemma StripTrimmed(s: string)
    requires Trimmed(s)
    ensures Strip(s) == s
  {
    StripPadded("", s, "");
    assert "" + s + "" == s;
  }

  // ---- letters and numbers ----

  function LowerChar(c: char): char {
    if 'A' <= c <= 'Z' then c - 'A' + 'a' else c
  }

  /** `s.lower()` over ASCII letters. */
  function LowerAscii(s: string): (r: string)
    ensures |r| == |s| && forall i | 0 <= i < |s| :: r[i] == LowerChar(s[i])
  {
    seq(|s|, i requires 0 <= i < |s| => LowerChar(s[i]))
  }

  function Digit(d: nat): (c: char)
    requires d < 10
    ensures '0' <= c <= '9'
  {
    '0' + d as char
  }

  /** `str(n)`. */
  function Decimal(n: nat): (s: string)
    ensures s != "" && forall i | 0 <= i < |s| :: '0' <= s[i] <= '9'
  {
    if n < 10 then [Digit(n)] else Decimal(n / 10) + [Digit(n % 10)]
  }

  lemma {:induction false} DecimalInjective(m: nat, n: nat)
    requires Decimal(m) == Decimal(n)
    ensures m == n
  {
    var s := Decimal(m);
    assert s[|s| - 1] == Digit(m % 10) == Digit(n % 10);
    if m >= 10 && n >= 10 {
      assert s[..|s| - 1] == Decimal(m / 10) == Decimal(n / 10);
      DecimalInjective(m / 10, n / 10);
    }
  }

  /** The number a decimal notation stands for. */
  function ValueOf(s: string): int {
    if s == "" then 0 else 10 * ValueOf(s[..|s| - 1]) + (s[|s| - 1] as int - '0' as int)
  }

  /** `Decimal` writes the number in decimal notation, without leading zeros. */
  lemma {:induction false} DecimalIs(n: nat)
    ensures ValueOf(Decimal(n)) == n && (Decimal(n)[0] == '0' ==> n == 0)
  {
    var s := Decimal(n);
    if n < 10 {
      assert s[..0] == "";
    } else {
      assert s[..|s| - 1] == Decimal(n / 10);
      DecimalIs(n / 10);
    }
  }

  function JoinWith(lines: seq<string>, sep: string): string {
    if lines == [] then "" else if |lines| == 1 then lines[0] else lines[0] + (sep + JoinWith(lines[1..], sep))
  }
}
