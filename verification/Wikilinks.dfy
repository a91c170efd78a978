/** Wikilinks: the scanner behind `WIKILINK_PATTERN.sub` and the target rewriting built on it. */
module Wikilinks {
  import opened Text

  /** One match of the pattern. `heading` and `alias` keep their leading `#` and `|`; "" when absent. */
  datatype Link = Link(bang: bool, target: string, heading: string, alias: string)

  datatype Token = Gap(c: char) | Wiki(link: Link)

  predicate CleanTarget(t: string) {
    t != "" && Avoids(t, "]|#")
  }

  /** The language of the pattern: `!?[[target(#heading)?(|alias)?]]`. */
  predicate WellFormed(l: Link) {
    && CleanTarget(l.target)
    && (l.heading == "" || (|l.heading| >= 2 && l.heading[0] == '#' && Avoids(l.heading, "]|")))
    && (l.alias == "" || (|l.alias| >= 2 && l.alias[0] == '|' && Avoids(l.alias, "]")))
  }

  function Opening(bang: bool): string {
    if bang then "![[" else "[["
  }

  function Render(l: Link): (s: string)
    ensures |s| >= 4
  {
    Opening(l.bang) + (l.target + (l.heading + (l.alias + "]]")))
  }

  // ---- matching at a fixed position, as the regular expression does it ----

  function MatchAlias(s: string): Option<string> {
    if s != "" && s[0] == '|' then
      var n := Run(s[1..], "]");
      if n >= 1 && "]]" <= s[1 + n..] then Some(s[..1 + n]) else None
    else if "]]" <= s then Some("") else None
  }

  function MatchHeading(s: string): Option<(string, string)> {
    if s != "" && s[0] == '#' then
      var n := Run(s[1..], "]|");
      if n == 0 then None
      else match MatchAlias(s[1 + n..])
        case None => None
        case Some(alias) => Some((s[..1 + n], alias))
    else match MatchAlias(s)
      case None => None
      case Some(alias) => Some(("", alias))
  }

  function MatchBody(bang: bool, s: string): Option<Link> {
    var n := Run(s, "]|#");
    if n == 0 then None
    else match MatchHeading(s[n..])
      case None => None
      case Some(pair) => Some(Link(bang, s[..n], pair.0, pair.1))
  }

  function MatchLink(s: string): Option<Link> {
    if "![[" <= s then MatchBody(true, s[3..])
    else if "[[" <= s then MatchBody(false, s[2..])
    else None
  }

  lemma MatchAliasSound(s: string)
    requires MatchAlias(s).Some?
    ensures var a := MatchAlias(s).value;
            && (a == "" || (|a| >= 2 && a[0] == '|' && Avoids(a, "]"))) && a + "]]" <= s
  {
    if s[0] == '|' {
      var n := Run(s[1..], "]");
      assert s[..1 + n][1..] == s[1..][..n];
      assert s == s[..1 + n] + s[1 + n..];
    }
  }

  lemma MatchHeadingSound(s: string)
    requires MatchHeading(s).Some?
    ensures var (h, a) := MatchHeading(s).value;
            && (h == "" || (|h| >= 2 && h[0] == '#' && Avoids(h, "]|")))
            && (a == "" || (|a| >= 2 && a[0] == '|' && Avoids(a, "]")))
            && h + (a + "]]") <= s
  {
    if s != "" && s[0] == '#' {
      var n := Run(s[1..], "]|");
      MatchAliasSound(s[1 + n..]);
      assert s[..1 + n][1..] == s[1..][..n];
      assert s == s[..1 + n] + s[1 + n..];
    } else {
      MatchAliasSound(s);
      assert "" + (MatchAlias(s).value + "]]") == MatchAlias(s).value + "]]";
    }
  }

  lemma MatchBodySound(bang: bool, s: string)
    requires MatchBody(bang, s).Some?
    ensures var l := MatchBody(bang, s).value;
            WellFormed(l) && l.bang == bang && Render(l) <= Opening(bang) + s
  {
    var l := MatchBody(bang, s).value;
    var n := Run(s, "]|#");
    MatchHeadingSound(s[n..]);
    var inner := l.heading + (l.alias + "]]");
    assert s == s[..n] + s[n..];
    assert l.target + inner <= s;
  }

  lemma MatchLinkSound(s: string)
    requires MatchLink(s).Some?
    ensures WellFormed(MatchLink(s).value) && Render(MatchLink(s).value) <= s
  {
    if "![[" <= s {
      MatchBodySound(true, s[3..]);
      assert s == "![[" + s[3..];
    } else {
      MatchBodySound(false, s[2..]);
      assert s == "[[" + s[2..];
    }
  }

  lemma MatchAliasComplete(a: string, rest: string)
    requires a == "" || (|a| >= 2 && a[0] == '|' && Avoids(a, "]"))
    ensures MatchAlias(a + "]]" + rest) == Some(a)
  {
    var s := a + "]]" + rest;
    if a != "" {
      assert s[1..] == a[1..] + "]]" + rest;
      RunIs(s[1..], "]", |a| - 1);
      assert s[..|a|] == a && s[|a|..] == "]]" + rest;
    }
  }

  lemma MatchHeadingComplete(h: string, a: string, rest: string)
    requires h == "" || (|h| >= 2 && h[0] == '#' && Avoids(h, "]|"))
    requires a == "" || (|a| >= 2 && a[0] == '|' && Avoids(a, "]"))
    ensures MatchHeading(h + (a + "]]" + rest)) == Some((h, a))
  {
    var tail := a + "]]" + rest;
    MatchAliasComplete(a, rest);
    var s := h + tail;
    if h != "" {
      assert s[1..] == h[1..] + tail;
      RunIs(s[1..], "]|", |h| - 1);
      assert s[..|h|] == h && s[|h|..] == tail;
    } else {
      assert s == tail;
    }
  }

  lemma MatchBodyComplete(l: Link, rest: string)
    requires WellFormed(l)
    ensures MatchBody(l.bang, l.target + (l.heading + (l.alias + "]]" + rest))) == Some(l)
  {
    var h := l.heading + (l.alias + "]]" + rest);
    var b := l.target + h;
    MatchHeadingComplete(l.heading, l.alias, rest);
    RunIs(b, "]|#", |l.target|);
    assert b[..|l.target|] == l.target && b[|l.target|..] == h;
  }

  lemma Assoc(x: string, y: string, z: string)
    ensures (x + y) + z == x + (y + z)
  {
  }

  lemma RenderThen(l: Link, rest: string)
    ensures Render(l) + rest == Opening(l.bang) + (l.target + (l.heading + (l.alias + "]]" + rest)))
  {
    Assoc(Opening(l.bang), l.target + (l.heading + (l.alias + "]]")), rest);
    Assoc(l.target, l.heading + (l.alias + "]]"), rest);
    Assoc(l.heading, l.alias + "]]", rest);
  }

  /** Every well-formed link at the front of a text is found there, whatever follows it. */
  lemma MatchLinkComplete(l: Link, rest: string)
    requires WellFormed(l)
    ensures MatchLink(Render(l) + rest) == Some(l)
  {
    hide *;
    var b := l.target + (l.heading + (l.alias + "]]" + rest));
    MatchBodyComplete(l, rest);
    RenderThen(l, rest);
    OpeningFirst(l.bang, b);
  }

  lemma OpeningFirst(bang: bool, b: string)
    ensures MatchLink(Opening(bang) + b) == MatchBody(bang, b)
  {
    hide MatchBody;
    if bang {
      assert ("![[" + b)[3..] == b;
    } else {
      assert ("[[" + b)[2..] == b && ("[[" + b)[0] == '[';
    }
  }

  /** The matcher decides the pattern's language: it finds `l` exactly when `l` is well formed and
      the text starts with it. So at most one link starts at any position. */
  lemma MatchLinkIff(s: string, l: Link)
    ensures MatchLink(s) == Some(l) <==> WellFormed(l) && Render(l) <= s
  {
    if MatchLink(s) == Some(l) { MatchLinkSound(s); }
    if WellFormed(l) && Render(l) <= s {
      assert s == Render(l) + s[|Render(l)|..];
      MatchLinkComplete(l, s[|Render(l)|..]);
    }
  }

  // ---- scanning: leftmost, non-overlapping matches, as `finditer` and `sub` walk the text ----

  function Scan(s: string): seq<Token>
    decreases |s|
  {
    if s == "" then []
    else match MatchLink(s)
      case Some(l) =>
        (MatchLinkSound(s); [Wiki(l)] + Scan(s[|Render(l)|..]))
      case None => [Gap(s[0])] + Scan(s[1..])
  }

  function RenderToken(t: Token): string {
    match t case Gap(c) => [c] case Wiki(l) => Render(l)
  }

  function Unscan(ts: seq<Token>): string {
    if ts == [] then "" else RenderToken(ts[0]) + Unscan(ts[1..])
  }

  lemma {:induction false} UnscanScan(s: string)
    ensures Unscan(Scan(s)) == s
    decreases |s|
  {
    if s != "" {
      match MatchLink(s)
      case Some(l) =>
        MatchLinkSound(s);
        UnscanScan(s[|Render(l)|..]);
      case None =>
        UnscanScan(s[1..]);
    }
  }

  /** Token sequences that a scan can produce: links are well formed and no gap starts a match. */
  ghost predicate Canonical(ts: seq<Token>) {
    ts != [] ==>
      && (ts[0].Gap? ==> MatchLink(Unscan(ts)) == None)
      && (ts[0].Wiki? ==> WellFormed(ts[0].link))
      && Canonical(ts[1..])
  }

  lemma {:induction false} ScanCanonical(s: string)
    ensures Canonical(Scan(s))
    decreases |s|
  {
    if s != "" {
      UnscanScan(s);
      match MatchLink(s)
      case Some(l) =>
        MatchLinkSound(s);
        ScanCanonical(s[|Render(l)|..]);
      case None =>
        ScanCanonical(s[1..]);
    }
  }

  lemma {:induction false} ScanUnscan(ts: seq<Token>)
    requires Canonical(ts)
    ensures Scan(Unscan(ts)) == ts
  {
    if ts != [] {
      ScanUnscan(ts[1..]);
      var s := Unscan(ts);
      if ts[0].Wiki? {
        MatchLinkComplete(ts[0].link, Unscan(ts[1..]));
        assert s[|Render(ts[0].link)|..] == Unscan(ts[1..]);
      } else {
        assert s[1..] == Unscan(ts[1..]);
      }
    }
  }

  // ---- why a gap stays a gap when the link after it changes ----

  lemma RunsOnInOpening(g: string, m: Link, l: Link) returns (n: Link)
    requires g != "" && |g| < |Opening(m.bang)| && g <= Opening(m.bang) && WellFormed(l)
    requires Render(l)[0] == Opening(m.bang)[|g|]
    ensures WellFormed(n) && Render(n) == g + Render(l)
  {
    assert !l.bang;
    var inner := l.heading + (l.alias + "]]");
    if g == "!" {
      n := Link(true, l.target, l.heading, l.alias);
      Assoc("!", "[[", l.target + inner);
      assert "!" + "[[" == "![[";
    } else {
      n := Link(m.bang, "[" + l.target, l.heading, l.alias);
      assert CleanTarget(n.target);
      var o := Opening(m.bang);
      hide WellFormed, CleanTarget, Opening;
      assert g + "[[" == o + "[";
      Assoc(g, "[[", l.target + inner);
      Assoc("[", l.target, inner);
      Assoc(o, "[", l.target + inner);
    }
  }

  lemma RunsOnInTarget(g: string, bang: bool, cut: string, l: Link) returns (n: Link)
    requires g == Opening(bang) + cut && Avoids(cut, "]|#") && WellFormed(l)
    ensures WellFormed(n) && Render(n) == g + Render(l)
  {
    n := Link(bang, cut + (Opening(l.bang) + l.target), l.heading, l.alias);
    var inner := l.heading + (l.alias + "]]");
    Assoc(cut, Opening(l.bang) + l.target, inner);
    Assoc(Opening(l.bang), l.target, inner);
    Assoc(Opening(bang), cut, Render(l));
  }

  lemma RunsOnInHeading(g: string, m: Link, cut: string, l: Link) returns (n: Link)
    requires g == Opening(m.bang) + m.target + cut && CleanTarget(m.target) && WellFormed(l)
    requires cut != "" && cut[0] == '#' && Avoids(cut, "]|")
    ensures WellFormed(n) && Render(n) == g + Render(l)
  {
    n := Link(m.bang, m.target, cut + (Opening(l.bang) + (l.target + l.heading)), l.alias);
    var inner := l.alias + "]]";
    Assoc(cut, Opening(l.bang) + (l.target + l.heading), inner);
    Assoc(Opening(l.bang), l.target + l.heading, inner);
    Assoc(l.target, l.heading, inner);
    Assoc(Opening(m.bang), m.target, cut + Render(l));
    Assoc(Opening(m.bang) + m.target, cut, Render(l));
  }

  lemma RunsOnInAlias(g: string, m: Link, cut: string, l: Link) returns (n: Link)
    requires g == Opening(m.bang) + m.target + m.heading + cut && WellFormed(m) && WellFormed(l)
    requires cut != "" && cut[0] == '|' && Avoids(cut, "]")
    ensures WellFormed(n) && Render(n) == g + Render(l)
  {
    n := Link(m.bang, m.target, m.heading, cut + (Opening(l.bang) + (l.target + (l.heading + l.alias))));
    Assoc(cut, Opening(l.bang) + (l.target + (l.heading + l.alias)), "]]");
    Assoc(Opening(l.bang), l.target + (l.heading + l.alias), "]]");
    Assoc(l.target, l.heading + l.alias, "]]");
    Assoc(l.heading, l.alias, "]]");
    Assoc(Opening(m.bang) + m.target, m.heading, cut + Render(l));
    Assoc(Opening(m.bang), m.target, m.heading + (cut + Render(l)));
    Assoc(Opening(m.bang) + m.target + m.heading, cut, Render(l));
  }

  /** If some link starts in the gap `g` and runs on into the link `k`, then the same start also
      runs on into any other link `l` put in its place. */
  lemma StartRunsOn(g: string, k: Link, krest: string, m: Link, l: Link) returns (n: Link)
    requires g != "" && WellFormed(l) && WellFormed(m) && k.bang == l.bang
    requires Render(m) <= g + Render(k) + krest
    requires |g| < |Render(m)|
    ensures WellFormed(n) && Render(n) == g + Render(l)
  {
    var o, r, i := Opening(m.bang), Render(m), |g|;
    assert r[i] == (g + Render(k) + krest)[i] == Render(l)[0];
    assert g == r[..i] by { assert r[..i] == (g + Render(k) + krest)[..i]; }
    assert r[i] == '[' || r[i] == '!';
    if i < |o| {
      assert g == o[..i];
      n := RunsOnInOpening(g, m, l);
    } else if i < |o| + |m.target| {
      assert g == o + m.target[..i - |o|];
      n := RunsOnInTarget(g, m.bang, m.target[..i - |o|], l);
    } else {
      n := RunsOnLater(g, m, l);
    }
  }

  /** The same for a link that starts in the heading or the alias. */
  lemma RunsOnLater(g: string, m: Link, l: Link) returns (n: Link)
    requires WellFormed(l) && WellFormed(m) && |Opening(m.bang)| + |m.target| <= |g| < |Render(m)| && g <= Render(m)
    requires Render(m)[|g|] == '[' || Render(m)[|g|] == '!'
    ensures WellFormed(n) && Render(n) == g + Render(l)
  {
    var o, r, i := Opening(m.bang), Render(m), |g|;
    if i < |o| + |m.target| + |m.heading| {
      var j := i - |o| - |m.target|;
      assert r[i] == m.heading[j];
      assert g == o + m.target + m.heading[..j];
      n := RunsOnInHeading(g, m, m.heading[..j], l);
    } else {
      var j := i - |o| - |m.target| - |m.heading|;
      assert r == o + m.target + m.heading + (m.alias + "]]");
      assert r[i] == (m.alias + "]]")[j];
      assert r[i] == m.alias[j];
      assert g == o + m.target + m.heading + m.alias[..j];
      n := RunsOnInAlias(g, m, m.alias[..j], l);
    }
  }

  /** A start inside a gap that fails before one link also fails before any other link. */
  lemma GapStaysGap(g: string, l: Link, lrest: string, k: Link, krest: string)
    requires g != "" && WellFormed(l) && k.bang == l.bang
    requires MatchLink(g + Render(l) + lrest) == None
    ensures MatchLink(g + Render(k) + krest) == None
  {
    hide MatchLink, Render, WellFormed;
    if MatchLink(g + Render(k) + krest).Some? {
      var m := MatchLink(g + Render(k) + krest).value;
      MatchLinkSound(g + Render(k) + krest);
      var text := g + Render(l) + lrest;
      if |Render(m)| <= |g| {
        assert Render(m) <= g;
        assert Render(m) <= text;
        MatchLinkIff(text, m);
      } else {
        var n := StartRunsOn(g, k, krest, m, l);
        assert Render(n) <= text;
        MatchLinkIff(text, n);
      }
    }
  }

  // ---- rewriting ----

  /** The two replacements a move makes: the full path and the bare name. */
  datatype Retarget = Retarget(oldKey: string, newKey: string, oldStem: string, newStem: string) {
    function Of(t: string): string {
      if t == oldKey then newKey else if t == oldStem then newStem else t
    }
  }

  /** `WIKILINK_PATTERN.sub(replace_link, text)`. */
  function RewriteLinks(s: string, r: Retarget): string
    decreases |s|
  {
    if s == "" then ""
    else match MatchLink(s)
      case Some(l) =>
        (MatchLinkSound(s);
         Render(l.(target := r.Of(l.target))) + RewriteLinks(s[|Render(l)|..], r))
      case None => [s[0]] + RewriteLinks(s[1..], r)
  }

  function RetargetToken(t: Token, r: Retarget): Token {
    match t case Gap(_) => t case Wiki(l) => Wiki(l.(target := r.Of(l.target)))
  }

  function RetargetTokens(ts: seq<Token>, r: Retarget): (us: seq<Token>)
    ensures |us| == |ts|
    ensures forall i | 0 <= i < |ts| :: us[i] == RetargetToken(ts[i], r)
  {
    if ts == [] then [] else [RetargetToken(ts[0], r)] + RetargetTokens(ts[1..], r)
  }

  lemma {:induction false} RewriteIsRetarget(s: string, r: Retarget)
    ensures RewriteLinks(s, r) == Unscan(RetargetTokens(Scan(s), r))
    decreases |s|
  {
    if s != "" {
      match MatchLink(s)
      case Some(l) =>
        MatchLinkSound(s);
        RewriteIsRetarget(s[|Render(l)|..], r);
      case None =>
        RewriteIsRetarget(s[1..], r);
    }
  }

  /** Every link target of the text, once replaced, is still a legal target. */
  predicate StaysClean(s: string, r: Retarget) {
    forall i | 0 <= i < |Scan(s)| && Scan(s)[i].Wiki? :: CleanTarget(r.Of(Scan(s)[i].link.target))
  }

  function FirstLink(ts: seq<Token>): (j: nat)
    ensures j <= |ts|
    ensures forall i | 0 <= i < j :: ts[i].Gap?
    ensures j < |ts| ==> ts[j].Wiki?
  {
    if ts == [] || ts[0].Wiki? then 0 else 1 + FirstLink(ts[1..])
  }

  lemma {:induction false} UnscanSplit(ts: seq<Token>, j: nat)
    requires j <= |ts|
    ensures Unscan(ts) == Unscan(ts[..j]) + Unscan(ts[j..])
  {
    if j == 0 {
      assert ts[..0] == [] && ts[0..] == ts;
    } else {
      hide Render;
      UnscanSplit(ts[1..], j - 1);
      assert ts[1..][..j - 1] == ts[..j][1..] && ts[..j][0] == ts[0];
      assert ts[1..][j - 1..] == ts[j..];
      Assoc(RenderToken(ts[0]), Unscan(ts[..j][1..]), Unscan(ts[j..]));
    }
  }

  lemma GapHeadStays(ts: seq<Token>, r: Retarget)
    requires ts != [] && ts[0].Gap? && Canonical(ts)
    requires forall i | 0 <= i < |ts| && ts[i].Wiki? :: WellFormed(ts[i].link)
    ensures MatchLink(Unscan(RetargetTokens(ts, r))) == None
  {
    hide MatchLink, Render, WellFormed;
    var us := RetargetTokens(ts, r);
    var j := FirstLink(ts);
    UnscanSplit(ts, j);
    UnscanSplit(us, j);
    assert us[..j] == ts[..j];
    var g := Unscan(ts[..j]);
    assert ts[..j][0] == ts[0];
    assert g != "";
    if j < |ts| {
      var l, k := ts[j].link, us[j].link;
      var lrest, krest := Unscan(ts[j..][1..]), Unscan(us[j..][1..]);
      assert Unscan(ts) == g + Render(l) + lrest;
      assert Unscan(us) == g + Render(k) + krest;
      GapStaysGap(g, l, lrest, k, krest);
    } else {
      assert us == ts[..j] == ts;
    }
  }

  lemma {:induction false} CanonicalLinks(ts: seq<Token>, i: nat)
    requires Canonical(ts) && i < |ts| && ts[i].Wiki?
    ensures WellFormed(ts[i].link)
  {
    if i > 0 { CanonicalLinks(ts[1..], i - 1); }
  }

  lemma {:induction false} RetargetCanonical(ts: seq<Token>, r: Retarget)
    requires Canonical(ts)
    requires forall i | 0 <= i < |ts| && ts[i].Wiki? :: CleanTarget(r.Of(ts[i].link.target))
    ensures Canonical(RetargetTokens(ts, r))
  {
    if ts != [] {
      RetargetCanonical(ts[1..], r);
      assert RetargetTokens(ts, r)[1..] == RetargetTokens(ts[1..], r);
      if ts[0].Gap? {
        forall i | 0 <= i < |ts| && ts[i].Wiki? ensures WellFormed(ts[i].link) { CanonicalLinks(ts, i); }
        GapHeadStays(ts, r);
      }
    }
  }

  /** Rewriting is exactly a map over link targets: rescanning the rewritten text gives the same
      links and gaps with only the targets replaced, if and only if every replaced target is legal. */
  lemma RescanIff(s: string, r: Retarget)
    ensures Scan(RewriteLinks(s, r)) == RetargetTokens(Scan(s), r) <==> StaysClean(s, r)
  {
    var ts, us := Scan(s), RetargetTokens(Scan(s), r);
    RewriteIsRetarget(s, r);
    ScanCanonical(s);
    if StaysClean(s, r) {
      RetargetCanonical(ts, r);
      ScanUnscan(us);
    }
    if Scan(RewriteLinks(s, r)) == us {
      ScanCanonical(RewriteLinks(s, r));
      forall i | 0 <= i < |ts| && ts[i].Wiki? ensures CleanTarget(r.Of(ts[i].link.target)) {
        CanonicalLinks(us, i);
      }
    }
  }

  /** What is left of a token when its target is ignored. */
  function Frame(t: Token): Token {
    match t case Gap(_) => t case Wiki(l) => Wiki(l.(target := ""))
  }

  function Frames(ts: seq<Token>): (fs: seq<Token>)
    ensures |fs| == |ts| && forall i | 0 <= i < |ts| :: fs[i] == Frame(ts[i])
  {
    seq(|ts|, i requires 0 <= i < |ts| => Frame(ts[i]))
  }

  /** A text in which no link names the moved note is left byte for byte unchanged. */
  lemma RewriteLeavesOthers(s: string, r: Retarget)
    requires forall i | 0 <= i < |Scan(s)| && Scan(s)[i].Wiki? ::
               Scan(s)[i].link.target != r.oldKey && Scan(s)[i].link.target != r.oldStem
    ensures RewriteLinks(s, r) == s
  {
    RewriteIsRetarget(s, r);
    assert RetargetTokens(Scan(s), r) == Scan(s);
    UnscanScan(s);
  }

  // ---- the search behind `_has_ambiguous_simple_links` ----

  /** `!?\[\[stem(?:#|\||\]\])` occurs somewhere in the text. */
  predicate HasSimpleLink(s: string, stem: string) {
    Occurs(s, "[[" + stem + "#") || Occurs(s, "[[" + stem + "|") || Occurs(s, "[[" + stem + "]]")
  }

  lemma OccursAfter(x: string, needle: string, y: string)
    requires needle <= y
    ensures Occurs(x + y, needle)
  {
    assert (x + y)[|x|..|x| + |needle|] == y[..|needle|];
    assert OccursAt(x + y, needle, |x|);
  }

  /** Past its target a link continues with `#`, `|` or `]]`. */
  lemma TargetEnd(l: Link) returns (end: string)
    requires WellFormed(l)
    ensures end in {"#", "|", "]]"} && end <= l.heading + (l.alias + "]]")
  {
    end := if l.heading != "" then "#" else if l.alias != "" then "|" else "]]";
  }

  lemma RenderHasSimpleLink(x: string, l: Link, y: string)
    requires WellFormed(l)
    ensures HasSimpleLink(x + (Render(l) + y), l.target)
  {
    var end := TargetEnd(l);
    var inner := l.heading + (l.alias + "]]");
    var bare := "[[" + (l.target + inner);
    assert "[[" + l.target + end <= bare by {
      assert "[[" + (l.target + inner) == ("[[" + l.target) + inner;
    }
    if l.bang {
      assert Render(l) == "!" + bare;
      assert x + (Render(l) + y) == (x + "!") + (bare + y);
      OccursAfter(x + "!", "[[" + l.target + end, bare + y);
    } else {
      OccursAfter(x, "[[" + l.target + end, bare + y);
    }
  }

  /** The ambiguity search sees every link whose target is the bare stem. */
  lemma SimpleLinkSeen(s: string, i: nat)
    requires i < |Scan(s)| && Scan(s)[i].Wiki?
    ensures HasSimpleLink(s, Scan(s)[i].link.target)
  {
    var ts := Scan(s);
    ScanCanonical(s);
    CanonicalLinks(ts, i);
    UnscanScan(s);
    UnscanSplit(ts, i);
    var rest := ts[i..];
    assert rest[0] == ts[i];
    assert Unscan(rest) == Render(ts[i].link) + Unscan(rest[1..]);
    RenderHasSimpleLink(Unscan(ts[..i]), ts[i].link, Unscan(rest[1..]));
  }

  function Inner(l: Link, rest: string): string {
    l.target + ((l.heading + (l.alias + "]]")) + rest)
  }

  /** A target is followed by one of the characters that end it. */
  lemma TargetRun(l: Link, rest: string)
    requires WellFormed(l)
    ensures Run(Inner(l, rest), "]|#") == |l.target|
  {
    var s := Inner(l, rest);
    var end := TargetEnd(l);
    assert s[|l.target|] == end[0];
    RunIs(s, "]|#", |l.target|);
  }

  lemma RenderInner(l: Link, rest: string)
    ensures Render(l) + rest == Opening(l.bang) + Inner(l, rest)
  {
    Assoc(l.target, l.heading + (l.alias + "]]"), rest);
    Assoc(Opening(l.bang), l.target + (l.heading + (l.alias + "]]")), rest);
  }

  lemma SameTarget(l: Link, rest: string, stem: string, end: string)
    requires WellFormed(l) && Avoids(stem, "]|#") && end in {"#", "|", "]]"} && stem + end <= Inner(l, rest)
    ensures l.target == stem
  {
    var s := Inner(l, rest);
    TargetRun(l, rest);
    hide WellFormed;
    assert s[..|stem + end|] == stem + end;
    assert s[..|stem|] == stem && s[|stem|] == end[0];
    RunIs(s, "]|#", |stem|);
    assert s[..|l.target|] == l.target;
  }

  /** The `[[` of some link of the tokens stands at position `p` of their text. */
  predicate OpensAt(ts: seq<Token>, p: int) {
    && ts != [] && p >= 0
    && ((ts[0].Wiki? && p + 2 == |Opening(ts[0].link.bang)|) || OpensAt(ts[1..], p - |RenderToken(ts[0])|))
  }

  /** Whatever the search finds at the opening of a link names the target of that link. */
  lemma {:induction false} FoundAtOpening(ts: seq<Token>, stem: string, end: string, p: int)
    requires Canonical(ts) && OpensAt(ts, p) && Avoids(stem, "]|#") && end in {"#", "|", "]]"}
    requires OccursAt(Unscan(ts), "[[" + (stem + end), p)
    ensures exists i | 0 <= i < |ts| && ts[i].Wiki? :: ts[i].link.target == stem
  {
    hide Render, Avoids, MatchLink, WellFormed;
    var needle, first, rest := "[[" + (stem + end), RenderToken(ts[0]), Unscan(ts[1..]);
    assert Unscan(ts) == first + rest;
    if ts[0].Wiki? && p + 2 == |Opening(ts[0].link.bang)| {
      TargetAtOpening(ts[0].link, rest, stem, end);
    } else {
      OccursShift(first, rest, needle, p - |first|);
      FoundAtOpening(ts[1..], stem, end, p - |first|);
      var i :| 0 <= i < |ts[1..]| && ts[1..][i].Wiki? && ts[1..][i].link.target == stem;
      assert ts[i + 1].link.target == stem;
    }
  }

  lemma TargetAtOpening(l: Link, rest: string, stem: string, end: string)
    requires WellFormed(l) && Avoids(stem, "]|#") && end in {"#", "|", "]]"}
    requires OccursAt(Render(l) + rest, "[[" + (stem + end), |Opening(l.bang)| - 2)
    ensures l.target == stem
  {
    var needle, s, o := "[[" + (stem + end), Render(l) + rest, |Opening(l.bang)|;
    RenderInner(l, rest);
    hide WellFormed, Avoids, Render, Inner;
    assert stem + end <= Inner(l, rest) by {
      assert s[o - 2..o - 2 + |needle|] == needle && needle[2..] == stem + end;
      assert s[o..] == Inner(l, rest) && s[o - 2..o - 2 + |needle|][2..] == s[o..][..|stem + end|];
    }
    SameTarget(l, rest, stem, end);
  }

  lemma FoundEnd(s: string, stem: string) returns (end: string)
    requires HasSimpleLink(s, stem)
    ensures end in {"#", "|", "]]"} && Occurs(s, "[[" + (stem + end))
  {
    end := if Occurs(s, "[[" + stem + "#") then "#" else if Occurs(s, "[[" + stem + "|") then "|" else "]]";
    assert "[[" + (stem + end) == "[[" + stem + end;
    hide Occurs;
  }

  /** Some link of the text has this target. */
  predicate HasLinkTo(s: string, target: string) {
    exists i | 0 <= i < |Scan(s)| && Scan(s)[i].Wiki? :: Scan(s)[i].link.target == target
  }

  /** The search would find the stem at a place where no link begins. */
  predicate Stray(s: string, stem: string) {
    exists p | 0 <= p <= |s| ::
      && !OpensAt(Scan(s), p)
      && (OccursAt(s, "[[" + stem + "#", p) || OccursAt(s, "[[" + stem + "|", p) || OccursAt(s, "[[" + stem + "]]", p))
  }

  lemma StrayIs(s: string, stem: string, end: string, p: nat)
    requires end in {"#", "|", "]]"} && p <= |s| && OccursAt(s, "[[" + (stem + end), p) && !OpensAt(Scan(s), p)
    ensures Stray(s, stem)
  {
    assert "[[" + (stem + end) == "[[" + stem + end;
    hide Scan, OpensAt, OccursAt;
  }

  lemma StrayFound(s: string, stem: string)
    requires Stray(s, stem)
    ensures HasSimpleLink(s, stem)
  {
    hide Scan, OpensAt, OccursAt;
  }

  /** What the search for a stem, which holds none of `]`, `|` and `#`, finds in any text: a link with that
      target, or a stray opening bracket pair followed by the stem. So it is wrong exactly when no link has
      the target and the text holds such a stray. */
  lemma SimpleLinkIff(s: string, stem: string)
    requires Avoids(stem, "]|#")
    ensures HasSimpleLink(s, stem) <==> HasLinkTo(s, stem) || Stray(s, stem)
  {
    ScanCanonical(s);
    UnscanScan(s);
    hide Scan, Canonical, Avoids, HasSimpleLink, OccursAt, Unscan, OpensAt, Stray;
    if HasSimpleLink(s, stem) {
      var end := FoundEnd(s, stem);
      var p :| 0 <= p <= |s| && OccursAt(s, "[[" + (stem + end), p);
      if OpensAt(Scan(s), p) { FoundAtOpening(Scan(s), stem, end, p); } else { StrayIs(s, stem, end, p); }
    }
    if i :| 0 <= i < |Scan(s)| && Scan(s)[i].Wiki? && Scan(s)[i].link.target == stem { SimpleLinkSeen(s, i); }
    if Stray(s, stem) { StrayFound(s, stem); }
  }

  /** Every `[[` of the text is the opening of a link; single brackets may stand anywhere. */
  predicate PairsOpen(s: string) {
    forall p | 0 <= p <= |s| && OccursAt(s, "[[", p) :: OpensAt(Scan(s), p)
  }

  /** In such a text nothing is stray, for any stem. */
  lemma NoStray(s: string, stem: string)
    requires PairsOpen(s)
    ensures !Stray(s, stem)
  {
    forall p, end | 0 <= p <= |s| && end in {"#", "|", "]]"} && OccursAt(s, "[[" + stem + end, p) ensures OpensAt(Scan(s), p) {
      assert s[p..p + |"[[" + stem + end|][..2] == s[p..p + 2];
      assert OccursAt(s, "[[", p);
    }
    hide Scan, OpensAt;
  }

  lemma {:induction false} AllGaps(s: string)
    requires forall i | 0 <= i < |s| :: MatchLink(s[i..]).None?
    ensures forall i | 0 <= i < |Scan(s)| :: Scan(s)[i].Gap?
  {
    if s != "" {
      assert s[0..] == s;
      forall i | 0 <= i < |s[1..]| ensures MatchLink(s[1..][i..]).None? {
        assert s[1..][i..] == s[i + 1..];
      }
      AllGaps(s[1..]);
      hide MatchLink;
    }
  }

  /** A stray: the search finds a stem that no link names, and a move of that note is refused. */
  lemma SimpleLinkTooMany()
    ensures var s := "[[b#]]"; HasSimpleLink(s, "b") && forall i | 0 <= i < |Scan(s)| :: Scan(s)[i].Gap?
  {
    var s := "[[b#]]";
    assert OccursAt(s, "[[" + "b" + "#", 0);
    forall i | 0 <= i < |s| ensures MatchLink(s[i..]).None? {
      if i == 0 {
        var body := s[2..];
        assert body == "b#]]" && s[0..] == s;
        RunIs(body, "]|#", 1);
        assert body[1..] == "#]]" && body[1..][1..] == "]]";
      }
    }
    AllGaps(s);
  }
}
