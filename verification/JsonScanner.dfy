/** The string-aware brace scanner that finds a JSON object in a model's answer (`llm.py`). */
module JsonScanner {
  import opened Text

  // ---- the scanner ----

  /** Where the scanner is: how deep in braces, inside a string or not, just after a backslash or not. */
  datatype State = State(depth: int, inString: bool, escaped: bool)

  const START := State(0, false, false)

  function Step(s: State, c: char): State {
    if s.inString then
      if s.escaped then s.(escaped := false)
      else if c == '\\' then s.(escaped := true)
      else if c == '"' then s.(inString := false)
      else s
    else if c == '"' then s.(inString := true)
    else if c == '{' then s.(depth := s.depth + 1)
    else if c == '}' then s.(depth := s.depth - 1)
    else s
  }

  function Read(s: State, text: string): State
    decreases text
  {
    if text == "" then s else Read(Step(s, text[0]), text[1..])
  }

  /** The first `e` characters of `u` close every brace they open outside strings. */
  predicate Closes(u: string, e: nat) {
    0 < e <= |u| && Read(START, u[..e]).depth == 0
  }

  /** `r` is the shortest closing slice that starts at the first opening brace, if there is one. */
  ghost predicate IsFirstObject(text: string, r: Option<string>) {
    var start := Run(text, "{");
    match r
    case None => forall e: nat :: !Closes(text[start..], e)
    case Some(found) => found <= text[start..] && Closes(text[start..], |found|)
                         && forall e: nat | e < |found| :: !Closes(text[start..], e)
  }

  lemma {:induction false} ReadSnoc(s: State, text: string, c: char)
    ensures Read(s, text + [c]) == Step(Read(s, text), c)
    decreases text
  {
    if text == "" {
      assert text + [c] == [c];
    } else {
      assert (text + [c])[1..] == text[1..] + [c];
      ReadSnoc(Step(s, text[0]), text[1..], c);
    }
  }

  lemma {:induction false} ReadConcat(s: State, a: string, b: string)
    ensures Read(s, a + b) == Read(Read(s, a), b)
    decreases a
  {
    if a == "" {
      assert a + b == b;
    } else {
      assert (a + b)[1..] == a[1..] + b;
      ReadConcat(Step(s, a[0]), a[1..], b);
    }
  }

  /** After `k` characters of `u` the scanner is in state `s`, and nothing has closed yet. */
  ghost predicate Scanning(u: string, k: nat, s: State) {
    && k <= |u| && Read(START, u[..k]) == s && (k > 0 ==> s.depth > 0)
    && forall e: nat | e <= k :: !Closes(u, e)
  }

  lemma ScanStep(u: string, k: nat, s: State)
    requires Scanning(u, k, s) && k < |u| && u[0] == '{'
    ensures var next := Step(s, u[k]);
            && (next.depth == 0 ==> !s.inString && u[k] == '}' && Closes(u, k + 1))
            && (next.depth != 0 ==> Scanning(u, k + 1, next))
  {
    ReadSnoc(START, u[..k], u[k]);
    assert u[..k] + [u[k]] == u[..k + 1];
  }

  /** `_first_balanced_json_object`. */
  method FirstBalancedObject(text: string) returns (r: Option<string>)
    ensures IsFirstObject(text, r)
  {
    var start := Run(text, "{");
    ghost var u := text[start..];
    Unread(text);
    hide Closes, Read, Scanning, IsFirstObject, Run;
    if start == |text| { return None; }
    var depth, inString, escaped := 0, false, false;
    for index := start to |text|
      invariant Scanning(u, index - start, State(depth, inString, escaped))
    {
      ghost var before := State(depth, inString, escaped);
      ScanStep(u, index - start, before);
      var c := text[index];
      if inString {
        if escaped {
          escaped := false;
        } else if c == '\\' {
          escaped := true;
        } else if c == '"' {
          inString := false;
        }
      } else if c == '"' {
        inString := true;
      } else if c == '{' {
        depth := depth + 1;
      } else if c == '}' {
        depth := depth - 1;
        if depth == 0 {
          FoundObject(text, start, index, before);
          return Some(text[start..index + 1]);
        }
      }
    }
    NothingCloses(text, start, State(depth, inString, escaped));
    return None;
  }

  lemma Unread(text: string)
    ensures var start := Run(text, "{");
            && (start < |text| ==> text[start] == '{' && Scanning(text[start..], 0, START))
            && (start == |text| ==> IsFirstObject(text, None))
  {
  }

  lemma NothingCloses(text: string, start: nat, s: State)
    requires start == Run(text, "{") && Scanning(text[start..], |text| - start, s)
    ensures IsFirstObject(text, None)
  {
    hide Read, Run;
  }

  lemma FoundObject(text: string, start: nat, index: nat, s: State)
    requires start == Run(text, "{") <= index < |text| && Closes(text[start..], index - start + 1)
    requires Scanning(text[start..], index - start, s)
    ensures IsFirstObject(text, Some(text[start..index + 1]))
  {
    hide Read, Run;
    assert text[start..][..index - start + 1] == text[start..index + 1];
  }

  lemma OneFirstObject(text: string, q: Option<string>, r: Option<string>)
    requires IsFirstObject(text, q) && IsFirstObject(text, r)
    ensures q == r
  {
    if q.Some? && r.Some? {
      var u := text[Run(text, "{")..];
      assert q.value == u[..|q.value|] && r.value == u[..|r.value|];
    }
  }

  // ---- JSON texts, by sections 2 to 7 of RFC 8259 ----

  datatype Char = Unescaped(c: char) | Escape(c: char) | Unicode(hex: string)

  /** A JSON text with all its insignificant whitespace. An atom is a number or one of the three
      literal names. */
  datatype Json =
    | Atom(text: string)
    | Str(chars: seq<Char>)
    | Arr(inner: string, items: Items)
    | Obj(inner: string, members: Members)

  datatype Items = NoItems | Item(value: Json, after: string, before: string, rest: Items)

  datatype Members =
    | NoMembers
    | Member(key: seq<Char>, afterKey: string, beforeValue: string, value: Json, after: string, before: string, rest: Members)

  predicate Blank(s: string) {
    forall i | 0 <= i < |s| :: s[i] == ' ' || s[i] == '\t' || s[i] == '\n' || s[i] == '\r'
  }

  predicate AtomChar(c: char) {
    'a' <= c <= 'z' || 'A' <= c <= 'Z' || '0' <= c <= '9' || c == '+' || c == '-' || c == '.'
  }

  predicate HexDigit(c: char) {
    '0' <= c <= '9' || 'a' <= c <= 'f' || 'A' <= c <= 'F'
  }

  predicate CharOk(k: Char) {
    match k
    case Unescaped(c) => c >= ' ' && c != '"' && c != '\\'
    case Escape(c) =>
      c == '"' || c == '\\' || c == '/' || c == 'b' || c == 'f' || c == 'n' || c == 'r' || c == 't'
    case Unicode(hex) => |hex| == 4 && forall i | 0 <= i < 4 :: HexDigit(hex[i])
  }

  predicate JsonOk(j: Json) {
    match j
    case Atom(text) => forall i | 0 <= i < |text| :: AtomChar(text[i])
    case Str(chars) => forall i | 0 <= i < |chars| :: CharOk(chars[i])
    case Arr(inner, items) => Blank(inner) && ItemsOk(items)
    case Obj(inner, members) => Blank(inner) && MembersOk(members)
  }

  predicate ItemsOk(items: Items) {
    match items
    case NoItems => true
    case Item(value, after, before, rest) => JsonOk(value) && Blank(after) && Blank(before) && ItemsOk(rest)
  }

  predicate MembersOk(members: Members) {
    match members
    case NoMembers => true
    case Member(key, afterKey, beforeValue, value, after, before, rest) =>
      && (forall i | 0 <= i < |key| :: CharOk(key[i])) && Blank(afterKey) && Blank(beforeValue)
      && JsonOk(value) && Blank(after) && Blank(before) && MembersOk(rest)
  }

  function CharText(k: Char): string {
    match k
    case Unescaped(c) => [c]
    case Escape(c) => ['\\', c]
    case Unicode(hex) => "\\u" + hex
  }

  function CharsText(chars: seq<Char>): string {
    if chars == [] then "" else CharText(chars[0]) + CharsText(chars[1..])
  }

  function StringText(chars: seq<Char>): string {
    "\"" + (CharsText(chars) + "\"")
  }

  function JsonText(j: Json): string {
    match j
    case Atom(text) => text
    case Str(chars) => StringText(chars)
    case Arr(inner, items) => "[" + (inner + (ItemsText(items) + "]"))
    case Obj(inner, members) => "{" + (inner + (MembersText(members) + "}"))
  }

  function ItemsText(items: Items): string {
    match items
    case NoItems => ""
    case Item(value, after, before, rest) =>
      JsonText(value) + (after + (if rest.NoItems? then "" else "," + (before + ItemsText(rest))))
  }

  function MembersText(members: Members): string {
    match members
    case NoMembers => ""
    case Member(key, afterKey, beforeValue, value, after, before, rest) =>
      StringText(key) + (afterKey + (":" + (beforeValue + (JsonText(value)
      + (after + (if rest.NoMembers? then "" else "," + (before + MembersText(rest))))))))
  }

  // ---- reading a JSON text leaves the scanner where it was ----

  function Outside(d: int): State {
    State(d, false, false)
  }

  /** Reading `text` outside strings at depth `d` comes back there and never goes below `d`. */
  ghost predicate Neutral(d: int, text: string) {
    Read(Outside(d), text) == Outside(d) && StaysAbove(Outside(d), text, d)
  }

  predicate StaysAbove(s: State, text: string, d: int)
    decreases text
  {
    text == "" || (Step(s, text[0]).depth >= d && StaysAbove(Step(s, text[0]), text[1..], d))
  }

  lemma {:induction false} AboveConcat(s: State, a: string, b: string, d: int)
    ensures StaysAbove(s, a + b, d) <==> StaysAbove(s, a, d) && StaysAbove(Read(s, a), b, d)
    decreases a
  {
    if a == "" {
      assert a + b == b;
    } else {
      assert (a + b)[1..] == a[1..] + b;
      AboveConcat(Step(s, a[0]), a[1..], b, d);
    }
  }

  lemma NeutralConcat(d: int, a: string, b: string)
    requires Neutral(d, a) && Neutral(d, b)
    ensures Neutral(d, a + b)
  {
    ReadConcat(Outside(d), a, b);
    AboveConcat(Outside(d), a, b, d);
  }

  /** Characters that mean nothing to the scanner. */
  lemma {:induction false} PlainNeutral(d: int, text: string)
    requires forall i | 0 <= i < |text| :: text[i] != '"' && text[i] != '{' && text[i] != '}'
    ensures Neutral(d, text)
  {
    if text != "" { PlainNeutral(d, text[1..]); }
  }

  function Inside(d: int): State {
    State(d, true, false)
  }

  lemma CharRead(d: int, k: Char)
    requires CharOk(k)
    ensures Read(Inside(d), CharText(k)) == Inside(d) && StaysAbove(Inside(d), CharText(k), d)
  {
    match k
    case Unescaped(c) => assert [c][1..] == "";
    case Escape(c) => assert ['\\', c][1..] == [c] && [c][1..] == "";
    case Unicode(hex) =>
      var t := "\\u" + hex;
      assert t[0] == '\\' && t[1..][0] == 'u' && t[1..][1..] == hex;
      PlainInside(d, hex);
  }

  lemma {:induction false} PlainInside(d: int, text: string)
    requires forall i | 0 <= i < |text| :: HexDigit(text[i])
    ensures Read(Inside(d), text) == Inside(d) && StaysAbove(Inside(d), text, d)
  {
    if text != "" { PlainInside(d, text[1..]); }
  }

  lemma {:induction false} CharsRead(d: int, chars: seq<Char>)
    requires forall i | 0 <= i < |chars| :: CharOk(chars[i])
    ensures Read(Inside(d), CharsText(chars)) == Inside(d) && StaysAbove(Inside(d), CharsText(chars), d)
  {
    if chars != [] {
      CharRead(d, chars[0]);
      CharsRead(d, chars[1..]);
      ReadConcat(Inside(d), CharText(chars[0]), CharsText(chars[1..]));
      AboveConcat(Inside(d), CharText(chars[0]), CharsText(chars[1..]), d);
    }
  }

  /** Braces inside a string, and escaped quotes, are never taken for structure. */
  lemma StringNeutral(d: int, chars: seq<Char>)
    requires forall i | 0 <= i < |chars| :: CharOk(chars[i])
    ensures Neutral(d, StringText(chars))
  {
    CharsRead(d, chars);
    var inner := CharsText(chars);
    ReadConcat(Inside(d), inner, "\"");
    AboveConcat(Inside(d), inner, "\"", d);
    assert StringText(chars)[1..] == inner + "\"" && "\""[1..] == "";
  }

  lemma {:induction false} JsonNeutral(d: int, j: Json)
    requires JsonOk(j)
    ensures Neutral(d, JsonText(j))
    decreases j
  {
    hide Neutral;
    match j
    case Atom(text) => PlainNeutral(d, text);
    case Str(chars) => StringNeutral(d, chars);
    case Arr(inner, items) =>
      ItemsNeutral(d, items);
      PlainNeutral(d, "[");
      PlainNeutral(d, inner);
      PlainNeutral(d, "]");
      NeutralConcat(d, ItemsText(items), "]");
      NeutralConcat(d, inner, ItemsText(items) + "]");
      NeutralConcat(d, "[", inner + (ItemsText(items) + "]"));
    case Obj(inner, members) =>
      MembersNeutral(d + 1, members);
      PlainNeutral(d + 1, inner);
      NeutralConcat(d + 1, inner, MembersText(members));
      BracedNeutral(d, inner + MembersText(members));
      assert inner + (MembersText(members) + "}") == inner + MembersText(members) + "}";
  }

  lemma {:induction false} AboveLower(s: State, text: string, d: int)
    requires StaysAbove(s, text, d + 1)
    ensures StaysAbove(s, text, d)
    decreases text
  {
    if text != "" { AboveLower(Step(s, text[0]), text[1..], d); }
  }

  lemma BracedNeutral(d: int, content: string)
    requires Neutral(d + 1, content)
    ensures Neutral(d, "{" + (content + "}"))
  {
    var text := "{" + (content + "}");
    assert text[1..] == content + "}" && "}"[1..] == "";
    ReadConcat(Outside(d + 1), content, "}");
    AboveConcat(Outside(d + 1), content, "}", d);
    AboveLower(Outside(d + 1), content, d);
  }

  lemma {:induction false} ItemsNeutral(d: int, items: Items)
    requires ItemsOk(items)
    ensures Neutral(d, ItemsText(items))
    decreases items
  {
    hide Neutral;
    match items
    case NoItems => PlainNeutral(d, "");
    case Item(value, after, before, rest) =>
      JsonNeutral(d, value);
      PlainNeutral(d, after);
      PlainNeutral(d, before);
      PlainNeutral(d, ",");
      PlainNeutral(d, "");
      ItemsNeutral(d, rest);
      NeutralConcat(d, before, ItemsText(rest));
      NeutralConcat(d, ",", before + ItemsText(rest));
      var tail := if rest.NoItems? then "" else "," + (before + ItemsText(rest));
      NeutralConcat(d, after, tail);
      NeutralConcat(d, JsonText(value), after + tail);
  }

  lemma {:induction false} MembersNeutral(d: int, members: Members)
    requires MembersOk(members)
    ensures Neutral(d, MembersText(members))
    decreases members
  {
    hide Neutral;
    match members
    case NoMembers => PlainNeutral(d, "");
    case Member(key, afterKey, beforeValue, value, after, before, rest) =>
      StringNeutral(d, key);
      PlainNeutral(d, afterKey);
      PlainNeutral(d, ":");
      PlainNeutral(d, beforeValue);
      JsonNeutral(d, value);
      PlainNeutral(d, after);
      PlainNeutral(d, before);
      PlainNeutral(d, ",");
      PlainNeutral(d, "");
      MembersNeutral(d, rest);
      NeutralConcat(d, before, MembersText(rest));
      NeutralConcat(d, ",", before + MembersText(rest));
      var tail := if rest.NoMembers? then "" else "," + (before + MembersText(rest));
      NeutralConcat(d, after, tail);
      NeutralConcat(d, JsonText(value), after + tail);
      NeutralConcat(d, beforeValue, JsonText(value) + (after + tail));
      NeutralConcat(d, ":", beforeValue + (JsonText(value) + (after + tail)));
      NeutralConcat(d, afterKey, ":" + (beforeValue + (JsonText(value) + (after + tail))));
      NeutralConcat(d, StringText(key), afterKey + (":" + (beforeValue + (JsonText(value) + (after + tail)))));
  }

  // ---- the scanner inverts serialisation ----

  lemma {:induction false} AboveMeansOpen(s: State, text: string, d: int, e: nat)
    requires StaysAbove(s, text, d) && 0 < e <= |text|
    ensures Read(s, text[..e]).depth >= d
    decreases text
  {
    assert text[..e][0] == text[0] && text[..e][1..] == text[1..][..e - 1];
    if e > 1 { AboveMeansOpen(Step(s, text[0]), text[1..], d, e - 1); }
  }

  /** The object text closes at its end and not before, whatever follows. */
  lemma ObjectCloses(content: string, suffix: string, e: nat)
    requires Neutral(1, content) && e <= |content| + 2
    ensures Closes("{" + (content + "}") + suffix, e) <==> e == |content| + 2
  {
    var found := "{" + (content + "}");
    assert (found + suffix)[..e] == found[..e];
    if e == |content| + 2 {
      assert found[..e] == found && found[1..] == content + "}" && "}"[1..] == "";
      ReadConcat(Outside(1), content, "}");
    } else if 0 < e {
      assert found[..e] == "{" + content[..e - 1];
      OpenPrefix(content, e - 1);
    }
  }

  lemma OpenPrefix(content: string, e: nat)
    requires Neutral(1, content) && e <= |content|
    ensures Read(START, "{" + content[..e]).depth >= 1
  {
    assert ("{" + content[..e])[1..] == content[..e];
    if e > 0 { AboveMeansOpen(Outside(1), content, 1, e); }
  }

  /** For any JSON object text, preceded by text without an opening brace and followed by anything, the
      scanner's answer is exactly that object text. */
  lemma ScansGeneratedObject(pre: string, j: Json, suffix: string, r: Option<string>)
    requires j.Obj? && JsonOk(j) && '{' !in pre && IsFirstObject(pre + JsonText(j) + suffix, r)
    ensures r == Some(JsonText(j))
  {
    var content := j.inner + MembersText(j.members);
    assert JsonText(j) == "{" + (content + "}");
    PlainNeutral(1, j.inner);
    MembersNeutral(1, j.members);
    hide JsonText, MembersText, Neutral, Closes, JsonOk, Read;
    NeutralConcat(1, j.inner, MembersText(j.members));
    ScansObject(pre, content, suffix, r);
  }

  lemma ScansObject(pre: string, content: string, suffix: string, r: Option<string>)
    requires Neutral(1, content) && '{' !in pre && IsFirstObject(pre + ("{" + (content + "}")) + suffix, r)
    ensures r == Some("{" + (content + "}"))
  {
    hide Neutral, Closes;
    var found := "{" + (content + "}");
    var text := pre + found + suffix;
    assert text[|pre|] == '{' && forall i | 0 <= i < |pre| :: text[i] == pre[i];
    RunIs(text, "{", |pre|);
    assert text[|pre|..] == found + suffix;
    forall e: nat | e <= |found| ensures Closes(found + suffix, e) <==> e == |found| { ObjectCloses(content, suffix, e); }
    assert (found + suffix)[..|found|] == found;
    OneFirstObject(text, r, Some(found));
  }
}
