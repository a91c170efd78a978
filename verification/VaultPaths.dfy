/** Vault-relative paths as sequences of segments, and the strings wikilinks name notes by. */
module VaultPaths {
  import opened Text

  type Path = seq<string>

  /** A normalised relative path: every segment is a real file or folder name. */
  predicate Normal(p: Path) {
    p != [] && forall i | 0 <= i < |p| :: p[i] != "" && p[i] != "." && p[i] != ".." && Avoids(p[i], "/")
  }

  /** `path.is_relative_to(dir)`. */
  predicate Under(p: Path, dir: Path) {
    dir <= p
  }

  /** Neither folder equals or contains the other. */
  predicate Apart(a: Path, b: Path) {
    !(a <= b) && !(b <= a)
  }

  lemma ApartSymmetric(a: Path, b: Path)
    ensures Apart(a, b) == Apart(b, a)
  {
  }

  lemma ApartBelow(a: Path, b: Path, p: Path)
    requires Apart(a, b) && Under(p, a)
    ensures Apart(p, b)
  {
    assert a == p[..|a|];
  }

  function Name(p: Path): string
    requires p != []
  {
    p[|p| - 1]
  }

  function Parent(p: Path): Path
    requires p != []
  {
    p[..|p| - 1]
  }

  /** A file that `rglob("*.md")` visits. */
  predicate IsMarkdown(p: Path) {
    p != [] && |Name(p)| >= 3 && Name(p)[|Name(p)| - 3..] == ".md"
  }

  /** A path with a non-empty stem and the suffix `.md` in either case: what a move may name. */
  predicate MovePath(p: Path) {
    && Normal(p) && |Name(p)| > 3
    && (var suffix := Name(p)[|Name(p)| - 3..];
        suffix[0] == '.' && suffix[1] in {'m', 'M'} && suffix[2] in {'d', 'D'})
  }

  /** A Markdown file with a name of its own: what a wikilink can denote. */
  predicate IsNote(p: Path) {
    MovePath(p) && IsMarkdown(p)
  }

  /** `path.stem`. */
  function Stem(p: Path): (s: string)
    requires MovePath(p)
    ensures s != "" && Avoids(s, "/") && s <= Name(p) && |s| == |Name(p)| - 3
  {
    Name(p)[..|Name(p)| - 3]
  }

  function Join(p: Path): string {
    if p == [] then "" else if |p| == 1 then p[0] else p[0] + "/" + Join(p[1..])
  }

  /** `path.with_suffix("").as_posix()`. */
  function Key(p: Path): string
    requires MovePath(p)
  {
    Join(Parent(p) + [Stem(p)])
  }

  /** A note is a file with a name of its own before the suffix. */
  lemma NoteIs(p: Path)
    ensures IsNote(p) <==> Normal(p) && exists stem: string :: stem != "" && p[|p| - 1] == stem + ".md"
    ensures MovePath(p) <==> Normal(p) && exists stem: string, suffix: string ::
              stem != "" && p[|p| - 1] == stem + suffix && (suffix == ".md" || suffix == ".MD" || suffix == ".Md" || suffix == ".mD")
  {
    if p != [] && |Name(p)| > 3 {
      var n := |Name(p)| - 3;
      assert Name(p) == Name(p)[..n] + Name(p)[n..];
    }
  }

  lemma {:induction false} JoinLast(p: Path, s: string, suffix: string)
    ensures Join(p + [s + suffix]) == Join(p + [s]) + suffix
  {
    if p == [] {
      assert p + [s] == [s] && p + [s + suffix] == [s + suffix];
    } else {
      assert (p + [s])[1..] == p[1..] + [s] && (p + [s + suffix])[1..] == p[1..] + [s + suffix];
      JoinLast(p[1..], s, suffix);
    }
  }

  lemma StemIs(p: Path)
    requires IsNote(p)
    ensures p[|p| - 1] == Stem(p) + ".md" && p == Parent(p) + [Stem(p) + ".md"]
  {
    hide Normal;
    assert Name(p) == Stem(p) + ".md";
  }

  /** The key of a note is its path without the suffix. */
  lemma KeyIs(p: Path)
    requires IsNote(p)
    ensures Key(p) + ".md" == Join(p)
  {
    hide Normal, MovePath, IsMarkdown, Join, Stem, Parent;
    StemIs(p);
    JoinLast(Parent(p), Stem(p), ".md");
  }

  predicate Segments(p: Path) {
    forall i | 0 <= i < |p| :: p[i] != "" && Avoids(p[i], "/")
  }

  lemma {:induction false} JoinInjective(p: Path, q: Path)
    requires p != [] && q != [] && Segments(p) && Segments(q) && Join(p) == Join(q)
    ensures p == q
  {
    JoinHead(p);
    JoinHead(q);
    assert p[0] == Join(p)[..|p[0]|] && q[0] == Join(q)[..|q[0]|];
    if |p| > 1 && |q| > 1 {
      assert Join(p[1..]) == Join(p)[|p[0]| + 1..] && Join(q[1..]) == Join(q)[|q[0]| + 1..];
      JoinInjective(p[1..], q[1..]);
    }
  }

  lemma JoinHead(p: Path)
    requires p != [] && Segments(p)
    ensures Run(Join(p), "/") == |p[0]| && p[0] <= Join(p)
    ensures |p| > 1 <==> |p[0]| < |Join(p)|
    ensures |p| > 1 ==> Join(p)[|p[0]|] == '/'
  {
    RunIs(Join(p), "/", |p[0]|);
  }

  /** A note's key names it alone. */
  lemma KeyInjective(p: Path, q: Path)
    requires IsNote(p) && IsNote(q) && Key(p) == Key(q)
    ensures p == q
  {
    var a, b := Parent(p) + [Stem(p)], Parent(q) + [Stem(q)];
    JoinInjective(a, b);
    assert p == Parent(p) + [Name(p)] && q == Parent(q) + [Name(q)];
    assert Name(p) == Stem(p) + ".md" && Name(q) == Stem(q) + ".md";
    assert Stem(p) == a[|a| - 1] && Stem(q) == b[|b| - 1];
    assert Parent(p) == a[..|a| - 1] && Parent(q) == b[..|b| - 1];
  }

  /** A key without a slash belongs to a note at the root of the vault. */
  lemma KeyIsStem(p: Path, t: string)
    requires IsNote(p) && Key(p) == t && Avoids(t, "/")
    ensures |p| == 1 && Stem(p) == t
  {
    var a := Parent(p) + [Stem(p)];
    JoinHead(a);
  }
}
