/** What each operation of a proposal does to the vault, file by file, and what no proposal can do. */
module EngineLaws {
  import opened Text
  import opened VaultPaths
  import opened Proposals
  import Wikilinks
  import GeneratedRegion
  import Refinement

  /** Every file but the one at `p` is as it was. */
  predicate OthersKept(fs: FS, after: FS, p: Path) {
    after.files.Keys == fs.files.Keys + {p} && forall q | q in fs.files && q != p :: after.files[q] == fs.files[q]
  }

  /** Exactly the folders on the way to `p` have been added. */
  ghost predicate FoldersAdded(fs: FS, after: FS, p: Path) {
    forall q: Path :: q in after.dirs <==> q in fs.dirs || q <= p
  }

  /** A file stands where a folder on the way to `p` is needed. */
  predicate FileInTheWay(fs: FS, p: Path) {
    exists q | q in fs.files :: q <= p
  }

  lemma AncestryIs(p: Path, q: Path)
    ensures q in Ancestry(p) <==> q <= p
  {
    if q <= p { assert q == p[..|q|]; }
  }

  lemma BlockedIs(fs: FS, p: Path)
    ensures Blocked(fs, p) <==> FileInTheWay(fs, p)
  {
    if q :| q in fs.files && q <= p { assert q == p[..|q|]; }
    if Blocked(fs, p) {
      var i :| 0 <= i <= |p| && p[..i] in fs.files;
      assert p[..i] <= p;
    }
  }

  /** A text is written unless a folder is there or a file is in the way, and then nothing else changes. */
  lemma TextWritten(fs: FS, p: Path, text: string)
    requires p != []
    ensures var (after, status) := WriteText(fs, p, text);
            && (status == Applied <==> p !in fs.dirs && !FileInTheWay(fs, p[..|p| - 1]))
            && (status == Raised <==> status != Applied) && (status != Applied ==> after == fs)
            && (status == Applied ==> OthersKept(fs, after, p) && after.files[p] == text && FoldersAdded(fs, after, p[..|p| - 1]))
  {
    BlockedIs(fs, Parent(p));
    forall q: Path ensures q in Ancestry(Parent(p)) <==> q <= Parent(p) { AncestryIs(Parent(p), q); }
    hide Ancestry, Blocked, FileInTheWay;
  }

  /** What `write_file` does. It is refused on a protected path, and on an existing one without permission to
      overwrite. Otherwise it writes the given text, or, when it is to merge into an existing file, the merged
      text, and changes no other file; where that cannot be done it raises and changes nothing. */
  lemma WriteEffect(env: Env, fs: FS, p: Path, content: string, overwrite: bool, merge: bool)
    requires p != []
    ensures var (after, status) := ApplyWrite(env, fs, p, content, overwrite, merge);
            var there := p in fs.files || p in fs.dirs;
            && (status == Refused <==> Protected(env, p) || (there && !overwrite))
            && (status != Applied ==> after == fs)
            && (status == Applied ==>
                  && OthersKept(fs, after, p) && FoldersAdded(fs, after, p[..|p| - 1])
                  && (if merge && p in fs.files then GeneratedRegion.Merge(fs.files[p], content) == Some(after.files[p])
                      else after.files[p] == content))
            && (status == Raised ==>
                  || p in fs.dirs || FileInTheWay(fs, p[..|p| - 1])
                  || (merge && p in fs.files && GeneratedRegion.Merge(fs.files[p], content) == None))
  {
    ProtectedIff(env, p);
    TextWritten(fs, p, content);
    if p in fs.files && GeneratedRegion.Merge(fs.files[p], content).Some? {
      TextWritten(fs, p, GeneratedRegion.Merge(fs.files[p], content).value);
    }
    hide WriteText, WriteAllowed, Protected, GeneratedRegion.Merge, OthersKept, FoldersAdded, FileInTheWay;
  }

  /** What the three edits of a note do: refused in the system folder, for a note that is not there, and when
      the edit itself refuses; otherwise the note has the new text. */
  lemma EditEffect(env: Env, fs: FS, p: Path, result: Edited)
    requires p != []
    ensures var (after, status) := ApplyEdit(env, fs, p, result);
            && (status == Refused <==> env.system <= p || (p !in fs.files && p !in fs.dirs) || (p in fs.files && result.Failed?))
            && (status != Applied ==> after == fs)
            && (status == Applied ==> p in fs.files && result.NewText? && OthersKept(fs, after, p) && after.files[p] == result.text)
            && (status == Raised ==> p in fs.dirs || FileInTheWay(fs, p[..|p| - 1]))
  {
    if result.NewText? { TextWritten(fs, p, result.text); }
    hide WriteText, OthersKept, FoldersAdded, FileInTheWay;
  }

  /** What creating a folder does: all folders on the way are there afterwards, and no file changes. */
  lemma MkdirEffect(fs: FS, p: Path, failIfExists: bool)
    ensures var (after, status) := ApplyMkdir(fs, p, failIfExists);
            && (status == Raised <==> FileInTheWay(fs, p) || (p in fs.dirs && failIfExists)) && status != Refused
            && (status == Raised ==> after == fs)
            && (status == Applied ==> after.files == fs.files && FoldersAdded(fs, after, p))
  {
    BlockedIs(fs, p);
    forall q: Path ensures q in Ancestry(p) <==> q <= p { AncestryIs(p, q); }
    hide Ancestry, Blocked, FileInTheWay;
  }

  /** What a move does. The note is at its new path and nowhere else. With link updating, every file named
      `*.md`, wherever it is but in the system folder or below a `.git`, the moved note included, has the text
      it had with its links rewritten from the old path and name to the new ones; every other file has the
      text it had, and so has every file without link updating. */
  lemma MoveEffect(env: Env, fs: FS, s: Path, d: Path, updateLinks: bool)
    requires MovePath(s) && MovePath(d)
    ensures var (after, status) := ApplyMove(env, fs, s, d, updateLinks);
            var r := Wikilinks.Retarget(Key(s), Key(d), Stem(s), Stem(d));
            && (status == Raised <==> s !in fs.files || d[..|d| - 1] !in fs.dirs || d in fs.dirs) && status != Refused
            && (status == Raised ==> after == fs)
            && (status == Applied ==>
                  && after.dirs == fs.dirs
                  && (forall p :: p in after.files <==> p == d || (p in fs.files && p != s))
                  && (forall p | p in after.files ::
                        var was := if p == d then fs.files[s] else fs.files[p];
                        after.files[p] ==
                          if updateLinks && p != [] && EndsWith(p[|p| - 1], ".md") && ".git" !in p && !(env.system <= p)
                          then Wikilinks.RewriteLinks(was, r) else was))
  {
    if s in fs.files {
      RenamedIs(fs.files, s, d);
      RelinkedIs(env, Renamed(fs.files, s, d), Wikilinks.Retarget(Key(s), Key(d), Stem(s), Stem(d)));
    }
    hide Key, Stem, Wikilinks.RewriteLinks, Rewritten, Renamed, RewriteAll;
  }

  lemma RenamedIs(files: map<Path, string>, s: Path, d: Path)
    requires s in files
    ensures forall p :: p in Renamed(files, s, d) <==> p == d || (p in files && p != s)
    ensures forall p | p in Renamed(files, s, d) :: Renamed(files, s, d)[p] == if p == d then files[s] else files[p]
  {
  }

  lemma RelinkedIs(env: Env, files: map<Path, string>, r: Wikilinks.Retarget)
    ensures RewriteAll(env, files, r).Keys == files.Keys
    ensures forall p | p in files :: RewriteAll(env, files, r)[p] ==
              if p != [] && EndsWith(p[|p| - 1], ".md") && ".git" !in p && !(env.system <= p)
              then Wikilinks.RewriteLinks(files[p], r) else files[p]
  {
    hide Wikilinks.RewriteLinks;
  }

  /** What adding aliases does: the configuration file has the new text, and no other file changes. */
  lemma AliasesEffect(env: Env, fs: FS, result: Edited)
    ensures var (after, status) := ApplyAliases(env, fs, result);
            var p := env.system + ["0.01 agent", "config.yaml"];
            && (status == Refused <==> p in fs.dirs || result.Failed?)
            && (status != Applied ==> after == fs)
            && (status == Applied ==> OthersKept(fs, after, p) && result == NewText(after.files[p]))
  {
    assert env.ConfigFile() == env.system + ["0.01 agent", "config.yaml"];
    if result.NewText? { TextWritten(fs, env.ConfigFile(), result.text); }
    hide WriteText, OthersKept, FoldersAdded, FileInTheWay;
  }

  /** Which operation does what. */
  lemma Dispatch(env: Env, fs: FS, op: Op)
    requires Validated(op)
    ensures var note := if op.AddAliases? then [] else op.path;
            var text := if note in fs.files then fs.files[note] else "";
            Apply(env, fs, op) ==
              match op
              case WriteFile(p, content, overwrite, merge) => ApplyWrite(env, fs, p, content, overwrite, merge)
              case EditNote(p, edit) => ApplyEdit(env, fs, p, edit(text))
              case RestructureBody(p, body) =>
                var body' := Refinement.Restructure(text, body, env.budget, env.yamlOk);
                ApplyEdit(env, fs, p, if body'.Some? then NewText(body'.value) else Failed)
              case CreateDirectory(p, failIfExists) => ApplyMkdir(fs, p, failIfExists)
              case MoveNote(s, d, updateLinks) => ApplyMove(env, fs, s, d, updateLinks)
              case AddAliases(aliases) =>
                var c := env.system + ["0.01 agent", "config.yaml"];
                ApplyAliases(env, fs, aliases(if c in fs.files then fs.files[c] else ""))
  {
    assert env.ConfigFile() == env.system + ["0.01 agent", "config.yaml"];
    hide ApplyWrite, ApplyEdit, ApplyMkdir, ApplyMove, ApplyAliases, Refinement.Restructure;
  }

  // ---- what no proposal can do ----

  /** One operation that passed preflight changes no original file on a protected path, unless it moves it. */
  lemma StepSparesProtected(env: Env, start: FS, fs: FS, ops: seq<Op>, k: nat, p: Path)
    requires k < |ops| && Validated(ops[k]) && !Objection(env, start, ops, k)
    requires Protected(env, p) && p in start.files && p in fs.files && ".git" !in env.system
    requires ops[k].MoveNote? ==> ops[k].path != p
    ensures var after := Apply(env, fs, ops[k]).0; p in after.files && after.files[p] == fs.files[p]
  {
    if ".git" !in p { UnderAgent(env, p); } else { NotConfig(env, p); }
    Dispatch(env, fs, ops[k]);
    hide Apply, Objection, ApplyWrite, ApplyEdit, ApplyMkdir, ApplyMove, ApplyAliases, Refinement.Restructure, Claimed, SharedName, NamedInText;
    StepObjection(env, start, ops, k);
    match ops[k]
    case WriteFile(q, content, overwrite, merge) => WriteEffect(env, fs, q, content, overwrite, merge);
    case EditNote(q, edit) => EditEffect(env, fs, q, edit(if q in fs.files then fs.files[q] else ""));
    case RestructureBody(q, body) =>
      var text := Refinement.Restructure(if q in fs.files then fs.files[q] else "", body, env.budget, env.yamlOk);
      EditEffect(env, fs, q, if text.Some? then NewText(text.value) else Failed);
    case CreateDirectory(q, failIfExists) => MkdirEffect(fs, q, failIfExists);
    case MoveNote(s, d, updateLinks) => MoveEffect(env, fs, s, d, updateLinks);
    case AddAliases(aliases) =>
      var c := env.system + ["0.01 agent", "config.yaml"];
      AliasesEffect(env, fs, aliases(if c in fs.files then fs.files[c] else ""));
  }

  lemma StepObjection(env: Env, fs: FS, ops: seq<Op>, k: nat)
    requires k < |ops| && Validated(ops[k]) && !Objection(env, fs, ops, k)
    ensures WritesNote(ops[k]) ==> !Protected(env, ops[k].path)
    ensures ops[k].EditNote? || ops[k].RestructureBody? ==> !(env.system <= ops[k].path)
    ensures ops[k].MoveNote? ==>
              !(env.system <= ops[k].path) && !(env.system <= ops[k].destination) && ops[k].destination !in fs.files
  {
    hide Protected, Claimed, SharedName, NamedInText;
  }

  lemma NotConfig(env: Env, p: Path)
    requires ".git" in p && ".git" !in env.system
    ensures p != env.system + ["0.01 agent", "config.yaml"]
  {
  }

  lemma UnderAgent(env: Env, p: Path)
    requires Protected(env, p) && ".git" !in p
    ensures env.system <= p && p != env.system + ["0.01 agent", "config.yaml"]
  {
    var agent := env.system + ["0.01 agent"];
    var c := env.system + ["0.01 agent", "config.yaml"];
    if name :| name in {"backups", "logs", "retrieval", "reports"} && agent + [name] <= p {
      assert p[..|agent| + 1] == agent + [name] && c[|agent|] == "config.yaml";
      assert p[|agent|] == (agent + [name])[|agent|] == name;
    } else {
      var name :| name in {"manifest.json", "norms-lock.json", "state.json", "processing-state.json"} && p == agent + [name];
      assert p[|agent|] == name && c[|agent|] == "config.yaml";
    }
  }

  lemma MoveSpares(env: Env, fs: FS, ops: seq<Op>, j: nat, p: Path)
    requires j < |ops| && Validated(ops[j]) && !Objection(env, fs, ops, j) && Protected(env, p) && ops[j].MoveNote?
    requires ops[j].path == p ==> ".git" !in p
    ensures ops[j].path != p
  {
    StepObjection(env, fs, ops, j);
    hide Objection;
    if ops[j].path == p { UnderAgent(env, p); }
  }

  /** Whatever a proposal that passes preflight does, and wherever its run stops, the generated state of the
      agent - its backups, logs, reports and retrieval files, its manifest, norms lock and state files - is
      exactly what it was, and so is every file below a `.git` that no move has taken away. */
  lemma {:induction false} ProtectedKept(env: Env, start: FS, ops: seq<Op>, k: nat, p: Path)
    requires (forall i: nat | i < |ops| :: Validated(ops[i]) && !Objection(env, start, ops, i)) && k <= |ops|
    requires Protected(env, p) && p in start.files && ".git" !in env.system
    requires forall i: nat | i < k && ops[i].MoveNote? :: ops[i].path == p ==> ".git" !in p
    ensures var fs := StateAt(env, start, ops, k).0; p in fs.files && fs.files[p] == start.files[p]
  {
    hide Objection, Apply, Protected;
    if k > 0 {
      if ops[k - 1].MoveNote? { MoveSpares(env, start, ops, k - 1, p); }
      ProtectedKept(env, start, ops, k - 1, p);
      StepSparesProtected(env, start, StateAt(env, start, ops, k - 1).0, ops, k - 1, p);
    }
  }

  /** The text of an original note is lost only to an operation that names the note while it is at its own
      path: a write that may overwrite, an edit, or, for the configuration file, new aliases. Until then the
      note holds its own text up to link targets. */
  lemma {:induction false} TextLostOnlyTo(env: Env, start: FS, ops: seq<Op>, k: nat, p: Path) returns (j: nat)
    requires (forall i: nat | i < |ops| :: Validated(ops[i]) && !Objection(env, start, ops, i)) && k <= |ops|
    requires p in start.files && !StateAt(env, start, ops, k).1
    ensures var fs := StateAt(env, start, ops, k).0;
            && Place(ops, k, p) in fs.files
            && (fs.files[Place(ops, k, p)] != Relinked(env, ops, k, p, start.files[p]) ==>
                  && j < k && Place(ops, j, p) == p
                  && match ops[j]
                     case WriteFile(q, _, overwrite, _) => q == p && overwrite
                     case EditNote(q, _) => q == p && !(env.system <= p)
                     case RestructureBody(q, _) => q == p && !(env.system <= p)
                     case AddAliases(_) => p == env.system + ["0.01 agent", "config.yaml"]
                     case _ => false)
  {
    forall i: nat | i < |ops| ensures OpClean(env, start, ops, i) { CleanIff(env, start, ops, i); }
    hide Objection, Apply, OpClean, Relinked;
    assert Clean(env, start, ops);
    NothingLost(env, start, ops, k);
    j := 0;
    if EditedBy(env, ops, k, p) {
      j := EditingOp(env, ops, k, p);
      EditPermitted(env, start, ops, j, p);
    }
  }

  lemma {:induction false} EditingOp(env: Env, ops: seq<Op>, k: nat, p: Path) returns (j: nat)
    requires k <= |ops| && EditedBy(env, ops, k, p)
    ensures j < k && Place(ops, j, p) == p && Targets(env, ops[j], p)
  {
    if EditedBy(env, ops, k - 1, p) { j := EditingOp(env, ops, k - 1, p); } else { j := k - 1; }
  }

  lemma EditPermitted(env: Env, start: FS, ops: seq<Op>, j: nat, p: Path)
    requires j < |ops| && Validated(ops[j]) && !Objection(env, start, ops, j) && p in start.files && Targets(env, ops[j], p)
    ensures match ops[j]
            case WriteFile(q, _, overwrite, _) => q == p && overwrite
            case EditNote(q, _) => q == p && !(env.system <= p)
            case RestructureBody(q, _) => q == p && !(env.system <= p)
            case AddAliases(_) => p == env.system + ["0.01 agent", "config.yaml"]
            case _ => false
  {
    assert env.ConfigFile() == env.system + ["0.01 agent", "config.yaml"];
    hide Protected, Claimed, SharedName, NamedInText;
  }
}
