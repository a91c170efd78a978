/** The proposal engine (`review.py`): one preflight over the operation list, then step by step
    execution against the changing vault. */
module Proposals {
  import opened Text
  import opened VaultPaths
  import Wikilinks
  import GeneratedRegion
  import Refinement

  /** The vault on disk: files with their text, and directories. */
  datatype FS = FS(files: map<Path, string>, dirs: set<Path>) {
    predicate Exists(p: Path) { p in files || p in dirs }
  }

  /** What an edit that goes through YAML makes of a note: a new text, or a refusal. */
  datatype Edited = Failed | NewText(text: string)

  datatype Op =
    | WriteFile(path: Path, content: string, overwrite: bool, mergeGenerated: bool)
    | EditNote(path: Path, edit: string -> Edited)   // update_frontmatter, organize_note, normalize_metadata
    | RestructureBody(path: Path, body: string)
    | CreateDirectory(path: Path, failIfExists: bool)
    | MoveNote(path: Path, destination: Path, updateLinks: bool)
    | AddAliases(aliases: string -> Edited)

  /** The configuration the engine runs under; `schemaGuard` and `yamlOk` stand for JSON and YAML checks. */
  datatype Env = Env(system: Path, schemaGuard: string -> bool, yamlOk: string -> bool, budget: Refinement.Budget) {
    function AgentDir(): Path { system + ["0.01 agent"] }
    function ConfigFile(): Path { AgentDir() + ["config.yaml"] }
  }

  predicate WritesNote(op: Op) {
    op.WriteFile? || op.EditNote? || op.RestructureBody?
  }

  /** What loading a proposal has already checked of each operation. */
  predicate Validated(op: Op) {
    match op
    case WriteFile(p, _, _, _) => Normal(p)
    case EditNote(p, _) => Normal(p) && IsMarkdown(p)
    case RestructureBody(p, body) => Normal(p) && IsMarkdown(p) && body != ""
    case CreateDirectory(p, _) => Normal(p)
    case MoveNote(p, d, _) => MovePath(p) && MovePath(d) && p != d
    case AddAliases(_) => true
  }

  // ---- preflight ----

  /** `_write_allowed`. */
  predicate WriteAllowed(env: Env, p: Path) {
    var agent := env.AgentDir();
    && ".git" !in p
    && !Under(p, agent + ["backups"]) && !Under(p, agent + ["logs"])
    && p != agent + ["manifest.json"] && p != agent + ["norms-lock.json"]
    && p != agent + ["state.json"] && p != agent + ["processing-state.json"]
    && !Under(p, agent + ["retrieval"]) && !Under(p, agent + ["reports"])
  }

  /** `_has_ambiguous_simple_links`. */
  predicate Ambiguous(env: Env, fs: FS, source: Path)
    requires MovePath(source)
  {
    && (exists p, q | p in Named(env, fs, Name(source)) && q in Named(env, fs, Name(source)) :: p != q)
    && (exists p | p in fs.files :: IsMarkdown(p) && !Under(p, env.system)
                                 && Wikilinks.HasSimpleLink(fs.files[p], Stem(source)))
  }

  function Named(env: Env, fs: FS, name: string): set<Path> {
    set p | p in fs.files.Keys + fs.dirs && p != [] && Name(p) == name && !Under(p, env.system)
  }

  /** An earlier operation of the list writes the note at `p`. */
  predicate WrittenBefore(ops: seq<Op>, i: nat, p: Path)
    requires i <= |ops|
  {
    exists j | 0 <= j < i :: WritesNote(ops[j]) && ops[j].path == p
  }

  predicate LandedBefore(env: Env, ops: seq<Op>, i: nat, p: Path)
    requires i <= |ops|
  {
    exists j | 0 <= j < i :: ops[j].MoveNote? && !TouchesSystem(env, ops[j]) && ops[j].destination == p
  }

  predicate PlannedBefore(env: Env, ops: seq<Op>, i: nat, p: Path)
    requires i <= |ops|
  {
    exists j | 0 <= j < i :: ops[j].CreateDirectory? && !TouchesSystem(env, ops[j]) && ops[j].path == p
  }

  predicate TouchesSystem(env: Env, op: Op) {
    match op
    case AddAliases(_) => false
    case MoveNote(p, d, _) => Under(p, env.system) || Under(d, env.system)
    case _ => Under(op.path, env.system)
  }

  /** The preflight has nothing against operation `i`. */
  predicate OpClean(env: Env, fs: FS, ops: seq<Op>, i: nat)
    requires i < |ops| && Validated(ops[i])
  {
    var op := ops[i];
    match op
    case WriteFile(p, content, overwrite, _) =>
      && WriteAllowed(env, p) && !WrittenBefore(ops, i, p) && !LandedBefore(env, ops, i, p)
      && (fs.Exists(p) ==> overwrite)
      && (p == env.AgentDir() + ["schema.json"] ==> env.schemaGuard(content))
    case EditNote(p, _) =>
      && WriteAllowed(env, p) && !WrittenBefore(ops, i, p) && !LandedBefore(env, ops, i, p)
      && !Under(p, env.system) && p in fs.files
    case RestructureBody(p, _) =>
      && WriteAllowed(env, p) && !WrittenBefore(ops, i, p) && !LandedBefore(env, ops, i, p)
      && !Under(p, env.system) && p in fs.files
    case CreateDirectory(p, failIfExists) =>
      && !Under(p, env.system) && p !in fs.files && !(p in fs.dirs && failIfExists)
    case MoveNote(p, d, updateLinks) =>
      && !Under(p, env.system) && !Under(d, env.system)
      && p in fs.files && !fs.Exists(d) && !LandedBefore(env, ops, i, d) && !WrittenBefore(ops, i, d)
      && (Parent(d) in fs.dirs || PlannedBefore(env, ops, i, Parent(d)))
      && (updateLinks ==> !Ambiguous(env, fs, p))
    case AddAliases(_) => true
  }

  ghost predicate Clean(env: Env, fs: FS, ops: seq<Op>) {
    forall i: nat | i < |ops| :: Validated(ops[i]) && OpClean(env, fs, ops, i)
  }

  /** Generated agent state and version control: what no operation may write. */
  predicate Protected(env: Env, p: Path) {
    var agent := env.system + ["0.01 agent"];
    || ".git" in p
    || (exists name | name in {"backups", "logs", "retrieval", "reports"} :: agent + [name] <= p)
    || (exists name | name in {"manifest.json", "norms-lock.json", "state.json", "processing-state.json"} :: p == agent + [name])
  }

  /** Why an operation is refused, reason by reason: against the vault as it is, and against what the
      earlier operations of the list plan. */
  ghost predicate Objection(env: Env, fs: FS, ops: seq<Op>, i: nat)
    requires i < |ops| && Validated(ops[i])
  {
    match ops[i]
    case WriteFile(p, content, overwrite, _) =>
      || Protected(env, p) || Claimed(env, ops, i, p)
      || ((p in fs.files || p in fs.dirs) && !overwrite)
      || (p == env.system + ["0.01 agent", "schema.json"] && !env.schemaGuard(content))
    case EditNote(p, _) => Protected(env, p) || Claimed(env, ops, i, p) || env.system <= p || p !in fs.files
    case RestructureBody(p, _) => Protected(env, p) || Claimed(env, ops, i, p) || env.system <= p || p !in fs.files
    case CreateDirectory(p, failIfExists) => env.system <= p || p in fs.files || (p in fs.dirs && failIfExists)
    case MoveNote(p, d, updateLinks) =>
      || env.system <= p || env.system <= d
      || p !in fs.files || d in fs.files || d in fs.dirs || Claimed(env, ops, i, d)
      || (d[..|d| - 1] !in fs.dirs
          && !exists j | 0 <= j < i :: ops[j].CreateDirectory? && !(env.system <= ops[j].path) && ops[j].path == d[..|d| - 1])
      || (updateLinks && SharedName(env, fs, p[|p| - 1]) && NamedInText(env, fs, p[|p| - 1][..|p[|p| - 1]| - 3]))
    case AddAliases(_) => false
  }

  /** An earlier operation writes the path, or moves a note to it. */
  predicate Claimed(env: Env, ops: seq<Op>, i: nat, p: Path)
    requires i <= |ops|
  {
    exists j | 0 <= j < i ::
      match ops[j]
      case WriteFile(q, _, _, _) => q == p
      case EditNote(q, _) => q == p
      case RestructureBody(q, _) => q == p
      case MoveNote(q, d, _) => d == p && !(env.system <= q) && !(env.system <= d)
      case _ => false
  }

  /** Outside the system folder two files or folders have the name. */
  ghost predicate SharedName(env: Env, fs: FS, name: string) {
    exists p, q | p in fs.files.Keys + fs.dirs && q in fs.files.Keys + fs.dirs && p != q ::
      && p != [] && p[|p| - 1] == name && !(env.system <= p)
      && q != [] && q[|q| - 1] == name && !(env.system <= q)
  }

  /** Outside the system folder a Markdown file holds `[[`, the stem, and `#`, `|` or `]]`. */
  ghost predicate NamedInText(env: Env, fs: FS, stem: string) {
    exists p | p in fs.files && p != [] && EndsWith(p[|p| - 1], ".md") && !(env.system <= p) ::
      || Occurs(fs.files[p], "[[" + stem + "#") || Occurs(fs.files[p], "[[" + stem + "|") || Occurs(fs.files[p], "[[" + stem + "]]")
  }

  lemma ProtectedIff(env: Env, p: Path)
    ensures Protected(env, p) <==> !WriteAllowed(env, p)
  {
    var agent := env.AgentDir();
    if !WriteAllowed(env, p) && ".git" !in p {
      assert "backups" in {"backups", "logs", "retrieval", "reports"};
      if Under(p, agent + ["backups"]) {
      } else if Under(p, agent + ["logs"]) {
      } else if Under(p, agent + ["retrieval"]) {
      } else if Under(p, agent + ["reports"]) {
      } else {
        assert p == agent + ["manifest.json"] || p == agent + ["norms-lock.json"] || p == agent + ["state.json"]
            || p == agent + ["processing-state.json"];
      }
    }
  }

  lemma ClaimedIff(env: Env, ops: seq<Op>, i: nat, p: Path)
    requires i <= |ops|
    ensures Claimed(env, ops, i, p) <==> WrittenBefore(ops, i, p) || LandedBefore(env, ops, i, p)
  {
  }

  lemma SharedNameIff(env: Env, fs: FS, name: string)
    ensures SharedName(env, fs, name) <==> exists p, q | p in Named(env, fs, name) && q in Named(env, fs, name) :: p != q
  {
    if p, q :| p in Named(env, fs, name) && q in Named(env, fs, name) && p != q {
      assert p in fs.files.Keys + fs.dirs && q in fs.files.Keys + fs.dirs;
    }
    if SharedName(env, fs, name) {
      var p, q :| p in fs.files.Keys + fs.dirs && q in fs.files.Keys + fs.dirs && p != q
               && p != [] && p[|p| - 1] == name && !(env.system <= p) && q != [] && q[|q| - 1] == name && !(env.system <= q);
      assert p in Named(env, fs, name) && q in Named(env, fs, name);
    }
  }

  lemma AmbiguousSays(env: Env, fs: FS, p: Path)
    requires MovePath(p)
    ensures Ambiguous(env, fs, p) <==> SharedName(env, fs, p[|p| - 1]) && NamedInText(env, fs, p[|p| - 1][..|p[|p| - 1]| - 3])
  {
    SharedNameIff(env, fs, Name(p));
    hide Occurs, Named, SharedName;
  }

  /** The preflight has something against exactly the operations with one of the reasons. */
  lemma CleanIff(env: Env, fs: FS, ops: seq<Op>, i: nat)
    requires i < |ops| && Validated(ops[i])
    ensures OpClean(env, fs, ops, i) <==> !Objection(env, fs, ops, i)
  {
    hide WriteAllowed, Protected, Ambiguous, SharedName, NamedInText, Claimed, WrittenBefore, LandedBefore, PlannedBefore;
    match ops[i]
    case WriteFile(p, _, _, _) =>
      ProtectedIff(env, p);
      ClaimedIff(env, ops, i, p);
    case EditNote(p, _) =>
      ProtectedIff(env, p);
      ClaimedIff(env, ops, i, p);
    case RestructureBody(p, _) =>
      ProtectedIff(env, p);
      ClaimedIff(env, ops, i, p);
    case CreateDirectory(_, _) =>
    case MoveNote(p, d, _) =>
      ClaimedIff(env, ops, i, d);
      AmbiguousSays(env, fs, p);
      PlannedSays(env, ops, i, Parent(d));
    case AddAliases(_) =>
  }

  lemma PlannedSays(env: Env, ops: seq<Op>, i: nat, p: Path)
    requires i <= |ops|
    ensures PlannedBefore(env, ops, i, p) <==>
              exists j | 0 <= j < i :: ops[j].CreateDirectory? && !(env.system <= ops[j].path) && ops[j].path == p
  {
  }

  /** The errors name exactly the operations there is an objection to: those that are not clean. */
  ghost predicate Reports(env: Env, fs: FS, ops: seq<Op>, errors: seq<nat>)
    requires forall i | 0 <= i < |ops| :: Validated(ops[i])
  {
    && (forall i: nat | i < |ops| :: i in errors <==> !OpClean(env, fs, ops, i))
    && (forall i: nat | i < |ops| :: i in errors <==> Objection(env, fs, ops, i))
  }

  /** `_preflight_operations`: the operations it reports, by index. The three sets it accumulates say
      exactly what the earlier operations of the list have planned. */
  method Preflight(env: Env, fs: FS, ops: seq<Op>) returns (errors: seq<nat>)
    requires forall i | 0 <= i < |ops| :: Validated(ops[i])
    ensures Reports(env, fs, ops, errors)
    ensures errors == [] <==> Clean(env, fs, ops)
  {
    hide WriteAllowed, Ambiguous, Objection;
    errors := [];
    var planned: set<Path> := {};
    var destinations: set<Path> := {};
    var writes: set<Path> := {};
    for i := 0 to |ops|
      invariant forall p :: p in writes <==> WrittenBefore(ops, i, p)
      invariant forall p :: p in destinations <==> LandedBefore(env, ops, i, p)
      invariant forall p :: p in planned <==> PlannedBefore(env, ops, i, p)
      invariant forall k | 0 <= k < |errors| :: errors[k] < i
      invariant forall k: nat | k < i :: k in errors <==> !OpClean(env, fs, ops, k)
    {
      var op := ops[i];
      var bad := false;
      match op {
        case WriteFile(p, content, overwrite, _) =>
          bad := !WriteAllowed(env, p) || p in writes || p in destinations || (fs.Exists(p) && !overwrite)
              || (p == env.AgentDir() + ["schema.json"] && !env.schemaGuard(content));
          writes := writes + {p};
        case EditNote(p, _) =>
          bad := !WriteAllowed(env, p) || p in writes || p in destinations
              || Under(p, env.system) || p !in fs.files;
          writes := writes + {p};
        case RestructureBody(p, _) =>
          bad := !WriteAllowed(env, p) || p in writes || p in destinations
              || Under(p, env.system) || p !in fs.files;
          writes := writes + {p};
        case CreateDirectory(p, failIfExists) =>
          if Under(p, env.system) {
            bad := true;
          } else {
            bad := p in fs.files || (p in fs.dirs && failIfExists);
            planned := planned + {p};
          }
        case MoveNote(p, d, updateLinks) =>
          if Under(p, env.system) || Under(d, env.system) {
            bad := true;
          } else {
            bad := p !in fs.files || fs.Exists(d) || d in destinations || d in writes
                || (Parent(d) !in fs.dirs && Parent(d) !in planned)
                || (updateLinks && Ambiguous(env, fs, p));
            destinations := destinations + {d};
          }
        case AddAliases(_) =>
      }
      if bad { errors := errors + [i]; }
    }
    hide OpClean;
    forall i: nat | i < |ops| ensures OpClean(env, fs, ops, i) <==> !Objection(env, fs, ops, i) { CleanIff(env, fs, ops, i); }
    if errors != [] { assert errors[0] in errors; }
  }

  // ---- execution, one operation at a time ----

  /** Applied: done. Refused: an error is reported and the run goes on. Raised: the run stops here. */
  datatype Status = Applied | Refused | Raised

  /** Every folder on the way down to `p`, `p` included. */
  function Ancestry(p: Path): set<Path> {
    set i | 0 <= i <= |p| :: p[..i]
  }

  /** A file sits where a folder of `p` is needed. */
  predicate Blocked(fs: FS, p: Path) {
    exists i | 0 <= i <= |p| :: p[..i] in fs.files
  }

  /** `atomic_write_text`, after `mkdir(parents=True)` of the parent. */
  function WriteText(fs: FS, p: Path, text: string): (FS, Status)
    requires p != []
  {
    if p in fs.dirs || Blocked(fs, Parent(p)) then (fs, Raised)
    else (FS(fs.files[p := text], fs.dirs + Ancestry(Parent(p))), Applied)
  }

  function ApplyWrite(env: Env, fs: FS, p: Path, content: string, overwrite: bool, merge: bool): (FS, Status)
    requires p != []
  {
    if !WriteAllowed(env, p) || (fs.Exists(p) && !overwrite) then (fs, Refused)
    else if fs.Exists(p) && merge then
      if p !in fs.files then (fs, Raised)
      else match GeneratedRegion.Merge(fs.files[p], content)
        case None => (fs, Raised)
        case Some(merged) => WriteText(fs, p, merged)
    else WriteText(fs, p, content)
  }

  /** The three YAML-backed edits share their shape: refuse, or replace the note's text. */
  function ApplyEdit(env: Env, fs: FS, p: Path, result: Edited): (FS, Status)
    requires p != []
  {
    if Under(p, env.system) || !fs.Exists(p) then (fs, Refused)
    else if p !in fs.files then (fs, Raised)
    else match result
      case Failed => (fs, Refused)
      case NewText(text) => WriteText(fs, p, text)
  }

  function TextAt(fs: FS, p: Path): string {
    if p in fs.files then fs.files[p] else ""
  }

  function ApplyMkdir(fs: FS, p: Path, failIfExists: bool): (FS, Status) {
    if Blocked(fs, p) || (p in fs.dirs && failIfExists) then (fs, Raised)
    else (fs.(dirs := fs.dirs + Ancestry(p)), Applied)
  }

  /** The notes whose links a move rewrites. */
  predicate Rewritable(env: Env, p: Path) {
    IsMarkdown(p) && ".git" !in p && !Under(p, env.system)
  }

  function Retargeting(s: Path, d: Path): Wikilinks.Retarget
    requires MovePath(s) && MovePath(d)
  {
    Wikilinks.Retarget(Key(s), Key(d), Stem(s), Stem(d))
  }

  function Rewritten(env: Env, p: Path, text: string, r: Wikilinks.Retarget): string {
    if Rewritable(env, p) then Wikilinks.RewriteLinks(text, r) else text
  }

  /** `source.replace(destination)`. */
  function Renamed(files: map<Path, string>, s: Path, d: Path): map<Path, string>
    requires s in files
  {
    (files - {s})[d := files[s]]
  }

  function RewriteAll(env: Env, files: map<Path, string>, r: Wikilinks.Retarget): map<Path, string> {
    map p | p in files :: Rewritten(env, p, files[p], r)
  }

  function ApplyMove(env: Env, fs: FS, s: Path, d: Path, updateLinks: bool): (FS, Status)
    requires MovePath(s) && MovePath(d)
  {
    if s !in fs.files || Parent(d) !in fs.dirs || d in fs.dirs then (fs, Raised)
    else
      var renamed := Renamed(fs.files, s, d);
      (fs.(files := if updateLinks then RewriteAll(env, renamed, Retargeting(s, d)) else renamed), Applied)
  }

  function ApplyAliases(env: Env, fs: FS, result: Edited): (FS, Status) {
    var p := env.ConfigFile();
    if p in fs.dirs then (fs, Refused)   // reading a folder is an OSError, reported as an error
    else match result
      case Failed => (fs, Refused)
      case NewText(text) => WriteText(fs, p, text)
  }

  function Apply(env: Env, fs: FS, op: Op): (FS, Status)
    requires Validated(op)
  {
    match op
    case WriteFile(p, content, overwrite, merge) => ApplyWrite(env, fs, p, content, overwrite, merge)
    case EditNote(p, edit) => ApplyEdit(env, fs, p, edit(TextAt(fs, p)))
    case RestructureBody(p, body) =>
      ApplyEdit(env, fs, p,
        match Refinement.Restructure(TextAt(fs, p), body, env.budget, env.yamlOk)
        case None => Failed
        case Some(text) => NewText(text))
    case CreateDirectory(p, failIfExists) => ApplyMkdir(fs, p, failIfExists)
    case MoveNote(s, d, updateLinks) => ApplyMove(env, fs, s, d, updateLinks)
    case AddAliases(aliases) => ApplyAliases(env, fs, aliases(TextAt(fs, env.ConfigFile())))
  }

  /** The vault after the first `k` operations, and whether one of them stopped the run. */
  function StateAt(env: Env, fs: FS, ops: seq<Op>, k: nat): (FS, bool)
    requires k <= |ops| && forall i | 0 <= i < |ops| :: Validated(ops[i])
  {
    if k == 0 then (fs, false)
    else
      var (before, stopped) := StateAt(env, fs, ops, k - 1);
      if stopped then (before, true)
      else var (after, status) := Apply(env, before, ops[k - 1]); (after, status == Raised)
  }

  // ---- where each original note is ----

  /** The destination of the first move of `p` among the first `k` operations, or `p` itself. */
  function Place(ops: seq<Op>, k: nat, p: Path): Path
    requires k <= |ops|
  {
    if k == 0 then p
    else
      var before := Place(ops, k - 1, p);
      if before == p && ops[k - 1].MoveNote? && ops[k - 1].path == p then ops[k - 1].destination else before
  }

  predicate Targets(env: Env, op: Op, p: Path) {
    (WritesNote(op) && op.path == p) || (op.AddAliases? && p == env.ConfigFile())
  }

  /** One of the first `k` operations names the note as an edit target while it is still at `p`. */
  predicate EditedBy(env: Env, ops: seq<Op>, k: nat, p: Path)
    requires k <= |ops|
  {
    k > 0 && (EditedBy(env, ops, k - 1, p) || (Place(ops, k - 1, p) == p && Targets(env, ops[k - 1], p)))
  }

  /** The original text after the link rewriting of the first `k` operations. */
  function Relinked(env: Env, ops: seq<Op>, k: nat, p: Path, text: string): string
    requires k <= |ops| && forall i | 0 <= i < |ops| :: Validated(ops[i])
  {
    if k == 0 then text
    else
      var before := Relinked(env, ops, k - 1, p, text);
      var op := ops[k - 1];
      if op.MoveNote? && op.updateLinks
      then Rewritten(env, Place(ops, k, p), before, Retargeting(op.path, op.destination)) else before
  }

  /** Every original file is in its place, and holds its own text up to link targets unless an
      operation named it as an edit target. */
  ghost predicate Kept(env: Env, start: FS, ops: seq<Op>, k: nat, fs: FS)
    requires k <= |ops| && forall i | 0 <= i < |ops| :: Validated(ops[i])
  {
    forall p | p in start.files ::
      && Place(ops, k, p) in fs.files
      && (!EditedBy(env, ops, k, p) ==> fs.files[Place(ops, k, p)] == Relinked(env, ops, k, p, start.files[p]))
  }

  /** Every file present is an original, was written, or is where a move put it. */
  ghost predicate Accounted(env: Env, start: FS, ops: seq<Op>, k: nat, fs: FS)
    requires k <= |ops|
  {
    forall q | q in fs.files ::
      q in start.files || WrittenBefore(ops, k, q) || LandedBefore(env, ops, k, q) || q == env.ConfigFile()
  }

  // ---- no note is lost ----

  lemma LandedGrows(env: Env, ops: seq<Op>, k: nat, p: Path)
    requires k < |ops|
    ensures LandedBefore(env, ops, k, p) ==> LandedBefore(env, ops, k + 1, p)
    ensures WrittenBefore(ops, k, p) ==> WrittenBefore(ops, k + 1, p)
  {
  }

  /** A note that is not at its own path is where a move put it, on a path that was free at the start. */
  lemma {:induction false} PlaceIsOwnOrLanded(env: Env, start: FS, ops: seq<Op>, k: nat, p: Path)
    requires Clean(env, start, ops) && k <= |ops| && p in start.files
    ensures var h := Place(ops, k, p);
            h == p || (LandedBefore(env, ops, k, h) && !start.Exists(h) && !Under(h, env.system))
  {
    if k > 0 {
      PlaceIsOwnOrLanded(env, start, ops, k - 1, p);
      var before := Place(ops, k - 1, p);
      if before == p && ops[k - 1].MoveNote? && ops[k - 1].path == p {
        assert OpClean(env, start, ops, k - 1);
        assert LandedBefore(env, ops, k, ops[k - 1].destination);
      } else if before != p {
        LandedGrows(env, ops, k - 1, before);
      }
    }
  }

  /** No two original notes ever share a place. */
  lemma {:induction false} PlacesDistinct(env: Env, start: FS, ops: seq<Op>, k: nat, p: Path, q: Path)
    requires Clean(env, start, ops) && k <= |ops| && p in start.files && q in start.files && p != q
    ensures Place(ops, k, p) != Place(ops, k, q)
  {
    if k > 0 {
      PlacesDistinct(env, start, ops, k - 1, p, q);
      PlaceIsOwnOrLanded(env, start, ops, k - 1, p);
      PlaceIsOwnOrLanded(env, start, ops, k - 1, q);
      assert OpClean(env, start, ops, k - 1);
    }
  }

  /** Only a move with that source changes where a note is. */
  lemma PlaceAfter(ops: seq<Op>, k: nat, p: Path)
    requires k < |ops|
    ensures !ops[k].MoveNote? ==> Place(ops, k + 1, p) == Place(ops, k, p)
    ensures ops[k].MoveNote? && ops[k].path != p ==> Place(ops, k + 1, p) == Place(ops, k, p)
    ensures Place(ops, k, p) != p ==> Place(ops, k + 1, p) == Place(ops, k, p)
    ensures ops[k].MoveNote? && ops[k].path == p && Place(ops, k, p) == p ==> Place(ops, k + 1, p) == ops[k].destination
  {
  }

  /** Writing one file that the operation names keeps every other note as it was. */
  lemma WriteKeeps(env: Env, start: FS, ops: seq<Op>, k: nat, fs: FS, q: Path, text: string, after: FS)
    requires Clean(env, start, ops) && k < |ops| && Kept(env, start, ops, k, fs) && Accounted(env, start, ops, k, fs)
    requires Targets(env, ops[k], q) && after.files == fs.files[q := text]
    ensures Kept(env, start, ops, k + 1, after) && Accounted(env, start, ops, k + 1, after)
  {
    assert OpClean(env, start, ops, k);
    assert !ops[k].MoveNote?;
    assert !LandedBefore(env, ops, k, q) by {
      if ops[k].AddAliases? {
        assert Under(q, env.system);
      }
    }
    forall p | p in start.files
      ensures Place(ops, k + 1, p) in after.files
      ensures !EditedBy(env, ops, k + 1, p) ==>
                after.files[Place(ops, k + 1, p)] == Relinked(env, ops, k + 1, p, start.files[p])
    {
      PlaceAfter(ops, k, p);
      PlaceIsOwnOrLanded(env, start, ops, k, p);
      if Place(ops, k, p) == q { assert EditedBy(env, ops, k + 1, p); }
    }
    forall f | f in after.files
      ensures f in start.files || WrittenBefore(ops, k + 1, f) || LandedBefore(env, ops, k + 1, f) || f == env.ConfigFile()
    {
      if f != q { LandedGrows(env, ops, k, f); }
    }
  }

  /** An operation that changes no file and is not a move keeps every note as it was. */
  lemma IdleKeeps(env: Env, start: FS, ops: seq<Op>, k: nat, fs: FS, after: FS)
    requires Clean(env, start, ops) && k < |ops| && Kept(env, start, ops, k, fs) && Accounted(env, start, ops, k, fs)
    requires !ops[k].MoveNote? && after.files == fs.files
    ensures Kept(env, start, ops, k + 1, after) && Accounted(env, start, ops, k + 1, after)
  {
    forall p | p in start.files
      ensures Place(ops, k + 1, p) in after.files
      ensures !EditedBy(env, ops, k + 1, p) ==>
                after.files[Place(ops, k + 1, p)] == Relinked(env, ops, k + 1, p, start.files[p])
    {
      PlaceAfter(ops, k, p);
    }
    forall f | f in after.files
      ensures f in start.files || WrittenBefore(ops, k + 1, f) || LandedBefore(env, ops, k + 1, f) || f == env.ConfigFile()
    {
      LandedGrows(env, ops, k, f);
    }
  }

  /** No move ever lands on an occupied path. */
  lemma MoveLandsOnFreePath(env: Env, start: FS, ops: seq<Op>, k: nat, fs: FS)
    requires Clean(env, start, ops) && k < |ops| && ops[k].MoveNote? && Accounted(env, start, ops, k, fs)
    ensures ops[k].destination !in fs.files
  {
    assert OpClean(env, start, ops, k);
    assert Under(env.ConfigFile(), env.system);
  }

  /** Where a note is once the file of move `k` has been renamed. */
  lemma RenameKeeps(env: Env, start: FS, ops: seq<Op>, k: nat, fs: FS, p: Path)
    requires Clean(env, start, ops) && k < |ops| && ops[k].MoveNote? && ops[k].path in fs.files
    requires Kept(env, start, ops, k, fs) && Accounted(env, start, ops, k, fs) && p in start.files
    ensures var renamed := Renamed(fs.files, ops[k].path, ops[k].destination);
            Place(ops, k + 1, p) in renamed && renamed[Place(ops, k + 1, p)] == fs.files[Place(ops, k, p)]
  {
    MoveLandsOnFreePath(env, start, ops, k, fs);
    assert OpClean(env, start, ops, k);
    PlaceAfter(ops, k, p);
    PlaceIsOwnOrLanded(env, start, ops, k, p);
  }

  lemma EditedAfterMove(env: Env, ops: seq<Op>, k: nat, p: Path)
    requires k < |ops| && ops[k].MoveNote?
    ensures EditedBy(env, ops, k + 1, p) == EditedBy(env, ops, k, p)
  {
  }

  lemma MoveKeeps(env: Env, start: FS, ops: seq<Op>, k: nat, fs: FS)
    requires Clean(env, start, ops) && k < |ops| && ops[k].MoveNote?
    requires Kept(env, start, ops, k, fs) && Accounted(env, start, ops, k, fs)
    requires Apply(env, fs, ops[k]).1 == Applied
    ensures Kept(env, start, ops, k + 1, Apply(env, fs, ops[k]).0)
    ensures Accounted(env, start, ops, k + 1, Apply(env, fs, ops[k]).0)
  {
    var after := Apply(env, fs, ops[k]).0;
    var s, d := ops[k].path, ops[k].destination;
    forall p | p in start.files
      ensures Place(ops, k + 1, p) in after.files
      ensures !EditedBy(env, ops, k + 1, p) ==>
                after.files[Place(ops, k + 1, p)] == Relinked(env, ops, k + 1, p, start.files[p])
    {
      RenameKeeps(env, start, ops, k, fs, p);
      EditedAfterMove(env, ops, k, p);
    }
    forall f | f in after.files
      ensures f in start.files || WrittenBefore(ops, k + 1, f) || LandedBefore(env, ops, k + 1, f) || f == env.ConfigFile()
    {
      if f == d {
        assert OpClean(env, start, ops, k);
        assert LandedBefore(env, ops, k + 1, d);
      } else {
        LandedGrows(env, ops, k, f);
      }
    }
  }

  lemma OnlyAppliedChanges(env: Env, fs: FS, op: Op)
    requires Validated(op)
    ensures Apply(env, fs, op).1 != Applied ==> Apply(env, fs, op).0 == fs
    ensures op.MoveNote? ==> Apply(env, fs, op).1 != Refused
  {
  }

  /** The files of `after` are those of `fs`, but for the one at `q`. */
  predicate OnlyAt(fs: FS, after: FS, q: Path) {
    after.files == fs.files || (q in after.files && after.files == fs.files[q := after.files[q]])
  }

  lemma WriteOnlyAt(env: Env, fs: FS, p: Path, content: string, overwrite: bool, merge: bool)
    requires p != []
    ensures OnlyAt(fs, ApplyWrite(env, fs, p, content, overwrite, merge).0, p)
  {
    hide WriteAllowed, Ancestry, Blocked, GeneratedRegion.Merge;
  }

  lemma EditOnlyAt(env: Env, fs: FS, p: Path, result: Edited)
    requires p != []
    ensures OnlyAt(fs, ApplyEdit(env, fs, p, result).0, p)
  {
    hide Ancestry, Blocked;
  }

  lemma AliasesOnlyAt(env: Env, fs: FS, result: Edited)
    ensures OnlyAt(fs, ApplyAliases(env, fs, result).0, env.ConfigFile())
  {
    hide Ancestry, Blocked;
  }

  lemma MkdirFiles(fs: FS, p: Path, failIfExists: bool)
    ensures ApplyMkdir(fs, p, failIfExists).0.files == fs.files
  {
    hide Ancestry, Blocked;
  }

  /** What an operation other than a move changes: at most the one file it names. */
  lemma WriteShape(env: Env, fs: FS, op: Op) returns (q: Path)
    requires Validated(op) && !op.MoveNote?
    ensures var after := Apply(env, fs, op).0;
            after.files == fs.files
            || (q in after.files && Targets(env, op, q) && after.files == fs.files[q := after.files[q]])
  {
    q := if op.AddAliases? then env.ConfigFile() else op.path;
    hide ApplyWrite, ApplyEdit, ApplyAliases, ApplyMkdir, Refinement.Restructure, IsMarkdown;
    match op
    case WriteFile(p, content, overwrite, merge) => WriteOnlyAt(env, fs, p, content, overwrite, merge);
    case EditNote(p, edit) => EditOnlyAt(env, fs, p, edit(TextAt(fs, p)));
    case RestructureBody(p, body) =>
      var text := Refinement.Restructure(TextAt(fs, p), body, env.budget, env.yamlOk);
      EditOnlyAt(env, fs, p, if text.None? then Failed else NewText(text.value));
    case CreateDirectory(p, failIfExists) => MkdirFiles(fs, p, failIfExists);
    case AddAliases(aliases) => AliasesOnlyAt(env, fs, aliases(TextAt(fs, env.ConfigFile())));
  }

  lemma StepKeeps(env: Env, start: FS, ops: seq<Op>, k: nat, fs: FS)
    requires Clean(env, start, ops) && k < |ops|
    requires Kept(env, start, ops, k, fs) && Accounted(env, start, ops, k, fs)
    requires Apply(env, fs, ops[k]).1 != Raised
    ensures Kept(env, start, ops, k + 1, Apply(env, fs, ops[k]).0)
    ensures Accounted(env, start, ops, k + 1, Apply(env, fs, ops[k]).0)
  {
    hide OpClean, Kept, Accounted;
    var (after, status) := Apply(env, fs, ops[k]);
    OnlyAppliedChanges(env, fs, ops[k]);
    if ops[k].MoveNote? {
      MoveKeeps(env, start, ops, k, fs);
    } else {
      var q := WriteShape(env, fs, ops[k]);
      hide Apply;
      if after.files == fs.files {
        IdleKeeps(env, start, ops, k, fs, after);
      } else {
        WriteKeeps(env, start, ops, k, fs, q, after.files[q], after);
      }
    }
  }

  /** For every proposal that passes preflight, at every point between two of its operations: each
      original note is in its place, unchanged but for link targets unless an operation edits it. */
  lemma {:induction false} NothingLost(env: Env, start: FS, ops: seq<Op>, k: nat)
    requires Clean(env, start, ops) && k <= |ops| && !StateAt(env, start, ops, k).1
    ensures Kept(env, start, ops, k, StateAt(env, start, ops, k).0)
    ensures Accounted(env, start, ops, k, StateAt(env, start, ops, k).0)
  {
    hide OpClean, Apply;
    if k > 0 {
      NothingLost(env, start, ops, k - 1);
      StepKeeps(env, start, ops, k - 1, StateAt(env, start, ops, k - 1).0);
    }
  }

  /** A run that stops part-way stops in a state where nothing is lost either. */
  lemma {:induction false} NothingLostWhenStopped(env: Env, start: FS, ops: seq<Op>, k: nat) returns (at: nat)
    requires Clean(env, start, ops) && k <= |ops|
    ensures at <= k && Kept(env, start, ops, at, StateAt(env, start, ops, k).0)
    ensures at < k <==> StateAt(env, start, ops, k).1
  {
    hide OpClean, Kept;
    if !StateAt(env, start, ops, k).1 {
      NothingLost(env, start, ops, k);
      at := k;
    } else {
      at := NothingLostWhenStopped(env, start, ops, k - 1);
      OnlyAppliedChanges(env, StateAt(env, start, ops, k - 1).0, ops[k - 1]);
    }
  }

  // ---- states inside a move: files are rewritten one at a time ----

  /** The move's file is renamed and any of the rewritable notes may already be rewritten. */
  ghost predicate MidMove(env: Env, fs: FS, op: Op, h: FS)
    requires op.MoveNote? && Validated(op)
  {
    && op.path in fs.files && op.updateLinks
    && (var renamed := Renamed(fs.files, op.path, op.destination);
        var r := Retargeting(op.path, op.destination);
        && h.files.Keys == renamed.Keys
        && forall p | p in renamed :: h.files[p] == renamed[p] || h.files[p] == Rewritten(env, p, renamed[p], r))
  }

  /** Inside move `k` each original note is where the move leaves it, with or without the rewriting
      of that move. */
  ghost predicate KeptMidMove(env: Env, start: FS, ops: seq<Op>, k: nat, h: FS)
    requires k < |ops| && forall i | 0 <= i < |ops| :: Validated(ops[i])
  {
    forall p | p in start.files ::
      && Place(ops, k + 1, p) in h.files
      && (!EditedBy(env, ops, k + 1, p) ==>
            || h.files[Place(ops, k + 1, p)] == Relinked(env, ops, k, p, start.files[p])
            || h.files[Place(ops, k + 1, p)] == Relinked(env, ops, k + 1, p, start.files[p]))
  }

  lemma MidMoveKeeps(env: Env, start: FS, ops: seq<Op>, k: nat, fs: FS, h: FS)
    requires Clean(env, start, ops) && k < |ops| && ops[k].MoveNote?
    requires Kept(env, start, ops, k, fs) && Accounted(env, start, ops, k, fs)
    requires MidMove(env, fs, ops[k], h)
    ensures KeptMidMove(env, start, ops, k, h)
  {
    forall p | p in start.files
      ensures Place(ops, k + 1, p) in h.files
      ensures !EditedBy(env, ops, k + 1, p) ==>
            || h.files[Place(ops, k + 1, p)] == Relinked(env, ops, k, p, start.files[p])
            || h.files[Place(ops, k + 1, p)] == Relinked(env, ops, k + 1, p, start.files[p])
    {
      RenameKeeps(env, start, ops, k, fs, p);
      EditedAfterMove(env, ops, k, p);
    }
  }

  /** At some point of the list, between operations or inside a move, nothing is lost. */
  ghost predicate Safe(env: Env, start: FS, ops: seq<Op>, h: FS)
    requires forall i | 0 <= i < |ops| :: Validated(ops[i])
  {
    exists k: nat :: SafeAt(env, start, ops, k, h)
  }

  ghost predicate SafeAt(env: Env, start: FS, ops: seq<Op>, k: nat, h: FS)
    requires forall i | 0 <= i < |ops| :: Validated(ops[i])
  {
    k <= |ops| && (Kept(env, start, ops, k, h) || (k < |ops| && KeptMidMove(env, start, ops, k, h)))
  }

  // ---- the shape of a directory tree ----

  /** A directory tree: every folder on the way to a file or directory is a directory, and nothing is
      both a file and a directory. */
  ghost predicate IsTree(fs: FS) {
    && [] in fs.dirs && fs.files.Keys !! fs.dirs
    && (forall p, i: nat | p in fs.dirs && i <= |p| :: p[..i] in fs.dirs)
    && (forall p, i: nat | p in fs.files && i < |p| :: p[..i] in fs.dirs)
  }

  lemma AncestryClosed(dirs: set<Path>, p: Path)
    requires forall q, i: nat | q in dirs && i <= |q| :: q[..i] in dirs
    ensures forall q, i: nat | q in dirs + Ancestry(p) && i <= |q| :: q[..i] in dirs + Ancestry(p)
    ensures p in Ancestry(p)
  {
    forall q, i: nat | q in dirs + Ancestry(p) && i <= |q| ensures q[..i] in dirs + Ancestry(p) {
      if q in Ancestry(p) {
        var n :| 0 <= n <= |p| && q == p[..n];
        assert q[..i] == p[..i];
      }
    }
    assert p == p[..|p|];
  }

  lemma WriteTextTree(fs: FS, p: Path, text: string)
    requires IsTree(fs) && p != []
    ensures IsTree(WriteText(fs, p, text).0) && fs.dirs <= WriteText(fs, p, text).0.dirs
  {
    if WriteText(fs, p, text).1 == Applied {
      var after := WriteText(fs, p, text).0;
      AncestryClosed(fs.dirs, Parent(p));
      forall q, i: nat | q in after.files && i < |q| ensures q[..i] in after.dirs {
        if q == p { assert q[..i] == Parent(p)[..i]; }
      }
      assert forall q | q in Ancestry(Parent(p)) :: |q| < |p| && q !in fs.files;
    }
  }

  lemma MkdirTree(fs: FS, p: Path, failIfExists: bool)
    requires IsTree(fs)
    ensures IsTree(ApplyMkdir(fs, p, failIfExists).0) && fs.dirs <= ApplyMkdir(fs, p, failIfExists).0.dirs
    ensures ApplyMkdir(fs, p, failIfExists).1 == Applied ==> p in ApplyMkdir(fs, p, failIfExists).0.dirs
  {
    AncestryClosed(fs.dirs, p);
  }

  lemma MoveTree(env: Env, fs: FS, s: Path, d: Path, updateLinks: bool)
    requires IsTree(fs) && MovePath(s) && MovePath(d)
    ensures IsTree(ApplyMove(env, fs, s, d, updateLinks).0) && ApplyMove(env, fs, s, d, updateLinks).0.dirs == fs.dirs
  {
    hide Retargeting, Rewritten, MovePath;
    var (after, status) := ApplyMove(env, fs, s, d, updateLinks);
    if status == Applied {
      forall q, i: nat | q in after.files && i < |q| ensures q[..i] in after.dirs {
        if q == d { assert q[..i] == Parent(d)[..i]; }
      }
    }
  }

  /** Every operation keeps the vault a directory tree and removes no directory. */
  lemma ApplyTree(env: Env, fs: FS, op: Op)
    requires IsTree(fs) && Validated(op)
    ensures IsTree(Apply(env, fs, op).0) && fs.dirs <= Apply(env, fs, op).0.dirs
  {
    hide IsTree, WriteText, ApplyMove, ApplyMkdir;
    match op
    case WriteFile(p, content, _, _) =>
      WriteTextTree(fs, p, content);
      if p in fs.files && GeneratedRegion.Merge(fs.files[p], content).Some? {
        WriteTextTree(fs, p, GeneratedRegion.Merge(fs.files[p], content).value);
      }
    case EditNote(p, edit) =>
      if edit(TextAt(fs, p)).NewText? { WriteTextTree(fs, p, edit(TextAt(fs, p)).text); }
    case RestructureBody(p, body) =>
      var text := Refinement.Restructure(TextAt(fs, p), body, env.budget, env.yamlOk);
      if text.Some? { WriteTextTree(fs, p, text.value); }
    case CreateDirectory(p, failIfExists) => MkdirTree(fs, p, failIfExists);
    case MoveNote(s, d, updateLinks) => MoveTree(env, fs, s, d, updateLinks);
    case AddAliases(aliases) =>
      var result := aliases(TextAt(fs, env.ConfigFile()));
      if result.NewText? { WriteTextTree(fs, env.ConfigFile(), result.text); }
  }

  lemma {:induction false} StateTree(env: Env, start: FS, ops: seq<Op>, k: nat)
    requires IsTree(start) && k <= |ops| && forall i | 0 <= i < |ops| :: Validated(ops[i])
    ensures IsTree(StateAt(env, start, ops, k).0) && start.dirs <= StateAt(env, start, ops, k).0.dirs
  {
    hide IsTree, Apply;
    if k > 0 {
      StateTree(env, start, ops, k - 1);
      ApplyTree(env, StateAt(env, start, ops, k - 1).0, ops[k - 1]);
    }
  }

  /** Directories stay from any point of a run to a later one. */
  lemma {:induction false} DirsStay(env: Env, start: FS, ops: seq<Op>, j: nat, k: nat)
    requires IsTree(start) && j <= k <= |ops| && forall i | 0 <= i < |ops| :: Validated(ops[i])
    ensures StateAt(env, start, ops, j).0.dirs <= StateAt(env, start, ops, k).0.dirs
    ensures StateAt(env, start, ops, j).1 ==> StateAt(env, start, ops, k).1
  {
    hide IsTree, Apply;
    if j < k {
      DirsStay(env, start, ops, j, k - 1);
      StateTree(env, start, ops, k - 1);
      ApplyTree(env, StateAt(env, start, ops, k - 1).0, ops[k - 1]);
    }
  }
}
