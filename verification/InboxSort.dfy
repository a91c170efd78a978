/** The inbox sort from routing to the last file moved (`build_inbox_sort_proposal` and its run). */
module InboxSort {
  import opened Text
  import opened VaultPaths
  import opened VaultLayout
  import opened Routing
  import opened Proposals
  import opened LinkIntegrity
  import Wikilinks

  // ---- which notes are selected ----

  /** A note found in the inbox: whether its frontmatter parses, what it says, what the ledger and the
      model say of it, and whether automation may move it. */
  datatype InboxNote = InboxNote(
    path: Path, readable: bool, meta: Meta, recorded: Option<Path>, choice: Choice, automationSafe: bool)

  datatype Run = Run(layout: Layout, mode: Mode, fs: FS, maxNotes: nat, safeOnly: bool)

  datatype Planned = Planned(source: Path, dir: Path) {
    function Destination(): Path
      requires source != []
    {
      dir + [Name(source)]
    }
  }

  /** The folder a note is to be moved to, when the loop does not skip it. */
  function Picked(r: Run, n: InboxNote): Option<Path>
    requires IsNote(n.path)
  {
    if !n.readable then None
    else match Decide(r.layout, r.mode, Stem(n.path), n.meta, n.recorded, n.choice)
      case Review(_) => None
      case Dest(dir) =>
        if r.safeOnly && !n.automationSafe then None
        else if Planned(n.path, dir).Destination() == n.path then None
        else if r.fs.Exists(Planned(n.path, dir).Destination()) then None
        else Some(dir)
  }

  /** The selection after the first `k` notes: the picked ones, up to the limit. */
  function Selection(r: Run, notes: seq<InboxNote>, k: nat): seq<Planned>
    requires k <= |notes| && forall i | 0 <= i < |notes| :: IsNote(notes[i].path)
  {
    if k == 0 then []
    else
      var before := Selection(r, notes, k - 1);
      if |before| >= r.maxNotes || Picked(r, notes[k - 1]).None? then before
      else before + [Planned(notes[k - 1].path, Picked(r, notes[k - 1]).value)]
  }

  /** A note may be moved to a folder: it can be read, routing decides for the folder, automation may move
      the note if it must, and neither the note itself nor anything else is at its destination. */
  ghost predicate Movable(r: Run, n: InboxNote, dir: Path)
    requires IsNote(n.path)
  {
    var name := n.path[|n.path| - 1];
    && n.readable && Decide(r.layout, r.mode, name[..|name| - 3], n.meta, n.recorded, n.choice) == Dest(dir)
    && (r.safeOnly ==> n.automationSafe)
    && dir + [name] != n.path && dir + [name] !in r.fs.files && dir + [name] !in r.fs.dirs
  }

  /** The notes among the first `k` that may be moved somewhere. */
  ghost function MovableTo(r: Run, notes: seq<InboxNote>, k: nat): set<nat>
    requires k <= |notes| && forall i | 0 <= i < |notes| :: IsNote(notes[i].path)
  {
    set i: nat | i < k && exists dir :: Movable(r, notes[i], dir)
  }

  lemma PickedIff(r: Run, n: InboxNote, dir: Path)
    requires IsNote(n.path)
    ensures Picked(r, n) == Some(dir) <==> Movable(r, n, dir)
  {
    hide Decide;
  }

  lemma MovableStep(r: Run, notes: seq<InboxNote>, k: nat)
    requires 0 < k <= |notes| && forall i | 0 <= i < |notes| :: IsNote(notes[i].path)
    ensures MovableTo(r, notes, k) == MovableTo(r, notes, k - 1) + if Picked(r, notes[k - 1]).Some? then {k - 1} else {}
  {
    forall dir ensures Picked(r, notes[k - 1]) == Some(dir) <==> Movable(r, notes[k - 1], dir) { PickedIff(r, notes[k - 1], dir); }
    hide Picked, Movable, IsNote;
    if Picked(r, notes[k - 1]).Some? { assert Movable(r, notes[k - 1], Picked(r, notes[k - 1]).value); }
  }

  lemma {:induction false} SelectionSize(r: Run, notes: seq<InboxNote>, k: nat)
    requires k <= |notes| && forall i | 0 <= i < |notes| :: IsNote(notes[i].path)
    ensures |Selection(r, notes, k)| == if |MovableTo(r, notes, k)| < r.maxNotes then |MovableTo(r, notes, k)| else r.maxNotes
  {
    hide Picked, Movable, IsNote;
    if k == 0 {
      assert MovableTo(r, notes, 0) == {};
    } else {
      SelectionSize(r, notes, k - 1);
      MovableStep(r, notes, k);
      assert k - 1 !in MovableTo(r, notes, k - 1);
    }
  }

  /** Note `i` is planned as `p`, and fewer notes than the limit before it may be moved. */
  ghost predicate Chosen(r: Run, notes: seq<InboxNote>, i: nat, p: Planned)
    requires i < |notes| && forall i | 0 <= i < |notes| :: IsNote(notes[i].path)
  {
    p.source == notes[i].path && Movable(r, notes[i], p.dir) && |MovableTo(r, notes, i)| < r.maxNotes
  }

  /** The selection is exactly the first `maxNotes` of the notes that may be moved, each with its folder. */
  lemma {:induction false} SelectionIs(r: Run, notes: seq<InboxNote>, k: nat, p: Planned)
    requires k <= |notes| && forall i | 0 <= i < |notes| :: IsNote(notes[i].path)
    ensures p in Selection(r, notes, k) <==> exists i: nat :: i < k && Chosen(r, notes, i, p)
  {
    if k > 0 {
      SelectionIs(r, notes, k - 1, p);
      SelectionSize(r, notes, k - 1);
      PickedIff(r, notes[k - 1], p.dir);
      SelectionStep(r, notes, k, p);
      hide Picked, Movable, IsNote, MovableTo, Selection;
      assert Chosen(r, notes, k - 1, p) <==>
        |Selection(r, notes, k - 1)| < r.maxNotes && Picked(r, notes[k - 1]) == Some(p.dir) && p.source == notes[k - 1].path;
      hide Chosen;
    }
  }

  lemma SelectionStep(r: Run, notes: seq<InboxNote>, k: nat, p: Planned)
    requires 0 < k <= |notes| && forall i | 0 <= i < |notes| :: IsNote(notes[i].path)
    ensures p in Selection(r, notes, k) <==>
      || p in Selection(r, notes, k - 1)
      || (|Selection(r, notes, k - 1)| < r.maxNotes && Picked(r, notes[k - 1]) == Some(p.dir) && p.source == notes[k - 1].path)
  {
    hide Picked, IsNote;
  }

  // ---- the proposal ----

  /** The operations carry out the plan in order: each planned note has its move, after the creation
      of its folder and of nothing but missing folders on the way to one. */
  ghost predicate Built(fs: FS, ops: seq<Op>, plan: seq<Planned>, at: seq<nat>, owner: seq<nat>) {
    && |at| == |plan| && |owner| == |ops|
    && (forall i: nat | i < |plan| ::
          && plan[i].source != [] && at[i] < |ops| && owner[at[i]] == i
          && ops[at[i]] == MoveNote(plan[i].source, plan[i].Destination(), true)
          && (fs.Exists(plan[i].dir) || Creates(ops, at[i], plan[i].dir)))
    && (forall k: nat | k < |ops| ::
          && owner[k] < |plan| && k <= at[owner[k]]
          && (k < at[owner[k]] ==>
                && ops[k].CreateDirectory? && !ops[k].failIfExists && ops[k].path != []
                && ops[k].path <= plan[owner[k]].dir && !fs.Exists(ops[k].path)))
  }

  predicate Creates(ops: seq<Op>, k: nat, p: Path)
    requires k <= |ops|
  {
    exists j | 0 <= j < k :: ops[j].CreateDirectory? && ops[j].path == p
  }

  /** No folder is created twice, and those created for one note come parents first. */
  ghost predicate InOrder(ops: seq<Op>, owner: seq<nat>) {
    && |owner| == |ops|
    && forall i, j | 0 <= i < j < |ops| && ops[i].CreateDirectory? && ops[j].CreateDirectory? ::
         ops[i].path != ops[j].path && (owner[i] == owner[j] ==> ops[i].path <= ops[j].path)
  }

  /** The folders of `dir`, itself first, that do not exist yet. */
  method MissingFolders(fs: FS, dir: Path) returns (missing: seq<Path>)
    requires dir != []
    ensures forall i | 0 <= i < |missing| :: missing[i] != [] && missing[i] <= dir && !fs.Exists(missing[i])
    ensures fs.Exists(dir) || dir in missing
    ensures forall i, j | 0 <= i < j < |missing| :: missing[j] < missing[i]
  {
    missing := [];
    var current := dir;
    while current != [] && !fs.Exists(current)
      invariant current <= dir
      invariant forall i | 0 <= i < |missing| :: missing[i] != [] && missing[i] <= dir && !fs.Exists(missing[i])
      invariant current != dir ==> dir in missing
      invariant forall i, j | 0 <= i < j < |missing| :: missing[j] < missing[i]
      invariant forall i | 0 <= i < |missing| :: current < missing[i]
      decreases |current|
    {
      missing := missing + [current];
      current := Parent(current);
    }
  }

  /** Every planned folder has its creation among the operations. */
  ghost predicate AllCreated(ops: seq<Op>, dirs: set<Path>) {
    forall p | p in dirs :: Creates(ops, |ops|, p)
  }

  /** The creations that come before the move of the next note. */
  method EmitFolders(
    fs: FS, before: seq<Op>, ghost plan: seq<Planned>, ghost at: seq<nat>, ghost owned: seq<nat>, planned: set<Path>, dir: Path)
    returns (ops: seq<Op>, ghost owner: seq<nat>, plannedDirs: set<Path>, ghost reach: Path)
    requires Built(fs, before, plan, at, owned) && Tracked(before, owned, planned, |plan|, []) && AllCreated(before, planned)
    requires dir != []
    ensures Emitted(fs, ops, plan, at, owner, |before|, dir) && Tracked(ops, owner, plannedDirs, |plan|, reach)
    ensures AllCreated(ops, plannedDirs) && (fs.Exists(dir) || Creates(ops, |ops|, dir))
  {
    ops, owner, plannedDirs, reach := before, owned, planned, [];
    var missing := MissingFolders(fs, dir);
    EmitStart(fs, ops, plan, at, owner, dir);
    hide Built, Emitted, Tracked, Creates;
    for j := |missing| downto 0
      invariant Emitted(fs, ops, plan, at, owner, |before|, dir) && AllCreated(ops, plannedDirs)
      invariant forall m | j <= m < |missing| :: missing[m] in plannedDirs
      invariant Tracked(ops, owner, plannedDirs, |plan|, reach) && reach == if j < |missing| then missing[j] else []
    {
      TrackMkdir(ops, owner, plannedDirs, |plan|, reach, missing[j]);
      if missing[j] !in plannedDirs {
        EmitMkdir(fs, ops, plan, at, owner, |before|, dir, missing[j]);
        CreatesGrows(ops, CreateDirectory(missing[j], false), plannedDirs);
        ops := ops + [CreateDirectory(missing[j], false)];
        owner := owner + [|plan|];
        plannedDirs := plannedDirs + {missing[j]};
      }
      reach := missing[j];
    }
  }

  /** `build_inbox_sort_proposal`. */
  method BuildProposal(r: Run, notes: seq<InboxNote>)
    returns (ops: seq<Op>, ghost plan: seq<Planned>, ghost at: seq<nat>, ghost owner: seq<nat>)
    requires forall i | 0 <= i < |notes| :: IsNote(notes[i].path)
    requires ValidLayout(r.layout) && NormalFolders(r.layout)
    ensures plan == Selection(r, notes, |notes|)
    ensures Built(r.fs, ops, plan, at, owner) && InOrder(ops, owner)
  {
    hide Picked, ValidLayout, NormalFolders;
    ops, plan, at, owner := [], [], [], [];
    assert Built(r.fs, ops, plan, at, owner);
    assert Tracked(ops, owner, {}, 0, []);
    assert AllCreated(ops, {});
    hide Built, Emitted, Tracked, AllCreated, Creates;
    var plannedDirs: set<Path> := {};
    var selected := 0;
    for k := 0 to |notes|
      invariant plan == Selection(r, notes, k) && selected == |plan|
      invariant Built(r.fs, ops, plan, at, owner) && Tracked(ops, owner, plannedDirs, |plan|, [])
      invariant AllCreated(ops, plannedDirs)
    {
      if selected < r.maxNotes && Picked(r, notes[k]).Some? {
        var dir, source := Picked(r, notes[k]).value, notes[k].path;
        PickedDirNonEmpty(r, notes[k]);
        ghost var first := |ops|;
        ghost var reach: Path;
        ops, owner, plannedDirs, reach := EmitFolders(r.fs, ops, plan, at, owner, plannedDirs, dir);
        var move := MoveNote(source, dir + [Name(source)], true);
        EmitMove(r.fs, ops, plan, at, owner, first, dir, source);
        TrackMove(ops, owner, plannedDirs, |plan|, reach, move);
        CreatesGrows(ops, move, plannedDirs);
        at := at + [|ops|];
        ops := ops + [move];
        owner := owner + [|plan|];
        plan := plan + [Planned(source, dir)];
        selected := selected + 1;
      }
    }
    TrackedInOrder(ops, owner, plannedDirs, |plan|);
  }

  /** While note `i` is emitted: the folders created so far are `dirs`, each once, and those created for
      note `i` lie on the way to `reach`. */
  ghost predicate Tracked(ops: seq<Op>, owner: seq<nat>, dirs: set<Path>, i: nat, reach: Path) {
    && InOrder(ops, owner)
    && (forall k | 0 <= k < |ops| :: owner[k] <= i && (ops[k].CreateDirectory? ==> ops[k].path in dirs))
    && (forall k | 0 <= k < |ops| && owner[k] == i && ops[k].CreateDirectory? :: ops[k].path <= reach && reach != [])
  }

  lemma TrackedInOrder(ops: seq<Op>, owner: seq<nat>, dirs: set<Path>, i: nat)
    requires Tracked(ops, owner, dirs, i, [])
    ensures InOrder(ops, owner)
  {
  }

  lemma TrackMkdir(ops: seq<Op>, owner: seq<nat>, dirs: set<Path>, i: nat, reach: Path, p: Path)
    requires Tracked(ops, owner, dirs, i, reach) && reach <= p && p != []
    ensures p in dirs ==> Tracked(ops, owner, dirs, i, p)
    ensures p !in dirs ==> Tracked(ops + [CreateDirectory(p, false)], owner + [i], dirs + {p}, i, p)
  {
    var after, owner' := ops + [CreateDirectory(p, false)], owner + [i];
    assert forall k | 0 <= k < |ops| :: after[k] == ops[k] && owner'[k] == owner[k];
    assert forall k | 0 <= k < |ops| && owner[k] == i && ops[k].CreateDirectory? :: ops[k].path <= p;
  }

  lemma TrackMove(ops: seq<Op>, owner: seq<nat>, dirs: set<Path>, i: nat, reach: Path, move: Op)
    requires Tracked(ops, owner, dirs, i, reach) && move.MoveNote?
    ensures Tracked(ops + [move], owner + [i], dirs, i + 1, [])
  {
    var after, owner' := ops + [move], owner + [i];
    assert forall k | 0 <= k < |ops| :: after[k] == ops[k] && owner'[k] == owner[k];
  }

  lemma PickedDirNonEmpty(r: Run, n: InboxNote)
    requires IsNote(n.path) && ValidLayout(r.layout) && NormalFolders(r.layout) && Picked(r, n).Some?
    ensures Fileable(r.layout, Picked(r, n).value) && Picked(r, n).value != []
  {
    hide ValidLayout, NormalFolders;
    DecisionLands(r.layout, r.mode, Stem(n.path), n.meta, n.recorded, n.choice);
  }

  /** While the folders of the next note are emitted: the plan so far is built, followed by folder
      creations for `dir`. */
  ghost predicate Emitted(
    fs: FS, ops: seq<Op>, plan: seq<Planned>, at: seq<nat>, owner: seq<nat>, first: nat, dir: Path)
  {
    && first <= |ops| == |owner| && |at| == |plan|
    && Built(fs, ops[..first], plan, at, owner[..first])
    && forall k: nat | first <= k < |ops| ::
         && owner[k] == |plan| && ops[k].CreateDirectory? && !ops[k].failIfExists && ops[k].path != []
         && ops[k].path <= dir && !fs.Exists(ops[k].path)
  }

  lemma EmitStart(fs: FS, ops: seq<Op>, plan: seq<Planned>, at: seq<nat>, owner: seq<nat>, dir: Path)
    requires Built(fs, ops, plan, at, owner)
    ensures Emitted(fs, ops, plan, at, owner, |ops|, dir)
  {
    assert ops[..|ops|] == ops && owner[..|ops|] == owner;
  }

  lemma EmitMkdir(
    fs: FS, ops: seq<Op>, plan: seq<Planned>, at: seq<nat>, owner: seq<nat>, first: nat, dir: Path, p: Path)
    requires Emitted(fs, ops, plan, at, owner, first, dir) && p != [] && p <= dir && !fs.Exists(p)
    ensures Emitted(fs, ops + [CreateDirectory(p, false)], plan, at, owner + [|plan|], first, dir)
  {
    hide Built;
    assert (ops + [CreateDirectory(p, false)])[..first] == ops[..first];
    assert (owner + [|plan|])[..first] == owner[..first];
  }

  lemma CreatesGrows(ops: seq<Op>, op: Op, dirs: set<Path>)
    requires AllCreated(ops, dirs)
    ensures AllCreated(ops + [op], dirs) && (op.CreateDirectory? ==> AllCreated(ops + [op], dirs + {op.path}))
  {
    var after := ops + [op];
    forall p | p in dirs ensures Creates(after, |after|, p) {
      var j :| 0 <= j < |ops| && ops[j].CreateDirectory? && ops[j].path == p;
      assert after[j] == ops[j];
    }
    assert after[|ops|] == op;
  }

  lemma EmitMove(
    fs: FS, ops: seq<Op>, plan: seq<Planned>, at: seq<nat>, owner: seq<nat>, first: nat, dir: Path, source: Path)
    requires Emitted(fs, ops, plan, at, owner, first, dir) && source != []
    requires fs.Exists(dir) || Creates(ops, |ops|, dir)
    ensures Built(fs, ops + [MoveNote(source, dir + [Name(source)], true)], plan + [Planned(source, dir)],
                  at + [|ops|], owner + [|plan|])
  {
    var after := ops + [MoveNote(source, dir + [Name(source)], true)];
    var plan', at', owner' := plan + [Planned(source, dir)], at + [|ops|], owner + [|plan|];
    forall i: nat | i < |plan'|
      ensures plan'[i].source != [] && at'[i] < |after| && owner'[at'[i]] == i
      ensures after[at'[i]] == MoveNote(plan'[i].source, plan'[i].Destination(), true)
      ensures fs.Exists(plan'[i].dir) || Creates(after, at'[i], plan'[i].dir)
    {
      if i < |plan| {
        assert at[i] < first;
        if !fs.Exists(plan[i].dir) {
          var j :| 0 <= j < at[i] && ops[..first][j].CreateDirectory? && ops[..first][j].path == plan[i].dir;
          assert after[j] == ops[..first][j];
        }
      } else if !fs.Exists(dir) {
        var j :| 0 <= j < |ops| && ops[j].CreateDirectory? && ops[j].path == dir;
        assert after[j] == ops[j];
      }
    }
    forall k: nat | k < |after|
      ensures owner'[k] < |plan'| && k <= at'[owner'[k]]
      ensures k < at'[owner'[k]] ==>
                && after[k].CreateDirectory? && !after[k].failIfExists && after[k].path != []
                && after[k].path <= plan'[owner'[k]].dir && !fs.Exists(after[k].path)
    {
      if k < first { assert owner[..first][k] == owner[k] && ops[..first][k] == ops[k]; }
    }
  }

  // ---- what makes the proposal go through ----

  /** What the selection guarantees of one planned move. */
  ghost predicate PlannedOk(l: Layout, fs: FS, p: Planned) {
    && IsNote(p.source) && p.source in fs.files && Under(p.source, l.inbox)
    && Fileable(l, p.dir) && !fs.Exists(p.Destination())
  }

  /** What the selection guarantees of a plan. */
  ghost predicate Sortable(env: Env, l: Layout, fs: FS, plan: seq<Planned>) {
    && env.system == l.system && ValidLayout(l) && NormalFolders(l) && IsTree(fs)
    && (forall i: nat | i < |plan| :: PlannedOk(l, fs, plan[i]))
    && (forall i: nat, j: nat | i < j < |plan| :: plan[i].source != plan[j].source)
  }

  /** The inbox as the scan lists it: distinct notes that exist, under the inbox folder. */
  ghost predicate Inbox(r: Run, notes: seq<InboxNote>) {
    && (forall i: nat | i < |notes| ::
          IsNote(notes[i].path) && notes[i].path in r.fs.files && Under(notes[i].path, r.layout.inbox))
    && (forall i: nat, j: nat | i < j < |notes| :: notes[i].path != notes[j].path)
  }

  lemma PickedIsFree(r: Run, n: InboxNote)
    requires IsNote(n.path) && Picked(r, n).Some?
    ensures !r.fs.Exists(Planned(n.path, Picked(r, n).value).Destination())
  {
  }

  lemma PickedOk(r: Run, n: InboxNote)
    requires IsNote(n.path) && n.path in r.fs.files && Under(n.path, r.layout.inbox) && Picked(r, n).Some?
    requires ValidLayout(r.layout) && NormalFolders(r.layout)
    ensures PlannedOk(r.layout, r.fs, Planned(n.path, Picked(r, n).value))
  {
    PickedDirNonEmpty(r, n);
    PickedIsFree(r, n);
  }

  lemma {:induction false} SelectionSortable(env: Env, r: Run, notes: seq<InboxNote>, k: nat)
    requires Inbox(r, notes) && k <= |notes| && env.system == r.layout.system
    requires ValidLayout(r.layout) && NormalFolders(r.layout) && IsTree(r.fs)
    ensures Sortable(env, r.layout, r.fs, Selection(r, notes, k))
    ensures forall p: Planned | p in Selection(r, notes, k) :: exists i: nat :: i < k && notes[i].path == p.source
    ensures |Selection(r, notes, k)| <= r.maxNotes
  {
    hide ValidLayout, NormalFolders, IsTree, PlannedOk, Picked, IsNote;
    if k > 0 {
      SelectionSortable(env, r, notes, k - 1);
      var plan, before := Selection(r, notes, k), Selection(r, notes, k - 1);
      if plan != before {
        PickedOk(r, notes[k - 1]);
        forall i: nat, j: nat | i < j < |plan| ensures plan[i].source != plan[j].source {
          if j == |before| { assert before[i] in before; }
        }
      }
    }
  }

  ghost predicate Distinct(plan: seq<Planned>)
    requires forall i: nat | i < |plan| :: plan[i].source != []
  {
    forall i: nat, j: nat | i < j < |plan| :: plan[i].Destination() != plan[j].Destination()
  }

  ghost predicate Unambiguous(env: Env, fs: FS, plan: seq<Planned>) {
    forall i: nat | i < |plan| :: IsNote(plan[i].source) && !Ambiguous(env, fs, plan[i].source)
  }

  /** No file sits, or is put, where a folder on the way to a destination is needed. */
  ghost predicate Clear(fs: FS, plan: seq<Planned>)
    requires forall i: nat | i < |plan| :: plan[i].source != []
  {
    && (forall i: nat, n: nat | i < |plan| && n <= |plan[i].dir| :: plan[i].dir[..n] !in fs.files)
    && (forall i: nat, j: nat, n: nat | i < |plan| && j < |plan| && n <= |plan[i].dir| ::
          plan[i].dir[..n] != plan[j].Destination())
  }

  lemma OutsideSystem(l: Layout, dir: Path, p: Path)
    requires Fileable(l, dir) && p <= dir
    ensures !Under(p, l.system) && !Under(p, l.inbox)
  {
    assert l.system <= p ==> l.system <= dir;
    assert l.inbox <= p ==> l.inbox <= dir;
  }

  lemma DestinationOutside(l: Layout, p: Planned)
    requires Fileable(l, p.dir) && IsNote(p.source)
    ensures IsNote(p.Destination()) && Parent(p.Destination()) == p.dir && |p.Destination()| > 1
    ensures Apart(p.Destination(), l.system) && Apart(p.Destination(), l.inbox) && Apart(p.Destination(), l.dashboards)
  {
    var d := p.Destination();
    assert Parent(d) == p.dir && Name(d) == Name(p.source);
    ApartBelow(p.dir, l.system, d);
    ApartBelow(p.dir, l.inbox, d);
    ApartBelow(p.dir, l.dashboards, d);
    assert forall i | 0 <= i < |p.source| :: p.source[i] != "";
  }

  lemma SourceOutsideSystem(l: Layout, source: Path)
    requires ValidLayout(l) && Under(source, l.inbox)
    ensures !Under(source, l.system)
  {
    hide ContentOk, DomainsOk, CustomsOk;
    ApartBelow(l.inbox, l.system, source);
  }

  /** The built operations are well formed, and none of them writes a note. */
  lemma BuiltValidated(env: Env, l: Layout, fs: FS, ops: seq<Op>, plan: seq<Planned>, at: seq<nat>, owner: seq<nat>, k: nat)
    requires Sortable(env, l, fs, plan) && Built(fs, ops, plan, at, owner) && k < |ops|
    ensures Validated(ops[k]) && (ops[k].CreateDirectory? || ops[k].MoveNote?)
    ensures ops[k].MoveNote? <==> k == at[owner[k]]
    ensures !TouchesSystem(env, ops[k])
  {
    hide ValidLayout, NormalFolders, IsTree, Fileable, Apart, IsNote;
    var i := owner[k];
    if k == at[i] {
      assert ops[k] == MoveNote(plan[i].source, plan[i].Destination(), true);
      DestinationOutside(l, plan[i]);
      SourceOutsideSystem(l, plan[i].source);
      MoveValidated(l, plan[i]);
    } else {
      OutsideSystem(l, plan[i].dir, ops[k].path);
      PrefixNormal(l, plan[i].dir, ops[k].path);
    }
  }

  lemma MoveValidated(l: Layout, p: Planned)
    requires Fileable(l, p.dir) && IsNote(p.source) && Under(p.source, l.inbox)
    ensures MovePath(p.source) && MovePath(p.Destination()) && p.source != p.Destination()
    ensures !Under(p.Destination(), l.system)
  {
    DestinationOutside(l, p);
  }

  lemma PrefixNormal(l: Layout, dir: Path, p: Path)
    requires Fileable(l, dir) && p <= dir && p != []
    ensures Normal(p)
  {
  }

  // ---- passing the preflight ----

  /** The proposal is clean when destinations are distinct, no link is ambiguous and the way is clear. */
  lemma BuiltClean(env: Env, l: Layout, fs: FS, ops: seq<Op>, plan: seq<Planned>, at: seq<nat>, owner: seq<nat>)
    requires Sortable(env, l, fs, plan) && Built(fs, ops, plan, at, owner)
    requires Distinct(plan) && Unambiguous(env, fs, plan) && Clear(fs, plan)
    ensures Clean(env, fs, ops)
  {
    hide OpClean, Sortable, Built;
    forall k: nat | k < |ops| ensures Validated(ops[k]) && OpClean(env, fs, ops, k) {
      BuiltValidated(env, l, fs, ops, plan, at, owner, k);
      BuiltOpClean(env, l, fs, ops, plan, at, owner, k);
    }
  }

  lemma BuiltOpClean(
    env: Env, l: Layout, fs: FS, ops: seq<Op>, plan: seq<Planned>, at: seq<nat>, owner: seq<nat>, k: nat)
    requires Sortable(env, l, fs, plan) && Built(fs, ops, plan, at, owner) && k < |ops|
    requires Distinct(plan) && Unambiguous(env, fs, plan) && Clear(fs, plan) && Validated(ops[k])
    ensures OpClean(env, fs, ops, k)
  {
    hide ValidLayout, NormalFolders, IsTree, Fileable, IsNote, Ambiguous, Apart, WriteAllowed;
    var i := owner[k];
    BuiltValidated(env, l, fs, ops, plan, at, owner, k);
    if k == at[i] {
      var d := plan[i].Destination();
      DestinationOutside(l, plan[i]);
      assert ops[k] == MoveNote(plan[i].source, d, true);
      NoEarlierLanding(env, l, fs, ops, plan, at, owner, i);
      assert plan[i].dir[..|plan[i].dir|] == plan[i].dir;
      ParentPlanned(env, l, fs, ops, plan, at, owner, i);
    } else {
      assert ops[k].CreateDirectory? && !fs.Exists(ops[k].path);
    }
  }

  lemma NoEarlierLanding(
    env: Env, l: Layout, fs: FS, ops: seq<Op>, plan: seq<Planned>, at: seq<nat>, owner: seq<nat>, i: nat)
    requires Sortable(env, l, fs, plan) && Built(fs, ops, plan, at, owner) && i < |plan| && Distinct(plan)
    ensures !LandedBefore(env, ops, at[i], plan[i].Destination()) && !WrittenBefore(ops, at[i], plan[i].Destination())
  {
    hide Sortable;
    forall j: nat | j < at[i]
      ensures ops[j].MoveNote? ==> ops[j].destination != plan[i].Destination()
      ensures !WritesNote(ops[j])
    {
      BuiltValidated(env, l, fs, ops, plan, at, owner, j);
      if ops[j].MoveNote? {
        assert ops[at[owner[j]]] == MoveNote(plan[owner[j]].source, plan[owner[j]].Destination(), true);
        assert owner[j] != i;
      }
    }
  }

  lemma ParentPlanned(
    env: Env, l: Layout, fs: FS, ops: seq<Op>, plan: seq<Planned>, at: seq<nat>, owner: seq<nat>, i: nat)
    requires Sortable(env, l, fs, plan) && Built(fs, ops, plan, at, owner) && i < |plan|
    requires plan[i].dir !in fs.files
    ensures plan[i].dir in fs.dirs || PlannedBefore(env, ops, at[i], plan[i].dir)
  {
    hide Sortable;
    if plan[i].dir !in fs.dirs {
      var j :| 0 <= j < at[i] && ops[j].CreateDirectory? && ops[j].path == plan[i].dir;
      BuiltValidated(env, l, fs, ops, plan, at, owner, j);
    }
  }

  // ---- running to the end ----

  /** The directories present are the old ones and those on the way to planned folders. */
  ghost predicate DirsBound(fs: FS, plan: seq<Planned>, now: FS) {
    forall p | p in now.dirs :: p in fs.dirs || exists i: nat :: i < |plan| && p <= plan[i].dir
  }

  lemma EarlierMoveIsOther(
    env: Env, l: Layout, fs: FS, ops: seq<Op>, plan: seq<Planned>, at: seq<nat>, owner: seq<nat>, i: nat, k: nat)
    requires Sortable(env, l, fs, plan) && Built(fs, ops, plan, at, owner) && i < |plan| && k < at[i]
    requires ops[k].MoveNote?
    ensures ops[k].path != plan[i].source
  {
    BuiltValidated(env, l, fs, ops, plan, at, owner, k);
    hide ValidLayout, NormalFolders, IsTree, PlannedOk;
    var j := owner[k];
    assert ops[at[j]] == MoveNote(plan[j].source, plan[j].Destination(), true);
    assert i != j;
    assert if i < j then plan[i].source != plan[j].source else plan[j].source != plan[i].source;
  }

  /** A path no move of the first `k` operations starts from is its own place. */
  lemma {:induction false} UnmovedPlace(ops: seq<Op>, k: nat, p: Path)
    requires k <= |ops| && forall j: nat | j < k && ops[j].MoveNote? :: ops[j].path != p
    ensures Place(ops, k, p) == p
  {
    if k > 0 { UnmovedPlace(ops, k - 1, p); }
  }

  /** A note that has been moved stays where the move put it. */
  lemma {:induction false} MovedPlace(ops: seq<Op>, m: nat, k: nat, p: Path)
    requires m < k <= |ops| && ops[m].MoveNote? && ops[m].path == p && ops[m].destination != p
    requires Place(ops, m, p) == p
    ensures Place(ops, k, p) == ops[m].destination
  {
    if k > m + 1 {
      MovedPlace(ops, m, k - 1, p);
      PlaceAfter(ops, k - 1, p);
    }
  }

  /** The source of a planned move is still in place when its turn comes. */
  lemma SourceInPlace(
    env: Env, l: Layout, fs: FS, ops: seq<Op>, plan: seq<Planned>, at: seq<nat>, owner: seq<nat>, i: nat)
    requires Sortable(env, l, fs, plan) && Built(fs, ops, plan, at, owner) && i < |plan|
    ensures at[i] < |ops| && Place(ops, at[i], plan[i].source) == plan[i].source
  {
    hide Sortable;
    assert at[i] < |ops|;
    forall j: nat | j < at[i] && ops[j].MoveNote? ensures ops[j].path != plan[i].source {
      EarlierMoveIsOther(env, l, fs, ops, plan, at, owner, i, j);
    }
    UnmovedPlace(ops, at[i], plan[i].source);
  }

  /** With a clear way, no file is ever present where a folder of the plan is needed. */
  lemma WayStaysClear(
    env: Env, l: Layout, fs: FS, ops: seq<Op>, plan: seq<Planned>, at: seq<nat>, owner: seq<nat>, k: nat, now: FS,
    i: nat, n: nat)
    requires Sortable(env, l, fs, plan) && Built(fs, ops, plan, at, owner) && k <= |ops|
    requires Clear(fs, plan) && Accounted(env, fs, ops, k, now) && i < |plan| && n <= |plan[i].dir|
    ensures plan[i].dir[..n] !in now.files
  {
    var p := plan[i].dir[..n];
    hide ValidLayout, NormalFolders, IsTree, Fileable, IsNote, Apart;
    OutsideSystem(l, plan[i].dir, p);
    assert Under(env.ConfigFile(), env.system);
    forall j: nat | j < k
      ensures !WritesNote(ops[j]) && (ops[j].MoveNote? ==> ops[j].destination != p)
    {
      BuiltValidated(env, l, fs, ops, plan, at, owner, j);
      if ops[j].MoveNote? {
        assert ops[at[owner[j]]] == MoveNote(plan[owner[j]].source, plan[owner[j]].Destination(), true);
      }
    }
  }

  /** Folders created so far are there. */
  predicate CreatedSoFar(ops: seq<Op>, k: nat, now: FS)
    requires k <= |ops|
  {
    forall j: nat | j < k && ops[j].CreateDirectory? :: ops[j].path in now.dirs
  }

  lemma AllValidated(
    env: Env, l: Layout, fs: FS, ops: seq<Op>, plan: seq<Planned>, at: seq<nat>, owner: seq<nat>)
    requires Sortable(env, l, fs, plan) && Built(fs, ops, plan, at, owner)
    ensures forall k | 0 <= k < |ops| :: Validated(ops[k])
  {
    hide Sortable, Built;
    forall k: nat | k < |ops| ensures Validated(ops[k]) {
      BuiltValidated(env, l, fs, ops, plan, at, owner, k);
    }
  }

  /** A planned move finds its note, its folder, and no folder of the same name in the way. */
  lemma MoveGoes(
    env: Env, l: Layout, fs: FS, ops: seq<Op>, plan: seq<Planned>, at: seq<nat>, owner: seq<nat>, i: nat, now: FS)
    requires Sortable(env, l, fs, plan) && Built(fs, ops, plan, at, owner) && i < |plan| && Clear(fs, plan)
    requires plan[i].source in now.files && fs.dirs <= now.dirs && DirsBound(fs, plan, now)
    requires CreatedSoFar(ops, at[i], now) && Validated(ops[at[i]])
    ensures Apply(env, now, ops[at[i]]).1 == Applied && Apply(env, now, ops[at[i]]).0.dirs == now.dirs
  {
    hide ValidLayout, NormalFolders, IsTree, Fileable, IsNote, Apart, Rewritten, MovePath;
    var d := plan[i].Destination();
    DestinationOutside(l, plan[i]);
    assert ops[at[i]] == MoveNote(plan[i].source, d, true);
    assert plan[i].dir in now.dirs by {
      assert plan[i].dir[..|plan[i].dir|] == plan[i].dir;
      if plan[i].dir !in fs.dirs {
        var j :| 0 <= j < at[i] && ops[j].CreateDirectory? && ops[j].path == plan[i].dir;
      }
    }
    forall j: nat | j < |plan| ensures !(d <= plan[j].dir) {
      if |d| <= |plan[j].dir| { assert plan[j].dir[..|d|] != d; }
    }
  }

  lemma MkdirGoes(
    env: Env, l: Layout, fs: FS, ops: seq<Op>, plan: seq<Planned>, at: seq<nat>, owner: seq<nat>, k: nat, now: FS)
    requires Sortable(env, l, fs, plan) && Built(fs, ops, plan, at, owner) && k < |ops| && ops[k].CreateDirectory?
    requires Clear(fs, plan) && Accounted(env, fs, ops, k, now) && DirsBound(fs, plan, now) && Validated(ops[k])
    ensures Apply(env, now, ops[k]).1 == Applied && ops[k].path in Apply(env, now, ops[k]).0.dirs
    ensures now.dirs <= Apply(env, now, ops[k]).0.dirs && DirsBound(fs, plan, Apply(env, now, ops[k]).0)
  {
    hide ValidLayout, NormalFolders, IsTree, Fileable, IsNote, Apart;
    var i := owner[k];
    var p := ops[k].path;
    assert p <= plan[i].dir;
    forall n | 0 <= n <= |p| ensures p[..n] !in now.files {
      assert p[..n] == plan[i].dir[..n];
      WayStaysClear(env, l, fs, ops, plan, at, owner, k, now, i, n);
    }
    var after := Apply(env, now, ops[k]).0;
    assert p[..|p|] == p;
    forall q | q in after.dirs && q !in now.dirs ensures q <= plan[i].dir {
      var n :| 0 <= n <= |p| && q == p[..n];
    }
  }

  /** What holds as long as no operation has been stopped by a file in its way. */
  ghost predicate OnTrack(fs: FS, ops: seq<Op>, plan: seq<Planned>, k: nat, now: FS)
    requires k <= |ops|
  {
    fs.dirs <= now.dirs && DirsBound(fs, plan, now) && CreatedSoFar(ops, k, now)
  }

  /** The planned move or folder an operation belongs to. */
  lemma OwnerOf(fs: FS, ops: seq<Op>, plan: seq<Planned>, at: seq<nat>, owner: seq<nat>, k: nat) returns (i: nat)
    requires Built(fs, ops, plan, at, owner) && k < |ops|
    ensures |at| == |plan| && |owner| == |ops| && i == owner[k] < |plan| && k <= at[i] < |ops|
  {
    i := owner[k];
  }

  /** Before operation `k` of a run that has not been stopped. */
  ghost predicate Ready(env: Env, fs: FS, ops: seq<Op>, plan: seq<Planned>, k: nat, now: FS) {
    && k < |ops| && (forall i | 0 <= i < |ops| :: Validated(ops[i]))
    && Kept(env, fs, ops, k, now) && Accounted(env, fs, ops, k, now) && OnTrack(fs, ops, plan, k, now)
  }

  ghost predicate Goes(env: Env, fs: FS, ops: seq<Op>, plan: seq<Planned>, k: nat, now: FS) {
    && k < |ops| && Validated(ops[k])
    && Apply(env, now, ops[k]).1 == Applied && OnTrack(fs, ops, plan, k + 1, Apply(env, now, ops[k]).0)
  }

  predicate MovesAt(at: seq<nat>, owner: seq<nat>, k: nat) {
    k < |owner| && owner[k] < |at| && k == at[owner[k]]
  }

  lemma MoveStep(
    env: Env, l: Layout, fs: FS, ops: seq<Op>, plan: seq<Planned>, at: seq<nat>, owner: seq<nat>, k: nat, now: FS)
    requires Sortable(env, l, fs, plan) && Built(fs, ops, plan, at, owner) && Clear(fs, plan)
    requires Ready(env, fs, ops, plan, k, now) && k < |ops| && MovesAt(at, owner, k)
    ensures Goes(env, fs, ops, plan, k, now)
  {
    hide Clear, Ready, Goes, Kept, Accounted, OnTrack, Apply, ValidLayout, NormalFolders, IsTree, Fileable, IsNote;
    var i := OwnerOf(fs, ops, plan, at, owner, k);
    SourceInPlace(env, l, fs, ops, plan, at, owner, i);
    assert ops[k].MoveNote? && PlannedOk(l, fs, plan[i]);
    StillThere(env, fs, ops, plan, k, now, plan[i].source);
    MoveRuns(env, l, fs, ops, plan, at, owner, i, now);
  }

  lemma StillThere(env: Env, fs: FS, ops: seq<Op>, plan: seq<Planned>, k: nat, now: FS, p: Path)
    requires Ready(env, fs, ops, plan, k, now) && p in fs.files && Place(ops, k, p) == p
    ensures p in now.files
  {
    hide Validated;
  }

  lemma MoveRuns(
    env: Env, l: Layout, fs: FS, ops: seq<Op>, plan: seq<Planned>, at: seq<nat>, owner: seq<nat>, i: nat, now: FS)
    requires Sortable(env, l, fs, plan) && Built(fs, ops, plan, at, owner) && Clear(fs, plan)
    requires i < |plan| && i < |at| && at[i] < |ops| && ops[at[i]].MoveNote? && Ready(env, fs, ops, plan, at[i], now)
    requires plan[i].source in now.files
    ensures Goes(env, fs, ops, plan, at[i], now)
  {
    hide Sortable, Built, Apply, Clear, Accounted, Kept;
    MoveGoes(env, l, fs, ops, plan, at, owner, i, now);
  }

  lemma MkdirStep(
    env: Env, l: Layout, fs: FS, ops: seq<Op>, plan: seq<Planned>, at: seq<nat>, owner: seq<nat>, k: nat, now: FS)
    requires Sortable(env, l, fs, plan) && Built(fs, ops, plan, at, owner) && Clear(fs, plan)
    requires Ready(env, fs, ops, plan, k, now) && k < |ops| && !MovesAt(at, owner, k)
    ensures Goes(env, fs, ops, plan, k, now)
  {
    hide Sortable, Clear, Kept, Accounted, Apply;
    var i := OwnerOf(fs, ops, plan, at, owner, k);
    assert ops[k].CreateDirectory?;
    hide Built;
    MkdirGoes(env, l, fs, ops, plan, at, owner, k, now);
    MkdirTracks(env, fs, ops, plan, k, now);
  }

  lemma MkdirTracks(env: Env, fs: FS, ops: seq<Op>, plan: seq<Planned>, k: nat, now: FS)
    requires k < |ops| && Validated(ops[k]) && ops[k].CreateDirectory? && OnTrack(fs, ops, plan, k, now)
    requires var after := Apply(env, now, ops[k]).0;
             ops[k].path in after.dirs && now.dirs <= after.dirs && DirsBound(fs, plan, after)
    ensures OnTrack(fs, ops, plan, k + 1, Apply(env, now, ops[k]).0)
  {
    hide Apply;
  }

  lemma StepGoesThrough(
    env: Env, l: Layout, fs: FS, ops: seq<Op>, plan: seq<Planned>, at: seq<nat>, owner: seq<nat>, k: nat, now: FS)
    requires Sortable(env, l, fs, plan) && Built(fs, ops, plan, at, owner) && Clear(fs, plan)
    requires Ready(env, fs, ops, plan, k, now)
    ensures Goes(env, fs, ops, plan, k, now)
  {
    assert k < |ops|;
    hide Sortable, Built, Clear, Ready, Goes;
    if MovesAt(at, owner, k) {
      MoveStep(env, l, fs, ops, plan, at, owner, k, now);
    } else {
      MkdirStep(env, l, fs, ops, plan, at, owner, k, now);
    }
  }

  /** When the way is clear, every operation applies. */
  lemma {:induction false} RunGoesThrough(
    env: Env, l: Layout, fs: FS, ops: seq<Op>, plan: seq<Planned>, at: seq<nat>, owner: seq<nat>, k: nat)
    requires Sortable(env, l, fs, plan) && Built(fs, ops, plan, at, owner) && k <= |ops|
    requires Clear(fs, plan) && Clean(env, fs, ops)
    ensures !StateAt(env, fs, ops, k).1 && OnTrack(fs, ops, plan, k, StateAt(env, fs, ops, k).0)
    ensures k < |ops| ==> Goes(env, fs, ops, plan, k, StateAt(env, fs, ops, k).0)
  {
    hide Sortable, Built, OpClean, Apply, Clear, Kept, Accounted;
    if k > 0 { RunGoesThrough(env, l, fs, ops, plan, at, owner, k - 1); }
    if k < |ops| {
      NothingLost(env, fs, ops, k);
      StepGoesThrough(env, l, fs, ops, plan, at, owner, k, StateAt(env, fs, ops, k).0);
    }
  }

  // ---- success, exactly ----

  /** The proposal passes the preflight, and then every operation applies without an error. */
  ghost predicate Succeeds(env: Env, fs: FS, ops: seq<Op>) {
    && Clean(env, fs, ops)
    && !StateAt(env, fs, ops, |ops|).1
    && forall k: nat | k < |ops| :: Apply(env, StateAt(env, fs, ops, k).0, ops[k]).1 == Applied
  }

  /** At the end of a run a selected note's place is its destination. */
  lemma ReachesDestination(
    env: Env, l: Layout, fs: FS, ops: seq<Op>, plan: seq<Planned>, at: seq<nat>, owner: seq<nat>, i: nat)
    requires Sortable(env, l, fs, plan) && Built(fs, ops, plan, at, owner) && i < |plan|
    ensures plan[i].source != [] && Place(ops, |ops|, plan[i].source) == plan[i].Destination()
  {
    assert PlannedOk(l, fs, plan[i]);
    hide Sortable, Place;
    assert ops[at[i]] == MoveNote(plan[i].source, plan[i].Destination(), true);
    SourceInPlace(env, l, fs, ops, plan, at, owner, i);
    MovedPlace(ops, at[i], |ops|, plan[i].source);
  }

  /** A file that is not selected never leaves its place. */
  lemma OthersStay(
    env: Env, l: Layout, fs: FS, ops: seq<Op>, plan: seq<Planned>, at: seq<nat>, owner: seq<nat>, p: Path)
    requires Sortable(env, l, fs, plan) && Built(fs, ops, plan, at, owner)
    requires forall i: nat | i < |plan| :: plan[i].source != p
    ensures Place(ops, |ops|, p) == p
  {
    hide Sortable;
    forall k: nat | k < |ops| && ops[k].MoveNote? ensures ops[k].path != p {
      BuiltValidated(env, l, fs, ops, plan, at, owner, k);
      var i := owner[k];
      assert ops[at[i]] == MoveNote(plan[i].source, plan[i].Destination(), true);
    }
    UnmovedPlace(ops, |ops|, p);
  }

  lemma SuccessDistinct(
    env: Env, l: Layout, fs: FS, ops: seq<Op>, plan: seq<Planned>, at: seq<nat>, owner: seq<nat>, i: nat, j: nat)
    requires Sortable(env, l, fs, plan) && Built(fs, ops, plan, at, owner) && i < |plan| && j < |plan| && i != j
    requires Clean(env, fs, ops)
    ensures plan[i].source != [] && plan[j].source != [] && plan[i].Destination() != plan[j].Destination()
  {
    hide Sortable, OpClean;
    assert ops[at[i]] == MoveNote(plan[i].source, plan[i].Destination(), true);
    assert ops[at[j]] == MoveNote(plan[j].source, plan[j].Destination(), true);
    assert at[i] != at[j];
    LandsElsewhere(env, fs, ops, if at[i] < at[j] then at[i] else at[j], if at[i] < at[j] then at[j] else at[i]);
  }

  /** In a clean list two moves never share a destination. */
  lemma LandsElsewhere(env: Env, fs: FS, ops: seq<Op>, a: nat, b: nat)
    requires a < b < |ops| && Clean(env, fs, ops) && ops[a].MoveNote? && ops[b].MoveNote?
    ensures ops[a].destination != ops[b].destination
  {
    assert OpClean(env, fs, ops, a) && OpClean(env, fs, ops, b);
  }

  lemma SuccessUnambiguous(
    env: Env, l: Layout, fs: FS, ops: seq<Op>, plan: seq<Planned>, at: seq<nat>, owner: seq<nat>, i: nat)
    requires Sortable(env, l, fs, plan) && Built(fs, ops, plan, at, owner) && i < |plan| && Clean(env, fs, ops)
    ensures IsNote(plan[i].source) && !Ambiguous(env, fs, plan[i].source)
  {
    hide Ambiguous;
    assert PlannedOk(l, fs, plan[i]);
    hide Sortable;
    assert ops[at[i]] == MoveNote(plan[i].source, plan[i].Destination(), true);
    assert OpClean(env, fs, ops, at[i]);
  }

  /** After a successful run the planned folder and everything above it is there. */
  lemma WayIsThere(
    env: Env, l: Layout, fs: FS, ops: seq<Op>, plan: seq<Planned>, at: seq<nat>, owner: seq<nat>, i: nat, n: nat)
    requires Sortable(env, l, fs, plan) && Built(fs, ops, plan, at, owner) && i < |plan| && Succeeds(env, fs, ops)
    requires n <= |plan[i].dir| && IsTree(fs)
    ensures var end := StateAt(env, fs, ops, |ops|).0;
            IsTree(end) && plan[i].dir[..n] in end.dirs && plan[i].dir[..n] !in end.files
  {
    var d := plan[i].Destination();
    assert ops[at[i]] == MoveNote(plan[i].source, d, true);
    assert Apply(env, StateAt(env, fs, ops, at[i]).0, ops[at[i]]).1 == Applied;
    assert Parent(d) == plan[i].dir;
    assert plan[i].dir in StateAt(env, fs, ops, at[i]).0.dirs;
    AllValidated(env, l, fs, ops, plan, at, owner);
    DirsStay(env, fs, ops, at[i], |ops|);
    StateTree(env, fs, ops, |ops|);
  }

  lemma SuccessClearOfFiles(
    env: Env, l: Layout, fs: FS, ops: seq<Op>, plan: seq<Planned>, at: seq<nat>, owner: seq<nat>, i: nat, n: nat)
    requires Sortable(env, l, fs, plan) && Built(fs, ops, plan, at, owner) && i < |plan| && Succeeds(env, fs, ops)
    requires n <= |plan[i].dir|
    ensures plan[i].dir[..n] !in fs.files
  {
    var p := plan[i].dir[..n];
    assert PlannedOk(l, fs, plan[i]);
    OutsideSystem(l, plan[i].dir, p);
    forall j: nat | j < |plan| ensures plan[j].source != p { assert PlannedOk(l, fs, plan[j]); }
    OthersStay(env, l, fs, ops, plan, at, owner, p);
    WayIsThere(env, l, fs, ops, plan, at, owner, i, n);
    hide Sortable, Built, IsTree, OpClean;
    NothingLost(env, fs, ops, |ops|);
  }

  lemma SuccessClearOfNotes(
    env: Env, l: Layout, fs: FS, ops: seq<Op>, plan: seq<Planned>, at: seq<nat>, owner: seq<nat>, i: nat, n: nat, j: nat)
    requires Sortable(env, l, fs, plan) && Built(fs, ops, plan, at, owner) && i < |plan| && Succeeds(env, fs, ops)
    requires n <= |plan[i].dir| && j < |plan|
    ensures plan[j].source != [] && plan[i].dir[..n] != plan[j].Destination()
  {
    WayIsThere(env, l, fs, ops, plan, at, owner, i, n);
    ReachesDestination(env, l, fs, ops, plan, at, owner, j);
    assert PlannedOk(l, fs, plan[j]);
    hide Sortable, Built, IsTree, OpClean;
    NothingLost(env, fs, ops, |ops|);
  }

  lemma SuccessClear(
    env: Env, l: Layout, fs: FS, ops: seq<Op>, plan: seq<Planned>, at: seq<nat>, owner: seq<nat>)
    requires Sortable(env, l, fs, plan) && Built(fs, ops, plan, at, owner) && Succeeds(env, fs, ops)
    ensures (forall i: nat | i < |plan| :: plan[i].source != []) && Clear(fs, plan)
  {
    assert forall i: nat | i < |plan| :: plan[i].source != [];
    hide Sortable, Built, Succeeds;
    forall i: nat, n: nat | i < |plan| && n <= |plan[i].dir| ensures plan[i].dir[..n] !in fs.files {
      SuccessClearOfFiles(env, l, fs, ops, plan, at, owner, i, n);
    }
    forall i: nat, j: nat, n: nat | i < |plan| && j < |plan| && n <= |plan[i].dir|
      ensures plan[i].dir[..n] != plan[j].Destination()
    {
      SuccessClearOfNotes(env, l, fs, ops, plan, at, owner, i, n, j);
    }
  }

  /** The inbox sort goes through exactly when the destinations are pairwise distinct, no selected note
      is ambiguously linked, and no file is, or is put, where a folder is needed. */
  lemma SortSucceedsIff(
    env: Env, l: Layout, fs: FS, ops: seq<Op>, plan: seq<Planned>, at: seq<nat>, owner: seq<nat>)
    requires Sortable(env, l, fs, plan) && Built(fs, ops, plan, at, owner)
    ensures (forall i: nat | i < |plan| :: plan[i].source != [])
    ensures Succeeds(env, fs, ops) <==> Distinct(plan) && Unambiguous(env, fs, plan) && Clear(fs, plan)
  {
    assert forall i: nat | i < |plan| :: plan[i].source != [];
    if Succeeds(env, fs, ops) {
      SuccessClear(env, l, fs, ops, plan, at, owner);
      SuccessPreflight(env, l, fs, ops, plan, at, owner);
    }
    if Distinct(plan) && Unambiguous(env, fs, plan) && Clear(fs, plan) {
      BuiltClean(env, l, fs, ops, plan, at, owner);
      hide Sortable, Built, Clear, Distinct, Unambiguous, Clean, Apply;
      RunGoesThrough(env, l, fs, ops, plan, at, owner, |ops|);
      forall k: nat | k < |ops| ensures Apply(env, StateAt(env, fs, ops, k).0, ops[k]).1 == Applied {
        RunGoesThrough(env, l, fs, ops, plan, at, owner, k);
      }
    }
  }

  lemma SuccessPreflight(
    env: Env, l: Layout, fs: FS, ops: seq<Op>, plan: seq<Planned>, at: seq<nat>, owner: seq<nat>)
    requires Sortable(env, l, fs, plan) && Built(fs, ops, plan, at, owner) && Clean(env, fs, ops)
    ensures (forall i: nat | i < |plan| :: plan[i].source != []) && Distinct(plan) && Unambiguous(env, fs, plan)
  {
    assert forall i: nat | i < |plan| :: plan[i].source != [];
    hide Sortable, Clean, Built;
    forall i: nat, j: nat | i < j < |plan| ensures plan[i].Destination() != plan[j].Destination() {
      SuccessDistinct(env, l, fs, ops, plan, at, owner, i, j);
    }
    forall i: nat | i < |plan| ensures IsNote(plan[i].source) && !Ambiguous(env, fs, plan[i].source) {
      SuccessUnambiguous(env, l, fs, ops, plan, at, owner, i);
    }
  }

  /** After a successful sort each selected note, and nothing else, has moved: it is at its routed
      destination, outside the system, inbox and dashboards folders, with its own text up to link
      targets; every other file is where it was. */
  lemma SortLands(
    env: Env, l: Layout, fs: FS, ops: seq<Op>, plan: seq<Planned>, at: seq<nat>, owner: seq<nat>, i: nat)
    requires Sortable(env, l, fs, plan) && Built(fs, ops, plan, at, owner) && Succeeds(env, fs, ops) && i < |plan|
    ensures var end := StateAt(env, fs, ops, |ops|).0;
            && plan[i].source in fs.files && plan[i].source != []
            && plan[i].Destination() in end.files
            && end.files[plan[i].Destination()] == Relinked(env, ops, |ops|, plan[i].source, fs.files[plan[i].source])
            && Apart(plan[i].Destination(), l.system) && Apart(plan[i].Destination(), l.inbox)
            && Apart(plan[i].Destination(), l.dashboards)
  {
    ReachesDestination(env, l, fs, ops, plan, at, owner, i);
    assert PlannedOk(l, fs, plan[i]);
    DestinationOutside(l, plan[i]);
    NobodyEdits(env, l, fs, ops, plan, at, owner, plan[i].source, |ops|);
    hide Sortable, Built, OpClean, Apart;
    NothingLost(env, fs, ops, |ops|);
  }

  lemma {:induction false} NobodyEdits(
    env: Env, l: Layout, fs: FS, ops: seq<Op>, plan: seq<Planned>, at: seq<nat>, owner: seq<nat>, p: Path, k: nat)
    requires Sortable(env, l, fs, plan) && Built(fs, ops, plan, at, owner) && k <= |ops|
    ensures !EditedBy(env, ops, k, p)
  {
    hide Sortable, Built;
    if k > 0 {
      NobodyEdits(env, l, fs, ops, plan, at, owner, p, k - 1);
      BuiltValidated(env, l, fs, ops, plan, at, owner, k - 1);
    }
  }

  lemma SortLeaves(
    env: Env, l: Layout, fs: FS, ops: seq<Op>, plan: seq<Planned>, at: seq<nat>, owner: seq<nat>, p: Path)
    requires Sortable(env, l, fs, plan) && Built(fs, ops, plan, at, owner) && Succeeds(env, fs, ops)
    requires p in fs.files && forall i: nat | i < |plan| :: plan[i].source != p
    ensures var end := StateAt(env, fs, ops, |ops|).0;
            p in end.files && end.files[p] == Relinked(env, ops, |ops|, p, fs.files[p])
  {
    OthersStay(env, l, fs, ops, plan, at, owner, p);
    NobodyEdits(env, l, fs, ops, plan, at, owner, p, |ops|);
    hide Sortable, Built, OpClean;
    NothingLost(env, fs, ops, |ops|);
  }

  // ---- links ----

  /** A folder whose path can stand in a wikilink and whose notes are scanned for links. */
  predicate LinkSafe(dir: Path) {
    ".git" !in dir && forall i | 0 <= i < |dir| :: Avoids(dir[i], "]|#")
  }

  lemma {:induction false} JoinClean(p: Path)
    requires forall i | 0 <= i < |p| :: Avoids(p[i], "]|#")
    ensures Avoids(Join(p), "]|#")
  {
    if |p| > 1 { JoinClean(p[1..]); }
  }

  lemma {:induction false} JoinLast(p: Path, x: string)
    ensures |x| <= |Join(p + [x])| && Join(p + [x])[|Join(p + [x])| - |x|..] == x
  {
    if p != [] {
      JoinLast(p[1..], x);
      assert (p + [x])[1..] == p[1..] + [x];
    }
  }

  /** Moving a note into a link-safe folder keeps its full path and its stem legal as link targets. */
  lemma MoveStaysLinkable(source: Path, dir: Path)
    requires IsNote(source) && IsNote(dir + [Name(source)]) && LinkSafe(dir)
    ensures var d := dir + [Name(source)];
            && ".git" !in d && Stem(d) == Stem(source)
            && (Wikilinks.CleanTarget(Key(source)) ==> Wikilinks.CleanTarget(Key(d)))
  {
    var d := dir + [Name(source)];
    assert Parent(d) == dir && Name(d) == Name(source);
    var stem := Stem(source);
    JoinLast(Parent(source), stem);
    JoinLast(dir, stem);
    if Wikilinks.CleanTarget(Key(source)) {
      var key := Key(source);
      forall i | 0 <= i < |stem| ensures stem[i] !in "]|#" { assert stem[i] == key[|key| - |stem| + i]; }
      JoinClean(dir + [stem]);
    }
    assert ".git"[1..] == "git" && Name(d)[|Name(d)| - 3..] == ".md" && "git" != ".md";
  }

  /** The sort is a batch of sound moves when its folders are link-safe. */
  lemma SortIsMoveBatch(
    env: Env, l: Layout, fs: FS, ops: seq<Op>, plan: seq<Planned>, at: seq<nat>, owner: seq<nat>)
    requires Sortable(env, l, fs, plan) && Built(fs, ops, plan, at, owner)
    requires forall i: nat | i < |plan| :: LinkSafe(plan[i].dir)
    ensures MoveBatch(env, fs, ops)
  {
    hide Sortable, Built, LinkSafe;
    forall k: nat | k < |ops|
      ensures Validated(ops[k])
      ensures ops[k].CreateDirectory? || (ops[k].MoveNote? && SoundMove(env, fs, ops, k))
    {
      BuiltValidated(env, l, fs, ops, plan, at, owner, k);
      if ops[k].MoveNote? { MoveIsSound(env, l, fs, ops, plan, at, owner, k); }
    }
  }

  lemma MoveIsSound(
    env: Env, l: Layout, fs: FS, ops: seq<Op>, plan: seq<Planned>, at: seq<nat>, owner: seq<nat>, k: nat)
    requires Sortable(env, l, fs, plan) && Built(fs, ops, plan, at, owner) && k < |ops| && ops[k].MoveNote?
    requires Validated(ops[k]) && forall i: nat | i < |plan| :: LinkSafe(plan[i].dir)
    ensures SoundMove(env, fs, ops, k)
  {
    BuiltValidated(env, l, fs, ops, plan, at, owner, k);
    var i := owner[k];
    assert PlannedOk(l, fs, plan[i]);
    assert ops[k] == MoveNote(plan[i].source, plan[i].Destination(), true);
    hide Sortable, Built, LinkSafe, Apart, FreshStem;
    DestinationOutside(l, plan[i]);
    MoveStaysLinkable(plan[i].source, plan[i].dir);
  }

  /** A successful sort into link-safe folders keeps the meaning of every link of the vault. */
  lemma SortKeepsLinks(
    env: Env, l: Layout, fs: FS, ops: seq<Op>, plan: seq<Planned>, at: seq<nat>, owner: seq<nat>,
    n: Path, i: nat, q: Path)
    requires Sortable(env, l, fs, plan) && Built(fs, ops, plan, at, owner) && Succeeds(env, fs, ops)
    requires forall j: nat | j < |plan| :: LinkSafe(plan[j].dir)
    requires env.system != [] && env.system !in fs.files
    requires n in fs.files && n != [] && EndsWith(n[|n| - 1], ".md") && ".git" !in n && !(env.system <= n)
    requires q in fs.files && i < |Wikilinks.Scan(fs.files[n])| && Wikilinks.Scan(fs.files[n])[i].Wiki?
    requires Denotes(fs.files.Keys, Wikilinks.Scan(fs.files[n])[i].link.target, q)
    ensures LinkKept(fs, ops, |ops|, StateAt(env, fs, ops, |ops|).0, n, i, q)
  {
    hide Sortable, Built, LinkSafe, Denotes, LinkKept, OpClean, MoveBatch;
    SortIsMoveBatch(env, l, fs, ops, plan, at, owner);
    LinksKeepTheirMeaning(env, fs, ops, |ops|, n, i, q);
  }

  // ---- from the inbox to the sorted vault ----

  /** The promise of the inbox sort: with any accepted layout and any inbox whose notes have pairwise
      distinct file names, the proposal the loop builds passes the preflight and applies to the end if
      and only if no selected note is ambiguously linked and no file is in the way of a folder. */
  lemma InboxSortSucceedsIff(env: Env, r: Run, notes: seq<InboxNote>, ops: seq<Op>, at: seq<nat>, owner: seq<nat>)
    requires Inbox(r, notes) && env.system == r.layout.system
    requires ValidLayout(r.layout) && NormalFolders(r.layout) && IsTree(r.fs)
    requires Built(r.fs, ops, Selection(r, notes, |notes|), at, owner)
    requires forall i: nat, j: nat | i < j < |notes| && IsNote(notes[i].path) && IsNote(notes[j].path) ::
               Name(notes[i].path) != Name(notes[j].path)
    ensures var plan := Selection(r, notes, |notes|);
            && (forall i: nat | i < |plan| :: plan[i].source != [])
            && (Succeeds(env, r.fs, ops) <==> Unambiguous(env, r.fs, plan) && Clear(r.fs, plan))
  {
    var plan := Selection(r, notes, |notes|);
    SelectionSortable(env, r, notes, |notes|);
    SortableSources(env, r.layout, r.fs, plan);
    hide Sortable, Built, Selection, Inbox, ValidLayout, NormalFolders, IsTree, Succeeds, Unambiguous, Clear, IsNote;
    DistinctNamesSuffice(notes, plan);
    SortSucceedsIff(env, r.layout, r.fs, ops, plan, at, owner);
  }

  lemma SortableSources(env: Env, l: Layout, fs: FS, plan: seq<Planned>)
    requires Sortable(env, l, fs, plan)
    ensures forall i: nat | i < |plan| :: plan[i].source != [] && IsNote(plan[i].source)
    ensures forall i: nat, j: nat | i < j < |plan| :: plan[i].source != plan[j].source
  {
    hide ValidLayout, NormalFolders, IsTree, Fileable;
  }

  lemma DistinctNamesSuffice(notes: seq<InboxNote>, plan: seq<Planned>)
    requires forall i: nat | i < |plan| :: plan[i].source != [] && IsNote(plan[i].source)
    requires forall i: nat, j: nat | i < j < |plan| :: plan[i].source != plan[j].source
    requires forall p: Planned | p in plan :: exists i: nat :: i < |notes| && notes[i].path == p.source
    requires forall i: nat, j: nat | i < j < |notes| && IsNote(notes[i].path) && IsNote(notes[j].path) ::
               Name(notes[i].path) != Name(notes[j].path)
    ensures Distinct(plan)
  {
    hide IsNote;
    forall i: nat, j: nat | i < j < |plan| ensures plan[i].Destination() != plan[j].Destination() {
      assert plan[i] in plan && plan[j] in plan;
      var a: nat :| a < |notes| && notes[a].path == plan[i].source;
      var b: nat :| b < |notes| && notes[b].path == plan[j].source;
      assert Name(plan[i].Destination()) == Name(plan[i].source) && Name(plan[j].Destination()) == Name(plan[j].source);
      assert if a < b then Name(notes[a].path) != Name(notes[b].path) else a > b && Name(notes[b].path) != Name(notes[a].path);
    }
  }
}
