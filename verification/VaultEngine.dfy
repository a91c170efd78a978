/** Applying a proposal to a vault, file by file (`apply_proposal` and the `_apply_*` functions). */
module VaultEngine {
  import opened Text
  import opened VaultPaths
  import opened Proposals
  import Wikilinks
  import GeneratedRegion
  import Refinement

  class Vault {
    var files: map<Path, string>
    var dirs: set<Path>
    /** Every state the vault has been in: one entry for each file or directory change. */
    ghost var history: seq<FS>

    constructor (files: map<Path, string>, dirs: set<Path>)
      ensures State() == FS(files, dirs) && history == []
    {
      this.files, this.dirs, history := files, dirs, [];
    }

    function State(): FS
      reads this
    {
      FS(files, dirs)
    }

    method Put(p: Path, text: string) returns (status: Status)
      requires p != []
      modifies this
      ensures (State(), status) == WriteText(old(State()), p, text)
      ensures history == old(history) + [State()]
    {
      if p in dirs || Blocked(State(), Parent(p)) {
        status := Raised;
      } else {
        dirs := dirs + Ancestry(Parent(p));
        files := files[p := text];
        status := Applied;
      }
      history := history + [State()];
    }

    method WriteFile(env: Env, p: Path, content: string, overwrite: bool, mergeGenerated: bool) returns (status: Status)
      requires p != []
      modifies this
      ensures (State(), status) == ApplyWrite(env, old(State()), p, content, overwrite, mergeGenerated)
      ensures history == old(history) || history == old(history) + [State()]
    {
      if !WriteAllowed(env, p) { return Refused; }
      var exists_ := p in files || p in dirs;
      if exists_ && !overwrite { return Refused; }
      var text := content;
      if exists_ && mergeGenerated {
        if p !in files { return Raised; }
        var merged := GeneratedRegion.Merge(files[p], content);
        if merged.None? { return Raised; }
        text := merged.value;
      }
      status := Put(p, text);
    }

    method Edit(env: Env, p: Path, result: Edited) returns (status: Status)
      requires p != []
      modifies this
      ensures (State(), status) == ApplyEdit(env, old(State()), p, result)
      ensures history == old(history) || history == old(history) + [State()]
    {
      if Under(p, env.system) { return Refused; }
      if p !in files && p !in dirs { return Refused; }
      if p !in files { return Raised; }
      if result.Failed? { return Refused; }
      status := Put(p, result.text);
    }

    method CreateDirectory(p: Path, failIfExists: bool) returns (status: Status)
      modifies this
      ensures (State(), status) == ApplyMkdir(old(State()), p, failIfExists)
      ensures history == old(history) || history == old(history) + [State()]
    {
      if Blocked(State(), p) || (p in dirs && failIfExists) { return Raised; }
      dirs := dirs + Ancestry(p);
      history := history + [State()];
      return Applied;
    }

    method Aliases(env: Env, result: Edited) returns (status: Status)
      modifies this
      ensures (State(), status) == ApplyAliases(env, old(State()), result)
      ensures history == old(history) || history == old(history) + [State()]
    {
      if env.ConfigFile() in dirs || result.Failed? { return Refused; }
      status := Put(env.ConfigFile(), result.text);
    }

    /** `_rewrite_inbound_wikilinks`: the notes are rewritten one after the other, in any order. */
    method RewriteInbound(env: Env, ghost fs: FS, ghost op: Op, r: Wikilinks.Retarget)
      requires op.MoveNote? && Validated(op) && op.updateLinks && op.path in fs.files
      requires files == Renamed(fs.files, op.path, op.destination) && r == Retargeting(op.path, op.destination)
      modifies this
      ensures files == RewriteAll(env, old(files), r) && dirs == old(dirs)
      ensures old(history) <= history
      ensures forall h | h in history[|old(history)|..] :: MidMove(env, fs, op, h)
    {
      var todo := files.Keys;
      while todo != {}
        invariant files.Keys == old(files).Keys && todo <= files.Keys && dirs == old(dirs)
        invariant forall p | p in todo :: files[p] == old(files)[p]
        invariant forall p | p in files.Keys - todo :: files[p] == Rewritten(env, p, old(files)[p], r)
        invariant old(history) <= history
        invariant forall h | h in history[|old(history)|..] :: MidMove(env, fs, op, h)
      {
        var p :| p in todo;
        todo := todo - {p};
        if Rewritable(env, p) {
          var rewritten := Wikilinks.RewriteLinks(files[p], r);
          if rewritten != files[p] {
            files := files[p := rewritten];
            assert MidMove(env, fs, op, State());
            history := history + [State()];
          }
        }
      }
    }

    method MoveNote(env: Env, op: Op) returns (status: Status)
      requires op.MoveNote? && Validated(op)
      modifies this
      ensures (State(), status) == Apply(env, old(State()), op)
      ensures old(history) <= history
      ensures forall h | h in history[|old(history)|..] :: h == State() || MidMove(env, old(State()), op, h)
    {
      var s, d := op.path, op.destination;
      if s !in files || Parent(d) !in dirs || d in dirs { return Raised; }
      files := (files - {s})[d := files[s]];
      history := history + [State()];
      if op.updateLinks {
        assert MidMove(env, old(State()), op, State());
        RewriteInbound(env, old(State()), op, Retargeting(s, d));
      }
      return Applied;
    }

    /** One operation, dispatched as `apply_proposal` does. */
    method ApplyOp(env: Env, op: Op) returns (status: Status)
      requires Validated(op)
      modifies this
      ensures (State(), status) == Apply(env, old(State()), op)
      ensures old(history) <= history
      ensures forall h | h in history[|old(history)|..] ::
                h == State() || (op.MoveNote? && MidMove(env, old(State()), op, h))
    {
      match op
      case WriteFile(p, content, overwrite, merge) =>
        status := WriteFile(env, p, content, overwrite, merge);
      case EditNote(p, edit) =>
        status := Edit(env, p, edit(TextAt(State(), p)));
      case RestructureBody(p, body) =>
        var text := Refinement.Restructure(TextAt(State(), p), body, env.budget, env.yamlOk);
        status := Edit(env, p, if text.None? then Failed else NewText(text.value));
      case CreateDirectory(p, failIfExists) =>
        status := CreateDirectory(p, failIfExists);
      case MoveNote(_, _, _) =>
        status := MoveNote(env, op);
      case AddAliases(aliases) =>
        status := Aliases(env, aliases(TextAt(State(), env.ConfigFile())));
    }

    /** `apply_proposal`. A proposal that fails preflight changes nothing. Otherwise the operations run
        in order until one raises, and every state on the way, including those inside a move while
        links are being rewritten, keeps every original note. */
    method ApplyProposal(env: Env, ops: seq<Op>) returns (rejected: bool, done: nat)
      requires forall i | 0 <= i < |ops| :: Validated(ops[i])
      modifies this
      ensures rejected <==> !Clean(env, old(State()), ops)
      ensures rejected <==> SomeObjection(env, old(State()), ops)
      ensures Overwrites(old(State()), ops) ==> rejected
      ensures rejected ==> State() == old(State()) && history == old(history)
      ensures !rejected ==> done <= |ops| && State() == StateAt(env, old(State()), ops, |ops|).0
      ensures !rejected ==> (done == |ops| <==> !StateAt(env, old(State()), ops, |ops|).1)
      ensures old(history) <= history
      ensures AllSafe(env, old(State()), ops, history[|old(history)|..])
    {
      hide Clean, Safe, Apply, MidMove, Validated, StateAt, Reports, SomeObjection, Overwrites, AllSafe;
      ghost var start := State();
      StartState(env, start, ops);
      Refusals(env, start, ops);
      NothingLogged(env, start, ops, history);
      var errors := Preflight(env, State(), ops);
      if errors != [] { return true, 0; }
      rejected := false;
      done := 0;
      while done < |ops|
        invariant done <= |ops|
        invariant StateAt(env, start, ops, done) == (State(), false)
        invariant old(history) <= history && AllSafe(env, start, ops, history[|old(history)|..])
      {
        ghost var before := State();
        ghost var log := history;
        var status := ApplyOp(env, ops[done]);
        StepIsSafe(env, start, ops, done, before, history[|log|..]);
        SafeJoined(env, start, ops, log, history, |old(history)|);
        NextState(env, start, ops, done, before);
        if status == Raised {
          StoppedStays(env, start, ops, done + 1, |ops|);
          return;
        }
        done := done + 1;
      }
    }
  }

  ghost predicate AllSafe(env: Env, start: FS, ops: seq<Op>, states: seq<FS>)
    requires forall i | 0 <= i < |ops| :: Validated(ops[i])
  {
    forall h | h in states :: Safe(env, start, ops, h)
  }

  lemma NothingLogged(env: Env, start: FS, ops: seq<Op>, history: seq<FS>)
    requires forall i | 0 <= i < |ops| :: Validated(ops[i])
    ensures AllSafe(env, start, ops, history[|history|..])
  {
  }

  lemma SafeJoined(env: Env, start: FS, ops: seq<Op>, log: seq<FS>, history: seq<FS>, from: nat)
    requires (forall i | 0 <= i < |ops| :: Validated(ops[i])) && from <= |log| && log <= history
    requires AllSafe(env, start, ops, log[from..]) && AllSafe(env, start, ops, history[|log|..])
    ensures AllSafe(env, start, ops, history[from..])
  {
    hide Safe, Validated;
    assert history[from..] == log[from..] + history[|log|..];
  }

  /** Preflight has something to say against one of the operations. */
  ghost predicate SomeObjection(env: Env, fs: FS, ops: seq<Op>)
    requires forall i | 0 <= i < |ops| :: Validated(ops[i])
  {
    exists i: nat | i < |ops| :: Objection(env, fs, ops, i)
  }

  /** Some write without permission to overwrite names a file or a folder that is there. */
  ghost predicate Overwrites(fs: FS, ops: seq<Op>) {
    exists i: nat | i < |ops| :: ops[i].WriteFile? && !ops[i].overwrite && (ops[i].path in fs.files || ops[i].path in fs.dirs)
  }

  lemma Refusals(env: Env, fs: FS, ops: seq<Op>)
    requires forall i | 0 <= i < |ops| :: Validated(ops[i])
    ensures !Clean(env, fs, ops) <==> SomeObjection(env, fs, ops)
    ensures Overwrites(fs, ops) ==> SomeObjection(env, fs, ops)
  {
    forall i: nat | i < |ops|
      ensures OpClean(env, fs, ops, i) <==> !Objection(env, fs, ops, i)
      ensures ops[i].WriteFile? && !ops[i].overwrite && (ops[i].path in fs.files || ops[i].path in fs.dirs) ==> Objection(env, fs, ops, i)
    {
      CleanIff(env, fs, ops, i);
      hide Protected, Claimed;
    }
    hide OpClean, Objection;
  }

  lemma StartState(env: Env, start: FS, ops: seq<Op>)
    requires forall i | 0 <= i < |ops| :: Validated(ops[i])
    ensures StateAt(env, start, ops, 0) == (start, false)
  {
    hide Validated;
  }

  lemma NextState(env: Env, start: FS, ops: seq<Op>, k: nat, before: FS)
    requires k < |ops| && (forall i | 0 <= i < |ops| :: Validated(ops[i])) && StateAt(env, start, ops, k) == (before, false)
    ensures var (after, status) := Apply(env, before, ops[k]); StateAt(env, start, ops, k + 1) == (after, status == Raised)
  {
    hide Apply, Validated;
  }

  /** The states one operation passes through are safe ones. */
  lemma StepIsSafe(env: Env, start: FS, ops: seq<Op>, k: nat, before: FS, states: seq<FS>)
    requires Clean(env, start, ops) && k < |ops| && StateAt(env, start, ops, k) == (before, false)
    requires forall h | h in states ::
               h == Apply(env, before, ops[k]).0 || (ops[k].MoveNote? && MidMove(env, before, ops[k], h))
    ensures AllSafe(env, start, ops, states)
  {
    hide OpClean, Kept, KeptMidMove, Apply, MidMove;
    NothingLost(env, start, ops, k);
    forall h | h in states ensures Safe(env, start, ops, h) {
      if h == Apply(env, before, ops[k]).0 {
        if Apply(env, before, ops[k]).1 == Raised {
          OnlyAppliedChanges(env, before, ops[k]);
          assert SafeAt(env, start, ops, k, h);
        } else {
          StepKeeps(env, start, ops, k, before);
          assert SafeAt(env, start, ops, k + 1, h);
        }
      } else {
        MidMoveKeeps(env, start, ops, k, before, h);
        assert SafeAt(env, start, ops, k, h);
      }
    }
  }

  lemma {:induction false} StoppedStays(env: Env, start: FS, ops: seq<Op>, k: nat, n: nat)
    requires k <= n <= |ops| && (forall i | 0 <= i < |ops| :: Validated(ops[i])) && StateAt(env, start, ops, k).1
    ensures StateAt(env, start, ops, n) == StateAt(env, start, ops, k)
  {
    hide Apply;
    if k < n { StoppedStays(env, start, ops, k, n - 1); }
  }
}
