/** Runs of the staged processing machine over a whole vault, and the loop that drives them. */
module ProcessingRun {
  import opened Text
  import opened Frontmatter
  import opened Processing

  // ---- any schedule of steps over n notes ----

  /** Notes that do not parse are skipped by every selection; all others must be workable. */
  ghost predicate Readable(env: Env, notes: seq<NoteState>) {
    forall i: nat | i < |notes| :: Parse(env, notes[i].text).Some? ==> Workable(env, notes[i])
  }

  /** A step taken on the vault: which note, and which stage. */
  datatype Step = Step(note: nat, stage: Stage)

  /** A run over the vault, in whatever order notes are chosen: each step runs the first needed stage
      of its note, and completes it. */
  ghost predicate VaultRun(env: Env, vaults: seq<seq<NoteState>>, steps: seq<Step>, replies: seq<Option<Reply>>) {
    && |vaults| == |steps| + 1 && |replies| == |steps|
    && forall k: nat | k < |steps| :: VaultStep(env, vaults[k], vaults[k + 1], steps[k], replies[k])
  }

  ghost predicate VaultStep(env: Env, notes: seq<NoteState>, after: seq<NoteState>, step: Step, reply: Option<Reply>) {
    && step.note < |notes| && AnswerStorable(env, reply)
    && NextNeeded(env, notes[step.note]) == Needs(step.stage)
    && Process(env, notes[step.note], step.stage, reply).1.Complete?
    && after == notes[step.note := Process(env, notes[step.note], step.stage, reply).0]
  }

  /** How many stages may still have to run. */
  function Remaining(env: Env, notes: seq<NoteState>): (r: nat)
    ensures r <= 7 * |notes|
  {
    if notes == [] then 0 else Remaining(env, notes[..|notes| - 1]) + (7 - At(env, notes[|notes| - 1]))
  }

  lemma {:induction false} RemainingDrops(env: Env, notes: seq<NoteState>, i: nat, s: NoteState)
    requires i < |notes| && At(env, s) > At(env, notes[i])
    ensures Remaining(env, notes[i := s]) < Remaining(env, notes)
  {
    hide At;
    var last := |notes| - 1;
    assert notes[i := s][..last] == if i < last then notes[..last][i := s] else notes[..last];
    if i < last { RemainingDrops(env, notes[..last], i, s); }
  }

  lemma StepEffect(env: Env, notes: seq<NoteState>, after: seq<NoteState>, step: Step, reply: Option<Reply>)
    requires SettingsOk(env) && Readable(env, notes) && VaultStep(env, notes, after, step, reply)
    ensures Readable(env, after) && |after| == |notes|
    ensures At(env, notes[step.note]) == Index(step.stage) < At(env, after[step.note])
    ensures forall i: nat | i < |notes| :: At(env, notes[i]) <= At(env, after[i])
    ensures Remaining(env, after) < Remaining(env, notes)
  {
    var s := notes[step.note];
    NeedsParses(env, s, step.stage);
    hide SettingsOk, Workable, Parse, Process, NextNeeded, AnswerStorable, At, Remaining, Index;
    StepAdvances(env, s, step.stage, reply);
    RemainingDrops(env, notes, step.note, Process(env, s, step.stage, reply).0);
  }

  lemma NeedsParses(env: Env, s: NoteState, stage: Stage)
    requires NextNeeded(env, s) == Needs(stage)
    ensures Parse(env, s.text).Some?
  {
    hide Parse, Needed;
  }

  lemma {:induction false} RunShrinks(
    env: Env, vaults: seq<seq<NoteState>>, steps: seq<Step>, replies: seq<Option<Reply>>, k: nat)
    requires SettingsOk(env) && VaultRun(env, vaults, steps, replies) && Readable(env, vaults[0]) && k <= |steps|
    ensures Readable(env, vaults[k]) && |vaults[k]| == |vaults[0]|
    ensures Remaining(env, vaults[k]) + k <= Remaining(env, vaults[0])
  {
    hide SettingsOk, Readable, VaultStep, Remaining;
    if k > 0 {
      RunShrinks(env, vaults, steps, replies, k - 1);
      var j := k - 1;
      StepEffect(env, vaults[j], vaults[j + 1], steps[j], replies[j]);
    }
  }

  lemma {:induction false} AtGrows(
    env: Env, vaults: seq<seq<NoteState>>, steps: seq<Step>, replies: seq<Option<Reply>>, k: nat, l: nat, i: nat)
    requires SettingsOk(env) && VaultRun(env, vaults, steps, replies) && Readable(env, vaults[0])
    requires k <= l <= |steps| && i < |vaults[0]|
    ensures |vaults[k]| == |vaults[l]| == |vaults[0]| && At(env, vaults[k][i]) <= At(env, vaults[l][i])
  {
    hide SettingsOk, Readable, VaultStep, Remaining, At;
    RunShrinks(env, vaults, steps, replies, l);
    if k < l {
      var j := l - 1;
      RunShrinks(env, vaults, steps, replies, j);
      AtGrows(env, vaults, steps, replies, k, j, i);
      StepEffect(env, vaults[j], vaults[j + 1], steps[j], replies[j]);
    }
  }

  /** Whatever order the notes of a vault are taken in, a run over n notes takes at most 7n steps, and
      no stage of a note runs twice. */
  lemma VaultConverges(env: Env, vaults: seq<seq<NoteState>>, steps: seq<Step>, replies: seq<Option<Reply>>)
    requires SettingsOk(env) && VaultRun(env, vaults, steps, replies) && Readable(env, vaults[0])
    ensures |steps| <= 7 * |vaults[0]|
    ensures forall k: nat, l: nat | k < l < |steps| :: steps[k] != steps[l]
  {
    RunShrinks(env, vaults, steps, replies, |steps|);
    hide SettingsOk, Readable, VaultStep, Remaining, At;
    forall k: nat, l: nat | k < l < |steps| ensures steps[k] != steps[l] {
      LaterStep(env, vaults, steps, replies, k, l);
    }
  }

  lemma LaterStep(
    env: Env, vaults: seq<seq<NoteState>>, steps: seq<Step>, replies: seq<Option<Reply>>, k: nat, l: nat)
    requires SettingsOk(env) && VaultRun(env, vaults, steps, replies) && Readable(env, vaults[0]) && k < l < |steps|
    ensures steps[k].note == steps[l].note ==> Index(steps[k].stage) < Index(steps[l].stage)
  {
    hide SettingsOk, Readable, VaultStep, Remaining, At, Index;
    RunShrinks(env, vaults, steps, replies, k);
    RunShrinks(env, vaults, steps, replies, l);
    StepEffect(env, vaults[k], vaults[k + 1], steps[k], replies[k]);
    StepEffect(env, vaults[l], vaults[l + 1], steps[l], replies[l]);
    StepNote(env, vaults[k], vaults[k + 1], steps[k], replies[k]);
    AtGrows(env, vaults, steps, replies, k + 1, l, steps[k].note);
  }

  lemma StepNote(env: Env, notes: seq<NoteState>, after: seq<NoteState>, step: Step, reply: Option<Reply>)
    requires VaultStep(env, notes, after, step, reply)
    ensures step.note < |notes|
  {
  }

  // ---- the machine at work ----

  /** `_canonical_frontmatter`: the approved keys in canonical order, then the others sorted. */
  method CanonicalFrontmatter(env: Env, d: Dict) returns (canonical: Dict)
    ensures canonical == Canonical(env, d)
  {
    hide Pick, Others, Sort;
    var order := env.Order();
    canonical := PickOnto([], order, d);
    if env.preserve { canonical := PickOnto(canonical, Sort(Others(d, order)), d); }
  }

  /** One of its two loops: the keys that are there, in the given order. */
  method PickOnto(before: Dict, keys: seq<string>, d: Dict) returns (after: Dict)
    ensures after == before + Pick(keys, d)
  {
    after := before;
    hide HasKey, Lookup;
    for i := 0 to |keys|
      invariant after + Pick(keys[i..], d) == before + Pick(keys, d)
    {
      assert keys[i..][1..] == keys[i + 1..];
      if HasKey(d, keys[i]) { after := after + [(keys[i], Lookup(d, keys[i]))]; }
    }
  }

  /** `_apply_shape_defaults`. */
  method ApplyShapeDefaults(d: Dict) returns (shaped: Dict)
    ensures shaped == ShapeDefaults(d, CoreOrder())
  {
    shaped := d;
    var keys := CoreOrder();
    for i := 0 to |keys|
      invariant shaped == ShapeDefaults(d, keys[..i])
    {
      assert keys[..i + 1][..i] == keys[..i];
      shaped := SetDefault(shaped, keys[i], if keys[i] == "related" then List([]) else Scalar(""));
    }
    assert keys[..|keys|] == keys;
  }

  class Vault {
    var notes: seq<NoteState>
    ghost var history: seq<seq<NoteState>>
    ghost var replies: seq<Option<Reply>>

    constructor (initial: seq<NoteState>)
      ensures notes == initial && history == [initial] && replies == []
    {
      notes, history, replies := initial, [initial], [];
    }

    /** `process_note` on note `i`. */
    method ProcessNote(env: Env, i: nat, stage: Stage, reply: Option<Reply>) returns (outcome: Outcome)
      requires i < |notes|
      modifies this`notes
      ensures (notes, outcome) == (old(notes)[i := Process(env, old(notes[i]), stage, reply).0],
                                   Process(env, old(notes[i]), stage, reply).1)
    {
      hide Parse, DraftOf, RenderNote, Canonical, Mark, ShapeDefaults, CoreOrder;
      var s := notes[i];
      assert notes[i := s] == notes;
      var parsed := Parse(env, s.text);
      if parsed.None? { return Blocked; }
      var n := parsed.value;
      var draft;
      if stage.Shape? {
        ShapeDraft(env, n, reply);
        var shaped := ApplyShapeDefaults(n.fm);
        draft := Contents(shaped, n.body, None, []);
      } else {
        draft := DraftOf(env, n, stage, reply);
      }
      match draft {
        case Stop(stopped) => return stopped;
        case Filed(folder, confidence, warnings) =>
          var recorded := s.ledger.(routed := Some(folder));
          notes := notes[i := NoteState(s.text, Mark(env, recorded, s.text, stage, confidence, warnings))];
          outcome := Complete(false);
        case Contents(fm, body, confidence, warnings) =>
          var canonical := CanonicalFrontmatter(env, fm);
          var text := RenderNote(canonical, body, env.Order());
          notes := notes[i := NoteState(text, Mark(env, s.ledger, text, stage, confidence, warnings))];
          outcome := Complete(text != s.text);
      }
    }

    /** `select_next_note`: the first note with a stage to run, in scan order. */
    method SelectNext(env: Env) returns (i: nat, next: Next)
      ensures i <= |notes|
      ensures forall k: nat | k < i :: NextNeeded(env, notes[k]).Done? || NextNeeded(env, notes[k]).Unreadable?
      ensures i < |notes| ==> next == NextNeeded(env, notes[i]) && (next.Needs? || next.Crash?)
      ensures i == |notes| ==> next.Done?
    {
      hide NextNeeded;
      i := 0;
      while i < |notes|
        invariant i <= |notes|
        invariant forall k: nat | k < i :: NextNeeded(env, notes[k]).Done? || NextNeeded(env, notes[k]).Unreadable?
      {
        next := NextNeeded(env, notes[i]);
        if next.Needs? || next.Crash? { return; }
        i := i + 1;
      }
      next := Done;
    }

    /** `run_process_inbox` and `run_process_vault`: up to `limit` steps, stopping at the first that does
        not complete; the vault loop then marks that stage as blocked. A run that is given a provider
        refuses every limit but one. */
    method Run(env: Env, limit: nat, provider: Provider, marksBlocked: bool) returns (processed: seq<Step>, failed: bool)
      requires history == [notes] && replies == []
      modifies this
      ensures provider.Some? && limit != 1 ==> failed && processed == [] && notes == old(notes)
      ensures |processed| <= limit
      ensures LoopRun(env, provider, history, processed, replies) && history[0] == old(notes)
      ensures !failed ==> history[|processed|] == notes
      // a run that is not cut short by its limit leaves nothing to do
      ensures !failed && |processed| < limit ==> Finished(env, notes)
      // a run fails because it was refused, or because its next step cannot be found or does not complete
      ensures failed ==> (provider.Some? && limit != 1) || Stuck(env, provider, history[|processed|])
      // a failed step changes no text
      ensures failed && !marksBlocked ==> notes == history[|processed|]
      ensures failed ==> |notes| == |history[|processed|]|
                         && forall i: nat | i < |notes| :: notes[i].text == history[|processed|][i].text
    {
      processed, failed := [], false;
      if provider.Some? && limit != 1 {
        failed := true;
        return;
      }
      hide NextNeeded, Process, LoopStep;
      while |processed| < limit
        invariant |processed| <= limit && !failed
        invariant LoopRun(env, provider, history, processed, replies) && history[0] == old(notes)
        invariant history[|processed|] == notes
        decreases limit - |processed|
      {
        var i, next := SelectNext(env);
        if i == |notes| { return; }
        if next.Crash? {
          failed := true;
          return;
        }
        var reply := AnswerOf(provider, next.stage, notes[i].text);
        ghost var before := notes;
        StopsChangeNothing(env, notes[i], next.stage, reply);
        var outcome := ProcessNote(env, i, next.stage, reply);
        if !outcome.Complete? {
          assert notes == before;
          if marksBlocked {
            var s := notes[i];
            notes := notes[i := NoteState(s.text, MarkBlocked(env, s.ledger, s.text, next.stage))];
          }
          failed := true;
          return;
        }
        TakesStep(env, provider, before, i, next.stage);
        history := history + [notes];
        replies := replies + [reply];
        processed := processed + [Step(i, next.stage)];
      }
    }

    /** `run_organize_vault_pass`: the notes with a stage to run are listed first, then each of the
        first `limit` of them has one turn. A note whose next stage cannot be found stops the listing. */
    method OrganizePass(env: Env, limit: nat, provider: Provider) returns (failed: bool)
      modifies this`notes
      ensures failed <==> exists i: nat | i < |old(notes)| :: NextNeeded(env, old(notes)[i]).Crash?
      ensures failed ==> notes == old(notes)
      ensures !failed ==> |notes| == |old(notes)| && forall i: nat | i < |notes| ::
                            notes[i] == old(notes)[i] || notes[i] == Advance(env, old(notes)[i], provider)
      ensures !failed && |old(notes)| <= limit ==> notes == PassedOver(env, old(notes), provider)
    {
      hide NextNeeded, Process;
      var candidates: seq<nat> := [];
      for i := 0 to |notes|
        invariant forall k: nat | k < i :: !NextNeeded(env, notes[k]).Crash?
        invariant |candidates| <= i && forall a | 0 <= a < |candidates| :: candidates[a] < i
        invariant forall a, b | 0 <= a < b < |candidates| :: candidates[a] < candidates[b]
        invariant forall k: nat | k < i && NextNeeded(env, notes[k]).Needs? :: k in candidates
      {
        var next := NextNeeded(env, notes[i]);
        if next.Crash? { return true; }
        if next.Needs? { candidates := candidates + [i]; }
      }
      failed := false;
      ghost var start := notes;
      var done := 0;
      while done < |candidates| && done < limit
        invariant done <= |candidates| && |notes| == |start|
        invariant forall k: nat | k < |notes| ::
                    notes[k] == if k in candidates[..done] then Advance(env, start[k], provider) else start[k]
      {
        var i := candidates[done];
        assert i !in candidates[..done];
        var next := NextNeeded(env, notes[i]);
        if next.Needs? {
          var s := notes[i];
          var outcome := ProcessNote(env, i, next.stage, AnswerOf(provider, next.stage, s.text));
          if !outcome.Complete? { notes := notes[i := NoteState(s.text, MarkBlocked(env, s.ledger, s.text, next.stage))]; }
        }
        assert candidates[..done + 1] == candidates[..done] + [i];
        done := done + 1;
      }
      if |start| <= limit {
        assert candidates[..done] == candidates;
        forall k: nat | k < |notes| ensures notes[k] == Advance(env, start[k], provider) {}
      }
    }
  }

  // ---- a served vault is finished ----

  /** The settings are in order, every note that parses is workable, and the provider serves each. */
  ghost predicate Finishable(env: Env, notes: seq<NoteState>, provider: Provider) {
    && SettingsOk(env) && Readable(env, notes)
    && forall i: nat | i < |notes| :: ServedAlong(env, notes[i], provider, 7 - At(env, notes[i]))
  }

  ghost predicate Finished(env: Env, notes: seq<NoteState>) {
    forall i: nat | i < |notes| :: NextNeeded(env, notes[i]).Done? || NextNeeded(env, notes[i]).Unreadable?
  }

  lemma {:induction false} ServedLess(env: Env, s: NoteState, provider: Provider, more: nat, turns: nat)
    requires ServedAlong(env, s, provider, more) && turns <= more
    ensures ServedAlong(env, s, provider, turns)
    decreases turns
  {
    hide NextNeeded, Parse, Advance, Served, AnswerStorable;
    if turns > 0 && Parse(env, s.text).Some? && NextNeeded(env, s).Needs? {
      ServedLess(env, Advance(env, s, provider), provider, more - 1, turns - 1);
    }
  }

  /** A served step completes, and leaves the vault finishable with less to do. */
  lemma ServedStep(env: Env, notes: seq<NoteState>, i: nat, stage: Stage, provider: Provider)
    requires Finishable(env, notes, provider) && i < |notes| && NextNeeded(env, notes[i]) == Needs(stage)
    ensures var step := Process(env, notes[i], stage, AnswerOf(provider, stage, notes[i].text));
            && step.1.Complete? && Finishable(env, notes[i := step.0], provider)
            && Remaining(env, notes[i := step.0]) < Remaining(env, notes)
  {
    hide *;
    var s := notes[i];
    FinishableAt(env, notes, i, provider);
    NeedsParses(env, s, stage);
    BelowSeven(env, s);
    TurnAdvances(env, s, provider, 7 - At(env, s));
    var after := Process(env, s, stage, AnswerOf(provider, stage, s.text)).0;
    ServedLess(env, after, provider, 7 - At(env, s) - 1, 7 - At(env, after));
    RemainingDrops(env, notes, i, after);
    FinishableStep(env, notes, i, after, provider);
  }

  lemma ServedNeverCrashes(env: Env, notes: seq<NoteState>, i: nat, provider: Provider)
    requires Finishable(env, notes, provider) && i < |notes|
    ensures !NextNeeded(env, notes[i]).Crash?
  {
    hide *;
    FinishableAt(env, notes, i, provider);
    NeverCrashes(env, notes[i]);
  }

  lemma FinishableAt(env: Env, notes: seq<NoteState>, i: nat, provider: Provider)
    requires Finishable(env, notes, provider) && i < |notes|
    ensures SettingsOk(env) && (Parse(env, notes[i].text).Some? ==> Workable(env, notes[i]))
    ensures ServedAlong(env, notes[i], provider, 7 - At(env, notes[i]))
  {
    hide SettingsOk, Workable, Parse, ServedAlong, At;
  }

  lemma FinishableStep(env: Env, notes: seq<NoteState>, i: nat, after: NoteState, provider: Provider)
    requires Finishable(env, notes, provider) && i < |notes|
    requires Workable(env, after) && ServedAlong(env, after, provider, 7 - At(env, after))
    ensures Finishable(env, notes[i := after], provider)
  {
    hide SettingsOk, Workable, Parse, ServedAlong, At;
  }

  lemma BelowSeven(env: Env, s: NoteState)
    requires NextNeeded(env, s).Needs?
    ensures At(env, s) < 7
  {
    hide NextNeeded;
  }

  lemma NeverCrashes(env: Env, s: NoteState)
    requires Parse(env, s.text).Some? ==> Workable(env, s)
    ensures !NextNeeded(env, s).Crash?
  {
    CrashParses(env, s);
    hide *;
    if Parse(env, s.text).Some? { NextIsFirst(env, s); }
  }

  lemma CrashParses(env: Env, s: NoteState)
    ensures NextNeeded(env, s).Crash? ==> Parse(env, s.text).Some?
  {
    hide Parse, Needed;
  }

  lemma NothingRemains(env: Env, notes: seq<NoteState>, provider: Provider)
    requires Finishable(env, notes, provider)
    ensures Remaining(env, notes) == 0 ==> Finished(env, notes)
  {
    hide NextNeeded, Remaining, Finishable;
    if Remaining(env, notes) == 0 {
      forall i: nat | i < |notes| ensures NextNeeded(env, notes[i]).Done? || NextNeeded(env, notes[i]).Unreadable? {
        NoneRemaining(env, notes, i);
        ServedNeverCrashes(env, notes, i, provider);
      }
    }
  }

  /** One turn for every note. */
  function PassedOver(env: Env, notes: seq<NoteState>, provider: Provider): seq<NoteState> {
    seq(|notes|, i requires 0 <= i < |notes| => Advance(env, notes[i], provider))
  }

  function Passes(env: Env, notes: seq<NoteState>, provider: Provider, n: nat): seq<NoteState>
    decreases n
  {
    if n == 0 then notes else Passes(env, PassedOver(env, notes, provider), provider, n - 1)
  }

  lemma {:induction false} PassesAdvance(env: Env, notes: seq<NoteState>, provider: Provider, n: nat, i: nat)
    requires i < |notes|
    ensures |Passes(env, notes, provider, n)| == |notes|
    ensures Passes(env, notes, provider, n)[i] == Advanced(env, notes[i], provider, n)
    decreases n
  {
    hide Advance;
    if n > 0 { PassesAdvance(env, PassedOver(env, notes, provider), provider, n - 1, i); }
  }

  /** Seven passes over a readable vault whose notes the provider serves leave no stage needed. */
  lemma SevenPassesFinish(env: Env, notes: seq<NoteState>, provider: Provider)
    requires SettingsOk(env) && Readable(env, notes)
    requires forall i: nat | i < |notes| :: ServedAlong(env, notes[i], provider, 7)
    ensures Finished(env, Passes(env, notes, provider, 7))
  {
    hide SettingsOk, NextNeeded, Workable, Parse, ServedAlong, Advance, At, Advanced, Passes;
    if notes == [] {
      NoPasses(env, provider, 7);
    } else {
      PassesAdvance(env, notes, provider, 7, 0);
    }
    forall i: nat | i < |notes|
      ensures NextNeeded(env, Passes(env, notes, provider, 7)[i]).Done? || NextNeeded(env, Passes(env, notes, provider, 7)[i]).Unreadable?
    {
      PassesAdvance(env, notes, provider, 7, i);
      if Parse(env, notes[i].text).Some? {
        ServedNoteIsDone(env, notes[i], provider, 7);
      } else {
        UnreadableStays(env, notes[i], provider, 7);
      }
    }
  }

  lemma {:induction false} NoPasses(env: Env, provider: Provider, n: nat)
    ensures Passes(env, [], provider, n) == []
  {
    if n > 0 {
      assert PassedOver(env, [], provider) == [];
      NoPasses(env, provider, n - 1);
    }
  }

  lemma {:induction false} UnreadableStays(env: Env, s: NoteState, provider: Provider, turns: nat)
    requires Parse(env, s.text).None?
    ensures NextNeeded(env, Advanced(env, s, provider, turns)).Unreadable?
    decreases turns
  {
    hide Parse;
    if turns > 0 { UnreadableStays(env, Advance(env, s, provider), provider, turns - 1); }
  }

  ghost predicate Answered(env: Env, provider: Provider) {
    forall stage, text :: AnswerStorable(env, AnswerOf(provider, stage, text))
  }

  /** One step of the loop: the provider is asked about the first stage the note needs. */
  ghost predicate LoopStep(env: Env, provider: Provider, notes: seq<NoteState>, after: seq<NoteState>, step: Step, reply: Option<Reply>) {
    && step.note < |notes| && NextNeeded(env, notes[step.note]) == Needs(step.stage)
    && reply == AnswerOf(provider, step.stage, notes[step.note].text)
    && Process(env, notes[step.note], step.stage, reply).1.Complete?
    && after == notes[step.note := Process(env, notes[step.note], step.stage, reply).0]
  }

  ghost predicate LoopRun(
    env: Env, provider: Provider, history: seq<seq<NoteState>>, steps: seq<Step>, replies: seq<Option<Reply>>)
  {
    && |history| == |steps| + 1 && |replies| == |steps|
    && forall k: nat | k < |steps| :: LoopStep(env, provider, history[k], history[k + 1], steps[k], replies[k])
  }

  /** Some note's next stage cannot be found, or does not complete. */
  ghost predicate Stuck(env: Env, provider: Provider, notes: seq<NoteState>) {
    exists i: nat | i < |notes| ::
      var next := NextNeeded(env, notes[i]);
      next.Crash? || (next.Needs? && !Process(env, notes[i], next.stage, AnswerOf(provider, next.stage, notes[i].text)).1.Complete?)
  }

  lemma TakesStep(env: Env, provider: Provider, notes: seq<NoteState>, i: nat, stage: Stage)
    requires i < |notes| && NextNeeded(env, notes[i]) == Needs(stage)
    requires Process(env, notes[i], stage, AnswerOf(provider, stage, notes[i].text)).1.Complete?
    ensures var reply := AnswerOf(provider, stage, notes[i].text);
            LoopStep(env, provider, notes, notes[i := Process(env, notes[i], stage, reply).0], Step(i, stage), reply)
  {
    hide NextNeeded, Process, AnswerOf;
  }

  /** The loop is one of the schedules for which convergence is proved. */
  lemma LoopIsVaultRun(
    env: Env, provider: Provider, history: seq<seq<NoteState>>, steps: seq<Step>, replies: seq<Option<Reply>>)
    requires LoopRun(env, provider, history, steps, replies) && Answered(env, provider)
    ensures VaultRun(env, history, steps, replies)
  {
    hide NextNeeded, Process, AnswerOf, AnswerStorable;
    forall k: nat | k < |steps| ensures VaultStep(env, history[k], history[k + 1], steps[k], replies[k]) {
      assert LoopStep(env, provider, history[k], history[k + 1], steps[k], replies[k]);
    }
  }

  /** Along the loop a served vault stays finishable, and ever less is left to do. */
  lemma {:induction false} LoopKeepsFinishable(
    env: Env, provider: Provider, history: seq<seq<NoteState>>, steps: seq<Step>, replies: seq<Option<Reply>>, k: nat)
    requires LoopRun(env, provider, history, steps, replies) && Finishable(env, history[0], provider) && k <= |steps|
    ensures Finishable(env, history[k], provider) && |history[k]| == |history[0]|
    ensures Remaining(env, history[k]) + k <= Remaining(env, history[0])
  {
    hide Finishable, Remaining, NextNeeded, Process, AnswerOf;
    if k > 0 {
      LoopKeepsFinishable(env, provider, history, steps, replies, k - 1);
      assert LoopStep(env, provider, history[k - 1], history[k - 1 + 1], steps[k - 1], replies[k - 1]);
      ServedStep(env, history[k - 1], steps[k - 1].note, steps[k - 1].stage, provider);
    }
  }

  /** A run of the loop over a readable vault whose notes are served never gets stuck, and with room for
      seven steps a note it leaves no stage needed. */
  lemma ServedLoopFinishes(
    env: Env, provider: Provider, history: seq<seq<NoteState>>, steps: seq<Step>, replies: seq<Option<Reply>>)
    requires LoopRun(env, provider, history, steps, replies) && Finishable(env, history[0], provider)
    ensures !Stuck(env, provider, history[|steps|])
    ensures |steps| >= 7 * |history[0]| ==> Finished(env, history[|steps|])
  {
    var last := history[|steps|];
    LoopKeepsFinishable(env, provider, history, steps, replies, |steps|);
    NothingRemains(env, last, provider);
    hide Finishable, Finished, Remaining, NextNeeded, Process, AnswerOf;
    forall i: nat | i < |last|
      ensures var next := NextNeeded(env, last[i]);
              !next.Crash? && (next.Needs? ==> Process(env, last[i], next.stage, AnswerOf(provider, next.stage, last[i].text)).1.Complete?)
    {
      ServedNeverCrashes(env, last, i, provider);
      if NextNeeded(env, last[i]).Needs? { ServedStep(env, last, i, NextNeeded(env, last[i]).stage, provider); }
    }
  }

  lemma {:induction false} NoneRemaining(env: Env, notes: seq<NoteState>, i: nat)
    requires Remaining(env, notes) == 0 && i < |notes|
    ensures !NextNeeded(env, notes[i]).Needs?
  {
    hide NextNeeded;
    if i < |notes| - 1 { NoneRemaining(env, notes[..|notes| - 1], i); }
  }
}
