/** What moves do to the meaning of links: every link goes on denoting the same note. */
module LinkIntegrity {
  import opened Text
  import opened VaultPaths
  import opened Wikilinks
  import opened Proposals

  /** A link target denotes a note by its full path, or by its bare stem when no other note has it. */
  ghost predicate Denotes(notes: set<Path>, target: string, p: Path) {
    && p in notes && IsNote(p)
    && (Key(p) == target || (Stem(p) == target && forall q | q in notes && IsNote(q) && Stem(q) == target :: q == p))
  }

  /** A target never denotes two notes. */
  lemma DenotesOne(notes: set<Path>, target: string, p: Path, q: Path)
    requires Denotes(notes, target, p) && Denotes(notes, target, q)
    ensures p == q
  {
    if Key(p) == target && Key(q) == target {
      KeyInjective(p, q);
    } else if Key(p) == target {
      KeyIsStem(p, target);
    } else if Key(q) == target {
      KeyIsStem(q, target);
    }
  }

  /** A move whose links are rewritten, into a folder, that keeps the note's stem or gives it one that
      no note of the vault has and no other move takes. */
  ghost predicate SoundMove(env: Env, start: FS, ops: seq<Op>, i: nat)
    requires i < |ops| && Validated(ops[i]) && ops[i].MoveNote?
  {
    var s, d := ops[i].path, ops[i].destination;
    && ops[i].updateLinks && IsNote(s) && IsNote(d) && |d| > 1 && ".git" !in d
    && (CleanTarget(Key(s)) ==> CleanTarget(Key(d))) && (CleanTarget(Stem(s)) ==> CleanTarget(Stem(d)))
    && (Stem(d) == Stem(s) || FreshStem(start, ops, i, Stem(d)))
  }

  ghost predicate FreshStem(start: FS, ops: seq<Op>, i: nat, stem: string)
    requires i < |ops|
  {
    && (forall p | p in start.files && IsNote(p) :: Stem(p) != stem)
    && (forall j | 0 <= j < |ops| && j != i && ops[j].MoveNote? && IsNote(ops[j].destination) ::
          Stem(ops[j].destination) != stem)
  }

  /** A batch of moves, with the folders created for them. */
  ghost predicate MoveBatch(env: Env, start: FS, ops: seq<Op>) {
    forall i: nat | i < |ops| ::
      && Validated(ops[i])
      && (ops[i].CreateDirectory? || (ops[i].MoveNote? && SoundMove(env, start, ops, i)))
  }

  // ---- one rename ----

  /** Moving `s` to `d` and replacing targets accordingly preserves what a target denotes. */
  lemma RenameKeepsDenotation(notes: set<Path>, s: Path, d: Path, target: string, q: Path)
    requires s in notes && d !in notes && IsNote(s) && IsNote(d) && Denotes(notes, target, q)
    // the new stem is the old one, or new to the vault
    requires Stem(d) == Stem(s) || forall p | p in notes && IsNote(p) :: Stem(p) != Stem(d)
    // a renamed note's bare stem is not the full path of another note
    requires Stem(d) != Stem(s) && target == Stem(s) ==> q == s
    ensures Denotes(notes - {s} + {d}, Retargeting(s, d).Of(target), if q == s then d else q)
  {
    if Key(q) == target {
      if q != s && Key(s) == target { KeyInjective(s, q); }
    } else if Key(s) == target {
      KeyIsStem(s, target);
    }
  }

  /** Exactly when renaming a filed note that its bare stem denotes is safe: every target keeps its meaning
      if and only if the stem stays or no note of the vault already has the new one. The preflight
      does not check this. */
  lemma RenameSafeIff(notes: set<Path>, s: Path, d: Path)
    requires s in notes && d !in notes && IsNote(s) && IsNote(d) && |s| > 1 && |d| > 1 && Denotes(notes, Stem(s), s)
    ensures (forall t, q | Denotes(notes, t, q) ::
               Denotes(notes - {s} + {d}, Retargeting(s, d).Of(t), if q == s then d else q))
       <==> (Stem(d) == Stem(s) || forall p | p in notes && IsNote(p) :: Stem(p) != Stem(d))
  {
    if Stem(d) == Stem(s) || forall p | p in notes && IsNote(p) :: Stem(p) != Stem(d) {
      forall t, q | Denotes(notes, t, q)
        ensures Denotes(notes - {s} + {d}, Retargeting(s, d).Of(t), if q == s then d else q)
      {
        if t == Stem(s) { DenotesOne(notes, t, q, s); }
        RenameKeepsDenotation(notes, s, d, t, q);
      }
    } else {
      var p :| p in notes && IsNote(p) && Stem(p) == Stem(d);
      RenameToTakenStem(notes, s, d, p);
    }
  }

  lemma RenameToTakenStem(notes: set<Path>, s: Path, d: Path, p: Path)
    requires s in notes && d !in notes && IsNote(s) && IsNote(d) && |s| > 1 && |d| > 1
    requires p in notes && IsNote(p) && Stem(p) == Stem(d) && Stem(d) != Stem(s)
    ensures !Denotes(notes - {s} + {d}, Retargeting(s, d).Of(Stem(s)), d)
  {
    KeyInFolder(s, Stem(s));
    KeyInFolder(d, Stem(d));
    assert p in notes - {s} + {d};
  }

  lemma KeyInFolder(p: Path, stem: string)
    requires IsNote(p) && |p| > 1 && Avoids(stem, "/")
    ensures Key(p) != stem
  {
    if Key(p) == stem { KeyIsStem(p, stem); }
  }

  // ---- the whole batch ----

  /** Nothing but originals and landed notes is ever present in a batch of moves. */
  lemma BatchStems(env: Env, start: FS, ops: seq<Op>, k: nat, fs: FS, p: Path)
    requires MoveBatch(env, start, ops) && k < |ops| && ops[k].MoveNote? && Accounted(env, start, ops, k, fs)
    requires Stem(ops[k].destination) != Stem(ops[k].path) && p in fs.files && IsNote(p)
    ensures Stem(p) != Stem(ops[k].destination)
  {
    assert SoundMove(env, start, ops, k);
    assert !WrittenBefore(ops, k, p);
    assert !IsMarkdown(env.ConfigFile());
    if p !in start.files {
      var j :| 0 <= j < k && ops[j].MoveNote? && ops[j].destination == p;
      assert SoundMove(env, start, ops, j);
    }
  }

  lemma LandedDeep(env: Env, start: FS, ops: seq<Op>, k: nat, p: Path)
    requires MoveBatch(env, start, ops) && k <= |ops| && LandedBefore(env, ops, k, p)
    ensures |p| > 1 && Rewritable(env, p)
  {
    var j :| 0 <= j < k && ops[j].MoveNote? && !TouchesSystem(env, ops[j]) && ops[j].destination == p;
    assert SoundMove(env, start, ops, j);
  }

  lemma PlaceRewritable(env: Env, start: FS, ops: seq<Op>, k: nat, n: Path)
    requires Clean(env, start, ops) && MoveBatch(env, start, ops) && k <= |ops|
    requires n in start.files && Rewritable(env, n)
    ensures Rewritable(env, Place(ops, k, n))
  {
    PlaceIsOwnOrLanded(env, start, ops, k, n);
    if Place(ops, k, n) != n { LandedDeep(env, start, ops, k, Place(ops, k, n)); }
  }

  /** Replacing the targets of a sound move leaves every target of a text legal. */
  lemma SoundStaysClean(env: Env, start: FS, ops: seq<Op>, k: nat, text: string)
    requires k < |ops| && Validated(ops[k]) && ops[k].MoveNote? && SoundMove(env, start, ops, k)
    ensures StaysClean(text, Retargeting(ops[k].path, ops[k].destination))
  {
    ScanCanonical(text);
    forall i | 0 <= i < |Scan(text)| && Scan(text)[i].Wiki?
      ensures CleanTarget(Retargeting(ops[k].path, ops[k].destination).Of(Scan(text)[i].link.target))
    {
      CanonicalLinks(Scan(text), i);
    }
  }

  /** The ambiguity check at work: while a renamed note shares its bare stem with the full path of a
      root note, no link of the vault may use that stem. */
  lemma BareStemIsOwn(env: Env, start: FS, ops: seq<Op>, k: nat, fs: FS, n: Path, i: nat, q: Path)
    requires Clean(env, start, ops) && MoveBatch(env, start, ops) && k < |ops| && ops[k].MoveNote?
    requires env.system != [] && env.system !in start.files
    requires n in start.files && Rewritable(env, n) && i < |Scan(start.files[n])| && Scan(start.files[n])[i].Wiki?
    requires q in start.files && ops[k].path in fs.files
    requires var target := Stem(ops[k].path);
             && Denotes(fs.files.Keys, target, Place(ops, k, q))
             && (Place(ops, k, q) == q ==> Scan(start.files[n])[i].link.target == target)
    ensures Place(ops, k, q) == ops[k].path
  {
    var s := ops[k].path;
    var h := Place(ops, k, q);
    assert IsNote(s) by { assert SoundMove(env, start, ops, k); }
    assert s in start.files && !Under(s, env.system) && !Ambiguous(env, start, s) by {
      assert SoundMove(env, start, ops, k);
      assert OpClean(env, start, ops, k);
    }
    if h != s {
      DenotedElsewhere(fs.files.Keys, s, h);
      PlaceIsOwnOrLanded(env, start, ops, k, q);
      if h != q { LandedDeep(env, start, ops, k, h); }
      hide OpClean, Ambiguous, SoundMove, MoveBatch, Rewritable, Denotes;
      RootNoteIsOutside(env, start, q);
      SimpleLinkSeen(start.files[n], i);
      SharedStemIsAmbiguous(env, start, s, q, n);
      assert false;
    }
  }

  lemma RootNoteIsOutside(env: Env, start: FS, q: Path)
    requires env.system != [] && env.system !in start.files && q in start.files && |q| == 1
    ensures !Under(q, env.system)
  {
    assert |env.system| == 1 && env.system[0] == q[0] ==> env.system == q;
  }

  lemma DenotedElsewhere(notes: set<Path>, s: Path, h: Path)
    requires s in notes && IsNote(s) && Denotes(notes, Stem(s), h) && h != s
    ensures |h| == 1 && IsNote(h) && Stem(h) == Stem(s)
  {
    KeyIsStem(h, Stem(s));
  }

  lemma SharedStemIsAmbiguous(env: Env, start: FS, s: Path, q: Path, n: Path)
    requires s in start.files && q in start.files && s != q && IsNote(s) && IsNote(q) && Stem(q) == Stem(s)
    requires !Under(s, env.system) && !Under(q, env.system)
    requires n in start.files && Rewritable(env, n) && HasSimpleLink(start.files[n], Stem(s))
    ensures Ambiguous(env, start, s)
  {
    hide HasSimpleLink;
    assert Name(q) == Stem(q) + ".md" && Name(s) == Stem(s) + ".md";
    assert q in Named(env, start, Name(s)) && s in Named(env, start, Name(s));
  }

  /** A note that the ambiguity check reads. */
  predicate Searched(env: Env, fs: FS, n: Path) {
    n in fs.files && IsMarkdown(n) && !Under(n, env.system)
  }

  lemma SeveralIff<T>(s: set<T>)
    ensures (exists p, q | p in s && q in s :: p != q) <==> |s| > 1
  {
    if p, q :| p in s && q in s && p != q {
      assert {p, q} <= s;
      FewerMembers({p, q}, s);
    }
    if |s| > 1 {
      var p :| p in s;
      assert |s - {p}| == |s| - 1;
      var q :| q in s - {p};
    }
  }

  lemma {:induction false} FewerMembers<T>(a: set<T>, b: set<T>)
    requires a <= b
    ensures |a| <= |b|
  {
    assert a + (b - a) == b;
  }

  /** A move is refused as ambiguous if and only if more than one file or folder has the name of the note
      and some searched note links to it by its bare stem or holds a stray `[[` before that stem. */
  lemma AmbiguousIff(env: Env, fs: FS, source: Path)
    requires MovePath(source) && Avoids(Stem(source), "]|#")
    ensures Ambiguous(env, fs, source)
       <==> (&& |Named(env, fs, Name(source))| > 1
             && exists n | Searched(env, fs, n) :: HasLinkTo(fs.files[n], Stem(source)) || Stray(fs.files[n], Stem(source)))
    ensures (forall n | Searched(env, fs, n) :: PairsOpen(fs.files[n])) ==>
              (Ambiguous(env, fs, source)
          <==> |Named(env, fs, Name(source))| > 1 && exists n | Searched(env, fs, n) :: HasLinkTo(fs.files[n], Stem(source)))
  {
    SeveralIff(Named(env, fs, Name(source)));
    forall n | Searched(env, fs, n)
      ensures HasSimpleLink(fs.files[n], Stem(source)) <==> HasLinkTo(fs.files[n], Stem(source)) || Stray(fs.files[n], Stem(source))
      ensures PairsOpen(fs.files[n]) ==> !Stray(fs.files[n], Stem(source))
    {
      SimpleLinkIff(fs.files[n], Stem(source));
      if PairsOpen(fs.files[n]) { NoStray(fs.files[n], Stem(source)); }
    }
    hide HasSimpleLink, HasLinkTo, Named, Stray, PairsOpen, Avoids, Stem, Scan, IsMarkdown, Under;
  }

  /** The i-th link of a note after `k` operations: same shape as at the start, still denoting the
      same note, and untouched while that note has not moved. */
  ghost predicate LinkKept(start: FS, ops: seq<Op>, k: nat, fs: FS, n: Path, i: nat, q: Path)
    requires k <= |ops| && n in start.files && i < |Scan(start.files[n])| && Scan(start.files[n])[i].Wiki?
  {
    && Place(ops, k, n) in fs.files
    && var was, now := Scan(start.files[n]), Scan(fs.files[Place(ops, k, n)]);
    && Frames(now) == Frames(was)
    && now[i].Wiki?
    && Denotes(fs.files.Keys, now[i].link.target, Place(ops, k, q))
    && (Place(ops, k, q) == q ==> now[i].link.target == was[i].link.target)
  }

  lemma FramesRetarget(ts: seq<Token>, r: Retarget)
    ensures Frames(RetargetTokens(ts, r)) == Frames(ts)
  {
  }

  /** A sound move rescans every non-system note to the same tokens with its targets replaced. */
  lemma StepRescans(env: Env, start: FS, ops: seq<Op>, k: nat, fs: FS, n: Path)
    requires Clean(env, start, ops) && MoveBatch(env, start, ops) && k < |ops| && ops[k].MoveNote?
    requires n in start.files && Rewritable(env, n) && Kept(env, start, ops, k, fs) && Accounted(env, start, ops, k, fs)
    requires Apply(env, fs, ops[k]).1 == Applied
    ensures var after := Apply(env, fs, ops[k]).0;
            && Place(ops, k, n) in fs.files && Place(ops, k + 1, n) in after.files
            && Scan(after.files[Place(ops, k + 1, n)])
               == RetargetTokens(Scan(fs.files[Place(ops, k, n)]), Retargeting(ops[k].path, ops[k].destination))
  {
    hide Key, Stem, Ambiguous, CleanTarget;
    assert SoundMove(env, start, ops, k);
    RenameKeeps(env, start, ops, k, fs, n);
    PlaceRewritable(env, start, ops, k + 1, n);
    SoundStaysClean(env, start, ops, k, fs.files[Place(ops, k, n)]);
    RescanIff(fs.files[Place(ops, k, n)], Retargeting(ops[k].path, ops[k].destination));
  }

  /** A sound move preserves what a link target denotes, for any target a note of the vault holds. */
  lemma StepDenotes(env: Env, start: FS, ops: seq<Op>, k: nat, fs: FS, n: Path, i: nat, q: Path, target: string)
    requires Clean(env, start, ops) && MoveBatch(env, start, ops) && k < |ops| && ops[k].MoveNote?
    requires env.system != [] && env.system !in start.files
    requires n in start.files && Rewritable(env, n) && i < |Scan(start.files[n])| && Scan(start.files[n])[i].Wiki?
    requires q in start.files && Accounted(env, start, ops, k, fs) && Apply(env, fs, ops[k]).1 == Applied
    requires Denotes(fs.files.Keys, target, Place(ops, k, q))
    requires Place(ops, k, q) == q ==> target == Scan(start.files[n])[i].link.target
    ensures var now := Retargeting(ops[k].path, ops[k].destination).Of(target);
            && Denotes(Apply(env, fs, ops[k]).0.files.Keys, now, Place(ops, k + 1, q))
            && (Place(ops, k + 1, q) == q ==> now == target && Place(ops, k, q) == q)
  {
    hide Key, Stem, Ambiguous, CleanTarget, OpClean, Scan;
    var s, d := ops[k].path, ops[k].destination;
    assert SoundMove(env, start, ops, k);
    MoveLandsOnFreePath(env, start, ops, k, fs);
    if Stem(d) != Stem(s) {
      forall p | p in fs.files.Keys && IsNote(p) ensures Stem(p) != Stem(d) { BatchStems(env, start, ops, k, fs, p); }
      if target == Stem(s) { BareStemIsOwn(env, start, ops, k, fs, n, i, q); }
    }
    RenameKeepsDenotation(fs.files.Keys, s, d, target, Place(ops, k, q));
    assert Apply(env, fs, ops[k]).0.files.Keys == fs.files.Keys - {s} + {d};
    PlaceFollows(env, start, ops, k, q);
    if Place(ops, k + 1, q) == q {
      UnmovedTargetStays(fs.files.Keys, s, d, target, Place(ops, k, q));
    }
  }

  lemma LinkStep(env: Env, start: FS, ops: seq<Op>, k: nat, fs: FS, n: Path, i: nat, q: Path)
    requires Clean(env, start, ops) && MoveBatch(env, start, ops) && k < |ops| && ops[k].MoveNote?
    requires env.system != [] && env.system !in start.files
    requires n in start.files && Rewritable(env, n) && i < |Scan(start.files[n])| && Scan(start.files[n])[i].Wiki?
    requires q in start.files && Kept(env, start, ops, k, fs) && Accounted(env, start, ops, k, fs)
    requires LinkKept(start, ops, k, fs, n, i, q) && Apply(env, fs, ops[k]).1 == Applied
    ensures LinkKept(start, ops, k + 1, Apply(env, fs, ops[k]).0, n, i, q)
  {
    var r := Retargeting(ops[k].path, ops[k].destination);
    var was := Scan(fs.files[Place(ops, k, n)]);
    hide OpClean, MoveBatch, Denotes, Apply, Rewritable, Scan, Kept, Accounted, Retargeting;
    StepRescans(env, start, ops, k, fs, n);
    StepDenotes(env, start, ops, k, fs, n, i, q, was[i].link.target);
    FramesRetarget(was, r);
  }

  /** A target that denotes a note other than the moved one is not replaced. */
  lemma UnmovedTargetStays(notes: set<Path>, s: Path, d: Path, target: string, q: Path)
    requires s in notes && IsNote(s) && IsNote(d) && Denotes(notes, target, q) && q != s
    requires Stem(d) != Stem(s) ==> target != Stem(s)
    ensures Retargeting(s, d).Of(target) == target
  {
    if Key(s) == target {
      if Key(q) == target { KeyInjective(s, q); } else { KeyIsStem(s, target); }
    }
  }

  lemma PlaceFollows(env: Env, start: FS, ops: seq<Op>, k: nat, q: Path)
    requires Clean(env, start, ops) && k < |ops| && ops[k].MoveNote? && q in start.files
    ensures Place(ops, k + 1, q) == if Place(ops, k, q) == ops[k].path then ops[k].destination else Place(ops, k, q)
    ensures Place(ops, k + 1, q) == q ==> Place(ops, k, q) == q && q != ops[k].path
  {
    assert OpClean(env, start, ops, k);
    PlaceIsOwnOrLanded(env, start, ops, k, q);
  }

  lemma LinkAdvance(env: Env, start: FS, ops: seq<Op>, k: nat, fs: FS, n: Path, i: nat, q: Path)
    requires Clean(env, start, ops) && MoveBatch(env, start, ops) && k < |ops|
    requires env.system != [] && env.system !in start.files
    requires n in start.files && Rewritable(env, n) && i < |Scan(start.files[n])| && Scan(start.files[n])[i].Wiki?
    requires q in start.files && Kept(env, start, ops, k, fs) && Accounted(env, start, ops, k, fs)
    requires LinkKept(start, ops, k, fs, n, i, q) && Apply(env, fs, ops[k]).1 != Raised
    ensures LinkKept(start, ops, k + 1, Apply(env, fs, ops[k]).0, n, i, q)
  {
    OnlyAppliedChanges(env, fs, ops[k]);
    if ops[k].MoveNote? {
      LinkStep(env, start, ops, k, fs, n, i, q);
    } else {
      BatchMkdir(env, start, ops, k, fs);
      LinkIdle(start, ops, k, fs, Apply(env, fs, ops[k]).0, n, i, q);
    }
  }

  /** After any part of a preflight-clean batch of sound moves that has not been stopped, every link
      of a Markdown file outside the system folder and any `.git` has its heading, alias and surrounding text unchanged, and denotes the very
      note it denoted before the batch, at its new path if that note has moved. */
  lemma {:induction false} LinksKeepTheirMeaning(
    env: Env, start: FS, ops: seq<Op>, k: nat, n: Path, i: nat, q: Path)
    requires Clean(env, start, ops) && MoveBatch(env, start, ops) && k <= |ops| && !StateAt(env, start, ops, k).1
    requires env.system != [] && env.system !in start.files
    requires n in start.files && n != [] && EndsWith(n[|n| - 1], ".md") && ".git" !in n && !(env.system <= n)
    requires i < |Scan(start.files[n])| && Scan(start.files[n])[i].Wiki?
    requires q in start.files && Denotes(start.files.Keys, Scan(start.files[n])[i].link.target, q)
    ensures LinkKept(start, ops, k, StateAt(env, start, ops, k).0, n, i, q)
  {
    assert Rewritable(env, n);
    hide Denotes, MoveBatch, OpClean, Rewritable, Apply, LinkKept, Kept, Accounted;
    if k == 0 {
      LinkAtStart(start, ops, n, i, q);
    } else {
      LinksKeepTheirMeaning(env, start, ops, k - 1, n, i, q);
      NothingLost(env, start, ops, k - 1);
      LinkAdvance(env, start, ops, k - 1, StateAt(env, start, ops, k - 1).0, n, i, q);
    }
  }

  lemma LinkAtStart(start: FS, ops: seq<Op>, n: Path, i: nat, q: Path)
    requires n in start.files && i < |Scan(start.files[n])| && Scan(start.files[n])[i].Wiki?
    requires Denotes(start.files.Keys, Scan(start.files[n])[i].link.target, q)
    ensures LinkKept(start, ops, 0, start, n, i, q)
  {
  }

  lemma LinkIdle(start: FS, ops: seq<Op>, k: nat, fs: FS, after: FS, n: Path, i: nat, q: Path)
    requires k < |ops| && !ops[k].MoveNote? && after.files == fs.files
    requires n in start.files && i < |Scan(start.files[n])| && Scan(start.files[n])[i].Wiki?
    requires LinkKept(start, ops, k, fs, n, i, q)
    ensures LinkKept(start, ops, k + 1, after, n, i, q)
  {
    PlaceAfter(ops, k, n);
    PlaceAfter(ops, k, q);
  }

  lemma BatchMkdir(env: Env, start: FS, ops: seq<Op>, k: nat, fs: FS)
    requires MoveBatch(env, start, ops) && k < |ops| && !ops[k].MoveNote?
    ensures Apply(env, fs, ops[k]).0.files == fs.files
  {
  }
}
