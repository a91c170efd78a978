/** What each stage of the processing machine needs, accepts, and writes, property by property. */
module ProcessingLaws {
  import opened Text
  import opened Frontmatter
  import opened NoteBody
  import opened SchemaTerms
  import opened Processing

  // ---- when a completion is current ----

  /** A completed stage stays complete exactly while the note has the same hash and the norms lock is off or
      the one under which the note was last marked. */
  lemma CompletionLapses(env: Env, s: NoteState, stage: Stage, text: string, lock: string)
    requires StageComplete(env, s, stage)
    ensures StageComplete(env.(lock := lock), NoteState(text, s.ledger), stage)
       <==> env.digest(text) == env.digest(s.text) && (lock == "" || lock == s.ledger.lock)
  {
  }

  /** A stage that completes is complete afterwards, under the lock of the run; every other stage keeps its own
      record, and a folder is recorded only by the stage that assigns one. */
  lemma CompletedIsRecorded(env: Env, s: NoteState, stage: Stage, reply: Option<Reply>)
    requires Process(env, s, stage, reply).1.Complete?
    ensures var after := Process(env, s, stage, reply).0;
            && StageComplete(env, after, stage)
            && after.ledger.stages == s.ledger.stages[stage := after.ledger.stages[stage]]
            && after.ledger.hash == Some(env.digest(after.text))
            && after.ledger.lock == (if env.lock == "" then s.ledger.lock else env.lock)
            && after.ledger.stages[stage].confidence == (if reply.Some? && reply.value.Answer? && AsksModel(stage) then reply.value.confidence else None)
            && after.ledger.stages[stage].warnings == (if reply.Some? && reply.value.Answer? && AsksModel(stage) then reply.value.warnings else [])
            && (!stage.AssignFolder? ==> after.ledger.routed == s.ledger.routed)
  {
    hide Validated, Held, Canonical, RenderNote, ShapeDefaults, AppendMissing, PutValues, ApplySummary, Parse, Lookup, Put, HubNamed, FolderHub;
    if reply.Some? && reply.value.Unusable? { UnusableRefused(env, stage, [], reply.value); }
    if reply.Some? && reply.value.Unusable? && Parse(env, s.text).Some? {
      var n := Parse(env, s.text).value;
      if DomainNamed(n.fm) { UnusableRefused(env, stage, env.hubs(Lookup(n.fm, "domain").text), reply.value); }
    }
  }

  predicate AsksModel(stage: Stage) {
    stage != Shape && stage != TemplateBody
  }

  lemma UnusableRefused(env: Env, stage: Stage, hubs: seq<string>, reply: Reply)
    requires reply.Unusable?
    ensures Judge(env, stage, hubs, reply).Refused?
  {
  }

  /** A stage that is not completed is marked as not complete, under the hash of the note as it is. */
  lemma BlockedIsRecorded(env: Env, s: NoteState, stage: Stage)
    ensures var l := MarkBlocked(env, s.ledger, s.text, stage);
            && !StageComplete(env, NoteState(s.text, l), stage) && l.hash == Some(env.digest(s.text))
            && l.lock == (if env.lock == "" then s.ledger.lock else env.lock) && l.routed == s.ledger.routed
            && l.stages == s.ledger.stages[stage := l.stages[stage]]
  {
  }

  // ---- when a stage is needed ----

  predicate Blank(fm: Dict, x: string) {
    !HasKey(fm, x) || Lookup(fm, x) == Null || Lookup(fm, x) == Scalar("")
  }

  /** The note carries a property that the schema does not have. */
  ghost predicate HasForeign(env: Env, fm: Dict) {
    exists x | HasKey(fm, x) ::
      && x !in {"type", "status", "domain", "parent", "related", "cover", "source_kind", "capture_type"}
      && forall i | 0 <= i < |env.customs| :: env.customs[i].name != x
  }

  ghost predicate TypeKnown(env: Env, fm: Dict) {
    exists t: string :: Lookup(fm, "type") == Scalar(t) && (t in BuiltinTypes() || (t != "" && t in env.schemaTypes))
  }

  /** A controlled property has a text that is neither built in nor in the schema, nor, for the domain, one
      with a folder of its own. */
  ghost predicate HasStrayValue(env: Env, fm: Dict) {
    exists f: Field, t: string | t != "" && Lookup(fm, Key(f)) == Scalar(t) ::
      t !in Builtin(f) && t !in env.schemaValues(f) && !(f == Domain && t in env.domainFolders)
  }

  /** The table of needs. */
  ghost predicate NeedSays(env: Env, s: NoteState, n: Note, stage: Stage) {
    var done := StageComplete(env, s, stage);
    match stage
    case Shape =>
      || (exists x | x in {"type", "status", "domain", "parent", "related", "cover", "source_kind", "capture_type"} :: !HasKey(n.fm, x))
      || (HasForeign(env, n.fm) && (!done || !env.preserve))
    case ClassifyType => !TypeKnown(env, n.fm)
    case PropertyValues =>
      && TypeKnown(env, n.fm)
      && (|| HasStrayValue(env, n.fm)
          || (exists x | x in {"status", "domain", "parent", "related", "cover", "source_kind", "capture_type"} ::
                if done then !HasKey(n.fm, x) else Blank(n.fm, x)))
    case TemplateBody => !done && TypeKnown(env, n.fm) && Missing(n.body, env.sections(Lookup(n.fm, "type").text)) != []
    case AssignHub =>
      !done && (exists d: string | d != "" && Lookup(n.fm, "domain") == Scalar(d) :: env.hubs(d) != []) && Blank(n.fm, "parent")
    case AssignFolder => !done && env.customRouting && env.folders != []
    case Summary =>
      && !done && Lookup(n.fm, "type") !in {Null, Flag(false), Scalar(""), List([])}
      && (if exists i | 0 <= i < |env.customs| :: env.customs[i].name == "summary"
          then !exists t: string | Strip(t) != "" :: Lookup(n.fm, "summary") == Scalar(t)
          else SummaryMissing(n.body))
  }

  lemma CoreKeys(x: string)
    ensures x in CoreOrder() <==> x in {"type", "status", "domain", "parent", "related", "cover", "source_kind", "capture_type"}
    ensures x in ValueKeys() <==> x in {"status", "domain", "parent", "related", "cover", "source_kind", "capture_type"}
  {
    assert CoreOrder()[0] == "type" && CoreOrder()[1] == "status" && CoreOrder()[2] == "domain" && CoreOrder()[3] == "parent"
        && CoreOrder()[4] == "related" && CoreOrder()[5] == "cover" && CoreOrder()[6] == "source_kind" && CoreOrder()[7] == "capture_type";
    assert ValueKeys()[0] == "status" && ValueKeys()[1] == "domain" && ValueKeys()[2] == "parent" && ValueKeys()[3] == "related"
        && ValueKeys()[4] == "cover" && ValueKeys()[5] == "source_kind" && ValueKeys()[6] == "capture_type";
  }

  lemma InOrder(env: Env, x: string)
    ensures x in env.Order() <==> x in CoreOrder() || exists i | 0 <= i < |env.customs| :: env.customs[i].name == x
  {
    if i :| 0 <= i < |env.customs| && env.customs[i].name == x { assert env.Names()[i] == x; }
    hide CoreOrder;
  }

  lemma ForeignIs(env: Env, fm: Dict)
    ensures HasForeign(env, fm) <==> HasUnknown(env, fm)
  {
    forall x: string
      ensures x in env.Order() <==>
                || x in {"type", "status", "domain", "parent", "related", "cover", "source_kind", "capture_type"}
                || exists i | 0 <= i < |env.customs| :: env.customs[i].name == x
    {
      CoreKeys(x);
      InOrder(env, x);
    }
    hide Env.Order, CoreOrder;
    if HasUnknown(env, fm) {
      var i :| 0 <= i < |fm| && fm[i].0 !in env.Order();
      assert HasKey(fm, fm[i].0);
    }
  }

  lemma KnownIs(env: Env, fm: Dict)
    ensures TypeKnown(env, fm) <==> TypeApproved(env, fm)
  {
    hide Lookup, BuiltinTypes;
    assert "" !in BuiltinTypes() by { NoBlankType(); }
  }

  lemma NoBlankType()
    ensures "" !in BuiltinTypes()
  {
  }

  lemma StrayIs(env: Env, fm: Dict)
    ensures HasStrayValue(env, fm) <==> HasUnapproved(env, fm)
  {
    hide Lookup, Builtin;
    forall f: Field ensures Unapproved(env, fm, f) <==>
        exists t: string | t != "" && Lookup(fm, Key(f)) == Scalar(t) ::
          t !in Builtin(f) && t !in env.schemaValues(f) && !(f == Domain && t in env.domainFolders) {
      hide Key;
    }
    hide Unapproved, Key;
    if HasStrayValue(env, fm) {
      var f: Field, t: string :| t != "" && Lookup(fm, Key(f)) == Scalar(t)
        && t !in Builtin(f) && t !in env.schemaValues(f) && !(f == Domain && t in env.domainFolders);
      assert Unapproved(env, fm, f);
      match f case Status => case Domain => case SourceKind => case CaptureType =>
    }
  }

  lemma BlankIs(fm: Dict, x: string)
    ensures Blank(fm, x) <==> !HasKey(fm, x) || IsBlank(Lookup(fm, x))
    ensures Blank(fm, x) <==> IsBlank(Lookup(fm, x))
  {
    if !HasKey(fm, x) { LookupAbsent(fm, x); }
  }

  /** A stage is needed exactly when the table says so. */
  lemma NeededIff(env: Env, s: NoteState, n: Note, stage: Stage)
    ensures Needed(env, s, n, stage) <==> NeedSays(env, s, n, stage)
  {
    ForeignIs(env, n.fm);
    KnownIs(env, n.fm);
    StrayIs(env, n.fm);
    AllThere(n.fm);
    ValuesThere(n.fm);
    BlankIs(n.fm, "parent");
    SummaryIs(env);
    hide StageComplete, HasForeign, HasUnknown, TypeKnown, TypeApproved, HasStrayValue, HasUnapproved, Missing, SummaryMissing,
      Lookup, HasKey, HasAll, FilledAll, Strip, CoreOrder, ValueKeys, Blank, IsBlank, Env.SummaryIsProperty;
  }

  lemma AllThere(fm: Dict)
    ensures HasAll(fm, CoreOrder()) <==>
              !exists x | x in {"type", "status", "domain", "parent", "related", "cover", "source_kind", "capture_type"} :: !HasKey(fm, x)
  {
    hide HasKey;
    forall i | 0 <= i < 8
      ensures CoreOrder()[i] in {"type", "status", "domain", "parent", "related", "cover", "source_kind", "capture_type"}
    {
    }
    if HasAll(fm, CoreOrder()) {
      forall x | x in {"type", "status", "domain", "parent", "related", "cover", "source_kind", "capture_type"} ensures HasKey(fm, x) {
        CoreKeys(x);
        var i :| 0 <= i < 8 && CoreOrder()[i] == x;
      }
    }
  }

  lemma ValuesThere(fm: Dict)
    ensures HasAll(fm, ValueKeys()) <==>
              !exists x | x in {"status", "domain", "parent", "related", "cover", "source_kind", "capture_type"} :: !HasKey(fm, x)
    ensures FilledAll(fm, ValueKeys()) <==>
              !exists x | x in {"status", "domain", "parent", "related", "cover", "source_kind", "capture_type"} :: Blank(fm, x)
  {
    forall x: string ensures Blank(fm, x) <==> !HasKey(fm, x) || IsBlank(Lookup(fm, x)) { BlankIs(fm, x); }
    forall i | 0 <= i < 7
      ensures ValueKeys()[i] in {"status", "domain", "parent", "related", "cover", "source_kind", "capture_type"}
    {
    }
    hide HasKey, Lookup, Blank, IsBlank;
    forall x | x in {"status", "domain", "parent", "related", "cover", "source_kind", "capture_type"}
      ensures HasAll(fm, ValueKeys()) ==> HasKey(fm, x)
      ensures FilledAll(fm, ValueKeys()) ==> !Blank(fm, x)
    {
      CoreKeys(x);
      var i :| 0 <= i < 7 && ValueKeys()[i] == x;
    }
    hide ValueKeys;
  }

  lemma SummaryIs(env: Env)
    ensures env.SummaryIsProperty() <==> exists i | 0 <= i < |env.customs| :: env.customs[i].name == "summary"
  {
    if i :| 0 <= i < |env.customs| && env.customs[i].name == "summary" { assert env.Names()[i] == "summary"; }
  }

  lemma FirstNeeded(env: Env, s: NoteState, n: Note, stage: Stage)
    requires Parse(env, s.text) == Some(n)
    ensures NextNeeded(env, s) == Needs(stage) <==>
              && Needed(env, s, n, stage) && (forall t: Stage | Index(t) < Index(stage) :: !Needed(env, s, n, t))
              && (stage == Shape || !TypeCrashes(n.fm))
    ensures NextNeeded(env, s) == Crash <==> TypeCrashes(n.fm) && !Needed(env, s, n, Shape)
    ensures NextNeeded(env, s) == Done <==> !TypeCrashes(n.fm) && forall t: Stage :: !Needed(env, s, n, t)
  {
    hide Parse, Needed, TypeCrashes;
    forall t: Stage ensures NextNeeded(env, s) == Done ==> !Needed(env, s, n, t) {
      match t case Shape => case ClassifyType => case PropertyValues => case TemplateBody => case AssignHub => case AssignFolder => case Summary =>
    }
  }

  /** The next stage is the first of the seven that is needed; a list for a type stops the search once the
      note has its shape. */
  lemma NextIsFirstNeeded(env: Env, s: NoteState, n: Note, stage: Stage)
    requires Parse(env, s.text) == Some(n)
    ensures NextNeeded(env, s) == Needs(stage) <==>
              && NeedSays(env, s, n, stage) && (forall t: Stage | Index(t) < Index(stage) :: !NeedSays(env, s, n, t))
              && (stage == Shape || !TypeCrashes(n.fm))
    ensures NextNeeded(env, s) == Crash <==> TypeCrashes(n.fm) && !NeedSays(env, s, n, Shape)
    ensures NextNeeded(env, s) == Done <==> !TypeCrashes(n.fm) && forall t: Stage :: !NeedSays(env, s, n, t)
  {
    hide *;
    FirstNeeded(env, s, n, stage);
    forall t: Stage ensures Needed(env, s, n, t) <==> NeedSays(env, s, n, t) { NeededIff(env, s, n, t); }
  }

  // ---- which answers pass ----

  /** An answer is passed on when no confidence or no threshold is given, or the confidence is above the
      threshold by more than the margin, and not below it; and, where warnings are to be reviewed, when there
      is none. */
  lemma GateSays(env: Env, confidence: Option<real>, warnings: seq<string>)
    ensures !Held(env, confidence, warnings) <==>
              && (env.reviewOnWarnings ==> warnings == [])
              && (confidence == None || env.threshold == None
                  || (confidence.value >= env.threshold.value && confidence.value - env.margin > env.threshold.value))
  {
  }

  /** So a more confident answer, or one with fewer warnings, is never worse off. */
  lemma GateMonotone(env: Env, low: real, high: real, warnings: seq<string>)
    requires low <= high && !Held(env, Some(low), warnings)
    ensures !Held(env, Some(high), warnings) && !Held(env, Some(high), [])
  {
  }

  /** The values an answer may give a controlled property: the built-in ones; for the domain also those with a
      folder, for the kind of source and of capture also those of the schema. */
  predicate MayAnswer(env: Env, f: Field, v: string) {
    v in Builtin(f) || (f == Domain && v in env.domainFolders) || (f in {SourceKind, CaptureType} && v in env.schemaValues(f))
  }

  lemma MayAnswerIs(env: Env, f: Field, v: string)
    ensures MayAnswer(env, f, v) <==> v in env.Answerable(f)
  {
    hide Builtin;
  }

  /** Every item says something. */
  predicate AllSay(items: seq<string>) {
    forall t | t in items :: Strip(t) != ""
  }

  /** The answers each stage accepts, and what it makes of them: a type the vault has; values that may be
      answered, with lists of texts and texts for the custom properties but `summary`; a hub of the domain,
      written as a link, or none; a declared folder, or none; a summary of at most 1000 characters, stripped. */
  ghost predicate AcceptsAs(env: Env, stage: Stage, hubs: seq<string>, reply: Reply, p: Payload) {
    && reply.Answer? && AllSay(reply.warnings)
    && (reply.confidence == None || 0.0 <= reply.confidence.value <= 1.0)
    && match stage
       case ClassifyType =>
         reply.payload == p && p.NoteType? && (p.noteType in BuiltinTypes() || (p.noteType != "" && p.noteType in env.schemaTypes))
       case PropertyValues =>
         && reply.payload == p && p.Values?
         && MayAnswer(env, Status, p.status) && MayAnswer(env, Domain, p.domain)
         && MayAnswer(env, SourceKind, p.sourceKind) && MayAnswer(env, CaptureType, p.captureType)
         && AllSay(p.related)
         && (forall x | x in p.extra :: x != "summary" && exists c | c in env.customs :: c.name == x)
         && (forall c | c in env.customs && c.name in p.extra ::
               if c.isList then p.extra[c.name].List? && AllSay(p.extra[c.name].items) else p.extra[c.name].Scalar?)
       case AssignHub =>
         && reply.payload.Hub? && p.Hub?
         && (var name := Bare(Strip(reply.payload.parent));
             if name == "" then p.parent == ""
             else exists hub :: LastNamed(hubs, name, hub) && p.parent == "[[" + hub + "]]")
       case AssignFolder =>
         && reply.payload.Folder? && p == Folder(Strip(reply.payload.folder))
         && (p.folder == "" || exists i | 0 <= i < |env.folders| :: env.folders[i] == p.folder)
       case Summary =>
         && reply.payload.SummaryText? && p == SummaryText(Strip(reply.payload.summary))
         && p.summary != "" && |reply.payload.summary| <= 1000
       case _ => false
  }

  lemma AllSayIs(items: seq<string>)
    ensures AllSay(items) <==> NonBlankAll(items)
  {
    hide Strip;
  }

  lemma ExtraIs(env: Env, extra: map<string, Value>)
    ensures ExtraOk(env, extra) <==>
              && (forall x | x in extra :: x != "summary" && exists c | c in env.customs :: c.name == x)
              && (forall c | c in env.customs && c.name in extra ::
                    if c.isList then extra[c.name].List? && AllSay(extra[c.name].items) else extra[c.name].Scalar?)
  {
    forall x: string ensures Fillable(env, x) <==> x != "summary" && exists c | c in env.customs :: c.name == x {
      if i :| 0 <= i < |env.customs| && env.customs[i].name == x { assert env.customs[i] in env.customs; }
    }
    forall items: seq<string> ensures AllSay(items) <==> NonBlankAll(items) { AllSayIs(items); }
    hide Fillable, AllSay, NonBlankAll;
    if forall x | x in extra :: Fillable(env, x) {
      forall i | 0 <= i < |env.customs| && env.customs[i].name in extra ensures env.customs[i].name != "summary" && env.customs[i] in env.customs {
        assert Fillable(env, env.customs[i].name);
      }
    }
  }

  /** The last hub of that name, whatever its case. */
  predicate LastNamed(hubs: seq<string>, name: string, hub: string) {
    exists i | 0 <= i < |hubs| ::
      LowerAscii(hubs[i]) == LowerAscii(name) && hub == hubs[i] && forall j | i < j < |hubs| :: LowerAscii(hubs[j]) != LowerAscii(name)
  }

  lemma LastNamedSnoc(m: seq<string>, last: string, name: string, hub: string)
    ensures LastNamed(m + [last], name, hub) <==> if LowerAscii(last) == LowerAscii(name) then hub == last else LastNamed(m, name, hub)
  {
    hide LowerAscii;
    var hubs := m + [last];
    assert hubs[|m|] == last && forall i | 0 <= i < |m| :: hubs[i] == m[i];
    if LowerAscii(last) != LowerAscii(name) && LastNamed(m, name, hub) {
      var i :| 0 <= i < |m| && LowerAscii(m[i]) == LowerAscii(name) && hub == m[i] && forall j | i < j < |m| :: LowerAscii(m[j]) != LowerAscii(name);
      assert LowerAscii(hubs[i]) == LowerAscii(name) && hub == hubs[i];
    }
  }

  lemma {:induction false} HubNamedIs(hubs: seq<string>, name: string, hub: string)
    ensures HubNamed(hubs, name) == Some(hub) <==> LastNamed(hubs, name, hub)
  {
    hide LowerAscii;
    if hubs != [] {
      var m := hubs[..|hubs| - 1];
      HubNamedIs(m, name, hub);
      LastNamedSnoc(m, hubs[|hubs| - 1], name, hub);
      assert hubs == m + [hubs[|hubs| - 1]];
      hide LastNamed;
    }
  }

  /** An answer is validated exactly when its stage accepts it, and to what the stage makes of it. */
  lemma ValidatedIff(env: Env, stage: Stage, hubs: seq<string>, reply: Reply, p: Payload)
    ensures Validated(env, stage, hubs, reply) == Some(p) <==> AcceptsAs(env, stage, hubs, reply, p)
  {
    if reply.Answer? {
      AllSayIs(reply.warnings);
      forall f: Field, v: string ensures MayAnswer(env, f, v) <==> v in env.Answerable(f) { MayAnswerIs(env, f, v); }
      NoBlankType();
      hide Builtin, BuiltinTypes, MayAnswer, Env.Answerable, AllSay, NonBlankAll, ExtraOk, Fillable, Strip, Bare, HubNamed, LastNamed;
      match reply.payload
      case Values(_, _, _, related, _, _, _, extra) =>
        AllSayIs(related);
        ExtraIs(env, extra);
      case Hub(parent) => HubAccepted(hubs, Bare(Strip(parent)), p);
      case _ =>
    }
  }

  lemma HubAccepted(hubs: seq<string>, name: string, p: Payload)
    ensures HubNamed(hubs, name).Some? && p == Hub("[[" + (HubNamed(hubs, name).value + "]]")) <==>
              p.Hub? && exists hub :: LastNamed(hubs, name, hub) && p.parent == "[[" + hub + "]]"
  {
    forall hub: string ensures HubNamed(hubs, name) == Some(hub) <==> LastNamed(hubs, name, hub) { HubNamedIs(hubs, name, hub); }
    hide HubNamed, LastNamed;
    if HubNamed(hubs, name).Some? {
      var hub := HubNamed(hubs, name).value;
      assert LastNamed(hubs, name, hub) && "[[" + (hub + "]]") == "[[" + hub + "]]";
    }
  }

  // ---- what a stage writes ----

  lemma {:induction false} ExtrasLookup(d: Dict, customs: seq<Custom>, extra: map<string, Value>, i: nat, x: string)
    requires i < |customs| && customs[i].name == x && x != "summary"
    requires forall j, k | 0 <= j < k < |customs| :: customs[j].name != customs[k].name
    ensures Lookup(PutExtras(d, customs, extra), x)
         == (if x in extra then extra[x] else if customs[i].isList then List([]) else Scalar(""))
  {
    hide Lookup, HasKey;
    var m := |customs| - 1;
    PutSpec(PutExtras(d, customs[..m], extra), customs[m].name, ExtraValue(customs[m], extra), x);
    if i < m { ExtrasLookup(d, customs[..m], extra, i, x); }
  }

  lemma {:induction false} ExtrasSkipSummary(d: Dict, customs: seq<Custom>, extra: map<string, Value>)
    ensures Lookup(PutExtras(d, customs, extra), "summary") == Lookup(d, "summary")
  {
    hide Lookup, HasKey;
    if customs != [] {
      var m := |customs| - 1;
      ExtrasSkipSummary(d, customs[..m], extra);
      PutSpec(PutExtras(d, customs[..m], extra), customs[m].name, ExtraValue(customs[m], extra), "summary");
    }
  }

  lemma SevenLookup(d: Dict, p: Payload, x: string)
    requires p.Values?
    ensures Lookup(SevenOf(d, p), x) ==
              if x == "status" then Scalar(p.status) else if x == "domain" then Scalar(p.domain)
              else if x == "parent" then Scalar(p.parent) else if x == "related" then List(p.related)
              else if x == "cover" then Scalar(p.cover) else if x == "source_kind" then Scalar(p.sourceKind)
              else if x == "capture_type" then Scalar(p.captureType) else Lookup(d, x)
  {
    hide HasKey, Lookup;
    var d1 := Put(d, "status", Scalar(p.status));
    var d2 := Put(d1, "domain", Scalar(p.domain));
    var d3 := Put(d2, "parent", Scalar(p.parent));
    var d4 := Put(d3, "related", List(p.related));
    var d5 := Put(d4, "cover", Scalar(p.cover));
    var d6 := Put(d5, "source_kind", Scalar(p.sourceKind));
    PutSpec(d, "status", Scalar(p.status), x);
    PutSpec(d1, "domain", Scalar(p.domain), x);
    PutSpec(d2, "parent", Scalar(p.parent), x);
    PutSpec(d3, "related", List(p.related), x);
    PutSpec(d4, "cover", Scalar(p.cover), x);
    PutSpec(d5, "source_kind", Scalar(p.sourceKind), x);
    PutSpec(d6, "capture_type", Scalar(p.captureType), x);
    assert SevenOf(d, p) == Put(d6, "capture_type", Scalar(p.captureType));
    hide Put;
  }

  /** What the property-values stage writes: the seven built-in properties as answered; each custom property
      but `summary` as answered, or empty; nothing else. */
  function ValueWritten(env: Env, d: Dict, p: Payload, x: string): Value
    requires p.Values?
  {
    if x == "status" then Scalar(p.status) else if x == "domain" then Scalar(p.domain)
    else if x == "parent" then Scalar(p.parent) else if x == "related" then List(p.related)
    else if x == "cover" then Scalar(p.cover) else if x == "source_kind" then Scalar(p.sourceKind)
    else if x == "capture_type" then Scalar(p.captureType)
    else if x != "summary" && exists c | c in env.customs :: c.name == x then
      if x in p.extra then p.extra[x] else if Custom(x, true) in env.customs then List([]) else Scalar("")
    else Lookup(d, x)
  }

  lemma ValuesWritten(env: Env, d: Dict, p: Payload, x: string)
    requires p.Values? && CustomsOk(env)
    ensures Lookup(PutValues(env, d, p), x) == ValueWritten(env, d, p, x)
  {
    SevenLookup(d, p, x);
    CoreKeys(x);
    CustomsApart(env, x);
    DistinctCustoms(env);
    hide Lookup, HasKey, PlainKey, SevenOf, CoreOrder, CustomsOk;
    if x == "summary" {
      ExtrasSkipSummary(SevenOf(d, p), env.customs, p.extra);
    } else if i: nat :| i < |env.customs| && env.customs[i].name == x {
      ExtrasLookup(SevenOf(d, p), env.customs, p.extra, i, x);
      assert env.customs[i] in env.customs;
      if Custom(x, true) in env.customs {
        var j :| 0 <= j < |env.customs| && env.customs[j] == Custom(x, true);
        assert i == j;
      }
    } else {
      ExtrasSpec(SevenOf(d, p), env.customs, p.extra, x);
      assert forall c | c in env.customs :: c.name != x;
    }
  }

  lemma DistinctCustoms(env: Env)
    requires CustomsOk(env)
    ensures forall j, k | 0 <= j < k < |env.customs| :: env.customs[j].name != env.customs[k].name
  {
    hide PlainKey;
    forall j, k | 0 <= j < k < |env.customs| ensures env.customs[j].name != env.customs[k].name {
      assert env.Order()[8 + j] == env.customs[j].name && env.Order()[8 + k] == env.customs[k].name;
    }
  }

  /** The shape stage sets each missing core property to its default, and nothing else. */
  lemma {:induction false} DefaultsWritten(d: Dict, keys: seq<string>, x: string)
    ensures Lookup(ShapeDefaults(d, keys), x) ==
              if HasKey(d, x) || x !in keys then Lookup(d, x) else if x == "related" then List([]) else Scalar("")
  {
    hide HasKey, Lookup;
    if keys != [] {
      var m := |keys| - 1;
      DefaultsWritten(d, keys[..m], x);
      ShapeSpec(d, keys[..m], keys[m]);
      PutSpec(ShapeDefaults(d, keys[..m]), keys[m], if keys[m] == "related" then List([]) else Scalar(""), x);
      assert x in keys <==> x == keys[m] || x in keys[..m];
    }
  }

  /** The hub a stage without a usable answer falls back on: the first that is the cluster of the folder. */
  lemma {:induction false} FolderHubIs(hubs: seq<string>, cluster: string)
    ensures cluster == "" || (forall h | h in hubs :: LowerAscii(h) != cluster) ==> FolderHub(hubs, cluster) == ""
    ensures forall i | 0 <= i < |hubs| && cluster != "" && LowerAscii(hubs[i]) == cluster && (forall j | 0 <= j < i :: LowerAscii(hubs[j]) != cluster) ::
              FolderHub(hubs, cluster) == hubs[i]
  {
    hide LowerAscii;
    if hubs != [] && cluster != "" {
      FolderHubIs(hubs[1..], cluster);
      assert forall j | 0 <= j < |hubs[1..]| :: hubs[1..][j] == hubs[j + 1];
      forall i | 0 <= i < |hubs| && LowerAscii(hubs[i]) == cluster && (forall j | 0 <= j < i :: LowerAscii(hubs[j]) != cluster)
        ensures FolderHub(hubs, cluster) == hubs[i]
      {
        if i > 0 {
          assert LowerAscii(hubs[0]) != cluster;
          assert forall j | 0 <= j < i - 1 :: LowerAscii(hubs[1..][j]) != cluster by {
            assert forall j | 0 <= j < i - 1 :: hubs[1..][j] == hubs[j + 1];
          }
        }
      }
    }
  }

  /** What a stage makes of a readable note, stage by stage: the draft of its frontmatter, property by property,
      and of its body; or that it stops, and why. */
  ghost predicate WritesAs(env: Env, n: Note, stage: Stage, reply: Option<Reply>, e: Dict, body: string) {
    match stage
    case Shape =>
      body == n.body && ShapedAs(n.fm, e)
    case ClassifyType =>
      body == n.body && exists t: string :: Given(env, stage, [], reply, NoteType(t)) && SetOne(n.fm, e, "type", Scalar(t))
    case PropertyValues =>
      && body == n.body && TypeKnown(env, n.fm)
      && exists p: Payload :: Given(env, stage, [], reply, p) && p.Values? && forall x :: Lookup(e, x) == ValueWritten(env, n.fm, p, x)
    case TemplateBody =>
      e == n.fm && TypeKnown(env, n.fm) && body == AppendMissing(n.body, env.sections(Lookup(n.fm, "type").text))
    case AssignHub =>
      body == n.body && exists d: string | d != "" && Lookup(n.fm, "domain") == Scalar(d) ::
        && env.hubs(d) != [] && (reply.Some? ==> exists p: Payload :: Given(env, stage, env.hubs(d), reply, p))
        && exists hub: string ::
             && SetOne(n.fm, e, "parent", Scalar(hub)) && hub != ""
             && (if reply.Some? && !Given(env, stage, env.hubs(d), reply, Hub("")) then Given(env, stage, env.hubs(d), reply, Hub(hub))
                 else FolderHub(env.hubs(d), env.folderCluster) != "" && hub == "[[" + FolderHub(env.hubs(d), env.folderCluster) + "]]")
    case AssignFolder => false
    case Summary =>
      exists t: string :: Given(env, stage, [], reply, SummaryText(t))
        && if exists i | 0 <= i < |env.customs| :: env.customs[i].name == "summary"
           then body == n.body && SetOne(n.fm, e, "summary", Scalar(t))
           else e == n.fm && body == ApplySummary(n.body, t)
  }

  /** Each missing core property has its default, every other property what it had. */
  ghost predicate ShapedAs(d: Dict, e: Dict) {
    forall x ::
      Lookup(e, x) ==
        if HasKey(d, x) || x !in {"type", "status", "domain", "parent", "related", "cover", "source_kind", "capture_type"} then Lookup(d, x)
        else if x == "related" then List([]) else Scalar("")
  }

  /** The reply is accepted as this answer, and passes the review gate. */
  ghost predicate Given(env: Env, stage: Stage, hubs: seq<string>, reply: Option<Reply>, p: Payload) {
    reply.Some? && AcceptsAs(env, stage, hubs, reply.value, p) && !Held(env, reply.value.confidence, reply.value.warnings)
  }

  ghost predicate SetOne(d: Dict, e: Dict, key: string, v: Value) {
    forall x :: Lookup(e, x) == if x == key then v else Lookup(d, x)
  }

  lemma GivenIs(env: Env, stage: Stage, hubs: seq<string>, reply: Option<Reply>, p: Payload)
    ensures Given(env, stage, hubs, reply, p) <==> reply.Some? && Judge(env, stage, hubs, reply.value) == Passed(p)
  {
    if reply.Some? { ValidatedIff(env, stage, hubs, reply.value, p); }
    hide Validated, AcceptsAs, Held;
  }

  lemma PutIsSetOne(d: Dict, key: string, v: Value)
    ensures SetOne(d, Put(d, key, v), key, v)
  {
    forall x ensures Lookup(Put(d, key, v), x) == if x == key then v else Lookup(d, x) { PutSpec(d, key, v, x); }
    hide Put, Lookup;
  }

  /** A stage that drafts new contents drafts what it should. */
  lemma DraftSays(env: Env, n: Note, stage: Stage, reply: Option<Reply>)
    requires CustomsOk(env) && DraftOf(env, n, stage, reply).Contents?
    ensures WritesAs(env, n, stage, reply, DraftOf(env, n, stage, reply).fm, DraftOf(env, n, stage, reply).body)
  {
    KnownIs(env, n.fm);
    SummaryIs(env);
    hide Judge, AcceptsAs, Held, TypeKnown, TypeApproved, PutValues, AppendMissing, ApplySummary, Put, Lookup, HasKey, FolderHub, Env.SummaryIsProperty,
      Given, SetOne, ValueWritten, CustomsOk;
    match stage
    case Shape =>
      forall x: string
        ensures Lookup(ShapeDefaults(n.fm, CoreOrder()), x) ==
          if HasKey(n.fm, x) || x !in {"type", "status", "domain", "parent", "related", "cover", "source_kind", "capture_type"} then Lookup(n.fm, x)
          else if x == "related" then List([]) else Scalar("")
      {
        DefaultsWritten(n.fm, CoreOrder(), x);
        CoreKeys(x);
      }
    case TemplateBody =>
    case AssignHub => HubDraftSays(env, n, reply);
    case AssignFolder =>
    case ClassifyType =>
      var p := Passing(env, stage, reply);
      PutIsSetOne(n.fm, "type", Scalar(p.noteType));
    case PropertyValues =>
      var p := Passing(env, stage, reply);
      forall x: string ensures Lookup(PutValues(env, n.fm, p), x) == ValueWritten(env, n.fm, p, x) { ValuesWritten(env, n.fm, p, x); }
    case Summary =>
      var p := Passing(env, stage, reply);
      PutIsSetOne(n.fm, "summary", Scalar(p.summary));
  }

  lemma Passing(env: Env, stage: Stage, reply: Option<Reply>) returns (p: Payload)
    requires reply.Some? && Judge(env, stage, [], reply.value).Passed?
    ensures p == Judge(env, stage, [], reply.value).payload && Given(env, stage, [], reply, p)
    ensures stage.ClassifyType? ==> p.NoteType?
    ensures stage.PropertyValues? ==> p.Values?
    ensures stage.Summary? ==> p.SummaryText?
  {
    p := Judge(env, stage, [], reply.value).payload;
    GivenIs(env, stage, [], reply, p);
    GivenFits(env, stage, [], reply, p);
    hide Judge, Given;
  }

  lemma GivenFits(env: Env, stage: Stage, hubs: seq<string>, reply: Option<Reply>, p: Payload)
    requires Given(env, stage, hubs, reply, p)
    ensures match stage
            case ClassifyType => p.NoteType? case PropertyValues => p.Values? case AssignHub => p.Hub?
            case AssignFolder => p.Folder? case Summary => p.SummaryText? case _ => false
  {
    hide Held, MayAnswer, AllSay, BuiltinTypes, LowerAscii, Strip, Bare;
  }

  lemma HubDraftSays(env: Env, n: Note, reply: Option<Reply>)
    requires DraftOf(env, n, AssignHub, reply).Contents?
    ensures WritesAs(env, n, AssignHub, reply, DraftOf(env, n, AssignHub, reply).fm, DraftOf(env, n, AssignHub, reply).body)
  {
    hide Judge, AcceptsAs, Held, Put, Lookup, HasKey, FolderHub, Given, SetOne;
    var d := Lookup(n.fm, "domain").text;
    var hubs := env.hubs(d);
    if reply.Some? {
      var p := Judge(env, AssignHub, hubs, reply.value).payload;
      GivenIs(env, AssignHub, hubs, reply, p);
      GivenFits(env, AssignHub, hubs, reply, p);
      GivenIs(env, AssignHub, hubs, reply, Hub(""));
      PutIsSetOne(n.fm, "parent", Scalar(p.parent));
    }
    var hub := FolderHub(hubs, env.folderCluster);
    assert "[[" + (hub + "]]") == "[[" + hub + "]]";
    PutIsSetOne(n.fm, "parent", Scalar("[[" + hub + "]]"));
  }

  /** A folder is recorded exactly as the model gave it, and the note stays as it is. */
  lemma FolderRecorded(env: Env, s: NoteState, n: Note, reply: Option<Reply>, folder: string)
    requires Parse(env, s.text) == Some(n)
    ensures env.customRouting && env.folders != [] && folder != "" && Given(env, AssignFolder, [], reply, Folder(folder)) <==>
              Process(env, s, AssignFolder, reply).1.Complete? && Process(env, s, AssignFolder, reply).0.ledger.routed == Some(folder)
    ensures Process(env, s, AssignFolder, reply).0.text == s.text
  {
    if reply.Some? && Judge(env, AssignFolder, [], reply.value).Passed? {
      var p := Judge(env, AssignFolder, [], reply.value).payload;
      GivenIs(env, AssignFolder, [], reply, p);
      GivenFits(env, AssignFolder, [], reply, p);
    }
    GivenIs(env, AssignFolder, [], reply, Folder(folder));
    FolderProcessed(env, s, n, reply, folder);
    hide Given, Judge, Parse, Process, Mark;
  }

  lemma FolderProcessed(env: Env, s: NoteState, n: Note, reply: Option<Reply>, folder: string)
    requires Parse(env, s.text) == Some(n)
    ensures var (after, outcome) := Process(env, s, AssignFolder, reply);
      && after.text == s.text
      && (outcome.Complete? <==> FolderDraft(env, reply).Filed?)
      && (outcome.Complete? ==> after.ledger.routed == Some(FolderDraft(env, reply).folder))
  {
    assert DraftOf(env, n, AssignFolder, reply) == FolderDraft(env, reply);
    hide Judge, Parse, DraftOf, Canonical, RenderNote;
  }

  /** The text a stage writes: the canonical frontmatter of its draft, and its body. */
  lemma TextWritten(env: Env, s: NoteState, n: Note, stage: Stage, reply: Option<Reply>)
    requires CustomsOk(env) && Parse(env, s.text) == Some(n) && Process(env, s, stage, reply).1.Complete? && !stage.AssignFolder?
    ensures exists e: Dict, body: string ::
              && WritesAs(env, n, stage, reply, e, body)
              && Process(env, s, stage, reply).0.text == RenderNote(Canonical(env, e), body, env.Order())
              && Process(env, s, stage, reply).1 == Complete(Process(env, s, stage, reply).0.text != s.text)
  {
    if DraftOf(env, n, stage, reply).Contents? { DraftSays(env, n, stage, reply); }
    NotFiled(env, n, stage, reply);
    hide DraftOf, WritesAs, Canonical, RenderNote, Parse, CustomsOk;
  }

  lemma NotFiled(env: Env, n: Note, stage: Stage, reply: Option<Reply>)
    requires !stage.AssignFolder?
    ensures !DraftOf(env, n, stage, reply).Filed?
    ensures DraftOf(env, n, stage, reply).Stop? ==> !DraftOf(env, n, stage, reply).outcome.Complete?
  {
    hide Judge, TypeApproved, TypeCrashes, PutValues, AppendMissing, ApplySummary, Put, Lookup, HasKey, FolderHub, Env.SummaryIsProperty, ShapeDefaults;
  }
}
