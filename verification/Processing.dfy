/** The staged processing machine (`processor.py`, `processing_state.py`): seven ordered stages for
    each note, and a ledger of content hashes that decides which of them is still needed. */
module Processing {
  import opened Text
  import opened Frontmatter
  import opened NoteBody
  import opened SchemaTerms

  // ---- the vault's settings ----

  datatype Stage = Shape | ClassifyType | PropertyValues | TemplateBody | AssignHub | AssignFolder | Summary

  function Index(stage: Stage): (i: nat)
    ensures i < 7
  {
    match stage
    case Shape => 0 case ClassifyType => 1 case PropertyValues => 2 case TemplateBody => 3
    case AssignHub => 4 case AssignFolder => 5 case Summary => 6
  }

  function CoreOrder(): seq<string> {
    ["type", "status", "domain", "parent", "related", "cover", "source_kind", "capture_type"]
  }

  /** The properties the property-values stage fills. */
  function ValueKeys(): seq<string> {
    ["status", "domain", "parent", "related", "cover", "source_kind", "capture_type"]
  }

  function BuiltinTypes(): set<string> {
    {"project", "source", "person", "organization", "meeting", "task", "note", "index", "daily", "template", "system"}
  }

  function Builtin(c: Field): set<string> {
    match c
    case Status => {"", "active", "someday", "completed", "archived"}
    case Domain =>
      {"", "academic", "work", "craft", "technology", "philosophy", "health", "personal", "administration",
       "finance", "travel", "household", "meta"}
    case SourceKind =>
      {"", "book", "article", "report", "policy", "standard", "website", "dataset", "video", "podcast",
       "interview", "transcript", "presentation", "manual"}
    case CaptureType => {"", "voice", "meeting", "chat", "imported", "manual"}
  }

  /** A property the schema adds: its name and whether it holds a list. */
  datatype Custom = Custom(name: string, isList: bool)

  /** Everything that is fixed during a run: the schema, the locked hubs, the routing configuration,
      the lock hash ("" without one), the preserve setting and the review gate. `yaml` reads a
      frontmatter block and `digest` hashes a text. */
  datatype Env = Env(
    schemaTypes: set<string>, schemaValues: Field -> set<string>, domainFolders: set<string>,
    customs: seq<Custom>, hubs: string -> seq<string>, folderCluster: string,
    customRouting: bool, folders: seq<string>, sections: string -> seq<Section>,
    preserve: bool, lock: string,
    threshold: Option<real>, reviewOnWarnings: bool, margin: real,
    yaml: string -> Option<Dict>, digest: string -> string)
  {
    function NoteTypes(): set<string> {
      BuiltinTypes() + set t | t in schemaTypes && t != ""
    }

    function Names(): (r: seq<string>)
      ensures |r| == |customs| && forall i | 0 <= i < |customs| :: r[i] == customs[i].name
    {
      seq(|customs|, i requires 0 <= i < |customs| => customs[i].name)
    }

    /** `property_order_from_schema`; also the accepted properties. */
    function Order(): seq<string> {
      CoreOrder() + Names()
    }

    /** The values a note may carry without being realigned. */
    function Approved(c: Field): set<string> {
      Builtin(c) + schemaValues(c) + (if c.Domain? then domainFolders else {})
    }

    /** The values the validator lets a model answer with. */
    function Answerable(c: Field): set<string> {
      match c
      case Status => Builtin(c)
      case Domain => Builtin(c) + domainFolders
      case _ => Builtin(c) + schemaValues(c)
    }

    /** The schema declares `summary` as a property. */
    predicate SummaryIsProperty() {
      "summary" in Names()
    }
  }

  // ---- notes and their ledger ----

  datatype Note = Note(fm: Dict, body: string)

  datatype Record = Record(complete: bool, confidence: Option<real>, warnings: seq<string>)

  datatype Ledger = Ledger(stages: map<Stage, Record>, hash: Option<string>, lock: string, routed: Option<string>)

  datatype NoteState = NoteState(text: string, ledger: Ledger)

  /** `parse_note`: nothing when the frontmatter is malformed. */
  function Parse(env: Env, text: string): Option<Note> {
    match SplitNote(text)
    case Plain(body) => Some(Note([], body))
    case Unclosed => None
    case Front(raw, body) => if Strip(raw) == "" then Some(Note([], body))
                             else match env.yaml(raw)
                               case None => None
                               case Some(d) => Some(Note(d, body))
  }

  /** `mark_stage` with status complete. */
  function Mark(env: Env, l: Ledger, text: string, stage: Stage, confidence: Option<real>, warnings: seq<string>): Ledger {
    Ledger(l.stages[stage := Record(true, confidence, warnings)], Some(env.digest(text)),
           if env.lock != "" then env.lock else l.lock, l.routed)
  }

  /** `mark_stage` with status blocked. */
  function MarkBlocked(env: Env, l: Ledger, text: string, stage: Stage): Ledger {
    Ledger(l.stages[stage := Record(false, None, [])], Some(env.digest(text)),
           if env.lock != "" then env.lock else l.lock, l.routed)
  }

  /** `stage_complete`. */
  predicate StageComplete(env: Env, s: NoteState, stage: Stage) {
    && stage in s.ledger.stages && s.ledger.stages[stage].complete
    && s.ledger.hash == Some(env.digest(s.text))
    && (env.lock != "" ==> s.ledger.lock == env.lock)
  }

  // ---- which stage is needed ----

  predicate IsBlank(v: Value) {
    v.Null? || v == Scalar("")
  }

  /** A type that is a list cannot be looked up among the note types. */
  predicate TypeCrashes(fm: Dict) {
    Lookup(fm, "type").List? && Lookup(fm, "type").items != []
  }

  predicate TypeApproved(env: Env, fm: Dict) {
    Lookup(fm, "type").Scalar? && Lookup(fm, "type").text in env.NoteTypes()
  }

  predicate HasUnknown(env: Env, fm: Dict) {
    exists i | 0 <= i < |fm| :: fm[i].0 !in env.Order()
  }

  predicate HasAll(fm: Dict, keys: seq<string>) {
    forall i | 0 <= i < |keys| :: HasKey(fm, keys[i])
  }

  predicate FilledAll(fm: Dict, keys: seq<string>) {
    forall i | 0 <= i < |keys| :: HasKey(fm, keys[i]) && !IsBlank(Lookup(fm, keys[i]))
  }

  predicate Unapproved(env: Env, fm: Dict, c: Field) {
    var v := Lookup(fm, Key(c));
    v.Scalar? && v.text != "" && v.text !in env.Approved(c)
  }

  /** `_has_unapproved_controlled_value`. */
  predicate HasUnapproved(env: Env, fm: Dict) {
    Unapproved(env, fm, Status) || Unapproved(env, fm, Domain) || Unapproved(env, fm, SourceKind)
    || Unapproved(env, fm, CaptureType)
  }

  predicate DomainNamed(fm: Dict) {
    Lookup(fm, "domain").Scalar? && Lookup(fm, "domain").text != ""
  }

  /** `_stage_needed`. */
  predicate Needed(env: Env, s: NoteState, n: Note, stage: Stage) {
    var done := StageComplete(env, s, stage);
    match stage
    case Shape =>
      (!done && HasUnknown(env, n.fm)) || !HasAll(n.fm, CoreOrder()) || (HasUnknown(env, n.fm) && !env.preserve)
    case ClassifyType => !TypeApproved(env, n.fm)
    case PropertyValues =>
      && TypeApproved(env, n.fm)
      && (|| HasUnapproved(env, n.fm)
          || (if done then !HasAll(n.fm, ValueKeys()) else !FilledAll(n.fm, ValueKeys())))
    case TemplateBody =>
      && !done && TypeApproved(env, n.fm)
      && Missing(n.body, env.sections(Lookup(n.fm, "type").text)) != []
    case AssignHub =>
      !done && DomainNamed(n.fm) && IsBlank(Lookup(n.fm, "parent")) && env.hubs(Lookup(n.fm, "domain").text) != []
    case AssignFolder => !done && env.customRouting && env.folders != []
    case Summary =>
      && !done && Truthy(Lookup(n.fm, "type"))
      && (if env.SummaryIsProperty()
          then !(Lookup(n.fm, "summary").Scalar? && Strip(Lookup(n.fm, "summary").text) != "")
          else SummaryMissing(n.body))
  }

  predicate Truthy(v: Value) {
    match v
    case Null => false
    case Flag(on) => on
    case Scalar(text) => text != ""
    case List(items) => items != []
  }

  datatype Next = Done | Needs(stage: Stage) | Crash | Unreadable

  /** `_next_needed_stage`. */
  function NextNeeded(env: Env, s: NoteState): Next {
    match Parse(env, s.text)
    case None => Unreadable
    case Some(n) =>
      if Needed(env, s, n, Shape) then Needs(Shape)
      else if TypeCrashes(n.fm) then Crash
      else if Needed(env, s, n, ClassifyType) then Needs(ClassifyType)
      else if Needed(env, s, n, PropertyValues) then Needs(PropertyValues)
      else if Needed(env, s, n, TemplateBody) then Needs(TemplateBody)
      else if Needed(env, s, n, AssignHub) then Needs(AssignHub)
      else if Needed(env, s, n, AssignFolder) then Needs(AssignFolder)
      else if Needed(env, s, n, Summary) then Needs(Summary)
      else Done
  }

  // ---- the model's answers ----

  /** What a model answers for a stage, as decoded; `Unusable` when the call or the decoding failed or
      the answer carries keys the stage does not have. */
  datatype Payload =
    | NoteType(noteType: string)
    | Values(status: string, domain: string, parent: string, related: seq<string>, cover: string,
             sourceKind: string, captureType: string, extra: map<string, Value>)
    | Hub(parent: string)
    | Folder(folder: string)
    | SummaryText(summary: string)

  datatype Reply = Unusable | Answer(payload: Payload, confidence: Option<real>, warnings: seq<string>)

  predicate NonBlankAll(items: seq<string>) {
    forall i | 0 <= i < |items| :: Strip(items[i]) != ""
  }

  /** The properties a model may fill: the custom ones but `summary`, which has its own stage. */
  predicate Fillable(env: Env, name: string) {
    name != "summary" && exists i | 0 <= i < |env.customs| :: env.customs[i].name == name
  }

  predicate ExtraOk(env: Env, extra: map<string, Value>) {
    && (forall k | k in extra :: Fillable(env, k))
    && (forall i | 0 <= i < |env.customs| && env.customs[i].name in extra && env.customs[i].name != "summary" ::
          var v := extra[env.customs[i].name];
          if env.customs[i].isList then v.List? && NonBlankAll(v.items) else v.Scalar?)
  }

  function Bare(parent: string): string {
    if |parent| >= 4 && "[[" <= parent && parent[|parent| - 2..] == "]]" then Strip(parent[2..|parent| - 2]) else parent
  }

  /** The approved hub a name stands for, whatever its case; the last one when several do. */
  function HubNamed(hubs: seq<string>, name: string): (r: Option<string>)
    ensures r.Some? ==> r.value in hubs
  {
    if hubs == [] then None
    else if LowerAscii(hubs[|hubs| - 1]) == LowerAscii(name) then Some(hubs[|hubs| - 1])
    else HubNamed(hubs[..|hubs| - 1], name)
  }

  /** `folder_hub_match`. */
  function FolderHub(hubs: seq<string>, cluster: string): (r: string)
    ensures r == "" || r in hubs
  {
    if hubs == [] || cluster == "" then ""
    else if LowerAscii(hubs[0]) == cluster then hubs[0] else FolderHub(hubs[1..], cluster)
  }

  /** `validate_stage_proposal`: the validated payload, if there is one. */
  function Validated(env: Env, stage: Stage, hubs: seq<string>, reply: Reply): Option<Payload> {
    if reply.Unusable? || !NonBlankAll(reply.warnings)
       || (reply.confidence.Some? && !(0.0 <= reply.confidence.value <= 1.0)) then None
    else match (stage, reply.payload)
      case (ClassifyType, NoteType(t)) => if t in env.NoteTypes() then Some(reply.payload) else None
      case (PropertyValues, Values(status, domain, _, related, _, sourceKind, captureType, extra)) =>
        if status in env.Answerable(Status) && domain in env.Answerable(Domain)
           && sourceKind in env.Answerable(SourceKind) && captureType in env.Answerable(CaptureType)
           && NonBlankAll(related) && ExtraOk(env, extra) then Some(reply.payload) else None
      case (AssignHub, Hub(parent)) =>
        var bare := Bare(Strip(parent));
        if bare == "" then Some(Hub(""))
        else if HubNamed(hubs, bare).None? then None
        else Some(Hub("[[" + (HubNamed(hubs, bare).value + "]]")))
      case (AssignFolder, Folder(folder)) =>
        if Strip(folder) == "" || Strip(folder) in env.folders then Some(Folder(Strip(folder))) else None
      case (Summary, SummaryText(summary)) =>
        if Strip(summary) != "" && |summary| <= 1000 then Some(SummaryText(Strip(summary))) else None
      case _ => None
  }

  /** The confidence threshold and `_requires_human_review`. */
  predicate Held(env: Env, confidence: Option<real>, warnings: seq<string>) {
    || (env.threshold.Some? && confidence.Some? && confidence.value < env.threshold.value)
    || (env.reviewOnWarnings && warnings != [])
    || (confidence.Some? && env.threshold.Some? && confidence.value <= env.threshold.value + env.margin)
  }

  // ---- one stage ----

  function Put(d: Dict, key: string, v: Value): Dict {
    if d == [] then [(key, v)] else if d[0].0 == key then [(key, v)] + d[1..] else [d[0]] + Put(d[1..], key, v)
  }

  function SetDefault(d: Dict, key: string, v: Value): Dict {
    if HasKey(d, key) then d else Put(d, key, v)
  }

  /** `_apply_shape_defaults`, for the properties of `keys`. */
  function ShapeDefaults(d: Dict, keys: seq<string>): Dict {
    if keys == [] then d
    else SetDefault(ShapeDefaults(d, keys[..|keys| - 1]), keys[|keys| - 1],
                    if keys[|keys| - 1] == "related" then List([]) else Scalar(""))
  }

  function ExtraValue(c: Custom, extra: map<string, Value>): Value {
    if c.name in extra then extra[c.name] else if c.isList then List([]) else Scalar("")
  }

  function PutExtras(d: Dict, customs: seq<Custom>, extra: map<string, Value>): Dict {
    if customs == [] then d
    else
      var c := customs[|customs| - 1];
      var before := PutExtras(d, customs[..|customs| - 1], extra);
      if c.name == "summary" then before else Put(before, c.name, ExtraValue(c, extra))
  }

  /** The seven built-in properties of an answer. */
  function SevenOf(d: Dict, p: Payload): Dict
    requires p.Values?
  {
    Put(Put(Put(Put(Put(Put(Put(d, "status", Scalar(p.status)), "domain", Scalar(p.domain)),
      "parent", Scalar(p.parent)), "related", List(p.related)), "cover", Scalar(p.cover)),
      "source_kind", Scalar(p.sourceKind)), "capture_type", Scalar(p.captureType))
  }

  /** `_apply_property_values`. */
  function PutValues(env: Env, d: Dict, p: Payload): Dict
    requires p.Values?
  {
    PutExtras(SevenOf(d, p), env.customs, p.extra)
  }

  function Pick(keys: seq<string>, d: Dict): Dict {
    if keys == [] then []
    else (if HasKey(d, keys[0]) then [(keys[0], Lookup(d, keys[0]))] else []) + Pick(keys[1..], d)
  }

  /** `_canonical_frontmatter`. */
  function Canonical(env: Env, d: Dict): Dict {
    Pick(env.Order(), d) + (if env.preserve then Pick(Sort(Others(d, env.Order())), d) else [])
  }

  datatype Outcome = Complete(changed: bool) | Blocked | Skipped | Raised

  /** What a stage makes of a note: new contents, a recorded folder, or nothing. */
  datatype Draft =
    | Contents(fm: Dict, body: string, confidence: Option<real>, warnings: seq<string>)
    | Filed(folder: string, confidence: Option<real>, warnings: seq<string>)
    | Stop(outcome: Outcome)

  datatype Verdict = Refused | Passed(payload: Payload)

  function Judge(env: Env, stage: Stage, hubs: seq<string>, reply: Reply): Verdict {
    match Validated(env, stage, hubs, reply)
    case None => Refused
    case Some(p) => if Held(env, reply.confidence, reply.warnings) then Refused else Passed(p)
  }

  function HubDraft(env: Env, n: Note, reply: Option<Reply>): Draft {
    if !DomainNamed(n.fm) then Stop(Blocked)
    else
      var hubs := env.hubs(Lookup(n.fm, "domain").text);
      if hubs == [] then Stop(Blocked)
      else if reply.Some? && Judge(env, AssignHub, hubs, reply.value).Refused? then Stop(Blocked)
      else
        var answered := if reply.Some? then HubAnswer(Judge(env, AssignHub, hubs, reply.value).payload) else "";
        var match_ := FolderHub(hubs, env.folderCluster);
        var chosen := if answered != "" then answered else if match_ != "" then "[[" + (match_ + "]]") else "";
        if chosen == "" then Stop(Skipped)
        else Contents(Put(n.fm, "parent", Scalar(chosen)), n.body,
                      if reply.Some? then reply.value.confidence else None,
                      if reply.Some? then reply.value.warnings else [])
  }

  function HubAnswer(p: Payload): string {
    if p.Hub? then p.parent else ""
  }

  function FolderDraft(env: Env, reply: Option<Reply>): Draft {
    if !env.customRouting || env.folders == [] || reply.None? then Stop(Skipped)
    else match Judge(env, AssignFolder, [], reply.value)
      case Refused => Stop(Blocked)
      case Passed(p) =>
        if !p.Folder? || p.folder == "" then Stop(Skipped)
        else Filed(p.folder, reply.value.confidence, reply.value.warnings)
  }

  function ModelDraft(env: Env, n: Note, stage: Stage, reply: Option<Reply>): Draft {
    if reply.None? then Stop(Blocked)
    else match Judge(env, stage, [], reply.value)
      case Refused => Stop(Blocked)
      case Passed(p) =>
        var conf, warn := reply.value.confidence, reply.value.warnings;
        match p
        case NoteType(t) => Contents(Put(n.fm, "type", Scalar(t)), n.body, conf, warn)
        case Values(_, _, _, _, _, _, _, _) =>
          if TypeCrashes(n.fm) then Stop(Raised)
          else if !TypeApproved(env, n.fm) then Stop(Blocked)
          else Contents(PutValues(env, n.fm, p), n.body, conf, warn)
        case SummaryText(summary) =>
          if env.SummaryIsProperty() then Contents(Put(n.fm, "summary", Scalar(summary)), n.body, conf, warn)
          else Contents(n.fm, ApplySummary(n.body, summary), conf, warn)
        case _ => Stop(Blocked)
  }

  function DraftOf(env: Env, n: Note, stage: Stage, reply: Option<Reply>): Draft {
    match stage
    case Shape => Contents(ShapeDefaults(n.fm, CoreOrder()), n.body, None, [])
    case TemplateBody =>
      if TypeCrashes(n.fm) then Stop(Raised)
      else if !TypeApproved(env, n.fm) then Stop(Blocked)
      else Contents(n.fm, AppendMissing(n.body, env.sections(Lookup(n.fm, "type").text)), None, [])
    case AssignHub => HubDraft(env, n, reply)
    case AssignFolder => FolderDraft(env, reply)
    case _ => ModelDraft(env, n, stage, reply)
  }

  /** `process_note`: the note and its ledger afterwards, and how the stage ended. */
  function Process(env: Env, s: NoteState, stage: Stage, reply: Option<Reply>): (NoteState, Outcome) {
    match Parse(env, s.text)
    case None => (s, Blocked)
    case Some(n) =>
      match DraftOf(env, n, stage, reply)
      case Stop(outcome) => (s, outcome)
      case Filed(folder, confidence, warnings) =>
        (s.(ledger := Mark(env, s.ledger.(routed := Some(folder)), s.text, stage, confidence, warnings)), Complete(false))
      case Contents(fm, body, confidence, warnings) =>
        var text := RenderNote(Canonical(env, fm), body, env.Order());
        (NoteState(text, Mark(env, s.ledger, text, stage, confidence, warnings)), Complete(text != s.text))
  }

  // ---- dictionaries ----

  lemma LookupAbsent(d: Dict, x: string)
    requires !HasKey(d, x)
    ensures Lookup(d, x) == Null
  {
    if d != [] {
      HasKeySplit(d, x);
      LookupAbsent(d[1..], x);
    }
  }

  lemma LookupAt(d: Dict, i: nat)
    requires IsDict(d) && i < |d|
    ensures Lookup(d, d[i].0) == d[i].1
  {
    if i > 0 {
      assert d[0].0 != d[i].0 && d[1..][i - 1] == d[i];
      LookupAt(d[1..], i - 1);
    }
  }

  lemma {:induction false} PutSpec(d: Dict, key: string, v: Value, x: string)
    ensures HasKey(Put(d, key, v), x) <==> x == key || HasKey(d, x)
    ensures Lookup(Put(d, key, v), x) == if x == key then v else Lookup(d, x)
  {
    hide HasKey;
    HasKeySplit(Put(d, key, v), x);
    if d == [] {
      NoKeys(x);
    } else {
      HasKeySplit(d, x);
      if d[0].0 == key {
        assert Put(d, key, v)[1..] == d[1..];
      } else {
        assert Put(d, key, v)[1..] == Put(d[1..], key, v);
        PutSpec(d[1..], key, v, x);
      }
    }
  }

  lemma NoKeys(x: string)
    ensures !HasKey([], x)
  {
  }

  lemma {:induction false} PutDict(d: Dict, key: string, v: Value)
    requires IsDict(d)
    ensures IsDict(Put(d, key, v))
  {
    if d != [] && d[0].0 != key {
      var rest := Put(d[1..], key, v);
      PutDict(d[1..], key, v);
      PutSpec(d[1..], key, v, d[0].0);
      assert !HasKey(d[1..], d[0].0);
      forall i | 0 <= i < |rest| ensures rest[i].0 != d[0].0 {}
    }
  }

  lemma {:induction false} PickSpec(keys: seq<string>, d: Dict, x: string)
    ensures HasKey(Pick(keys, d), x) <==> x in keys && HasKey(d, x)
    ensures HasKey(Pick(keys, d), x) ==> Lookup(Pick(keys, d), x) == Lookup(d, x)
  {
    hide HasKey;
    if keys == [] {
      NoKeys(x);
    } else {
      PickSpec(keys[1..], d, x);
      assert x in keys <==> x == keys[0] || x in keys[1..];
      if HasKey(d, keys[0]) {
        var p := Pick(keys, d);
        assert p[1..] == Pick(keys[1..], d);
        HasKeySplit(p, x);
      } else {
        assert Pick(keys, d) == Pick(keys[1..], d);
      }
    }
  }

  ghost predicate NoRepeats(keys: seq<string>) {
    forall i, j | 0 <= i < j < |keys| :: keys[i] != keys[j]
  }

  lemma {:induction false} PickDict(keys: seq<string>, d: Dict)
    requires NoRepeats(keys)
    ensures IsDict(Pick(keys, d))
  {
    if keys != [] {
      PickDict(keys[1..], d);
      var rest := Pick(keys[1..], d);
      forall i | 0 <= i < |rest| ensures rest[i].0 != keys[0] {
        assert HasKey(rest, rest[i].0);
        PickSpec(keys[1..], d, rest[i].0);
      }
    }
  }

  lemma {:induction false} AppendSpec(a: Dict, b: Dict, x: string)
    ensures HasKey(a + b, x) <==> HasKey(a, x) || HasKey(b, x)
    ensures Lookup(a + b, x) == if HasKey(a, x) then Lookup(a, x) else Lookup(b, x)
  {
    hide HasKey;
    if a == [] {
      NoKeys(x);
      assert a + b == b;
    } else {
      assert (a + b)[1..] == a[1..] + b;
      HasKeySplit(a + b, x);
      HasKeySplit(a, x);
      AppendSpec(a[1..], b, x);
    }
  }

  lemma SortedOthers(d: Dict, order: seq<string>, x: string)
    requires IsDict(d)
    ensures x in Sort(Others(d, order)) <==> HasKey(d, x) && x !in order
    ensures NoRepeats(Sort(Others(d, order)))
  {
    hide HasKey;
    var others := Others(d, order);
    SortSorts(others);
    var sorted := Sort(others);
    OthersCount(d, order, x);
    assert x in sorted <==> x in multiset(sorted);
    forall i, j | 0 <= i < j < |sorted| ensures sorted[i] != sorted[j] {
      OthersCount(d, order, sorted[i]);
      TwiceCounts(sorted, i, j);
    }
  }

  lemma TwiceCounts(s: seq<string>, i: nat, j: nat)
    requires i < j < |s|
    ensures s[i] == s[j] ==> multiset(s)[s[i]] >= 2
  {
    assert s == s[..i] + [s[i]] + s[i + 1..j] + [s[j]] + s[j + 1..];
  }

  /** The canonical frontmatter keeps the approved properties and, when told to, the others. */
  lemma CanonicalSpec(env: Env, d: Dict, x: string)
    requires IsDict(d)
    ensures HasKey(Canonical(env, d), x) <==> HasKey(d, x) && (x in env.Order() || env.preserve)
    ensures HasKey(Canonical(env, d), x) ==> Lookup(Canonical(env, d), x) == Lookup(d, x)
  {
    hide HasKey, Lookup, Pick, Sort, Others, Env.Order;
    var known := Pick(env.Order(), d);
    var others := Pick(Sort(Others(d, env.Order())), d);
    PickSpec(env.Order(), d, x);
    PickSpec(Sort(Others(d, env.Order())), d, x);
    SortedOthers(d, env.Order(), x);
    AppendSpec(known, others, x);
    assert known + [] == known;
  }

  lemma CanonicalDict(env: Env, d: Dict)
    requires IsDict(d) && NoRepeats(env.Order())
    ensures IsDict(Canonical(env, d))
  {
    hide HasKey, Lookup, Pick, Sort, Others, Env.Order;
    var known := Pick(env.Order(), d);
    var keys := Sort(Others(d, env.Order()));
    var others := Pick(keys, d);
    SortedOthers(d, env.Order(), "");
    PickDict(env.Order(), d);
    PickDict(keys, d);
    forall i, j | 0 <= i < |known| && 0 <= j < |others| ensures known[i].0 != others[j].0 {
      KeyAt(known, i);
      KeyAt(others, j);
      PickSpec(env.Order(), d, known[i].0);
      PickSpec(keys, d, others[j].0);
      SortedOthers(d, env.Order(), others[j].0);
    }
  }

  lemma KeyAt(d: Dict, i: nat)
    requires i < |d|
    ensures HasKey(d, d[i].0)
  {
  }

  // ---- what is written is read back ----

  /** A key that YAML reads back as the same text when it is printed bare. */
  predicate PlainKey(k: string) {
    && k != "" && ('a' <= k[0] <= 'z' || 'A' <= k[0] <= 'Z') && !Ambiguous(k)
    && forall i | 0 <= i < |k| :: 'a' <= k[i] <= 'z' || 'A' <= k[i] <= 'Z' || '0' <= k[i] <= '9' || k[i] == '_' || k[i] == '-'
  }

  predicate OneLine(s: string) {
    forall i | 0 <= i < |s| :: PrintableChar(s[i])
  }

  predicate PrintableValue(v: Value) {
    match v
    case Scalar(text) => OneLine(text)
    case List(items) => forall i | 0 <= i < |items| :: OneLine(items[i])
    case _ => true
  }

  /** A value of printable texts, whose list items are not empty. */
  predicate StorableValue(v: Value) {
    PrintableValue(v) && (v.List? ==> forall i | 0 <= i < |v.items| :: v.items[i] != "")
  }

  ghost predicate Storable(d: Dict) {
    IsDict(d) && forall x | HasKey(d, x) :: PlainKey(x) && StorableValue(Lookup(d, x))
  }

  /** An empty text is printed as nothing, and read back as no value. */
  function Restore(v: Value): Value {
    if v == Scalar("") then Null else v
  }

  /** What becomes of a frontmatter `d` when it is printed and read back as `e`. */
  ghost predicate ReadsBackAs(d: Dict, e: Dict) {
    IsDict(e) && forall x :: HasKey(e, x) == HasKey(d, x) && Lookup(e, x) == Restore(Lookup(d, x))
  }

  /** What is assumed of YAML: printed lines with plain keys and storable values are read back. */
  ghost predicate FaithfulYaml(env: Env) {
    forall d: Dict | Storable(d) && d != [] :: BlockReadsBack(env, d)
  }

  ghost predicate BlockReadsBack(env: Env, d: Dict) {
    var block := JoinWith(Lines(d, OrderedKeys(d, env.Order())), "\n");
    env.yaml(block).Some? && ReadsBackAs(d, env.yaml(block).value)
  }

  lemma UnbrokenValue(v: Value)
    requires PrintableValue(v)
    ensures NoBreaks(v)
  {
    assert !PrintableChar('\n');
    hide PrintableChar;
  }

  lemma StorablePrintable(d: Dict)
    requires Storable(d)
    ensures Printable(d)
  {
    forall i: nat | i < |d| ensures '\n' !in d[i].0 && NoBreaks(d[i].1) {
      KeyAt(d, i);
      LookupAt(d, i);
      assert PlainKey(d[i].0) && StorableValue(d[i].1);
      UnbrokenValue(d[i].1);
    }
  }

  lemma StripNonBlank(s: string)
    requires s != "" && !IsSpace(s[0])
    ensures Strip(s) != ""
  {
    hide IsSpace;
    assert TrimLeft(s) == s;
    var after := TrimRightShape(s);
    hide TrimRight;
    assert TrimRight(s) == "" ==> after == s;
  }

  lemma BlockNotBlank(d: Dict, order: seq<string>)
    requires Storable(d) && d != []
    ensures Strip(JoinWith(Lines(d, OrderedKeys(d, order)), "\n")) != ""
  {
    var keys := OrderedKeys(d, order);
    OrderedKeysComplete(d, order);
    assert d[0].0 in keys;
    assert PlainKey(keys[0]);
    var lines := Lines(d, keys);
    assert lines[0] == Line(d, keys[0]) && lines[0][0] == keys[0][0];
    hide Lines, OrderedKeys;
    StripNonBlank(JoinWith(lines, "\n"));
  }

  /** The text is read as a note with frontmatter `d`, printed and read back, and body `body`. */
  ghost predicate ReadsAs(env: Env, text: string, d: Dict, body: string) {
    Parse(env, text).Some? && ReadsBackAs(d, Parse(env, text).value.fm) && Parse(env, text).value.body == body
  }

  lemma ParsesFront(env: Env, text: string, raw: string, body: string)
    requires SplitNote(text) == Front(raw, body) && Strip(raw) != "" && env.yaml(raw).Some?
    ensures Parse(env, text) == Some(Note(env.yaml(raw).value, body))
  {
    hide SplitNote, Strip;
  }

  /** A note that a stage has written is read back with the same frontmatter and body. */
  lemma WrittenReadsBack(env: Env, d: Dict, body: string)
    requires FaithfulYaml(env) && Storable(d) && d != []
    ensures ReadsAs(env, RenderNote(d, body, env.Order()), d, DropNewlines(body))
  {
    hide *;
    YamlReads(env, d);
    StorablePrintable(d);
    var order := env.Order();
    SplitRendered(d, body, order);
    BlockNotBlank(d, order);
    ReadBackParts(env, d, body, JoinWith(Lines(d, OrderedKeys(d, order)), "\n"));
  }

  lemma YamlReads(env: Env, d: Dict)
    requires FaithfulYaml(env) && Storable(d) && d != []
    ensures BlockReadsBack(env, d)
  {
    hide Storable, BlockReadsBack;
  }

  lemma ReadBackParts(env: Env, d: Dict, body: string, block: string)
    requires BlockReadsBack(env, d) && block == JoinWith(Lines(d, OrderedKeys(d, env.Order())), "\n")
    requires SplitNote(RenderNote(d, body, env.Order())) == Front(block, DropNewlines(body)) && Strip(block) != ""
    ensures ReadsAs(env, RenderNote(d, body, env.Order()), d, DropNewlines(body))
  {
    hide JoinWith, Lines, OrderedKeys, Env.Order, SplitNote, RenderNote, Strip, ReadsBackAs, Parse;
    ParsesFront(env, RenderNote(d, body, env.Order()), block, DropNewlines(body));
  }

  // ---- what each stage changes ----

  predicate Same(d: Dict, e: Dict, x: string) {
    HasKey(d, x) == HasKey(e, x) && Lookup(d, x) == Lookup(e, x)
  }

  ghost predicate SameBut(d: Dict, e: Dict, key: string) {
    forall x | x != key :: Same(d, e, x)
  }

  /** What the draft of a stage has to do with the frontmatter it started from. */
  ghost predicate Changes(env: Env, stage: Stage, d: Dict, e: Dict) {
    && IsDict(e)
    && (forall x | HasKey(d, x) :: HasKey(e, x))
    && (forall x | HasKey(e, x) :: HasKey(d, x) || x in env.Order())
    && match stage
       case Shape => HasAll(e, CoreOrder()) && (TypeCrashes(e) ==> TypeCrashes(d))
       case ClassifyType => TypeApproved(env, e) && SameBut(d, e, "type")
       case PropertyValues => Same(d, e, "type") && HasAll(e, ValueKeys()) && !HasUnapproved(env, e)
       case TemplateBody => e == d
       case AssignHub => !IsBlank(Lookup(e, "parent")) && SameBut(d, e, "parent")
       case AssignFolder => false
       case Summary => SameBut(d, e, "summary")
  }

  // ---- each stage's draft changes only what the stage is for ----

  lemma BuiltinTypesNamed(env: Env)
    ensures "" !in env.NoteTypes()
  {
  }

  lemma {:induction false} ShapeSpec(d: Dict, keys: seq<string>, x: string)
    ensures HasKey(ShapeDefaults(d, keys), x) <==> HasKey(d, x) || x in keys
    ensures HasKey(d, x) ==> Lookup(ShapeDefaults(d, keys), x) == Lookup(d, x)
    ensures !HasKey(d, x) && x in keys ==> Lookup(ShapeDefaults(d, keys), x) in {Scalar(""), List([])}
  {
    hide HasKey, Lookup;
    if keys != [] {
      var k := keys[|keys| - 1];
      var before := ShapeDefaults(d, keys[..|keys| - 1]);
      ShapeSpec(d, keys[..|keys| - 1], x);
      ShapeSpec(d, keys[..|keys| - 1], k);
      PutSpec(before, k, if k == "related" then List([]) else Scalar(""), x);
      assert x in keys <==> x == k || x in keys[..|keys| - 1];
    }
  }

  lemma {:induction false} ShapeDict(d: Dict, keys: seq<string>)
    requires IsDict(d)
    ensures IsDict(ShapeDefaults(d, keys))
  {
    if keys != [] {
      var k := keys[|keys| - 1];
      ShapeDict(d, keys[..|keys| - 1]);
      PutDict(ShapeDefaults(d, keys[..|keys| - 1]), k, if k == "related" then List([]) else Scalar(""));
    }
  }

  lemma {:induction false} ExtrasSpec(d: Dict, customs: seq<Custom>, extra: map<string, Value>, x: string)
    ensures HasKey(d, x) ==> HasKey(PutExtras(d, customs, extra), x)
    ensures HasKey(PutExtras(d, customs, extra), x) ==>
              HasKey(d, x) || exists i | 0 <= i < |customs| :: customs[i].name == x
    ensures (forall i | 0 <= i < |customs| :: customs[i].name != x) ==> Same(d, PutExtras(d, customs, extra), x)
  {
    hide HasKey, Lookup;
    if customs != [] {
      var rest := customs[..|customs| - 1];
      var c := customs[|customs| - 1];
      ExtrasSpec(d, rest, extra, x);
      PutSpec(PutExtras(d, rest, extra), c.name, ExtraValue(c, extra), x);
      forall i | 0 <= i < |rest| ensures rest[i] == customs[i] {}
    }
  }

  lemma {:induction false} ExtrasDict(d: Dict, customs: seq<Custom>, extra: map<string, Value>)
    requires IsDict(d)
    ensures IsDict(PutExtras(d, customs, extra))
  {
    if customs != [] {
      ExtrasDict(d, customs[..|customs| - 1], extra);
      var c := customs[|customs| - 1];
      PutDict(PutExtras(d, customs[..|customs| - 1], extra), c.name, ExtraValue(c, extra));
    }
  }

  /** The schema's own properties: distinct, not built in, and plain to print. */
  ghost predicate CustomsOk(env: Env) {
    && NoRepeats(env.Order())
    && (forall i | 0 <= i < |env.customs| :: PlainKey(env.customs[i].name))
  }

  lemma CustomNotCore(env: Env, i: nat)
    requires CustomsOk(env) && i < |env.customs|
    ensures env.customs[i].name !in CoreOrder() && env.customs[i].name in env.Order()
  {
    hide PlainKey;
    var order := env.Order();
    assert order[8 + i] == env.customs[i].name;
    forall j | 0 <= j < 8 ensures CoreOrder()[j] != env.customs[i].name { assert order[j] == CoreOrder()[j]; }
  }

  lemma CoreInOrder(env: Env)
    ensures forall i | 0 <= i < 8 :: CoreOrder()[i] in env.Order()
    ensures forall i | 0 <= i < 7 :: ValueKeys()[i] in CoreOrder() && ValueKeys()[i] in env.Order()
  {
    forall i | 0 <= i < 8 ensures CoreOrder()[i] in env.Order() { assert env.Order()[i] == CoreOrder()[i]; }
    forall i | 0 <= i < 7 ensures ValueKeys()[i] in CoreOrder() { assert ValueKeys()[i] == CoreOrder()[i + 1]; }
  }

  lemma ShapeChanges(env: Env, d: Dict)
    requires IsDict(d)
    ensures Changes(env, Shape, d, ShapeDefaults(d, CoreOrder()))
  {
    var e := ShapeDefaults(d, CoreOrder());
    ShapeDict(d, CoreOrder());
    CoreInOrder(env);
    hide HasKey, Lookup, Env.Order, IsDict, ShapeDefaults;
    forall x ensures HasKey(d, x) ==> HasKey(e, x) { ShapeSpec(d, CoreOrder(), x); }
    forall x | HasKey(e, x) ensures HasKey(d, x) || x in env.Order() {
      ShapeSpec(d, CoreOrder(), x);
      if x in CoreOrder() { var i :| 0 <= i < 8 && CoreOrder()[i] == x; }
    }
    forall i | 0 <= i < 8 ensures HasKey(e, CoreOrder()[i]) { ShapeSpec(d, CoreOrder(), CoreOrder()[i]); }
    TypeStays(d);
  }

  lemma TypeStays(d: Dict)
    ensures TypeCrashes(ShapeDefaults(d, CoreOrder())) ==> TypeCrashes(d)
  {
    assert CoreOrder()[0] == "type";
    hide HasKey, Lookup, ShapeDefaults, CoreOrder;
    ShapeSpec(d, CoreOrder(), "type");
  }

  /** Setting one accepted property. */
  lemma PutChanges(env: Env, d: Dict, key: string, v: Value)
    requires IsDict(d) && key in env.Order()
    ensures IsDict(Put(d, key, v)) && SameBut(d, Put(d, key, v), key) && Lookup(Put(d, key, v), key) == v
    ensures forall x | HasKey(d, x) :: HasKey(Put(d, key, v), x)
    ensures forall x | HasKey(Put(d, key, v), x) :: HasKey(d, x) || x in env.Order()
  {
    hide HasKey, Lookup, Env.Order;
    PutDict(d, key, v);
    forall x ensures HasKey(Put(d, key, v), x) <==> x == key || HasKey(d, x) { PutSpec(d, key, v, x); }
    forall x | x != key ensures Same(d, Put(d, key, v), x) { PutSpec(d, key, v, x); }
    PutSpec(d, key, v, key);
  }

  /** Everything the seven answered properties become. */
  lemma SevenPut(d: Dict, p: Payload, env: Env, x: string)
    requires p.Values? && CustomsOk(env)
    ensures var e := PutValues(env, d, p);
            && (HasKey(d, x) ==> HasKey(e, x))
            && (HasKey(e, x) ==> HasKey(d, x) || x in env.Order())
            && (x in ValueKeys() ==> HasKey(e, x))
            && (x == "type" ==> Same(d, e, x))
            && (x == "status" ==> Lookup(e, x) == Scalar(p.status))
            && (x == "domain" ==> Lookup(e, x) == Scalar(p.domain))
            && (x == "source_kind" ==> Lookup(e, x) == Scalar(p.sourceKind))
            && (x == "capture_type" ==> Lookup(e, x) == Scalar(p.captureType))
  {
    hide HasKey, Lookup, PlainKey, PutExtras;
    var d1 := Put(d, "status", Scalar(p.status));
    var d2 := Put(d1, "domain", Scalar(p.domain));
    var d3 := Put(d2, "parent", Scalar(p.parent));
    var d4 := Put(d3, "related", List(p.related));
    var d5 := Put(d4, "cover", Scalar(p.cover));
    var d6 := Put(d5, "source_kind", Scalar(p.sourceKind));
    var d7 := Put(d6, "capture_type", Scalar(p.captureType));
    PutSpec(d, "status", Scalar(p.status), x);
    PutSpec(d1, "domain", Scalar(p.domain), x);
    PutSpec(d2, "parent", Scalar(p.parent), x);
    PutSpec(d3, "related", List(p.related), x);
    PutSpec(d4, "cover", Scalar(p.cover), x);
    PutSpec(d5, "source_kind", Scalar(p.sourceKind), x);
    PutSpec(d6, "capture_type", Scalar(p.captureType), x);
    assert PutValues(env, d, p) == PutExtras(d7, env.customs, p.extra);
    hide PutValues, Put;
    ExtrasSpec(d7, env.customs, p.extra, x);
    CoreInOrder(env);
    CustomsApart(env, x);
  }

  lemma CustomsApart(env: Env, x: string)
    requires CustomsOk(env)
    ensures x in CoreOrder() ==> forall i | 0 <= i < |env.customs| :: env.customs[i].name != x
    ensures (exists i | 0 <= i < |env.customs| :: env.customs[i].name == x) ==> x in env.Order()
  {
    hide PlainKey, Env.Order, CoreOrder;
    forall i: nat | i < |env.customs|
      ensures env.customs[i].name !in CoreOrder() && env.customs[i].name in env.Order()
    {
      CustomNotCore(env, i);
    }
  }

  lemma ValuesDict(env: Env, d: Dict, p: Payload)
    requires p.Values? && IsDict(d)
    ensures IsDict(PutValues(env, d, p))
  {
    hide IsDict, Put, PutExtras;
    var d1 := Put(d, "status", Scalar(p.status));
    var d2 := Put(d1, "domain", Scalar(p.domain));
    var d3 := Put(d2, "parent", Scalar(p.parent));
    var d4 := Put(d3, "related", List(p.related));
    var d5 := Put(d4, "cover", Scalar(p.cover));
    var d6 := Put(d5, "source_kind", Scalar(p.sourceKind));
    var d7 := Put(d6, "capture_type", Scalar(p.captureType));
    PutDict(d, "status", Scalar(p.status));
    PutDict(d1, "domain", Scalar(p.domain));
    PutDict(d2, "parent", Scalar(p.parent));
    PutDict(d3, "related", List(p.related));
    PutDict(d4, "cover", Scalar(p.cover));
    PutDict(d5, "source_kind", Scalar(p.sourceKind));
    PutDict(d6, "capture_type", Scalar(p.captureType));
    ExtrasDict(d7, env.customs, p.extra);
  }

  /** Validated answers are approved values: the model cannot write one the ledger would reject. */
  lemma AnswersApproved(env: Env, reply: Reply, d: Dict)
    requires Validated(env, PropertyValues, [], reply).Some? && CustomsOk(env)
    ensures reply.Answer? && reply.payload.Values? && Validated(env, PropertyValues, [], reply).value == reply.payload
    ensures !HasUnapproved(env, PutValues(env, d, reply.payload))
  {
    hide PutValues, Builtin, CustomsOk, ExtraOk, NonBlankAll, Lookup;
    var p := reply.payload;
    SevenPut(d, p, env, "status");
    SevenPut(d, p, env, "domain");
    SevenPut(d, p, env, "source_kind");
    SevenPut(d, p, env, "capture_type");
  }

  lemma ValuesChanges(env: Env, d: Dict, reply: Reply)
    requires IsDict(d) && CustomsOk(env) && Validated(env, PropertyValues, [], reply).Some?
    ensures reply.Answer? && reply.payload.Values? && Changes(env, PropertyValues, d, PutValues(env, d, reply.payload))
  {
    AnswersApproved(env, reply, d);
    hide PutValues, HasKey, Lookup, IsDict, CustomsOk, Env.Order, HasUnapproved, Validated;
    var p := reply.payload;
    var e := PutValues(env, d, p);
    ValuesDict(env, d, p);
    forall x
      ensures HasKey(d, x) ==> HasKey(e, x)
      ensures HasKey(e, x) ==> HasKey(d, x) || x in env.Order()
      ensures x in ValueKeys() ==> HasKey(e, x)
    {
      SevenPut(d, p, env, x);
    }
    SevenPut(d, p, env, "type");
    forall i | 0 <= i < 7 ensures HasKey(e, ValueKeys()[i]) {
      assert ValueKeys()[i] in ValueKeys();
    }
  }

  lemma KeysKnown(env: Env)
    ensures "type" in env.Order() && "parent" in env.Order() && (env.SummaryIsProperty() ==> "summary" in env.Order())
  {
    assert CoreOrder()[0] == "type" && CoreOrder()[3] == "parent";
    CoreInOrder(env);
    hide CoreOrder;
    if env.SummaryIsProperty() {
      var i :| 0 <= i < |env.Names()| && env.Names()[i] == "summary";
      assert env.Order()[|CoreOrder()| + i] == "summary";
    }
  }

  /** Whatever the stage and the answer, a draft changes only what its stage is for. */
  lemma DraftChanges(env: Env, n: Note, stage: Stage, reply: Option<Reply>)
    requires IsDict(n.fm) && CustomsOk(env) && DraftOf(env, n, stage, reply).Contents?
    ensures Changes(env, stage, n.fm, DraftOf(env, n, stage, reply).fm)
  {
    KeysKnown(env);
    hide IsDict, CustomsOk, Env.Order, HasKey, Lookup, Put, PutValues, Validated, Held, Env.SummaryIsProperty;
    match stage
    case Shape => ShapeChanges(env, n.fm);
    case ClassifyType => TypeChanges(env, n, reply);
    case PropertyValues => PropertyDraft(env, n, reply);
    case TemplateBody =>
    case AssignHub => HubChanges(env, n, reply);
    case AssignFolder =>
    case Summary => SummaryChanges(env, n, reply);
  }

  lemma TypeChanges(env: Env, n: Note, reply: Option<Reply>)
    requires IsDict(n.fm) && "type" in env.Order() && DraftOf(env, n, ClassifyType, reply).Contents?
    ensures Changes(env, ClassifyType, n.fm, DraftOf(env, n, ClassifyType, reply).fm)
  {
    hide IsDict, Env.Order, HasKey, Lookup, Put, PutValues, Held, NonBlankAll, Env.NoteTypes;
    PutChanges(env, n.fm, "type", Scalar(reply.value.payload.noteType));
  }

  lemma PropertyDraft(env: Env, n: Note, reply: Option<Reply>)
    requires IsDict(n.fm) && CustomsOk(env) && DraftOf(env, n, PropertyValues, reply).Contents?
    ensures Changes(env, PropertyValues, n.fm, DraftOf(env, n, PropertyValues, reply).fm)
  {
    hide IsDict, CustomsOk, Env.Order, HasKey, Lookup, PutValues, Held, NonBlankAll, ExtraOk, Env.Answerable;
    ValuesChanges(env, n.fm, reply.value);
  }

  lemma HubChanges(env: Env, n: Note, reply: Option<Reply>)
    requires IsDict(n.fm) && "parent" in env.Order() && HubDraft(env, n, reply).Contents?
    ensures Changes(env, AssignHub, n.fm, HubDraft(env, n, reply).fm)
  {
    hide IsDict, Env.Order, HasKey, Lookup, Put, Judge, FolderHub;
    forall v: string ensures Changes(env, AssignHub, n.fm, Put(n.fm, "parent", Scalar(v))) || v == "" {
      PutChanges(env, n.fm, "parent", Scalar(v));
    }
  }

  lemma SummaryChanges(env: Env, n: Note, reply: Option<Reply>)
    requires IsDict(n.fm) && (env.SummaryIsProperty() ==> "summary" in env.Order())
    requires DraftOf(env, n, Summary, reply).Contents?
    ensures Changes(env, Summary, n.fm, DraftOf(env, n, Summary, reply).fm)
  {
    hide IsDict, Env.Order, HasKey, Lookup, Put, Held, NonBlankAll, Strip, Env.SummaryIsProperty;
    if env.SummaryIsProperty() {
      PutChanges(env, n.fm, "summary", Scalar(Strip(reply.value.payload.summary)));
    }
  }

  // ---- drafts can be stored ----

  /** The texts an answer would put into the frontmatter have no line breaks. */
  predicate AnswerStorable(env: Env, reply: Option<Reply>) {
    reply.None? || reply.value.Unusable?
    || match reply.value.payload
       case NoteType(t) => OneLine(t)
       case Values(status, domain, parent, related, cover, sourceKind, captureType, extra) =>
         && OneLine(status) && OneLine(domain) && OneLine(parent) && PrintableValue(List(related)) && OneLine(cover)
         && OneLine(sourceKind) && OneLine(captureType) && forall k | k in extra :: PrintableValue(extra[k])
       case SummaryText(summary) => !env.SummaryIsProperty() || OneLine(Strip(summary))
       case _ => true
  }

  lemma PutStorable(d: Dict, key: string, v: Value)
    requires Storable(d) && PlainKey(key) && StorableValue(v)
    ensures Storable(Put(d, key, v))
  {
    hide HasKey, Lookup, PlainKey, StorableValue;
    PutDict(d, key, v);
    forall x | HasKey(Put(d, key, v), x) ensures PlainKey(x) && StorableValue(Lookup(Put(d, key, v), x)) {
      PutSpec(d, key, v, x);
    }
  }

  lemma LowerStays(k: string)
    requires forall i | 0 <= i < |k| :: !('A' <= k[i] <= 'Z')
    ensures LowerAscii(k) == k
  {
  }

  lemma PlainWord(k: string)
    requires |k| > 4 || k == "type"
    requires k != "false" && 'a' <= k[0] <= 'z' && forall i | 0 <= i < |k| :: 'a' <= k[i] <= 'z' || k[i] == '_'
    ensures PlainKey(k)
  {
    LowerStays(k);
    assert LowerAscii(k) !in {"true", "false", "null", "none", "yes", "no", "on", "off"};
    assert k[0] !in "+-";
  }

  lemma CorePlain(i: nat)
    requires i < 8
    ensures PlainKey(CoreOrder()[i])
  {
    PlainWord(CoreOrder()[i]);
  }

  lemma NamesPlain()
    ensures PlainKey("type") && PlainKey("parent") && PlainKey("summary")
  {
    PlainWord("type");
    PlainWord("parent");
    PlainWord("summary");
  }

  lemma {:induction false} ShapeStorable(d: Dict, keys: seq<string>)
    requires Storable(d) && forall i | 0 <= i < |keys| :: PlainKey(keys[i])
    ensures Storable(ShapeDefaults(d, keys))
  {
    hide Storable, PlainKey;
    if keys != [] {
      var k := keys[|keys| - 1];
      ShapeStorable(d, keys[..|keys| - 1]);
      PutStorable(ShapeDefaults(d, keys[..|keys| - 1]), k, if k == "related" then List([]) else Scalar(""));
    }
  }

  lemma {:induction false} ExtrasStorable(env: Env, d: Dict, n: nat, extra: map<string, Value>)
    requires Storable(d) && CustomsOk(env) && ExtraOk(env, extra) && n <= |env.customs|
    requires forall k | k in extra :: PrintableValue(extra[k])
    ensures Storable(PutExtras(d, env.customs[..n], extra))
  {
    hide Storable, PlainKey, Env.Order, NoRepeats, NonBlankAll;
    if n > 0 {
      ExtrasStorable(env, d, n - 1, extra);
      assert env.customs[..n][..n - 1] == env.customs[..n - 1];
      var c := env.customs[n - 1];
      if c.name != "summary" {
        ExtraStorable(env, n - 1, extra);
        PutStorable(PutExtras(d, env.customs[..n - 1], extra), c.name, ExtraValue(c, extra));
      }
    }
  }

  lemma ExtraStorable(env: Env, i: nat, extra: map<string, Value>)
    requires ExtraOk(env, extra) && i < |env.customs| && env.customs[i].name != "summary"
    requires forall k | k in extra :: PrintableValue(extra[k])
    ensures StorableValue(ExtraValue(env.customs[i], extra))
  {
    var v := ExtraValue(env.customs[i], extra);
    if env.customs[i].name in extra && v.List? {
      hide Strip;
      NonBlankItems(v.items);
    }
  }

  lemma NonBlankItems(items: seq<string>)
    requires NonBlankAll(items)
    ensures forall i | 0 <= i < |items| :: items[i] != ""
  {
    StripTrimmed("");
    hide Strip;
  }

  lemma ValuesStorable(env: Env, d: Dict, p: Payload)
    requires Storable(d) && CustomsOk(env) && p.Values? && NonBlankAll(p.related) && ExtraOk(env, p.extra)
    requires AnswerStorable(env, Some(Answer(p, None, [])))
    ensures Storable(PutValues(env, d, p))
  {
    NonBlankItems(p.related);
    forall i | 0 <= i < 8 ensures PlainKey(CoreOrder()[i]) { CorePlain(i); }
    assert CoreOrder()[1..] == ValueKeys();
    assert forall i | 0 <= i < 7 :: PlainKey(ValueKeys()[i]) by {
      forall i | 0 <= i < 7 ensures PlainKey(ValueKeys()[i]) { assert ValueKeys()[i] == CoreOrder()[i + 1]; }
    }
    SevenStorable(d, p);
    assert env.customs[..|env.customs|] == env.customs;
    ExtrasStorable(env, SevenOf(d, p), |env.customs|, p.extra);
  }

  lemma SevenStorable(d: Dict, p: Payload)
    requires Storable(d) && p.Values? && forall i | 0 <= i < 7 :: PlainKey(ValueKeys()[i])
    requires StorableValue(Scalar(p.status)) && StorableValue(Scalar(p.domain)) && StorableValue(Scalar(p.parent))
    requires StorableValue(List(p.related)) && StorableValue(Scalar(p.cover)) && StorableValue(Scalar(p.sourceKind))
    requires StorableValue(Scalar(p.captureType))
    ensures Storable(SevenOf(d, p))
  {
    assert ValueKeys()[0] == "status" && ValueKeys()[1] == "domain" && ValueKeys()[2] == "parent"
        && ValueKeys()[3] == "related" && ValueKeys()[4] == "cover" && ValueKeys()[5] == "source_kind"
        && ValueKeys()[6] == "capture_type";
    hide Storable, PlainKey, StorableValue, Put, ValueKeys;
    PutStorable(d, "status", Scalar(p.status));
    var d1 := Put(d, "status", Scalar(p.status));
    PutStorable(d1, "domain", Scalar(p.domain));
    var d2 := Put(d1, "domain", Scalar(p.domain));
    PutStorable(d2, "parent", Scalar(p.parent));
    var d3 := Put(d2, "parent", Scalar(p.parent));
    PutStorable(d3, "related", List(p.related));
    var d4 := Put(d3, "related", List(p.related));
    PutStorable(d4, "cover", Scalar(p.cover));
    var d5 := Put(d4, "cover", Scalar(p.cover));
    PutStorable(d5, "source_kind", Scalar(p.sourceKind));
    var d6 := Put(d5, "source_kind", Scalar(p.sourceKind));
    PutStorable(d6, "capture_type", Scalar(p.captureType));
  }

  /** What is assumed of the fixed settings. */
  ghost predicate SettingsOk(env: Env) {
    && CustomsOk(env) && FaithfulYaml(env)
    && (forall d: string, i | 0 <= i < |env.hubs(d)| :: OneLine(env.hubs(d)[i]))
    && (forall t: string, i | 0 <= i < |env.sections(t)| :: env.sections(t)[i].heading != "##")
  }

  lemma DraftStorable(env: Env, n: Note, stage: Stage, reply: Option<Reply>)
    requires SettingsOk(env) && Storable(n.fm) && AnswerStorable(env, reply) && DraftOf(env, n, stage, reply).Contents?
    ensures Storable(DraftOf(env, n, stage, reply).fm)
  {
    hide Storable, FaithfulYaml, AnswerStorable;
    match stage
    case Shape =>
      forall i | 0 <= i < 8 ensures PlainKey(CoreOrder()[i]) { CorePlain(i); }
      ShapeStorable(n.fm, CoreOrder());
    case TemplateBody =>
    case AssignHub => HubStorable(env, n, reply);
    case AssignFolder =>
    case _ => ModelStorable(env, n, stage, reply);
  }

  lemma ModelStorable(env: Env, n: Note, stage: Stage, reply: Option<Reply>)
    requires CustomsOk(env) && Storable(n.fm) && AnswerStorable(env, reply) && ModelDraft(env, n, stage, reply).Contents?
    ensures Storable(ModelDraft(env, n, stage, reply).fm)
  {
    hide Storable, CustomsOk, AnswerStorable, Judge, PutValues, Put, TypeApproved, TypeCrashes, ApplySummary,
      Env.SummaryIsProperty;
    var p := PassedPayload(env, stage, reply);
    PassedStorable(env, n.fm, p);
  }

  lemma PassedStorable(env: Env, d: Dict, p: Payload)
    requires CustomsOk(env) && Storable(d)
    requires p.NoteType? ==> OneLine(p.noteType)
    requires p.Values? ==> NonBlankAll(p.related) && ExtraOk(env, p.extra) && AnswerStorable(env, Some(Answer(p, None, [])))
    requires p.SummaryText? && env.SummaryIsProperty() ==> OneLine(p.summary)
    ensures p.NoteType? ==> Storable(Put(d, "type", Scalar(p.noteType)))
    ensures p.Values? ==> Storable(PutValues(env, d, p))
    ensures p.SummaryText? && env.SummaryIsProperty() ==> Storable(Put(d, "summary", Scalar(p.summary)))
  {
    hide Storable, CustomsOk, AnswerStorable, PutValues, Put, Env.SummaryIsProperty, PlainKey, ExtraOk, NonBlankAll;
    NamesPlain();
    if p.NoteType? { PutStorable(d, "type", Scalar(p.noteType)); }
    if p.Values? { ValuesStorable(env, d, p); }
    if p.SummaryText? && env.SummaryIsProperty() { PutStorable(d, "summary", Scalar(p.summary)); }
  }

  /** What a payload that passed validation and the gate is made of. */
  lemma PassedPayload(env: Env, stage: Stage, reply: Option<Reply>) returns (p: Payload)
    requires AnswerStorable(env, reply) && reply.Some? && Judge(env, stage, [], reply.value).Passed?
    ensures Judge(env, stage, [], reply.value) == Passed(p)
    ensures p.NoteType? ==> OneLine(p.noteType)
    ensures p.Values? ==> NonBlankAll(p.related) && ExtraOk(env, p.extra) && AnswerStorable(env, Some(Answer(p, None, [])))
    ensures p.SummaryText? && env.SummaryIsProperty() ==> OneLine(p.summary)
  {
    hide Held, ExtraOk, NonBlankAll, Env.Answerable, Env.NoteTypes, Strip, HubNamed, Bare, Env.SummaryIsProperty;
    p := Judge(env, stage, [], reply.value).payload;
  }

  lemma HubStorable(env: Env, n: Note, reply: Option<Reply>)
    requires SettingsOk(env) && Storable(n.fm) && HubDraft(env, n, reply).Contents?
    ensures Storable(HubDraft(env, n, reply).fm)
  {
    hide *;
    var hub := ChosenHub(env, n, reply);
    HubNames(env, Lookup(n.fm, "domain").text);
    BracketedPlain(hub);
    PutStorable(n.fm, "parent", Scalar("[[" + (hub + "]]")));
  }

  lemma BracketedPlain(hub: string)
    requires OneLine(hub)
    ensures StorableValue(Scalar("[[" + (hub + "]]"))) && PlainKey("parent")
  {
    NamesPlain();
  }

  lemma HubNames(env: Env, domain: string)
    requires SettingsOk(env)
    ensures forall v: string | v in env.hubs(domain) :: OneLine(v)
  {
    hide CustomsOk, FaithfulYaml, OneLine;
    forall v: string | v in env.hubs(domain) ensures OneLine(v) {
      var i :| 0 <= i < |env.hubs(domain)| && env.hubs(domain)[i] == v;
    }
  }

  /** The hub assigned is always one of the domain's approved hubs, whatever the model answers. */
  lemma ChosenHub(env: Env, n: Note, reply: Option<Reply>) returns (hub: string)
    requires HubDraft(env, n, reply).Contents?
    ensures Lookup(n.fm, "domain").Scalar? && hub in env.hubs(Lookup(n.fm, "domain").text)
    ensures HubDraft(env, n, reply).fm == Put(n.fm, "parent", Scalar("[[" + (hub + "]]")))
  {
    hide Put, Lookup, Held, NonBlankAll, Strip, Bare, LowerAscii;
    var hubs := env.hubs(Lookup(n.fm, "domain").text);
    var answered := if reply.Some? then HubAnswer(Judge(env, AssignHub, hubs, reply.value).payload) else "";
    if answered != "" {
      hub := HubNamed(hubs, Bare(Strip(reply.value.payload.parent))).value;
    } else {
      hub := FolderHub(hubs, env.folderCluster);
    }
  }

  /** Canonical frontmatter of a storable draft that has a type is storable. */
  lemma CanonicalStorable(env: Env, d: Dict)
    requires CustomsOk(env) && Storable(d) && HasKey(d, "type")
    ensures Storable(Canonical(env, d)) && Canonical(env, d) != []
  {
    KeysKnown(env);
    hide HasKey, Lookup, Canonical, PlainKey, StorableValue, Env.Order;
    CanonicalDict(env, d);
    var c := Canonical(env, d);
    forall x | HasKey(c, x) ensures PlainKey(x) && StorableValue(Lookup(c, x)) { CanonicalSpec(env, d, x); }
    CanonicalSpec(env, d, "type");
    NoKeys("type");
  }

  // ---- a finished stage, and every stage before it, is settled ----

  /** What becomes of a draft `e` once it is canonical, printed and read back as `h`. */
  ghost predicate Saved(env: Env, e: Dict, h: Dict) {
    && IsDict(h)
    && (forall x :: HasKey(h, x) <==> HasKey(e, x) && (x in env.Order() || env.preserve))
    && (forall x | HasKey(h, x) :: Lookup(h, x) == Restore(Lookup(e, x)))
  }

  lemma CanonicalSaved(env: Env, e: Dict, h: Dict)
    requires IsDict(e) && ReadsBackAs(Canonical(env, e), h)
    ensures Saved(env, e, h)
  {
    hide HasKey, Lookup, Canonical, Env.Order, Restore, IsDict;
    forall x
      ensures HasKey(h, x) <==> HasKey(e, x) && (x in env.Order() || env.preserve)
      ensures HasKey(h, x) ==> Lookup(h, x) == Restore(Lookup(e, x))
    {
      CanonicalSpec(env, e, x);
    }
  }

  /** Marking a stage refreshes the hash and the lock, so it completes that stage without making any
      other one incomplete. */
  ghost predicate Carries(env: Env, s: NoteState, after: NoteState, stage: Stage) {
    && StageComplete(env, after, stage)
    && forall j: Stage | StageComplete(env, s, j) :: StageComplete(env, after, j)
  }

  lemma MarkCarries(
    env: Env, s: NoteState, l: Ledger, text: string, stage: Stage, confidence: Option<real>, warnings: seq<string>)
    requires l.stages == s.ledger.stages
    ensures Carries(env, s, NoteState(text, Mark(env, l, text, stage, confidence, warnings)), stage)
  {
  }

  lemma UnknownKey(env: Env, d: Dict, x: string)
    requires HasKey(d, x) && x !in env.Order()
    ensures HasUnknown(env, d)
  {
    var i :| 0 <= i < |d| && d[i].0 == x;
  }

  lemma KnownKeys(env: Env, d: Dict)
    requires forall x | HasKey(d, x) :: x in env.Order()
    ensures !HasUnknown(env, d)
  {
    hide Env.Order;
    forall i: nat | i < |d| ensures d[i].0 in env.Order() { KeyAt(d, i); }
  }

  lemma ShapeSettled(env: Env, s: NoteState, n: Note, stage: Stage, e: Dict, s': NoteState, n': Note)
    requires Changes(env, stage, n.fm, e) && Saved(env, e, n'.fm) && Carries(env, s, s', stage)
    requires stage.Shape? || !Needed(env, s, n, Shape)
    ensures !Needed(env, s', n', Shape)
  {
    CoreInOrder(env);
    hide Env.Order, HasKey, Lookup, IsDict, HasUnknown, StageComplete, CoreOrder;
    forall i | 0 <= i < |CoreOrder()| ensures HasKey(n'.fm, CoreOrder()[i]) {
      assert HasKey(e, CoreOrder()[i]);
      CoreMember(env, i);
    }
    if HasUnknown(env, n'.fm) {
      if !(forall x | HasKey(n'.fm, x) :: x in env.Order()) {
        var x :| HasKey(n'.fm, x) && x !in env.Order();
        assert HasKey(n.fm, x);
        UnknownKey(env, n.fm, x);
      } else {
        KnownKeys(env, n'.fm);
      }
    }
  }

  lemma CoreMember(env: Env, i: nat)
    requires i < |CoreOrder()|
    ensures CoreOrder()[i] in env.Order()
  {
    assert env.Order()[i] == CoreOrder()[i];
  }

  lemma TypeSettled(env: Env, s: NoteState, n: Note, stage: Stage, e: Dict, s': NoteState, n': Note)
    requires Changes(env, stage, n.fm, e) && Saved(env, e, n'.fm) && !stage.Shape? && HasKey(n.fm, "type")
    requires stage.ClassifyType? || !Needed(env, s, n, ClassifyType)
    ensures !Needed(env, s', n', ClassifyType) && Lookup(n'.fm, "type") == Lookup(e, "type")
    ensures !stage.ClassifyType? ==> Lookup(e, "type") == Lookup(n.fm, "type")
  {
    KeysKnown(env);
    BuiltinTypesNamed(env);
    hide Env.Order, HasKey, Lookup, IsDict, Env.NoteTypes, ValueKeys, HasUnapproved, IsBlank;
    if !stage.ClassifyType? { assert Same(n.fm, e, "type"); }
    assert HasKey(n'.fm, "type");
  }

  lemma ValueMember(env: Env, i: nat)
    requires i < |ValueKeys()|
    ensures ValueKeys()[i] in env.Order()
  {
    CoreInOrder(env);
  }

  lemma StillApproved(env: Env, e: Dict, h: Dict, c: Field)
    requires Saved(env, e, h) && !Unapproved(env, e, c) && Key(c) in env.Order()
    ensures !Unapproved(env, h, c)
  {
    hide Env.Order, Env.Approved, IsDict, HasKey;
    if !HasKey(h, Key(c)) { LookupAbsent(h, Key(c)); }
  }

  lemma NamesKnown(env: Env, c: Field)
    ensures Key(c) in env.Order()
  {
    assert ValueKeys()[0] == "status" && ValueKeys()[1] == "domain" && ValueKeys()[5] == "source_kind"
        && ValueKeys()[6] == "capture_type";
    ValueMember(env, 0);
    ValueMember(env, 1);
    ValueMember(env, 5);
    ValueMember(env, 6);
  }

  lemma NoneUnapproved(env: Env, e: Dict, h: Dict)
    requires Saved(env, e, h) && !HasUnapproved(env, e)
    ensures !HasUnapproved(env, h)
  {
    hide Saved, Unapproved, Env.Order;
    NamesKnown(env, Status);
    NamesKnown(env, Domain);
    NamesKnown(env, SourceKind);
    NamesKnown(env, CaptureType);
    StillApproved(env, e, h, Status);
    StillApproved(env, e, h, Domain);
    StillApproved(env, e, h, SourceKind);
    StillApproved(env, e, h, CaptureType);
  }

  lemma LaterUnapproved(env: Env, stage: Stage, d: Dict, e: Dict)
    requires Changes(env, stage, d, e) && Index(stage) > 2 && !HasUnapproved(env, d)
    ensures !HasUnapproved(env, e)
  {
    hide HasKey, Lookup, Env.Order, IsDict, Env.Approved;
    assert Same(d, e, "status") && Same(d, e, "domain") && Same(d, e, "source_kind") && Same(d, e, "capture_type");
  }

  lemma ValuesSettled(env: Env, s: NoteState, n: Note, stage: Stage, e: Dict, s': NoteState, n': Note)
    requires Changes(env, stage, n.fm, e) && Saved(env, e, n'.fm) && Carries(env, s, s', stage)
    requires Index(stage) >= 2 && (stage.PropertyValues? || !Needed(env, s, n, PropertyValues))
    requires TypeApproved(env, n.fm)
    ensures !Needed(env, s', n', PropertyValues)
  {
    if stage.PropertyValues? {
      hide Env.Order, HasKey, Lookup, IsDict, TypeApproved, HasUnapproved, StageComplete;
      NoneUnapproved(env, e, n'.fm);
    } else {
      hide Env.Order, HasKey, Lookup, IsDict, TypeApproved, HasUnapproved, StageComplete, Saved;
      LaterUnapproved(env, stage, n.fm, e);
      NoneUnapproved(env, e, n'.fm);
    }
    KeysSettled(env, s, n, stage, e, s', n');
  }

  /** The value properties stay present, and filled if they had to be. */
  lemma KeysSettled(env: Env, s: NoteState, n: Note, stage: Stage, e: Dict, s': NoteState, n': Note)
    requires Changes(env, stage, n.fm, e) && Saved(env, e, n'.fm) && Carries(env, s, s', stage)
    requires Index(stage) >= 2 && (stage.PropertyValues? || !Needed(env, s, n, PropertyValues))
    requires TypeApproved(env, n.fm)
    ensures HasAll(n'.fm, ValueKeys())
    ensures StageComplete(env, s', PropertyValues) || FilledAll(n'.fm, ValueKeys())
  {
    hide Env.Order, HasKey, Lookup, IsDict, TypeApproved, HasUnapproved, StageComplete, ValueKeys, IsBlank;
    forall i | 0 <= i < |ValueKeys()|
      ensures HasKey(n'.fm, ValueKeys()[i])
      ensures StageComplete(env, s', PropertyValues) || !IsBlank(Lookup(n'.fm, ValueKeys()[i]))
    {
      var key := ValueKeys()[i];
      ValueMember(env, i);
      assert stage.PropertyValues? || HasKey(n.fm, key);
      assert HasKey(e, key) && HasKey(n'.fm, key);
      if !stage.PropertyValues? && !StageComplete(env, s, PropertyValues) {
        assert !IsBlank(Lookup(n.fm, key));
        StaysFilled(env, stage, n.fm, e, n'.fm, i);
      }
    }
  }

  lemma StaysFilled(env: Env, stage: Stage, d: Dict, e: Dict, h: Dict, i: nat)
    requires Changes(env, stage, d, e) && Saved(env, e, h) && Index(stage) > 2 && i < |ValueKeys()|
    requires HasKey(d, ValueKeys()[i]) && !IsBlank(Lookup(d, ValueKeys()[i]))
    ensures !IsBlank(Lookup(h, ValueKeys()[i]))
  {
    var key := ValueKeys()[i];
    assert key != "summary";
    ValueMember(env, i);
    hide Env.Order, HasKey, Lookup, IsDict, ValueKeys;
    if key != "parent" || !stage.AssignHub? { assert Same(d, e, key); }
    assert HasKey(h, key);
  }

  /** A stage after the template changes the body at most by writing the summary. */
  lemma LaterBody(env: Env, n: Note, stage: Stage, reply: Option<Reply>) returns (summary: string)
    requires DraftOf(env, n, stage, reply).Contents? && Index(stage) > 3
    ensures DraftOf(env, n, stage, reply).body in {n.body, ApplySummary(n.body, summary)}
  {
    hide Put, PutValues, Held, NonBlankAll, Strip, Env.SummaryIsProperty, HasKey, Lookup, ApplySummary, FolderHub;
    summary := if stage.Summary? then Strip(reply.value.payload.summary) else "";
  }

  /** A body edited by a later stage still has every section of its template. */
  lemma BodyStays(body: string, after: string, summary: string, sections: seq<Section>)
    requires after in {body, ApplySummary(body, summary)} && Missing(body, sections) == []
    requires forall i | 0 <= i < |sections| :: sections[i].heading != "##"
    ensures Missing(DropNewlines(after), sections) == []
  {
    hide Headings, Missing, ApplySummary;
    DropKeepsHeadings(after);
    if after != body {
      forall h | h in Headings(body) && h != "##" ensures h in Headings(after) {
        SummaryKeepsHeadings(body, summary, h);
      }
    }
    StillNoneMissing(body, DropNewlines(after), sections);
  }

  lemma TitledSections(env: Env, t: string)
    requires SettingsOk(env)
    ensures forall i | 0 <= i < |env.sections(t)| :: env.sections(t)[i].heading != "##"
  {
    hide CustomsOk, FaithfulYaml, OneLine;
  }

  lemma TemplateSettled(
    env: Env, s: NoteState, n: Note, stage: Stage, reply: Option<Reply>, s': NoteState, n': Note)
    requires SettingsOk(env) && DraftOf(env, n, stage, reply).Contents? && Index(stage) >= 3 && TypeApproved(env, n.fm)
    requires Carries(env, s, s', stage) && (stage.TemplateBody? || !Needed(env, s, n, TemplateBody))
    requires Lookup(n'.fm, "type") == Lookup(n.fm, "type")
    requires n'.body == DropNewlines(DraftOf(env, n, stage, reply).body)
    ensures !Needed(env, s', n', TemplateBody)
  {
    TemplateChoice(env, s, n, s', n', stage);
    hide *;
    if !stage.TemplateBody? && !StageComplete(env, s, TemplateBody) {
      LaterIndex(stage);
      var summary := LaterBody(env, n, stage, reply);
      var sections := env.sections(Lookup(n.fm, "type").text);
      TitledSections(env, Lookup(n.fm, "type").text);
      BodyStays(n.body, DraftOf(env, n, stage, reply).body, summary, sections);
    }
  }

  lemma LaterIndex(stage: Stage)
    requires Index(stage) >= 3 && !stage.TemplateBody?
    ensures Index(stage) > 3
  {
  }

  /** The template stage is settled by its own completion, or by a body that still has every section. */
  lemma TemplateChoice(env: Env, s: NoteState, n: Note, s': NoteState, n': Note, stage: Stage)
    requires TypeApproved(env, n.fm) && Lookup(n'.fm, "type") == Lookup(n.fm, "type")
    requires Carries(env, s, s', stage) && (stage.TemplateBody? || !Needed(env, s, n, TemplateBody))
    ensures Lookup(n.fm, "type").Scalar?
    ensures stage.TemplateBody? || StageComplete(env, s, TemplateBody) ==> !Needed(env, s', n', TemplateBody)
    ensures !stage.TemplateBody? && !StageComplete(env, s, TemplateBody) ==>
              Missing(n.body, env.sections(Lookup(n.fm, "type").text)) == []
    ensures Missing(n'.body, env.sections(Lookup(n.fm, "type").text)) == [] ==> !Needed(env, s', n', TemplateBody)
  {
    hide StageComplete, Missing, Lookup, Env.NoteTypes;
  }

  lemma HubSettled(env: Env, s: NoteState, n: Note, stage: Stage, e: Dict, s': NoteState, n': Note)
    requires Changes(env, stage, n.fm, e) && Saved(env, e, n'.fm) && Carries(env, s, s', stage)
    requires Index(stage) >= 4 && (stage.AssignHub? || !Needed(env, s, n, AssignHub))
    ensures !Needed(env, s', n', AssignHub)
  {
    KeysKnown(env);
    NamesKnown(env, Domain);
    hide Env.Order, IsDict, StageComplete, HasKey, Lookup;
    if !stage.AssignHub? {
      assert Same(n.fm, e, "domain") && Same(n.fm, e, "parent");
      if !HasKey(n'.fm, "domain") { LookupAbsent(n'.fm, "domain"); }
      if !HasKey(n'.fm, "parent") { LookupAbsent(n'.fm, "parent"); LookupAbsent(e, "parent"); }
    }
  }

  lemma FolderSettled(env: Env, s: NoteState, n: Note, stage: Stage, s': NoteState, n': Note)
    requires Carries(env, s, s', stage) && (stage.AssignFolder? || !Needed(env, s, n, AssignFolder))
    ensures !Needed(env, s', n', AssignFolder)
  {
    hide StageComplete;
  }

  lemma SummarySettled(env: Env, s: NoteState, s': NoteState, n': Note)
    requires Carries(env, s, s', Summary)
    ensures !Needed(env, s', n', Summary)
  {
    hide StageComplete;
  }

  /** Recording a folder leaves the note as it is: no stage becomes needed. */
  lemma FiledSettled(env: Env, s: NoteState, n: Note, s': NoteState, j: Stage)
    requires Carries(env, s, s', AssignFolder) && !Needed(env, s, n, j)
    ensures !Needed(env, s', n, j)
  {
    hide StageComplete, HasKey, Lookup, Missing, SummaryMissing, HasUnapproved, HasUnknown, TypeApproved, ValueKeys, CoreOrder;
  }

  // ---- one step ----

  /** A note the machine can work on: it parses, its frontmatter can be stored, its type is no list. */
  ghost predicate Workable(env: Env, s: NoteState) {
    Parse(env, s.text).Some? && Storable(Parse(env, s.text).value.fm) && !TypeCrashes(Parse(env, s.text).value.fm)
  }

  /** Stages up to `i` are not needed. */
  ghost predicate SettledUpTo(env: Env, s: NoteState, n: Note, i: int) {
    forall j: Stage | Index(j) <= i :: !Needed(env, s, n, j)
  }

  function At(env: Env, s: NoteState): (i: nat)
    ensures i <= 7
  {
    match NextNeeded(env, s)
    case Needs(stage) => Index(stage)
    case _ => 7
  }

  lemma NextIsFirst(env: Env, s: NoteState)
    requires Workable(env, s)
    ensures var n := Parse(env, s.text).value;
            && (NextNeeded(env, s).Needs? || NextNeeded(env, s).Done?)
            && (NextNeeded(env, s).Needs? ==>
                  Needed(env, s, n, NextNeeded(env, s).stage) && SettledUpTo(env, s, n, At(env, s) - 1))
            && (NextNeeded(env, s).Done? ==> SettledUpTo(env, s, n, 6))
  {
    hide Parse, Needed, Storable, TypeCrashes;
  }

  lemma SettledMeansLater(env: Env, s: NoteState, i: nat)
    requires Workable(env, s) && i < 7 && SettledUpTo(env, s, Parse(env, s.text).value, i)
    ensures At(env, s) > i
  {
    NextIsFirst(env, s);
    hide Parse, Needed, Storable, TypeCrashes;
  }

  /** Everything a completed stage that wrote the note leaves behind. */
  ghost predicate Wrote(env: Env, s: NoteState, n: Note, stage: Stage, reply: Option<Reply>, s': NoteState, n': Note) {
    && DraftOf(env, n, stage, reply).Contents?
    && Changes(env, stage, n.fm, DraftOf(env, n, stage, reply).fm)
    && Saved(env, DraftOf(env, n, stage, reply).fm, n'.fm)
    && n'.body == DropNewlines(DraftOf(env, n, stage, reply).body)
    && Carries(env, s, s', stage)
  }

  lemma ParsedNote(env: Env, s: NoteState) returns (n: Note)
    requires Workable(env, s)
    ensures Parse(env, s.text) == Some(n) && Storable(n.fm) && IsDict(n.fm) && !TypeCrashes(n.fm)
  {
    hide Parse, TypeCrashes, HasKey, Lookup, PlainKey, StorableValue;
    n := Parse(env, s.text).value;
  }

  lemma DraftTyped(env: Env, s: NoteState, n: Note, stage: Stage, e: Dict)
    requires Changes(env, stage, n.fm, e) && (stage.Shape? || !Needed(env, s, n, Shape))
    ensures HasKey(e, "type") && (!stage.Shape? ==> HasKey(n.fm, "type"))
  {
    assert CoreOrder()[0] == "type";
    hide HasKey, Env.Order, IsDict, CoreOrder, TypeApproved, Lookup, HasUnapproved, StageComplete, HasUnknown;
  }

  lemma ReadBackStorable(d: Dict, h: Dict)
    requires Storable(d) && ReadsBackAs(d, h)
    ensures Storable(h)
  {
    hide HasKey, Lookup, PlainKey, IsDict;
    forall x | HasKey(h, x) ensures PlainKey(x) && StorableValue(Lookup(h, x)) {
      assert HasKey(d, x) && StorableValue(Lookup(d, x));
    }
  }

  lemma DraftWritten(env: Env, s: NoteState, n: Note, stage: Stage, reply: Option<Reply>)
    requires FaithfulYaml(env) && Parse(env, s.text) == Some(n) && DraftOf(env, n, stage, reply).Contents?
    requires var e := DraftOf(env, n, stage, reply).fm;
             Changes(env, stage, n.fm, e) && IsDict(e) && Storable(Canonical(env, e)) && Canonical(env, e) != []
    ensures var s' := Process(env, s, stage, reply).0;
            && Parse(env, s'.text).Some? && Storable(Parse(env, s'.text).value.fm)
            && Wrote(env, s, n, stage, reply, s', Parse(env, s'.text).value)
  {
    hide Changes, IsDict, Storable, Canonical, FaithfulYaml, Parse, Carries, DraftOf, Mark, RenderNote, Saved, ReadsBackAs,
      Env.Order;
    var Contents(e, body, confidence, warnings) := DraftOf(env, n, stage, reply);
    var text := RenderNote(Canonical(env, e), body, env.Order());
    WrittenReadsBack(env, Canonical(env, e), body);
    var h := Parse(env, text).value.fm;
    CanonicalSaved(env, e, h);
    ReadBackStorable(Canonical(env, e), h);
    MarkCarries(env, s, s.ledger, text, stage, confidence, warnings);
  }

  /** A completed stage that wrote the note wrote one that is read back as its draft says. */
  lemma ProcessWrites(env: Env, s: NoteState, n: Note, stage: Stage, reply: Option<Reply>)
    requires SettingsOk(env) && Parse(env, s.text) == Some(n) && Storable(n.fm) && IsDict(n.fm)
    requires AnswerStorable(env, reply) && DraftOf(env, n, stage, reply).Contents?
    requires stage.Shape? || !Needed(env, s, n, Shape)
    ensures var s' := Process(env, s, stage, reply).0;
            && Parse(env, s'.text).Some? && Storable(Parse(env, s'.text).value.fm)
            && Wrote(env, s, n, stage, reply, s', Parse(env, s'.text).value)
  {
    SettingsParts(env);
    hide *;
    var e := DraftOf(env, n, stage, reply).fm;
    DraftChanges(env, n, stage, reply);
    DraftStorable(env, n, stage, reply);
    DraftTyped(env, s, n, stage, e);
    StorableDict(e);
    CanonicalStorable(env, e);
    DraftWritten(env, s, n, stage, reply);
  }

  lemma SettingsParts(env: Env)
    requires SettingsOk(env)
    ensures CustomsOk(env) && FaithfulYaml(env)
  {
    hide CustomsOk, FaithfulYaml, OneLine;
  }

  lemma StorableDict(d: Dict)
    requires Storable(d)
    ensures IsDict(d)
  {
    hide IsDict;
  }

  lemma TypeKept(env: Env, s: NoteState, n: Note, stage: Stage, e: Dict, h: Dict)
    requires Changes(env, stage, n.fm, e) && Saved(env, e, h) && !TypeCrashes(n.fm)
    requires stage.Shape? || !Needed(env, s, n, Shape)
    ensures !TypeCrashes(h)
  {
    KeysKnown(env);
    DraftTyped(env, s, n, stage, e);
    hide HasKey, Lookup, Env.Order, IsDict, CoreOrder, ValueKeys, HasUnapproved, Env.NoteTypes;
    if !stage.Shape? && !stage.ClassifyType? { assert Same(n.fm, e, "type"); }
    assert HasKey(h, "type");
  }

  lemma NotNeededBefore(env: Env, s: NoteState, n: Note, stage: Stage, j: Stage)
    requires SettledUpTo(env, s, n, Index(stage) - 1) && Index(j) <= Index(stage)
    ensures stage == j || !Needed(env, s, n, j)
  {
    hide Needed;
  }

  /** The heart of the convergence: when a stage that was the first one needed has written the note,
      neither it nor any stage before it is needed. */
  lemma WroteSettles(
    env: Env, s: NoteState, n: Note, stage: Stage, reply: Option<Reply>, s': NoteState, n': Note, j: Stage)
    requires SettingsOk(env) && Wrote(env, s, n, stage, reply, s', n')
    requires SettledUpTo(env, s, n, Index(stage) - 1) && Index(j) <= Index(stage)
    ensures !Needed(env, s', n', j)
  {
    hide *;
    Indices();
    WroteParts(env, s, n, stage, reply, s', n');
    var e := DraftOf(env, n, stage, reply).fm;
    NotNeededBefore(env, s, n, stage, j);
    NotNeededBefore(env, s, n, stage, Shape);
    match j
    case Shape => ShapeSettled(env, s, n, stage, e, s', n');
    case ClassifyType =>
      DraftTyped(env, s, n, stage, e);
      TypeSettled(env, s, n, stage, e, s', n');
    case PropertyValues =>
      NotNeededBefore(env, s, n, stage, ClassifyType);
      ApprovedBefore(env, s, n);
      ValuesSettled(env, s, n, stage, e, s', n');
    case TemplateBody => WroteTemplate(env, s, n, stage, reply, s', n');
    case AssignHub => HubSettled(env, s, n, stage, e, s', n');
    case AssignFolder => FolderSettled(env, s, n, stage, s', n');
    case Summary => SummarySettled(env, s, s', n');
  }

  lemma WroteParts(env: Env, s: NoteState, n: Note, stage: Stage, reply: Option<Reply>, s': NoteState, n': Note)
    requires Wrote(env, s, n, stage, reply, s', n')
    ensures DraftOf(env, n, stage, reply).Contents? && Carries(env, s, s', stage)
    ensures Changes(env, stage, n.fm, DraftOf(env, n, stage, reply).fm)
    ensures Saved(env, DraftOf(env, n, stage, reply).fm, n'.fm)
    ensures n'.body == DropNewlines(DraftOf(env, n, stage, reply).body)
  {
    hide Changes, Saved, Carries, DraftOf;
  }

  lemma Indices()
    ensures Index(Shape) == 0 && Index(ClassifyType) == 1 && Index(PropertyValues) == 2 && Index(TemplateBody) == 3
    ensures Index(AssignHub) == 4 && Index(AssignFolder) == 5 && Index(Summary) == 6
  {
  }

  lemma WroteTemplate(env: Env, s: NoteState, n: Note, stage: Stage, reply: Option<Reply>, s': NoteState, n': Note)
    requires SettingsOk(env) && Wrote(env, s, n, stage, reply, s', n')
    requires SettledUpTo(env, s, n, Index(stage) - 1) && 3 <= Index(stage)
    ensures !Needed(env, s', n', TemplateBody)
  {
    hide *;
    Indices();
    WroteParts(env, s, n, stage, reply, s', n');
    NotNeededBefore(env, s, n, stage, Shape);
    NotNeededBefore(env, s, n, stage, ClassifyType);
    NotNeededBefore(env, s, n, stage, TemplateBody);
    ApprovedBefore(env, s, n);
    DraftTyped(env, s, n, stage, DraftOf(env, n, stage, reply).fm);
    TypeSettled(env, s, n, stage, DraftOf(env, n, stage, reply).fm, s', n');
    TemplateSettled(env, s, n, stage, reply, s', n');
  }

  lemma ApprovedBefore(env: Env, s: NoteState, n: Note)
    requires !Needed(env, s, n, ClassifyType)
    ensures TypeApproved(env, n.fm)
  {
    hide TypeApproved;
  }

  lemma FiledShape(env: Env, s: NoteState, n: Note, reply: Option<Reply>, stage: Stage)
    requires Parse(env, s.text) == Some(n) && DraftOf(env, n, stage, reply).Filed?
    ensures var s' := Process(env, s, stage, reply).0;
            stage.AssignFolder? && s'.text == s.text && Carries(env, s, s', stage)
  {
    hide Parse, Judge, Put, PutValues, Env.SummaryIsProperty, Lookup, FolderHub, Carries, Mark, TypeApproved;
    var Filed(folder, confidence, warnings) := DraftOf(env, n, stage, reply);
    MarkCarries(env, s, s.ledger.(routed := Some(folder)), s.text, stage, confidence, warnings);
  }

  lemma WriteAdvances(env: Env, s: NoteState, n: Note, stage: Stage, reply: Option<Reply>)
    requires SettingsOk(env) && Parse(env, s.text) == Some(n) && Storable(n.fm) && IsDict(n.fm) && !TypeCrashes(n.fm)
    requires SettledUpTo(env, s, n, Index(stage) - 1) && AnswerStorable(env, reply)
    requires DraftOf(env, n, stage, reply).Contents?
    ensures var s' := Process(env, s, stage, reply).0;
            Workable(env, s') && SettledUpTo(env, s', Parse(env, s'.text).value, Index(stage))
  {
    hide Needed, Parse, Process, DraftOf, Storable, TypeCrashes, SettingsOk, IsDict, AnswerStorable, Wrote;
    NotNeededBefore(env, s, n, stage, Shape);
    ProcessWrites(env, s, n, stage, reply);
    var s' := Process(env, s, stage, reply).0;
    var n' := Parse(env, s'.text).value;
    WroteType(env, s, n, stage, reply, s', n');
    forall j: Stage | Index(j) <= Index(stage) ensures !Needed(env, s', n', j) {
      WroteSettles(env, s, n, stage, reply, s', n', j);
    }
  }

  lemma WroteType(env: Env, s: NoteState, n: Note, stage: Stage, reply: Option<Reply>, s': NoteState, n': Note)
    requires Wrote(env, s, n, stage, reply, s', n') && !TypeCrashes(n.fm)
    requires stage.Shape? || !Needed(env, s, n, Shape)
    ensures !TypeCrashes(n'.fm)
  {
    hide Needed, DraftOf, TypeCrashes, Changes, Saved, Carries;
    TypeKept(env, s, n, stage, DraftOf(env, n, stage, reply).fm, n'.fm);
  }

  lemma FileAdvances(env: Env, s: NoteState, n: Note, stage: Stage, reply: Option<Reply>)
    requires Parse(env, s.text) == Some(n) && DraftOf(env, n, stage, reply).Filed?
    requires SettledUpTo(env, s, n, Index(stage) - 1)
    ensures Process(env, s, stage, reply).0.text == s.text
    ensures SettledUpTo(env, Process(env, s, stage, reply).0, n, Index(stage))
  {
    hide Needed, Parse, Process, DraftOf, Carries;
    FiledShape(env, s, n, reply, stage);
    var s' := Process(env, s, stage, reply).0;
    forall j: Stage | Index(j) <= Index(stage) ensures !Needed(env, s', n, j) {
      NotNeededBefore(env, s, n, stage, j);
      if j.AssignFolder? { FolderSettled(env, s, n, stage, s', n); } else { FiledSettled(env, s, n, s', j); }
    }
  }

  /** Every completed step moves a note on: it can still be worked on, and the next stage it needs,
      if any, comes after the one just run. */
  lemma StepAdvances(env: Env, s: NoteState, stage: Stage, reply: Option<Reply>)
    requires SettingsOk(env) && Workable(env, s) && NextNeeded(env, s) == Needs(stage)
    requires AnswerStorable(env, reply) && Process(env, s, stage, reply).1.Complete?
    ensures Workable(env, Process(env, s, stage, reply).0)
    ensures At(env, Process(env, s, stage, reply).0) > Index(stage) == At(env, s)
  {
    hide Needed, Parse, Process, DraftOf, Storable, TypeCrashes, SettingsOk, NextNeeded, SettledUpTo, AnswerStorable, IsDict;
    NextIsFirst(env, s);
    var n := ParsedNote(env, s);
    CompleteDraft(env, s, n, stage, reply);
    if DraftOf(env, n, stage, reply).Contents? {
      WriteAdvances(env, s, n, stage, reply);
    } else {
      FileAdvances(env, s, n, stage, reply);
    }
    SettledMeansLater(env, Process(env, s, stage, reply).0, Index(stage));
  }

  lemma CompleteDraft(env: Env, s: NoteState, n: Note, stage: Stage, reply: Option<Reply>)
    requires Parse(env, s.text) == Some(n) && Process(env, s, stage, reply).1.Complete?
    ensures DraftOf(env, n, stage, reply).Contents? || DraftOf(env, n, stage, reply).Filed?
  {
    StopsShort(env, n, stage, reply);
    hide Parse, DraftOf, RenderNote, Canonical, Mark;
  }

  lemma StopsShort(env: Env, n: Note, stage: Stage, reply: Option<Reply>)
    ensures DraftOf(env, n, stage, reply).Stop? ==> !DraftOf(env, n, stage, reply).outcome.Complete?
  {
    hide Judge, Put, PutValues, Env.SummaryIsProperty, Lookup, FolderHub, TypeApproved, ShapeDefaults, AppendMissing, ApplySummary;
  }

  // ---- whole runs ----

  /** A run over one note: every step runs the stage that is needed first, and completes it. */
  ghost predicate NoteRun(env: Env, states: seq<NoteState>, stages: seq<Stage>, replies: seq<Option<Reply>>) {
    && |states| == |stages| + 1 && |replies| == |stages|
    && forall i: nat | i < |stages| ::
         && NextNeeded(env, states[i]) == Needs(stages[i])
         && Process(env, states[i], stages[i], replies[i]).1.Complete?
         && states[i + 1] == Process(env, states[i], stages[i], replies[i]).0
         && AnswerStorable(env, replies[i])
  }

  lemma {:induction false} RunAdvances(
    env: Env, states: seq<NoteState>, stages: seq<Stage>, replies: seq<Option<Reply>>, i: nat)
    requires SettingsOk(env) && NoteRun(env, states, stages, replies) && Workable(env, states[0]) && i <= |stages|
    ensures Workable(env, states[i]) && At(env, states[i]) >= i
    ensures forall j: nat | j < i :: Index(stages[j]) < At(env, states[i])
  {
    hide Process, NextNeeded, Workable, SettingsOk, AnswerStorable, At;
    if i > 0 {
      RunAdvances(env, states, stages, replies, i - 1);
      var k := i - 1;
      StepAdvances(env, states[k], stages[k], replies[k]);
      assert states[k + 1] == states[i];
    }
  }

  /** The machine never loops: a run over one note takes at most seven steps, its stages come in order
      and none of them twice, and after a full seven no stage is needed. */
  lemma RunConverges(env: Env, states: seq<NoteState>, stages: seq<Stage>, replies: seq<Option<Reply>>)
    requires SettingsOk(env) && NoteRun(env, states, stages, replies) && Workable(env, states[0])
    ensures |stages| <= 7
    ensures forall i: nat, j: nat | i < j < |stages| :: Index(stages[i]) < Index(stages[j])
    ensures NextNeeded(env, states[|stages|]).Needs? || NextNeeded(env, states[|stages|]).Done?
    ensures |stages| == 7 ==> NextNeeded(env, states[|stages|]).Done?
  {
    RunAdvances(env, states, stages, replies, |stages|);
    NextIsFirst(env, states[|stages|]);
    hide Process, Workable, SettingsOk, AnswerStorable, Needed, Parse, SettledUpTo, TypeCrashes;
    forall i: nat, j: nat | i < j < |stages| ensures Index(stages[i]) < Index(stages[j]) {
      RunAdvances(env, states, stages, replies, j);
    }
  }

  // ---- when a step completes ----

  /** The answer passes validation and the review gate. */
  predicate Accepted(env: Env, stage: Stage, hubs: seq<string>, reply: Option<Reply>) {
    && reply.Some? && Validated(env, stage, hubs, reply.value).Some?
    && !Held(env, reply.value.confidence, reply.value.warnings)
  }

  /** No model is asked, or its answer is accepted and, for a hub or a folder, one is picked; without
      an answer only a folder cluster can name the hub. */
  predicate Served(env: Env, n: Note, stage: Stage, reply: Option<Reply>) {
    match stage
    case Shape => true
    case TemplateBody => true
    case AssignHub =>
      DomainNamed(n.fm) &&
      var hubs := env.hubs(Lookup(n.fm, "domain").text);
      && (reply.Some? ==> Accepted(env, AssignHub, hubs, reply))
      && (FolderHub(hubs, env.folderCluster) != "" || (reply.Some? && HubPicked(reply.value)))
    case AssignFolder => Accepted(env, AssignFolder, [], reply) && FolderPicked(reply.value)
    case _ => Accepted(env, stage, [], reply)
  }

  predicate HubPicked(reply: Reply) {
    reply.Answer? && reply.payload.Hub? && Bare(Strip(reply.payload.parent)) != ""
  }

  predicate FolderPicked(reply: Reply) {
    reply.Answer? && reply.payload.Folder? && Strip(reply.payload.folder) != ""
  }

  /** The stage that is needed completes exactly when it is served. */
  lemma NeededCompletesIff(env: Env, s: NoteState, n: Note, stage: Stage, reply: Option<Reply>)
    requires Parse(env, s.text) == Some(n) && NextNeeded(env, s) == Needs(stage)
    ensures Process(env, s, stage, reply).1.Complete? <==> Served(env, n, stage, reply)
  {
    NeededFacts(env, s, n, stage);
    hide *;
    ProcessEnds(env, s, n, stage, reply);
    if stage.AssignHub? {
      HubServed(env, n, reply);
    } else if stage.AssignFolder? {
      FolderServed(env, n, reply);
    } else {
      ModelServed(env, n, stage, reply);
    }
  }

  lemma HubServed(env: Env, n: Note, reply: Option<Reply>)
    requires DomainNamed(n.fm) && env.hubs(Lookup(n.fm, "domain").text) != []
    ensures !DraftOf(env, n, AssignHub, reply).Stop? <==> Served(env, n, AssignHub, reply)
  {
    if reply.Some? && Accepted(env, AssignHub, env.hubs(Lookup(n.fm, "domain").text), reply) {
      HubAnswerNamed(env, n, reply);
    }
    hide Put, Lookup, Held, Validated, FolderHub, HubPicked, HubAnswer;
  }

  lemma FolderServed(env: Env, n: Note, reply: Option<Reply>)
    requires env.customRouting && env.folders != []
    ensures !DraftOf(env, n, AssignFolder, reply).Stop? <==> Served(env, n, AssignFolder, reply)
  {
    hide Held, NonBlankAll, Strip;
  }

  lemma ModelServed(env: Env, n: Note, stage: Stage, reply: Option<Reply>)
    requires !stage.AssignHub? && !stage.AssignFolder? && (!stage.Shape? ==> !TypeCrashes(n.fm))
    requires stage.PropertyValues? || stage.TemplateBody? ==> TypeApproved(env, n.fm)
    ensures !DraftOf(env, n, stage, reply).Stop? <==> Served(env, n, stage, reply)
  {
    hide Held, NonBlankAll, Strip, Put, PutValues, ExtraOk, ShapeDefaults, AppendMissing, ApplySummary, TypeCrashes,
      TypeApproved, Lookup, Env.NoteTypes, Env.Answerable, Env.SummaryIsProperty;
  }

  lemma ProcessEnds(env: Env, s: NoteState, n: Note, stage: Stage, reply: Option<Reply>)
    requires Parse(env, s.text) == Some(n)
    ensures Process(env, s, stage, reply).1.Complete? <==> !DraftOf(env, n, stage, reply).Stop?
  {
    StopsShort(env, n, stage, reply);
    hide Parse, DraftOf, RenderNote, Canonical, Mark;
  }

  lemma NeededFacts(env: Env, s: NoteState, n: Note, stage: Stage)
    requires Parse(env, s.text) == Some(n) && NextNeeded(env, s) == Needs(stage)
    ensures !stage.Shape? ==> !TypeCrashes(n.fm)
    ensures stage.PropertyValues? || stage.TemplateBody? ==> TypeApproved(env, n.fm)
    ensures stage.AssignHub? ==> DomainNamed(n.fm) && env.hubs(Lookup(n.fm, "domain").text) != []
    ensures stage.AssignFolder? ==> env.customRouting && env.folders != []
  {
    hide Parse, Lookup, Env.NoteTypes, StageComplete, HasUnknown, HasUnapproved, HasAll, FilledAll, Missing, SummaryMissing;
  }

  lemma HubAnswerNamed(env: Env, n: Note, reply: Option<Reply>)
    requires DomainNamed(n.fm) && env.hubs(Lookup(n.fm, "domain").text) != []
    requires reply.Some? && Accepted(env, AssignHub, env.hubs(Lookup(n.fm, "domain").text), reply)
    ensures var p := Judge(env, AssignHub, env.hubs(Lookup(n.fm, "domain").text), reply.value).payload;
            HubAnswer(p) != "" <==> HubPicked(reply.value)
  {
    hide Held, NonBlankAll, Lookup, Strip, Bare, HubNamed;
  }

  // ---- a served note is finished ----

  /** A provider answers for a stage of a note's text; a run may also have none. */
  type Provider = Option<(Stage, string) -> Reply>

  function AnswerOf(provider: Provider, stage: Stage, text: string): Option<Reply> {
    match provider
    case None => None
    case Some(ask) => Some(ask(stage, text))
  }

  /** One turn of a note: its next stage is tried, and marked as blocked when it does not complete. */
  function Advance(env: Env, s: NoteState, provider: Provider): NoteState {
    match NextNeeded(env, s)
    case Needs(stage) =>
      var (after, outcome) := Process(env, s, stage, AnswerOf(provider, stage, s.text));
      if outcome.Complete? then after else NoteState(s.text, MarkBlocked(env, s.ledger, s.text, stage))
    case _ => s
  }

  function Advanced(env: Env, s: NoteState, provider: Provider, turns: nat): NoteState
    decreases turns
  {
    if turns == 0 then s else Advanced(env, Advance(env, s, provider), provider, turns - 1)
  }

  /** At each of the next turns the provider's answer can be stored, is accepted, and picks a hub or a
      folder when it is asked for one. */
  ghost predicate ServedAlong(env: Env, s: NoteState, provider: Provider, turns: nat)
    decreases turns
  {
    turns > 0 && Parse(env, s.text).Some? && NextNeeded(env, s).Needs? ==>
      var stage := NextNeeded(env, s).stage;
      var reply := AnswerOf(provider, stage, s.text);
      && AnswerStorable(env, reply) && Served(env, Parse(env, s.text).value, stage, reply)
      && ServedAlong(env, Advance(env, s, provider), provider, turns - 1)
  }

  /** A served turn completes the stage that was needed. */
  lemma TurnAdvances(env: Env, s: NoteState, provider: Provider, turns: nat)
    requires SettingsOk(env) && Workable(env, s) && turns > 0 && ServedAlong(env, s, provider, turns)
    requires NextNeeded(env, s).Needs?
    ensures var stage := NextNeeded(env, s).stage;
            var (after, outcome) := Process(env, s, stage, AnswerOf(provider, stage, s.text));
            && outcome.Complete? && Advance(env, s, provider) == after && AnswerStorable(env, AnswerOf(provider, stage, s.text))
            && Workable(env, after) && At(env, after) > At(env, s) && ServedAlong(env, after, provider, turns - 1)
  {
    var stage := NextNeeded(env, s).stage;
    var n := ParsedNote(env, s);
    assert Advance(env, s, provider) == Process(env, s, stage, AnswerOf(provider, stage, s.text)).0
        || !Process(env, s, stage, AnswerOf(provider, stage, s.text)).1.Complete?;
    hide Process, NextNeeded, Parse, SettingsOk, Workable, AnswerStorable, Served, At, Advance, AnswerOf;
    NeededCompletesIff(env, s, n, stage, AnswerOf(provider, stage, s.text));
    StepAdvances(env, s, stage, AnswerOf(provider, stage, s.text));
  }

  /** The machine converges: a workable note with a provider that serves it is finished after at most
      seven turns, whatever stages they turn out to be. */
  lemma {:induction false} ServedNoteIsDone(env: Env, s: NoteState, provider: Provider, turns: nat)
    requires SettingsOk(env) && Workable(env, s) && ServedAlong(env, s, provider, turns) && 7 - At(env, s) <= turns
    ensures NextNeeded(env, Advanced(env, s, provider, turns)) == Done
    decreases turns
  {
    NextIsFirst(env, s);
    TurnEnds(env, s, provider);
    hide Process, Parse, SettingsOk, Workable, Needed, AnswerStorable, Served, TypeCrashes, SettledUpTo, NextNeeded, Advance, At, AnswerOf;
    if turns > 0 {
      if NextNeeded(env, s).Needs? { TurnAdvances(env, s, provider, turns); } else { DoneIsServed(env, s, provider, turns - 1); }
      hide ServedAlong;
      ServedNoteIsDone(env, Advance(env, s, provider), provider, turns - 1);
    }
  }

  lemma TurnEnds(env: Env, s: NoteState, provider: Provider)
    ensures NextNeeded(env, s).Done? ==> Advance(env, s, provider) == s
    ensures NextNeeded(env, s).Needs? ==> At(env, s) < 7
  {
    hide Process, Parse, AnswerOf, NextNeeded;
  }

  lemma DoneIsServed(env: Env, s: NoteState, provider: Provider, turns: nat)
    requires !NextNeeded(env, s).Needs?
    ensures ServedAlong(env, s, provider, turns)
  {
    hide NextNeeded;
  }

  // ---- what an edit from outside reopens ----

  /** An edit from outside changes the content hash and so reopens every stage at once. But the hash is
      kept per note, not per stage: as soon as any one stage completes on the edited note, every stage
      that was complete before the edit counts as complete again, whatever the edit undid. */
  lemma EditForgotten(env: Env, s: NoteState, text: string, stage: Stage, reply: Option<Reply>, other: Stage)
    requires s.ledger.hash == Some(env.digest(s.text)) && env.digest(text) != env.digest(s.text)
    ensures var edited := NoteState(text, s.ledger);
            && !StageComplete(env, edited, other)
            && (Process(env, edited, stage, reply).1.Complete? ==>
                  (StageComplete(env, Process(env, edited, stage, reply).0, other)
                   <==> other == stage || (other in s.ledger.stages && s.ledger.stages[other].complete)))
  {
    StopsWhole(env, NoteState(text, s.ledger), stage, reply);
    hide Parse, DraftOf, RenderNote, Canonical;
  }

  lemma StopsWhole(env: Env, s: NoteState, stage: Stage, reply: Option<Reply>)
    ensures Process(env, s, stage, reply).1.Complete? ==>
              exists text, l: Ledger, confidence, warnings | l.stages == s.ledger.stages ::
                Process(env, s, stage, reply).0 == NoteState(text, Mark(env, l, text, stage, confidence, warnings))
  {
    if Parse(env, s.text).Some? { StopsShort(env, Parse(env, s.text).value, stage, reply); }
    hide Parse, DraftOf, RenderNote, Canonical, Mark;
  }

  /** A step that does not complete leaves the note and its ledger alone. */
  lemma StopsChangeNothing(env: Env, s: NoteState, stage: Stage, reply: Option<Reply>)
    ensures !Process(env, s, stage, reply).1.Complete? ==> Process(env, s, stage, reply).0 == s
  {
    hide Parse, DraftOf, RenderNote, Canonical, Mark;
  }

  /** Why the type must not be a list: such a note is shaped once at most, and then every attempt to
      find its next stage crashes. */
  lemma ListTypeCrashes(env: Env, s: NoteState, n: Note, reply: Option<Reply>)
    requires SettingsOk(env) && Parse(env, s.text) == Some(n) && Storable(n.fm) && TypeCrashes(n.fm)
    ensures NextNeeded(env, s).Crash? || NextNeeded(env, s) == Needs(Shape)
    ensures NextNeeded(env, s) == Needs(Shape) ==> NextNeeded(env, Process(env, s, Shape, reply).0).Crash?
  {
    hide Parse, Needed, Process, SettingsOk, Storable, TypeCrashes, DraftOf, AnswerStorable, Wrote;
    StorableDict(n.fm);
    if NextNeeded(env, s) == Needs(Shape) {
      ShapeDraft(env, n, reply);
      ProcessWrites(env, s, n, Shape, None);
      var s' := Process(env, s, Shape, None).0;
      var n' := Parse(env, s'.text).value;
      ShapeIgnoresReply(env, s, reply);
      WroteParts(env, s, n, Shape, None, s', n');
      ListTypeStays(env, n, n'.fm);
      ShapeSettled(env, s, n, Shape, DraftOf(env, n, Shape, None).fm, s', n');
    }
  }

  /** Such a note, whatever its body and its ledger. */
  lemma ListTypeExample(env: Env, body: string, ledger: Ledger, reply: Option<Reply>)
    requires SettingsOk(env)
    ensures var s := NoteState(RenderNote([("type", List(["note"]))], body, env.Order()), ledger);
            || NextNeeded(env, s).Crash?
            || (NextNeeded(env, s) == Needs(Shape) && NextNeeded(env, Process(env, s, Shape, reply).0).Crash?)
  {
    var d := [("type", List(["note"]))];
    var s := NoteState(RenderNote(d, body, env.Order()), ledger);
    ExampleStorable(d);
    hide Storable, NextNeeded, Process, RenderNote, Parse, FaithfulYaml;
    WrittenReadsBack(env, d, body);
    var n := Parse(env, s.text).value;
    ExampleReads(d, n.fm);
    hide *;
    ListTypeCrashes(env, s, n, reply);
  }

  lemma ExampleStorable(d: Dict)
    requires d == [("type", List(["note"]))]
    ensures Storable(d)
  {
    NamesPlain();
    hide PlainKey;
    assert OneLine("note");
    forall x | HasKey(d, x) ensures PlainKey(x) && StorableValue(Lookup(d, x)) {
      assert x == "type" && Lookup(d, x) == d[0].1;
    }
  }

  lemma ExampleReads(d: Dict, e: Dict)
    requires d == [("type", List(["note"]))] && ReadsBackAs(d, e)
    ensures Storable(e) && TypeCrashes(e)
  {
    ExampleStorable(d);
    assert Lookup(d, "type") == List(["note"]);
    forall x | HasKey(e, x) ensures PlainKey(x) && StorableValue(Lookup(e, x)) {
      assert HasKey(d, x) && x == "type";
    }
    hide PlainKey, StorableValue;
  }

  lemma ShapeDraft(env: Env, n: Note, reply: Option<Reply>)
    ensures DraftOf(env, n, Shape, reply) == Contents(ShapeDefaults(n.fm, CoreOrder()), n.body, None, [])
    ensures DraftOf(env, n, Shape, None) == DraftOf(env, n, Shape, reply) && AnswerStorable(env, None)
  {
  }

  lemma ShapeIgnoresReply(env: Env, s: NoteState, reply: Option<Reply>)
    ensures Process(env, s, Shape, reply) == Process(env, s, Shape, None)
  {
    hide Parse, RenderNote, Canonical, ShapeDefaults, CoreOrder, Mark;
  }

  lemma ListTypeStays(env: Env, n: Note, h: Dict)
    requires TypeCrashes(n.fm) && Saved(env, DraftOf(env, n, Shape, None).fm, h)
    ensures TypeCrashes(h)
  {
    ShapeDraft(env, n, None);
    KeysKnown(env);
    hide HasKey, Lookup, ShapeDefaults, CoreOrder, Env.Order, IsDict, DraftOf;
    if !HasKey(n.fm, "type") { LookupAbsent(n.fm, "type"); }
    ShapeSpec(n.fm, CoreOrder(), "type");
    assert HasKey(h, "type");
  }
}
