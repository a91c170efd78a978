/** The embedding index (`embedding_index.py`): an incremental cache that agrees with a rebuild. */
module EmbeddingIndex {
  import opened Text
  import opened VaultPaths
  import EmbeddingClient

  type Vector = EmbeddingClient.Vector

  /** A note as the scan lists it. */
  datatype Entry = Entry(path: Path, text: string)

  datatype Record = Record(path: Path, title: string, hash: string, vector: Vector)

  /** The stored index: the model it was built with, its records, whether it is centred, the mean. */
  datatype Index = Index(model: string, records: seq<Record>, centered: bool, mean: Vector)

  /** What a refresh depends on: how a note's title and body are read, the content hash, the excerpt
      length, the batch size, and the server behind each model identity. */
  datatype Env = Env(
    title: (Path, string) -> string, body: string -> string, digest: string -> string, excerpt: int, batchSize: nat,
    server: string -> EmbeddingClient.Server)
  {
    /** `embedding_text` of a note. */
    function Input(path: Path, text: string): string {
      var title := Strip(title(path, text));
      var body := Strip(body(text));
      var cut := if excerpt <= 0 then "" else if excerpt < |body| then body[..excerpt] else body;
      if title != "" && cut != "" then title + ("\n\n" + cut) else if title != "" then title else cut
    }

    function Embedded(model: string, path: Path, text: string): Option<Vector> {
      EmbeddingClient.EmbedText(server(model), Input(path, text))
    }
  }

  /** The content hash tells texts apart, and every server treats its inputs on their own. */
  ghost predicate EnvOk(env: Env) {
    && env.batchSize >= 1
    && (forall s, t | env.digest(s) == env.digest(t) :: s == t)
    && forall model :: EmbeddingClient.Independent(env.server(model))
  }

  const MIN_CENTER_NOTES := 25

  // ---- the reference: a rebuild from nothing ----

  function Built(env: Env, model: string, e: Entry): Option<Record> {
    match env.Embedded(model, e.path, e.text)
    case None => None
    case Some(v) => Some(Record(e.path, env.title(e.path, e.text), env.digest(e.text), v))
  }

  /** Every note embedded afresh; nothing when the server refuses one for good. */
  function Rebuild(env: Env, model: string, scan: seq<Entry>): Option<seq<Record>> {
    if scan == [] then Some([])
    else
      var before := Rebuild(env, model, scan[..|scan| - 1]);
      var last := Built(env, model, scan[|scan| - 1]);
      if before.Some? && last.Some? then Some(before.value + [last.value]) else None
  }

  function Present(records: seq<Record>): seq<Vector> {
    if records == [] then []
    else
      var before := Present(records[..|records| - 1]);
      if records[|records| - 1].vector != [] then before + [records[|records| - 1].vector] else before
  }

  function SumTo(vectors: seq<Vector>, k: nat, i: nat): real
    requires k <= |vectors| && forall j | 0 <= j < k :: i < |vectors[j]|
  {
    if k == 0 then 0.0 else SumTo(vectors, k - 1, i) + vectors[k - 1][i]
  }

  /** No vector is shorter than the first: `mean_vector` does not run off the end of one. */
  predicate Even(vectors: seq<Vector>) {
    forall j | 0 <= j < |vectors| :: |vectors[0]| <= |vectors[j]|
  }

  function Mean(vectors: seq<Vector>): (mean: Vector)
    requires vectors != [] && Even(vectors)
    ensures |mean| == |vectors[0]|
    ensures forall i | 0 <= i < |mean| :: mean[i] == SumTo(vectors, |vectors|, i) / |vectors| as real
  {
    seq(|vectors[0]|, i requires 0 <= i < |vectors[0]| => SumTo(vectors, |vectors|, i) / |vectors| as real)
  }

  /** The index over given records; nothing when the mean cannot be taken. */
  function Assembled(model: string, records: seq<Record>): Option<Index> {
    var vectors := Present(records);
    if |vectors| < MIN_CENTER_NOTES then Some(Index(model, records, false, []))
    else if Even(vectors) then Some(Index(model, records, true, Mean(vectors)))
    else None
  }

  function RebuiltIndex(env: Env, model: string, scan: seq<Entry>): Option<Index> {
    match Rebuild(env, model, scan)
    case None => None
    case Some(records) => Assembled(model, records)
  }

  // ---- the cache ----

  /** `{record["path"]: record for record in records}.get(path)`. */
  function Prior(records: seq<Record>, path: Path): (r: Option<Record>)
    ensures r.Some? ==> r.value in records && r.value.path == path
    ensures r.None? ==> forall k | 0 <= k < |records| :: records[k].path != path
  {
    if records == [] then None
    else if records[|records| - 1].path == path then Some(records[|records| - 1])
    else Prior(records[..|records| - 1], path)
  }

  /** The records usable under a model: none after the model has changed. */
  function Usable(idx: Index, model: string): seq<Record> {
    if idx.model == model then idx.records else []
  }

  predicate Reusable(env: Env, old_: seq<Record>, e: Entry) {
    Prior(old_, e.path).Some? && Prior(old_, e.path).value.hash == env.digest(e.text)
  }

  /** Every record holds the vector of the text its hash stands for. */
  ghost predicate Faithful(env: Env, idx: Index) {
    forall k | 0 <= k < |idx.records| :: Stands(env, idx.model, idx.records[k])
  }

  ghost predicate Stands(env: Env, model: string, r: Record) {
    exists text :: env.digest(text) == r.hash && env.Embedded(model, r.path, text) == Some(r.vector)
  }

  /** A reused record is the one a rebuild would make. */
  lemma ReusedIsBuilt(env: Env, idx: Index, model: string, e: Entry)
    requires EnvOk(env) && Faithful(env, idx) && Reusable(env, Usable(idx, model), e)
    ensures Built(env, model, e) == Some(Record(e.path, env.title(e.path, e.text), env.digest(e.text),
                                                Prior(Usable(idx, model), e.path).value.vector))
  {
    var r := Prior(Usable(idx, model), e.path).value;
    assert Stands(env, idx.model, r);
    var text :| env.digest(text) == r.hash && env.Embedded(idx.model, r.path, text) == Some(r.vector);
    assert text == e.text;
  }

  lemma BuiltStands(env: Env, model: string, e: Entry)
    requires Built(env, model, e).Some?
    ensures Stands(env, model, Built(env, model, e).value)
  {
    hide Env.Embedded;
    assert env.digest(e.text) == Built(env, model, e).value.hash;
  }

  lemma {:induction false} RebuildIs(env: Env, model: string, scan: seq<Entry>)
    ensures Rebuild(env, model, scan).Some? ==>
              |Rebuild(env, model, scan).value| == |scan|
              && forall i | 0 <= i < |scan| :: Built(env, model, scan[i]) == Some(Rebuild(env, model, scan).value[i])
    ensures Rebuild(env, model, scan).None? ==> exists i | 0 <= i < |scan| :: Built(env, model, scan[i]).None?
  {
    hide Built;
    if scan != [] {
      var m := scan[..|scan| - 1];
      RebuildIs(env, model, m);
      if Rebuild(env, model, m).None? {
        var i :| 0 <= i < |m| && Built(env, model, m[i]).None?;
        assert scan[i] == m[i] && Built(env, model, scan[i]).None?;
      } else if Built(env, model, scan[|scan| - 1]).None? {
        var i := |scan| - 1;
        assert Built(env, model, scan[i]).None?;
      }
    }
  }

  lemma RebuildFrom(env: Env, model: string, scan: seq<Entry>, records: seq<Record>)
    requires |records| == |scan| && forall i | 0 <= i < |scan| :: Built(env, model, scan[i]) == Some(records[i])
    ensures Rebuild(env, model, scan) == Some(records)
  {
    hide Built;
    RebuildIs(env, model, scan);
    if Rebuild(env, model, scan).Some? {
      var r := Rebuild(env, model, scan).value;
      forall i | 0 <= i < |scan| ensures r[i] == records[i] { assert Some(r[i]) == Some(records[i]); }
      assert r == records;
    }
  }

  // ---- the refresh ----

  /** The notes to embed, in scan order. */
  function PendingTo(env: Env, old_: seq<Record>, scan: seq<Entry>, k: nat): (r: seq<nat>)
    requires k <= |scan|
    ensures forall j | 0 <= j < |r| :: r[j] < k && !Reusable(env, old_, scan[r[j]])
    ensures forall i: nat | i < k && !Reusable(env, old_, scan[i]) :: i in r
    ensures forall i, j | 0 <= i < j < |r| :: r[i] < r[j]
    ensures |r| <= k
  {
    if k == 0 then []
    else
      var before := PendingTo(env, old_, scan, k - 1);
      if Reusable(env, old_, scan[k - 1]) then before else before + [k - 1]
  }

  // ---- what a refresh embeds ----

  /** The index already has this text of the note: it was built with the same model, and the last record of
      the path has its hash. */
  ghost predicate UpToDate(env: Env, idx: Index, model: string, e: Entry) {
    idx.model == model && exists k :: LastOf(idx.records, e.path, k) && idx.records[k].hash == env.digest(e.text)
  }

  ghost predicate LastOf(records: seq<Record>, path: Path, k: int) {
    0 <= k < |records| && records[k].path == path && forall j | k < j < |records| :: records[j].path != path
  }

  lemma {:induction false} PriorIs(records: seq<Record>, path: Path, k: int)
    requires LastOf(records, path, k)
    ensures Prior(records, path) == Some(records[k])
  {
    if k < |records| - 1 { PriorIs(records[..|records| - 1], path, k); }
  }

  lemma {:induction false} PriorFound(records: seq<Record>, path: Path) returns (k: int)
    requires Prior(records, path).Some?
    ensures LastOf(records, path, k)
  {
    k := |records| - 1;
    if records[k].path != path { k := PriorFound(records[..k], path); }
  }

  lemma ReusableIff(env: Env, idx: Index, model: string, e: Entry)
    ensures Reusable(env, Usable(idx, model), e) <==> UpToDate(env, idx, model, e)
  {
    var records := Usable(idx, model);
    if Prior(records, e.path).Some? {
      var k := PriorFound(records, e.path);
      PriorIs(records, e.path, k);
    }
    if UpToDate(env, idx, model, e) {
      var k :| LastOf(idx.records, e.path, k) && idx.records[k].hash == env.digest(e.text);
      PriorIs(records, e.path, k);
    }
  }

  /** The notes a refresh has to embed. */
  ghost function Stale(env: Env, idx: Index, model: string, scan: seq<Entry>): set<nat> {
    set i: nat | i < |scan| && !UpToDate(env, idx, model, scan[i])
  }

  function Elements(s: seq<nat>): set<nat> {
    set x | x in s
  }

  lemma {:induction false} CountDistinct(s: seq<nat>)
    requires forall i, j | 0 <= i < j < |s| :: s[i] < s[j]
    ensures |Elements(s)| == |s|
  {
    if s != [] {
      var m, last := s[..|s| - 1], s[|s| - 1];
      CountDistinct(m);
      assert s == m + [last] && last !in m;
      assert Elements(s) == Elements(m) + {last};
    }
  }

  /** A refresh embeds exactly the notes that are not up to date: no more and no fewer. */
  lemma EmbedsTheStale(env: Env, idx: Index, model: string, scan: seq<Entry>)
    ensures var pending := PendingTo(env, Usable(idx, model), scan, |scan|);
      Elements(pending) == Stale(env, idx, model, scan) && |pending| == |Stale(env, idx, model, scan)|
  {
    forall i: nat | i < |scan| ensures Reusable(env, Usable(idx, model), scan[i]) <==> UpToDate(env, idx, model, scan[i]) {
      ReusableIff(env, idx, model, scan[i]);
    }
    hide Reusable, UpToDate, Usable;
    var pending := PendingTo(env, Usable(idx, model), scan, |scan|);
    CountDistinct(pending);
    assert Elements(pending) == Stale(env, idx, model, scan);
  }

  function Inputs(env: Env, scan: seq<Entry>, pending: seq<nat>): (r: seq<string>)
    requires forall j | 0 <= j < |pending| :: pending[j] < |scan|
    ensures |r| == |pending|
    ensures forall j | 0 <= j < |r| :: r[j] == env.Input(scan[pending[j]].path, scan[pending[j]].text)
  {
    seq(|pending|, j requires 0 <= j < |pending| => env.Input(scan[pending[j]].path, scan[pending[j]].text))
  }

  /** The record of a note before its pending vector is filled in. */
  function Drafted(env: Env, old_: seq<Record>, e: Entry): Record {
    Record(e.path, env.title(e.path, e.text), env.digest(e.text),
           if Reusable(env, old_, e) then Prior(old_, e.path).value.vector else [])
  }

  function Paths(records: seq<Record>): set<Path> {
    set k | 0 <= k < |records| :: records[k].path
  }

  function ScanPaths(scan: seq<Entry>): set<Path> {
    set k | 0 <= k < |scan| :: scan[k].path
  }

  datatype Counts = Counts(total: nat, embedded: nat, reused: nat, removed: nat)

  /** `mean_vector`, for vectors none of which is shorter than the first. */
  method MeanVector(vectors: seq<Vector>) returns (mean: Vector)
    requires vectors != [] && Even(vectors)
    ensures mean == Mean(vectors)
  {
    var dims := |vectors[0]|;
    var totals := new real[dims](_ => 0.0);
    for k := 0 to |vectors|
      invariant forall i | 0 <= i < dims :: totals[i] == SumTo(vectors, k, i)
    {
      for i := 0 to dims
        invariant forall j | 0 <= j < i :: totals[j] == SumTo(vectors, k + 1, j)
        invariant forall j | i <= j < dims :: totals[j] == SumTo(vectors, k, j)
      {
        totals[i] := totals[i] + vectors[k][i];
      }
    }
    mean := seq(dims, i requires 0 <= i < dims reads totals => totals[i] / |vectors| as real);
  }

  /** The first pass: reused vectors are taken over, the other notes are left pending. */
  method Draft(env: Env, old_: seq<Record>, scan: seq<Entry>) returns (records: seq<Record>, pending: seq<nat>, reused: nat)
    ensures |records| == |scan| && forall i | 0 <= i < |scan| :: records[i] == Drafted(env, old_, scan[i])
    ensures pending == PendingTo(env, old_, scan, |scan|) && |pending| + reused == |scan|
  {
    hide Reusable, Drafted;
    records, pending, reused := [], [], 0;
    for k := 0 to |scan|
      invariant |records| == k && forall i | 0 <= i < k :: records[i] == Drafted(env, old_, scan[i])
      invariant pending == PendingTo(env, old_, scan, k) && |pending| + reused == k
    {
      if Reusable(env, old_, scan[k]) {
        reused := reused + 1;
      } else {
        pending := pending + [k];
      }
      records := records + [Drafted(env, old_, scan[k])];
    }
  }

  /** The second pass: the pending vectors come back in order and are patched in. */
  method Fill(env: Env, model: string, old_: seq<Record>, scan: seq<Entry>, drafts: seq<Record>, pending: seq<nat>)
    returns (filled: Option<seq<Record>>)
    requires EnvOk(env) && |drafts| == |scan| && forall i | 0 <= i < |scan| :: drafts[i] == Drafted(env, old_, scan[i])
    requires pending == PendingTo(env, old_, scan, |scan|)
    ensures filled.None? ==> Rebuild(env, model, scan).None?
    ensures filled.Some? ==> |filled.value| == |scan| && forall i: nat | i < |scan| ::
              if i in pending then Built(env, model, scan[i]) == Some(filled.value[i])
              else filled.value[i] == Drafted(env, old_, scan[i])
  {
    hide EnvOk, Rebuild, Built, Reusable, Drafted;
    if pending == [] { return Some(drafts); }
    BatchOk(env);
    var vectors := EmbeddingClient.Embed(env.server(model), Inputs(env, scan, pending), env.batchSize);
    PendingAnswered(env, model, scan, pending);
    if vectors.None? {
      NoneRebuilt(env, model, scan, pending);
      return None;
    }
    var records := drafts;
    StartsPatched(env, model, old_, scan, pending, drafts);
    hide PendingTo, Patched, Inputs;
    for j := 0 to |pending|
      invariant Patched(env, model, old_, scan, pending, records, j)
    {
      PatchStep(env, model, old_, scan, pending, records, j, vectors.value[j]);
      records := records[pending[j] := records[pending[j]].(vector := vectors.value[j])];
    }
    AllPatched(env, model, old_, scan, pending, records);
    return Some(records);
  }

  ghost predicate Increasing(pending: seq<nat>, n: nat) {
    (forall j | 0 <= j < |pending| :: pending[j] < n) && forall i, j | 0 <= i < j < |pending| :: pending[i] < pending[j]
  }

  /** The first `j` pending records are filled in, the others are as drafted. */
  ghost predicate Patched(
    env: Env, model: string, old_: seq<Record>, scan: seq<Entry>, pending: seq<nat>, records: seq<Record>, j: nat)
  {
    && |records| == |scan| && j <= |pending| && Increasing(pending, |scan|)
    && (forall i: nat | i < |scan| && i !in pending[..j] :: records[i] == Drafted(env, old_, scan[i]))
    && (forall i: nat | i < j :: Built(env, model, scan[pending[i]]) == Some(records[pending[i]]))
  }

  lemma StartsPatched(
    env: Env, model: string, old_: seq<Record>, scan: seq<Entry>, pending: seq<nat>, drafts: seq<Record>)
    requires |drafts| == |scan| && forall i | 0 <= i < |scan| :: drafts[i] == Drafted(env, old_, scan[i])
    requires pending == PendingTo(env, old_, scan, |scan|)
    ensures Patched(env, model, old_, scan, pending, drafts, 0)
  {
    hide Drafted, Reusable, Built;
  }

  lemma PatchStep(
    env: Env, model: string, old_: seq<Record>, scan: seq<Entry>, pending: seq<nat>, records: seq<Record>, j: nat, v: Vector)
    requires Patched(env, model, old_, scan, pending, records, j) && j < |pending| && pending[j] < |scan|
    requires env.Embedded(model, scan[pending[j]].path, scan[pending[j]].text) == Some(v)
    ensures pending[j] < |records|
    ensures Patched(env, model, old_, scan, pending, records[pending[j] := records[pending[j]].(vector := v)], j + 1)
  {
    hide Drafted, Built, Env.Embedded;
    var p := pending[j];
    FilledIsBuilt(env, model, old_, scan[p], v);
    assert p !in pending[..j] && records[p] == Drafted(env, old_, scan[p]);
    var next := records[p := records[p].(vector := v)];
    SetOne(records, p, next[p], next);
    assert Built(env, model, scan[p]) == Some(next[p]);
    hide Increasing;
    forall i: nat | i < |scan| && i !in pending[..j + 1] ensures next[i] == Drafted(env, old_, scan[i]) {
      assert pending[..j + 1] == pending[..j] + [p];
    }
    forall i: nat | i < j + 1 ensures pending[i] < |scan| && Built(env, model, scan[pending[i]]) == Some(next[pending[i]]) {
      if i < j { assert pending[i] == pending[..j][i]; }
    }
  }

  lemma SetOne(records: seq<Record>, p: nat, r: Record, next: seq<Record>)
    requires p < |records| && next == records[p := r]
    ensures |next| == |records| && next[p] == r && forall i: nat | i < |records| && i != p :: next[i] == records[i]
  {
  }

  lemma AllPatched(
    env: Env, model: string, old_: seq<Record>, scan: seq<Entry>, pending: seq<nat>, records: seq<Record>)
    requires Patched(env, model, old_, scan, pending, records, |pending|)
    ensures |records| == |scan| && forall i: nat | i < |scan| ::
              if i in pending then Built(env, model, scan[i]) == Some(records[i]) else records[i] == Drafted(env, old_, scan[i])
  {
    hide Drafted, Built;
    assert pending[..|pending|] == pending;
  }

  method Assemble(model: string, records: seq<Record>) returns (r: Option<Index>)
    ensures r == Assembled(model, records)
  {
    var vectors := Present(records);
    if |vectors| < MIN_CENTER_NOTES { return Some(Index(model, records, false, [])); }
    if !Even(vectors) { return None; }
    var mean := MeanVector(vectors);
    return Some(Index(model, records, true, mean));
  }

  class Cache {
    var index: Index

    constructor ()
      ensures index == Index("", [], false, [])
    {
      index := Index("", [], false, []);
    }

    /** `build_or_refresh_index`; no counts stand for a raised error, which leaves the index as it was. */
    method Refresh(env: Env, model: string, scan: seq<Entry>) returns (counts: Option<Counts>)
      requires EnvOk(env) && Faithful(env, index)
      modifies this
      ensures Faithful(env, index)
      ensures counts.Some? <==> RebuiltIndex(env, model, scan).Some?
      ensures counts.None? ==> index == old(index)
      ensures counts.Some? ==> Some(index) == RebuiltIndex(env, model, scan)
      ensures counts.Some? ==>
                && counts.value.total == |scan| == counts.value.embedded + counts.value.reused
                && counts.value.embedded == |Stale(env, old(index), model, scan)|
                && counts.value.removed == |Paths(Usable(old(index), model)) - ScanPaths(scan)|
    {
      hide EnvOk, Faithful, Rebuild, Built, Reusable, Drafted, Paths, ScanPaths, Assembled, Usable;
      var old_ := Usable(index, model);
      var drafts, pending, reused := Draft(env, old_, scan);
      EmbedsTheStale(env, index, model, scan);
      hide UpToDate;
      var filled := Fill(env, model, old_, scan, drafts, pending);
      if filled.None? { return None; }
      var records := filled.value;
      forall i: nat | i < |scan| ensures Built(env, model, scan[i]) == Some(records[i]) {
        if i !in pending { ReusedDraft(env, index, model, scan[i]); }
      }
      RebuildFrom(env, model, scan, records);
      RecordPaths(env, model, scan, records);
      var built := Assemble(model, records);
      if built.None? { return None; }
      var removed := |Paths(old_) - Paths(records)|;
      index := built.value;
      RebuildFaithful(env, model, scan);
      return Some(Counts(|records|, |pending|, reused, removed));
    }
  }

  lemma ReusedDraft(env: Env, idx: Index, model: string, e: Entry)
    requires EnvOk(env) && Faithful(env, idx) && Reusable(env, Usable(idx, model), e)
    ensures Built(env, model, e) == Some(Drafted(env, Usable(idx, model), e))
  {
    hide Built, EnvOk, Faithful, Usable;
    ReusedIsBuilt(env, idx, model, e);
  }

  lemma BatchOk(env: Env)
    requires EnvOk(env)
    ensures env.batchSize >= 1 && forall model :: EmbeddingClient.Independent(env.server(model))
  {
  }

  /** What the batch of pending notes comes back with, note by note. */
  lemma PendingAnswered(env: Env, model: string, scan: seq<Entry>, pending: seq<nat>)
    requires EnvOk(env) && forall j | 0 <= j < |pending| :: pending[j] < |scan|
    ensures var r := EmbeddingClient.EmbedEach(env.server(model), Inputs(env, scan, pending));
            && (r.Some? ==> |r.value| == |pending| && forall j | 0 <= j < |pending| ::
                  env.Embedded(model, scan[pending[j]].path, scan[pending[j]].text) == Some(r.value[j]))
            && (r.None? ==> exists j | 0 <= j < |pending| :: Built(env, model, scan[pending[j]]).None?)
  {
    BatchOk(env);
    var s, inputs := env.server(model), Inputs(env, scan, pending);
    if EmbeddingClient.EmbedEach(s, inputs).Some? {
      EmbeddingClient.EachInOrder(s, inputs);
    } else {
      var j := SomeFails(s, inputs);
      assert Built(env, model, scan[pending[j]]).None?;
    }
  }

  lemma {:induction false} SomeFails(s: EmbeddingClient.Server, texts: seq<string>) returns (j: nat)
    requires EmbeddingClient.EmbedEach(s, texts).None?
    ensures j < |texts| && EmbeddingClient.EmbedText(s, texts[j]).None?
  {
    hide EmbeddingClient.EmbedText;
    if EmbeddingClient.EmbedText(s, texts[|texts| - 1]).None? {
      j := |texts| - 1;
    } else {
      j := SomeFails(s, texts[..|texts| - 1]);
    }
  }

  lemma NoneRebuilt(env: Env, model: string, scan: seq<Entry>, pending: seq<nat>)
    requires forall j | 0 <= j < |pending| :: pending[j] < |scan|
    requires exists j | 0 <= j < |pending| :: Built(env, model, scan[pending[j]]).None?
    ensures Rebuild(env, model, scan).None?
  {
    hide Built;
    var j :| 0 <= j < |pending| && Built(env, model, scan[pending[j]]).None?;
    RebuildIs(env, model, scan);
    var i := pending[j];
    assert Built(env, model, scan[i]).None?;
  }

  lemma FilledIsBuilt(env: Env, model: string, old_: seq<Record>, e: Entry, v: Vector)
    requires env.Embedded(model, e.path, e.text) == Some(v)
    ensures Built(env, model, e) == Some(Drafted(env, old_, e).(vector := v))
  {
  }

  lemma RecordPaths(env: Env, model: string, scan: seq<Entry>, records: seq<Record>)
    requires |records| == |scan| && forall i: nat | i < |scan| :: Built(env, model, scan[i]) == Some(records[i])
    ensures Paths(records) == ScanPaths(scan)
  {
    hide Env.Embedded;
    forall i: nat | i < |scan| ensures records[i].path == scan[i].path {
      assert Built(env, model, scan[i]) == Some(records[i]);
    }
  }

  lemma RebuiltFaithful(env: Env, model: string, scan: seq<Entry>, records: seq<Record>, idx: Index)
    requires |records| == |scan| && forall i: nat | i < |scan| :: Built(env, model, scan[i]) == Some(records[i])
    requires idx.model == model && idx.records == records
    ensures Faithful(env, idx)
  {
    hide Built, Stands;
    forall k | 0 <= k < |idx.records| ensures Stands(env, idx.model, idx.records[k]) {
      BuiltStands(env, model, scan[k]);
    }
  }

  // ---- over any history of edits, refreshes and model changes ----

  /** One refresh, as a function of the index it starts from. */
  function Refreshed(env: Env, idx: Index, model: string, scan: seq<Entry>): Index {
    match RefreshedRecords(env, Usable(idx, model), model, scan)
    case None => idx
    case Some(records) => if Assembled(model, records).Some? then Assembled(model, records).value else idx
  }

  /** Reuse what can be reused and embed the rest, note by note. */
  function RefreshedRecords(env: Env, old_: seq<Record>, model: string, scan: seq<Entry>): Option<seq<Record>> {
    if scan == [] then Some([])
    else
      var before := RefreshedRecords(env, old_, model, scan[..|scan| - 1]);
      var e := scan[|scan| - 1];
      var last := if Reusable(env, old_, e) then Some(Drafted(env, old_, e)) else Built(env, model, e);
      if before.Some? && last.Some? then Some(before.value + [last.value]) else None
  }

  lemma {:induction false} RefreshIsRebuild(env: Env, idx: Index, model: string, scan: seq<Entry>)
    requires EnvOk(env) && Faithful(env, idx)
    ensures RefreshedRecords(env, Usable(idx, model), model, scan) == Rebuild(env, model, scan)
  {
    hide Built, EnvOk, Faithful;
    if scan != [] {
      RefreshIsRebuild(env, idx, model, scan[..|scan| - 1]);
      if Reusable(env, Usable(idx, model), scan[|scan| - 1]) { ReusedIsBuilt(env, idx, model, scan[|scan| - 1]); }
    }
  }

  datatype Event = Event(model: string, scan: seq<Entry>)

  /** The index after refreshing at each of the first `k` states of the vault, from an empty one. */
  function After(env: Env, events: seq<Event>, k: nat): Index
    requires k <= |events|
  {
    if k == 0 then Index("", [], false, [])
    else Refreshed(env, After(env, events, k - 1), events[k - 1].model, events[k - 1].scan)
  }

  /** Over any history of vault states and model changes, however edited in between, the cache agrees
      with a rebuild: after a refresh that succeeds the index is the rebuilt one, and a refresh succeeds
      exactly when the rebuild does. */
  lemma {:induction false} CacheAgrees(env: Env, events: seq<Event>, k: nat)
    requires EnvOk(env) && k <= |events|
    ensures Faithful(env, After(env, events, k))
    ensures k > 0 ==>
              var rebuilt := RebuiltIndex(env, events[k - 1].model, events[k - 1].scan);
              After(env, events, k) == if rebuilt.Some? then rebuilt.value else After(env, events, k - 1)
  {
    hide EnvOk, Faithful, Rebuild, RefreshedRecords, Assembled;
    if k == 0 {
      EmptyFaithful(env);
    } else {
      CacheAgrees(env, events, k - 1);
      var Event(model, scan) := events[k - 1];
      RefreshIsRebuild(env, After(env, events, k - 1), model, scan);
      if RebuiltIndex(env, model, scan).Some? { RebuildFaithful(env, model, scan); }
    }
  }

  lemma EmptyFaithful(env: Env)
    ensures Faithful(env, Index("", [], false, []))
  {
  }

  lemma RebuildFaithful(env: Env, model: string, scan: seq<Entry>)
    requires RebuiltIndex(env, model, scan).Some?
    ensures Faithful(env, RebuiltIndex(env, model, scan).value)
  {
    hide Built, Faithful, Mean, Even, Present;
    RebuildIs(env, model, scan);
    RebuiltFaithful(env, model, scan, Rebuild(env, model, scan).value, RebuiltIndex(env, model, scan).value);
  }

  // ---- changing the excerpt length: the one setting the index does not record ----

  /** How much of a body of a given length is embedded. */
  function Taken(excerpt: int, body: nat): (n: nat)
    ensures n <= body
  {
    if excerpt <= 0 then 0 else if excerpt < body then excerpt else body
  }

  /** Title and excerpt, with a blank line between them when both are there. */
  function Joined(title: string, cut: string): string {
    if title != "" && cut != "" then title + ("\n\n" + cut) else if title != "" then title else cut
  }

  lemma InputIs(env: Env, e: Entry)
    ensures var body := Strip(env.body(e.text));
            env.Input(e.path, e.text) == Joined(Strip(env.title(e.path, e.text)), body[..Taken(env.excerpt, |body|)])
  {
  }

  lemma JoinedSameIff(title: string, body: string, m: nat, n: nat)
    requires m <= |body| && n <= |body|
    ensures Joined(title, body[..m]) == Joined(title, body[..n]) <==> m == n
  {
    if m != n { assert |Joined(title, body[..m])| != |Joined(title, body[..n])|; }
  }

  /** Another excerpt length embeds the same text of a note if and only if as much of its body is taken. */
  lemma SameInputIff(env: Env, later: Env, e: Entry)
    requires later == env.(excerpt := later.excerpt)
    ensures later.Input(e.path, e.text) == env.Input(e.path, e.text)
       <==> Taken(later.excerpt, |Strip(env.body(e.text))|) == Taken(env.excerpt, |Strip(env.body(e.text))|)
  {
    hide *;
    InputIs(env, e);
    InputIs(later, e);
    var body := Strip(env.body(e.text));
    JoinedSameIff(Strip(env.title(e.path, e.text)), body, Taken(later.excerpt, |body|), Taken(env.excerpt, |body|));
  }

  lemma SnocSame(a: seq<Record>, x: Record, b: seq<Record>, y: Record)
    ensures a + [x] == b + [y] <==> a == b && x == y
  {
    if a + [x] == b + [y] {
      assert (a + [x])[|a|] == x && (b + [y])[|b|] == y;
      assert (a + [x])[..|a|] == a && (b + [y])[..|b|] == b;
    }
  }

  /** After a change of the excerpt length unchanged notes keep their vectors all the same. So a refresh
      that goes through agrees with a rebuild under the new length if and only if, for each note it reuses,
      the new input has the same vector as the old one. */
  lemma {:induction false} ExcerptChangeIff(env: Env, excerpt: int, idx: Index, model: string, scan: seq<Entry>)
    requires EnvOk(env) && Faithful(env, idx)
    requires RefreshedRecords(env.(excerpt := excerpt), Usable(idx, model), model, scan).Some?
    ensures RefreshedRecords(env.(excerpt := excerpt), Usable(idx, model), model, scan)
              == Rebuild(env.(excerpt := excerpt), model, scan)
       <==> forall e | e in scan && Reusable(env, Usable(idx, model), e) :: SameVector(env, excerpt, model, e)
  {
    hide Built, EnvOk, Faithful, SameVector, Usable;
    var later, old_ := env.(excerpt := excerpt), Usable(idx, model);
    if scan != [] {
      var m, e := scan[..|scan| - 1], scan[|scan| - 1];
      ExcerptChangeIff(env, excerpt, idx, model, m);
      assert scan == m + [e];
      assert Reusable(later, old_, e) == Reusable(env, old_, e);
      var last := if Reusable(later, old_, e) then Some(Drafted(later, old_, e)) else Built(later, model, e);
      if Reusable(env, old_, e) { ReusedAgreesIff(env, excerpt, idx, model, e); }
      hide Reusable, Drafted;
      if Rebuild(later, model, m).Some? && Built(later, model, e).Some? {
        SnocSame(RefreshedRecords(later, old_, model, m).value, last.value, Rebuild(later, model, m).value, Built(later, model, e).value);
      }
    }
  }

  ghost predicate SameVector(env: Env, excerpt: int, model: string, e: Entry) {
    env.(excerpt := excerpt).Embedded(model, e.path, e.text) == env.Embedded(model, e.path, e.text)
  }

  lemma ReusedAgreesIff(env: Env, excerpt: int, idx: Index, model: string, e: Entry)
    requires EnvOk(env) && Faithful(env, idx) && Reusable(env, Usable(idx, model), e)
    ensures Built(env.(excerpt := excerpt), model, e) == Some(Drafted(env.(excerpt := excerpt), Usable(idx, model), e))
       <==> SameVector(env, excerpt, model, e)
  {
    ReusedIsBuilt(env, idx, model, e);
  }

  /** In particular nothing goes stale where as much of every reused body is taken as before. */
  lemma SameExcerptKeeps(env: Env, excerpt: int, model: string, e: Entry)
    requires Taken(excerpt, |Strip(env.body(e.text))|) == Taken(env.excerpt, |Strip(env.body(e.text))|)
    ensures SameVector(env, excerpt, model, e)
  {
    SameInputIff(env, env.(excerpt := excerpt), e);
    hide Strip, Taken, Env.Input;
  }
}
