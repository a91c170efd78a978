/** What the embedding index holds and what a refresh embeds, note by note. */
module EmbeddingLaws {
  import opened Text
  import opened VaultPaths
  import opened EmbeddingIndex
  import EmbeddingClient
  import Similarity

  // ---- the records ----

  /** The text that stands for a note: its title, a blank line, and as much of the body as fits. */
  ghost predicate InputOf(env: Env, e: Entry, text: string) {
    var title, body := Strip(env.title(e.path, e.text)), Strip(env.body(e.text));
    exists cut ::
      && cut <= body && |cut| == Taken(env.excerpt, |body|)
      && text == title + ((if title != "" && cut != "" then "\n\n" else "") + cut)
  }

  lemma InputIsOf(env: Env, e: Entry)
    ensures InputOf(env, e, env.Input(e.path, e.text))
  {
    hide *;
    InputIs(env, e);
    InputCut(env, e);
  }

  lemma InputCut(env: Env, e: Entry)
    requires var body := Strip(env.body(e.text));
      env.Input(e.path, e.text) == Joined(Strip(env.title(e.path, e.text)), body[..Taken(env.excerpt, |body|)])
    ensures InputOf(env, e, env.Input(e.path, e.text))
  {
    hide Strip, Env.Input;
    var title, body := Strip(env.title(e.path, e.text)), Strip(env.body(e.text));
    var cut := body[..Taken(env.excerpt, |body|)];
    assert cut <= body && |cut| == Taken(env.excerpt, |body|);
  }

  /** The index of a vault has one record for each note, in scan order, with the hash of its text and the
      vector of the text that stands for it. */
  lemma RecordsSay(env: Env, model: string, scan: seq<Entry>)
    requires RebuiltIndex(env, model, scan).Some?
    ensures var idx := RebuiltIndex(env, model, scan).value;
      && idx.model == model && |idx.records| == |scan|
      && forall i | 0 <= i < |scan| ::
           && idx.records[i].path == scan[i].path && idx.records[i].title == env.title(scan[i].path, scan[i].text)
           && idx.records[i].hash == env.digest(scan[i].text)
           && exists text :: InputOf(env, scan[i], text)
                && EmbeddingClient.EmbedText(env.server(model), text) == Some(idx.records[i].vector)
  {
    RebuildIs(env, model, scan);
    var idx := RebuiltIndex(env, model, scan).value;
    hide Rebuild, Assembled, InputOf, Env.Input;
    RecordsOf(env, model, scan);
    forall i | 0 <= i < |scan|
      ensures idx.records[i].path == scan[i].path && idx.records[i].title == env.title(scan[i].path, scan[i].text)
      ensures idx.records[i].hash == env.digest(scan[i].text)
      ensures exists text :: InputOf(env, scan[i], text)
                && EmbeddingClient.EmbedText(env.server(model), text) == Some(idx.records[i].vector)
    {
      assert Built(env, model, scan[i]) == Some(idx.records[i]);
      InputIsOf(env, scan[i]);
    }
  }

  lemma RecordsOf(env: Env, model: string, scan: seq<Entry>)
    requires RebuiltIndex(env, model, scan).Some?
    ensures var idx := RebuiltIndex(env, model, scan).value;
      idx.model == model && Rebuild(env, model, scan) == Some(idx.records)
  {
    hide Rebuild, Present, Even, Mean;
  }

  // ---- centring ----

  /** The positions of the records with a vector. */
  function Holders(records: seq<Record>): set<nat> {
    set k: nat | k < |records| && records[k].vector != []
  }

  function Column(vectors: seq<Vector>, i: nat): (c: seq<real>)
    requires forall j | 0 <= j < |vectors| :: i < |vectors[j]|
    ensures |c| == |vectors| && forall j | 0 <= j < |vectors| :: c[j] == vectors[j][i]
  {
    seq(|vectors|, j requires 0 <= j < |vectors| => vectors[j][i])
  }

  lemma {:induction false} PresentCount(records: seq<Record>)
    ensures |Present(records)| == |Holders(records)|
  {
    if records == [] {
      assert Holders(records) == {};
    } else {
      var m := records[..|records| - 1];
      PresentCount(m);
      if records[|records| - 1].vector != [] {
        assert Holders(records) == Holders(m) + {|records| - 1};
      } else {
        assert Holders(records) == Holders(m);
      }
    }
  }

  lemma {:induction false} PresentIs(records: seq<Record>)
    ensures forall v :: v in Present(records) <==> v != [] && exists r :: r in records && r.vector == v
  {
    if records != [] {
      var m, last := records[..|records| - 1], records[|records| - 1];
      assert records == m + [last];
      PresentIs(m);
    }
  }

  lemma {:induction false} SumToIs(vectors: seq<Vector>, k: nat, i: nat)
    requires k <= |vectors| && forall j | 0 <= j < |vectors| :: i < |vectors[j]|
    ensures SumTo(vectors, k, i) == Similarity.Sum(Column(vectors, i)[..k])
  {
    if k > 0 {
      SumToIs(vectors, k - 1, i);
      assert Column(vectors, i)[..k] == Column(vectors, i)[..k - 1] + [vectors[k - 1][i]];
      Similarity.SumSnoc(Column(vectors, i)[..k - 1], vectors[k - 1][i]);
    }
  }

  lemma MeanSays(vectors: seq<Vector>, i: nat)
    requires vectors != [] && Even(vectors) && i < |vectors[0]|
    ensures |Mean(vectors)| == |vectors[0]|
    ensures forall j | 0 <= j < |vectors| :: i < |vectors[j]|
    ensures Mean(vectors)[i] * |vectors| as real == Similarity.Sum(Column(vectors, i))
  {
    SumToIs(vectors, |vectors|, i);
    assert Column(vectors, i)[..|vectors|] == Column(vectors, i);
    var s, n := SumTo(vectors, |vectors|, i), |vectors| as real;
    Similarity.ScaledBack(s, n);
  }

  /** The index is centred if and only if at least 25 of its records have a vector. Then its mean is the
      average of those vectors, component by component; otherwise it has none. */
  lemma CentredIff(model: string, records: seq<Record>)
    requires Assembled(model, records).Some?
    ensures var idx := Assembled(model, records).value;
      && idx.records == records && idx.model == model
      && (idx.centered <==> |Holders(records)| >= 25)
      && (!idx.centered ==> idx.mean == [])
      && (idx.centered ==> Average(Present(records), idx.mean))
  {
    hide Present;
    PresentCount(records);
    var vectors := Present(records);
    if |vectors| >= 25 {
      forall i: nat | i < |vectors[0]|
        ensures (forall j | 0 <= j < |vectors| :: i < |vectors[j]|)
             && Mean(vectors)[i] * |vectors| as real == Similarity.Sum(Column(vectors, i))
      {
        MeanSays(vectors, i);
      }
    }
  }

  ghost predicate Average(vectors: seq<Vector>, mean: Vector) {
    && vectors != [] && |mean| == |vectors[0]|
    && forall i: nat | i < |mean| ::
         && (forall j | 0 <= j < |vectors| :: i < |vectors[j]|)
         && mean[i] * |vectors| as real == Similarity.Sum(Column(vectors, i))
  }
}
