/** The embedding client (`embeddings.py`): batches, splitting after a rejection, and truncation. */
module EmbeddingClient {
  import opened Text

  type Vector = seq<real>

  // ---- the server, as far as the client sees it ----

  datatype Item = Item(index: Option<int>, vector: Vector)

  /** What a request comes back with: a payload, a rejection that reports token counts, or a failure. */
  datatype Response = Payload(items: seq<Item>) | TooLarge(tokens: nat, limit: nat) | Failed

  /** `serve` answers a request. `fits` and `vector` are what it does with one input on its own. */
  datatype Server = Server(serve: seq<string> -> Response, fits: string -> bool, vector: string -> Vector)

  function Answers(s: Server, inputs: seq<string>): (r: seq<Item>)
    ensures |r| == |inputs| && forall i | 0 <= i < |r| :: r[i] == Item(Some(i), s.vector(inputs[i]))
  {
    seq(|inputs|, i requires 0 <= i < |inputs| => Item(Some(i), s.vector(inputs[i])))
  }

  /** The server treats every input on its own: it answers a request whose inputs all fit, with one
      indexed item for each of them, in any order, and rejects every other request. */
  ghost predicate Independent(s: Server) {
    && (forall t :: s.vector(t) != [])
    && forall inputs: seq<string> | inputs != [] :: AnswersOrRejects(s, inputs)
  }

  ghost predicate AnswersOrRejects(s: Server, inputs: seq<string>) {
    if forall t | t in inputs :: s.fits(t)
    then s.serve(inputs).Payload? && multiset(s.serve(inputs).items) == multiset(Answers(s, inputs))
    else s.serve(inputs).TooLarge?
  }

  // ---- one response ----

  /** The payload's vectors by stated index, an item without one counting by its position. */
  function Placed(items: seq<Item>): (r: seq<(int, Vector)>)
    ensures |r| == |items|
    ensures forall i | 0 <= i < |r| :: r[i] == (if items[i].index.Some? then items[i].index.value else i, items[i].vector)
  {
    seq(|items|, i requires 0 <= i < |items| =>
      (if items[i].index.Some? then items[i].index.value else i, items[i].vector))
  }

  ghost predicate Ordered(s: seq<(int, Vector)>) {
    forall i, j | 0 <= i < j < |s| :: s[i].0 <= s[j].0
  }

  /** After every pair whose key is not greater: where a stable sort puts a later pair. */
  function InsertAt(s: seq<(int, Vector)>, key: int): (n: nat)
    ensures n <= |s|
    ensures n > 0 ==> s[n - 1].0 <= key
    ensures forall i | n <= i < |s| :: s[i].0 > key
  {
    if s == [] || s[|s| - 1].0 <= key then |s| else InsertAt(s[..|s| - 1], key)
  }

  /** A stable sort by key. */
  function Sorted(s: seq<(int, Vector)>): seq<(int, Vector)> {
    if s == [] then []
    else
      var before := Sorted(s[..|s| - 1]);
      var last := s[|s| - 1];
      var n := InsertAt(before, last.0);
      before[..n] + [last] + before[n..]
  }

  function VectorsIn(s: seq<(int, Vector)>): (r: seq<Vector>)
    ensures |r| == |s| && forall i | 0 <= i < |s| :: r[i] == s[i].1
  {
    seq(|s|, i requires 0 <= i < |s| => s[i].1)
  }

  /** `_vectors_from_payload`: nothing stands for the error. */
  function FromPayload(items: seq<Item>, expected: nat): Option<seq<Vector>> {
    if exists i | 0 <= i < |items| :: items[i].vector == [] then None
    else if |items| != expected then None
    else Some(VectorsIn(Sorted(Placed(items))))
  }

  /** A payload is refused exactly when some item has no vector or there are too many or too few. */
  lemma RefusedIff(items: seq<Item>, expected: nat)
    ensures FromPayload(items, expected) == None <==> |items| != expected || exists item | item in items :: |item.vector| == 0
  {
    hide Sorted, Placed;
    if item :| item in items && |item.vector| == 0 {
      var i :| 0 <= i < |items| && items[i] == item;
      assert items[i].vector == [];
    }
  }

  lemma InsertOrdered(s: seq<(int, Vector)>, x: (int, Vector))
    requires Ordered(s)
    ensures var n := InsertAt(s, x.0); Ordered(s[..n] + [x] + s[n..])
  {
    var n := InsertAt(s, x.0);
    var t := s[..n] + [x] + s[n..];
    forall i, j | 0 <= i < j < |t| ensures t[i].0 <= t[j].0 {
      if j == n {
        assert t[i] == s[i] && s[i].0 <= s[n - 1].0;
      }
    }
  }

  lemma InsertKeeps(s: seq<(int, Vector)>, n: nat, x: (int, Vector))
    requires n <= |s|
    ensures multiset(s[..n] + [x] + s[n..]) == multiset(s + [x])
  {
    assert s == s[..n] + s[n..];
  }

  lemma {:induction false} SortedSorts(s: seq<(int, Vector)>)
    ensures Ordered(Sorted(s)) && multiset(Sorted(s)) == multiset(s)
  {
    hide Ordered;
    if s != [] {
      var m, last := s[..|s| - 1], s[|s| - 1];
      SortedSorts(m);
      InsertOrdered(Sorted(m), last);
      InsertKeeps(Sorted(m), InsertAt(Sorted(m), last.0), last);
      assert s == m + [last];
    } else {
      NothingOrdered();
    }
  }

  lemma NothingOrdered()
    ensures Ordered([])
  {
  }

  /** An ordered list with the same pairs as one whose keys strictly increase is that list. */
  lemma {:induction false} OrderedUnique(s: seq<(int, Vector)>, t: seq<(int, Vector)>)
    requires Ordered(s) && Increasing(t) && multiset(s) == multiset(t)
    ensures s == t
  {
    if t == [] {
      assert |multiset(s)| == 0;
    } else {
      assert |multiset(s)| == |multiset(t)|;
      SameHead(s, t);
      WithoutHead(s);
      WithoutHead(t);
      OrderedUnique(s[1..], t[1..]);
      assert s == [s[0]] + s[1..] && t == [t[0]] + t[1..];
    }
  }

  lemma WithoutHead(s: seq<(int, Vector)>)
    requires s != []
    ensures multiset(s[1..]) == multiset(s) - multiset{s[0]}
  {
    assert s == [s[0]] + s[1..];
  }

  ghost predicate Increasing(t: seq<(int, Vector)>) {
    forall i, j | 0 <= i < j < |t| :: t[i].0 < t[j].0
  }

  lemma SameHead(s: seq<(int, Vector)>, t: seq<(int, Vector)>)
    requires Ordered(s) && Increasing(t) && multiset(s) == multiset(t) && s != [] && t != []
    ensures s[0] == t[0]
  {
    assert s[0] in multiset(t) && t[0] in multiset(s);
    var i :| 0 <= i < |s| && s[i] == t[0];
    var j :| 0 <= j < |t| && t[j] == s[0];
    assert s[0].0 <= s[i].0;
  }

  lemma {:induction false} PlacedCount(items: seq<Item>, p: (int, Vector))
    requires forall i | 0 <= i < |items| :: items[i].index.Some?
    ensures multiset(Placed(items))[p] == multiset(items)[Item(Some(p.0), p.1)]
  {
    if items != [] {
      var m, last := items[..|items| - 1], items[|items| - 1];
      PlacedCount(m, p);
      assert items == m + [last];
      assert Placed(items) == Placed(m) + [(last.index.value, last.vector)];
    }
  }

  lemma SameItems(items: seq<Item>, answers: seq<Item>)
    requires multiset(items) == multiset(answers) && forall i | 0 <= i < |answers| :: answers[i].index.Some? && answers[i].vector != []
    ensures |items| == |answers| && forall i | 0 <= i < |items| :: items[i].index.Some? && items[i].vector != []
    ensures multiset(Placed(items)) == multiset(Placed(answers))
  {
    assert |multiset(items)| == |items| && |multiset(answers)| == |answers|;
    forall i | 0 <= i < |items| ensures items[i].index.Some? && items[i].vector != [] {
      assert items[i] in multiset(answers);
    }
    hide Placed;
    forall p: (int, Vector) ensures multiset(Placed(items))[p] == multiset(Placed(answers))[p] {
      PlacedCount(items, p);
      PlacedCount(answers, p);
    }
  }

  /** Whatever order the server puts its indexed items in, they come out in input order. */
  lemma PayloadInOrder(s: Server, inputs: seq<string>, items: seq<Item>)
    requires multiset(items) == multiset(Answers(s, inputs)) && forall t :: s.vector(t) != []
    ensures FromPayload(items, |inputs|).Some?
    ensures var vectors := FromPayload(items, |inputs|).value;
            |vectors| == |inputs| && forall i | 0 <= i < |inputs| :: vectors[i] == s.vector(inputs[i])
  {
    var answers := Answers(s, inputs);
    SameItems(items, answers);
    SortedSorts(Placed(items));
    hide Sorted;
    OrderedUnique(Sorted(Placed(items)), Placed(answers));
  }

  // ---- one request, with its recovery ----

  /** The vectors of a request, a rejection with the reported counts, or an error. */
  datatype Posted = Vectors(vectors: seq<Vector>) | Rejected(tokens: nat, limit: nat) | Error

  /** `_post`. */
  function Post(s: Server, inputs: seq<string>): Posted {
    match s.serve(inputs)
    case Failed => Error
    case TooLarge(tokens, limit) => Rejected(tokens, limit)
    case Payload(items) =>
      match FromPayload(items, |inputs|)
      case None => Error
      case Some(vectors) => Vectors(vectors)
  }

  /** The length a text is cut to after a rejection. */
  function CutTo(length: nat, tokens: nat, limit: nat): (n: nat)
    ensures n >= 1 && (length >= 2 ==> n < length)
  {
    var ratio := if tokens != 0 && limit != 0 then (limit as real / tokens as real) * 0.9 else 0.5;
    var wanted := (length as real * ratio).Floor;
    var least := if length - 1 < wanted then length - 1 else wanted;
    if least < 1 then 1 else least
  }

  function Cut(text: string, n: nat): (r: string)
    ensures r <= text
  {
    if n <= |text| then text[..n] else text
  }

  const MAX_TRUNCATION_RETRIES: nat := 6

  /** `_embed_truncated`, with `retries` attempts left. */
  function Truncated(s: Server, text: string, tokens: nat, limit: nat, retries: nat): Option<Vector>
    decreases retries
  {
    if retries == 0 then None
    else
      var cut := Cut(text, CutTo(|text|, tokens, limit));
      match Post(s, [cut])
      case Vectors(vectors) => if vectors == [] then None else Some(vectors[0])
      case Error => None
      case Rejected(t, l) => Truncated(s, cut, t, l, retries - 1)
  }

  function Both(a: Option<seq<Vector>>, b: Option<seq<Vector>>): Option<seq<Vector>> {
    if a.Some? && b.Some? then Some(a.value + b.value) else None
  }

  /** `_embed_batch`; nothing stands for the raised error. */
  function EmbedBatch(s: Server, batch: seq<string>): Option<seq<Vector>>
    requires batch != []
    decreases |batch|
  {
    match Post(s, batch)
    case Vectors(vectors) => Some(vectors)
    case Error => None
    case Rejected(tokens, limit) =>
      if |batch| > 1 then
        var mid := |batch| / 2;
        Both(EmbedBatch(s, batch[..mid]), EmbedBatch(s, batch[mid..]))
      else
        match Truncated(s, batch[0], tokens, limit, MAX_TRUNCATION_RETRIES)
        case None => None
        case Some(v) => Some([v])
  }

  /** One text on its own: the reference for every batch. */
  function EmbedText(s: Server, text: string): Option<Vector> {
    match EmbedBatch(s, [text])
    case None => None
    case Some(vectors) => if vectors == [] then None else Some(vectors[0])
  }

  /** Every text on its own, in input order; nothing when one of them fails. */
  function EmbedEach(s: Server, texts: seq<string>): Option<seq<Vector>> {
    if texts == [] then Some([])
    else
      And(EmbedEach(s, texts[..|texts| - 1]), EmbedText(s, texts[|texts| - 1]))
  }

  function And(vectors: Option<seq<Vector>>, last: Option<Vector>): Option<seq<Vector>> {
    if vectors.Some? && last.Some? then Some(vectors.value + [last.value]) else None
  }

  lemma PostFits(s: Server, inputs: seq<string>)
    requires Independent(s) && inputs != [] && forall t | t in inputs :: s.fits(t)
    ensures Post(s, inputs).Vectors? && |Post(s, inputs).vectors| == |inputs|
    ensures forall i | 0 <= i < |inputs| :: Post(s, inputs).vectors[i] == s.vector(inputs[i])
  {
    assert AnswersOrRejects(s, inputs);
    PayloadInOrder(s, inputs, s.serve(inputs).items);
  }

  lemma PostRejects(s: Server, inputs: seq<string>)
    requires Independent(s) && inputs != [] && exists t | t in inputs :: !s.fits(t)
    ensures Post(s, inputs).Rejected?
  {
    assert AnswersOrRejects(s, inputs);
  }

  lemma FitsAlone(s: Server, text: string)
    requires Independent(s) && s.fits(text)
    ensures EmbedText(s, text) == Some(s.vector(text))
  {
    PostFits(s, [text]);
  }

  /** Truncation ends with the vector of a proper attempt: a prefix of the text that fits. */
  lemma {:induction false} TruncatedIsPrefix(s: Server, text: string, tokens: nat, limit: nat, retries: nat)
    requires Independent(s)
    ensures Truncated(s, text, tokens, limit, retries).Some? ==>
              OwnOrPrefix(s, text, Truncated(s, text, tokens, limit, retries).value)
    decreases retries
  {
    if retries > 0 {
      var cut := Cut(text, CutTo(|text|, tokens, limit));
      assert cut == text[..|cut|];
      if s.fits(cut) {
        PostFits(s, [cut]);
      } else {
        assert cut in [cut];
        PostRejects(s, [cut]);
        var (t, l) := (Post(s, [cut]).tokens, Post(s, [cut]).limit);
        TruncatedIsPrefix(s, cut, t, l, retries - 1);
        var r := Truncated(s, cut, t, l, retries - 1);
        if r.Some? {
          var n: nat :| n <= |cut| && s.fits(cut[..n]) && r.value == s.vector(cut[..n]);
          assert cut[..n] == text[..n];
        }
      }
    }
  }

  /** What one text becomes: its own vector when it fits, otherwise that of a prefix that does. */
  lemma TextIsOwnOrPrefix(s: Server, text: string)
    requires Independent(s)
    ensures s.fits(text) ==> EmbedText(s, text) == Some(s.vector(text))
    ensures EmbedText(s, text).Some? ==>
              OwnOrPrefix(s, text, EmbedText(s, text).value)
  {
    if s.fits(text) {
      FitsAlone(s, text);
      assert text[..|text|] == text;
    } else {
      assert text in [text];
      PostRejects(s, [text]);
      TruncatedIsPrefix(s, text, Post(s, [text]).tokens, Post(s, [text]).limit, MAX_TRUNCATION_RETRIES);
    }
  }

  // ---- when truncation succeeds ----

  /** What the reported counts leave of a length: nine tenths of the share that is allowed, or half without
      counts. */
  function Share(length: nat, tokens: nat, limit: nat): real {
    if tokens == 0 || limit == 0 then 0.5 * length as real else 0.9 * (limit as real / tokens as real) * length as real
  }

  /** What is left of a rejected text: the longest proper prefix within its share, but at least a character. */
  ghost predicate IsCut(text: string, tokens: nat, limit: nat, cut: string) {
    cut <= text && Within(|text|, Share(|text|, tokens, limit), |cut|)
  }

  ghost predicate Within(length: nat, share: real, n: nat) {
    if length <= 1 || share < 1.0 then n == (if length == 0 then 0 else 1)
    else n < length && n as real <= share && (n + 1 == length || (n + 1) as real > share)
  }

  /** Cut after cut, each by the counts the server reports for the one before, until one fits. */
  ghost predicate Cutting(s: Server, text: string, tokens: nat, limit: nat, cuts: seq<string>)
    decreases |cuts|
  {
    && cuts != [] && IsCut(text, tokens, limit, cuts[0])
    && (|cuts| == 1 ==> s.fits(cuts[0]))
    && (|cuts| > 1 ==>
          && !s.fits(cuts[0]) && s.serve([cuts[0]]).TooLarge?
          && Cutting(s, cuts[0], s.serve([cuts[0]]).tokens, s.serve([cuts[0]]).limit, cuts[1..]))
  }

  lemma ShareIs(length: nat, tokens: nat, limit: nat)
    ensures length as real * (if tokens != 0 && limit != 0 then (limit as real / tokens as real) * 0.9 else 0.5)
         == Share(length, tokens, limit)
    ensures Share(length, tokens, limit) >= 0.0
  {
    if tokens != 0 && limit != 0 {
      var r := limit as real / tokens as real;
      assert r > 0.0;
      assert length as real * (r * 0.9) == 0.9 * r * length as real;
    }
  }

  lemma WithinIs(length: nat, share: real, n: nat)
    requires share >= 0.0
    ensures Within(length, share, n) <==>
              var least := if length - 1 < share.Floor then length - 1 else share.Floor;
              n == if length == 0 then 0 else if least < 1 then 1 else least
  {
    assert share.Floor as real <= share < (share.Floor + 1) as real;
    if Within(length, share, n) && length > 1 && share >= 1.0 {
      assert n <= share.Floor;
    }
  }

  lemma CutIs(text: string, tokens: nat, limit: nat, cut: string)
    ensures IsCut(text, tokens, limit, cut) <==> cut == Cut(text, CutTo(|text|, tokens, limit))
  {
    ShareIs(|text|, tokens, limit);
    WithinIs(|text|, Share(|text|, tokens, limit), |cut|);
    hide Share, Within;
    if cut <= text { assert cut == text[..|cut|]; }
  }

  /** At most so many cuts lead to one that fits, and has the vector. */
  ghost predicate Reaches(s: Server, text: string, tokens: nat, limit: nat, retries: nat, v: Vector) {
    exists cuts :: Cutting(s, text, tokens, limit, cuts) && |cuts| <= retries && s.vector(cuts[|cuts| - 1]) == v
  }

  lemma ReachesNext(s: Server, text: string, tokens: nat, limit: nat, retries: nat, v: Vector, cut: string)
    requires retries > 0 && forall c :: IsCut(text, tokens, limit, c) <==> c == cut
    ensures s.fits(cut) ==> (Reaches(s, text, tokens, limit, retries, v) <==> s.vector(cut) == v)
    ensures !s.fits(cut) && s.serve([cut]).TooLarge? ==>
              (Reaches(s, text, tokens, limit, retries, v)
               <==> Reaches(s, cut, s.serve([cut]).tokens, s.serve([cut]).limit, retries - 1, v))
  {
    hide IsCut;
    if s.fits(cut) {
      assert Cutting(s, text, tokens, limit, [cut]);
    } else if s.serve([cut]).TooLarge? {
      var (t, l) := (s.serve([cut]).tokens, s.serve([cut]).limit);
      if cuts :| Cutting(s, cut, t, l, cuts) && |cuts| <= retries - 1 && s.vector(cuts[|cuts| - 1]) == v {
        assert ([cut] + cuts)[1..] == cuts && Cutting(s, text, tokens, limit, [cut] + cuts);
      }
      if cuts :| Cutting(s, text, tokens, limit, cuts) && |cuts| <= retries && s.vector(cuts[|cuts| - 1]) == v {
        assert Cutting(s, cut, t, l, cuts[1..]);
      }
    }
  }

  /** Truncation gives a vector if and only if one of the cuts it may try fits, and then that of the first
      that does. */
  lemma {:induction false} TruncatedIff(s: Server, text: string, tokens: nat, limit: nat, retries: nat, v: Vector)
    requires Independent(s)
    ensures Truncated(s, text, tokens, limit, retries) == Some(v) <==> Reaches(s, text, tokens, limit, retries, v)
    decreases retries
  {
    if retries > 0 {
      var cut := Cut(text, CutTo(|text|, tokens, limit));
      forall c ensures IsCut(text, tokens, limit, c) <==> c == cut { CutIs(text, tokens, limit, c); }
      ReachesNext(s, text, tokens, limit, retries, v, cut);
      hide IsCut, Cut, CutTo, Reaches;
      if s.fits(cut) {
        PostFits(s, [cut]);
      } else {
        assert cut in [cut];
        PostRejects(s, [cut]);
        TruncatedIff(s, cut, Post(s, [cut]).tokens, Post(s, [cut]).limit, retries - 1, v);
      }
      hide Independent;
    }
  }

  /** A text on its own gives its vector when it fits, and otherwise that of the first of at most six cuts
      that does. */
  lemma TextIff(s: Server, text: string, v: Vector)
    requires Independent(s)
    ensures EmbedText(s, text) == Some(v) <==>
              if s.fits(text) then s.vector(text) == v
              else
                && s.serve([text]).TooLarge?
                && Reaches(s, text, s.serve([text]).tokens, s.serve([text]).limit, 6, v)
  {
    if s.fits(text) {
      FitsAlone(s, text);
    } else {
      assert text in [text];
      PostRejects(s, [text]);
      TruncatedIff(s, text, Post(s, [text]).tokens, Post(s, [text]).limit, 6, v);
      hide Truncated, Reaches, Independent;
    }
  }

  lemma BothAnd(p: Option<seq<Vector>>, q: Option<seq<Vector>>, v: Option<Vector>)
    ensures Both(p, And(q, v)) == And(Both(p, q), v)
  {
    if p.Some? && q.Some? && v.Some? {
      assert p.value + (q.value + [v.value]) == p.value + q.value + [v.value];
    }
  }

  lemma {:induction false} EachConcat(s: Server, a: seq<string>, b: seq<string>)
    ensures EmbedEach(s, a + b) == Both(EmbedEach(s, a), EmbedEach(s, b))
  {
    hide EmbedText;
    if b == [] {
      assert a + b == a;
      assert EmbedEach(s, a).Some? ==> EmbedEach(s, a).value + [] == EmbedEach(s, a).value;
    } else {
      var c := a + b;
      assert c[..|c| - 1] == a + b[..|b| - 1] && c[|c| - 1] == b[|b| - 1];
      EachConcat(s, a, b[..|b| - 1]);
      BothAnd(EmbedEach(s, a), EmbedEach(s, b[..|b| - 1]), EmbedText(s, b[|b| - 1]));
    }
  }

  lemma {:induction false} EachFits(s: Server, texts: seq<string>)
    requires Independent(s) && forall t | t in texts :: s.fits(t)
    ensures EmbedEach(s, texts).Some? && |EmbedEach(s, texts).value| == |texts|
    ensures forall i | 0 <= i < |texts| :: EmbedEach(s, texts).value[i] == s.vector(texts[i])
  {
    hide EmbedText, Independent;
    if texts != [] {
      EachFits(s, texts[..|texts| - 1]);
      FitsAlone(s, texts[|texts| - 1]);
    }
  }

  lemma OneText(s: Server, text: string)
    requires Independent(s) && !s.fits(text)
    ensures EmbedBatch(s, [text]) == EmbedEach(s, [text])
  {
    assert text in [text];
    PostRejects(s, [text]);
    hide Truncated, Post;
    assert [text][..0] == [] && EmbedEach(s, []) == Some([]);
    assert EmbedEach(s, [text]) == And(Some([]), EmbedText(s, text));
    assert forall v: Vector :: [] + [v] == [v];
  }

  /** However a batch is split on the way, its result is that of each text on its own. */
  lemma {:induction false} BatchIsPointwise(s: Server, batch: seq<string>)
    requires Independent(s) && batch != []
    ensures EmbedBatch(s, batch) == EmbedEach(s, batch)
    decreases |batch|
  {
    hide EmbedEach, Independent, Post;
    if forall t | t in batch :: s.fits(t) {
      PostFits(s, batch);
      EachFits(s, batch);
      assert Post(s, batch).vectors == EmbedEach(s, batch).value;
    } else {
      PostRejects(s, batch);
      if |batch| > 1 {
        var mid := |batch| / 2;
        BatchIsPointwise(s, batch[..mid]);
        BatchIsPointwise(s, batch[mid..]);
        EachConcat(s, batch[..mid], batch[mid..]);
        assert batch[..mid] + batch[mid..] == batch;
      } else {
        assert batch == [batch[0]];
        OneText(s, batch[0]);
      }
    }
  }

  /** A vector that is the server's for the text or for a prefix of it that fits. */
  ghost predicate OwnOrPrefix(s: Server, text: string, v: Vector) {
    exists n: nat :: n <= |text| && s.fits(text[..n]) && v == s.vector(text[..n])
  }

  /** The promise of `embed`: when nothing is raised there is one vector for each text, in input order,
      each that of the text or of a prefix of it that the server accepts. */
  lemma {:induction false} EachInOrder(s: Server, texts: seq<string>)
    requires Independent(s) && EmbedEach(s, texts).Some?
    ensures |EmbedEach(s, texts).value| == |texts|
    ensures forall i | 0 <= i < |texts| ::
              && EmbedText(s, texts[i]) == Some(EmbedEach(s, texts).value[i])
              && OwnOrPrefix(s, texts[i], EmbedEach(s, texts).value[i])
              && (s.fits(texts[i]) ==> EmbedEach(s, texts).value[i] == s.vector(texts[i]))
  {
    hide EmbedText, Independent, OwnOrPrefix;
    if texts != [] {
      var m, last := texts[..|texts| - 1], texts[|texts| - 1];
      EachInOrder(s, m);
      TextIsOwnOrPrefix(s, last);
    }
  }

  // ---- the client at work ----

  /** `_vectors_from_payload`, which sorts in place. */
  method VectorsFromPayload(items: seq<Item>, expected: nat) returns (r: Option<seq<Vector>>)
    ensures r == FromPayload(items, expected)
  {
    var ordered: seq<(int, Vector)> := [];
    for position := 0 to |items|
      invariant forall i | 0 <= i < position :: items[i].vector != []
      invariant ordered == Sorted(Placed(items)[..position])
    {
      if items[position].vector == [] { return None; }
      var pair := (if items[position].index.Some? then items[position].index.value else position, items[position].vector);
      var n := InsertAt(ordered, pair.0);
      assert Placed(items)[..position + 1][..position] == Placed(items)[..position];
      ordered := ordered[..n] + [pair] + ordered[n..];
    }
    assert Placed(items)[..|items|] == Placed(items);
    if |items| != expected { return None; }
    return Some(VectorsIn(ordered));
  }

  method PostRequest(s: Server, inputs: seq<string>) returns (r: Posted)
    ensures r == Post(s, inputs)
  {
    match s.serve(inputs) {
      case Failed => return Error;
      case TooLarge(tokens, limit) => return Rejected(tokens, limit);
      case Payload(items) =>
        var vectors := VectorsFromPayload(items, |inputs|);
        return if vectors.Some? then Vectors(vectors.value) else Error;
    }
  }

  /** `_embed_truncated`. */
  method EmbedTruncated(s: Server, text: string, tokens: nat, limit: nat) returns (r: Option<Vector>)
    ensures r == Truncated(s, text, tokens, limit, MAX_TRUNCATION_RETRIES)
  {
    var current, t, l := text, tokens, limit;
    for retry := 0 to MAX_TRUNCATION_RETRIES
      invariant Truncated(s, text, tokens, limit, MAX_TRUNCATION_RETRIES)
             == Truncated(s, current, t, l, MAX_TRUNCATION_RETRIES - retry)
    {
      current := Cut(current, CutTo(|current|, t, l));
      var posted := PostRequest(s, [current]);
      match posted {
        case Vectors(vectors) => return if vectors == [] then None else Some(vectors[0]);
        case Error => return None;
        case Rejected(reported, allowed) => t, l := reported, allowed;
      }
    }
    return None;
  }

  method EmbedBatchOf(s: Server, batch: seq<string>) returns (r: Option<seq<Vector>>)
    requires batch != []
    ensures r == EmbedBatch(s, batch)
    decreases |batch|
  {
    var posted := PostRequest(s, batch);
    match posted {
      case Vectors(vectors) => return Some(vectors);
      case Error => return None;
      case Rejected(tokens, limit) =>
        if |batch| > 1 {
          var mid := |batch| / 2;
          var first := EmbedBatchOf(s, batch[..mid]);
          if first.None? { return None; }
          var second := EmbedBatchOf(s, batch[mid..]);
          return Both(first, second);
        }
        var v := EmbedTruncated(s, batch[0], tokens, limit);
        return if v.Some? then Some([v.value]) else None;
    }
  }

  /** `embed`: batch by batch. For a server that treats inputs on their own the result is that of each
      text on its own, so it does not depend on the batch size. */
  method Embed(s: Server, texts: seq<string>, batchSize: nat) returns (r: Option<seq<Vector>>)
    requires batchSize >= 1
    ensures Independent(s) ==> r == EmbedEach(s, texts)
  {
    var vectors := [];
    var start := 0;
    hide Independent, EmbedBatch, EmbedEach;
    assert texts[..0] == [];
    NoTexts(s);
    while start < |texts|
      invariant start <= |texts|
      invariant Independent(s) ==> EmbedEach(s, texts[..start]) == Some(vectors)
    {
      var end := if start + batchSize < |texts| then start + batchSize else |texts|;
      var more := EmbedBatchOf(s, texts[start..end]);
      if Independent(s) { NextBatch(s, texts, start, end); }
      if more.None? { return None; }
      vectors := vectors + more.value;
      start := end;
    }
    assert texts[..start] == texts;
    return Some(vectors);
  }

  lemma NoTexts(s: Server)
    ensures EmbedEach(s, []) == Some([])
  {
  }

  lemma NextBatch(s: Server, texts: seq<string>, start: nat, end: nat)
    requires Independent(s) && start < end <= |texts|
    ensures EmbedEach(s, texts[..end]) == Both(EmbedEach(s, texts[..start]), EmbedBatch(s, texts[start..end]))
    ensures EmbedEach(s, texts) == Both(EmbedEach(s, texts[..end]), EmbedEach(s, texts[end..]))
  {
    hide Independent, EmbedBatch, EmbedEach;
    BatchIsPointwise(s, texts[start..end]);
    EachConcat(s, texts[..start], texts[start..end]);
    assert texts[..start] + texts[start..end] == texts[..end];
    EachConcat(s, texts[..end], texts[end..]);
    assert texts[..end] + texts[end..] == texts;
  }
}
