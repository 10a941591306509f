/** The in-memory vector database: an ordered list of `{id, vector}` items
    and a map from vector id to document metadata, filled by `addDocument`
    with ids taken from a counter, searched by a full scan that scores every
    vector against the query, sorts by score and keeps the first `topK`.

    The fields of a database are the value `Store`; the functions over it
    specify the class `VectorDatabase`, whose methods are proved to compute
    them. The similarity score is the cosine with the square roots left out
    (see `Similarity`). */
module VectorStore {
  import opened Common
  import opened Sorting
  import TextChunker

  const DefaultDimension: nat := 384
  const DefaultMaxElements: nat := 10000

  /** One element of `vectors`. */
  datatype Entry = Entry(id: nat, vector: seq<real>)

  /** The metadata stored under a vector id (the timestamp is left out). */
  datatype Document = Document(vectorId: nat, pageId: string, url: string, title: string, chunk: TextChunker.Chunk)

  datatype StoreError =
    | DimensionMismatch(expected: nat, actual: nat)
    | StoreFull(maxElements: nat)
    | InvalidQuery(expected: nat, actual: nat)

  /** The fields of a `VectorDatabase`. */
  datatype Store = Store(dimension: nat, maxElements: nat, vectors: seq<Entry>,
                         documents: map<nat, Document>, nextVectorId: nat)

  /** A search candidate: a document with its score and `distance = 1 - similarity`. */
  datatype Scored = Scored(doc: Document, similarity: real, distance: real)

  /** A search result: a candidate and its 1-based rank. */
  datatype Hit = Hit(scored: Scored, rank: nat)

  datatype Stats = Stats(totalDocuments: nat, totalVectors: nat, dimension: nat, maxElements: nat)

  // ---------------------------------------------------------------------
  // The representation invariant

  /** The ids of `vs`. */
  function IdSet(vs: seq<Entry>): set<nat>
  {
    if |vs| == 0 then {} else IdSet(vs[..|vs| - 1]) + {vs[|vs| - 1].id}
  }

  predicate Increasing(vs: seq<Entry>)
  {
    forall i, j :: 0 <= i < j < |vs| ==> vs[i].id < vs[j].id
  }

  /** The invariant every operation keeps: the ids in `vectors` are strictly
      increasing and below the counter, they are exactly the keys of
      `documents`, each document records its own id, every vector has the
      configured dimension, and the store is within capacity. */
  ghost predicate Valid(s: Store)
  {
    s.dimension > 0 && s.maxElements > 0 && |s.vectors| <= s.maxElements
    && (forall k :: 0 <= k < |s.vectors| ==>
          |s.vectors[k].vector| == s.dimension && s.vectors[k].id < s.nextVectorId)
    && Increasing(s.vectors)
    && s.documents.Keys == IdSet(s.vectors)
    && (forall id :: id in s.documents ==> s.documents[id].vectorId == id)
  }

  lemma {:induction false} IdSetMember(vs: seq<Entry>, id: nat)
    ensures id in IdSet(vs) <==> exists k :: 0 <= k < |vs| && vs[k].id == id
  {
    if |vs| > 0 {
      var init := vs[..|vs| - 1];
      IdSetMember(init, id);
      if id in IdSet(init) {
        var k :| 0 <= k < |init| && init[k].id == id;
        assert vs[k].id == id;
      }
      if exists k :: 0 <= k < |vs| && vs[k].id == id {
        var k :| 0 <= k < |vs| && vs[k].id == id;
        if k < |vs| - 1 {
          assert init[k].id == id;
        }
      }
    }
  }

  lemma IdSetAppend(vs: seq<Entry>, e: Entry)
    ensures IdSet(vs + [e]) == IdSet(vs) + {e.id}
  {
    assert (vs + [e])[..|vs|] == vs;
  }

  /** Distinct ids: as many ids as vectors. */
  lemma {:induction false} IdSetSize(vs: seq<Entry>)
    requires Increasing(vs)
    ensures |IdSet(vs)| == |vs|
  {
    if |vs| > 0 {
      var init := vs[..|vs| - 1];
      IdSetSize(init);
      IdSetMember(init, vs[|vs| - 1].id);
    }
  }

  /** In a valid store there are as many documents as vectors. */
  lemma DocumentCount(s: Store)
    ensures Valid(s) ==> |s.documents| == |s.vectors| <= s.maxElements
  {
    if Valid(s) {
      IdSetSize(s.vectors);
      assert |s.documents| == |s.documents.Keys|;
    }
  }

  // ---------------------------------------------------------------------
  // Construction, insertion, clearing

  /** `new VectorDatabase({dimension, maxElements})`: a 0 (or missing)
      option takes its default. */
  function NewStore(dimension: nat, maxElements: nat): (s: Store)
    ensures Valid(s)
  {
    Store(if dimension == 0 then DefaultDimension else dimension,
          if maxElements == 0 then DefaultMaxElements else maxElements,
          [], map[], 0)
  }

  /** `addDocument`: the new state and the returned id or error. */
  function Add(s: Store, pageId: string, url: string, title: string, chunk: TextChunker.Chunk, embedding: seq<real>)
    : (Store, Result<nat, StoreError>)
  {
    if |embedding| != s.dimension then (s, Failure(DimensionMismatch(s.dimension, |embedding|)))
    else if |s.vectors| >= s.maxElements then (s, Failure(StoreFull(s.maxElements)))
    else
      var id := s.nextVectorId;
      (s.(vectors := s.vectors + [Entry(id, embedding)],
          documents := s.documents[id := Document(id, pageId, url, title, chunk)],
          nextVectorId := id + 1),
       Success(id))
  }

  /** An insert succeeds exactly when the embedding has the configured
      dimension and the store is below capacity; a rejected insert changes
      nothing; an accepted one returns the old counter, appends one vector
      and one document under that fresh id, and bumps the counter. */
  lemma AddOutcome(s: Store, pageId: string, url: string, title: string, chunk: TextChunker.Chunk, embedding: seq<real>)
    requires Valid(s)
    ensures var (t, r) := Add(s, pageId, url, title, chunk, embedding);
      (r.Success? <==> |embedding| == s.dimension && |s.vectors| < s.maxElements)
      && (r.Failure? ==> t == s)
      && (|embedding| != s.dimension ==> r == Failure(DimensionMismatch(s.dimension, |embedding|)))
      && (r.Success? ==>
            r.value == s.nextVectorId && r.value !in s.documents
            && t.vectors == s.vectors + [Entry(r.value, embedding)]
            && t.documents == s.documents[r.value := Document(r.value, pageId, url, title, chunk)]
            && |t.documents| == |s.documents| + 1
            && t.nextVectorId == s.nextVectorId + 1)
  {
    IdSetMember(s.vectors, s.nextVectorId);
  }

  /** Insertion keeps the invariant. */
  lemma AddValid(s: Store, pageId: string, url: string, title: string, chunk: TextChunker.Chunk, embedding: seq<real>)
    requires Valid(s)
    ensures Valid(Add(s, pageId, url, title, chunk, embedding).0)
  {
    if |embedding| == s.dimension && |s.vectors| < s.maxElements {
      IdSetAppend(s.vectors, Entry(s.nextVectorId, embedding));
    }
  }

  /** `clear()`: both structures empty, the counter back at 0. */
  function ClearStore(s: Store): (t: Store)
    ensures t.vectors == [] && t.documents == map[] && t.nextVectorId == 0
    ensures t.dimension == s.dimension && t.maxElements == s.maxElements
    ensures Valid(s) ==> Valid(t)
  {
    s.(vectors := [], documents := map[], nextVectorId := 0)
  }

  // ---------------------------------------------------------------------
  // Similarity

  /** Real product and quotient. They are named so that the solver matches
      a product in one proof step with the same product in the next; its
      arithmetic does not equate `x * x` with `y * y` from `x == y`. */
  function Mul(x: real, y: real): real { x * y }

  function Div(x: real, y: real): real
    requires y != 0.0
  {
    x / y
  }

  function Abs(x: real): real { if x < 0.0 then -x else x }

  /** The sum of `a[k] * b[k]` for `k < n`. */
  function Dot(a: seq<real>, b: seq<real>, n: nat): real
    requires n <= |a| && n <= |b|
  {
    if n == 0 then 0.0 else Dot(a, b, n - 1) + Mul(a[n - 1], b[n - 1])
  }

  /** The score of `cosineSimilarity(a, b)`: 0 when either vector has zero
      magnitude, otherwise `dot * |dot| / (|a|^2 * |b|^2)`, the cosine times
      its absolute value. It has the cosine's sign and order, so it ranks
      vectors as the cosine does, without square roots. */
  function Similarity(a: seq<real>, b: seq<real>): real
    requires |a| == |b|
  {
    var dot := Dot(a, b, |a|);
    var normA := Dot(a, a, |a|);
    var normB := Dot(b, b, |b|);
    if normA == 0.0 || normB == 0.0 then 0.0 else Div(Mul(dot, Abs(dot)), Mul(normA, normB))
  }

  lemma Pos(x: real, y: real)
    requires x > 0.0 && y > 0.0
    ensures Mul(x, y) > 0.0
  {
  }

  lemma Square(x: real)
    ensures Mul(x, x) >= 0.0
    ensures x != 0.0 ==> Mul(x, x) > 0.0
  {
    if x > 0.0 {
      Pos(x, x);
    } else if x < 0.0 {
      Pos(-x, -x);
      assert (-x) * (-x) == x * x;
    }
  }

  lemma Ratio(p: real)
    requires p > 0.0
    ensures Div(p, p) == 1.0
  {
  }

  lemma Quotient(x: real, p: real)
    requires x > 0.0 && p > 0.0
    ensures Div(x, p) > 0.0 && Div(-x, p) < 0.0
  {
  }

  /** A squared magnitude is never negative; it is 0 for the zero vector and
      positive as soon as one component is not 0. */
  lemma {:induction false} NormFacts(a: seq<real>, n: nat)
    requires n <= |a|
    ensures Dot(a, a, n) >= 0.0
    ensures (forall k :: 0 <= k < n ==> a[k] == 0.0) ==> Dot(a, a, n) == 0.0
    ensures (exists k :: 0 <= k < n && a[k] != 0.0) ==> Dot(a, a, n) > 0.0
  {
    if n > 0 {
      NormFacts(a, n - 1);
      Square(a[n - 1]);
      if exists k :: 0 <= k < n && a[k] != 0.0 {
        var k :| 0 <= k < n && a[k] != 0.0;
        if k < n - 1 {
          assert Dot(a, a, n - 1) > 0.0;
        }
      }
    }
  }

  lemma {:induction false} DotSymmetric(a: seq<real>, b: seq<real>, n: nat)
    requires n <= |a| && n <= |b|
    ensures Dot(a, b, n) == Dot(b, a, n)
  {
    if n > 0 {
      DotSymmetric(a, b, n - 1);
    }
  }

  /** The zero-magnitude rule: an all-zero vector scores 0 against any
      vector, in either argument position. */
  lemma SimilarityOfZero(a: seq<real>, b: seq<real>)
    requires |a| == |b|
    requires forall k :: 0 <= k < |a| ==> a[k] == 0.0
    ensures Similarity(a, b) == 0.0 && Similarity(b, a) == 0.0
  {
    NormFacts(a, |a|);
  }

  lemma SimilaritySymmetric(a: seq<real>, b: seq<real>)
    requires |a| == |b|
    ensures Similarity(a, b) == Similarity(b, a)
  {
    DotSymmetric(a, b, |a|);
    assert Mul(Dot(a, a, |a|), Dot(b, b, |b|)) == Mul(Dot(b, b, |b|), Dot(a, a, |a|));
  }

  /** A vector that is not all zeros scores 1 against itself. */
  lemma SelfSimilarity(a: seq<real>)
    requires exists k :: 0 <= k < |a| && a[k] != 0.0
    ensures Similarity(a, a) == 1.0
  {
    NormFacts(a, |a|);
    var na := Dot(a, a, |a|);
    assert Abs(na) == na;
    Square(na);
    Ratio(Mul(na, na));
  }

  /** For non-zero vectors the score has the sign of the dot product, as the
      cosine does: positive, negative or 0 together with it. */
  lemma SimilaritySign(a: seq<real>, b: seq<real>)
    requires |a| == |b|
    requires exists k :: 0 <= k < |a| && a[k] != 0.0
    requires exists k :: 0 <= k < |b| && b[k] != 0.0
    ensures Similarity(a, b) > 0.0 <==> Dot(a, b, |a|) > 0.0
    ensures Similarity(a, b) < 0.0 <==> Dot(a, b, |a|) < 0.0
  {
    NormFacts(a, |a|);
    NormFacts(b, |b|);
    var d := Dot(a, b, |a|);
    var p := Mul(Dot(a, a, |a|), Dot(b, b, |b|));
    Pos(Dot(a, a, |a|), Dot(b, b, |b|));
    if d > 0.0 {
      Pos(d, Abs(d));
      Quotient(Mul(d, Abs(d)), p);
    } else if d < 0.0 {
      Pos(-d, Abs(d));
      assert Mul(d, Abs(d)) == -Mul(-d, Abs(d));
      Quotient(Mul(-d, Abs(d)), p);
    }
  }

  // ---------------------------------------------------------------------
  // Search

  /** The candidates `search` collects from the first `n` vectors, in
      `vectors` order, skipping a vector without a document. */
  function Scores(s: Store, q: seq<real>, n: nat): (r: seq<Scored>)
    requires n <= |s.vectors|
    requires forall k :: 0 <= k < |s.vectors| ==> |s.vectors[k].vector| == |q|
  {
    if n == 0 then []
    else
      var e := s.vectors[n - 1];
      var sim := Similarity(q, e.vector);
      Scores(s, q, n - 1) + (if e.id in s.documents then [Scored(s.documents[e.id], sim, 1.0 - sim)] else [])
  }

  function SimilarityOf(c: Scored): real { c.similarity }

  function IdOf(c: Scored): int { c.doc.vectorId }

  /** `.map((result, index) => ({...result, rank: index + 1}))`. */
  function Ranked(cs: seq<Scored>): (hs: seq<Hit>)
  {
    seq(|cs|, k requires 0 <= k < |cs| => Hit(cs[k], k + 1))
  }

  /** `search(queryEmbedding, topK)`. */
  function SearchSpec(s: Store, query: Option<seq<real>>, topK: nat): Result<seq<Hit>, StoreError>
    requires Valid(s)
  {
    if query.None? || |query.value| != s.dimension then
      Failure(InvalidQuery(s.dimension, if query.None? then 0 else |query.value|))
    else if |s.vectors| == 0 then Success([])
    else
      var sorted := SortDesc(Scores(s, query.value, |s.vectors|), SimilarityOf);
      Success(Ranked(sorted[..Min(topK, |sorted|)]))
  }

  /** In a valid store every vector has a document, so the `k`-th candidate
      is the `k`-th vector's document and score, and candidates come in
      increasing id order. */
  lemma {:induction false} ScoresFacts(s: Store, q: seq<real>, n: nat)
    requires Valid(s) && |q| == s.dimension && n <= |s.vectors|
    ensures forall k :: 0 <= k < |s.vectors| ==> s.vectors[k].id in s.documents
    ensures |Scores(s, q, n)| == n
    ensures forall k :: 0 <= k < n ==>
      Scores(s, q, n)[k] == Scored(s.documents[s.vectors[k].id], Similarity(q, s.vectors[k].vector),
                                   1.0 - Similarity(q, s.vectors[k].vector))
  {
    forall k | 0 <= k < |s.vectors| ensures s.vectors[k].id in s.documents {
      IdSetMember(s.vectors, s.vectors[k].id);
    }
    if n > 0 {
      ScoresFacts(s, q, n - 1);
    }
  }

  lemma ScoresIncreasing(s: Store, q: seq<real>)
    requires Valid(s) && |q| == s.dimension
    ensures IncreasingId(Scores(s, q, |s.vectors|), IdOf)
  {
    ScoresFacts(s, q, |s.vectors|);
    var cs := Scores(s, q, |s.vectors|);
    forall i, j | 0 <= i < j < |cs| ensures IdOf(cs[i]) < IdOf(cs[j]) {
      IdSetMember(s.vectors, s.vectors[i].id);
      IdSetMember(s.vectors, s.vectors[j].id);
    }
  }

  /** A query that is missing or of the wrong length is an error; an empty
      store gives no results; otherwise there are `min(topK, n)` results
      ranked 1, 2, ..., by non-increasing similarity with ties in insertion
      order, each a stored vector's document with its score. */
  lemma SearchFacts(s: Store, query: Option<seq<real>>, topK: nat)
    requires Valid(s)
    ensures SearchSpec(s, query, topK).Failure? <==> query.None? || |query.value| != s.dimension
    ensures SearchSpec(s, query, topK).Success? ==>
      var hs := SearchSpec(s, query, topK).value;
      |hs| == Min(topK, |s.vectors|)
      && (forall k :: 0 <= k < |hs| ==> hs[k].rank == k + 1)
      && (forall i, j :: 0 <= i < j < |hs| ==>
            hs[i].scored.similarity > hs[j].scored.similarity
            || (hs[i].scored.similarity == hs[j].scored.similarity
                && hs[i].scored.doc.vectorId < hs[j].scored.doc.vectorId))
      && (forall k :: 0 <= k < |hs| ==> hs[k].scored in Scores(s, query.value, |s.vectors|))
    ensures SearchSpec(s, query, topK).Success? && |SearchSpec(s, query, topK).value| > 0 ==>
      var hs := SearchSpec(s, query, topK).value;
      forall c :: c in Scores(s, query.value, |s.vectors|) && (forall k :: 0 <= k < |hs| ==> hs[k].scored != c) ==>
        c.similarity <= hs[|hs| - 1].scored.similarity
  {
    SearchTop(s, query, topK);
    if query.Some? && |query.value| == s.dimension && |s.vectors| > 0 {
      var q := query.value;
      var cs := Scores(s, q, |s.vectors|);
      ScoresFacts(s, q, |s.vectors|);
      ScoresIncreasing(s, q);
      var m := Min(topK, |cs|);
      RankedSorted(cs, m);
      assert SearchSpec(s, query, topK) == Success(Ranked(SortDesc(cs, SimilarityOf)[..m]));
    }
  }

  /** Ranking the first `m` sorted candidates numbers them 1, 2, ..., in
      non-increasing similarity with ties in the candidates' id order. */
  lemma RankedSorted(cs: seq<Scored>, m: nat)
    requires m <= |cs| && IncreasingId(cs, IdOf)
    ensures |SortDesc(cs, SimilarityOf)| == |cs|
    ensures var hs := Ranked(SortDesc(cs, SimilarityOf)[..m]);
      |hs| == m
      && (forall k :: 0 <= k < |hs| ==> hs[k].rank == k + 1)
      && (forall i, j :: 0 <= i < j < |hs| ==>
            hs[i].scored.similarity > hs[j].scored.similarity
            || (hs[i].scored.similarity == hs[j].scored.similarity
                && hs[i].scored.doc.vectorId < hs[j].scored.doc.vectorId))
      && (forall k :: 0 <= k < |hs| ==> hs[k].scored in cs)
  {
    SortDescPermutes(cs, SimilarityOf);
    SortDescStable(cs, SimilarityOf, IdOf);
    var sorted := SortDesc(cs, SimilarityOf);
    var top := sorted[..m];
    var hs := Ranked(top);
    forall k | 0 <= k < |hs| ensures hs[k].scored in cs {
      assert hs[k].scored == sorted[k];
      SortDescMember(cs, SimilarityOf, sorted[k]);
    }
    forall i, j | 0 <= i < j < |hs|
      ensures hs[i].scored.similarity > hs[j].scored.similarity
        || (hs[i].scored.similarity == hs[j].scored.similarity
            && hs[i].scored.doc.vectorId < hs[j].scored.doc.vectorId)
    {
      assert hs[i].scored == sorted[i] && hs[j].scored == sorted[j];
    }
  }

  /** Ranking the first `m` sorted candidates leaves out none that scores
      above the last one ranked. */
  lemma RankedTop(cs: seq<Scored>, m: nat)
    requires 0 < m <= |cs|
    ensures |SortDesc(cs, SimilarityOf)| == |cs|
    ensures var hs := Ranked(SortDesc(cs, SimilarityOf)[..m]);
      forall c :: c in cs && (forall k :: 0 <= k < |hs| ==> hs[k].scored != c) ==>
        c.similarity <= hs[|hs| - 1].scored.similarity
  {
    SortDescTop(cs, SimilarityOf, m);
    var sorted := SortDesc(cs, SimilarityOf);
    var top := sorted[..m];
    var hs := Ranked(top);
    forall c | c in cs && (forall k :: 0 <= k < |hs| ==> hs[k].scored != c)
      ensures c.similarity <= hs[|hs| - 1].scored.similarity
    {
      assert c !in top by {
        forall k | 0 <= k < |top| ensures top[k] != c {
          assert hs[k].scored == top[k];
        }
      }
      assert hs[|hs| - 1].scored == sorted[m - 1];
      assert SimilarityOf(c) <= SimilarityOf(sorted[m - 1]);
    }
  }

  /** The search is an exact top-`topK`: no candidate left out scores above
      the last result. */
  lemma SearchTop(s: Store, query: Option<seq<real>>, topK: nat)
    requires Valid(s)
    ensures SearchSpec(s, query, topK).Success? && |SearchSpec(s, query, topK).value| > 0 ==>
      var hs := SearchSpec(s, query, topK).value;
      forall c :: c in Scores(s, query.value, |s.vectors|) && (forall k :: 0 <= k < |hs| ==> hs[k].scored != c) ==>
        c.similarity <= hs[|hs| - 1].scored.similarity
  {
    if query.Some? && |query.value| == s.dimension && |s.vectors| > 0 {
      var cs := Scores(s, query.value, |s.vectors|);
      SortDescPermutes(cs, SimilarityOf);
      var m := Min(topK, |cs|);
      assert SearchSpec(s, query, topK) == Success(Ranked(SortDesc(cs, SimilarityOf)[..m]));
      if m > 0 {
        RankedTop(cs, m);
      }
    }
  }

  /** Every candidate is among the results when `topK` covers the store. */
  lemma SearchComplete(s: Store, q: seq<real>, topK: nat)
    requires Valid(s) && |q| == s.dimension && |s.vectors| > 0 && topK >= |s.vectors|
    ensures forall c :: c in Scores(s, q, |s.vectors|) ==>
      exists k :: 0 <= k < |SearchSpec(s, Some(q), topK).value| && SearchSpec(s, Some(q), topK).value[k].scored == c
  {
    var cs := Scores(s, q, |s.vectors|);
    ScoresFacts(s, q, |s.vectors|);
    SortDescPermutes(cs, SimilarityOf);
    var sorted := SortDesc(cs, SimilarityOf);
    assert sorted[..Min(topK, |sorted|)] == sorted;
    var hs := SearchSpec(s, Some(q), topK).value;
    forall c | c in cs ensures exists k :: 0 <= k < |hs| && hs[k].scored == c {
      SortDescMember(cs, SimilarityOf, c);
      var k :| 0 <= k < |sorted| && sorted[k] == c;
      assert hs[k].scored == c;
    }
  }

  // ---------------------------------------------------------------------
  // Removal by page

  predicate Removed(docs: map<nat, Document>, id: nat, pageId: string)
  {
    id in docs && docs[id].pageId == pageId
  }

  /** The vectors `removeByPageId(pageId)` keeps, in their order. */
  function KeepVectors(docs: map<nat, Document>, vs: seq<Entry>, pageId: string): (r: seq<Entry>)
    ensures |r| <= |vs|
  {
    if |vs| == 0 then []
    else
      var last := vs[|vs| - 1];
      KeepVectors(docs, vs[..|vs| - 1], pageId) + (if Removed(docs, last.id, pageId) then [] else [last])
  }

  /** The documents left once the ids in `visited` have been checked. */
  function Remaining(docs: map<nat, Document>, visited: set<nat>, pageId: string): map<nat, Document>
  {
    map id | id in docs && !(id in visited && Removed(docs, id, pageId)) :: docs[id]
  }

  /** The documents `removeByPageId(pageId)` keeps. */
  function KeepDocuments(docs: map<nat, Document>, pageId: string): map<nat, Document>
  {
    map id | id in docs && docs[id].pageId != pageId :: docs[id]
  }

  function RemovePage(s: Store, pageId: string): Store
  {
    s.(vectors := KeepVectors(s.documents, s.vectors, pageId), documents := KeepDocuments(s.documents, pageId))
  }

  lemma KeepVectorsSnoc(docs: map<nat, Document>, vs: seq<Entry>, e: Entry, pageId: string)
    ensures KeepVectors(docs, vs + [e], pageId)
      == KeepVectors(docs, vs, pageId) + (if Removed(docs, e.id, pageId) then [] else [e])
  {
    assert (vs + [e])[..|vs|] == vs;
  }

  lemma {:induction false} KeepVectorsSub(docs: map<nat, Document>, vs: seq<Entry>, pageId: string)
    ensures forall e :: e in KeepVectors(docs, vs, pageId) ==> e in vs && !Removed(docs, e.id, pageId)
  {
    if |vs| > 0 {
      KeepVectorsSub(docs, vs[..|vs| - 1], pageId);
    }
  }

  lemma {:induction false} KeepVectorsIds(docs: map<nat, Document>, vs: seq<Entry>, pageId: string)
    ensures forall id :: id in IdSet(KeepVectors(docs, vs, pageId)) <==> id in IdSet(vs) && !Removed(docs, id, pageId)
  {
    if |vs| > 0 {
      var init := vs[..|vs| - 1];
      var last := vs[|vs| - 1];
      KeepVectorsIds(docs, init, pageId);
      assert IdSet(vs) == IdSet(init) + {last.id};
      if !Removed(docs, last.id, pageId) {
        IdSetAppend(KeepVectors(docs, init, pageId), last);
        assert KeepVectors(docs, vs, pageId) == KeepVectors(docs, init, pageId) + [last];
      } else {
        assert KeepVectors(docs, vs, pageId) == KeepVectors(docs, init, pageId);
      }
    }
  }

  /** The positions in `vs` of the vectors `KeepVectors` keeps. */
  function KeptPositions(docs: map<nat, Document>, vs: seq<Entry>, pageId: string): seq<nat>
  {
    if |vs| == 0 then []
    else
      KeptPositions(docs, vs[..|vs| - 1], pageId)
        + (if Removed(docs, vs[|vs| - 1].id, pageId) then [] else [|vs| - 1])
  }

  /** `r` is the subsequence of `vs` at the increasing positions `pos`. */
  ghost predicate SubsequenceAt(r: seq<Entry>, vs: seq<Entry>, pos: seq<nat>)
  {
    |pos| == |r|
    && (forall m :: 0 <= m < |pos| ==> pos[m] < |vs| && r[m] == vs[pos[m]])
    && (forall m, m' :: 0 <= m < m' < |pos| ==> pos[m] < pos[m'])
  }

  /** Extending a subsequence by a later element of a longer sequence. */
  lemma SubsequenceSnoc(r: seq<Entry>, init: seq<Entry>, pos: seq<nat>, e: Entry)
    requires SubsequenceAt(r, init, pos)
    ensures SubsequenceAt(r, init + [e], pos)
    ensures SubsequenceAt(r + [e], init + [e], pos + [|init|])
  {
    var vs := init + [e];
    forall m | 0 <= m < |pos| ensures vs[pos[m]] == init[pos[m]] { }
  }

  /** The vectors removal keeps are those of `vs` at `KeptPositions`, in
      order, unchanged; a position is kept exactly when its vector's
      document does not belong to the page. */
  lemma {:induction false} KeptPositionsFacts(docs: map<nat, Document>, vs: seq<Entry>, pageId: string)
    ensures SubsequenceAt(KeepVectors(docs, vs, pageId), vs, KeptPositions(docs, vs, pageId))
    ensures forall k :: 0 <= k < |vs| ==>
      (k in KeptPositions(docs, vs, pageId) <==> !Removed(docs, vs[k].id, pageId))
  {
    if |vs| > 0 {
      var init := vs[..|vs| - 1];
      var last := vs[|vs| - 1];
      KeptPositionsFacts(docs, init, pageId);
      var r0 := KeepVectors(docs, init, pageId);
      var p0 := KeptPositions(docs, init, pageId);
      assert vs == init + [last];
      SubsequenceSnoc(r0, init, p0, last);
      if Removed(docs, last.id, pageId) {
        assert KeepVectors(docs, vs, pageId) == r0;
        assert KeptPositions(docs, vs, pageId) == p0;
      } else {
        assert KeepVectors(docs, vs, pageId) == r0 + [last];
        assert KeptPositions(docs, vs, pageId) == p0 + [|init|];
      }
      forall k | 0 <= k < |vs|
        ensures k in KeptPositions(docs, vs, pageId) <==> !Removed(docs, vs[k].id, pageId)
      {
        if k < |init| {
          assert vs[k] == init[k];
          assert |init| !in p0;
        }
      }
    }
  }

  /** A vector survives removal exactly when it was stored and its document
      does not belong to the page. */
  lemma KeepVectorsMember(docs: map<nat, Document>, vs: seq<Entry>, pageId: string)
    ensures forall e :: e in KeepVectors(docs, vs, pageId) <==> e in vs && !Removed(docs, e.id, pageId)
  {
    KeepVectorsSub(docs, vs, pageId);
    KeptPositionsFacts(docs, vs, pageId);
    var r := KeepVectors(docs, vs, pageId);
    var pos := KeptPositions(docs, vs, pageId);
    forall e | e in vs && !Removed(docs, e.id, pageId) ensures e in r {
      var k :| 0 <= k < |vs| && vs[k] == e;
      var m :| 0 <= m < |pos| && pos[m] == k;
      assert r[m] == e;
    }
  }

  lemma {:induction false} KeepVectorsIncreasing(docs: map<nat, Document>, vs: seq<Entry>, pageId: string)
    requires Increasing(vs)
    ensures Increasing(KeepVectors(docs, vs, pageId))
  {
    if |vs| > 0 {
      var init := vs[..|vs| - 1];
      var last := vs[|vs| - 1];
      KeepVectorsIncreasing(docs, init, pageId);
      var k := KeepVectors(docs, init, pageId);
      if !Removed(docs, last.id, pageId) {
        KeepVectorsSub(docs, init, pageId);
        forall e | e in k ensures e.id < last.id {
          var m :| 0 <= m < |init| && init[m] == e;
          assert vs[m] == e;
        }
        IncreasingSnoc(k, last);
      }
    }
  }

  lemma IncreasingSnoc(vs: seq<Entry>, e: Entry)
    requires Increasing(vs) && forall x :: x in vs ==> x.id < e.id
    ensures Increasing(vs + [e])
  {
    var r := vs + [e];
    forall i, j | 0 <= i < j < |r| ensures r[i].id < r[j].id {
      if j < |vs| {
        assert r[i] == vs[i] && r[j] == vs[j];
      } else {
        assert r[i] in vs;
      }
    }
  }

  /** Removal keeps the representation invariant. */
  lemma RemovePageValid(s: Store, pageId: string)
    requires Valid(s)
    ensures Valid(RemovePage(s, pageId))
  {
    var t := RemovePage(s, pageId);
    KeepVectorsSub(s.documents, s.vectors, pageId);
    forall k | 0 <= k < |t.vectors|
      ensures |t.vectors[k].vector| == s.dimension && t.vectors[k].id < s.nextVectorId
    {
      assert t.vectors[k] in s.vectors;
    }
    KeepVectorsIncreasing(s.documents, s.vectors, pageId);
    KeepVectorsIds(s.documents, s.vectors, pageId);
    assert t.documents.Keys == IdSet(t.vectors);
  }

  /** Removal deletes exactly the documents of the page, and the vectors with
      them, keeps the rest unchanged and in order, leaves the counter alone,
      and is a no-op when no document belongs to the page. */
  lemma RemovePageFacts(s: Store, pageId: string)
    requires Valid(s)
    ensures Valid(RemovePage(s, pageId))
    ensures forall id :: id in RemovePage(s, pageId).documents <==> id in s.documents && s.documents[id].pageId != pageId
    ensures forall id :: id in RemovePage(s, pageId).documents ==> RemovePage(s, pageId).documents[id] == s.documents[id]
    ensures RemovePage(s, pageId).nextVectorId == s.nextVectorId
    ensures (forall id :: id in s.documents ==> s.documents[id].pageId != pageId) ==> RemovePage(s, pageId) == s
    ensures forall e :: e in RemovePage(s, pageId).vectors <==> e in s.vectors && !Removed(s.documents, e.id, pageId)
    ensures SubsequenceAt(RemovePage(s, pageId).vectors, s.vectors, KeptPositions(s.documents, s.vectors, pageId))
    ensures forall k :: 0 <= k < |s.vectors| ==>
      (k in KeptPositions(s.documents, s.vectors, pageId) <==> !Removed(s.documents, s.vectors[k].id, pageId))
  {
    KeepVectorsMember(s.documents, s.vectors, pageId);
    KeptPositionsFacts(s.documents, s.vectors, pageId);
    RemovePageValid(s, pageId);
    if forall id :: id in s.documents ==> s.documents[id].pageId != pageId {
      RemovePageNoop(s, pageId);
    }
  }

  lemma RemovePageNoop(s: Store, pageId: string)
    requires forall id :: id in s.documents ==> s.documents[id].pageId != pageId
    ensures RemovePage(s, pageId) == s
  {
    NothingRemoved(s.documents, s.vectors, pageId);
    assert KeepDocuments(s.documents, pageId) == s.documents;
  }

  lemma {:induction false} NothingRemoved(docs: map<nat, Document>, vs: seq<Entry>, pageId: string)
    requires forall id :: id in docs ==> docs[id].pageId != pageId
    ensures KeepVectors(docs, vs, pageId) == vs
  {
    if |vs| > 0 {
      NothingRemoved(docs, vs[..|vs| - 1], pageId);
      assert vs[..|vs| - 1] + [vs[|vs| - 1]] == vs;
    }
  }

  /** `this.vectors.findIndex(v => v.id === id)`. */
  function FindIndex(vs: seq<Entry>, id: nat): (r: int)
    ensures -1 <= r < |vs|
    ensures r == -1 <==> forall k :: 0 <= k < |vs| ==> vs[k].id != id
    ensures r >= 0 ==> vs[r].id == id && forall k :: 0 <= k < r ==> vs[k].id != id
  {
    if |vs| == 0 then -1
    else if vs[0].id == id then 0
    else
      var r := FindIndex(vs[1..], id);
      if r == -1 then -1 else r + 1
  }

  // ---------------------------------------------------------------------
  // Read-only scans

  /** The documents in the Map's iteration order, which is insertion order.
      Ids are inserted in increasing order and never inserted twice, so that
      order is the order of `vectors`. */
  function ValuesOf(docs: map<nat, Document>, vs: seq<Entry>): seq<Document>
  {
    if |vs| == 0 then []
    else
      var id := vs[|vs| - 1].id;
      ValuesOf(docs, vs[..|vs| - 1]) + (if id in docs then [docs[id]] else [])
  }

  function Values(s: Store): seq<Document>
  {
    ValuesOf(s.documents, s.vectors)
  }

  lemma {:induction false} ValuesOfMember(docs: map<nat, Document>, vs: seq<Entry>, d: Document)
    ensures d in ValuesOf(docs, vs) <==> exists id :: id in IdSet(vs) && id in docs && docs[id] == d
  {
    if |vs| > 0 {
      ValuesOfMember(docs, vs[..|vs| - 1], d);
    }
  }

  /** In a valid store the scan visits exactly the stored documents. */
  lemma ValuesMember(s: Store, d: Document)
    requires Valid(s)
    ensures d in Values(s) <==> d in s.documents.Values
  {
    ValuesOfMember(s.documents, s.vectors, d);
  }

  lemma ValuesOfSnoc(docs: map<nat, Document>, vs: seq<Entry>, k: nat)
    requires k < |vs|
    ensures vs[k].id in docs ==> ValuesOf(docs, vs[..k + 1]) == ValuesOf(docs, vs[..k]) + [docs[vs[k].id]]
    ensures vs[k].id !in docs ==> ValuesOf(docs, vs[..k + 1]) == ValuesOf(docs, vs[..k])
  {
    assert vs[..k + 1][..k] == vs[..k];
    assert ValuesOf(docs, vs[..k]) + [] == ValuesOf(docs, vs[..k]);
  }

  /** `Array.from(new Set(pageIds))`: the first occurrence of each. */
  function DistinctPageIds(ds: seq<Document>): seq<string>
  {
    if |ds| == 0 then []
    else
      var r := DistinctPageIds(ds[..|ds| - 1]);
      var p := ds[|ds| - 1].pageId;
      if p in r then r else r + [p]
  }

  lemma DistinctPageIdsSnoc(ds: seq<Document>, d: Document)
    ensures DistinctPageIds(ds + [d])
      == if d.pageId in DistinctPageIds(ds) then DistinctPageIds(ds) else DistinctPageIds(ds) + [d.pageId]
  {
    assert (ds + [d])[..|ds|] == ds;
  }

  /** One more visited entry in `getAllPageIds`' loop. */
  lemma DistinctPageIdsStep(docs: map<nat, Document>, vs: seq<Entry>, k: nat)
    requires k < |vs|
    ensures DistinctPageIds(ValuesOf(docs, vs[..k + 1]))
      == if vs[k].id in docs && docs[vs[k].id].pageId !in DistinctPageIds(ValuesOf(docs, vs[..k]))
         then DistinctPageIds(ValuesOf(docs, vs[..k])) + [docs[vs[k].id].pageId]
         else DistinctPageIds(ValuesOf(docs, vs[..k]))
  {
    ValuesOfSnoc(docs, vs, k);
    if vs[k].id in docs {
      DistinctPageIdsSnoc(ValuesOf(docs, vs[..k]), docs[vs[k].id]);
    }
  }

  lemma {:induction false} DistinctPageIdsFacts(ds: seq<Document>)
    ensures forall i, j :: 0 <= i < j < |DistinctPageIds(ds)| ==> DistinctPageIds(ds)[i] != DistinctPageIds(ds)[j]
    ensures forall p :: p in DistinctPageIds(ds) <==> exists k :: 0 <= k < |ds| && ds[k].pageId == p
  {
    if |ds| > 0 {
      var init := ds[..|ds| - 1];
      DistinctPageIdsFacts(init);
      forall p ensures p in DistinctPageIds(ds) <==> exists k :: 0 <= k < |ds| && ds[k].pageId == p {
        if exists k :: 0 <= k < |ds| && ds[k].pageId == p {
          var k :| 0 <= k < |ds| && ds[k].pageId == p;
          if k < |ds| - 1 {
            assert init[k].pageId == p;
          }
        }
        if p in DistinctPageIds(init) {
          var k :| 0 <= k < |init| && init[k].pageId == p;
          assert ds[k].pageId == p;
        }
      }
    }
  }

  /** `getAllPageIds()` has no duplicates and holds exactly the page ids that
      occur among the stored documents. */
  lemma PageIdsFacts(s: Store)
    requires Valid(s)
    ensures forall i, j :: 0 <= i < j < |DistinctPageIds(Values(s))| ==>
      DistinctPageIds(Values(s))[i] != DistinctPageIds(Values(s))[j]
    ensures forall p :: p in DistinctPageIds(Values(s)) <==> exists d :: d in s.documents.Values && d.pageId == p
  {
    var ds := Values(s);
    DistinctPageIdsFacts(ds);
    forall p ensures p in DistinctPageIds(ds) <==> exists d :: d in s.documents.Values && d.pageId == p {
      if p in DistinctPageIds(ds) {
        var k :| 0 <= k < |ds| && ds[k].pageId == p;
        ValuesMember(s, ds[k]);
      }
      if exists d :: d in s.documents.Values && d.pageId == p {
        var d :| d in s.documents.Values && d.pageId == p;
        ValuesMember(s, d);
        var k :| 0 <= k < |ds| && ds[k] == d;
      }
    }
  }

  /** The documents of one page, in scan order. */
  function OfPage(ds: seq<Document>, pageId: string): seq<Document>
  {
    if |ds| == 0 then []
    else OfPage(ds[..|ds| - 1], pageId) + (if ds[|ds| - 1].pageId == pageId then [ds[|ds| - 1]] else [])
  }

  lemma OfPageSnoc(ds: seq<Document>, d: Document, pageId: string)
    ensures d.pageId == pageId ==> OfPage(ds + [d], pageId) == OfPage(ds, pageId) + [d]
    ensures d.pageId != pageId ==> OfPage(ds + [d], pageId) == OfPage(ds, pageId)
  {
    assert (ds + [d])[..|ds|] == ds;
    assert OfPage(ds, pageId) + [] == OfPage(ds, pageId);
  }

  lemma {:induction false} OfPageMember(ds: seq<Document>, pageId: string, d: Document)
    ensures d in OfPage(ds, pageId) <==> d in ds && d.pageId == pageId
  {
    if |ds| > 0 {
      OfPageMember(ds[..|ds| - 1], pageId, d);
      assert ds == ds[..|ds| - 1] + [ds[|ds| - 1]];
    }
  }

  /** `getDocumentsByPageId(pageId)` returns exactly the stored documents of
      that page. */
  lemma DocumentsOfPage(s: Store, pageId: string, d: Document)
    requires Valid(s)
    ensures d in OfPage(Values(s), pageId) <==> d in s.documents.Values && d.pageId == pageId
  {
    OfPageMember(Values(s), pageId, d);
    ValuesMember(s, d);
  }

  // ---------------------------------------------------------------------
  // The database object

  class VectorDatabase {
    const dimension: nat
    const maxElements: nat
    var vectors: seq<Entry>
    var documents: map<nat, Document>
    var nextVectorId: nat

    function State(): Store
      reads this
    {
      Store(dimension, maxElements, vectors, documents, nextVectorId)
    }

    ghost predicate Inv()
      reads this
    {
      Valid(State())
    }

    constructor(dimension: nat, maxElements: nat)
      ensures State() == NewStore(dimension, maxElements)
      ensures Inv()
    {
      this.dimension := if dimension == 0 then DefaultDimension else dimension;
      this.maxElements := if maxElements == 0 then DefaultMaxElements else maxElements;
      vectors := [];
      documents := map[];
      nextVectorId := 0;
    }

    method AddDocument(pageId: string, url: string, title: string, chunk: TextChunker.Chunk, embedding: seq<real>)
      returns (r: Result<nat, StoreError>)
      requires Inv()
      modifies this
      ensures (State(), r) == Add(old(State()), pageId, url, title, chunk, embedding)
      ensures Inv()
    {
      AddValid(State(), pageId, url, title, chunk, embedding);
      if |embedding| != dimension {
        return Failure(DimensionMismatch(dimension, |embedding|));
      }
      if |vectors| >= maxElements {
        return Failure(StoreFull(maxElements));
      }
      var vectorId := nextVectorId;
      nextVectorId := nextVectorId + 1;
      vectors := vectors + [Entry(vectorId, embedding)];
      documents := documents[vectorId := Document(vectorId, pageId, url, title, chunk)];
      return Success(vectorId);
    }

    method Search(query: Option<seq<real>>, topK: nat) returns (r: Result<seq<Hit>, StoreError>)
      requires Inv()
      ensures r == SearchSpec(State(), query, topK)
    {
      if query.None? || |query.value| != dimension {
        return Failure(InvalidQuery(dimension, if query.None? then 0 else |query.value|));
      }
      if |vectors| == 0 {
        return Success([]);
      }
      var q := query.value;
      var similarities: seq<Scored> := [];
      var k := 0;
      while k < |vectors|
        invariant k <= |vectors|
        invariant similarities == Scores(State(), q, k)
      {
        var item := vectors[k];
        var similarity := CosineSimilarity(q, item.vector);
        if item.id in documents {
          similarities := similarities + [Scored(documents[item.id], similarity, 1.0 - similarity)];
        }
        k := k + 1;
      }
      var sorted := SortDesc(similarities, SimilarityOf);
      return Success(Ranked(sorted[..Min(topK, |sorted|)]));
    }

    method CosineSimilarity(vecA: seq<real>, vecB: seq<real>) returns (r: real)
      requires |vecA| == |vecB|
      ensures r == Similarity(vecA, vecB)
    {
      var dotProduct, normA, normB := 0.0, 0.0, 0.0;
      var i := 0;
      while i < |vecA|
        invariant i <= |vecA|
        invariant dotProduct == Dot(vecA, vecB, i)
        invariant normA == Dot(vecA, vecA, i) && normB == Dot(vecB, vecB, i)
      {
        dotProduct := dotProduct + vecA[i] * vecB[i];
        normA := normA + vecA[i] * vecA[i];
        normB := normB + vecB[i] * vecB[i];
        i := i + 1;
      }
      if normA == 0.0 || normB == 0.0 {
        return 0.0;
      }
      return Div(Mul(dotProduct, Abs(dotProduct)), Mul(normA, normB));
    }

    method RemoveByPageId(pageId: string)
      requires Inv()
      modifies this
      ensures State() == RemovePage(old(State()), pageId)
      ensures Inv()
    {
      ghost var s0 := State();
      // The documents Map's entries in iteration order: the ids of `vectors`.
      var entries := vectors;
      var k := 0;
      while k < |entries|
        invariant k <= |entries| && entries == s0.vectors
        invariant State() == RemoveRounds(s0, pageId, k)
      {
        var vectorId := entries[k].id;
        RemoveRoundsState(s0, pageId, k);
        RemoveRoundKey(s0, k, IdSet(entries[..k]));
        assert vectorId in documents;
        RemoveEntry(vectorId, pageId);
        k := k + 1;
      }
      RemoveRoundsDone(s0, pageId);
      RemovePageFacts(s0, pageId);
    }

    /** One round of the removal loop: drops the document and the vector of
        `vectorId` when the document belongs to the page. */
    method RemoveEntry(vectorId: nat, pageId: string)
      requires vectorId in documents
      modifies this
      ensures State() == RemoveRound(old(State()), vectorId, pageId)
    {
      var doc := documents[vectorId];
      if doc.pageId == pageId {
        documents := documents - {vectorId};
        var index := FindIndex(vectors, vectorId);
        if index != -1 {
          vectors := vectors[..index] + vectors[index + 1..];
        }
      }
    }

    method Clear()
      requires Inv()
      modifies this
      ensures State() == ClearStore(old(State()))
      ensures Inv()
    {
      vectors := [];
      documents := map[];
      nextVectorId := 0;
    }

    /** `getStats()` without the percentage string: in a valid database the
        document and vector counts agree and are within capacity. */
    function GetStats(): (st: Stats)
      reads this
      ensures st.totalVectors == |vectors| && st.dimension == dimension && st.maxElements == maxElements
      ensures Inv() ==> st.totalDocuments == st.totalVectors <= st.maxElements
    {
      DocumentCount(State());
      Stats(|documents|, |vectors|, dimension, maxElements)
    }

    method GetAllPageIds() returns (pageIds: seq<string>)
      ensures pageIds == DistinctPageIds(Values(State()))
    {
      pageIds := [];
      var k := 0;
      while k < |vectors|
        invariant k <= |vectors|
        invariant pageIds == DistinctPageIds(ValuesOf(documents, vectors[..k]))
      {
        DistinctPageIdsStep(documents, vectors, k);
        var id := vectors[k].id;
        if id in documents {
          var doc := documents[id];
          if doc.pageId !in pageIds {
            pageIds := pageIds + [doc.pageId];
          }
        }
        k := k + 1;
      }
      assert vectors[..k] == vectors;
    }

    method GetDocumentsByPageId(pageId: string) returns (docs: seq<Document>)
      ensures docs == OfPage(Values(State()), pageId)
    {
      docs := [];
      var k := 0;
      while k < |vectors|
        invariant k <= |vectors|
        invariant docs == OfPage(ValuesOf(documents, vectors[..k]), pageId)
      {
        ValuesOfSnoc(documents, vectors, k);
        var id := vectors[k].id;
        if id in documents {
          var doc := documents[id];
          OfPageSnoc(ValuesOf(documents, vectors[..k]), doc, pageId);
          if doc.pageId == pageId {
            docs := docs + [doc];
          }
        }
        k := k + 1;
      }
      assert vectors[..k] == vectors;
    }
  }

  // ---------------------------------------------------------------------
  // One round of the removal loop

  /** One round of `removeByPageId`'s loop on the entry with id `id`: when the
      document is of the page, delete it and splice out its vector. */
  function RemoveRound(t: Store, id: nat, pageId: string): Store
  {
    if Removed(t.documents, id, pageId) then
      var index := FindIndex(t.vectors, id);
      t.(documents := t.documents - {id},
         vectors := if index != -1 then t.vectors[..index] + t.vectors[index + 1..] else t.vectors)
    else t
  }

  /** The state after the first `k` rounds, over the entries of `s0`. */
  ghost function RemoveRounds(s0: Store, pageId: string, k: nat): Store
    requires k <= |s0.vectors|
  {
    if k == 0 then s0 else RemoveRound(RemoveRounds(s0, pageId, k - 1), s0.vectors[k - 1].id, pageId)
  }

  /** After `k` rounds the visited part of `vectors` is filtered and the rest
      untouched, and exactly the visited documents of the page are gone. */
  lemma RemoveRoundsState(s0: Store, pageId: string, k: nat)
    requires Valid(s0) && k <= |s0.vectors|
    ensures var t := RemoveRounds(s0, pageId, k);
      t.dimension == s0.dimension && t.maxElements == s0.maxElements && t.nextVectorId == s0.nextVectorId
      && t.vectors == KeepVectors(s0.documents, s0.vectors[..k], pageId) + s0.vectors[k..]
      && t.documents == Remaining(s0.documents, IdSet(s0.vectors[..k]), pageId)
  {
    RemoveRoundsDocuments(s0, pageId, k);
    RemoveRoundsVectors(s0, pageId, k);
  }

  /** The settings and the documents after `k` rounds. */
  lemma {:induction false} RemoveRoundsDocuments(s0: Store, pageId: string, k: nat)
    requires Valid(s0) && k <= |s0.vectors|
    ensures RemoveRounds(s0, pageId, k).dimension == s0.dimension
    ensures RemoveRounds(s0, pageId, k).maxElements == s0.maxElements
    ensures RemoveRounds(s0, pageId, k).nextVectorId == s0.nextVectorId
    ensures RemoveRounds(s0, pageId, k).documents == Remaining(s0.documents, IdSet(s0.vectors[..k]), pageId)
  {
    var vs := s0.vectors;
    if k == 0 {
      assert Remaining(s0.documents, {}, pageId) == s0.documents;
    } else {
      var j := k - 1;
      TakeSnoc(vs, j);
      RemoveRoundsDocuments(s0, pageId, j);
      var t := RemoveRounds(s0, pageId, j);
      var visited := IdSet(vs[..j]);
      RemoveRoundDocuments(s0, j, pageId, visited, t.documents, RemoveRound(t, vs[j].id, pageId).documents);
      IdSetAppend(vs[..j], vs[j]);
    }
  }

  /** The vectors after `k` rounds. */
  lemma {:induction false} RemoveRoundsVectors(s0: Store, pageId: string, k: nat)
    requires Valid(s0) && k <= |s0.vectors|
    ensures RemoveRounds(s0, pageId, k).vectors == KeepVectors(s0.documents, s0.vectors[..k], pageId) + s0.vectors[k..]
  {
    var vs := s0.vectors;
    if k > 0 {
      var j := k - 1;
      RemoveRoundsVectors(s0, pageId, j);
      RemoveRoundsDocuments(s0, pageId, j);
      var t := RemoveRounds(s0, pageId, j);
      var id := vs[j].id;
      RemoveRoundKey(s0, j, IdSet(vs[..j]));
      assert t.documents[id] == s0.documents[id];
      if Removed(s0.documents, id, pageId) {
        RemoveRoundIndex(s0, j, pageId, t.vectors);
        RemoveRoundDrops(s0.documents, vs, j, pageId, t.vectors);
      } else {
        RemoveRoundKeeps(s0.documents, vs, j, pageId, t.vectors);
      }
    }
  }

  /** After the last round the state is `RemovePage`'s. */
  lemma RemoveRoundsDone(s0: Store, pageId: string)
    requires Valid(s0)
    ensures RemoveRounds(s0, pageId, |s0.vectors|) == RemovePage(s0, pageId)
  {
    RemoveRoundsState(s0, pageId, |s0.vectors|);
    assert s0.vectors[..|s0.vectors|] == s0.vectors;
    assert s0.vectors[|s0.vectors|..] == [];
    assert Remaining(s0.documents, IdSet(s0.vectors), pageId) == KeepDocuments(s0.documents, pageId);
  }

  /** The key visited in round `k` is still in `documents`. */
  lemma RemoveRoundKey(s0: Store, k: nat, visited: set<nat>)
    requires Valid(s0) && k < |s0.vectors| && visited == IdSet(s0.vectors[..k])
    ensures s0.vectors[k].id in s0.documents && s0.vectors[k].id !in visited
  {
    IdSetMember(s0.vectors, s0.vectors[k].id);
    IdSetMember(s0.vectors[..k], s0.vectors[k].id);
  }

  /** The vector of round `k` sits right after the kept vectors of the
      earlier rounds, and `findIndex` finds it there. */
  lemma RemoveRoundIndex(s0: Store, k: nat, pageId: string, vectors: seq<Entry>)
    requires Valid(s0) && k < |s0.vectors|
    requires vectors == KeepVectors(s0.documents, s0.vectors[..k], pageId) + s0.vectors[k..]
    ensures FindIndex(vectors, s0.vectors[k].id) == |KeepVectors(s0.documents, s0.vectors[..k], pageId)|
  {
    var kept := KeepVectors(s0.documents, s0.vectors[..k], pageId);
    KeepVectorsSub(s0.documents, s0.vectors[..k], pageId);
    forall m | 0 <= m < |kept| ensures vectors[m].id != s0.vectors[k].id {
      assert vectors[m] == kept[m];
      assert kept[m] in s0.vectors[..k];
    }
    assert vectors[|kept|] == s0.vectors[k];
  }

  /** A round whose document stays: `vectors` is unchanged and the kept
      prefix grows by the round's vector. */
  lemma RemoveRoundKeeps(docs: map<nat, Document>, vs: seq<Entry>, k: nat, pageId: string, before: seq<Entry>)
    requires k < |vs| && !Removed(docs, vs[k].id, pageId)
    requires before == KeepVectors(docs, vs[..k], pageId) + vs[k..]
    ensures before == KeepVectors(docs, vs[..k + 1], pageId) + vs[k + 1..]
  {
    var kept := KeepVectors(docs, vs[..k], pageId);
    KeepVectorsSnoc(docs, vs[..k], vs[k], pageId);
    assert vs[..k] + [vs[k]] == vs[..k + 1];
    assert vs[k..] == [vs[k]] + vs[k + 1..];
    Regroup(kept, kept + [vs[k]], [vs[k]], vs[k + 1..], vs[k..]);
  }

  /** A round whose document goes: splicing out the vector at the end of the
      kept prefix leaves the kept prefix followed by the unvisited rest. */
  lemma RemoveRoundDrops(docs: map<nat, Document>, vs: seq<Entry>, k: nat, pageId: string, before: seq<Entry>)
    requires k < |vs| && Removed(docs, vs[k].id, pageId)
    requires before == KeepVectors(docs, vs[..k], pageId) + vs[k..]
    ensures var n := |KeepVectors(docs, vs[..k], pageId)|;
      before[..n] + before[n + 1..] == KeepVectors(docs, vs[..k + 1], pageId) + vs[k + 1..]
  {
    var kept := KeepVectors(docs, vs[..k], pageId);
    KeepVectorsSnoc(docs, vs[..k], vs[k], pageId);
    assert vs[..k] + [vs[k]] == vs[..k + 1];
    assert before[..|kept|] == kept;
    assert before[|kept| + 1..] == vs[k + 1..];
  }

  lemma RemoveRoundDocuments(s0: Store, k: nat, pageId: string, visited: set<nat>,
                             before: map<nat, Document>, after: map<nat, Document>)
    requires Valid(s0) && k < |s0.vectors| && visited == IdSet(s0.vectors[..k])
    requires before == Remaining(s0.documents, visited, pageId)
    requires var id := s0.vectors[k].id;
      if id in before && before[id].pageId == pageId then after == before - {id} else after == before
    ensures var v' := visited + {s0.vectors[k].id};
      after == Remaining(s0.documents, v', pageId)
  {
    RemoveRoundKey(s0, k, visited);
  }
}
