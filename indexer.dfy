/** The content indexer (`nodes/content-indexer.js`): it owns a text chunker,
    an embedding engine and a vector database, records which pages are
    indexed, and answers searches with one result per page. Each operation
    of the class `ContentIndexer` is proved to compute a function of the
    three components' states (`IndexStep`, `BatchStep`, `SearchOutcome`,
    ...), and the lemmas beside those functions state what the source
    promises of them. */
module Indexer {
  import opened Common
  import opened Sorting
  import TextChunker
  import opened VectorStore
  import opened Embeddings

  /** The default of `generateSnippet`'s `maxLength`, used by `searchContent`. */
  const SnippetLength: nat := 200

  /** One entry of `indexedPages`; `indexedAt` is a clock reading and is
      not modelled. */
  datatype PageRecord = PageRecord(pageId: string, url: string, title: string, chunksCount: nat, vectorIds: seq<nat>)

  /** What `indexContent` returns, without `timeElapsed`. A page with no
      chunks reports no ids. */
  datatype IndexReport = IndexReport(pageId: string, chunksIndexed: nat, vectorIds: seq<nat>)

  /** One element of `indexContentBatch`'s input. */
  datatype Page = Page(pageId: string, url: string, title: string, content: string)

  /** One formatted search result. */
  datatype SearchResult = SearchResult(rank: nat, pageId: string, url: string, title: string, similarity: real,
                                       snippet: string, chunkSource: TextChunker.Source, matchedText: string)

  /** Why `searchContent` throws: the query could not be embedded, or the
      database rejected the query vector. */
  datatype SearchError = EmbeddingFailed(engineError: EngineError) | SearchFailed(storeError: StoreError)

  // ---------------------------------------------------------------------
  // The `indexedPages` Map: page ids in insertion order and their records

  datatype PageIndex = PageIndex(order: seq<string>, records: map<string, PageRecord>)

  ghost predicate PagesValid(p: PageIndex)
  {
    (forall i, j :: 0 <= i < j < |p.order| ==> p.order[i] != p.order[j])
    && (forall id :: id in p.records <==> id in p.order)
    && (forall id :: id in p.records ==> p.records[id].pageId == id)
  }

  function EmptyIndex(): (p: PageIndex)
    ensures PagesValid(p) && |p.records| == 0
  {
    PageIndex([], map[])
  }

  /** `indexedPages.set(rec.pageId, rec)`: a page indexed again keeps its
      place in the iteration order. */
  function SetPage(p: PageIndex, rec: PageRecord): PageIndex
  {
    if rec.pageId in p.records then p.(records := p.records[rec.pageId := rec])
    else PageIndex(p.order + [rec.pageId], p.records[rec.pageId := rec])
  }

  function Without(order: seq<string>, id: string): (r: seq<string>)
    ensures forall x :: x in r <==> x in order && x != id
  {
    if |order| == 0 then []
    else Without(order[..|order| - 1], id) + (if order[|order| - 1] == id then [] else [order[|order| - 1]])
  }

  /** `indexedPages.delete(id)`. */
  function DeletePage(p: PageIndex, id: string): PageIndex
  {
    PageIndex(Without(p.order, id), p.records - {id})
  }

  /** `Array.from(indexedPages.values())`. */
  function PageList(order: seq<string>, records: map<string, PageRecord>): seq<PageRecord>
  {
    if |order| == 0 then []
    else PageList(order[..|order| - 1], records)
         + (if order[|order| - 1] in records then [records[order[|order| - 1]]] else [])
  }

  lemma {:induction false} WithoutDistinct(order: seq<string>, id: string)
    requires forall i, j :: 0 <= i < j < |order| ==> order[i] != order[j]
    ensures forall i, j :: 0 <= i < j < |Without(order, id)| ==> Without(order, id)[i] != Without(order, id)[j]
  {
    if |order| > 0 {
      var init := order[..|order| - 1];
      WithoutDistinct(init, id);
      var last := order[|order| - 1];
      var r0 := Without(init, id);
      assert last !in r0;
      if last != id {
        var r := r0 + [last];
        forall i, j | 0 <= i < j < |r| ensures r[i] != r[j] {
          if j == |r0| {
            assert r[i] in r0;
          } else {
            assert r[i] == r0[i] && r[j] == r0[j];
          }
        }
      }
    }
  }

  lemma {:induction false} PageListAll(order: seq<string>, records: map<string, PageRecord>)
    requires forall x :: x in order ==> x in records
    ensures |PageList(order, records)| == |order|
    ensures forall i :: 0 <= i < |order| ==> PageList(order, records)[i] == records[order[i]]
  {
    if |order| > 0 {
      var init := order[..|order| - 1];
      assert forall x :: x in init ==> x in order;
      PageListAll(init, records);
    }
  }

  /** The listing has one record per indexed page, in insertion order; a
      page is indexed exactly when its record is listed. */
  lemma PageListFacts(p: PageIndex)
    requires PagesValid(p)
    ensures |PageList(p.order, p.records)| == |p.order| == |p.records|
    ensures forall i :: 0 <= i < |p.order| ==> PageList(p.order, p.records)[i] == p.records[p.order[i]]
    ensures forall rec :: rec in PageList(p.order, p.records) <==> rec in p.records.Values
    ensures forall id :: id in p.records <==> exists rec :: rec in PageList(p.order, p.records) && rec.pageId == id
  {
    PageListAll(p.order, p.records);
    var list := PageList(p.order, p.records);
    assert p.records.Keys == set x | x in p.order;
    DistinctCard(p.order);
    forall rec ensures rec in list <==> rec in p.records.Values {
      if rec in list {
        var i :| 0 <= i < |list| && list[i] == rec;
        assert p.order[i] in p.records;
      }
      if rec in p.records.Values {
        var id :| id in p.records && p.records[id] == rec;
        var i :| 0 <= i < |p.order| && p.order[i] == id;
        assert list[i] == rec;
      }
    }
    forall id ensures id in p.records <==> exists rec :: rec in list && rec.pageId == id {
      if id in p.records {
        var i :| 0 <= i < |p.order| && p.order[i] == id;
        assert list[i] in list;
      }
    }
  }

  lemma PageListCount(p: PageIndex)
    ensures PagesValid(p) ==> |PageList(p.order, p.records)| == |p.records|
  {
    if PagesValid(p) {
      PageListFacts(p);
    }
  }

  lemma {:induction false} DistinctCard(order: seq<string>)
    requires forall i, j :: 0 <= i < j < |order| ==> order[i] != order[j]
    ensures |set x | x in order| == |order|
  {
    if |order| > 0 {
      var init := order[..|order| - 1];
      DistinctCard(init);
      assert (set x | x in order) == (set x | x in init) + {order[|order| - 1]};
    }
  }

  lemma SetPageValid(p: PageIndex, rec: PageRecord)
    requires PagesValid(p)
    ensures PagesValid(SetPage(p, rec))
  {
    if rec.pageId !in p.records {
      var o := p.order + [rec.pageId];
      forall i, j | 0 <= i < j < |o| ensures o[i] != o[j] {
        if j == |p.order| {
          assert o[i] in p.order;
        } else {
          assert o[i] == p.order[i] && o[j] == p.order[j];
        }
      }
    }
  }

  lemma SetPageReplaces(p: PageIndex, rec: PageRecord, i: nat)
    requires PagesValid(p) && i < |p.order| && p.order[i] == rec.pageId
    ensures |PageList(p.order, p.records)| == |p.order|
    ensures PageList(p.order, p.records[rec.pageId := rec]) == PageList(p.order, p.records)[i := rec]
  {
    PageListAll(p.order, p.records);
    PageListAll(p.order, p.records[rec.pageId := rec]);
  }

  lemma SetPageAppends(p: PageIndex, rec: PageRecord)
    requires PagesValid(p) && rec.pageId !in p.records
    ensures PageList(p.order + [rec.pageId], p.records[rec.pageId := rec]) == PageList(p.order, p.records) + [rec]
  {
    var o := p.order + [rec.pageId];
    PageListAll(p.order, p.records);
    PageListAll(o, p.records[rec.pageId := rec]);
  }

  /** Recording a page keeps the map well formed and lists the new record:
      in place of the page's old record, or at the end for a new page. */
  lemma SetPageFacts(p: PageIndex, rec: PageRecord)
    requires PagesValid(p)
    ensures PagesValid(SetPage(p, rec))
    ensures SetPage(p, rec).records == p.records[rec.pageId := rec]
    ensures |PageList(p.order, p.records)| == |p.order|
    ensures rec.pageId in p.records ==>
      exists i :: 0 <= i < |p.order| && p.order[i] == rec.pageId
        && PageList(SetPage(p, rec).order, SetPage(p, rec).records) == PageList(p.order, p.records)[i := rec]
    ensures rec.pageId !in p.records ==>
      PageList(SetPage(p, rec).order, SetPage(p, rec).records) == PageList(p.order, p.records) + [rec]
  {
    SetPageValid(p, rec);
    PageListAll(p.order, p.records);
    if rec.pageId in p.records {
      var i :| 0 <= i < |p.order| && p.order[i] == rec.pageId;
      SetPageReplaces(p, rec, i);
    } else {
      SetPageAppends(p, rec);
    }
  }

  lemma DeletePageValid(p: PageIndex, id: string)
    requires PagesValid(p)
    ensures PagesValid(DeletePage(p, id))
  {
    var o := Without(p.order, id);
    WithoutDistinct(p.order, id);
    assert forall i, j :: 0 <= i < j < |o| ==> o[i] != o[j];
    var r := p.records - {id};
    assert forall x :: x in r <==> x in o;
    assert forall x :: x in r ==> r[x].pageId == x;
  }

  /** Deleting a page keeps the map well formed, unlists exactly that page's
      record and keeps every other record. */
  lemma DeletePageFacts(p: PageIndex, id: string)
    requires PagesValid(p)
    ensures PagesValid(DeletePage(p, id))
    ensures id !in DeletePage(p, id).records
    ensures forall other :: other != id && other in p.records ==>
              other in DeletePage(p, id).records && DeletePage(p, id).records[other] == p.records[other]
    ensures var p' := DeletePage(p, id);
      forall rec :: rec in PageList(p'.order, p'.records) <==> rec in PageList(p.order, p.records) && rec.pageId != id
  {
    var p' := DeletePage(p, id);
    DeletePageValid(p, id);
    PageListFacts(p);
    PageListFacts(p');
    forall rec ensures rec in p'.records.Values <==> rec in p.records.Values && rec.pageId != id {
      if rec in p'.records.Values {
        var k :| k in p'.records && p'.records[k] == rec;
        assert p.records[k] == rec;
      }
      if rec in p.records.Values && rec.pageId != id {
        var k :| k in p.records && p.records[k] == rec;
        assert p'.records[k] == rec;
      }
    }
  }

  // ---------------------------------------------------------------------
  // Storing a page's chunks

  /** `chunks.map(c => c.text)`. */
  function Texts(chunks: seq<TextChunker.Chunk>): (ts: seq<string>)
    ensures |ts| == |chunks| && forall i :: 0 <= i < |chunks| ==> ts[i] == chunks[i].text
  {
    seq(|chunks|, i requires 0 <= i < |chunks| => chunks[i].text)
  }

  /** The store loop of `indexContent` after `n` chunks: every insert is
      tried, a rejected one is skipped, and the ids of accepted ones are
      collected in order. */
  function AddAll(s: Store, pageId: string, url: string, title: string,
                  chunks: seq<TextChunker.Chunk>, embeddings: seq<seq<real>>, n: nat): (Store, seq<nat>)
    requires n <= |chunks| && n <= |embeddings|
  {
    if n == 0 then (s, [])
    else
      var (s1, ids) := AddAll(s, pageId, url, title, chunks, embeddings, n - 1);
      var (s2, r) := Add(s1, pageId, url, title, chunks[n - 1], embeddings[n - 1]);
      (s2, if r.Success? then ids + [r.value] else ids)
  }

  lemma AddAllNext(s: Store, pageId: string, url: string, title: string,
                   chunks: seq<TextChunker.Chunk>, embeddings: seq<seq<real>>, n: nat, t: Store, ids: seq<nat>)
    requires n < |chunks| && n < |embeddings|
    requires (t, ids) == AddAll(s, pageId, url, title, chunks, embeddings, n)
    ensures AddAll(s, pageId, url, title, chunks, embeddings, n + 1)
      == (Add(t, pageId, url, title, chunks[n], embeddings[n]).0,
          if Add(t, pageId, url, title, chunks[n], embeddings[n]).1.Success?
          then ids + [Add(t, pageId, url, title, chunks[n], embeddings[n]).1.value] else ids)
  {
  }

  /** `t` is `s` after storing documents of one page under the ids `ids`:
      still valid with the same settings, one vector more per id, the ids
      consecutive from the old counter and each holding a document of the
      page, and every earlier document kept. */
  ghost predicate Stored(s: Store, t: Store, ids: seq<nat>, pageId: string, url: string, title: string)
  {
    Valid(t) && t.dimension == s.dimension && t.maxElements == s.maxElements
    && |t.vectors| == |s.vectors| + |ids| && t.nextVectorId == s.nextVectorId + |ids|
    && (forall m :: 0 <= m < |ids| ==>
          ids[m] == s.nextVectorId + m && ids[m] in t.documents
          && t.documents[ids[m]].pageId == pageId && t.documents[ids[m]].url == url
          && t.documents[ids[m]].title == title)
    && (forall id :: id in s.documents ==> id in t.documents && t.documents[id] == s.documents[id])
  }

  lemma AddStored(s: Store, t: Store, ids: seq<nat>, pageId: string, url: string, title: string,
                  chunk: TextChunker.Chunk, embedding: seq<real>)
    requires Valid(s) && Stored(s, t, ids, pageId, url, title)
    ensures var (t', r) := Add(t, pageId, url, title, chunk, embedding);
      Stored(s, t', if r.Success? then ids + [r.value] else ids, pageId, url, title)
      && (r.Success? <==> |embedding| == s.dimension && |t.vectors| < s.maxElements)
  {
    AddOutcome(t, pageId, url, title, chunk, embedding);
    AddValid(t, pageId, url, title, chunk, embedding);
    var (t', r) := Add(t, pageId, url, title, chunk, embedding);
    if r.Success? {
      StoredExtend(s, t, ids, pageId, url, title, t', r.value, Document(r.value, pageId, url, title, chunk));
    }
  }

  /** One more document of the page, under the next fresh id. */
  lemma StoredExtend(s: Store, t: Store, ids: seq<nat>, pageId: string, url: string, title: string,
                     t': Store, v: nat, doc: Document)
    requires Stored(s, t, ids, pageId, url, title) && Valid(t')
    requires t'.dimension == t.dimension && t'.maxElements == t.maxElements
    requires |t'.vectors| == |t.vectors| + 1 && t'.nextVectorId == t.nextVectorId + 1
    requires v == t.nextVectorId && v !in t.documents && t'.documents == t.documents[v := doc]
    requires doc.pageId == pageId && doc.url == url && doc.title == title
    ensures Stored(s, t', ids + [v], pageId, url, title)
  {
    var ids' := ids + [v];
    forall m | 0 <= m < |ids'|
      ensures ids'[m] == s.nextVectorId + m && ids'[m] in t'.documents
        && t'.documents[ids'[m]].pageId == pageId && t'.documents[ids'[m]].url == url
        && t'.documents[ids'[m]].title == title
    {
      if m < |ids| {
        assert ids'[m] == ids[m] && ids[m] in t.documents;
      }
    }
    forall id | id in s.documents ensures id in t'.documents && t'.documents[id] == s.documents[id] {
      assert id in t.documents;
    }
  }

  /** Storing keeps the database valid, adds one vector per collected id,
      hands out consecutive fresh ids each holding a document of this page,
      keeps every earlier document, and stores every chunk when all
      embeddings have the database's dimension and there is room. */
  lemma {:induction false} AddAllFacts(s: Store, pageId: string, url: string, title: string,
                                       chunks: seq<TextChunker.Chunk>, embeddings: seq<seq<real>>, n: nat)
    requires Valid(s) && n <= |chunks| && n <= |embeddings|
    ensures Stored(s, AddAll(s, pageId, url, title, chunks, embeddings, n).0,
                   AddAll(s, pageId, url, title, chunks, embeddings, n).1, pageId, url, title)
    ensures |AddAll(s, pageId, url, title, chunks, embeddings, n).1| <= n
    ensures ((forall k :: 0 <= k < n ==> |embeddings[k]| == s.dimension) && |s.vectors| + n <= s.maxElements)
            ==> |AddAll(s, pageId, url, title, chunks, embeddings, n).1| == n
  {
    if n > 0 {
      AddAllFacts(s, pageId, url, title, chunks, embeddings, n - 1);
      var (t, ids) := AddAll(s, pageId, url, title, chunks, embeddings, n - 1);
      AddStored(s, t, ids, pageId, url, title, chunks[n - 1], embeddings[n - 1]);
    }
  }

  /** The chunk positions, among the first `n`, whose insert the store
      accepts: the embedding has the store's dimension and the store, which
      holds one more vector per position accepted before, has room. */
  function Accepted(s: Store, embeddings: seq<seq<real>>, n: nat): seq<nat>
    requires n <= |embeddings|
  {
    if n == 0 then []
    else
      var p := Accepted(s, embeddings, n - 1);
      p + (if |embeddings[n - 1]| == s.dimension && |s.vectors| + |p| < s.maxElements then [n - 1] else [])
  }

  /** The accepted positions lie below `n` and increase. */
  lemma {:induction false} AcceptedIncrease(s: Store, embeddings: seq<seq<real>>, n: nat)
    requires n <= |embeddings|
    ensures |Accepted(s, embeddings, n)| <= n
    ensures forall m :: 0 <= m < |Accepted(s, embeddings, n)| ==> Accepted(s, embeddings, n)[m] < n
    ensures forall m, m' :: 0 <= m < m' < |Accepted(s, embeddings, n)| ==>
      Accepted(s, embeddings, n)[m] < Accepted(s, embeddings, n)[m']
  {
    if n > 0 {
      AcceptedIncrease(s, embeddings, n - 1);
      var p := Accepted(s, embeddings, n - 1);
      if |embeddings[n - 1]| == s.dimension && |s.vectors| + |p| < s.maxElements {
        assert Accepted(s, embeddings, n) == p + [n - 1];
      } else {
        assert Accepted(s, embeddings, n) == p;
      }
    }
  }

  /** Position `k` is accepted exactly when its insert finds the right
      dimension and room, the store then holding one more vector per
      position accepted before it; later inserts do not change that. */
  lemma {:induction false} AcceptedAt(s: Store, embeddings: seq<seq<real>>, n: nat, k: nat)
    requires k < n <= |embeddings|
    ensures k in Accepted(s, embeddings, n)
      <==> |embeddings[k]| == s.dimension && |s.vectors| + |Accepted(s, embeddings, k)| < s.maxElements
    decreases n
  {
    var p := Accepted(s, embeddings, n - 1);
    var fits := |embeddings[n - 1]| == s.dimension && |s.vectors| + |p| < s.maxElements;
    assert Accepted(s, embeddings, n) == if fits then p + [n - 1] else p;
    if k < n - 1 {
      AcceptedAt(s, embeddings, n - 1, k);
      AcceptedIncrease(s, embeddings, n - 1);
      assert k in Accepted(s, embeddings, n) <==> k in p;
    } else {
      AcceptedIncrease(s, embeddings, n - 1);
      assert n - 1 !in p;
    }
  }

  /** The documents `docs` holds under `ids` are the chunks at the
      positions `p`. */
  ghost predicate HoldsChunks(docs: map<nat, Document>, ids: seq<nat>, chunks: seq<TextChunker.Chunk>, p: seq<nat>)
  {
    |p| == |ids|
    && (forall m :: 0 <= m < |p| ==> p[m] < |chunks| && ids[m] in docs && docs[ids[m]].chunk == chunks[p[m]])
  }

  /** `t` is `s` after storing the chunks and embeddings at positions `p`
      under `ids`: the old vectors come first, unchanged, then one entry
      per id holding the embedding at its position, and each id's document
      holds the chunk at that position. */
  ghost predicate Placed(s: Store, t: Store, ids: seq<nat>, p: seq<nat>,
                         chunks: seq<TextChunker.Chunk>, embeddings: seq<seq<real>>)
  {
    HoldsChunks(t.documents, ids, chunks, p)
    && (forall m, m' :: 0 <= m < m' < |p| ==> p[m] < p[m'])
    && |t.vectors| == |s.vectors| + |p| && t.vectors[..|s.vectors|] == s.vectors
    && (forall m :: 0 <= m < |p| ==>
          p[m] < |embeddings| && t.vectors[|s.vectors| + m] == Entry(ids[m], embeddings[p[m]]))
  }

  /** The part of `AddAllFacts` a round relies on: the settings stay and
      the next id is fresh. */
  lemma AddAllSettings(s: Store, pageId: string, url: string, title: string,
                       chunks: seq<TextChunker.Chunk>, embeddings: seq<seq<real>>, n: nat)
    requires Valid(s) && n <= |chunks| && n <= |embeddings|
    ensures AddAll(s, pageId, url, title, chunks, embeddings, n).0.dimension == s.dimension
    ensures AddAll(s, pageId, url, title, chunks, embeddings, n).0.maxElements == s.maxElements
    ensures AddAll(s, pageId, url, title, chunks, embeddings, n).0.nextVectorId
      !in AddAll(s, pageId, url, title, chunks, embeddings, n).0.documents
  {
    AddAllFacts(s, pageId, url, title, chunks, embeddings, n);
    var t := AddAll(s, pageId, url, title, chunks, embeddings, n).0;
    IdSetMember(t.vectors, t.nextVectorId);
  }

  /** The vector entries under `ids` holding the embeddings at positions
      `p` (a position past the end stands for no embedding). */
  ghost function Entries(ids: seq<nat>, p: seq<nat>, embeddings: seq<seq<real>>): (r: seq<Entry>)
    requires |ids| == |p|
    ensures |r| == |ids|
    decreases |ids|
  {
    if |ids| == 0 then []
    else
      var k := p[|p| - 1];
      Entries(ids[..|ids| - 1], p[..|p| - 1], embeddings)
        + [Entry(ids[|ids| - 1], if k < |embeddings| then embeddings[k] else [])]
  }

  lemma EntriesSnoc(ids: seq<nat>, p: seq<nat>, embeddings: seq<seq<real>>, v: nat, k: nat)
    requires |ids| == |p| && k < |embeddings|
    ensures Entries(ids + [v], p + [k], embeddings) == Entries(ids, p, embeddings) + [Entry(v, embeddings[k])]
  {
    assert (ids + [v])[..|ids|] == ids;
    assert (p + [k])[..|p|] == p;
  }

  /** Entry `m` holds id `m` and the embedding at position `m`. */
  lemma {:induction false} EntriesAt(ids: seq<nat>, p: seq<nat>, embeddings: seq<seq<real>>, m: nat)
    requires |ids| == |p| && m < |p| && p[m] < |embeddings|
    ensures Entries(ids, p, embeddings)[m] == Entry(ids[m], embeddings[p[m]])
    decreases |ids|
  {
    if m < |ids| - 1 {
      EntriesAt(ids[..|ids| - 1], p[..|p| - 1], embeddings, m);
    }
  }

  /** One round of the store fold: the insert succeeds exactly when
      position `k` is accepted, and the appended entry extends `Entries`. */
  lemma AddEntries(s: Store, t: Store, ids: seq<nat>, p: seq<nat>, pageId: string, url: string, title: string,
                   chunk: TextChunker.Chunk, embeddings: seq<seq<real>>, k: nat)
    requires t.dimension == s.dimension && t.maxElements == s.maxElements
    requires |ids| == |p| && t.vectors == s.vectors + Entries(ids, p, embeddings) && k < |embeddings|
    ensures var (t', r) := Add(t, pageId, url, title, chunk, embeddings[k]);
      var fits := |embeddings[k]| == s.dimension && |s.vectors| + |p| < s.maxElements;
      var ids' := if r.Success? then ids + [r.value] else ids;
      var p' := p + (if fits then [k] else []);
      (r.Success? <==> fits) && |ids'| == |p'| && t'.vectors == s.vectors + Entries(ids', p', embeddings)
  {
    var (t', r) := Add(t, pageId, url, title, chunk, embeddings[k]);
    if r.Success? {
      EntriesSnoc(ids, p, embeddings, r.value, k);
    } else {
      assert p + [] == p;
    }
  }

  /** The store fold appends, after the old vectors, one entry per
      collected id holding the embedding at the corresponding accepted
      position. */
  lemma {:induction false} AddAllVectors(s: Store, pageId: string, url: string, title: string,
                                         chunks: seq<TextChunker.Chunk>, embeddings: seq<seq<real>>, n: nat)
    requires Valid(s) && n <= |chunks| && n <= |embeddings|
    ensures |AddAll(s, pageId, url, title, chunks, embeddings, n).1| == |Accepted(s, embeddings, n)|
    ensures AddAll(s, pageId, url, title, chunks, embeddings, n).0.vectors
      == s.vectors + Entries(AddAll(s, pageId, url, title, chunks, embeddings, n).1, Accepted(s, embeddings, n), embeddings)
  {
    if n > 0 {
      AddAllVectors(s, pageId, url, title, chunks, embeddings, n - 1);
      AddAllSettings(s, pageId, url, title, chunks, embeddings, n - 1);
      var t := AddAll(s, pageId, url, title, chunks, embeddings, n - 1).0;
      var ids := AddAll(s, pageId, url, title, chunks, embeddings, n - 1).1;
      AddEntries(s, t, ids, Accepted(s, embeddings, n - 1), pageId, url, title, chunks[n - 1], embeddings, n - 1);
    }
  }

  /** Under each of `ids`, `docs` holds a document with the chunk at the
      corresponding position of `p`. */
  ghost predicate ChunksMatch(docs: map<nat, Document>, ids: seq<nat>, chunks: seq<TextChunker.Chunk>, p: seq<nat>)
    decreases |ids|
  {
    |ids| == |p|
    && (|ids| > 0 ==>
          ChunksMatch(docs, ids[..|ids| - 1], chunks, p[..|p| - 1])
          && ids[|ids| - 1] in docs && p[|p| - 1] < |chunks| && docs[ids[|ids| - 1]].chunk == chunks[p[|p| - 1]])
  }

  lemma {:induction false} ChunksMatchAt(docs: map<nat, Document>, ids: seq<nat>, chunks: seq<TextChunker.Chunk>, p: seq<nat>, m: nat)
    requires ChunksMatch(docs, ids, chunks, p) && m < |ids|
    ensures ids[m] in docs && p[m] < |chunks| && docs[ids[m]].chunk == chunks[p[m]]
    decreases |ids|
  {
    if m < |ids| - 1 {
      ChunksMatchAt(docs, ids[..|ids| - 1], chunks, p[..|p| - 1], m);
    }
  }

  /** A document added under a fresh id keeps the match. */
  lemma {:induction false} ChunksMatchFresh(docs: map<nat, Document>, ids: seq<nat>, chunks: seq<TextChunker.Chunk>,
                                            p: seq<nat>, v: nat, doc: Document)
    requires ChunksMatch(docs, ids, chunks, p) && v !in docs
    ensures ChunksMatch(docs[v := doc], ids, chunks, p)
    decreases |ids|
  {
    if |ids| > 0 {
      ChunksMatchFresh(docs, ids[..|ids| - 1], chunks, p[..|p| - 1], v, doc);
    }
  }

  /** The store fold collects one id and appends one vector per accepted
      position. */
  lemma AddAllCount(s: Store, pageId: string, url: string, title: string,
                    chunks: seq<TextChunker.Chunk>, embeddings: seq<seq<real>>, n: nat)
    requires Valid(s) && n <= |chunks| && n <= |embeddings|
    ensures |AddAll(s, pageId, url, title, chunks, embeddings, n).1| == |Accepted(s, embeddings, n)|
    ensures |AddAll(s, pageId, url, title, chunks, embeddings, n).0.vectors| == |s.vectors| + |Accepted(s, embeddings, n)|
  {
    AddAllVectors(s, pageId, url, title, chunks, embeddings, n);
  }

  /** Round `n` of the store fold, component by component. */
  lemma AddAllRound(s: Store, pageId: string, url: string, title: string,
                    chunks: seq<TextChunker.Chunk>, embeddings: seq<seq<real>>, n: nat, t: Store, ids: seq<nat>)
    requires 0 < n <= |chunks| && n <= |embeddings|
    requires t == AddAll(s, pageId, url, title, chunks, embeddings, n - 1).0
    requires ids == AddAll(s, pageId, url, title, chunks, embeddings, n - 1).1
    ensures AddAll(s, pageId, url, title, chunks, embeddings, n).0
      == Add(t, pageId, url, title, chunks[n - 1], embeddings[n - 1]).0
    ensures AddAll(s, pageId, url, title, chunks, embeddings, n).1
      == if Add(t, pageId, url, title, chunks[n - 1], embeddings[n - 1]).1.Success?
         then ids + [Add(t, pageId, url, title, chunks[n - 1], embeddings[n - 1]).1.value] else ids
    ensures Accepted(s, embeddings, n) == Accepted(s, embeddings, n - 1)
      + (if |embeddings[n - 1]| == s.dimension && |s.vectors| + |Accepted(s, embeddings, n - 1)| < s.maxElements
         then [n - 1] else [])
  {
  }

  /** One round of the store fold on the documents: an accepted insert of
      the chunk at position `k` puts that chunk under the new id. The
      round's results are named `t'`, `ids'` and `p'`. */
  lemma AddChunks(s: Store, t: Store, ids: seq<nat>, p: seq<nat>, pageId: string, url: string, title: string,
                  chunks: seq<TextChunker.Chunk>, embeddings: seq<seq<real>>, k: nat,
                  t': Store, ids': seq<nat>, p': seq<nat>)
    requires t.dimension == s.dimension && t.maxElements == s.maxElements
    requires t.nextVectorId !in t.documents && |t.vectors| == |s.vectors| + |p|
    requires k < |chunks| && k < |embeddings| && ChunksMatch(t.documents, ids, chunks, p)
    requires t' == Add(t, pageId, url, title, chunks[k], embeddings[k]).0
    requires ids' == if Add(t, pageId, url, title, chunks[k], embeddings[k]).1.Success?
                     then ids + [Add(t, pageId, url, title, chunks[k], embeddings[k]).1.value] else ids
    requires p' == p + (if |embeddings[k]| == s.dimension && |s.vectors| + |p| < s.maxElements then [k] else [])
    ensures ChunksMatch(t'.documents, ids', chunks, p')
  {
    if |embeddings[k]| == s.dimension && |s.vectors| + |p| < s.maxElements {
      var v := t.nextVectorId;
      ChunksMatchFresh(t.documents, ids, chunks, p, v, Document(v, pageId, url, title, chunks[k]));
      assert ids'[..|ids|] == ids;
      assert p'[..|p|] == p;
    } else {
      assert p' == p;
    }
  }

  /** The store fold's documents under the collected ids hold the chunks
      at the accepted positions. */
  lemma {:induction false} AddAllChunks(s: Store, pageId: string, url: string, title: string,
                                        chunks: seq<TextChunker.Chunk>, embeddings: seq<seq<real>>, n: nat)
    requires Valid(s) && n <= |chunks| && n <= |embeddings|
    ensures ChunksMatch(AddAll(s, pageId, url, title, chunks, embeddings, n).0.documents,
                        AddAll(s, pageId, url, title, chunks, embeddings, n).1, chunks, Accepted(s, embeddings, n))
  {
    if n > 0 {
      AddAllChunks(s, pageId, url, title, chunks, embeddings, n - 1);
      AddAllSettings(s, pageId, url, title, chunks, embeddings, n - 1);
      AddAllCount(s, pageId, url, title, chunks, embeddings, n - 1);
      AddAllChunksStep(s, pageId, url, title, chunks, embeddings, n);
    }
  }

  /** The induction step of `AddAllChunks`. */
  lemma AddAllChunksStep(s: Store, pageId: string, url: string, title: string,
                         chunks: seq<TextChunker.Chunk>, embeddings: seq<seq<real>>, n: nat)
    requires 0 < n <= |chunks| && n <= |embeddings|
    requires ChunksMatch(AddAll(s, pageId, url, title, chunks, embeddings, n - 1).0.documents,
                         AddAll(s, pageId, url, title, chunks, embeddings, n - 1).1, chunks, Accepted(s, embeddings, n - 1))
    requires AddAll(s, pageId, url, title, chunks, embeddings, n - 1).0.dimension == s.dimension
    requires AddAll(s, pageId, url, title, chunks, embeddings, n - 1).0.maxElements == s.maxElements
    requires AddAll(s, pageId, url, title, chunks, embeddings, n - 1).0.nextVectorId
      !in AddAll(s, pageId, url, title, chunks, embeddings, n - 1).0.documents
    requires |AddAll(s, pageId, url, title, chunks, embeddings, n - 1).0.vectors| == |s.vectors| + |Accepted(s, embeddings, n - 1)|
    ensures ChunksMatch(AddAll(s, pageId, url, title, chunks, embeddings, n).0.documents,
                        AddAll(s, pageId, url, title, chunks, embeddings, n).1, chunks, Accepted(s, embeddings, n))
  {
    var t := AddAll(s, pageId, url, title, chunks, embeddings, n - 1).0;
    var ids := AddAll(s, pageId, url, title, chunks, embeddings, n - 1).1;
    AddAllRound(s, pageId, url, title, chunks, embeddings, n, t, ids);
    AddChunks(s, t, ids, Accepted(s, embeddings, n - 1), pageId, url, title, chunks, embeddings, n - 1,
              AddAll(s, pageId, url, title, chunks, embeddings, n).0,
              AddAll(s, pageId, url, title, chunks, embeddings, n).1, Accepted(s, embeddings, n));
  }

  /** The vectors and the documents together give `Placed`. */
  lemma PlacedOf(s: Store, t: Store, ids: seq<nat>, p: seq<nat>,
                 chunks: seq<TextChunker.Chunk>, embeddings: seq<seq<real>>)
    requires |ids| == |p| && t.vectors == s.vectors + Entries(ids, p, embeddings)
    requires ChunksMatch(t.documents, ids, chunks, p)
    requires forall m :: 0 <= m < |p| ==> p[m] < |embeddings|
    requires forall m, m' :: 0 <= m < m' < |p| ==> p[m] < p[m']
    ensures Placed(s, t, ids, p, chunks, embeddings)
  {
    forall m | 0 <= m < |p|
      ensures ids[m] in t.documents && t.documents[ids[m]].chunk == chunks[p[m]]
      ensures t.vectors[|s.vectors| + m] == Entry(ids[m], embeddings[p[m]])
    {
      ChunksMatchAt(t.documents, ids, chunks, p, m);
      EntriesAt(ids, p, embeddings, m);
    }
    assert t.vectors[..|s.vectors|] == s.vectors;
  }

  /** The store fold places the chunk and the embedding at each accepted
      position under the id collected for it, in chunk order, after the
      old vectors. */
  lemma AddAllPlaced(s: Store, pageId: string, url: string, title: string,
                     chunks: seq<TextChunker.Chunk>, embeddings: seq<seq<real>>, n: nat)
    requires Valid(s) && n <= |chunks| && n <= |embeddings|
    ensures Placed(s, AddAll(s, pageId, url, title, chunks, embeddings, n).0,
                   AddAll(s, pageId, url, title, chunks, embeddings, n).1,
                   Accepted(s, embeddings, n), chunks, embeddings)
  {
    AddAllVectors(s, pageId, url, title, chunks, embeddings, n);
    AddAllChunks(s, pageId, url, title, chunks, embeddings, n);
    AcceptedIncrease(s, embeddings, n);
    PlacedOf(s, AddAll(s, pageId, url, title, chunks, embeddings, n).0,
             AddAll(s, pageId, url, title, chunks, embeddings, n).1,
             Accepted(s, embeddings, n), chunks, embeddings);
  }

  /** The states of the indexer's three components. */
  datatype Components = Components(engine: Engine, store: Store, pages: PageIndex)

  ghost predicate ComponentsValid(c: Components)
  {
    EngineValid(c.engine) && Valid(c.store) && PagesValid(c.pages)
  }

  datatype StepResult = StepResult(after: Components, report: IndexReport)

  datatype BatchResult = BatchResult(after: Components, reports: seq<IndexReport>)

  /** `indexContent(pageId, url, title, content)` given the page's chunks:
      the chunk texts are embedded as passages, each chunk is stored with its
      embedding, and the page is recorded. */
  function IndexStep(c: Components, model: Model, pageId: string, url: string, title: string,
                     chunks: seq<TextChunker.Chunk>): StepResult
  {
    if |chunks| == 0 then StepResult(c, IndexReport(pageId, 0, []))
    else
      var texts := Texts(chunks);
      var embeddings := BatchSlots(c.engine, model, texts, "passage");
      var (t, ids) := AddAll(c.store, pageId, url, title, chunks, embeddings, |chunks|);
      StepResult(Components(c.engine.(cache := BatchCache(c.engine, model, texts, "passage")), t,
                            SetPage(c.pages, PageRecord(pageId, url, title, |chunks|, ids))),
                 IndexReport(pageId, |chunks|, ids))
  }

  /** `IndexStep` on a page with chunks, given the store fold's outcome. */
  lemma IndexStepStored(c: Components, model: Model, pageId: string, url: string, title: string,
                        chunks: seq<TextChunker.Chunk>, t: Store, ids: seq<nat>)
    requires |chunks| > 0
    requires (t, ids) == AddAll(c.store, pageId, url, title, chunks,
                                BatchSlots(c.engine, model, Texts(chunks), "passage"), |chunks|)
    ensures IndexStep(c, model, pageId, url, title, chunks)
      == StepResult(Components(c.engine.(cache := BatchCache(c.engine, model, Texts(chunks), "passage")), t,
                               SetPage(c.pages, PageRecord(pageId, url, title, |chunks|, ids))),
                    IndexReport(pageId, |chunks|, ids))
  {
  }

  /** A page without chunks changes nothing. Otherwise every component stays
      valid with its settings, the page is recorded with its chunk count and
      the ids of the stored chunks while other pages' records are kept, and
      the report counts the chunks and lists those ids, consecutive fresh
      ids each holding a document of the page, with the chunk and the
      embedding of the accepted positions in chunk order. */
  lemma IndexStepFacts(c: Components, model: Model, pageId: string, url: string, title: string,
                       chunks: seq<TextChunker.Chunk>)
    requires ComponentsValid(c)
    ensures ComponentsValid(IndexStep(c, model, pageId, url, title, chunks).after)
    ensures IndexStep(c, model, pageId, url, title, chunks).after.engine.modelName == c.engine.modelName
    ensures IndexStep(c, model, pageId, url, title, chunks).after.engine.dimension == c.engine.dimension
    ensures IndexStep(c, model, pageId, url, title, chunks).after.engine.maxCacheSize == c.engine.maxCacheSize
    ensures IndexStep(c, model, pageId, url, title, chunks).report.pageId == pageId
    ensures IndexStep(c, model, pageId, url, title, chunks).report.chunksIndexed == |chunks|
    ensures |IndexStep(c, model, pageId, url, title, chunks).report.vectorIds| <= |chunks|
    ensures |chunks| == 0 ==> IndexStep(c, model, pageId, url, title, chunks) == StepResult(c, IndexReport(pageId, 0, []))
    ensures |chunks| > 0 ==>
      IndexStep(c, model, pageId, url, title, chunks).after.pages.records
      == c.pages.records[pageId := PageRecord(pageId, url, title, |chunks|,
                                              IndexStep(c, model, pageId, url, title, chunks).report.vectorIds)]
    ensures Stored(c.store, IndexStep(c, model, pageId, url, title, chunks).after.store,
                   IndexStep(c, model, pageId, url, title, chunks).report.vectorIds, pageId, url, title)
    ensures |chunks| > 0 ==>
      Placed(c.store, IndexStep(c, model, pageId, url, title, chunks).after.store,
             IndexStep(c, model, pageId, url, title, chunks).report.vectorIds,
             Accepted(c.store, BatchSlots(c.engine, model, Texts(chunks), "passage"), |chunks|),
             chunks, BatchSlots(c.engine, model, Texts(chunks), "passage"))
  {
    if |chunks| > 0 {
      var texts := Texts(chunks);
      var embeddings := BatchSlots(c.engine, model, texts, "passage");
      AddAllFacts(c.store, pageId, url, title, chunks, embeddings, |chunks|);
      AddAllPlaced(c.store, pageId, url, title, chunks, embeddings, |chunks|);
      BatchCacheFacts(c.engine, model, texts, "passage");
      var (t, ids) := AddAll(c.store, pageId, url, title, chunks, embeddings, |chunks|);
      SetPageFacts(c.pages, PageRecord(pageId, url, title, |chunks|, ids));
    }
  }

  /** The chunks `chunkText` makes of each page under `cfg`. */
  function PageChunks(cfg: TextChunker.Config, pages: seq<Page>): (r: seq<seq<TextChunker.Chunk>>)
    requires TextChunker.ValidConfig(cfg)
    ensures |r| == |pages|
  {
    seq(|pages|, i requires 0 <= i < |pages| => TextChunker.ChunkSpec(cfg, pages[i].content, pages[i].title))
  }

  /** Pages indexed in turn, `pages[i]` with the chunks `chunks[i]`. */
  function BatchOver(c: Components, model: Model, pages: seq<Page>, chunks: seq<seq<TextChunker.Chunk>>): (r: BatchResult)
    requires |chunks| == |pages|
    ensures |r.reports| == |pages|
  {
    if |pages| == 0 then BatchResult(c, [])
    else
      var n := |pages| - 1;
      var b := BatchOver(c, model, pages[..n], chunks[..n]);
      var st := IndexStep(b.after, model, pages[n].pageId, pages[n].url, pages[n].title, chunks[n]);
      BatchResult(st.after, b.reports + [st.report])
  }

  /** `indexContentBatch(pages)`: each page indexed in turn with the chunks
      `chunkText` makes of it under `cfg`. */
  function BatchStep(c: Components, model: Model, cfg: TextChunker.Config, pages: seq<Page>): (r: BatchResult)
    requires TextChunker.ValidConfig(cfg)
    ensures |r.reports| == |pages|
  {
    BatchOver(c, model, pages, PageChunks(cfg, pages))
  }

  lemma BatchOverUnfold(c: Components, model: Model, pages: seq<Page>, chunks: seq<seq<TextChunker.Chunk>>)
    requires |chunks| == |pages| && |pages| > 0
    ensures BatchOver(c, model, pages, chunks)
      == BatchResult(IndexStep(BatchOver(c, model, pages[..|pages| - 1], chunks[..|pages| - 1]).after, model,
                               pages[|pages| - 1].pageId, pages[|pages| - 1].url, pages[|pages| - 1].title,
                               chunks[|pages| - 1]).after,
                     BatchOver(c, model, pages[..|pages| - 1], chunks[..|pages| - 1]).reports
                     + [IndexStep(BatchOver(c, model, pages[..|pages| - 1], chunks[..|pages| - 1]).after, model,
                                  pages[|pages| - 1].pageId, pages[|pages| - 1].url, pages[|pages| - 1].title,
                                  chunks[|pages| - 1]).report])
  {
  }

  /** The part of `IndexStepFacts` a batch relies on: every component stays
      valid, recorded pages stay recorded, a page with chunks becomes
      recorded, and stored documents are kept. */
  lemma IndexStepKeeps(c: Components, model: Model, pageId: string, url: string, title: string,
                       chunks: seq<TextChunker.Chunk>)
    requires ComponentsValid(c)
    ensures ComponentsValid(IndexStep(c, model, pageId, url, title, chunks).after)
    ensures forall id :: id in c.pages.records ==> id in IndexStep(c, model, pageId, url, title, chunks).after.pages.records
    ensures |chunks| > 0 ==> pageId in IndexStep(c, model, pageId, url, title, chunks).after.pages.records
    ensures forall id :: id in c.store.documents ==>
      id in IndexStep(c, model, pageId, url, title, chunks).after.store.documents
      && IndexStep(c, model, pageId, url, title, chunks).after.store.documents[id] == c.store.documents[id]
  {
    IndexStepFacts(c, model, pageId, url, title, chunks);
  }

  /** The last page of a batch keeps what `IndexStepKeeps` promises. */
  lemma BatchOverStep(c: Components, model: Model, pages: seq<Page>, chunks: seq<seq<TextChunker.Chunk>>)
    requires |chunks| == |pages| && |pages| > 0
    requires ComponentsValid(BatchOver(c, model, pages[..|pages| - 1], chunks[..|pages| - 1]).after)
    ensures ComponentsValid(BatchOver(c, model, pages, chunks).after)
    ensures forall id :: id in BatchOver(c, model, pages[..|pages| - 1], chunks[..|pages| - 1]).after.pages.records ==>
      id in BatchOver(c, model, pages, chunks).after.pages.records
    ensures |chunks[|pages| - 1]| > 0 ==>
      pages[|pages| - 1].pageId in BatchOver(c, model, pages, chunks).after.pages.records
    ensures forall id :: id in BatchOver(c, model, pages[..|pages| - 1], chunks[..|pages| - 1]).after.store.documents ==>
      id in BatchOver(c, model, pages, chunks).after.store.documents
      && BatchOver(c, model, pages, chunks).after.store.documents[id]
         == BatchOver(c, model, pages[..|pages| - 1], chunks[..|pages| - 1]).after.store.documents[id]
  {
    var n := |pages| - 1;
    var b := BatchOver(c, model, pages[..n], chunks[..n]);
    IndexStepKeeps(b.after, model, pages[n].pageId, pages[n].url, pages[n].title, chunks[n]);
    BatchOverUnfold(c, model, pages, chunks);
    assert BatchOver(c, model, pages, chunks).after
        == IndexStep(b.after, model, pages[n].pageId, pages[n].url, pages[n].title, chunks[n]).after;
  }

  /** A batch reports once per page, in order, with that page's id and
      chunk count. */
  lemma {:induction false} BatchReports(c: Components, model: Model, pages: seq<Page>,
                                        chunks: seq<seq<TextChunker.Chunk>>)
    requires |chunks| == |pages|
    ensures forall i :: 0 <= i < |pages| ==>
      BatchOver(c, model, pages, chunks).reports[i].pageId == pages[i].pageId
      && BatchOver(c, model, pages, chunks).reports[i].chunksIndexed == |chunks[i]|
  {
    if |pages| > 0 {
      var n := |pages| - 1;
      BatchReports(c, model, pages[..n], chunks[..n]);
      BatchOverUnfold(c, model, pages, chunks);
      var b := BatchOver(c, model, pages[..n], chunks[..n]);
      var r := BatchOver(c, model, pages, chunks);
      forall i | 0 <= i < |pages|
        ensures r.reports[i].pageId == pages[i].pageId && r.reports[i].chunksIndexed == |chunks[i]|
      {
        if i < n {
          assert pages[..n][i] == pages[i] && chunks[..n][i] == chunks[i] && r.reports[i] == b.reports[i];
        }
      }
    }
  }

  /** After a batch every component is still valid, every page indexed
      before still is, and every document stored before still is. */
  lemma {:induction false} BatchKeeps(c: Components, model: Model, pages: seq<Page>,
                                      chunks: seq<seq<TextChunker.Chunk>>)
    requires |chunks| == |pages| && ComponentsValid(c)
    ensures ComponentsValid(BatchOver(c, model, pages, chunks).after)
    ensures forall id :: id in c.pages.records ==> id in BatchOver(c, model, pages, chunks).after.pages.records
    ensures forall id :: id in c.store.documents ==>
      id in BatchOver(c, model, pages, chunks).after.store.documents
      && BatchOver(c, model, pages, chunks).after.store.documents[id] == c.store.documents[id]
  {
    if |pages| > 0 {
      var n := |pages| - 1;
      BatchKeeps(c, model, pages[..n], chunks[..n]);
      BatchOverStep(c, model, pages, chunks);
    }
  }

  /** After a batch every page of it that produced chunks is indexed. */
  lemma {:induction false} BatchIndexes(c: Components, model: Model, pages: seq<Page>,
                                        chunks: seq<seq<TextChunker.Chunk>>)
    requires |chunks| == |pages| && ComponentsValid(c)
    ensures forall i :: 0 <= i < |pages| && |chunks[i]| > 0 ==>
      pages[i].pageId in BatchOver(c, model, pages, chunks).after.pages.records
  {
    if |pages| > 0 {
      var n := |pages| - 1;
      BatchIndexes(c, model, pages[..n], chunks[..n]);
      BatchKeeps(c, model, pages[..n], chunks[..n]);
      BatchOverStep(c, model, pages, chunks);
      var r := BatchOver(c, model, pages, chunks);
      forall i | 0 <= i < |pages| && |chunks[i]| > 0
        ensures pages[i].pageId in r.after.pages.records
      {
        if i < n {
          assert pages[..n][i] == pages[i] && chunks[..n][i] == chunks[i];
        }
      }
    }
  }

  /** The positions of `chunks[i]` whose insert the store accepts when a
      batch indexes page `i`, from the state the batch has reached then. */
  ghost function BatchAccepted(c: Components, model: Model, pages: seq<Page>, chunks: seq<seq<TextChunker.Chunk>>,
                               i: nat): seq<nat>
    requires |chunks| == |pages| && i < |pages|
  {
    var b := BatchOver(c, model, pages[..i], chunks[..i]).after;
    Accepted(b.store, BatchSlots(b.engine, model, Texts(chunks[i]), "passage"), |chunks[i]|)
  }

  /** Documents that stay as they were keep matching their chunks; the
      primed arguments are the same ids, chunks and positions. */
  lemma {:induction false} ChunksMatchKeep(docs: map<nat, Document>, docs': map<nat, Document>, ids: seq<nat>, ids': seq<nat>,
                                           chunks: seq<TextChunker.Chunk>, chunks': seq<TextChunker.Chunk>, p: seq<nat>, p': seq<nat>)
    requires ChunksMatch(docs, ids, chunks, p)
    requires forall id :: id in docs ==> id in docs' && docs'[id] == docs[id]
    requires ids' == ids && chunks' == chunks && p' == p
    ensures ChunksMatch(docs', ids', chunks', p')
    decreases |ids|
  {
    if |ids| > 0 {
      var n := |ids| - 1;
      ChunksMatchKeep(docs, docs', ids[..n], ids[..n], chunks, chunks, p[..n], p[..n]);
    }
  }

  /** Extending a batch leaves the reports and the accepted positions of
      its earlier pages as they were. */
  lemma BatchPrefix(c: Components, model: Model, pages: seq<Page>, chunks: seq<seq<TextChunker.Chunk>>, i: nat)
    requires |chunks| == |pages| && i < |pages| - 1
    ensures BatchOver(c, model, pages, chunks).reports[i].vectorIds
      == BatchOver(c, model, pages[..|pages| - 1], chunks[..|pages| - 1]).reports[i].vectorIds
    ensures chunks[i] == chunks[..|pages| - 1][i]
    ensures BatchAccepted(c, model, pages, chunks, i)
      == BatchAccepted(c, model, pages[..|pages| - 1], chunks[..|pages| - 1], i)
  {
    var n := |pages| - 1;
    assert BatchOver(c, model, pages, chunks).reports[i] == BatchOver(c, model, pages[..n], chunks[..n]).reports[i] by {
      BatchOverUnfold(c, model, pages, chunks);
    }
    assert pages[..n][..i] == pages[..i] && chunks[..n][..i] == chunks[..i];
    assert chunks[..n][i] == chunks[i];
  }

  /** The page indexed last holds its chunks in the batch's final store. */
  lemma BatchLastHolds(c: Components, model: Model, pages: seq<Page>, chunks: seq<seq<TextChunker.Chunk>>)
    requires |chunks| == |pages| && |pages| > 0
    requires ComponentsValid(BatchOver(c, model, pages[..|pages| - 1], chunks[..|pages| - 1]).after)
    ensures ChunksMatch(BatchOver(c, model, pages, chunks).after.store.documents,
                        BatchOver(c, model, pages, chunks).reports[|pages| - 1].vectorIds, chunks[|pages| - 1],
                        BatchAccepted(c, model, pages, chunks, |pages| - 1))
  {
    var n := |pages| - 1;
    var b := BatchOver(c, model, pages[..n], chunks[..n]).after;
    var embeddings := BatchSlots(b.engine, model, Texts(chunks[n]), "passage");
    AddAllChunks(b.store, pages[n].pageId, pages[n].url, pages[n].title, chunks[n], embeddings, |chunks[n]|);
    BatchOverUnfold(c, model, pages, chunks);
  }

  /** A page indexed before the last keeps, in the batch's final store,
      the chunks it held after its own step. */
  lemma BatchEarlierHolds(c: Components, model: Model, pages: seq<Page>, chunks: seq<seq<TextChunker.Chunk>>,
                          n: nat, i: nat)
    requires |chunks| == |pages| && n == |pages| - 1 && i < n
    requires ChunksMatch(BatchOver(c, model, pages[..n], chunks[..n]).after.store.documents,
                         BatchOver(c, model, pages[..n], chunks[..n]).reports[i].vectorIds,
                         chunks[..n][i], BatchAccepted(c, model, pages[..n], chunks[..n], i))
    requires forall id :: id in BatchOver(c, model, pages[..n], chunks[..n]).after.store.documents ==>
      id in BatchOver(c, model, pages, chunks).after.store.documents
      && BatchOver(c, model, pages, chunks).after.store.documents[id]
         == BatchOver(c, model, pages[..n], chunks[..n]).after.store.documents[id]
    ensures ChunksMatch(BatchOver(c, model, pages, chunks).after.store.documents,
                        BatchOver(c, model, pages, chunks).reports[i].vectorIds, chunks[i],
                        BatchAccepted(c, model, pages, chunks, i))
  {
    BatchPrefix(c, model, pages, chunks, i);
    ChunksMatchKeep(BatchOver(c, model, pages[..n], chunks[..n]).after.store.documents,
                    BatchOver(c, model, pages, chunks).after.store.documents,
                    BatchOver(c, model, pages[..n], chunks[..n]).reports[i].vectorIds,
                    BatchOver(c, model, pages, chunks).reports[i].vectorIds,
                    chunks[..n][i], chunks[i],
                    BatchAccepted(c, model, pages[..n], chunks[..n], i), BatchAccepted(c, model, pages, chunks, i));
  }

  /** In a batch, page `i`'s report lists ids whose documents in the final
      store hold that page's chunks at the positions its inserts accepted,
      in chunk order. */
  lemma BatchHoldsAt(c: Components, model: Model, pages: seq<Page>, chunks: seq<seq<TextChunker.Chunk>>, i: nat)
    requires |chunks| == |pages| && ComponentsValid(c) && i < |pages|
    ensures ChunksMatch(BatchOver(c, model, pages, chunks).after.store.documents,
                        BatchOver(c, model, pages, chunks).reports[i].vectorIds, chunks[i],
                        BatchAccepted(c, model, pages, chunks, i))
    decreases |pages|
  {
    var n := |pages| - 1;
    BatchKeeps(c, model, pages[..n], chunks[..n]);
    if i == n {
      BatchLastHolds(c, model, pages, chunks);
    } else {
      BatchHoldsAt(c, model, pages[..n], chunks[..n], i);
      BatchOverStep(c, model, pages, chunks);
      BatchEarlierHolds(c, model, pages, chunks, n, i);
    }
  }

  /** `indexContentBatch` reports once per page, in order, with that page's
      id and the number of chunks `chunkText` makes of it; afterwards every
      page that produced chunks is indexed, every page indexed before still
      is, every document stored before still is, every component is still
      valid, and the ids each report lists hold that page's chunks at the
      positions its inserts accepted, in chunk order. */
  lemma BatchStepFacts(c: Components, model: Model, cfg: TextChunker.Config, pages: seq<Page>)
    requires TextChunker.ValidConfig(cfg) && ComponentsValid(c)
    ensures ComponentsValid(BatchStep(c, model, cfg, pages).after)
    ensures forall i :: 0 <= i < |pages| ==>
      BatchStep(c, model, cfg, pages).reports[i].pageId == pages[i].pageId
      && BatchStep(c, model, cfg, pages).reports[i].chunksIndexed
         == |TextChunker.ChunkSpec(cfg, pages[i].content, pages[i].title)|
    ensures forall i :: 0 <= i < |pages| && |TextChunker.ChunkSpec(cfg, pages[i].content, pages[i].title)| > 0 ==>
      pages[i].pageId in BatchStep(c, model, cfg, pages).after.pages.records
    ensures forall id :: id in c.pages.records ==> id in BatchStep(c, model, cfg, pages).after.pages.records
    ensures forall id :: id in c.store.documents ==>
      id in BatchStep(c, model, cfg, pages).after.store.documents
      && BatchStep(c, model, cfg, pages).after.store.documents[id] == c.store.documents[id]
    ensures forall i :: 0 <= i < |pages| ==>
      ChunksMatch(BatchStep(c, model, cfg, pages).after.store.documents,
                  BatchStep(c, model, cfg, pages).reports[i].vectorIds, PageChunks(cfg, pages)[i],
                  BatchAccepted(c, model, pages, PageChunks(cfg, pages), i))
  {
    var chunks := PageChunks(cfg, pages);
    BatchReports(c, model, pages, chunks);
    BatchKeeps(c, model, pages, chunks);
    BatchIndexes(c, model, pages, chunks);
    forall i | 0 <= i < |pages|
      ensures ChunksMatch(BatchStep(c, model, cfg, pages).after.store.documents,
                          BatchStep(c, model, cfg, pages).reports[i].vectorIds, chunks[i],
                          BatchAccepted(c, model, pages, chunks, i))
    {
      BatchHoldsAt(c, model, pages, chunks, i);
    }
  }

  // ---------------------------------------------------------------------
  // deduplicateByPage

  function PageOf(h: Hit): string { h.scored.doc.pageId }

  function HitSimilarity(h: Hit): real { h.scored.similarity }

  /** `pageMap` after the loop has seen `hs[..n]`: pages in first-seen order
      and the hit kept for each. A later hit replaces the kept one only
      when its similarity is strictly higher. */
  datatype PageMap = PageMap(order: seq<string>, best: map<string, Hit>)

  function Choose(hs: seq<Hit>, n: nat): (m: PageMap)
    requires n <= |hs|
    ensures forall i :: 0 <= i < |m.order| ==> m.order[i] in m.best
  {
    if n == 0 then PageMap([], map[])
    else
      var m := Choose(hs, n - 1);
      var h := hs[n - 1];
      if PageOf(h) !in m.best then PageMap(m.order + [PageOf(h)], m.best[PageOf(h) := h])
      else if HitSimilarity(m.best[PageOf(h)]) < HitSimilarity(h) then m.(best := m.best[PageOf(h) := h])
      else m
  }

  /** `Array.from(pageMap.values())`. */
  function MapValues(m: PageMap): (vs: seq<Hit>)
    requires forall i :: 0 <= i < |m.order| ==> m.order[i] in m.best
    ensures |vs| == |m.order|
  {
    seq(|m.order|, i requires 0 <= i < |m.order| => m.best[m.order[i]])
  }

  /** `deduplicateByPage(results)`. */
  function Dedup(hs: seq<Hit>): seq<Hit>
  {
    SortDesc(MapValues(Choose(hs, |hs|)), HitSimilarity)
  }

  /** `h` is the hit kept for page `p` among `hs[..n]`: one of them, of
      page `p`, with the highest similarity of the page, and the first such:
      every earlier hit of the page is strictly lower. */
  ghost predicate Chosen(hs: seq<Hit>, n: nat, p: string, h: Hit)
    requires n <= |hs|
  {
    PageOf(h) == p
    && exists k :: 0 <= k < n && hs[k] == h
         && (forall j :: 0 <= j < n && PageOf(hs[j]) == p ==> HitSimilarity(hs[j]) <= HitSimilarity(h))
         && (forall j :: 0 <= j < k && PageOf(hs[j]) == p ==> HitSimilarity(hs[j]) < HitSimilarity(h))
  }

  /** The pages of the map: first-seen order without repeats, and exactly
      the pages of `hs[..n]`. */
  lemma {:induction false} ChooseKeys(hs: seq<Hit>, n: nat)
    requires n <= |hs|
    ensures |Choose(hs, n).order| <= n
    ensures forall i, j :: 0 <= i < j < |Choose(hs, n).order| ==> Choose(hs, n).order[i] != Choose(hs, n).order[j]
    ensures forall p :: p in Choose(hs, n).best <==> p in Choose(hs, n).order
    ensures forall p :: p in Choose(hs, n).best <==> exists k :: 0 <= k < n && PageOf(hs[k]) == p
  {
    if n > 0 {
      ChooseKeys(hs, n - 1);
      var m0 := Choose(hs, n - 1);
      var m := Choose(hs, n);
      var p := PageOf(hs[n - 1]);
      if p !in m0.best {
        forall i, j | 0 <= i < j < |m.order| ensures m.order[i] != m.order[j] {
          if j == |m0.order| {
            assert m.order[i] == m0.order[i] && m0.order[i] in m0.order;
          } else {
            assert m.order[i] == m0.order[i] && m.order[j] == m0.order[j];
          }
        }
      }
      forall q ensures q in m.best <==> exists k :: 0 <= k < n && PageOf(hs[k]) == q {
        if q == p {
          assert PageOf(hs[n - 1]) == q;
        } else if q in m.best {
          assert q in m0.best;
          var k :| 0 <= k < n - 1 && PageOf(hs[k]) == q;
        }
      }
    }
  }

  lemma ChosenExtend(hs: seq<Hit>, n: nat, p: string, h: Hit)
    requires 0 < n <= |hs| && Chosen(hs, n - 1, p, h)
    requires PageOf(hs[n - 1]) == p ==> HitSimilarity(hs[n - 1]) <= HitSimilarity(h)
    ensures Chosen(hs, n, p, h)
  {
    var k :| 0 <= k < n - 1 && hs[k] == h
      && (forall j :: 0 <= j < n - 1 && PageOf(hs[j]) == p ==> HitSimilarity(hs[j]) <= HitSimilarity(h))
      && (forall j :: 0 <= j < k && PageOf(hs[j]) == p ==> HitSimilarity(hs[j]) < HitSimilarity(h));
    assert hs[k] == h;
  }

  lemma ChosenLast(hs: seq<Hit>, n: nat)
    requires 0 < n <= |hs|
    requires forall j :: 0 <= j < n - 1 && PageOf(hs[j]) == PageOf(hs[n - 1]) ==>
      HitSimilarity(hs[j]) < HitSimilarity(hs[n - 1])
    ensures Chosen(hs, n, PageOf(hs[n - 1]), hs[n - 1])
  {
    assert hs[n - 1] == hs[n - 1];
  }

  lemma ChosenBound(hs: seq<Hit>, n: nat, p: string, h: Hit)
    requires n <= |hs| && Chosen(hs, n, p, h)
    ensures forall j :: 0 <= j < n && PageOf(hs[j]) == p ==> HitSimilarity(hs[j]) <= HitSimilarity(h)
  {
  }

  /** The hit kept for each page is the first one with the page's highest
      similarity. */
  lemma {:induction false} ChooseBest(hs: seq<Hit>, n: nat)
    requires n <= |hs|
    ensures forall p :: p in Choose(hs, n).best ==> Chosen(hs, n, p, Choose(hs, n).best[p])
  {
    if n > 0 {
      ChooseBest(hs, n - 1);
      ChooseKeys(hs, n - 1);
      var m0 := Choose(hs, n - 1);
      var m := Choose(hs, n);
      var h := hs[n - 1];
      var p := PageOf(h);
      forall q | q in m.best ensures Chosen(hs, n, q, m.best[q]) {
        if q != p {
          assert m.best[q] == m0.best[q];
          ChosenExtend(hs, n, q, m0.best[q]);
        } else if p !in m0.best {
          assert forall j :: 0 <= j < n - 1 ==> PageOf(hs[j]) != p;
          ChosenLast(hs, n);
        } else if HitSimilarity(m0.best[p]) < HitSimilarity(h) {
          ChosenBound(hs, n - 1, p, m0.best[p]);
          ChosenLast(hs, n);
        } else {
          ChosenExtend(hs, n, p, m0.best[p]);
        }
      }
    }
  }

  lemma MapValuesChosen(hs: seq<Hit>)
    ensures forall i :: 0 <= i < |Choose(hs, |hs|).order| ==>
      Chosen(hs, |hs|, Choose(hs, |hs|).order[i], MapValues(Choose(hs, |hs|))[i])
  {
    ChooseBest(hs, |hs|);
    ChooseKeys(hs, |hs|);
  }

  /** The deduplicated results are sorted by non-increasing similarity, hold
      one hit per page and no more hits than the input. */
  lemma DedupShape(hs: seq<Hit>)
    ensures SortedDesc(Dedup(hs), HitSimilarity)
    ensures DistinctBy(Dedup(hs), PageOf)
    ensures |Dedup(hs)| <= |hs|
  {
    var m := Choose(hs, |hs|);
    ChooseKeys(hs, |hs|);
    MapValuesChosen(hs);
    var vals := MapValues(m);
    assert DistinctBy(vals, PageOf) by {
      forall i, j | 0 <= i < j < |vals| ensures PageOf(vals[i]) != PageOf(vals[j]) {
        assert PageOf(vals[i]) == m.order[i];
      }
    }
    SortDescDistinct(vals, HitSimilarity, PageOf);
    SortDescSorted(vals, HitSimilarity);
    SortDescPermutes(vals, HitSimilarity);
  }

  /** Every deduplicated hit is the one kept for its page. */
  lemma DedupChosen(hs: seq<Hit>)
    ensures forall h :: h in Dedup(hs) ==> h in hs && Chosen(hs, |hs|, PageOf(h), h)
  {
    var m := Choose(hs, |hs|);
    MapValuesChosen(hs);
    var vals := MapValues(m);
    forall h | h in Dedup(hs) ensures h in hs && Chosen(hs, |hs|, PageOf(h), h) {
      SortDescMember(vals, HitSimilarity, h);
      var i :| 0 <= i < |vals| && vals[i] == h;
      assert Chosen(hs, |hs|, m.order[i], h);
      assert PageOf(h) == m.order[i];
      var k :| 0 <= k < |hs| && hs[k] == h;
    }
  }

  /** Every page of the input is represented. */
  lemma DedupCovers(hs: seq<Hit>)
    ensures forall k :: 0 <= k < |hs| ==> exists h :: h in Dedup(hs) && PageOf(h) == PageOf(hs[k])
  {
    var m := Choose(hs, |hs|);
    ChooseKeys(hs, |hs|);
    MapValuesChosen(hs);
    var vals := MapValues(m);
    forall k | 0 <= k < |hs| ensures exists h :: h in Dedup(hs) && PageOf(h) == PageOf(hs[k]) {
      var p := PageOf(hs[k]);
      assert p in m.best;
      var i :| 0 <= i < |m.order| && m.order[i] == p;
      assert PageOf(vals[i]) == p;
      SortDescMember(vals, HitSimilarity, vals[i]);
    }
  }

  /** The deduplicated results: sorted by non-increasing similarity, one per
      page, no more than the input, each the first highest-scoring hit of
      its page, and every page of the input represented. */
  lemma DedupFacts(hs: seq<Hit>)
    ensures SortedDesc(Dedup(hs), HitSimilarity)
    ensures DistinctBy(Dedup(hs), PageOf)
    ensures |Dedup(hs)| <= |hs|
    ensures forall h :: h in Dedup(hs) ==> h in hs && Chosen(hs, |hs|, PageOf(h), h)
    ensures forall k :: 0 <= k < |hs| ==> exists h :: h in Dedup(hs) && PageOf(h) == PageOf(hs[k])
  {
    DedupShape(hs);
    DedupChosen(hs);
    DedupCovers(hs);
  }

  // ---------------------------------------------------------------------
  // generateSnippet

  /** `queryWords.filter(word => window.includes(word)).length`. */
  function MatchCount(window: string, words: seq<string>): (c: nat)
    ensures c <= |words|
  {
    if |words| == 0 then 0
    else MatchCount(window, words[..|words| - 1]) + (if Contains(window, words[|words| - 1]) then 1 else 0)
  }

  /** No word matches exactly when the count is 0, and every word matches
      exactly when it is the number of words. */
  lemma {:induction false} MatchCountFacts(window: string, words: seq<string>)
    ensures MatchCount(window, words) == 0 <==> forall i :: 0 <= i < |words| ==> !Contains(window, words[i])
    ensures MatchCount(window, words) == |words| <==> forall i :: 0 <= i < |words| ==> Contains(window, words[i])
  {
    if |words| > 0 {
      var init := words[..|words| - 1];
      MatchCountFacts(window, init);
      assert forall i :: 0 <= i < |init| ==> init[i] == words[i];
    }
  }

  function Window(tl: string, i: nat, maxLength: nat): string
    requires i + maxLength <= |tl|
  {
    tl[i..i + maxLength]
  }

  /** `bestPosition` and `maxMatches` after the first `n` windows, the
      window number `w` starting at `50 * w`. */
  function Scan(tl: string, words: seq<string>, maxLength: nat, n: nat): (r: (nat, nat))
    requires n == 0 || 50 * (n - 1) + maxLength < |tl|
    ensures r.0 % 50 == 0 && (n == 0 ==> r == (0, 0)) && (n > 0 ==> r.0 <= 50 * (n - 1))
  {
    if n == 0 then (0, 0)
    else
      var (best, most) := Scan(tl, words, maxLength, n - 1);
      var i := 50 * (n - 1);
      var matches := MatchCount(Window(tl, i, maxLength), words);
      if matches > most then (i, matches) else (best, most)
  }

  /** After `n` windows the best position holds the highest count seen, no
      earlier window reaches it, and the position stays 0 while nothing
      matches. */
  lemma {:induction false} ScanFacts(tl: string, words: seq<string>, maxLength: nat, n: nat)
    requires n > 0 && 50 * (n - 1) + maxLength < |tl|
    ensures var (b, most) := Scan(tl, words, maxLength, n);
      MatchCount(Window(tl, b, maxLength), words) == most
      && (forall i :: 0 <= i < 50 * n && i % 50 == 0 ==> MatchCount(Window(tl, i, maxLength), words) <= most)
      && (forall i :: 0 <= i < b && i % 50 == 0 ==> MatchCount(Window(tl, i, maxLength), words) < most)
      && (most == 0 ==> b == 0)
  {
    var i := 50 * (n - 1);
    var matches := MatchCount(Window(tl, i, maxLength), words);
    if n > 1 {
      ScanFacts(tl, words, maxLength, n - 1);
    }
  }

  /** The number of loop rounds: the positions `0, 50, ...` below `L`. */
  function WindowCount(L: nat): (w: nat)
    ensures 50 * w >= L && (L > 0 ==> w > 0 && 50 * (w - 1) < L)
  {
    (L + 49) / 50
  }

  /** Where the snippet of a text longer than `maxLength` starts. */
  function SnippetStart(text: string, query: string, maxLength: nat): (b: nat)
    requires |text| > maxLength
    ensures b + maxLength < |text|
  {
    Scan(ToLower(text), Split(ToLower(query)), maxLength, WindowCount(|text| - maxLength)).0
  }

  /** `generateSnippet(text, query, maxLength)`. */
  function Snippet(text: string, query: string, maxLength: nat): string
  {
    if |text| <= maxLength then text
    else
      var b := SnippetStart(text, query, maxLength);
      (if b > 0 then "..." else "") + text[b..b + maxLength] + (if b + maxLength < |text| then "..." else "")
  }

  /** A text of at most `maxLength` characters is its own snippet. A longer
      one yields the window starting at a multiple of 50 whose lower-cased
      text contains the most query words, the first such, position 0 when no
      window contains any; it is ended by "..." always and started by "..."
      exactly when it does not begin the text. */
  lemma SnippetFacts(text: string, query: string, maxLength: nat)
    ensures |text| <= maxLength ==> Snippet(text, query, maxLength) == text
    ensures |text| > maxLength ==>
      var tl := ToLower(text);
      var words := Split(ToLower(query));
      var b := SnippetStart(text, query, maxLength);
      b % 50 == 0 && b + maxLength < |text|
      && (forall i :: 0 <= i && i + maxLength < |text| && i % 50 == 0 ==>
            MatchCount(Window(tl, i, maxLength), words) <= MatchCount(Window(tl, b, maxLength), words))
      && (forall i :: 0 <= i < b && i % 50 == 0 ==>
            MatchCount(Window(tl, i, maxLength), words) < MatchCount(Window(tl, b, maxLength), words))
      && (MatchCount(Window(tl, b, maxLength), words) == 0 ==> b == 0)
      && Snippet(text, query, maxLength) == (if b > 0 then "..." else "") + text[b..b + maxLength] + "..."
  {
    if |text| > maxLength {
      ScanFacts(ToLower(text), Split(ToLower(query)), maxLength, WindowCount(|text| - maxLength));
    }
  }

  // ---------------------------------------------------------------------
  // searchContent

  /** Step 5 of `searchContent`: ranks from 1 and the snippet of each hit's
      chunk. */
  function Format(top: seq<Hit>, query: string): (r: seq<SearchResult>)
    ensures |r| == |top|
  {
    seq(|top|, i requires 0 <= i < |top| =>
      var d := top[i].scored.doc;
      SearchResult(i + 1, d.pageId, d.url, d.title, top[i].scored.similarity,
                   Snippet(d.chunk.text, query, SnippetLength), d.chunk.source, d.chunk.text))
  }

  /** Steps 3 to 5 of `searchContent` on the database's hits. */
  function TopResults(hits: seq<Hit>, query: string, topK: nat): seq<SearchResult>
  {
    var dedup := Dedup(hits);
    Format(dedup[..Min(topK, |dedup|)], query)
  }

  /** Each result is ranked by its position and carries its hit's page,
      document fields, similarity, chunk source and chunk text, with the
      chunk's snippet. */
  lemma FormatFacts(top: seq<Hit>, query: string)
    ensures forall i :: 0 <= i < |top| ==>
      Format(top, query)[i].rank == i + 1
      && Format(top, query)[i].pageId == PageOf(top[i])
      && Format(top, query)[i].similarity == HitSimilarity(top[i])
      && Format(top, query)[i].url == top[i].scored.doc.url
      && Format(top, query)[i].title == top[i].scored.doc.title
      && Format(top, query)[i].chunkSource == top[i].scored.doc.chunk.source
      && Format(top, query)[i].matchedText == top[i].scored.doc.chunk.text
      && Format(top, query)[i].snippet == Snippet(top[i].scored.doc.chunk.text, query, SnippetLength)
  {
  }

  lemma TopShape(hits: seq<Hit>, query: string, topK: nat)
    ensures |TopResults(hits, query, topK)| <= topK && |TopResults(hits, query, topK)| <= |hits|
    ensures forall i :: 0 <= i < |TopResults(hits, query, topK)| ==> TopResults(hits, query, topK)[i].rank == i + 1
    ensures forall i, j :: 0 <= i < j < |TopResults(hits, query, topK)| ==>
      TopResults(hits, query, topK)[i].pageId != TopResults(hits, query, topK)[j].pageId
      && TopResults(hits, query, topK)[i].similarity >= TopResults(hits, query, topK)[j].similarity
  {
    DedupShape(hits);
    var dedup := Dedup(hits);
    var top := dedup[..Min(topK, |dedup|)];
    FormatFacts(top, query);
    var r := TopResults(hits, query, topK);
    forall i, j | 0 <= i < j < |r| ensures r[i].pageId != r[j].pageId && r[i].similarity >= r[j].similarity {
      assert top[i] == dedup[i] && top[j] == dedup[j];
    }
  }

  lemma TopBest(hits: seq<Hit>, query: string, topK: nat)
    ensures forall i :: 0 <= i < |TopResults(hits, query, topK)| ==>
      exists k :: 0 <= k < |hits| && PageOf(hits[k]) == TopResults(hits, query, topK)[i].pageId
        && HitSimilarity(hits[k]) == TopResults(hits, query, topK)[i].similarity
        && forall j :: 0 <= j < |hits| && PageOf(hits[j]) == TopResults(hits, query, topK)[i].pageId ==>
             HitSimilarity(hits[j]) <= TopResults(hits, query, topK)[i].similarity
  {
    DedupChosen(hits);
    var dedup := Dedup(hits);
    var top := dedup[..Min(topK, |dedup|)];
    FormatFacts(top, query);
    var r := TopResults(hits, query, topK);
    forall i | 0 <= i < |r|
      ensures exists k :: 0 <= k < |hits| && PageOf(hits[k]) == r[i].pageId && HitSimilarity(hits[k]) == r[i].similarity
                && forall j :: 0 <= j < |hits| && PageOf(hits[j]) == r[i].pageId ==> HitSimilarity(hits[j]) <= r[i].similarity
    {
      var h := top[i];
      assert h == dedup[i] && h in dedup;
      assert Chosen(hits, |hits|, PageOf(h), h);
      ChosenBound(hits, |hits|, PageOf(h), h);
      var k :| 0 <= k < |hits| && hits[k] == h;
      assert PageOf(hits[k]) == r[i].pageId && HitSimilarity(hits[k]) == r[i].similarity;
    }
  }

  lemma TopCovers(hits: seq<Hit>, query: string, topK: nat)
    ensures |TopResults(hits, query, topK)| < topK ==>
      forall k :: 0 <= k < |hits| ==>
        exists i :: 0 <= i < |TopResults(hits, query, topK)| && TopResults(hits, query, topK)[i].pageId == PageOf(hits[k])
  {
    DedupCovers(hits);
    var dedup := Dedup(hits);
    var top := dedup[..Min(topK, |dedup|)];
    FormatFacts(top, query);
    var r := TopResults(hits, query, topK);
    if |r| < topK {
      forall k | 0 <= k < |hits| ensures exists i :: 0 <= i < |r| && r[i].pageId == PageOf(hits[k]) {
        var h :| h in dedup && PageOf(h) == PageOf(hits[k]);
        var i :| 0 <= i < |dedup| && dedup[i] == h;
        assert r[i].pageId == PageOf(top[i]);
      }
    }
  }

  /** At most `topK` results ranked 1, 2, ..., one per page, by
      non-increasing similarity, each carrying the best similarity of its
      page among the hits; fewer than `topK` only when every page of the
      hits is listed. */
  lemma TopResultsFacts(hits: seq<Hit>, query: string, topK: nat)
    ensures |TopResults(hits, query, topK)| <= topK && |TopResults(hits, query, topK)| <= |hits|
    ensures forall i :: 0 <= i < |TopResults(hits, query, topK)| ==> TopResults(hits, query, topK)[i].rank == i + 1
    ensures forall i, j :: 0 <= i < j < |TopResults(hits, query, topK)| ==>
      TopResults(hits, query, topK)[i].pageId != TopResults(hits, query, topK)[j].pageId
      && TopResults(hits, query, topK)[i].similarity >= TopResults(hits, query, topK)[j].similarity
    ensures forall i :: 0 <= i < |TopResults(hits, query, topK)| ==>
      exists k :: 0 <= k < |hits| && PageOf(hits[k]) == TopResults(hits, query, topK)[i].pageId
        && HitSimilarity(hits[k]) == TopResults(hits, query, topK)[i].similarity
        && forall j :: 0 <= j < |hits| && PageOf(hits[j]) == TopResults(hits, query, topK)[i].pageId ==>
             HitSimilarity(hits[j]) <= TopResults(hits, query, topK)[i].similarity
    ensures |TopResults(hits, query, topK)| < topK ==>
      forall k :: 0 <= k < |hits| ==>
        exists i :: 0 <= i < |TopResults(hits, query, topK)| && TopResults(hits, query, topK)[i].pageId == PageOf(hits[k])
  {
    TopShape(hits, query, topK);
    TopBest(hits, query, topK);
    TopCovers(hits, query, topK);
  }

  /** `searchContent(query, topK)` once the query is embedded (`er`). */
  function SearchOutcome(s: Store, er: Result<seq<real>, EngineError>, query: string, topK: nat)
    : Result<seq<SearchResult>, SearchError>
    requires Valid(s)
  {
    match er
    case Failure(err) => Failure(EmbeddingFailed(err))
    case Success(q) =>
      match SearchSpec(s, Some(q), topK * 3)
      case Failure(err) => Failure(SearchFailed(err))
      case Success(hits) => Success(TopResults(hits, query, topK))
  }

  /** A search fails exactly when the query cannot be embedded or its vector
      has the wrong dimension; otherwise it returns the top results of the
      database's `3 * topK` best hits, and every result names a stored
      document of its page with the similarity of that document. */
  lemma SearchOutcomeFacts(s: Store, er: Result<seq<real>, EngineError>, query: string, topK: nat)
    requires Valid(s)
    ensures SearchOutcome(s, er, query, topK).Failure? <==> er.Failure? || |er.value| != s.dimension
    ensures er.Failure? ==> SearchOutcome(s, er, query, topK) == Failure(EmbeddingFailed(er.error))
    ensures SearchOutcome(s, er, query, topK).Success? ==>
      var r := SearchOutcome(s, er, query, topK).value;
      r == TopResults(SearchSpec(s, Some(er.value), topK * 3).value, query, topK)
      && |r| <= topK
      && forall i :: 0 <= i < |r| ==>
           exists id :: id in s.documents && s.documents[id].pageId == r[i].pageId
  {
    if er.Success? && |er.value| == s.dimension {
      var q := er.value;
      SearchFacts(s, Some(q), topK * 3);
      var hits := SearchSpec(s, Some(q), topK * 3).value;
      TopResultsFacts(hits, query, topK);
      var r := TopResults(hits, query, topK);
      if |s.vectors| > 0 {
        ScoresFacts(s, q, |s.vectors|);
      }
      forall i | 0 <= i < |r| ensures exists id :: id in s.documents && s.documents[id].pageId == r[i].pageId {
        var k :| 0 <= k < |hits| && PageOf(hits[k]) == r[i].pageId;
        var cs := Scores(s, q, |s.vectors|);
        assert hits[k].scored in cs;
        var v :| 0 <= v < |cs| && cs[v] == hits[k].scored;
        assert s.vectors[v].id in s.documents;
      }
    }
  }

  // ---------------------------------------------------------------------
  // The indexer

  datatype IndexerStats = IndexerStats(indexedPagesCount: nat, totalDocuments: nat, totalVectors: nat,
                                       modelName: string, dimension: nat, cacheSize: nat)

  class ContentIndexer {
    const chunker: TextChunker.TextChunker
    const engine: SemanticEngine
    const db: VectorDatabase
    /** `indexedPages`: its keys in insertion order and its records. */
    var pageOrder: seq<string>
    var indexedPages: map<string, PageRecord>

    function Index(): PageIndex
      reads this
    {
      PageIndex(pageOrder, indexedPages)
    }

    function State(): Components
      reads this, engine, db
    {
      Components(engine.State(), db.State(), Index())
    }

    ghost predicate Inv()
      reads this, engine, db
    {
      TextChunker.ValidConfig(chunker.cfg) && engine.Inv() && db.Inv() && PagesValid(Index())
    }

    /** `new ContentIndexer(config)`: a 0 option falls back to the
        indexer's own default (80 words, 1 sentence, 20 characters, 384
        dimensions, 1000 cached vectors, 10000 elements); `pipe` is the
        model the engine loads. */
    constructor(maxWordsPerChunk: nat, overlapSentences: nat, minChunkLength: nat, modelName: string,
                dimension: nat, maxCacheSize: nat, maxElements: nat, pipe: Model)
      ensures chunker.cfg == TextChunker.NewConfig(if maxWordsPerChunk == 0 then 80 else maxWordsPerChunk,
                                                   if overlapSentences == 0 then 1 else overlapSentences,
                                                   if minChunkLength == 0 then 20 else minChunkLength, None)
      ensures engine.State() == NewEngine(modelName, if dimension == 0 then 384 else dimension,
                                          if maxCacheSize == 0 then 1000 else maxCacheSize)
      ensures engine.pipe == pipe
      ensures db.State() == NewStore(if dimension == 0 then 384 else dimension,
                                     if maxElements == 0 then 10000 else maxElements)
      ensures Index() == EmptyIndex()
      ensures Inv()
    {
      chunker := new TextChunker.TextChunker(if maxWordsPerChunk == 0 then 80 else maxWordsPerChunk,
                                             if overlapSentences == 0 then 1 else overlapSentences,
                                             if minChunkLength == 0 then 20 else minChunkLength, None);
      engine := new SemanticEngine(modelName, if dimension == 0 then 384 else dimension,
                                   if maxCacheSize == 0 then 1000 else maxCacheSize, pipe);
      db := new VectorDatabase(if dimension == 0 then 384 else dimension,
                               if maxElements == 0 then 10000 else maxElements);
      pageOrder := [];
      indexedPages := map[];
    }

    method IndexContent(pageId: string, url: string, title: string, content: string) returns (report: IndexReport)
      requires Inv()
      modifies this, engine, db
      ensures StepResult(State(), report)
              == IndexStep(old(State()), engine.pipe, pageId, url, title, TextChunker.ChunkSpec(chunker.cfg, content, title))
      ensures Inv()
    {
      ghost var c0 := State();
      var chunks := chunker.ChunkText(content, title);
      if |chunks| == 0 {
        return IndexReport(pageId, 0, []);
      }
      var texts := Texts(chunks);
      var embeddings := engine.GetEmbeddingsBatch(texts, "passage");
      var vectorIds := StoreChunks(pageId, url, title, chunks, embeddings);
      var rec := PageRecord(pageId, url, title, |chunks|, vectorIds);
      RecordPage(rec);
      report := IndexReport(pageId, |chunks|, vectorIds);
      IndexStepStored(c0, engine.pipe, pageId, url, title, chunks, db.State(), vectorIds);
    }

    /** The loop of `indexContent` that adds each chunk with its embedding
        to the vector database, collecting the ids of those stored. */
    method StoreChunks(pageId: string, url: string, title: string, chunks: seq<TextChunker.Chunk>,
                       embeddings: seq<seq<real>>) returns (vectorIds: seq<nat>)
      requires db.Inv() && |embeddings| == |chunks|
      modifies db
      ensures db.Inv()
      ensures (db.State(), vectorIds) == AddAll(old(db.State()), pageId, url, title, chunks, embeddings, |chunks|)
    {
      vectorIds := [];
      for i := 0 to |chunks|
        invariant db.Inv()
        invariant (db.State(), vectorIds) == AddAll(old(db.State()), pageId, url, title, chunks, embeddings, i)
      {
        AddAllNext(old(db.State()), pageId, url, title, chunks, embeddings, i, db.State(), vectorIds);
        var r := db.AddDocument(pageId, url, title, chunks[i], embeddings[i]);
        if r.Success? {
          vectorIds := vectorIds + [r.value];
        }
      }
    }

    /** `indexedPages.set(pageId, record)`: a page seen before keeps its
        place in the map's order. */
    method RecordPage(rec: PageRecord)
      requires PagesValid(Index())
      modifies this
      ensures Index() == SetPage(old(Index()), rec)
      ensures PagesValid(Index())
    {
      SetPageValid(Index(), rec);
      if rec.pageId !in indexedPages {
        pageOrder := pageOrder + [rec.pageId];
      }
      indexedPages := indexedPages[rec.pageId := rec];
    }

    method IndexContentBatch(pages: seq<Page>) returns (reports: seq<IndexReport>)
      requires Inv()
      modifies this, engine, db
      ensures BatchResult(State(), reports) == BatchStep(old(State()), engine.pipe, chunker.cfg, pages)
      ensures Inv()
    {
      reports := [];
      for i := 0 to |pages|
        invariant Inv()
        invariant BatchResult(State(), reports)
                  == BatchOver(old(State()), engine.pipe, pages[..i], PageChunks(chunker.cfg, pages)[..i])
      {
        TakeSnoc(pages, i);
        TakeSnoc(PageChunks(chunker.cfg, pages), i);
        BatchOverUnfold(old(State()), engine.pipe, pages[..i + 1], PageChunks(chunker.cfg, pages)[..i + 1]);
        var page := pages[i];
        var report := IndexContent(page.pageId, page.url, page.title, page.content);
        reports := reports + [report];
      }
      assert pages[..|pages|] == pages;
      assert PageChunks(chunker.cfg, pages)[..|pages|] == PageChunks(chunker.cfg, pages);
    }

    method SearchContent(query: string, topK: nat) returns (r: Result<seq<SearchResult>, SearchError>)
      requires Inv()
      modifies engine
      ensures Inv()
      ensures engine.State() == Embed(old(engine.State()), engine.pipe, query).0
      ensures r == SearchOutcome(db.State(), Embed(old(engine.State()), engine.pipe, query).1, query, topK)
    {
      var queryEmbedding := engine.GetEmbedding(query);
      if queryEmbedding.Failure? {
        return Failure(EmbeddingFailed(queryEmbedding.error));
      }
      var results := db.Search(Some(queryEmbedding.value), topK * 3);
      if results.Failure? {
        return Failure(SearchFailed(results.error));
      }
      var deduplicated := DeduplicateByPage(results.value);
      var topResults := deduplicated[..Min(topK, |deduplicated|)];
      return Success(Format(topResults, query));
    }

    method DeduplicateByPage(results: seq<Hit>) returns (out: seq<Hit>)
      ensures out == Dedup(results)
    {
      var order: seq<string> := [];
      var best: map<string, Hit> := map[];
      for k := 0 to |results|
        invariant PageMap(order, best) == Choose(results, k)
      {
        var result := results[k];
        var pageId := PageOf(result);
        if pageId !in best || HitSimilarity(best[pageId]) < HitSimilarity(result) {
          if pageId !in best {
            order := order + [pageId];
          }
          best := best[pageId := result];
        }
      }
      out := SortDesc(MapValues(PageMap(order, best)), HitSimilarity);
    }

    method GenerateSnippet(text: string, query: string, maxLength: nat) returns (snippet: string)
      ensures snippet == Snippet(text, query, maxLength)
    {
      if |text| <= maxLength {
        return text;
      }
      var queryWords := Split(ToLower(query));
      var textLower := ToLower(text);
      var bestPosition, maxMatches := 0, 0;
      var i := 0;
      ghost var n := 0;
      while i < |text| - maxLength
        invariant i == 50 * n && (n == 0 || 50 * (n - 1) + maxLength < |text|)
        invariant (bestPosition, maxMatches) == Scan(textLower, queryWords, maxLength, n)
      {
        var window := textLower[i..i + maxLength];
        var matches := MatchCount(window, queryWords);
        if matches > maxMatches {
          maxMatches := matches;
          bestPosition := i;
        }
        i := i + 50;
        n := n + 1;
      }
      assert n == WindowCount(|text| - maxLength);
      snippet := text[bestPosition..bestPosition + maxLength];
      if bestPosition > 0 {
        snippet := "..." + snippet;
      }
      if bestPosition + maxLength < |text| {
        snippet := snippet + "...";
      }
    }

    method RemovePageIndex(pageId: string)
      requires Inv()
      modifies this, db
      ensures db.State() == RemovePage(old(db.State()), pageId)
      ensures Index() == DeletePage(old(Index()), pageId)
      ensures Inv()
    {
      DeletePageFacts(Index(), pageId);
      db.RemoveByPageId(pageId);
      pageOrder := Without(pageOrder, pageId);
      indexedPages := indexedPages - {pageId};
    }

    method ClearAll()
      requires Inv()
      modifies this, engine, db
      ensures db.State() == ClearStore(old(db.State()))
      ensures Index() == EmptyIndex()
      ensures engine.State() == old(engine.State()).(cache := EmptyCache())
      ensures Inv()
    {
      db.Clear();
      pageOrder := [];
      indexedPages := map[];
      engine.ClearCache();
    }

    /** `getStats()` without `isInitialized` and the percentage string. */
    function GetStats(): (st: IndexerStats)
      reads this, engine, db
      ensures Inv() ==>
        st.indexedPagesCount == |GetIndexedPages()| && st.totalDocuments == st.totalVectors <= db.maxElements
        && st.cacheSize <= engine.maxCacheSize
    {
      PageListCount(Index());
      var ds := db.GetStats();
      IndexerStats(|indexedPages|, ds.totalDocuments, ds.totalVectors, engine.modelName, engine.dimension,
                   engine.CacheSize())
    }

    function GetIndexedPages(): seq<PageRecord>
      reads this
    {
      PageList(pageOrder, indexedPages)
    }

    function IsPageIndexed(pageId: string): bool
      reads this
    {
      pageId in indexedPages
    }
  }
}
