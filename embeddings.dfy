/** The embedding engine (nodes/semantic-engine.js) around its model: the
    role-tagged cache key, the E5 prefix rule, the bounded embedding cache
    that evicts its oldest key, and the cache logic of single and batch
    embedding. The model (`this.pipe`) is a parameter: a total function from
    the prefixed text to a vector, or to a failure. */
module Embeddings {
  import opened Common

  const DefaultModelName: string := "Xenova/multilingual-e5-small"
  const DefaultDimension: nat := 384
  const DefaultMaxCacheSize: nat := 1000

  /** The model: the vector for a prefixed text, or `None` when it throws. */
  type Model = string -> Option<seq<real>>

  datatype EngineError =
    | ModelFailed
      /** The error the as-written batch throws from its `catch` block. */
    | ReferenceError(name: string)

  // ---------------------------------------------------------------------
  // Prefixes and cache keys

  predicate IsE5(modelName: string)
  {
    Contains(modelName, "e5")
  }

  /** `addPrefix(text, role)`: an E5 model gets `query: ` or `passage: ` in
      front of the text, unless the text already starts with that tag; any
      other role, and any other model, leaves the text as it is. */
  function AddPrefix(modelName: string, text: string, role: string): (r: string)
    ensures r == text <==>
      !IsE5(modelName) || (role != "query" && role != "passage") || StartsWith(text, role + ":")
    ensures r != text ==> r == role + ": " + text
    ensures IsE5(modelName) && (role == "query" || role == "passage") ==> StartsWith(r, role + ":")
  {
    if IsE5(modelName) then
      if role == "query" && !StartsWith(text, "query:") then "query: " + text
      else if role == "passage" && !StartsWith(text, "passage:") then "passage: " + text
      else text
    else text
  }

  /** Prefixing twice is prefixing once. */
  lemma AddPrefixIdempotent(modelName: string, text: string, role: string)
    ensures AddPrefix(modelName, AddPrefix(modelName, text, role), role) == AddPrefix(modelName, text, role)
  {
  }

  /** `getCacheKey(text, role)`. */
  function CacheKey(text: string, role: string): string
  {
    role + ":" + text
  }

  /** Roles without a colon (`query`, `passage`) give distinct keys to
      distinct (text, role) pairs: a query key never collides with a passage
      key. */
  lemma CacheKeyInjective(text1: string, role1: string, text2: string, role2: string)
    requires ':' !in role1 && ':' !in role2
    ensures CacheKey(text1, role1) == CacheKey(text2, role2) <==> text1 == text2 && role1 == role2
  {
    var k1, k2 := CacheKey(text1, role1), CacheKey(text2, role2);
    if k1 == k2 {
      assert k1[|role1|] == ':' && k2[|role2|] == ':';
      assert role1 == k1[..|role1|] && role2 == k2[..|role2|];
      assert text1 == k1[|role1| + 1..] && text2 == k2[|role2| + 1..];
    }
  }

  lemma QueryPassageKeysDiffer(text1: string, text2: string)
    ensures CacheKey(text1, "query") != CacheKey(text2, "passage")
  {
    CacheKeyInjective(text1, "query", text2, "passage");
  }

  // ---------------------------------------------------------------------
  // The embedding cache: a Map, whose iteration order is insertion order

  /** The cache as its keys in insertion order and its contents. */
  datatype Cache = Cache(keys: seq<string>, values: map<string, seq<real>>)

  ghost predicate CacheValid(c: Cache)
  {
    (forall i, j :: 0 <= i < j < |c.keys| ==> c.keys[i] != c.keys[j])
    && (forall k :: k in c.values <==> k in c.keys)
  }

  function EmptyCache(): (c: Cache)
    ensures CacheValid(c) && |c.keys| == 0
  {
    Cache([], map[])
  }

  /** `map.set(key, v)`: a new key goes last, an existing one keeps its place. */
  function Put(c: Cache, key: string, v: seq<real>): Cache
  {
    Cache(if key in c.values then c.keys else c.keys + [key], c.values[key := v])
  }

  /** `map.delete(map.keys().next().value)`; on an empty Map that deletes
      `undefined`, which is no key at all. */
  function EvictOldest(c: Cache): Cache
  {
    if |c.keys| == 0 then c else Cache(c.keys[1..], c.values - {c.keys[0]})
  }

  /** `cacheEmbedding(key, v)`: at capacity the oldest key goes first (even
      when `key` is already present), then `key` is set. */
  function CacheSet(c: Cache, key: string, v: seq<real>, maxSize: nat): Cache
  {
    Put(if |c.keys| >= maxSize then EvictOldest(c) else c, key, v)
  }

  lemma PutValid(c: Cache, key: string, v: seq<real>)
    requires CacheValid(c)
    ensures CacheValid(Put(c, key, v))
    ensures |Put(c, key, v).keys| == |c.keys| + (if key in c.values then 0 else 1)
  {
    var r := Put(c, key, v);
    if key !in c.values {
      forall i, j | 0 <= i < j < |r.keys| ensures r.keys[i] != r.keys[j] {
        if j == |c.keys| {
          assert r.keys[i] in c.keys;
        }
      }
    }
  }

  lemma EvictValid(c: Cache)
    requires CacheValid(c)
    ensures CacheValid(EvictOldest(c))
    ensures |EvictOldest(c).keys| == if |c.keys| == 0 then 0 else |c.keys| - 1
    ensures |c.keys| > 0 ==> c.keys[0] !in EvictOldest(c).values
  {
    if |c.keys| > 0 {
      var r := EvictOldest(c);
      forall k ensures k in r.values <==> k in r.keys {
        if k in c.keys[1..] {
          var m :| 0 <= m < |c.keys[1..]| && c.keys[1..][m] == k;
          assert c.keys[m + 1] == k;
        }
        if k in c.keys && k != c.keys[0] {
          var m :| 0 <= m < |c.keys| && c.keys[m] == k;
          assert r.keys[m - 1] == k;
        }
      }
    }
  }

  /** After `cacheEmbedding(key, v)` the cache maps `key` to `v` and is still
      within a capacity of at least 1; every other key keeps its value, and
      the only key that can go is the oldest one, which goes when the cache
      was full. */
  lemma CacheSetFacts(c: Cache, key: string, v: seq<real>, maxSize: nat)
    requires CacheValid(c) && maxSize > 0
    ensures var r := CacheSet(c, key, v, maxSize);
      CacheValid(r)
      && key in r.values && r.values[key] == v
      && (|c.keys| <= maxSize ==> |r.keys| <= maxSize)
      && (forall k :: k in r.values && k != key ==> k in c.values && r.values[k] == c.values[k])
      && (forall k :: k in c.values && k != key ==> (k in r.values <==> !(|c.keys| >= maxSize && k == c.keys[0])))
  {
    var c1 := if |c.keys| >= maxSize then EvictOldest(c) else c;
    EvictValid(c);
    PutValid(c1, key, v);
    if |c.keys| >= maxSize {
      forall k | k in c.values && k != key && k != c.keys[0] ensures k in c1.values {
      }
    }
  }

  /** Below capacity nothing is evicted. */
  lemma CacheSetKeeps(c: Cache, key: string, v: seq<real>, maxSize: nat, k: string)
    requires CacheValid(c) && |c.keys| < maxSize && k in c.values && k != key
    ensures k in CacheSet(c, key, v, maxSize).values
    ensures CacheSet(c, key, v, maxSize).values[k] == c.values[k]
  {
  }

  // ---------------------------------------------------------------------
  // The engine as a value

  datatype Engine = Engine(modelName: string, dimension: nat, maxCacheSize: nat, cache: Cache)

  ghost predicate EngineValid(e: Engine)
  {
    e.dimension > 0 && e.maxCacheSize > 0 && CacheValid(e.cache) && |e.cache.keys| <= e.maxCacheSize
  }

  /** `new SemanticEngine(config)`: an empty model name, a 0 dimension and a
      0 cache size (each also standing for "not given") fall back to the
      defaults, as `config.x || d` does. */
  function NewEngine(modelName: string, dimension: nat, maxCacheSize: nat): (e: Engine)
    ensures EngineValid(e) && |e.cache.keys| == 0
    ensures e.modelName == (if modelName == "" then DefaultModelName else modelName)
    ensures e.dimension == (if dimension == 0 then DefaultDimension else dimension)
    ensures e.maxCacheSize == (if maxCacheSize == 0 then DefaultMaxCacheSize else maxCacheSize)
  {
    Engine(
      if modelName == "" then DefaultModelName else modelName,
      if dimension == 0 then DefaultDimension else dimension,
      if maxCacheSize == 0 then DefaultMaxCacheSize else maxCacheSize,
      EmptyCache())
  }

  /** `getEmbedding(text)`: the cached vector under the query key, or the
      model's vector for the query-prefixed text, which is then cached. A
      model failure is rethrown and caches nothing. */
  function Embed(e: Engine, model: Model, text: string): (Engine, Result<seq<real>, EngineError>)
  {
    var key := CacheKey(text, "query");
    if key in e.cache.values then (e, Success(e.cache.values[key]))
    else
      match model(AddPrefix(e.modelName, text, "query"))
      case None => (e, Failure(ModelFailed))
      case Some(v) => (e.(cache := CacheSet(e.cache, key, v, e.maxCacheSize)), Success(v))
  }

  /** A cache hit returns the cached vector and changes nothing, whatever the
      model would do: the model is not consulted. A miss returns the model's
      vector for the prefixed text and caches it under the query key, or
      fails and leaves the engine as it was. */
  lemma EmbedFacts(e: Engine, model: Model, text: string)
    requires EngineValid(e)
    ensures var key := CacheKey(text, "query");
      var (e', r) := Embed(e, model, text);
      EngineValid(e')
      && (key in e.cache.values ==>
            e' == e && r == Success(e.cache.values[key])
            && forall other: Model :: Embed(e, other, text) == Embed(e, model, text))
      && (key !in e.cache.values && model(AddPrefix(e.modelName, text, "query")).Some? ==>
            r == Success(model(AddPrefix(e.modelName, text, "query")).value)
            && key in e'.cache.values && e'.cache.values[key] == r.value)
      && (key !in e.cache.values && model(AddPrefix(e.modelName, text, "query")).None? ==>
            e' == e && r.Failure?)
  {
    var key := CacheKey(text, "query");
    if key !in e.cache.values {
      match model(AddPrefix(e.modelName, text, "query"))
      case None =>
      case Some(v) => CacheSetFacts(e.cache, key, v, e.maxCacheSize);
    }
  }

  // ---------------------------------------------------------------------
  // Batch embedding

  function Zeros(n: nat): (z: seq<real>)
    ensures |z| == n && forall k :: 0 <= k < n ==> z[k] == 0.0
  {
    seq(n, _ => 0.0)
  }

  /** The positions `i < n` whose key is not cached, in increasing order:
      `uncachedIndices` after the first loop has seen `n` texts. */
  function Pending(c: Cache, texts: seq<string>, role: string, n: nat): (u: seq<nat>)
    requires n <= |texts|
    ensures |u| <= n
    ensures forall m :: 0 <= m < |u| ==> u[m] < n && CacheKey(texts[u[m]], role) !in c.values
  {
    if n == 0 then []
    else
      var u := Pending(c, texts, role, n - 1);
      if CacheKey(texts[n - 1], role) in c.values then u else u + [n - 1]
  }

  /** Every uncached position is pending. */
  lemma {:induction false} PendingComplete(c: Cache, texts: seq<string>, role: string, n: nat, j: nat)
    requires j < n <= |texts| && CacheKey(texts[j], role) !in c.values
    ensures j in Pending(c, texts, role, n)
  {
    if j < n - 1 {
      PendingComplete(c, texts, role, n - 1, j);
    }
  }

  function Gather(texts: seq<string>, u: seq<nat>): (ts: seq<string>)
    requires forall m :: 0 <= m < |u| ==> u[m] < |texts|
    ensures |ts| == |u|
  {
    seq(|u|, m requires 0 <= m < |u| => texts[u[m]])
  }

  /** What the second loop leaves in the cache after the texts `ts`: each
      text the model embeds is cached under its role key, in order. */
  function Fill(e: Engine, model: Model, role: string, ts: seq<string>): Cache
  {
    if |ts| == 0 then e.cache
    else
      var c := Fill(e, model, role, ts[..|ts| - 1]);
      var t := ts[|ts| - 1];
      match model(AddPrefix(e.modelName, t, role))
      case None => c
      case Some(v) => CacheSet(c, CacheKey(t, role), v, e.maxCacheSize)
  }

  /** The cache after `getEmbeddingsBatch(texts, role)`. */
  function BatchCache(e: Engine, model: Model, texts: seq<string>, role: string): Cache
  {
    Fill(e, model, role, Gather(texts, Pending(e.cache, texts, role, |texts|)))
  }

  /** Slot `i` of `getEmbeddingsBatch`'s result for the text `text`: the
      vector cached before the call, else the model's vector for the
      role-prefixed text, else a zero vector of the engine's dimension. */
  function BatchSlot(e: Engine, model: Model, text: string, role: string): seq<real>
  {
    var key := CacheKey(text, role);
    if key in e.cache.values then e.cache.values[key]
    else
      match model(AddPrefix(e.modelName, text, role))
      case Some(v) => v
      case None => Zeros(e.dimension)
  }

  /** The whole result of `getEmbeddingsBatch(texts, role)`. */
  function BatchSlots(e: Engine, model: Model, texts: seq<string>, role: string): (r: seq<seq<real>>)
    ensures |r| == |texts|
  {
    seq(|texts|, i requires 0 <= i < |texts| => BatchSlot(e, model, texts[i], role))
  }

  lemma {:induction false} FillValid(e: Engine, model: Model, role: string, ts: seq<string>)
    requires EngineValid(e)
    ensures CacheValid(Fill(e, model, role, ts)) && |Fill(e, model, role, ts).keys| <= e.maxCacheSize
  {
    if |ts| > 0 {
      FillValid(e, model, role, ts[..|ts| - 1]);
      var c := Fill(e, model, role, ts[..|ts| - 1]);
      var t := ts[|ts| - 1];
      match model(AddPrefix(e.modelName, t, role))
      case None =>
      case Some(v) => CacheSetFacts(c, CacheKey(t, role), v, e.maxCacheSize);
    }
  }

  /** A key that was not cached and whose text the model fails on is still
      not cached after the fill: a failed item is never cached. */
  lemma {:induction false} FillSkipsFailures(e: Engine, model: Model, role: string, ts: seq<string>, text: string)
    requires EngineValid(e) && ':' !in role
    requires CacheKey(text, role) !in e.cache.values
    requires model(AddPrefix(e.modelName, text, role)).None?
    ensures CacheKey(text, role) !in Fill(e, model, role, ts).values
  {
    if |ts| > 0 {
      FillSkipsFailures(e, model, role, ts[..|ts| - 1], text);
      FillValid(e, model, role, ts[..|ts| - 1]);
      var c := Fill(e, model, role, ts[..|ts| - 1]);
      var t := ts[|ts| - 1];
      match model(AddPrefix(e.modelName, t, role))
      case None =>
      case Some(v) =>
        CacheKeyInjective(text, role, t, role);
        CacheSetFacts(c, CacheKey(t, role), v, e.maxCacheSize);
    }
  }

  /** With room for every text, each text the model embeds is cached under
      its role key with its vector, and nothing cached before is lost. */
  lemma {:induction false} FillCaches(e: Engine, model: Model, role: string, ts: seq<string>)
    requires EngineValid(e) && |e.cache.keys| + |ts| <= e.maxCacheSize
    ensures var c := Fill(e, model, role, ts);
      |c.keys| <= |e.cache.keys| + |ts|
      && (forall k :: k in e.cache.values ==> k in c.values)
      && (forall m :: 0 <= m < |ts| && model(AddPrefix(e.modelName, ts[m], role)).Some? ==>
            CacheKey(ts[m], role) in c.values)
  {
    if |ts| > 0 {
      var init := ts[..|ts| - 1];
      FillCaches(e, model, role, init);
      FillValid(e, model, role, init);
      var c := Fill(e, model, role, init);
      var t := ts[|ts| - 1];
      match model(AddPrefix(e.modelName, t, role))
      case None =>
        forall m | 0 <= m < |ts| - 1 ensures ts[m] == init[m] {
        }
      case Some(v) =>
        var key := CacheKey(t, role);
        CacheSetFacts(c, key, v, e.maxCacheSize);
        PutValid(c, key, v);
        forall k | k in c.values ensures k in CacheSet(c, key, v, e.maxCacheSize).values {
          if k != key {
            CacheSetKeeps(c, key, v, e.maxCacheSize, k);
          }
        }
        forall m | 0 <= m < |ts| - 1 ensures ts[m] == init[m] {
        }
    }
  }

  /** The batch keeps the engine valid; a text the model fails on and that
      was not cached is not cached afterwards; and when the cache has room
      for the whole batch, every embedded text is cached under its role key. */
  lemma BatchCacheFacts(e: Engine, model: Model, texts: seq<string>, role: string)
    requires EngineValid(e) && ':' !in role
    ensures CacheValid(BatchCache(e, model, texts, role))
    ensures |BatchCache(e, model, texts, role).keys| <= e.maxCacheSize
    ensures forall i :: (0 <= i < |texts| && CacheKey(texts[i], role) !in e.cache.values
      && model(AddPrefix(e.modelName, texts[i], role)).None?) ==>
        CacheKey(texts[i], role) !in BatchCache(e, model, texts, role).values
    ensures |e.cache.keys| + |texts| <= e.maxCacheSize ==>
      forall i :: 0 <= i < |texts| && model(AddPrefix(e.modelName, texts[i], role)).Some? ==>
        CacheKey(texts[i], role) in BatchCache(e, model, texts, role).values
  {
    var u := Pending(e.cache, texts, role, |texts|);
    var ts := Gather(texts, u);
    FillValid(e, model, role, ts);
    forall i | 0 <= i < |texts| && CacheKey(texts[i], role) !in e.cache.values
      && model(AddPrefix(e.modelName, texts[i], role)).None?
      ensures CacheKey(texts[i], role) !in BatchCache(e, model, texts, role).values
    {
      FillSkipsFailures(e, model, role, ts, texts[i]);
    }
    if |e.cache.keys| + |texts| <= e.maxCacheSize {
      FillCaches(e, model, role, ts);
      forall i | 0 <= i < |texts| && model(AddPrefix(e.modelName, texts[i], role)).Some?
        ensures CacheKey(texts[i], role) in BatchCache(e, model, texts, role).values
      {
        if CacheKey(texts[i], role) !in e.cache.values {
          PendingComplete(e.cache, texts, role, |texts|, i);
          var m :| 0 <= m < |u| && u[m] == i;
          assert ts[m] == texts[i];
        }
      }
    }
  }

  // ---------------------------------------------------------------------
  // The batch as written: the `catch` block reads `originalIndex`, a
  // `const` of the `try` block, so the first failing item throws a
  // ReferenceError instead of storing a zero vector.

  function FillAsWritten(e: Engine, model: Model, role: string, ts: seq<string>): Result<Cache, EngineError>
  {
    if |ts| == 0 then Success(e.cache)
    else
      match FillAsWritten(e, model, role, ts[..|ts| - 1])
      case Failure(err) => Failure(err)
      case Success(c) =>
        var t := ts[|ts| - 1];
        match model(AddPrefix(e.modelName, t, role))
        case None => Failure(ReferenceError("originalIndex"))
        case Some(v) => Success(CacheSet(c, CacheKey(t, role), v, e.maxCacheSize))
  }

  function BatchAsWritten(e: Engine, model: Model, texts: seq<string>, role: string): Result<seq<seq<real>>, EngineError>
  {
    match FillAsWritten(e, model, role, Gather(texts, Pending(e.cache, texts, role, |texts|)))
    case Failure(err) => Failure(err)
    case Success(_) => Success(seq(|texts|, i requires 0 <= i < |texts| => BatchSlot(e, model, texts[i], role)))
  }

  lemma {:induction false} FillAsWrittenFails(e: Engine, model: Model, role: string, ts: seq<string>)
    ensures FillAsWritten(e, model, role, ts).Failure? <==>
      exists m :: 0 <= m < |ts| && model(AddPrefix(e.modelName, ts[m], role)).None?
  {
    if |ts| > 0 {
      var init := ts[..|ts| - 1];
      FillAsWrittenFails(e, model, role, init);
      if exists m :: 0 <= m < |init| && model(AddPrefix(e.modelName, init[m], role)).None? {
        var m :| 0 <= m < |init| && model(AddPrefix(e.modelName, init[m], role)).None?;
        assert ts[m] == init[m];
      }
      if exists m :: 0 <= m < |ts| && model(AddPrefix(e.modelName, ts[m], role)).None? {
        var m :| 0 <= m < |ts| && model(AddPrefix(e.modelName, ts[m], role)).None?;
        if m < |ts| - 1 {
          assert init[m] == ts[m];
        }
      }
    }
  }

  /** As written, one uncached text the model fails on makes the whole batch
      throw. The evident intent, a zero vector in its slot, is `BatchSlot`. */
  lemma AsWrittenBatchThrows(e: Engine, model: Model, texts: seq<string>, role: string, i: nat)
    requires i < |texts| && CacheKey(texts[i], role) !in e.cache.values
    requires model(AddPrefix(e.modelName, texts[i], role)).None?
    ensures BatchAsWritten(e, model, texts, role) == Failure(ReferenceError("originalIndex"))
    ensures BatchSlot(e, model, texts[i], role) == Zeros(e.dimension)
  {
    var u := Pending(e.cache, texts, role, |texts|);
    var ts := Gather(texts, u);
    PendingComplete(e.cache, texts, role, |texts|, i);
    var m :| 0 <= m < |u| && u[m] == i;
    assert ts[m] == texts[i];
    FillAsWrittenFails(e, model, role, ts);
    FillAsWrittenError(e, model, role, ts);
  }

  lemma {:induction false} FillAsWrittenError(e: Engine, model: Model, role: string, ts: seq<string>)
    ensures FillAsWritten(e, model, role, ts).Failure? ==>
      FillAsWritten(e, model, role, ts).error == ReferenceError("originalIndex")
  {
    if |ts| > 0 {
      FillAsWrittenError(e, model, role, ts[..|ts| - 1]);
    }
  }

  /** One round of the second loop fills the slot of the `m`-th pending
      position with its `BatchSlot` value and leaves the other slots alone. */
  lemma SlotStep(e: Engine, model: Model, texts: seq<string>, role: string,
                 before: seq<seq<real>>, after: seq<seq<real>>, u: seq<nat>, m: nat)
    requires m < |u| && u[m] < |texts| && |before| == |texts|
    requires forall j :: 0 <= j < |texts| && (CacheKey(texts[j], role) in e.cache.values || j in u[..m]) ==>
      before[j] == BatchSlot(e, model, texts[j], role)
    requires after == before[u[m] := BatchSlot(e, model, texts[u[m]], role)]
    ensures forall j :: 0 <= j < |texts| && (CacheKey(texts[j], role) in e.cache.values || j in u[..m + 1]) ==>
      after[j] == BatchSlot(e, model, texts[j], role)
  {
    assert u[..m + 1] == u[..m] + [u[m]];
  }

  // ---------------------------------------------------------------------
  // The engine object

  class SemanticEngine {
    const modelName: string
    const dimension: nat
    const maxCacheSize: nat
    /** The loaded pipeline. */
    const pipe: Model
    /** `embeddingCache`: its keys in insertion order and its contents. */
    var cacheOrder: seq<string>
    var embeddingCache: map<string, seq<real>>

    function State(): Engine
      reads this
    {
      Engine(modelName, dimension, maxCacheSize, Cache(cacheOrder, embeddingCache))
    }

    ghost predicate Inv()
      reads this
    {
      EngineValid(State())
    }

    constructor(modelName: string, dimension: nat, maxCacheSize: nat, pipe: Model)
      ensures State() == NewEngine(modelName, dimension, maxCacheSize)
      ensures this.pipe == pipe
      ensures Inv()
    {
      this.modelName := if modelName == "" then DefaultModelName else modelName;
      this.dimension := if dimension == 0 then DefaultDimension else dimension;
      this.maxCacheSize := if maxCacheSize == 0 then DefaultMaxCacheSize else maxCacheSize;
      this.pipe := pipe;
      cacheOrder := [];
      embeddingCache := map[];
    }

    method CacheEmbedding(key: string, embedding: seq<real>)
      requires Inv()
      modifies this
      ensures State() == old(State()).(cache := CacheSet(old(State()).cache, key, embedding, maxCacheSize))
      ensures Inv()
    {
      CacheSetFacts(State().cache, key, embedding, maxCacheSize);
      if |cacheOrder| >= maxCacheSize {
        if |cacheOrder| > 0 {
          var firstKey := cacheOrder[0];
          embeddingCache := embeddingCache - {firstKey};
          cacheOrder := cacheOrder[1..];
        }
      }
      if key !in embeddingCache {
        cacheOrder := cacheOrder + [key];
      }
      embeddingCache := embeddingCache[key := embedding];
    }

    method ClearCache()
      requires Inv()
      modifies this
      ensures State() == old(State()).(cache := EmptyCache())
      ensures Inv()
    {
      cacheOrder := [];
      embeddingCache := map[];
    }

    method GetEmbedding(text: string) returns (r: Result<seq<real>, EngineError>)
      requires Inv()
      modifies this
      ensures (State(), r) == Embed(old(State()), pipe, text)
      ensures Inv()
    {
      EmbedFacts(State(), pipe, text);
      var cacheKey := CacheKey(text, "query");
      if cacheKey in embeddingCache {
        return Success(embeddingCache[cacheKey]);
      }
      var prefixedText := AddPrefix(modelName, text, "query");
      var output := pipe(prefixedText);
      if output.None? {
        return Failure(ModelFailed);
      }
      CacheEmbedding(cacheKey, output.value);
      return Success(output.value);
    }

    /** `getEmbeddingsBatch(texts, role)` with the `catch` block storing the
        zero vector (it cannot reach `originalIndex` as written). */
    method GetEmbeddingsBatch(texts: seq<string>, role: string) returns (embeddings: seq<seq<real>>)
      requires Inv()
      modifies this
      ensures |embeddings| == |texts|
      ensures forall i :: 0 <= i < |texts| ==> embeddings[i] == BatchSlot(old(State()), pipe, texts[i], role)
      ensures embeddings == BatchSlots(old(State()), pipe, texts, role)
      ensures State() == old(State()).(cache := BatchCache(old(State()), pipe, texts, role))
      ensures Inv()
    {
      ghost var e0 := State();
      embeddings := seq(|texts|, _ => []);
      var uncachedTexts: seq<string> := [];
      var uncachedIndices: seq<nat> := [];
      for i := 0 to |texts|
        invariant State() == e0
        invariant |embeddings| == |texts|
        invariant uncachedIndices == Pending(e0.cache, texts, role, i)
        invariant uncachedTexts == Gather(texts, uncachedIndices)
        invariant forall j :: 0 <= j < i && CacheKey(texts[j], role) in e0.cache.values ==>
          embeddings[j] == BatchSlot(e0, pipe, texts[j], role)
      {
        var cacheKey := CacheKey(texts[i], role);
        if cacheKey in embeddingCache {
          embeddings := embeddings[i := embeddingCache[cacheKey]];
        } else {
          uncachedTexts := uncachedTexts + [texts[i]];
          uncachedIndices := uncachedIndices + [i];
        }
      }
      for m := 0 to |uncachedTexts|
        invariant Inv()
        invariant State() == e0.(cache := Fill(e0, pipe, role, uncachedTexts[..m]))
        invariant |embeddings| == |texts|
        invariant forall j :: 0 <= j < |texts| && (CacheKey(texts[j], role) in e0.cache.values || j in uncachedIndices[..m]) ==>
          embeddings[j] == BatchSlot(e0, pipe, texts[j], role)
      {
        var text := uncachedTexts[m];
        var originalIndex := uncachedIndices[m];
        var prefixedText := AddPrefix(modelName, text, role);
        var output := pipe(prefixedText);
        TakeSnoc(uncachedTexts, m);
        TakeSnoc(uncachedIndices, m);
        ghost var before := embeddings;
        if output.Some? {
          embeddings := embeddings[originalIndex := output.value];
          CacheEmbedding(CacheKey(text, role), output.value);
        } else {
          embeddings := embeddings[originalIndex := Zeros(dimension)];
        }
        SlotStep(e0, pipe, texts, role, before, embeddings, uncachedIndices, m);
      }
      forall j | 0 <= j < |texts| && CacheKey(texts[j], role) !in e0.cache.values
        ensures j in uncachedIndices
      {
        PendingComplete(e0.cache, texts, role, |texts|, j);
      }
      assert uncachedTexts[..|uncachedTexts|] == uncachedTexts;
      assert uncachedIndices[..|uncachedIndices|] == uncachedIndices;
    }

    /** The cache figures of `getStats()`. */
    function CacheSize(): (n: nat)
      reads this
      ensures Inv() ==> n <= maxCacheSize
    {
      |cacheOrder|
    }
  }
}
