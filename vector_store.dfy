/**
 * The vector store: a client object bound to one collection of a vector
 * database. The collection's contents are the `points` field, a map from point
 * id to vector and payload. `add_documents` builds one point per text (id =
 * 32-bit prefix of the text's MD5 digest plus the batch position, payload = the
 * caller's metadata with the text added) and upserts them; `search` reshapes the
 * database's hits; `clear_collection` drops and recreates the collection.
 *
 * MD5, the embedding model and the database's ranking and failures are the
 * opaque functions of a `Backend`. A ghost log records every call made to them.
 */
module VectorStore {
  import opened Wrappers
  import opened Values

  const DefaultCollection := "pdf_documents"

  /** `int(md5(text).hexdigest()[:8], 16)`: eight hex digits. */
  type Hash32 = h: int | 0 <= h < 0x1_0000_0000

  type Vector = seq<real>

  datatype Stored = Stored(vector: Vector, payload: Dict)

  datatype Point = Point(id: int, vector: Vector, payload: Dict)

  /** A scored point as the database returns it. */
  datatype Hit = Hit(id: int, payload: Dict, score: real)

  datatype SearchResult = SearchResult(text: string, metadata: Dict, score: real)

  /** The calls the store makes to the embedding model and to the database. */
  datatype Call =
    | EmbedDocuments(texts: seq<string>)
    | Upsert(batch: seq<Point>)
    | EmbedQuery(query: string)
    | SearchPoints(vector: Vector, limit: int)
    | DeleteCollection(name: string)
    | EnsureCollection(name: string)

  /**
   * The external services. A `...Fault` function gives the message of the
   * exception the call raises, or None when it succeeds.
   */
  datatype Backend = Backend(
    md5Prefix: string -> Hash32,
    embedDocuments: seq<string> -> Result<seq<Vector>, string>,
    embedQuery: string -> Result<Vector, string>,
    upsertFault: seq<Point> -> Option<string>,
    search: (map<int, Stored>, Vector, int) -> Result<seq<Hit>, string>,
    deleteFault: string -> Option<string>,
    ensureFault: string -> Option<string>)

  /** A database whose hits are stored points, with their payloads, and at most `limit` of them. */
  ghost predicate HonestSearch(backend: Backend) {
    forall m: map<int, Stored>, v: Vector, limit: int, hits: seq<Hit> ::
      backend.search(m, v, limit) == Success(hits) ==>
        |hits| <= limit && forall h :: h in hits ==> h.id in m && h.payload == m[h.id].payload
  }

  /** Hits that are all stored points need a non-empty collection. */
  lemma HitsNeedStoredPoints(m: map<int, Stored>, hits: seq<Hit>)
    requires forall h :: h in hits ==> h.id in m
    ensures hits != [] ==> |m| > 0
  {
    if hits != [] {
      assert hits[0] in hits;
      assert hits[0].id in m;
    }
  }

  /** Over an empty collection an honest database finds nothing. */
  lemma HonestEmptySearch(backend: Backend, v: Vector, limit: int)
    ensures HonestSearch(backend) && backend.search(map[], v, limit).Success? ==>
      backend.search(map[], v, limit).value == []
  {
    if HonestSearch(backend) && backend.search(map[], v, limit).Success? {
      var hits := backend.search(map[], v, limit).value;
      HitsNeedStoredPoints(map[], hits);
    }
  }

  const AddFailedPrefix := "Failed to add documents to vector store: "
  const SearchFailedPrefix := "Failed to search vector store: "
  const ClearFailedPrefix := "Failed to clear collection: "
  const EnsureFailedPrefix := "Failed to ensure collection exists: "
  const IndexErrorText := "list index out of range"

  /** A metadata dictionary of the caller; `add_documents` writes into it. */
  class Metadata {
    var entries: Dict

    constructor (entries: Dict)
      ensures this.entries == entries
    {
      this.entries := entries;
    }
  }

  function EntriesOf(ms: seq<Metadata>): (es: seq<Dict>)
    reads set m | m in ms
    ensures |es| == |ms|
    ensures forall i :: 0 <= i < |ms| ==> es[i] == ms[i].entries
  {
    seq(|ms|, i reads set m | m in ms requires 0 <= i < |ms| => ms[i].entries)
  }

  /** The last position before `upto` that holds `o`, or -1. */
  function LastWriter(ms: seq<Metadata>, upto: nat, o: Metadata): (j: int)
    requires upto <= |ms|
    ensures -1 <= j < upto
    ensures j >= 0 ==> ms[j] == o
    ensures forall k :: j < k < upto ==> ms[k] != o
    decreases upto
  {
    if upto == 0 then -1
    else if ms[upto - 1] == o then upto - 1
    else LastWriter(ms, upto - 1, o)
  }

  /**
   * The entries of `ms[k]`, which started as `orig`, once the texts at
   * positions `0..upto` have been written into their dictionaries: the text of
   * the last position holding the same dictionary, or `orig` when there is none.
   */
  ghost function Written(orig: Dict, ms: seq<Metadata>, texts: seq<string>, upto: nat, k: nat): Dict
    requires upto <= |ms| && upto <= |texts| && k < |ms|
  {
    var j := LastWriter(ms, upto, ms[k]);
    if j < 0 then orig else orig["text" := VStr(texts[j])]
  }

  /** The point built at position `i`. */
  function PointAt(md5Prefix: string -> Hash32, text: string, vector: Vector, base: Dict, i: nat): (p: Point)
    ensures p.id == md5Prefix(text) + i
    ensures p.payload.Keys == base.Keys + {"text"} && p.payload["text"] == VStr(text)
    ensures forall k :: k in base && k != "text" ==> p.payload[k] == base[k]
  {
    Point(md5Prefix(text) + i, vector, base["text" := VStr(text)])
  }

  /** The collection after an upsert: points are written in batch order, so a later point wins over an earlier one. */
  function Upserted(m: map<int, Stored>, batch: seq<Point>): map<int, Stored>
    decreases |batch|
  {
    if batch == [] then m
    else Upserted(m[batch[0].id := Stored(batch[0].vector, batch[0].payload)], batch[1..])
  }

  function Ids(batch: seq<Point>): set<int> {
    set p | p in batch :: p.id
  }

  /** The ids of the collection after an upsert: the old ones and those of the batch. */
  lemma {:induction false} UpsertedKeys(m: map<int, Stored>, batch: seq<Point>)
    ensures Upserted(m, batch).Keys == m.Keys + Ids(batch)
    decreases |batch|
  {
    if batch != [] {
      var m' := m[batch[0].id := Stored(batch[0].vector, batch[0].payload)];
      UpsertedKeys(m', batch[1..]);
      assert Ids(batch) == {batch[0].id} + Ids(batch[1..]) by {
        assert batch == [batch[0]] + batch[1..];
      }
    }
  }

  /** A point of the batch that no later point overrides is stored as sent. */
  lemma {:induction false} UpsertedLastWins(m: map<int, Stored>, batch: seq<Point>, j: nat)
    requires j < |batch|
    requires forall k :: j < k < |batch| ==> batch[k].id != batch[j].id
    ensures batch[j].id in Upserted(m, batch)
    ensures Upserted(m, batch)[batch[j].id] == Stored(batch[j].vector, batch[j].payload)
    decreases |batch|
  {
    var m' := m[batch[0].id := Stored(batch[0].vector, batch[0].payload)];
    if j == 0 {
      UpsertedUntouched(m', batch[1..], batch[0].id);
    } else {
      forall k | j - 1 < k < |batch[1..]|
        ensures batch[1..][k].id != batch[1..][j - 1].id
      {
        assert batch[1..][k] == batch[k + 1];
      }
      UpsertedLastWins(m', batch[1..], j - 1);
    }
  }

  /** An id the batch does not mention keeps its stored point. */
  lemma {:induction false} UpsertedUntouched(m: map<int, Stored>, batch: seq<Point>, id: int)
    requires id in m && id !in Ids(batch)
    ensures id in Upserted(m, batch) && Upserted(m, batch)[id] == m[id]
    decreases |batch|
  {
    if batch != [] {
      var m' := m[batch[0].id := Stored(batch[0].vector, batch[0].payload)];
      assert batch[0] in batch;
      assert Ids(batch[1..]) <= Ids(batch) by {
        forall p | p in batch[1..] ensures p in batch { }
      }
      UpsertedUntouched(m', batch[1..], id);
    }
  }

  /**
   * Re-adding the same texts in the same order sends a batch with the same ids,
   * so the set of ids in the collection does not change.
   */
  lemma ReAddKeepsIds(m: map<int, Stored>, first: seq<Point>, again: seq<Point>)
    requires |first| == |again|
    requires forall i :: 0 <= i < |first| ==> again[i].id == first[i].id
    ensures Upserted(Upserted(m, first), again).Keys == Upserted(m, first).Keys
  {
    UpsertedKeys(m, first);
    UpsertedKeys(Upserted(m, first), again);
    assert Ids(again) == Ids(first) by {
      forall p | p in again ensures p.id in Ids(first) {
        var i :| 0 <= i < |again| && again[i] == p;
        assert first[i] in first;
      }
      forall p | p in first ensures p.id in Ids(again) {
        var i :| 0 <= i < |first| && first[i] == p;
        assert again[i] in again;
      }
    }
  }

  /** `payload.get("text", "")`, read as text. */
  function TextOf(payload: Dict): (t: string)
    ensures "text" !in payload ==> t == ""
    ensures "text" in payload && payload["text"].VStr? ==> t == payload["text"].s
  {
    if "text" in payload && payload["text"].VStr? then payload["text"].s else ""
  }

  /** `{"text": ..., "metadata": payload minus "text", "score": ...}` */
  function FormatHit(h: Hit): (r: SearchResult)
    ensures r.score == h.score
    ensures r.text == TextOf(h.payload)
    ensures r.metadata.Keys == h.payload.Keys - {"text"}
    ensures forall k :: k in r.metadata ==> r.metadata[k] == h.payload[k]
  {
    SearchResult(TextOf(h.payload), map k | k in h.payload && k != "text" :: h.payload[k], h.score)
  }

  /** What `search(query, top_k)` returns over the collection `points`, or the text of the exception it raises. */
  function SearchOutcome(backend: Backend, points: map<int, Stored>, query: string, topK: int): (r: Result<seq<SearchResult>, string>)
    // an embedding failure comes out unchanged
    ensures backend.embedQuery(query).Failure? ==> r == Failure(backend.embedQuery(query).error)
    ensures backend.embedQuery(query).Success? ==>
      var found := backend.search(points, backend.embedQuery(query).value, topK);
      // a database failure is re-raised with a prefix
      && (found.Failure? ==> r == Failure(SearchFailedPrefix + found.error))
      // otherwise one result per hit, in the database's order
      && (found.Success? ==>
            r.Success? && |r.value| == |found.value| &&
            forall i :: 0 <= i < |found.value| ==> r.value[i] == FormatHit(found.value[i]))
  {
    var v :- backend.embedQuery(query);
    match backend.search(points, v, topK)
    case Failure(e) => Failure(SearchFailedPrefix + e)
    case Success(hits) => Success(seq(|hits|, i requires 0 <= i < |hits| => FormatHit(hits[i])))
  }

  /** The calls one `search` makes: the query embedding, then the database search with `top_k` as the limit. */
  function SearchCalls(backend: Backend, query: string, topK: int): (cs: seq<Call>)
    ensures |cs| >= 1 && cs[0] == EmbedQuery(query)
    ensures backend.embedQuery(query).Failure? ==> |cs| == 1
    ensures backend.embedQuery(query).Success? ==> |cs| == 2 && cs[1] == SearchPoints(backend.embedQuery(query).value, topK)
  {
    match backend.embedQuery(query)
    case Failure(_) => [EmbedQuery(query)]
    case Success(v) => [EmbedQuery(query), SearchPoints(v, topK)]
  }

  /** After `clear_collection` the collection is empty, so an honest database returns no results. */
  lemma SearchAfterClear(backend: Backend, query: string, topK: int)
    requires HonestSearch(backend)
    ensures SearchOutcome(backend, map[], query, topK).Success? ==> SearchOutcome(backend, map[], query, topK).value == []
  {
    if backend.embedQuery(query).Success? {
      HonestEmptySearch(backend, backend.embedQuery(query).value, topK);
    }
  }

  /** A point written by `add_documents` comes back from a search with its text and the caller's other keys. */
  lemma FormatHitOfAddedPoint(base: Dict, text: string, id: int, score: real)
    requires "text" !in base
    ensures FormatHit(Hit(id, base["text" := VStr(text)], score)) == SearchResult(text, base, score)
  {
  }

  /** Writing a key twice leaves the second value. */
  lemma RewriteKey(d: Dict, key: string, first: Value, second: Value)
    ensures d[key := first][key := second] == d[key := second]
  {
  }

  /** `metadata["text"] = text` on the dictionary at position `idx`, returning the entries it had before. */
  method StampText(ms: seq<Metadata>, idx: nat, texts: seq<string>, ghost given: seq<Dict>) returns (before: Dict)
    requires idx < |ms| && idx < |texts| && |given| == |ms|
    requires forall k, k' :: 0 <= k < |ms| && 0 <= k' < |ms| && ms[k] == ms[k'] ==> given[k] == given[k']
    requires forall k :: 0 <= k < |ms| ==> ms[k].entries == Written(given[k], ms, texts, idx, k)
    modifies ms[idx]
    ensures before["text" := VStr(texts[idx])] == given[idx]["text" := VStr(texts[idx])]
    ensures forall k :: 0 <= k < |ms| ==> ms[k].entries == Written(given[k], ms, texts, idx + 1, k)
  {
    before := ms[idx].entries;
    ghost var j := LastWriter(ms, idx, ms[idx]);
    if j >= 0 {
      RewriteKey(given[idx], "text", VStr(texts[j]), VStr(texts[idx]));
    }
    ms[idx].entries := before["text" := VStr(texts[idx])];
    forall k | 0 <= k < |ms|
      ensures ms[k].entries == Written(given[k], ms, texts, idx + 1, k)
    {
      if ms[k] == ms[idx] {
        assert given[k] == given[idx];
      } else {
        assert LastWriter(ms, idx + 1, ms[k]) == LastWriter(ms, idx, ms[k]);
      }
    }
  }

  /** The loop of `add_documents` without metadatas: each point's payload is `{"text": text}`. */
  method PlainPoints(md5Prefix: string -> Hash32, texts: seq<string>, vectors: seq<Vector>, n: nat)
    returns (batch: seq<Point>)
    requires n <= |texts| && n <= |vectors|
    ensures |batch| == n
    ensures forall j :: 0 <= j < n ==> batch[j] == PointAt(md5Prefix, texts[j], vectors[j], map[], j)
  {
    batch := [];
    var idx := 0;
    while idx < n
      invariant idx <= n && |batch| == idx
      invariant forall j :: 0 <= j < idx ==> batch[j] == PointAt(md5Prefix, texts[j], vectors[j], map[], j)
    {
      batch := batch + [PointAt(md5Prefix, texts[idx], vectors[idx], map[], idx)];
      idx := idx + 1;
    }
  }

  /** The loop of `add_documents` over the first `upto` caller dictionaries, writing each text into its dictionary. */
  method StampedPoints(md5Prefix: string -> Hash32, texts: seq<string>, vectors: seq<Vector>, upto: nat, metadatas: seq<Metadata>)
    returns (batch: seq<Point>)
    requires upto <= |texts| && upto <= |vectors| && upto <= |metadatas|
    modifies set m | m in metadatas
    ensures |batch| == upto
    ensures forall j :: 0 <= j < upto ==>
      batch[j] == PointAt(md5Prefix, texts[j], vectors[j], old(metadatas[j].entries), j)
    ensures forall k :: 0 <= k < |metadatas| ==>
      metadatas[k].entries == Written(old(metadatas[k].entries), metadatas, texts, upto, k)
  {
    ghost var given := EntriesOf(metadatas);
    batch := [];
    var idx := 0;
    while idx < upto
      invariant idx <= upto && |batch| == idx
      invariant forall k :: 0 <= k < |metadatas| ==> given[k] == old(metadatas[k].entries)
      invariant forall j :: 0 <= j < idx ==> batch[j] == PointAt(md5Prefix, texts[j], vectors[j], given[j], j)
      invariant forall k :: 0 <= k < |metadatas| ==> metadatas[k].entries == Written(given[k], metadatas, texts, idx, k)
    {
      var base := StampText(metadatas, idx, texts, given);
      var p := PointAt(md5Prefix, texts[idx], vectors[idx], base, idx);
      assert p == PointAt(md5Prefix, texts[idx], vectors[idx], given[idx], idx);
      ghost var prev := batch;
      batch := batch + [p];
      forall j | 0 <= j < idx + 1
        ensures batch[j] == PointAt(md5Prefix, texts[j], vectors[j], given[j], j)
      {
        if j < idx {
          assert batch[j] == prev[j];
        }
      }
      idx := idx + 1;
    }
  }

  /**
   * The loop of `add_documents` that builds the points. With metadatas shorter
   * than the batch it raises `IndexError` at position `|metadatas|`, after the
   * dictionaries before it have been written; `complete` is false then and the
   * points built so far are dropped.
   */
  method PreparePoints(md5Prefix: string -> Hash32, texts: seq<string>, vectors: seq<Vector>, n: nat, metadatas: seq<Metadata>)
    returns (batch: seq<Point>, complete: bool)
    requires n <= |texts| && n <= |vectors|
    modifies set m | m in metadatas
    ensures complete <==> metadatas == [] || n <= |metadatas|
    ensures complete ==> |batch| == n
    ensures complete ==> forall j :: 0 <= j < n ==>
      batch[j] == PointAt(md5Prefix, texts[j], vectors[j], if metadatas == [] then map[] else old(metadatas[j].entries), j)
    ensures forall k :: 0 <= k < |metadatas| ==>
      metadatas[k].entries == Written(old(metadatas[k].entries), metadatas, texts, if complete then n else |metadatas|, k)
  {
    complete := metadatas == [] || n <= |metadatas|;
    if metadatas == [] {
      batch := PlainPoints(md5Prefix, texts, vectors, n);
    } else {
      batch := StampedPoints(md5Prefix, texts, vectors, if complete then n else |metadatas|, metadatas);
    }
  }

  class Store {
    const name: string
    const backend: Backend
    /** The collection's contents on the database server. */
    var points: map<int, Stored>
    ghost var calls: seq<Call>

    /** `collection_name or QDRANT_COLLECTION_NAME`; the collection is created when missing and otherwise kept. */
    constructor (collectionName: string, backend: Backend, existing: map<int, Stored>)
      ensures name == if collectionName != "" then collectionName else DefaultCollection
      ensures this.backend == backend && points == existing
      ensures calls == [EnsureCollection(name)]
    {
      name := if collectionName != "" then collectionName else DefaultCollection;
      this.backend := backend;
      points := existing;
      calls := [EnsureCollection(if collectionName != "" then collectionName else DefaultCollection)];
    }

    /**
     * `add_documents(texts, metadatas)`. An empty `metadatas` stands for both
     * None and `[]`. The error is the text of the exception raised, if any.
     */
    method AddDocuments(texts: seq<string>, metadatas: seq<Metadata>) returns (err: Option<string>, ghost sent: seq<Point>)
      modifies this`points, this`calls, set m | m in metadatas
      // nothing at all happens for an empty list of texts
      ensures texts == [] ==> err == None && points == old(points) && calls == old(calls)
      ensures texts == [] ==> forall m :: m in metadatas ==> m.entries == old(m.entries)
      // the embedding call fails: its exception comes out unchanged
      ensures texts != [] && backend.embedDocuments(texts).Failure? ==>
        && err == Some(backend.embedDocuments(texts).error)
        && points == old(points) && calls == old(calls) + [EmbedDocuments(texts)]
        && forall m :: m in metadatas ==> m.entries == old(m.entries)
      ensures texts != [] && backend.embedDocuments(texts).Success? ==>
        var vectors := backend.embedDocuments(texts).value;
        var n := if |texts| <= |vectors| then |texts| else |vectors|;
        var short := metadatas != [] && |metadatas| < n;
        // the caller's dictionaries visited so far get "text" set
        && (forall k :: 0 <= k < |metadatas| ==>
              metadatas[k].entries == Written(old(metadatas[k].entries), metadatas, texts, if short then |metadatas| else n, k))
        // too few metadatas: IndexError before anything is sent
        && (short ==> err == Some(IndexErrorText) && points == old(points) && calls == old(calls) + [EmbedDocuments(texts)])
        && (!short ==>
              // one point per (text, vector) pair, built from the caller's dictionary as it was on entry
              && |sent| == n
              && (forall j :: 0 <= j < n ==>
                    sent[j] == PointAt(backend.md5Prefix, texts[j], vectors[j], if metadatas == [] then map[] else old(metadatas[j].entries), j))
              // so identical texts at different positions get different ids
              && (forall i, j :: 0 <= i < j < n && texts[i] == texts[j] ==> sent[i].id < sent[j].id)
              && calls == old(calls) + [EmbedDocuments(texts), Upsert(sent)]
              && (backend.upsertFault(sent).None? ==> err == None && points == Upserted(old(points), sent))
              && (backend.upsertFault(sent).Some? ==>
                    err == Some(AddFailedPrefix + backend.upsertFault(sent).value) && points == old(points)))
    {
      sent := [];
      if texts == [] {
        return None, sent;
      }
      calls := calls + [EmbedDocuments(texts)];
      var embedded := backend.embedDocuments(texts);
      if embedded.Failure? {
        return Some(embedded.error), sent;
      }
      var vectors := embedded.value;
      var n := if |texts| <= |vectors| then |texts| else |vectors|;
      var batch, complete := PreparePoints(backend.md5Prefix, texts, vectors, n, metadatas);
      sent := batch;
      if !complete {
        return Some(IndexErrorText), sent;
      }
      calls := calls + [Upsert(batch)];
      var fault := backend.upsertFault(batch);
      if fault.Some? {
        return Some(AddFailedPrefix + fault.value), sent;
      }
      points := Upserted(points, batch);
      err := None;
    }

    /** `search(query, top_k)`: the database's hits, reshaped, in the database's order. */
    method Search(query: string, topK: int := 5) returns (r: Result<seq<SearchResult>, string>)
      modifies this`calls
      ensures points == old(points)
      ensures r == SearchOutcome(backend, points, query, topK)
      ensures calls == old(calls) + SearchCalls(backend, query, topK)
    {
      calls := calls + [EmbedQuery(query)];
      var embedded := backend.embedQuery(query);
      if embedded.Failure? {
        return Failure(embedded.error);
      }
      var v := embedded.value;
      calls := calls + [SearchPoints(v, topK)];
      var found := backend.search(points, v, topK);
      if found.Failure? {
        return Failure(SearchFailedPrefix + found.error);
      }
      var hits := found.value;
      var formatted: seq<SearchResult> := [];
      var i := 0;
      while i < |hits|
        invariant i <= |hits| && |formatted| == i
        invariant forall j :: 0 <= j < i ==> formatted[j] == FormatHit(hits[j])
      {
        formatted := formatted + [FormatHit(hits[i])];
        i := i + 1;
      }
      assert formatted == SearchOutcome(backend, points, query, topK).value;
      r := Success(formatted);
    }

    /** `clear_collection()`: drop the collection, then recreate it empty. */
    method ClearCollection() returns (err: Option<string>)
      modifies this`points, this`calls
      ensures backend.deleteFault(name).Some? ==>
        && err == Some(ClearFailedPrefix + backend.deleteFault(name).value)
        && points == old(points) && calls == old(calls) + [DeleteCollection(name)]
      ensures backend.deleteFault(name).None? ==>
        && points == map[]
        && calls == old(calls) + [DeleteCollection(name), EnsureCollection(name)]
        && err == if backend.ensureFault(name).Some?
                  then Some(ClearFailedPrefix + EnsureFailedPrefix + backend.ensureFault(name).value)
                  else None
    {
      calls := calls + [DeleteCollection(name)];
      var deleteFault := backend.deleteFault(name);
      if deleteFault.Some? {
        return Some(ClearFailedPrefix + deleteFault.value);
      }
      points := map[];
      calls := calls + [EnsureCollection(name)];
      var ensureFault := backend.ensureFault(name);
      if ensureFault.Some? {
        return Some(ClearFailedPrefix + EnsureFailedPrefix + ensureFault.value);
      }
      err := None;
    }
  }
}
