/** Batch fetching by token id, shared by both metadata services.

    The ids are split into consecutive chunks of `maxConcurrent`; the fetches
    of one chunk are started together and awaited together before the next
    chunk starts. Each fetch checks the cache synchronously when it is
    started, before any of them awaits, so every fetch of a chunk reads the
    cache as it stood when the chunk started; the writes of the chunk land
    afterwards. Results keep the order of the ids. */
module Batching {
  import opened Wrappers

  /** One record of a batch result: either metadata or an error, never both. */
  datatype BatchEntry<R> = Loaded(tokenId: real, metadata: R) | Failed(tokenId: real, error: string)

  /** What one fetch does: the result it settles with, and the value it
      leaves in the cache under `key` (None when it writes nothing). */
  datatype Effect<R, W> = Effect(result: Result<R>, key: string, write: Option<W>)

  /** The result of a batch and the cache after it. */
  datatype Outcome<R, W> = Outcome(entries: seq<BatchEntry<R>>, cache: map<string, W>)

  function Apply<W>(cache: map<string, W>, key: string, write: Option<W>): map<string, W>
  {
    if write.Some? then cache[key := write.value] else cache
  }

  /** `try { return {tokenId, metadata} } catch (e) { return {tokenId, error} }` */
  function EntryOf<R>(id: real, result: Result<R>): BatchEntry<R>
  {
    match result
    case Ok(m) => Loaded(id, m)
    case Err(e) => Failed(id, e)
  }

  /** The fetches of one chunk: each reads `snapshot`; their writes are
      applied to `cache` in input order. */
  function Chunk<R, W>(snapshot: map<string, W>, cache: map<string, W>, ids: seq<real>,
                       fetch: (map<string, W>, real) -> Effect<R, W>): Outcome<R, W>
    decreases |ids|
  {
    if ids == [] then Outcome([], cache)
    else
      var before := Chunk(snapshot, cache, ids[..|ids| - 1], fetch);
      var id := ids[|ids| - 1];
      var e := fetch(snapshot, id);
      Outcome(before.entries + [EntryOf(id, e.result)], Apply(before.cache, e.key, e.write))
  }

  function ChunkLength(maxConcurrent: nat, remaining: nat): nat
  {
    if maxConcurrent < remaining then maxConcurrent else remaining
  }

  /** `fetchMultipleMetadata`: chunk after chunk. */
  function Batch<R, W>(cache: map<string, W>, ids: seq<real>, maxConcurrent: nat,
                       fetch: (map<string, W>, real) -> Effect<R, W>): Outcome<R, W>
    requires maxConcurrent > 0
    decreases |ids|
  {
    if ids == [] then Outcome([], cache)
    else
      var n := ChunkLength(maxConcurrent, |ids|);
      var first := Chunk(cache, cache, ids[..n], fetch);
      var rest := Batch(first.cache, ids[n..], maxConcurrent, fetch);
      Outcome(first.entries + rest.entries, rest.cache)
  }

  /** `preloadMetadata`: no ids, nothing happens; otherwise every fetch is
      started at once and only the cache effect remains. */
  function Preload<R, W>(cache: map<string, W>, ids: seq<real>,
                         fetch: (map<string, W>, real) -> Effect<R, W>): map<string, W>
  {
    if ids == [] then cache else Chunk(cache, cache, ids, fetch).cache
  }

  /** The cache when chunk number `q` starts. */
  function CacheAtChunk<R, W>(cache: map<string, W>, ids: seq<real>, maxConcurrent: nat,
                              fetch: (map<string, W>, real) -> Effect<R, W>, q: nat): map<string, W>
    requires maxConcurrent > 0
    decreases q
  {
    if q == 0 || ids == [] then cache
    else
      var n := ChunkLength(maxConcurrent, |ids|);
      CacheAtChunk(Chunk(cache, cache, ids[..n], fetch).cache, ids[n..], maxConcurrent, fetch, q - 1)
  }

  // ---------------------------------------------------------------- lemmas

  /** Entry k of a chunk is the fetch of id k against the chunk's snapshot. */
  lemma {:induction false} ChunkEntries<R, W>(snapshot: map<string, W>, cache: map<string, W>, ids: seq<real>,
                                             fetch: (map<string, W>, real) -> Effect<R, W>)
    ensures |Chunk(snapshot, cache, ids, fetch).entries| == |ids|
    ensures forall k :: 0 <= k < |ids| ==>
      Chunk(snapshot, cache, ids, fetch).entries[k] == EntryOf(ids[k], fetch(snapshot, ids[k]).result)
    decreases |ids|
  {
    if ids != [] {
      var init := ids[..|ids| - 1];
      ChunkEntries(snapshot, cache, init, fetch);
      forall k | 0 <= k < |ids| - 1 ensures ids[k] == init[k] { }
    }
  }

  /** One more fetch of a chunk. */
  lemma ChunkStep<R, W>(snapshot: map<string, W>, cache: map<string, W>, ids: seq<real>, j: nat,
                        fetch: (map<string, W>, real) -> Effect<R, W>)
    requires j < |ids|
    ensures var before := Chunk(snapshot, cache, ids[..j], fetch);
            var e := fetch(snapshot, ids[j]);
            Chunk(snapshot, cache, ids[..j + 1], fetch)
              == Outcome(before.entries + [EntryOf(ids[j], e.result)], Apply(before.cache, e.key, e.write))
  {
    assert ids[..j + 1][..j] == ids[..j];
  }

  /** A batch is its first chunk followed by the batch of the rest. */
  lemma BatchStep<R, W>(cache: map<string, W>, ids: seq<real>, i: nat, end: nat, maxConcurrent: nat,
                        fetch: (map<string, W>, real) -> Effect<R, W>)
    requires maxConcurrent > 0 && i < end <= |ids|
    requires end == if i + maxConcurrent < |ids| then i + maxConcurrent else |ids|
    ensures var first := Chunk(cache, cache, ids[i..end], fetch);
            var rest := Batch(first.cache, ids[end..], maxConcurrent, fetch);
            Batch(cache, ids[i..], maxConcurrent, fetch) == Outcome(first.entries + rest.entries, rest.cache)
  {
    assert ids[i..][..end - i] == ids[i..end];
    assert ids[i..][end - i..] == ids[end..];
  }

  /** The batch loop's invariant: the results gathered so far, followed by
      what the rest of the ids yield from the current cache, make up the
      whole batch. */
  ghost predicate BatchSoFar<R, W>(start: map<string, W>, ids: seq<real>, maxConcurrent: nat,
                                   fetch: (map<string, W>, real) -> Effect<R, W>,
                                   results: seq<BatchEntry<R>>, cache: map<string, W>, i: nat)
    requires maxConcurrent > 0 && i <= |ids|
  {
    var rest := Batch(cache, ids[i..], maxConcurrent, fetch);
    Batch(start, ids, maxConcurrent, fetch) == Outcome(results + rest.entries, rest.cache)
  }

  /** Running the chunk from `i` to `end` keeps the invariant. */
  lemma BatchSoFarStep<R, W>(start: map<string, W>, ids: seq<real>, maxConcurrent: nat,
                             fetch: (map<string, W>, real) -> Effect<R, W>,
                             results: seq<BatchEntry<R>>, cache: map<string, W>, i: nat, end: nat,
                             chunkResults: seq<BatchEntry<R>>, chunkCache: map<string, W>)
    requires maxConcurrent > 0 && i < end <= |ids|
    requires end == if i + maxConcurrent < |ids| then i + maxConcurrent else |ids|
    requires BatchSoFar(start, ids, maxConcurrent, fetch, results, cache, i)
    requires Chunk(cache, cache, ids[i..end], fetch) == Outcome(chunkResults, chunkCache)
    ensures BatchSoFar(start, ids, maxConcurrent, fetch, results + chunkResults, chunkCache, end)
  {
    BatchStep(cache, ids, i, end, maxConcurrent, fetch);
    var rest := Batch(chunkCache, ids[end..], maxConcurrent, fetch);
    assert (results + chunkResults) + rest.entries == results + (chunkResults + rest.entries);
  }

  /** At the end of the ids the results are the whole batch's. */
  lemma BatchSoFarDone<R, W>(start: map<string, W>, ids: seq<real>, maxConcurrent: nat,
                             fetch: (map<string, W>, real) -> Effect<R, W>,
                             results: seq<BatchEntry<R>>, cache: map<string, W>)
    requires maxConcurrent > 0
    requires BatchSoFar(start, ids, maxConcurrent, fetch, results, cache, |ids|)
    ensures Batch(start, ids, maxConcurrent, fetch) == Outcome(results, cache)
  {
    assert ids[|ids|..] == [];
  }

  /** The chunk that position `k` falls into: `k / maxConcurrent`. */
  function ChunkOf(k: nat, maxConcurrent: nat): nat
    requires maxConcurrent > 0
    decreases k
  {
    if k < maxConcurrent then 0 else 1 + ChunkOf(k - maxConcurrent, maxConcurrent)
  }

  /** Chunk q covers exactly the positions q * maxConcurrent up to, not
      including, (q + 1) * maxConcurrent. */
  lemma {:induction false} ChunkOfBounds(k: nat, maxConcurrent: nat)
    requires maxConcurrent > 0
    ensures ChunkOf(k, maxConcurrent) * maxConcurrent <= k < ChunkOf(k, maxConcurrent) * maxConcurrent + maxConcurrent
    decreases k
  {
    if k >= maxConcurrent {
      ChunkOfBounds(k - maxConcurrent, maxConcurrent);
      var c := ChunkOf(k - maxConcurrent, maxConcurrent);
      assert (c + 1) * maxConcurrent == c * maxConcurrent + maxConcurrent;
    }
  }

  /** Past the first chunk, positions, chunk numbers and chunk caches are
      those of the rest of the batch, shifted by one chunk. */
  lemma LaterChunk<R, W>(cache: map<string, W>, ids: seq<real>, maxConcurrent: nat,
                         fetch: (map<string, W>, real) -> Effect<R, W>, k: nat)
    requires maxConcurrent > 0 && ChunkLength(maxConcurrent, |ids|) <= k < |ids|
    ensures var n := ChunkLength(maxConcurrent, |ids|);
            var first := Chunk(cache, cache, ids[..n], fetch);
            && n == maxConcurrent
            && ChunkOf(k, maxConcurrent) == ChunkOf(k - n, maxConcurrent) + 1
            && CacheAtChunk(cache, ids, maxConcurrent, fetch, ChunkOf(k, maxConcurrent))
               == CacheAtChunk(first.cache, ids[n..], maxConcurrent, fetch, ChunkOf(k - n, maxConcurrent))
            && ids[k] == ids[n..][k - n]
  {
  }

  /** Every id yields exactly one entry, in input order, and entry k is the
      fetch of id k against the cache as it stood when chunk
      k / maxConcurrent started. */
  lemma {:induction false} BatchEntries<R, W>(cache: map<string, W>, ids: seq<real>, maxConcurrent: nat,
                                             fetch: (map<string, W>, real) -> Effect<R, W>)
    requires maxConcurrent > 0
    ensures |Batch(cache, ids, maxConcurrent, fetch).entries| == |ids|
    ensures forall k :: 0 <= k < |ids| ==>
      Batch(cache, ids, maxConcurrent, fetch).entries[k]
        == EntryOf(ids[k], fetch(CacheAtChunk(cache, ids, maxConcurrent, fetch, ChunkOf(k, maxConcurrent)), ids[k]).result)
    decreases |ids|
  {
    if ids != [] {
      var n := ChunkLength(maxConcurrent, |ids|);
      var first := Chunk(cache, cache, ids[..n], fetch);
      ChunkEntries(cache, cache, ids[..n], fetch);
      BatchEntries(first.cache, ids[n..], maxConcurrent, fetch);
      var rest := Batch(first.cache, ids[n..], maxConcurrent, fetch);
      var out := Batch(cache, ids, maxConcurrent, fetch);
      assert out.entries == first.entries + rest.entries;
      forall k | 0 <= k < |ids|
        ensures out.entries[k]
          == EntryOf(ids[k], fetch(CacheAtChunk(cache, ids, maxConcurrent, fetch, ChunkOf(k, maxConcurrent)), ids[k]).result)
      {
        if k < n {
          assert ChunkOf(k, maxConcurrent) == 0;
          assert out.entries[k] == first.entries[k];
        } else {
          LaterChunk(cache, ids, maxConcurrent, fetch, k);
          assert out.entries[k] == rest.entries[k - n];
        }
      }
    }
  }

  /** Corollary: each record carries the id it was made for. */
  lemma BatchKeepsOrder<R, W>(cache: map<string, W>, ids: seq<real>, maxConcurrent: nat,
                              fetch: (map<string, W>, real) -> Effect<R, W>)
    requires maxConcurrent > 0
    ensures |Batch(cache, ids, maxConcurrent, fetch).entries| == |ids|
    ensures forall k :: 0 <= k < |ids| ==> Batch(cache, ids, maxConcurrent, fetch).entries[k].tokenId == ids[k]
  {
    BatchEntries(cache, ids, maxConcurrent, fetch);
  }

  /** Preloading has the cache effect of a batch whose single chunk holds
      every id. */
  lemma PreloadIsOneChunk<R, W>(cache: map<string, W>, ids: seq<real>,
                                fetch: (map<string, W>, real) -> Effect<R, W>)
    requires ids != []
    ensures Preload(cache, ids, fetch) == Batch(cache, ids, |ids|, fetch).cache
  {
    assert ids[..|ids|] == ids;
    assert ids[|ids|..] == [];
  }

  /** Every entry of `cache` satisfies `keep`. */
  predicate AllKept<W>(cache: map<string, W>, keep: (string, W) -> bool)
  {
    forall key :: key in cache ==> keep(key, cache[key])
  }

  /** `fetch` only ever writes entries that satisfy `keep`. */
  ghost predicate WritesKept<R, W(!new)>(fetch: (map<string, W>, real) -> Effect<R, W>, keep: (string, W) -> bool)
  {
    forall snapshot: map<string, W>, id: real {:trigger fetch(snapshot, id)} :: fetch(snapshot, id).write.Some? ==>
      keep(fetch(snapshot, id).key, fetch(snapshot, id).write.value)
  }

  lemma {:induction false} ChunkKeeps<R, W(!new)>(snapshot: map<string, W>, cache: map<string, W>, ids: seq<real>,
                                           fetch: (map<string, W>, real) -> Effect<R, W>, keep: (string, W) -> bool)
    requires AllKept(cache, keep) && WritesKept(fetch, keep)
    ensures AllKept(Chunk(snapshot, cache, ids, fetch).cache, keep)
    decreases |ids|
  {
    if ids != [] {
      ChunkKeeps(snapshot, cache, ids[..|ids| - 1], fetch, keep);
    }
  }

  /** A property of cache entries that every write keeps holds after a
      whole batch. */
  lemma {:induction false} BatchKeeps<R, W(!new)>(cache: map<string, W>, ids: seq<real>, maxConcurrent: nat,
                                           fetch: (map<string, W>, real) -> Effect<R, W>, keep: (string, W) -> bool)
    requires maxConcurrent > 0
    requires AllKept(cache, keep) && WritesKept(fetch, keep)
    ensures AllKept(Batch(cache, ids, maxConcurrent, fetch).cache, keep)
    decreases |ids|
  {
    if ids != [] {
      var n := ChunkLength(maxConcurrent, |ids|);
      ChunkKeeps(cache, cache, ids[..n], fetch, keep);
      BatchKeeps(Chunk(cache, cache, ids[..n], fetch).cache, ids[n..], maxConcurrent, fetch, keep);
    }
  }

  lemma PreloadKeeps<R, W(!new)>(cache: map<string, W>, ids: seq<real>,
                           fetch: (map<string, W>, real) -> Effect<R, W>, keep: (string, W) -> bool)
    requires AllKept(cache, keep) && WritesKept(fetch, keep)
    ensures AllKept(Preload(cache, ids, fetch), keep)
  {
    ChunkKeeps(cache, cache, ids, fetch, keep);
  }
}
