/** The local chunk cache and the transfer from unreliable peers (src/p2p/cache.rs,
    src/p2p/transfer.rs). */
module Transfer {
  import opened Common
  import opened Chunks

  // ---- the cache ----

  /** The chunk files on disk and the in-memory index. Files may be missing or damaged. */
  datatype Cache = Cache(files: map<string, Bytes>, index: set<string>)

  datatype Got = Found(chunk: Chunk) | Missing | IoError

  /** A damaged file is removed together with its index entry. */
  function Get(h: Hasher, c: Cache, hash: string): (Cache, Got) {
    if hash !in c.index then (c, Missing)
    else if hash !in c.files then (c, IoError)
    else if h(c.files[hash]) != hash then (Cache(c.files - {hash}, c.index - {hash}), Missing)
    else (c, Found(Chunk(hash, c.files[hash], |c.files[hash]|)))
  }

  function Put(c: Cache, hash: string, data: Bytes): Cache {
    Cache(c.files[hash := data], c.index + {hash})
  }

  /** The chunk is indexed and its file hashes to its name. */
  predicate Good(h: Hasher, c: Cache, hash: string) {
    hash in c.index && hash in c.files && h(c.files[hash]) == hash
  }

  ghost predicate AllGood(h: Hasher, c: Cache, hashes: seq<string>) {
    forall i :: 0 <= i < |hashes| ==> Good(h, c, hashes[i])
  }

  /** The chunk at `k` is the first of the listed ones that is not good. */
  ghost predicate FirstUnread(h: Hasher, c: Cache, hashes: seq<string>, k: int) {
    0 <= k < |hashes| && !Good(h, c, hashes[k]) && forall i :: 0 <= i < k ==> Good(h, c, hashes[i])
  }

  /** Retrieving stops there: a lost file is a failure; a chunk that is not indexed or
      is damaged leaves the data incomplete, and the damaged one is dropped. */
  ghost predicate BadEnds(h: Hasher, c: Cache, c': Cache, hash: string, r: Retrieved) {
    if hash !in c.index then c' == c && r == Incomplete
    else if hash !in c.files then c' == c && r == Failed
    else c' == Cache(c.files - {hash}, c.index - {hash}) && r == Incomplete
  }

  lemma {:induction false} ReadAllGood(h: Hasher, c: Cache, hashes: seq<string>)
    requires AllGood(h, c, hashes)
    ensures ReadAll(h, c, hashes).0 == c && ReadAll(h, c, hashes).1.Some?
    decreases hashes
  {
    if hashes != [] {
      ReadAllGood(h, c, hashes[1..]);
    }
  }

  lemma {:induction false} ReadAllEnds(h: Hasher, c: Cache, hashes: seq<string>, k: int)
    requires FirstUnread(h, c, hashes, k)
    ensures
      var (c', got, io) := ReadAll(h, c, hashes);
      got.None? && BadEnds(h, c, c', hashes[k], if io then Failed else Incomplete)
    decreases k
  {
    if k > 0 {
      ReadAllEnds(h, c, hashes[1..], k - 1);
    }
  }

  datatype Retrieved = Data(data: Bytes) | Incomplete | Failed

  /** Reads the listed chunks in order and stops at the first that cannot be read. */
  function ReadAll(h: Hasher, c: Cache, hashes: seq<string>): (r: (Cache, Option<seq<Chunk>>, bool))
    ensures r.1.Some? ==> |r.1.value| == |hashes|
  {
    if hashes == [] then (c, Some([]), false)
    else
      var (c', got) := Get(h, c, hashes[0]);
      match got
      case Missing => (c', None, false)
      case IoError => (c', None, true)
      case Found(chunk) =>
        var (c'', rest, io) := ReadAll(h, c', hashes[1..]);
        (c'', if rest.Some? then Some([chunk] + rest.value) else None, io)
  }

  function Retrieve(h: Hasher, c: Cache, m: Manifest): (r: (Cache, Retrieved))
    ensures r.1.Data? ==> h(r.1.data) == m.rootHash
  {
    var (c', chunks, io) := ReadAll(h, c, m.chunks);
    if chunks.None? then (c', if io then Failed else Incomplete)
    else
      var a := ReassembleSpec(h, m, chunks.value);
      (c', if a.Assembled? then Data(a.data) else Failed)
  }

  /** Retrieving reads on while the chunks are good, and then changes nothing; the first that is
      not decides what comes of it. */
  lemma RetrieveEnds(h: Hasher, c: Cache, m: Manifest)
    ensures AllGood(h, c, m.chunks) ==> Retrieve(h, c, m).0 == c && !Retrieve(h, c, m).1.Incomplete?
    ensures forall k :: FirstUnread(h, c, m.chunks, k) ==>
              BadEnds(h, c, Retrieve(h, c, m).0, m.chunks[k], Retrieve(h, c, m).1)
  {
    hide AllGood, BadEnds, ReadAll;
    if AllGood(h, c, m.chunks) {
      ReadAllGood(h, c, m.chunks);
    }
    forall k | FirstUnread(h, c, m.chunks, k)
      ensures BadEnds(h, c, Retrieve(h, c, m).0, m.chunks[k], Retrieve(h, c, m).1)
    {
      ReadAllEnds(h, c, m.chunks, k);
    }
  }

  /** How many of the listed hashes are in the index, counting repeats. */
  function Held(index: set<string>, hashes: seq<string>): nat {
    if hashes == [] then 0
    else
      var k := |hashes| - 1;
      Held(index, hashes[..k]) + if hashes[k] in index then 1 else 0
  }

  lemma {:induction false} HeldAll(index: set<string>, hashes: seq<string>)
    ensures Held(index, hashes) <= |hashes|
    ensures Held(index, hashes) == |hashes| <==> forall i :: 0 <= i < |hashes| ==> hashes[i] in index
    decreases hashes
  {
    if hashes != [] {
      HeldAll(index, hashes[..|hashes| - 1]);
    }
  }

  class DataCache {
    const h: Hasher
    var files: map<string, Bytes>
    var index: set<string>
    var manifests: map<string, Manifest>

    ghost function Contents(): Cache
      reads this
    {
      Cache(files, index)
    }

    constructor (h: Hasher)
      ensures this.h == h && Contents() == Cache(map[], {}) && manifests == map[]
    {
      this.h := h;
      files, index, manifests := map[], {}, map[];
    }

    method PutChunk(chunk: Chunk) returns (ok: bool)
      modifies this`files, this`index
      ensures ok == chunk.Verify(h)
      ensures Contents() == if ok then Put(old(Contents()), chunk.hash, chunk.data) else old(Contents())
      ensures ok ==> files == old(files)[chunk.hash := chunk.data] && index == old(index) + {chunk.hash}
    {
      if !chunk.Verify(h) {
        return false;
      }
      files := files[chunk.hash := chunk.data];
      index := index + {chunk.hash};
      ok := true;
    }

    method GetChunk(hash: string) returns (got: Got)
      modifies this`files, this`index
      ensures (Contents(), got) == Get(h, old(Contents()), hash)
      ensures old(hash !in index) ==> got == Missing
      ensures old(hash in index && hash !in files) ==> got == IoError
      ensures old(hash in index && hash in files && h(files[hash]) == hash) ==>
                got == Found(Chunk(hash, old(files[hash]), |old(files[hash])|))
      ensures old(hash in index && hash in files && h(files[hash]) != hash) ==> got == Missing
      ensures if old(hash in index && hash in files && h(files[hash]) != hash)
              then files == old(files) - {hash} && index == old(index) - {hash}
              else files == old(files) && index == old(index)
    {
      if hash !in index {
        return Missing;
      }
      if hash !in files {
        return IoError;
      }
      var chunk := Chunk(hash, files[hash], 0);
      if !chunk.Verify(h) {
        files := files - {hash};
        index := index - {hash};
        return Missing;
      }
      got := Found(chunk.(size := |chunk.data|));
    }

    /** How many of the listed chunks the index has. */
    method ManifestCompleteness(m: Manifest) returns (have: nat, total: nat)
      ensures total == |m.chunks| && have == Held(index, m.chunks)
    {
      have := 0;
      for i := 0 to |m.chunks|
        invariant have == Held(index, m.chunks[..i])
      {
        assert m.chunks[..i + 1][..i] == m.chunks[..i];
        if m.chunks[i] in index {
          have := have + 1;
        }
      }
      assert m.chunks[..|m.chunks|] == m.chunks;
      total := |m.chunks|;
    }

    /** `store_data`: every piece of the data ends up as a file under its hash. */
    method StoreData(data: Bytes, contentType: string, name: string) returns (m: Manifest)
      modifies this
      ensures m == ManifestOf(h, data, contentType, name)
      ensures Contents() == PutAll(h, old(Contents()), Pieces(data, CHUNK_SIZE))
      ensures manifests == old(manifests)[m.rootHash := m]
    {
      var chunks;
      m, chunks := FromData(h, data, contentType, name);
      ghost var ps := Pieces(data, CHUNK_SIZE);
      for i := 0 to |chunks|
        invariant Contents() == PutAll(h, old(Contents()), ps[..i]) && manifests == old(manifests)
      {
        var ok := PutChunk(chunks[i]);
        assert ps[..i + 1][..i] == ps[..i];
      }
      assert ps[..|chunks|] == ps;
      manifests := manifests[m.rootHash := m];
    }

    method RetrieveData(m: Manifest) returns (r: Retrieved)
      modifies this`files, this`index
      ensures (Contents(), r) == Retrieve(h, old(Contents()), m)
    {
      var chunks: seq<Chunk> := [];
      assert m.chunks[0..] == m.chunks;
      assert forall rest: seq<Chunk> :: chunks + rest == rest;
      for i := 0 to |m.chunks|
        invariant |chunks| == i
        invariant
          var (c, got, io) := ReadAll(h, Contents(), m.chunks[i..]);
          ReadAll(h, old(Contents()), m.chunks) == (c, if got.Some? then Some(chunks + got.value) else None, io)
      {
        assert m.chunks[i..][0] == m.chunks[i] && m.chunks[i..][1..] == m.chunks[i + 1..];
        var got := GetChunk(m.chunks[i]);
        match got
        case Missing => return Incomplete;
        case IoError => return Failed;
        case Found(chunk) =>
          assert forall rest: seq<Chunk> :: chunks + ([chunk] + rest) == (chunks + [chunk]) + rest;
          chunks := chunks + [chunk];
      }
      assert chunks + [] == chunks;
      var a := Reassemble(h, m, chunks);
      r := if a.Assembled? then Data(a.data) else Failed;
    }
  }

  function PutAll(h: Hasher, c: Cache, ps: seq<Bytes>): Cache {
    if ps == [] then c
    else
      var n := |ps| - 1;
      Put(PutAll(h, c, ps[..n]), h(ps[n]), ps[n])
  }

  // ---- fetching from peers ----

  /** What asking one holder comes to; `Broken` is a success status whose body cannot be
      read to its end. */
  datatype Reply = Unreachable | Refused | Body(data: Bytes) | Broken

  /** Holders are asked in turn. A wrong body is skipped, a broken one ends the attempt. */
  function Ask(h: Hasher, hash: string, replies: seq<Reply>): (r: Option<Bytes>)
    ensures r.Some? ==> h(r.value) == hash
  {
    if replies == [] || replies[0].Broken? then None
    else if replies[0].Body? && h(replies[0].data) == hash then Some(replies[0].data)
    else Ask(h, hash, replies[1..])
  }

  /** The holder at `j` is the first that sends the chunk, and none before it breaks off. */
  ghost predicate FirstAnswer(h: Hasher, hash: string, replies: seq<Reply>, j: int) {
    && 0 <= j < |replies| && replies[j].Body? && h(replies[j].data) == hash
    && forall i :: 0 <= i < j ==> !replies[i].Broken? && (replies[i].Body? ==> h(replies[i].data) != hash)
  }

  lemma {:induction false} AskIsFirst(h: Hasher, hash: string, replies: seq<Reply>)
    ensures forall j :: FirstAnswer(h, hash, replies, j) ==> Ask(h, hash, replies) == Some(replies[j].data)
    ensures Ask(h, hash, replies).Some? ==> exists j :: FirstAnswer(h, hash, replies, j)
    decreases replies
  {
    if replies != [] {
      var rest := replies[1..];
      AskIsFirst(h, hash, rest);
      assert forall i :: 0 <= i < |rest| ==> rest[i] == replies[i + 1];
      forall j | FirstAnswer(h, hash, replies, j) ensures Ask(h, hash, replies) == Some(replies[j].data) {
        if j > 0 {
          assert FirstAnswer(h, hash, rest, j - 1);
        }
      }
      if Ask(h, hash, replies).Some? {
        if replies[0].Body? && h(replies[0].data) == hash {
          assert FirstAnswer(h, hash, replies, 0);
        } else {
          var j :| FirstAnswer(h, hash, rest, j);
          assert FirstAnswer(h, hash, replies, j + 1);
        }
      }
    }
  }

  method FetchChunkFromPeers(cache: DataCache, hash: string, replies: seq<Reply>) returns (ok: bool)
    modifies cache`files, cache`index
    ensures ok == Ask(cache.h, hash, replies).Some?
    ensures cache.Contents() ==
              if ok then Put(old(cache.Contents()), hash, Ask(cache.h, hash, replies).value) else old(cache.Contents())
    ensures ok <==> exists j :: FirstAnswer(cache.h, hash, replies, j)
    ensures forall j :: FirstAnswer(cache.h, hash, replies, j) ==>
              && cache.files == old(cache.files)[hash := replies[j].data]
              && cache.index == old(cache.index) + {hash}
  {
    AskIsFirst(cache.h, hash, replies);
    if replies == [] {
      return false;
    }
    assert replies[0..] == replies;
    for i := 0 to |replies|
      invariant Ask(cache.h, hash, replies) == Ask(cache.h, hash, replies[i..])
      invariant cache.Contents() == old(cache.Contents())
    {
      assert replies[i..][1..] == replies[i + 1..];
      match replies[i]
      case Body(data) =>
        var chunk := Chunk(hash, data, |data|);
        if chunk.Verify(cache.h) {
          ok := cache.PutChunk(chunk);
          return;
        }
      case Broken => return false;
      case _ =>
    }
    ok := false;
  }

  /** The listed chunks that the index lacks, in order, repeats included. */
  function MissingOf(index: set<string>, hashes: seq<string>): seq<string> {
    if hashes == [] then []
    else if hashes[0] in index then MissingOf(index, hashes[1..])
    else [hashes[0]] + MissingOf(index, hashes[1..])
  }

  lemma {:induction false} MissingIff(index: set<string>, hashes: seq<string>)
    ensures forall x :: x in MissingOf(index, hashes) <==> x in hashes && x !in index
    ensures forall x :: multiset(MissingOf(index, hashes))[x] == if x in index then 0 else multiset(hashes)[x]
    decreases hashes
  {
    if hashes != [] {
      assert hashes == [hashes[0]] + hashes[1..];
      MissingIff(index, hashes[1..]);
      assert forall x :: x in hashes <==> x == hashes[0] || x in hashes[1..];
    }
  }

  /** The fetch tasks finish in any order: `order` names each task once. */
  ghost predicate IsOrder(order: seq<nat>, n: nat) {
    && |order| == n && (forall k :: 0 <= k < n ==> order[k] < n)
    && (forall i: nat :: i < n ==> i in order)
  }

  /** The cache after the tasks of `order` have run, and whether all of them succeeded. */
  function RunTasks(h: Hasher, c: Cache, missing: seq<string>, replies: seq<seq<Reply>>, order: seq<nat>): (Cache, bool)
    requires |replies| == |missing| && forall k :: 0 <= k < |order| ==> order[k] < |missing|
  {
    if order == [] then (c, true)
    else
      var n := |order| - 1;
      var (c', ok) := RunTasks(h, c, missing, replies, order[..n]);
      var got := Ask(h, missing[order[n]], replies[order[n]]);
      if got.Some? then (Put(c', missing[order[n]], got.value), ok) else (c', false)
  }

  function FetchSpec(h: Hasher, c: Cache, m: Manifest, replies: seq<seq<Reply>>,
                     order: seq<nat>): (r: (Cache, Option<Bytes>))
    requires |replies| == |MissingOf(c.index, m.chunks)|
    requires forall k :: 0 <= k < |order| ==> order[k] < |replies|
    ensures r.1.Some? ==> h(r.1.value) == m.rootHash
  {
    var (c', ok) := RunTasks(h, c, MissingOf(c.index, m.chunks), replies, order);
    if !ok then (c', None)
    else
      var (c'', r) := Retrieve(h, c', m);
      (c'', if r.Data? then Some(r.data) else None)
  }

  method CollectMissing(cache: DataCache, m: Manifest) returns (missing: seq<string>)
    ensures missing == MissingOf(cache.index, m.chunks)
  {
    missing := [];
    assert m.chunks[0..] == m.chunks;
    assert [] + MissingOf(cache.index, m.chunks) == MissingOf(cache.index, m.chunks);
    for i := 0 to |m.chunks|
      invariant missing + MissingOf(cache.index, m.chunks[i..]) == MissingOf(cache.index, m.chunks)
    {
      ghost var rest := MissingOf(cache.index, m.chunks[i + 1..]);
      assert m.chunks[i..][0] == m.chunks[i] && m.chunks[i..][1..] == m.chunks[i + 1..];
      if m.chunks[i] !in cache.index {
        assert missing + ([m.chunks[i]] + rest) == (missing + [m.chunks[i]]) + rest;
        missing := missing + [m.chunks[i]];
      }
    }
    assert missing + [] == missing;
  }

  /** The spawned tasks, in the order in which they happen to finish. */
  method AwaitTasks(cache: DataCache, missing: seq<string>, replies: seq<seq<Reply>>, order: seq<nat>)
    returns (failures: nat)
    requires |replies| == |missing| && forall k :: 0 <= k < |order| ==> order[k] < |missing|
    modifies cache`files, cache`index
    ensures (cache.Contents(), failures == 0) == RunTasks(cache.h, old(cache.Contents()), missing, replies, order)
  {
    failures := 0;
    for k := 0 to |order|
      invariant (cache.Contents(), failures == 0) ==
                  RunTasks(cache.h, old(cache.Contents()), missing, replies, order[..k])
    {
      assert order[..k + 1][..k] == order[..k];
      var ok := FetchChunkFromPeers(cache, missing[order[k]], replies[order[k]]);
      if !ok {
        failures := failures + 1;
      }
    }
    assert order[..|order|] == order;
  }

  lemma {:induction false} NothingMissing(index: set<string>, hashes: seq<string>)
    requires forall i :: 0 <= i < |hashes| ==> hashes[i] in index
    ensures MissingOf(index, hashes) == []
    decreases hashes
  {
    if hashes != [] {
      NothingMissing(index, hashes[1..]);
    }
  }

  /** `fetch`. With no assumption on the cache or the peers, what it returns hashes to
      the root of the manifest. */
  method Fetch(cache: DataCache, m: Manifest, replies: seq<seq<Reply>>, order: seq<nat>) returns (r: Option<Bytes>)
    requires |replies| == |MissingOf(cache.index, m.chunks)| && IsOrder(order, |replies|)
    modifies cache`files, cache`index
    ensures (cache.Contents(), r) == FetchSpec(cache.h, old(cache.Contents()), m, replies, order)
    ensures r.Some? ==> cache.h(r.value) == m.rootHash
  {
    hide Retrieve, MissingOf;
    var have, total := cache.ManifestCompleteness(m);
    HeldAll(cache.index, m.chunks);
    if have == total {
      NothingMissing(cache.index, m.chunks);
      var got := cache.RetrieveData(m);
      return if got.Data? then Some(got.data) else None;
    }
    var missing := CollectMissing(cache, m);
    var failures := AwaitTasks(cache, missing, replies, order);
    if failures > 0 {
      return None;
    }
    var got := cache.RetrieveData(m);
    r := if got.Data? then Some(got.data) else None;
  }

  // ---- when fetching succeeds ----

  /** No other byte string has the hash of any of these pieces. */
  ghost predicate NoCollision(h: Hasher, ps: seq<Bytes>) {
    forall i, x: Bytes :: 0 <= i < |ps| && h(x) == h(ps[i]) ==> x == ps[i]
  }

  /** Every task found a holder. */
  ghost predicate AllFound(h: Hasher, missing: seq<string>, replies: seq<seq<Reply>>)
    requires |replies| == |missing|
  {
    forall i :: 0 <= i < |missing| ==> Ask(h, missing[i], replies[i]).Some?
  }

  /** Whatever the order, all tasks succeed exactly when each would alone; the chunks
      they were after are then good, and nothing else in the cache has changed. */
  lemma {:induction false} TasksRun(h: Hasher, c: Cache, missing: seq<string>, replies: seq<seq<Reply>>,
                                    order: seq<nat>)
    requires |replies| == |missing| && forall k :: 0 <= k < |order| ==> order[k] < |missing|
    ensures
      var (c', ok) := RunTasks(h, c, missing, replies, order);
      && (ok <==> forall k :: 0 <= k < |order| ==> Ask(h, missing[order[k]], replies[order[k]]).Some?)
      && (forall k :: 0 <= k < |order| && Ask(h, missing[order[k]], replies[order[k]]).Some? ==>
          Good(h, c', missing[order[k]]))
      && (forall x :: x !in missing ==> (x in c'.index <==> x in c.index) && (x in c'.files <==> x in c.files)
                                        && (x in c.files ==> c'.files[x] == c.files[x]))
      && (forall x :: Good(h, c, x) ==> Good(h, c', x))
    decreases order
  {
    if order != [] {
      TasksRun(h, c, missing, replies, order[..|order| - 1]);
    }
  }

  /** Reading succeeds exactly when every listed chunk is good, and then yields each
      chunk's file. */
  lemma {:induction false} ReadAllIff(h: Hasher, c: Cache, hashes: seq<string>)
    ensures ReadAll(h, c, hashes).1.Some? <==> forall i :: 0 <= i < |hashes| ==> Good(h, c, hashes[i])
    ensures ReadAll(h, c, hashes).1.Some? ==>
              forall i :: 0 <= i < |hashes| ==>
                ReadAll(h, c, hashes).1.value[i] == Chunk(hashes[i], c.files[hashes[i]], |c.files[hashes[i]]|)
    decreases hashes
  {
    if hashes != [] {
      var (c', got) := Get(h, c, hashes[0]);
      if got.Found? {
        ReadAllIff(h, c, hashes[1..]);
        assert (forall i :: 0 <= i < |hashes| ==> Good(h, c, hashes[i])) <==>
               Good(h, c, hashes[0]) && forall i :: 0 <= i < |hashes[1..]| ==> Good(h, c, hashes[1..][i]) by {
          assert forall i :: 1 <= i < |hashes| ==> hashes[i] == hashes[1..][i - 1];
        }
      } else {
        assert !Good(h, c, hashes[0]);
      }
    }
  }

  /** Retrieving the manifest of `data` gives `data` exactly when every chunk is good. */
  lemma RetrieveIff(h: Hasher, c: Cache, data: Bytes, contentType: string, name: string)
    requires NoCollision(h, Pieces(data, CHUNK_SIZE))
    ensures
      var m := ManifestOf(h, data, contentType, name);
      && (Retrieve(h, c, m).1 == Data(data) <==> forall i :: 0 <= i < |m.chunks| ==> Good(h, c, m.chunks[i]))
      && (Retrieve(h, c, m).1.Data? ==> Retrieve(h, c, m).1.data == data)
  {
    var m, ps := ManifestOf(h, data, contentType, name), Pieces(data, CHUNK_SIZE);
    ReadAllIff(h, c, m.chunks);
    var got := ReadAll(h, c, m.chunks).1;
    if got.Some? {
      var chunks := got.value;
      forall i | 0 <= i < |chunks| ensures chunks[i].data == ps[i] && chunks[i].Verify(h) {
        assert Good(h, c, m.chunks[i]);
        assert h(c.files[m.chunks[i]]) == h(ps[i]);
      }
      SplitThenReassemble(h, data, contentType, name, chunks);
    }
  }

  /** Fetching the manifest of `data` returns exactly `data`, for data of any length and
      tasks finishing in any order, if and only if every chunk the index claims is good
      on disk and every missing chunk is found at some holder. */
  lemma FetchIff(h: Hasher, c: Cache, data: Bytes, contentType: string, name: string, replies: seq<seq<Reply>>,
                 order: seq<nat>)
    requires NoCollision(h, Pieces(data, CHUNK_SIZE))
    requires
      var m := ManifestOf(h, data, contentType, name);
      |replies| == |MissingOf(c.index, m.chunks)| && IsOrder(order, |replies|)
    ensures
      var m := ManifestOf(h, data, contentType, name);
      FetchSpec(h, c, m, replies, order).1 == Some(data) <==>
        && AllFound(h, MissingOf(c.index, m.chunks), replies)
        && forall i :: 0 <= i < |m.chunks| && m.chunks[i] in c.index ==> Good(h, c, m.chunks[i])
  {
    hide Retrieve, RunTasks, MissingOf, Good, AllFound;
    var m := ManifestOf(h, data, contentType, name);
    var missing := MissingOf(c.index, m.chunks);
    TasksRun(h, c, missing, replies, order);
    OrderCovers(h, missing, replies, order);
    var (c', ok) := RunTasks(h, c, missing, replies, order);
    RetrieveIff(h, c', data, contentType, name);
    if ok {
      forall i | 0 <= i < |m.chunks|
        ensures Good(h, c', m.chunks[i]) <==> (m.chunks[i] in c.index ==> Good(h, c, m.chunks[i]))
      {
        AfterTasks(h, c, c', missing, m, i);
      }
    }
  }

  lemma AfterTasks(h: Hasher, c: Cache, c': Cache, missing: seq<string>, m: Manifest, i: nat)
    requires i < |m.chunks| && missing == MissingOf(c.index, m.chunks)
    requires forall j :: 0 <= j < |missing| ==> Good(h, c', missing[j])
    requires forall x :: x !in missing ==> (x in c'.index <==> x in c.index) && (x in c'.files <==> x in c.files)
                                           && (x in c.files ==> c'.files[x] == c.files[x])
    ensures Good(h, c', m.chunks[i]) <==> (m.chunks[i] in c.index ==> Good(h, c, m.chunks[i]))
  {
    MissingIff(c.index, m.chunks);
    if m.chunks[i] in c.index {
      assert m.chunks[i] !in missing;
    } else {
      assert m.chunks[i] in missing;
    }
  }

  lemma OrderCovers(h: Hasher, missing: seq<string>, replies: seq<seq<Reply>>, order: seq<nat>)
    requires |replies| == |missing| && IsOrder(order, |missing|)
    ensures (forall k :: 0 <= k < |order| ==> Ask(h, missing[order[k]], replies[order[k]]).Some?) <==>
              AllFound(h, missing, replies)
    ensures forall i: nat :: i < |missing| ==> exists k :: 0 <= k < |order| && missing[order[k]] == missing[i]
  {
    forall i: nat | i < |missing|
      ensures exists k :: 0 <= k < |order| && missing[order[k]] == missing[i] && replies[order[k]] == replies[i]
    {
      assert i in order;
    }
  }

  // ---- publishing, then fetching ----

  /** What a node answers when asked for a chunk. */
  function Serve(h: Hasher, c: Cache, hash: string): Reply {
    match Get(h, c, hash).1
    case Found(chunk) => Body(chunk.data)
    case _ => Refused
  }

  /** One holder serves from cache `p`; any number of others may be unreachable, refuse,
      or send complete wrong bodies before or after it. */
  ghost predicate HasHolder(h: Hasher, p: Cache, hash: string, replies: seq<Reply>) {
    && (forall j :: 0 <= j < |replies| ==> !replies[j].Broken?)
    && exists j :: 0 <= j < |replies| && replies[j] == Serve(h, p, hash)
  }

  lemma {:induction false} AskFinds(h: Hasher, hash: string, replies: seq<Reply>, j: nat)
    requires j < |replies| && replies[j].Body? && h(replies[j].data) == hash
    requires forall i :: 0 <= i < j ==> !replies[i].Broken?
    ensures Ask(h, hash, replies).Some?
    decreases j
  {
    if j > 0 {
      AskFinds(h, hash, replies[1..], j - 1);
    }
  }

  lemma {:induction false} PublishedGood(h: Hasher, c: Cache, ps: seq<Bytes>)
    ensures forall i :: 0 <= i < |ps| ==> Good(h, PutAll(h, c, ps), h(ps[i]))
    decreases ps
  {
    if ps != [] {
      var n := |ps| - 1;
      PublishedGood(h, c, ps[..n]);
      forall i | 0 <= i < |ps| ensures Good(h, PutAll(h, c, ps), h(ps[i])) {
        if i < n {
          assert Good(h, PutAll(h, c, ps[..n]), h(ps[..n][i]));
        }
      }
    }
  }

  /** Data published at one node and fetched at another comes back unchanged: any data,
      any earlier contents of the publisher's cache, any sound cache at the fetching
      node, any order of completion, when hashes do not collide and the publisher is
      among the holders that are asked. */
  lemma PublishThenFetch(h: Hasher, publisher: Cache, fetcher: Cache, data: Bytes, contentType: string, name: string,
                         replies: seq<seq<Reply>>, order: seq<nat>)
    requires NoCollision(h, Pieces(data, CHUNK_SIZE))
    requires
      var missing := MissingOf(fetcher.index, ManifestOf(h, data, contentType, name).chunks);
      var p := PutAll(h, publisher, Pieces(data, CHUNK_SIZE));
      && |replies| == |missing| && IsOrder(order, |replies|)
      && forall i :: 0 <= i < |missing| ==> HasHolder(h, p, missing[i], replies[i])
    requires forall x :: x in fetcher.index ==> Good(h, fetcher, x)
    ensures FetchSpec(h, fetcher, ManifestOf(h, data, contentType, name), replies, order).1 == Some(data)
  {
    hide FetchSpec;
    var m, ps := ManifestOf(h, data, contentType, name), Pieces(data, CHUNK_SIZE);
    var p := PutAll(h, publisher, ps);
    var missing := MissingOf(fetcher.index, m.chunks);
    PublishedGood(h, publisher, ps);
    MissingIff(fetcher.index, m.chunks);
    forall i | 0 <= i < |missing| ensures Ask(h, missing[i], replies[i]).Some? {
      assert missing[i] in missing;
      var q :| 0 <= q < |m.chunks| && m.chunks[q] == missing[i];
      assert Good(h, p, h(ps[q]));
      var j :| 0 <= j < |replies[i]| && replies[i][j] == Serve(h, p, missing[i]);
      AskFinds(h, missing[i], replies[i], j);
    }
    FetchIff(h, fetcher, data, contentType, name, replies, order);
  }
}
