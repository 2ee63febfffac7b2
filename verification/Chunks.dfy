/** Content-addressed chunks (src/p2p/chunk.rs). The hash is an arbitrary function. */
module Chunks {
  import opened Common

  type Bytes = seq<bv8>
  type Hasher = Bytes -> string

  const CHUNK_SIZE: nat := 262_144

  datatype Chunk = Chunk(hash: string, data: Bytes, size: nat) {
    predicate Verify(h: Hasher) { h(data) == hash }
  }

  datatype Manifest = Manifest(rootHash: string, totalSize: nat, chunks: seq<string>, contentType: string,
                               label_: string)

  function MakeChunk(h: Hasher, data: Bytes): (c: Chunk)
    ensures c.Verify(h) && c.data == data && c.size == |data|
  {
    Chunk(h(data), data, |data|)
  }

  /** `data.chunks(size)`: full pieces and a shorter last one. */
  function Pieces(data: Bytes, size: nat): (r: seq<Bytes>)
    requires size > 0
    ensures forall i :: 0 <= i < |r| ==> 0 < |r[i]| <= size
    ensures forall i :: 0 <= i < |r| - 1 ==> |r[i]| == size
    decreases |data|
  {
    if data == [] then []
    else if |data| <= size then [data]
    else [data[..size]] + Pieces(data[size..], size)
  }

  function Concat(ps: seq<Bytes>): Bytes {
    if ps == [] then [] else ps[0] + Concat(ps[1..])
  }

  lemma {:induction false} PiecesConcat(data: Bytes, size: nat)
    requires size > 0
    ensures Concat(Pieces(data, size)) == data
    decreases |data|
  {
    if data == [] {
    } else if |data| <= size {
      assert [data][1..] == [];
    } else {
      PiecesConcat(data[size..], size);
      var rest := Pieces(data[size..], size);
      assert ([data[..size]] + rest)[1..] == rest;
      assert data[..size] + data[size..] == data;
    }
  }

  lemma {:induction false} ConcatEnd(ps: seq<Bytes>, p: Bytes)
    ensures Concat(ps + [p]) == Concat(ps) + p
    decreases ps
  {
    if ps == [] {
      assert [p][1..] == [];
    } else {
      ConcatEnd(ps[1..], p);
      assert (ps + [p])[1..] == ps[1..] + [p];
      assert ps[0] + (Concat(ps[1..]) + p) == ps[0] + Concat(ps[1..]) + p;
    }
  }

  function Hashes(h: Hasher, ps: seq<Bytes>): (r: seq<string>)
    ensures |r| == |ps| && forall i :: 0 <= i < |r| ==> r[i] == h(ps[i])
  {
    seq(|ps|, i requires 0 <= i < |ps| => h(ps[i]))
  }

  function ManifestOf(h: Hasher, data: Bytes, contentType: string, name: string): Manifest {
    Manifest(h(data), |data|, Hashes(h, Pieces(data, CHUNK_SIZE)), contentType, name)
  }

  method FromData(h: Hasher, data: Bytes, contentType: string, name: string) returns (m: Manifest, chunks: seq<Chunk>)
    ensures m == ManifestOf(h, data, contentType, name)
    ensures m.rootHash == h(data) && m.totalSize == |data| && m.contentType == contentType && m.label_ == name
    ensures |chunks| == |m.chunks| && forall i :: 0 <= i < |chunks| ==> m.chunks[i] == h(chunks[i].data)
    ensures Concat(Datas(chunks)) == data
    ensures forall i :: 0 <= i < |chunks| ==> chunks[i] == MakeChunk(h, Pieces(data, CHUNK_SIZE)[i])
  {
    chunks := [];
    var hashes: seq<string> := [];
    var rest := data;
    ghost var ps := Pieces(data, CHUNK_SIZE);
    while rest != []
      invariant |chunks| == |hashes| <= |ps|
      invariant Pieces(rest, CHUNK_SIZE) == ps[|chunks|..]
      invariant forall i :: 0 <= i < |chunks| ==> chunks[i] == MakeChunk(h, ps[i]) && hashes[i] == h(ps[i])
      decreases |rest|
    {
      var n := if |rest| <= CHUNK_SIZE then |rest| else CHUNK_SIZE;
      var chunk := MakeChunk(h, rest[..n]);
      assert rest[..n] == Pieces(rest, CHUNK_SIZE)[0] == ps[|chunks|];
      assert Pieces(rest[n..], CHUNK_SIZE) == Pieces(rest, CHUNK_SIZE)[1..];
      assert ps[|chunks|..][1..] == ps[|chunks| + 1..];
      chunks, hashes, rest := chunks + [chunk], hashes + [chunk.hash], rest[n..];
    }
    assert hashes == Hashes(h, ps);
    assert Datas(chunks) == ps;
    PiecesConcat(data, CHUNK_SIZE);
    m := Manifest(h(data), |data|, hashes, contentType, name);
  }

  // ---- reassembly ----

  datatype Assembly = Assembled(data: Bytes) | WrongCount | HashMismatch(at: nat) | BadContent(at: nat) | RootMismatch

  function Datas(chunks: seq<Chunk>): (r: seq<Bytes>)
    ensures |r| == |chunks|
  {
    seq(|chunks|, i requires 0 <= i < |chunks| => chunks[i].data)
  }

  /** The first chunk that is not the one listed, or does not match its own hash. */
  function FirstBad(h: Hasher, m: Manifest, chunks: seq<Chunk>, i: nat): (r: Option<Assembly>)
    requires |chunks| == |m.chunks| && i <= |chunks|
    ensures r.None? <==> forall j :: i <= j < |chunks| ==> chunks[j].hash == m.chunks[j] && chunks[j].Verify(h)
    ensures r.Some? ==> r.value.HashMismatch? || r.value.BadContent?
    ensures r.Some? ==>
              && i <= r.value.at < |chunks|
              && (forall j :: i <= j < r.value.at ==> chunks[j].hash == m.chunks[j] && chunks[j].Verify(h))
              && (r.value.HashMismatch? <==> chunks[r.value.at].hash != m.chunks[r.value.at])
              && (r.value.BadContent? ==> h(chunks[r.value.at].data) != chunks[r.value.at].hash)
    decreases |chunks| - i
  {
    if i == |chunks| then None
    else if chunks[i].hash != m.chunks[i] then Some(HashMismatch(i))
    else if !chunks[i].Verify(h) then Some(BadContent(i))
    else FirstBad(h, m, chunks, i + 1)
  }

  function ReassembleSpec(h: Hasher, m: Manifest, chunks: seq<Chunk>): (r: Assembly)
    ensures r.Assembled? ==> h(r.data) == m.rootHash && r.data == Concat(Datas(chunks))
  {
    if |chunks| != |m.chunks| then WrongCount
    else if FirstBad(h, m, chunks, 0).Some? then FirstBad(h, m, chunks, 0).value
    else if h(Concat(Datas(chunks))) != m.rootHash then RootMismatch
    else Assembled(Concat(Datas(chunks)))
  }

  /** A wrong number first, then the first chunk that is another or damaged, then the root. */
  lemma FirstMismatch(h: Hasher, m: Manifest, chunks: seq<Chunk>)
    ensures
      var r := ReassembleSpec(h, m, chunks);
      && (r.WrongCount? <==> |chunks| != |m.chunks|)
      && (r.Assembled? || r.RootMismatch? <==>
            && |chunks| == |m.chunks|
            && forall j :: 0 <= j < |chunks| ==> chunks[j].hash == m.chunks[j] && h(chunks[j].data) == chunks[j].hash)
      && (r.Assembled? ==> h(r.data) == m.rootHash && r.data == Concat(Datas(chunks)))
      && (r.RootMismatch? ==> h(Concat(Datas(chunks))) != m.rootHash)
      && (r.HashMismatch? || r.BadContent? ==>
            && r.at < |chunks| == |m.chunks|
            && (forall j :: 0 <= j < r.at ==> chunks[j].hash == m.chunks[j] && h(chunks[j].data) == chunks[j].hash)
            && (r.HashMismatch? ==> chunks[r.at].hash != m.chunks[r.at])
            && (r.BadContent? ==> chunks[r.at].hash == m.chunks[r.at] && h(chunks[r.at].data) != chunks[r.at].hash))
  {}

  method Reassemble(h: Hasher, m: Manifest, chunks: seq<Chunk>) returns (r: Assembly)
    ensures r == ReassembleSpec(h, m, chunks)
  {
    if |chunks| != |m.chunks| {
      return WrongCount;
    }
    var data: Bytes := [];
    assert Datas(chunks)[..0] == [];
    for i := 0 to |chunks|
      invariant FirstBad(h, m, chunks, 0) == FirstBad(h, m, chunks, i)
      invariant data == Concat(Datas(chunks)[..i])
    {
      if chunks[i].hash != m.chunks[i] {
        return HashMismatch(i);
      }
      if !chunks[i].Verify(h) {
        return BadContent(i);
      }
      ConcatEnd(Datas(chunks)[..i], chunks[i].data);
      assert Datas(chunks)[..i + 1] == Datas(chunks)[..i] + [chunks[i].data];
      data := data + chunks[i].data;
    }
    assert Datas(chunks)[..|chunks|] == Datas(chunks);
    if h(data) != m.rootHash {
      return RootMismatch;
    }
    r := Assembled(data);
  }

  /** Splitting and reassembling is the identity, for data of any length. */
  lemma SplitThenReassemble(h: Hasher, data: Bytes, contentType: string, name: string, chunks: seq<Chunk>)
    requires |chunks| == |Pieces(data, CHUNK_SIZE)|
    requires forall i :: 0 <= i < |chunks| ==> chunks[i].data == Pieces(data, CHUNK_SIZE)[i] && chunks[i].Verify(h)
    ensures ReassembleSpec(h, ManifestOf(h, data, contentType, name), chunks) == Assembled(data)
  {
    PiecesConcat(data, CHUNK_SIZE);
    assert Datas(chunks) == Pieces(data, CHUNK_SIZE);
  }
}
