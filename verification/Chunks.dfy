/** Splitting a file into chunks and putting it back together. */
module Chunks {
  import opened Prelude

  const CHUNK_SIZE: nat := 4 * 1024 * 1024

  /** `total_size.div_ceil(CHUNK_SIZE)`. */
  function ChunkCount(size: nat): nat {
    (size + CHUNK_SIZE - 1) / CHUNK_SIZE
  }

  /** Where chunk `i` starts; past the end of the file it is the end. */
  function Offset(file: Bytes, i: nat): (k: nat)
    ensures k <= |file|
  {
    Min(i * CHUNK_SIZE, |file|)
  }

  function Slice(file: Bytes, i: nat): Bytes {
    file[Offset(file, i)..Offset(file, i + 1)]
  }

  /** The first `n` staged chunks, in index order. */
  function Joined(staged: map<nat, Bytes>, n: nat): Bytes
    requires forall i :: 0 <= i < n ==> i in staged
  {
    if n == 0 then [] else Joined(staged, n - 1) + staged[n - 1]
  }

  lemma {:induction false} JoinedSlices(file: Bytes, staged: map<nat, Bytes>, n: nat)
    requires forall i :: 0 <= i < n ==> i in staged && staged[i] == Slice(file, i)
    ensures Joined(staged, n) == file[..Offset(file, n)]
  {
    if n > 0 {
      JoinedSlices(file, staged, n - 1);
      NextSlice(file, n - 1);
    }
  }

  lemma NextSlice(file: Bytes, i: nat)
    ensures Offset(file, i) <= Offset(file, i + 1)
    ensures file[..Offset(file, i)] + Slice(file, i) == file[..Offset(file, i + 1)]
  {
    var a, b := Offset(file, i), Offset(file, i + 1);
    assert file[..a] + file[a..b] == file[..b];
  }

  /** The chunk count covers the file, and one chunk fewer would not. */
  lemma ChunkCountCovers(file: Bytes)
    ensures Offset(file, ChunkCount(|file|)) == |file|
    ensures forall n: nat :: Offset(file, n) == |file| ==> ChunkCount(|file|) <= n
  {
    var q := ChunkCount(|file|);
    assert q * CHUNK_SIZE <= |file| + CHUNK_SIZE - 1 < (q + 1) * CHUNK_SIZE;
  }

  /** Splitting and joining are inverse for every count that covers the file. */
  lemma SplitThenJoin(file: Bytes, staged: map<nat, Bytes>, n: nat)
    requires ChunkCount(|file|) <= n
    requires forall i :: 0 <= i < n ==> i in staged && staged[i] == Slice(file, i)
    ensures Joined(staged, n) == file
  {
    JoinedSlices(file, staged, n);
    ChunkCountCovers(file);
    assert ChunkCount(|file|) * CHUNK_SIZE <= n * CHUNK_SIZE;
  }
}
