// `chunk_list`: cutting a list into consecutive pieces of a given size.
module Helpers {
  import opened Wrappers

  /** The slices lst[i:i+n] for i = 0, n, 2n, ... below |lst|, for a positive size n. */
  function Chunks<T>(lst: seq<T>, n: nat): (r: seq<seq<T>>)
    requires n > 0
    decreases |lst|
  {
    if |lst| == 0 then []
    else if |lst| <= n then [lst]
    else [lst[..n]] + Chunks(lst[n..], n)
  }

  /** `chunk_list`: a size of 0 makes `range` raise; a negative size gives an empty range,
      hence no chunks. */
  function ChunkList<T>(lst: seq<T>, chunkSize: int): (r: Result<seq<seq<T>>>)
    ensures r.Err? <==> chunkSize == 0
    ensures chunkSize < 0 ==> r == Ok([])
    ensures chunkSize > 0 ==> r.Ok? && Concat(r.value) == lst
                              && forall k :: 0 <= k < |r.value| ==> 0 < |r.value[k]| <= chunkSize
  {
    if chunkSize == 0 then Err("range() arg 3 must not be zero")
    else if chunkSize < 0 then Ok([])
    else
      ChunksConcat(lst, chunkSize);
      ChunkSizes(lst, chunkSize);
      Ok(Chunks(lst, chunkSize))
  }

  function Concat<T>(parts: seq<seq<T>>): seq<T>
  {
    if |parts| == 0 then [] else parts[0] + Concat(parts[1..])
  }

  /** Joining the chunks gives the list back. */
  lemma {:induction false} ChunksConcat<T>(lst: seq<T>, n: nat)
    requires n > 0
    ensures Concat(Chunks(lst, n)) == lst
    decreases |lst|
  {
    if |lst| > n {
      var r := Chunks(lst, n);
      assert r[1..] == Chunks(lst[n..], n);
      ChunksConcat(lst[n..], n);
      assert lst == lst[..n] + lst[n..];
    } else if |lst| > 0 {
      assert Chunks(lst, n)[1..] == [];
    }
  }

  /** Every chunk is non-empty and at most n long, and every chunk but the last is exactly
      n long. */
  lemma {:induction false} ChunkSizes<T>(lst: seq<T>, n: nat)
    requires n > 0
    ensures forall k :: 0 <= k < |Chunks(lst, n)| ==> 0 < |Chunks(lst, n)[k]| <= n
    ensures forall k :: 0 <= k < |Chunks(lst, n)| - 1 ==> |Chunks(lst, n)[k]| == n
    decreases |lst|
  {
    if |lst| > n {
      var r := Chunks(lst, n);
      var rest := Chunks(lst[n..], n);
      ChunkSizes(lst[n..], n);
      assert r == [lst[..n]] + rest;
      assert forall k :: 1 <= k < |r| ==> r[k] == rest[k - 1];
    } else if |lst| > 0 {
      assert Chunks(lst, n) == [lst];
    }
  }

  /** There are ⌈|lst| / n⌉ chunks: the fewest pieces of size n that cover the list, and
      none for the empty list. */
  lemma {:induction false} ChunkCount<T>(lst: seq<T>, n: nat)
    requires n > 0
    ensures |Chunks(lst, n)| == 0 <==> |lst| == 0
    ensures (|Chunks(lst, n)| - 1) * n < |lst| <= |Chunks(lst, n)| * n
    decreases |lst|
  {
    if |lst| > n {
      var c := |Chunks(lst[n..], n)|;
      ChunkCount(lst[n..], n);
      assert |Chunks(lst, n)| == c + 1;
      assert (c + 1) * n == c * n + n && c * n == (c - 1) * n + n;
    }
  }
}
