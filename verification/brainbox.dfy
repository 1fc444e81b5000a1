/**
 * `chunk_list` (internal/domain/brainbox/engine.py): a list cut into
 * consecutive batches of a given size.
 */
module Brainbox {
  import opened Wrappers
  import opened Seqs

  function Min(a: int, b: int): int { if a <= b then a else b }

  /** The batches for a positive step: a slice of at most `size` items from the front, then the batches of the rest. */
  function Chunks<T>(items: seq<T>, size: nat): seq<seq<T>>
    requires size > 0
    decreases |items|
  {
    if items == [] then []
    else
      var m := Min(size, |items|);
      [items[..m]] + Chunks(items[m..], size)
  }

  /**
   * `chunk_list(items, size)` (lines 34-35). A step of 0 makes `range` raise
   * `ValueError`; a negative step from 0 up to `len(items)` yields no index,
   * so the result is empty.
   */
  function ChunkList<T>(items: seq<T>, size: int): (r: Result<seq<seq<T>>, string>)
    ensures size == 0 <==> r.Err?
    ensures size < 0 ==> r == Ok([])
    ensures size > 0 ==> r == Ok(Chunks(items, size))
  {
    if size == 0 then Err("range() arg 3 must not be zero")
    else if size < 0 then Ok([])
    else Ok(Chunks(items, size))
  }

  /** Joining the batches gives back the list. */
  lemma {:induction false} ChunksFlatten<T>(items: seq<T>, size: nat)
    requires size > 0
    ensures Flatten(Chunks(items, size)) == items
    decreases |items|
  {
    if items != [] {
      var m := Min(size, |items|);
      ChunksFlatten(items[m..], size);
      assert items == items[..m] + items[m..];
    }
  }

  lemma {:induction false} MulStep(k: nat, size: nat)
    requires k > 0
    ensures k * size == (k - 1) * size + size
  {
  }

  /**
   * Batch `k` is the slice `items[k * size:k * size + size]` for the `k`-th
   * index of `range(0, len(items), size)`, as line 35 writes it.
   */
  lemma {:induction false} ChunkAt<T>(items: seq<T>, size: nat, k: nat)
    requires size > 0 && k < |Chunks(items, size)|
    ensures k * size < |items|
    ensures Chunks(items, size)[k] == items[k * size..Min(k * size + size, |items|)]
    decreases |items|
  {
    var m := Min(size, |items|);
    if k > 0 {
      var rest := items[m..];
      ChunkAt(rest, size, k - 1);
      var j := (k - 1) * size;
      MulStep(k, size);
      assert m == size;
      assert rest[j..Min(j + size, |rest|)] == items[j + size..Min(j + size + size, |items|)];
    }
  }

  /**
   * There are no batches exactly when there are no items; every batch but
   * the last holds exactly `size` items and the last one between one and
   * `size`.
   */
  lemma {:induction false} ChunkSizes<T>(items: seq<T>, size: nat)
    requires size > 0
    ensures var c := Chunks(items, size);
      && (items == [] <==> c == [])
      && (forall k :: 0 <= k < |c| - 1 ==> |c[k]| == size)
      && (c != [] ==> 1 <= |c[|c| - 1]| <= size)
    decreases |items|
  {
    if items != [] {
      var m := Min(size, |items|);
      var rest := items[m..];
      ChunkSizes(rest, size);
      var c' := Chunks(rest, size);
      assert Chunks(items, size) == [items[..m]] + c';
    }
  }

  /** The number of batches is the number of items divided by `size`, rounded up. */
  lemma {:induction false} ChunkCount<T>(items: seq<T>, size: nat)
    requires size > 0
    ensures var n := |Chunks(items, size)|;
      items != [] ==> (n - 1) * size < |items| <= n * size
    decreases |items|
  {
    if items != [] {
      var m := Min(size, |items|);
      var rest := items[m..];
      ChunkCount(rest, size);
      var n := |Chunks(items, size)|;
      assert n == |Chunks(rest, size)| + 1;
      MulStep(n, size);
      if rest == [] {
        assert Chunks(rest, size) == [];
      }
    }
  }

  /** With a positive size, chunking succeeds and the batches join back to the list. */
  lemma {:induction false} ChunkListFlatten<T>(items: seq<T>, size: int)
    requires size > 0
    ensures ChunkList(items, size).Ok? && Flatten(ChunkList(items, size).value) == items
  {
    ChunksFlatten(items, size);
  }
}
