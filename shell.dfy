/** The `Shell` stream combinators (src/shell/base.rs, with the older copies in src/shell.rs).
    A shell is modelled by the sequence of items its iterator still yields. The lazy
    combinators wrap an adapter of module Iters and are driven here to the end, as
    `collect` does; the eager ones (`join`, `fold`, `for_each`, `sorted`, the chunking loop
    of `chunk_map_parallel`) are loops over the items. */
module Shell {
  import opened Errors
  import opened Iters

  // ---------------------------------------------------------------------------------------
  // Lazy combinators, collected

  /** `chunks(size)`: the size must be positive; the stream is the chunk adapter's output. */
  method CollectChunks<T>(items: seq<T>, size: nat) returns (out: seq<seq<T>>)
    requires size > 0
    ensures out == Chunks(items, size)
  {
    var it := new ChunkIter(items, size);
    out := [];
    while true
      invariant out + it.Remaining() == Chunks(items, size)
      decreases |it.Remaining()|
    {
      var r := it.Next();
      if r.None? {
        return;
      }
      out := out + [r.value];
    }
  }

  /** `windows(size)`: the size must be positive. */
  method CollectWindows<T>(items: seq<T>, size: nat) returns (out: seq<seq<T>>)
    requires size > 0
    ensures out == Windows(items, size)
  {
    var it := new WindowIter(items, size);
    out := [];
    while true
      invariant it.Valid() && out + it.Remaining() == Windows(items, size)
      decreases |it.Remaining()|
    {
      var r := it.Next();
      if r.None? {
        return;
      }
      out := out + [r.value];
    }
  }

  /** `interleave(other)`. */
  method CollectInterleave<T>(a: seq<T>, b: seq<T>) returns (out: seq<T>)
    ensures out == Alternate(a, b)
  {
    var it := new InterleaveIter(a, b);
    out := [];
    while true
      invariant out + it.Remaining() == Alternate(a, b)
      decreases |it.Remaining()|
    {
      var r := it.Next();
      if r.None? {
        return;
      }
      out := out + [r.value];
    }
  }

  /** `distinct()`. */
  method CollectDistinct<T(==)>(items: seq<T>) returns (out: seq<T>)
    ensures out == Distinct(items)
  {
    var it := new DistinctIter(items);
    out := [];
    while true
      invariant out + it.Remaining() == Distinct(items)
      decreases |it.Remaining()|
    {
      var r := it.Next();
      if r.None? {
        return;
      }
      out := out + [r.value];
    }
  }

  /** `chunk_map(chunk_size, f)`: the size must be positive. */
  method CollectChunkMap<T, U>(items: seq<T>, size: nat, f: seq<T> -> seq<U>) returns (out: seq<U>)
    requires size > 0
    ensures out == ChunkMap(items, size, f)
  {
    var it := new ChunkMapIter(items, size, f);
    out := [];
    while true
      invariant out + it.Remaining() == ChunkMap(items, size, f)
      decreases |it.Remaining()|
    {
      var r := it.Next();
      if r.None? {
        return;
      }
      out := out + [r.value];
    }
  }

  // ---------------------------------------------------------------------------------------
  // Product

  /** The cartesian product, row by row: each item of `a` with every item of `b`, so
      |a|·|b| pairs. */
  function Product<T, U>(a: seq<T>, b: seq<U>): (r: seq<(T, U)>)
    ensures |r| == |a| * |b|
    decreases |a|
  {
    if a == [] then []
    else
      PairsShape(a[0], b);
      assert |a| * |b| == |b| + (|a| - 1) * |b|;
      Pairs(a[0], b) + Product(a[1..], b)
  }

  /** One row of the product: a product adapter over `base`, drained. */
  method CollectRow<T, U>(base: T, b: seq<U>) returns (row: seq<(T, U)>)
    ensures row == Pairs(base, b)
  {
    var it := new ProductIter(base, b);
    row := [];
    while true
      invariant row + it.Remaining() == Pairs(base, b)
      decreases |it.Remaining()|
    {
      var r := it.Next();
      if r.None? {
        return;
      }
      row := row + [r.value];
    }
  }

  /** `product(other)`: `flat_map` of a product row over every item, `other` collected
      once. */
  method CollectProduct<T, U>(a: seq<T>, b: seq<U>) returns (out: seq<(T, U)>)
    ensures out == Product(a, b)
  {
    out := [];
    for i := 0 to |a|
      invariant out + Product(a[i..], b) == Product(a, b)
    {
      assert a[i..][1..] == a[i + 1..];
      var row := CollectRow(a[i], b);
      out := out + row;
    }
  }

  /** |a|·|b| pairs in row-major order: pair i·|b| + j is (a[i], b[j]). */
  lemma {:induction false} ProductAt<T, U>(a: seq<T>, b: seq<U>, i: nat, j: nat)
    requires i < |a| && j < |b|
    ensures i * |b| + j < |Product(a, b)|
    ensures Product(a, b)[i * |b| + j] == (a[i], b[j])
    decreases i
  {
    PairsShape(a[0], b);
    if i > 0 {
      ProductAt(a[1..], b, i - 1, j);
      assert i * |b| + j == |b| + ((i - 1) * |b| + j);
    }
  }

  // ---------------------------------------------------------------------------------------
  // join

  /** The total length of the strings. */
  function TotalLength(xs: seq<string>): nat
    decreases |xs|
  {
    if xs == [] then 0 else TotalLength(xs[..|xs| - 1]) + |xs[|xs| - 1]|
  }

  /** The strings joined with `sep` between neighbours: empty for no strings, else every
      string and one separator between each pair of neighbours. */
  function Joined(xs: seq<string>, sep: string): (r: string)
    ensures xs == [] ==> r == ""
    ensures xs != [] ==> |r| == TotalLength(xs) + (|xs| - 1) * |sep|
    decreases |xs|
  {
    if xs == [] then ""
    else if |xs| == 1 then
      assert xs[..0] == [];
      xs[0]
    else
      assert (|xs| - 1) * |sep| == (|xs| - 2) * |sep| + |sep|;
      Joined(xs[..|xs| - 1], sep) + sep + xs[|xs| - 1]
  }

  /** The first string, then `sep` before each of the others: no separator leads, and one
      stands between each pair of neighbours. */
  lemma {:induction false} JoinedCons(x: string, ys: seq<string>, sep: string)
    ensures Joined([x] + ys, sep) == if ys == [] then x else x + sep + Joined(ys, sep)
    decreases |ys|
  {
    var xs := [x] + ys;
    if |ys| == 1 {
      assert xs[..1] == [x];
    } else if |ys| > 1 {
      var init, last := ys[..|ys| - 1], ys[|ys| - 1];
      JoinedCons(x, init, sep);
      assert xs[..|xs| - 1] == [x] + init && xs[|xs| - 1] == last;
      var front := Joined(init, sep);
      assert Joined(xs, sep) == (x + sep + front) + sep + last;
      assert Joined(ys, sep) == front + sep + last;
    }
  }

  /** Nothing trails the last string. */
  lemma JoinedSnoc(xs: seq<string>, y: string, sep: string)
    ensures Joined(xs + [y], sep) == if xs == [] then y else Joined(xs, sep) + sep + y
  {
    assert (xs + [y])[..|xs|] == xs;
  }

  /** "a", "b", "c" joined with "," is "a,b,c". */
  lemma JoinedThree(a: string, b: string, c: string, sep: string)
    ensures Joined([a, b, c], sep) == a + sep + b + sep + c
  {
    JoinedSnoc([a, b], c, sep);
    JoinedSnoc([a], b, sep);
    assert [a, b, c] == [a, b] + [c] && [a, b] == [a] + [b];
  }

  /** `join(sep)`: the first item's text, then `sep` and the next item's text for each
      further item; an empty stream gives the empty string. */
  method Join<T>(items: seq<T>, show: T -> string, sep: string) returns (acc: string)
    ensures acc == Joined(MapItems(show, items), sep)
  {
    if items == [] {
      return "";
    }
    ghost var texts := MapItems(show, items);
    acc := show(items[0]);
    assert texts[..1] == [texts[0]];
    for i := 1 to |items|
      invariant acc == Joined(texts[..i], sep)
    {
      assert texts[..i + 1][..i] == texts[..i];
      acc := acc + sep + show(items[i]);
    }
    assert texts[..|items|] == texts;
  }

  // ---------------------------------------------------------------------------------------
  // fold and for_each

  /** Left-to-right accumulation: nothing to fold leaves `acc`, and the last item is
      folded in last, into the fold of those before it. */
  function FoldLeft<A, T>(f: (A, T) -> A, acc: A, xs: seq<T>): (r: A)
    ensures xs == [] ==> r == acc
    ensures xs != [] ==> r == f(FoldLeft(f, acc, xs[..|xs| - 1]), xs[|xs| - 1])
    decreases |xs|
  {
    if xs == [] then acc
    else
      assert |xs| > 1 ==> xs[..|xs| - 1][1..] == xs[1..][..|xs| - 2];
      FoldLeft(f, f(acc, xs[0]), xs[1..])
  }

  /** `fold(acc, f)`: `acc = f(acc, item)` for every item in turn. */
  method Fold<A, T>(items: seq<T>, acc0: A, f: (A, T) -> A) returns (acc: A)
    ensures acc == FoldLeft(f, acc0, items)
  {
    acc := acc0;
    for i := 0 to |items|
      invariant FoldLeft(f, acc, items[i..]) == FoldLeft(f, acc0, items)
    {
      assert items[i..][1..] == items[i + 1..];
      acc := f(acc, items[i]);
    }
  }

  /** Summing 1, 2, 3 from 0 gives 6. */
  lemma FoldSum()
    ensures FoldLeft((acc: int, n: int) => acc + n, 0, [1, 2, 3]) == 6
  {
    var add := (acc: int, n: int) => acc + n;
    assert [1, 2, 3][1..] == [2, 3] && [2, 3][1..] == [3] && [3][1..] == [];
    assert FoldLeft(add, 0, [1, 2, 3]) == FoldLeft(add, 1, [2, 3]) == FoldLeft(add, 3, [3]) == 6;
  }

  /** `for_each(f)`: the callback's invocations, in order. */
  method ForEach<T>(items: seq<T>) returns (calls: seq<T>)
    ensures |calls| == |items|
    ensures forall k :: 0 <= k < |items| ==> calls[k] == items[k]
  {
    calls := [];
    for i := 0 to |items|
      invariant calls == items[..i]
    {
      calls := calls + [items[i]];
    }
  }

  // ---------------------------------------------------------------------------------------
  // sorted

  predicate SortedSeq(s: seq<int>)
  {
    forall i, j :: 0 <= i < j < |s| ==> s[i] <= s[j]
  }

  /** `x` placed into a sorted sequence before the first larger item. */
  function Insert(x: int, s: seq<int>): seq<int>
    decreases |s|
  {
    if s == [] || x <= s[0] then [x] + s else [s[0]] + Insert(x, s[1..])
  }

  lemma {:induction false} InsertMultiset(x: int, s: seq<int>)
    ensures multiset(Insert(x, s)) == multiset{x} + multiset(s)
    decreases |s|
  {
    if s != [] && x > s[0] {
      InsertMultiset(x, s[1..]);
      assert s == [s[0]] + s[1..];
    }
  }

  /** A least item in front of a sorted sequence keeps it sorted. */
  lemma SortedCons(h: int, t: seq<int>)
    requires SortedSeq(t)
    requires forall k :: 0 <= k < |t| ==> h <= t[k]
    ensures SortedSeq([h] + t)
  {
    forall i, j | 0 <= i < j < |[h] + t|
      ensures ([h] + t)[i] <= ([h] + t)[j]
    {
      if i > 0 {
        assert ([h] + t)[i] == t[i - 1];
      }
    }
  }

  lemma {:induction false} InsertSorted(x: int, s: seq<int>)
    requires SortedSeq(s)
    ensures SortedSeq(Insert(x, s))
    decreases |s|
  {
    if s == [] || x <= s[0] {
      SortedCons(x, s);
    } else {
      var t := Insert(x, s[1..]);
      InsertSorted(x, s[1..]);
      InsertMultiset(x, s[1..]);
      forall k | 0 <= k < |t|
        ensures s[0] <= t[k]
      {
        assert t[k] in multiset(t);
      }
      SortedCons(s[0], t);
    }
  }

  /** The items in ascending order (the model's stand-in for the library sort, specified
      by its result): the input's items, each as often as it occurs. */
  function Sort(s: seq<int>): (r: seq<int>)
    ensures multiset(r) == multiset(s)
    decreases |s|
  {
    if s == [] then []
    else
      var rest := Sort(s[1..]);
      InsertMultiset(s[0], rest);
      assert s == [s[0]] + s[1..];
      Insert(s[0], rest)
  }

  /** `sorted()` yields its items in ascending order. */
  lemma {:induction false} SortSorted(s: seq<int>)
    ensures SortedSeq(Sort(s))
    decreases |s|
  {
    if s != [] {
      SortSorted(s[1..]);
      InsertSorted(s[0], Sort(s[1..]));
    }
  }

  /** A sorted permutation is unique, so any sorted rearrangement of the input is what
      `sorted()` yields. */
  lemma {:induction false} SortedUnique(a: seq<int>, b: seq<int>)
    requires SortedSeq(a) && SortedSeq(b) && multiset(a) == multiset(b)
    ensures a == b
    decreases |a|
  {
    if a != [] {
      assert |b| == |a| by {
        assert |multiset(a)| == |a| && |multiset(b)| == |b|;
      }
      SortedHeads(a, b);
      DropHead(a);
      DropHead(b);
      SortedUnique(a[1..], b[1..]);
      assert a == [a[0]] + a[1..] && b == [b[0]] + b[1..];
    }
  }

  /** Two sorted permutations of each other start with the same (least) item. */
  lemma SortedHeads(a: seq<int>, b: seq<int>)
    requires a != [] && b != []
    requires SortedSeq(a) && SortedSeq(b) && multiset(a) == multiset(b)
    ensures a[0] == b[0]
  {
    assert a[0] in multiset(b);
    assert b[0] in multiset(a);
    var i :| 0 <= i < |b| && b[i] == a[0];
    var j :| 0 <= j < |a| && a[j] == b[0];
    assert b[0] <= b[i] && a[0] <= a[j];
  }

  /** A sorted sequence's tail is sorted and holds the other items. */
  lemma DropHead(a: seq<int>)
    requires a != [] && SortedSeq(a)
    ensures SortedSeq(a[1..])
    ensures multiset(a[1..]) == multiset(a) - multiset{a[0]}
  {
    assert a == [a[0]] + a[1..];
  }

  /** 3, 1, 2 sorted is 1, 2, 3. */
  lemma SortExample()
    ensures Sort([3, 1, 2]) == [1, 2, 3]
  {
    assert Sort([2]) == [2];
    assert Sort([1, 2]) == Insert(1, [2]) == [1, 2];
    assert Insert(3, [1, 2]) == [1] + Insert(3, [2]) == [1, 2, 3];
  }

  // ---------------------------------------------------------------------------------------
  // chunk_map_parallel

  /** The chunking loop of `chunk_map_parallel`: push each item onto `current`, move it to
      `chunks` once it holds `chunkSize` items, and keep a non-empty remainder at the end. */
  method ParallelChunks<T>(items: seq<T>, chunkSize: nat) returns (chunks: seq<seq<T>>)
    requires chunkSize > 0
    ensures chunks == Chunks(items, chunkSize)
  {
    chunks := [];
    var current: seq<T> := [];
    ghost var start := 0;
    for i := 0 to |items|
      invariant start + |current| == i && |current| < chunkSize
      invariant current == items[start..i]
      invariant chunks + Chunks(items[start..], chunkSize) == Chunks(items, chunkSize)
    {
      current := current + [items[i]];
      assert current == items[start..i + 1];
      if |current| == chunkSize {
        CloseChunk(items, chunks, start, i + 1, chunkSize);
        chunks, current := chunks + [current], [];
        start := i + 1;
      }
    }
    if current != [] {
      CloseChunk(items, chunks, start, |items|, chunkSize);
      assert items[|items|..] == [];
      chunks := chunks + [current];
    } else {
      assert items[start..] == [];
    }
  }

  /** The chunks from `start` on begin with the slice up to `end`, when it is a full chunk
      or reaches the end of the input. */
  lemma ChunkAt<T>(items: seq<T>, start: nat, end: nat, size: nat)
    requires start < end <= |items| && end - start <= size
    requires end - start == size || end == |items|
    ensures Chunks(items[start..], size) == [items[start..end]] + Chunks(items[end..], size)
  {
    assert items[start..end] + items[end..] == items[start..];
    ChunksFirst(items[start..], items[start..end], items[end..], size);
  }

  /** Closing the chunk from `start` to `end` moves it from the chunks still to come to the
      chunks done. */
  lemma CloseChunk<T>(items: seq<T>, done: seq<seq<T>>, start: nat, end: nat, size: nat)
    requires start < end <= |items| && end - start <= size
    requires end - start == size || end == |items|
    requires done + Chunks(items[start..], size) == Chunks(items, size)
    ensures (done + [items[start..end]]) + Chunks(items[end..], size) == Chunks(items, size)
  {
    ChunkAt(items, start, end, size);
    DrainStep(done, items[start..end], Chunks(items[end..], size), Chunks(items, size));
  }

  /** `chunk_map_parallel(chunk_size, f)`: the chunks, each mapped, the results
      concatenated in chunk order (the thread pool's scheduling does not change that
      order). */
  method ChunkMapParallel<T, U>(items: seq<T>, chunkSize: nat, f: seq<T> -> seq<U>) returns (out: seq<U>)
    requires chunkSize > 0
    ensures out == ChunkMap(items, chunkSize, f)
  {
    var chunks := ParallelChunks(items, chunkSize);
    ChunkMapOfChunks(items, chunkSize, f);
    out := Flatten(MapChunks(f, chunks));
  }

  // ---------------------------------------------------------------------------------------
  // DoubleEndedShell

  /** A shell over a double-ended iterator: `next` takes from the front, `next_back` from
      the back. */
  class DoubleEndedShell<T> {
    var items: seq<T>

    /** `from_vec`. */
    constructor (items: seq<T>)
      ensures this.items == items
    {
      this.items := items;
    }

    method Next() returns (r: Option<T>)
      modifies this
      ensures old(items) == [] ==> r.None? && items == []
      ensures old(items) != [] ==> r == Some(old(items)[0]) && items == old(items)[1..]
    {
      if items == [] {
        r := None;
      } else {
        r, items := Some(items[0]), items[1..];
      }
    }

    method NextBack() returns (r: Option<T>)
      modifies this
      ensures old(items) == [] ==> r.None? && items == []
      ensures old(items) != [] ==> r == Some(old(items)[|old(items)| - 1]) && items == old(items)[..|old(items)| - 1]
    {
      if items == [] {
        r := None;
      } else {
        r, items := Some(items[|items| - 1]), items[..|items| - 1];
      }
    }

    /** `into_shell`: what is left, as a plain stream. */
    function IntoShell(): seq<T>
      reads this
    {
      items
    }
  }

  /** From 1, 2, 3: the front gives 1, the back gives 3, and 2 is left. */
  method PopsBothEnds() returns (front: Option<int>, back: Option<int>, left: seq<int>)
    ensures front == Some(1) && back == Some(3) && left == [2]
  {
    var shell := new DoubleEndedShell([1, 2, 3]);
    front := shell.Next();
    back := shell.NextBack();
    left := shell.IntoShell();
  }

  // ---------------------------------------------------------------------------------------
  // The combinators on the examples of the source's own tests

  lemma ChunksExample()
    ensures Chunks([1, 2, 3, 4, 5], 2) == [[1, 2], [3, 4], [5]]
  {
    var s := [1, 2, 3, 4, 5];
    assert s[..2] == [1, 2] && s[2..] == [3, 4, 5];
    assert s[2..][..2] == [3, 4] && s[2..][2..] == [5];
  }

  lemma WindowsExample()
    ensures Windows([1, 2, 3, 4], 3) == [[1, 2, 3], [2, 3, 4]]
  {
    var s := [1, 2, 3, 4];
    assert s[..3] == [1, 2, 3] && s[1..] == [2, 3, 4];
    assert s[1..][..3] == [2, 3, 4] && |s[1..][1..]| < 3;
  }

  lemma InterleaveExample()
    ensures Alternate([1, 3, 5], [2, 4, 6]) == [1, 2, 3, 4, 5, 6]
  {
    assert [1, 3, 5][1..] == [3, 5] && [2, 4, 6][1..] == [4, 6];
    assert [3, 5][1..] == [5] && [4, 6][1..] == [6];
    assert [5][1..] == [] && [6][1..] == [];
  }

  lemma ProductExample<T, U>(a1: T, a2: T, b1: U, b2: U)
    ensures Product([a1, a2], [b1, b2]) == [(a1, b1), (a1, b2), (a2, b1), (a2, b2)]
  {
    PairsShape(a1, [b1, b2]);
    PairsShape(a2, [b1, b2]);
    assert Pairs(a1, [b1, b2]) == [(a1, b1), (a1, b2)];
    assert Pairs(a2, [b1, b2]) == [(a2, b1), (a2, b2)];
    assert [a1, a2][1..] == [a2] && [a2][1..] == [];
    assert Product([a2], [b1, b2]) == Pairs(a2, [b1, b2]) + Product([], [b1, b2]);
  }

  lemma DistinctExample()
    ensures Distinct([1, 2, 2, 3, 1]) == [1, 2, 3]
  {
    var s := [1, 2, 2, 3, 1];
    assert s[1..] == [2, 2, 3, 1] && s[1..][1..] == [2, 3, 1];
    assert s[1..][1..][1..] == [3, 1] && s[1..][1..][1..][1..] == [1];
  }

  /** Doubling every item chunk by chunk doubles the stream: 0..6 in chunks of 2 gives
      0, 2, 4, 6, 8, 10. */
  lemma ChunkMapDoubling(s: seq<int>, size: nat)
    requires size > 0
    ensures ChunkMap(s, size, (c: seq<int>) => MapItems((n: int) => n * 2, c))
            == MapItems((n: int) => n * 2, s)
  {
    ChunkMapItemwise(s, size, (c: seq<int>) => MapItems((n: int) => n * 2, c), (n: int) => n * 2);
  }
}
