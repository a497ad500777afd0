/** The lazy iterator adapters of the shell combinators (src/shell/iters.rs). Each wrapped
    iterator is modelled by the sequence of items it has left (`rest`); each adapter is a
    class whose `Next` updates its fields as the source does, and is proved to yield, one by
    one, exactly the items of a reference sequence (`Remaining`). */
module Iters {
  import opened Errors

  /** The concatenation of a sequence of sequences. */
  function Flatten<T>(xss: seq<seq<T>>): seq<T>
  {
    if xss == [] then [] else xss[0] + Flatten(xss[1..])
  }

  lemma {:induction false} FlattenAppend<T>(xss: seq<seq<T>>, yss: seq<seq<T>>)
    ensures Flatten(xss + yss) == Flatten(xss) + Flatten(yss)
    decreases |xss|
  {
    if xss == [] {
      assert xss + yss == yss;
    } else {
      assert (xss + yss)[1..] == xss[1..] + yss;
      FlattenAppend(xss[1..], yss);
    }
  }

  /** `x` is `s` with some items left out, the rest kept in order. */
  predicate Subsequence<T(==)>(x: seq<T>, s: seq<T>)
    decreases |s|
  {
    if x == [] then true
    else if s == [] then false
    else (x[0] == s[0] && Subsequence(x[1..], s[1..])) || Subsequence(x, s[1..])
  }

  predicate NoDuplicates<T(==)>(s: seq<T>)
  {
    forall i, j :: 0 <= i < j < |s| ==> s[i] != s[j]
  }

  /** One item moved from the rest of a stream to the output drained so far. */
  lemma DrainStep<T>(out: seq<T>, item: T, rest: seq<T>, total: seq<T>)
    requires out + ([item] + rest) == total
    ensures (out + [item]) + rest == total
  {
  }

  // ---------------------------------------------------------------------------------------
  // Chunks

  /** Successive groups of `size` items; the last group holds what is left. A size of zero
      gives no groups, as the adapter's `0..size` loop then collects nothing. */
  function Chunks<T>(s: seq<T>, size: nat): seq<seq<T>>
    decreases |s|
  {
    if s == [] || size == 0 then []
    else if |s| <= size then [s]
    else [s[..size]] + Chunks(s[size..], size)
  }

  /** The chunks concatenate to the input. */
  lemma {:induction false} ChunksFlatten<T>(s: seq<T>, size: nat)
    requires size > 0
    ensures Flatten(Chunks(s, size)) == s
    decreases |s|
  {
    if s != [] && |s| > size {
      ChunksFlatten(s[size..], size);
      assert s[..size] + s[size..] == s;
    }
  }

  /** Every chunk holds between 1 and `size` items, and only the last may hold fewer than
      `size`. */
  lemma {:induction false} ChunkSizes<T>(s: seq<T>, size: nat)
    ensures forall k :: 0 <= k < |Chunks(s, size)| ==> 1 <= |Chunks(s, size)[k]| <= size
    ensures forall k :: 0 <= k < |Chunks(s, size)| - 1 ==> |Chunks(s, size)[k]| == size
    decreases |s|
  {
    if s != [] && size > 0 && |s| > size {
      ChunkSizes(s[size..], size);
      assert forall k :: 1 <= k < |Chunks(s, size)| ==> Chunks(s, size)[k] == Chunks(s[size..], size)[k - 1];
    }
  }

  /** Taking a first group of `size` items (or all of a shorter input) off the input leaves
      the chunks of what follows. */
  lemma ChunksFirst<T>(s: seq<T>, chunk: seq<T>, rest: seq<T>, size: nat)
    requires chunk + rest == s && chunk != [] && |chunk| <= size
    requires |chunk| == size || rest == []
    ensures Chunks(s, size) == [chunk] + Chunks(rest, size)
  {
    if rest == [] {
      assert s == chunk;
    } else {
      assert s[..size] == chunk && s[size..] == rest;
    }
  }

  /** The `for _ in 0..size` loop both chunking adapters run: pull items from the wrapped
      iterator until `size` are taken or it runs dry. */
  method TakeChunk<T>(items: seq<T>, size: nat) returns (chunk: seq<T>, rest: seq<T>)
    ensures chunk + rest == items
    ensures |chunk| == if |items| < size then |items| else size
  {
    chunk, rest := [], items;
    for i := 0 to size
      invariant chunk + rest == items
      invariant |chunk| == i
    {
      if rest == [] {
        break;
      }
      chunk, rest := chunk + [rest[0]], rest[1..];
    }
  }

  /** The chunking adapter over a wrapped iterator whose remaining items are `rest`. */
  class ChunkIter<T> {
    var rest: seq<T>
    const size: nat

    function Remaining(): seq<seq<T>>
      reads this
    {
      Chunks(rest, size)
    }

    constructor (items: seq<T>, size: nat)
      ensures rest == items && this.size == size
    {
      rest, this.size := items, size;
    }

    /** Takes up to `size` items; an empty group ends the stream. */
    method Next() returns (r: Option<seq<T>>)
      modifies this
      ensures r.None? ==> old(Remaining()) == [] && Remaining() == []
      ensures r.Some? ==> old(Remaining()) == [r.value] + Remaining()
    {
      var chunk;
      chunk, rest := TakeChunk(rest, size);
      if chunk == [] {
        r := None;
      } else {
        ChunksFirst(old(rest), chunk, rest, size);
        r := Some(chunk);
      }
    }
  }

  // ---------------------------------------------------------------------------------------
  // Windows

  /** The sliding windows of `size` consecutive items. */
  function Windows<T>(s: seq<T>, size: nat): seq<seq<T>>
    decreases |s|
  {
    if size == 0 || |s| < size then [] else [s[..size]] + Windows(s[1..], size)
  }

  /** There are |s| - size + 1 windows, none when the input is shorter than a window. */
  lemma {:induction false} WindowsLength<T>(s: seq<T>, size: nat)
    requires size > 0
    ensures |Windows(s, size)| == if |s| < size then 0 else |s| - size + 1
    decreases |s|
  {
    if |s| >= size {
      WindowsLength(s[1..], size);
    }
  }

  /** Window i is the `size` items starting at position i. */
  lemma {:induction false} WindowAt<T>(s: seq<T>, size: nat, i: nat)
    requires size > 0 && i < |Windows(s, size)|
    ensures i + size <= |s| && Windows(s, size)[i] == s[i..i + size]
    decreases i
  {
    if i > 0 {
      WindowAt(s[1..], size, i - 1);
      assert s[1..][i - 1..i - 1 + size] == s[i..i + size];
    }
  }

  lemma WindowsShape<T>(s: seq<T>, size: nat)
    requires size > 0
    ensures |Windows(s, size)| == if |s| < size then 0 else |s| - size + 1
    ensures forall i :: 0 <= i < |Windows(s, size)| ==> Windows(s, size)[i] == s[i..i + size]
  {
    WindowsLength(s, size);
    forall i | 0 <= i < |Windows(s, size)|
      ensures Windows(s, size)[i] == s[i..i + size]
    {
      WindowAt(s, size, i);
    }
  }

  /** The window adapter: a buffer filled to `size` on the first call; each window is the
      buffer, after which the oldest item is dropped and the next one appended. */
  class WindowIter<T> {
    var rest: seq<T>
    const size: nat
    var buffer: seq<T>
    var initialized: bool

    function Remaining(): seq<seq<T>>
      reads this
    {
      Windows(buffer + rest, size)
    }

    ghost predicate Valid()
      reads this
    {
      && size > 0
      && |buffer| <= size
      && (!initialized ==> buffer == [])
      && (initialized ==> |buffer| == size || rest == [])
    }

    constructor (items: seq<T>, size: nat)
      requires size > 0
      ensures Valid() && rest == items && this.size == size && Remaining() == Windows(items, size)
    {
      rest, this.size, buffer, initialized := items, size, [], false;
      new;
      assert buffer + rest == items;
    }

    method Next() returns (r: Option<seq<T>>)
      requires Valid()
      modifies this
      ensures Valid()
      ensures r.None? ==> old(Remaining()) == [] && Remaining() == []
      ensures r.Some? ==> old(Remaining()) == [r.value] + Remaining()
    {
      if !initialized {
        while |buffer| < size
          invariant buffer + rest == old(buffer + rest)
          invariant |buffer| <= size && !initialized
          decreases size - |buffer|
        {
          if rest == [] {
            break;
          }
          buffer, rest := buffer + [rest[0]], rest[1..];
        }
        initialized := true;
      }
      if |buffer| < size {
        assert |buffer + rest| < size;
        return None;
      }
      var window := buffer;
      assert (buffer + rest)[..size] == window;
      if rest != [] {
        assert (buffer + rest)[1..] == buffer[1..] + [rest[0]] + rest[1..];
        buffer, rest := buffer[1..] + [rest[0]], rest[1..];
      } else {
        assert (buffer + rest)[1..] == buffer[1..] + rest;
        buffer := buffer[1..];
      }
      r := Some(window);
    }
  }

  // ---------------------------------------------------------------------------------------
  // Interleave

  /** One item of `a`, then one of `b`, and so on; once one side runs out, the rest of the
      other. */
  function Alternate<T>(a: seq<T>, b: seq<T>): seq<T>
    decreases |a|
  {
    if a == [] then b
    else if b == [] then a
    else [a[0], b[0]] + Alternate(a[1..], b[1..])
  }

  /** Taking one item from `a` hands the turn to `b`. */
  lemma {:induction false} AlternateCons<T>(a: seq<T>, b: seq<T>)
    requires a != []
    ensures Alternate(a, b) == [a[0]] + Alternate(b, a[1..])
    decreases |a| + |b|
  {
    if b != [] && a[1..] != [] {
      AlternateCons(b, a[1..]);
      assert a[1..][1..] == a[2..];
      AlternateSwapTail(a, b);
    }
  }

  lemma AlternateSwapTail<T>(a: seq<T>, b: seq<T>)
    requires |a| >= 2 && b != []
    requires Alternate(b, a[1..]) == [b[0]] + Alternate(a[1..], b[1..])
    ensures Alternate(a, b) == [a[0]] + Alternate(b, a[1..])
  {
  }

  /** The output is as long as both inputs together. */
  lemma {:induction false} AlternateLength<T>(a: seq<T>, b: seq<T>)
    ensures |Alternate(a, b)| == |a| + |b|
    decreases |a|
  {
    if a != [] && b != [] {
      AlternateLength(a[1..], b[1..]);
    }
  }

  /** While both inputs last, items 2k and 2k + 1 are a[k] and b[k]. */
  lemma {:induction false} AlternatePair<T>(a: seq<T>, b: seq<T>, k: nat)
    requires k < |a| && k < |b|
    ensures 2 * k + 1 < |Alternate(a, b)|
    ensures Alternate(a, b)[2 * k] == a[k] && Alternate(a, b)[2 * k + 1] == b[k]
    decreases k
  {
    AlternateLength(a, b);
    if k > 0 {
      AlternatePair(a[1..], b[1..], k - 1);
    }
  }

  /** Once the shorter input, of length m, runs out, the longer one's remaining items follow
      in order. */
  lemma {:induction false} AlternateTail<T>(a: seq<T>, b: seq<T>)
    ensures var m := if |a| < |b| then |a| else |b|;
            2 * m <= |Alternate(a, b)| && Alternate(a, b)[2 * m..] == a[m..] + b[m..]
    decreases |a|
  {
    AlternateLength(a, b);
    if a != [] && b != [] {
      AlternateTail(a[1..], b[1..]);
      var m := if |a| < |b| then |a| else |b|;
      assert Alternate(a, b)[2 * m..] == Alternate(a[1..], b[1..])[2 * (m - 1)..];
      assert a[m..] == a[1..][m - 1..] && b[m..] == b[1..][m - 1..];
    }
  }

  /** With m the length of the shorter input: items 2k and 2k + 1 are a[k] and b[k] for
      every k < m, and after those come the longer input's remaining items. */
  lemma AlternateShape<T>(a: seq<T>, b: seq<T>)
    ensures |Alternate(a, b)| == |a| + |b|
    ensures var m := if |a| < |b| then |a| else |b|;
            && (forall k :: 0 <= k < m ==> Alternate(a, b)[2 * k] == a[k] && Alternate(a, b)[2 * k + 1] == b[k])
            && Alternate(a, b)[2 * m..] == a[m..] + b[m..]
  {
    AlternateLength(a, b);
    AlternateTail(a, b);
    forall k | 0 <= k < |a| && k < |b|
      ensures Alternate(a, b)[2 * k] == a[k] && Alternate(a, b)[2 * k + 1] == b[k]
    {
      AlternatePair(a, b, k);
    }
  }

  /** Nothing is lost or added: the output holds exactly the items of both inputs. */
  lemma {:induction false} AlternateMultiset<T>(a: seq<T>, b: seq<T>)
    ensures multiset(Alternate(a, b)) == multiset(a) + multiset(b)
    decreases |a|
  {
    if a != [] && b != [] {
      AlternateMultiset(a[1..], b[1..]);
      MultisetHead(a);
      MultisetHead(b);
    }
  }

  lemma MultisetHead<T>(s: seq<T>)
    requires s != []
    ensures multiset(s) == multiset{s[0]} + multiset(s[1..])
  {
    assert s == [s[0]] + s[1..];
  }

  /** What an interleaving adapter still yields: `flag` says the last poll went to `a`, so
      `b` comes next. */
  function Interleaving<T>(a: seq<T>, b: seq<T>, flag: bool): seq<T>
  {
    if flag then Alternate(b, a) else Alternate(a, b)
  }

  /** One poll: the side due next yields its first item and hands the turn over; an empty
      side hands the turn over without changing what is left. */
  lemma InterleavingStep<T>(a: seq<T>, b: seq<T>, flag: bool)
    ensures !flag && a != [] ==> Interleaving(a, b, flag) == [a[0]] + Interleaving(a[1..], b, true)
    ensures flag && b != [] ==> Interleaving(a, b, flag) == [b[0]] + Interleaving(a, b[1..], false)
    ensures (if flag then b == [] else a == []) ==> Interleaving(a, b, flag) == Interleaving(a, b, !flag)
  {
    if a != [] {
      AlternateCons(a, b);
    }
    if b != [] {
      AlternateCons(b, a);
    }
  }

  /** The interleaving adapter: `flag` records which side went last. */
  class InterleaveIter<T> {
    var a: seq<T>
    var b: seq<T>
    var flag: bool

    function Remaining(): seq<T>
      reads this
    {
      Interleaving(a, b, flag)
    }

    constructor (a: seq<T>, b: seq<T>)
      ensures this.a == a && this.b == b && !flag && Remaining() == Alternate(a, b)
    {
      this.a, this.b, flag := a, b, false;
    }

    /** Flips the flag and polls the side it names, at most twice. The source then polls `a`
        and `b` once more; a sequence stays empty once drained, so those polls find nothing
        and end in the final `None`. */
    method Next() returns (r: Option<T>)
      modifies this
      ensures r.None? ==> old(Remaining()) == [] && Remaining() == []
      ensures r.Some? ==> old(Remaining()) == [r.value] + Remaining()
    {
      r := None;
      for i := 0 to 2
        invariant r.None? && Remaining() == old(Remaining())
        invariant i == 1 ==> if flag then a == [] else b == []
        invariant i == 2 ==> a == [] && b == []
      {
        InterleavingStep(a, b, flag);
        flag := !flag;
        if flag {
          if a != [] {
            r, a := Some(a[0]), a[1..];
            break;
          }
        } else if b != [] {
          r, b := Some(b[0]), b[1..];
          break;
        }
      }
    }
  }

  // ---------------------------------------------------------------------------------------
  // Product

  /** `base` paired with each item of `others` from position `i` on, in order. */
  function PairsFrom<T, U>(base: T, others: seq<U>, i: nat): seq<(T, U)>
    decreases |others| - i
  {
    if i >= |others| then [] else [(base, others[i])] + PairsFrom(base, others, i + 1)
  }

  function Pairs<T, U>(base: T, others: seq<U>): seq<(T, U)>
  {
    PairsFrom(base, others, 0)
  }

  lemma {:induction false} PairsFromLength<T, U>(base: T, others: seq<U>, i: nat)
    requires i <= |others|
    ensures |PairsFrom(base, others, i)| == |others| - i
    decreases |others| - i
  {
    if i < |others| {
      PairsFromLength(base, others, i + 1);
    }
  }

  lemma {:induction false} PairFromAt<T, U>(base: T, others: seq<U>, i: nat, k: nat)
    requires i + k < |others|
    ensures k < |PairsFrom(base, others, i)| && PairsFrom(base, others, i)[k] == (base, others[i + k])
    decreases k
  {
    PairsFromLength(base, others, i);
    if k > 0 {
      PairFromAt(base, others, i + 1, k - 1);
    }
  }

  /** Pair k is `base` with the k-th of `others`. */
  lemma PairsShape<T, U>(base: T, others: seq<U>)
    ensures |Pairs(base, others)| == |others|
    ensures forall k :: 0 <= k < |others| ==> Pairs(base, others)[k] == (base, others[k])
  {
    PairsFromLength(base, others, 0);
    forall k | 0 <= k < |others|
      ensures Pairs(base, others)[k] == (base, others[k])
    {
      PairFromAt(base, others, 0, k);
    }
  }

  /** One row of the cartesian product: `base` with each of `others` from `index` on. */
  class ProductIter<T, U> {
    const base: T
    const others: seq<U>
    var index: nat

    function Remaining(): seq<(T, U)>
      reads this
    {
      PairsFrom(base, others, index)
    }

    constructor (base: T, others: seq<U>)
      ensures this.base == base && this.others == others && index == 0
      ensures Remaining() == Pairs(base, others)
    {
      this.base, this.others, index := base, others, 0;
    }

    method Next() returns (r: Option<(T, U)>)
      modifies this
      ensures r.None? ==> old(Remaining()) == [] && Remaining() == []
      ensures r.Some? ==> old(Remaining()) == [r.value] + Remaining()
    {
      if index >= |others| {
        r := None;
      } else {
        var other := others[index];
        index := index + 1;
        r := Some((base, other));
      }
    }
  }

  // ---------------------------------------------------------------------------------------
  // Distinct

  /** The items of `s` not in `seen`, each at its first occurrence. */
  function DistinctFrom<T(==)>(s: seq<T>, seen: set<T>): seq<T>
    decreases |s|
  {
    if s == [] then []
    else if s[0] in seen then DistinctFrom(s[1..], seen)
    else [s[0]] + DistinctFrom(s[1..], seen + {s[0]})
  }

  function Distinct<T(==)>(s: seq<T>): seq<T>
  {
    DistinctFrom(s, {})
  }

  /** An item comes out iff it is in the input and was not seen before. */
  lemma {:induction false} DistinctMembers<T>(s: seq<T>, seen: set<T>)
    ensures forall x :: x in DistinctFrom(s, seen) <==> x in s && x !in seen
    decreases |s|
  {
    if s != [] {
      if s[0] in seen {
        DistinctMembers(s[1..], seen);
      } else {
        DistinctMembers(s[1..], seen + {s[0]});
      }
      assert forall x :: x in s <==> x == s[0] || x in s[1..];
    }
  }

  /** No item comes out twice. */
  lemma {:induction false} DistinctNoDuplicates<T>(s: seq<T>, seen: set<T>)
    ensures NoDuplicates(DistinctFrom(s, seen))
    decreases |s|
  {
    if s != [] {
      if s[0] in seen {
        DistinctNoDuplicates(s[1..], seen);
      } else {
        var tail := DistinctFrom(s[1..], seen + {s[0]});
        DistinctNoDuplicates(s[1..], seen + {s[0]});
        DistinctMembers(s[1..], seen + {s[0]});
        assert s[0] !in tail;
        assert DistinctFrom(s, seen) == [s[0]] + tail;
      }
    }
  }

  /** The output keeps the input's order. */
  lemma {:induction false} DistinctSubsequence<T>(s: seq<T>, seen: set<T>)
    ensures Subsequence(DistinctFrom(s, seen), s)
    decreases |s|
  {
    if s != [] {
      if s[0] in seen {
        DistinctSubsequence(s[1..], seen);
        SubsequenceOfTail(DistinctFrom(s[1..], seen), s);
      } else {
        DistinctSubsequence(s[1..], seen + {s[0]});
        assert ([s[0]] + DistinctFrom(s[1..], seen + {s[0]}))[1..] == DistinctFrom(s[1..], seen + {s[0]});
      }
    }
  }

  lemma SubsequenceOfTail<T>(x: seq<T>, s: seq<T>)
    requires s != [] && Subsequence(x, s[1..])
    ensures Subsequence(x, s)
  {
  }

  /** `distinct`: no duplicates, the same set of items as the input, in input order. */
  lemma DistinctSpec<T>(s: seq<T>)
    ensures NoDuplicates(Distinct(s))
    ensures forall x :: x in Distinct(s) <==> x in s
    ensures Subsequence(Distinct(s), s)
  {
    DistinctNoDuplicates(s, {});
    DistinctMembers(s, {});
    DistinctSubsequence(s, {});
  }

  /** The distinct adapter: `find` over the wrapped iterator for an item whose insertion
      into `seen` succeeds. */
  class DistinctIter<T(==)> {
    var rest: seq<T>
    var seen: set<T>

    function Remaining(): seq<T>
      reads this
    {
      DistinctFrom(rest, seen)
    }

    constructor (items: seq<T>)
      ensures rest == items && seen == {} && Remaining() == Distinct(items)
    {
      rest, seen := items, {};
    }

    method Next() returns (r: Option<T>)
      modifies this
      ensures r.None? ==> old(Remaining()) == [] && Remaining() == []
      ensures r.Some? ==> old(Remaining()) == [r.value] + Remaining()
    {
      while rest != []
        invariant seen == old(seen)
        invariant DistinctFrom(rest, seen) == old(Remaining())
        decreases |rest|
      {
        var item := rest[0];
        rest := rest[1..];
        if item !in seen {
          seen := seen + {item};
          return Some(item);
        }
      }
      r := None;
    }
  }

  // ---------------------------------------------------------------------------------------
  // Chunk map

  /** `chunk_map`: the concatenation of the mapper's results over successive chunks of
      `size` items. */
  function ChunkMap<T, U>(s: seq<T>, size: nat, f: seq<T> -> seq<U>): seq<U>
    decreases |s|
  {
    if s == [] || size == 0 then []
    else if |s| <= size then f(s)
    else f(s[..size]) + ChunkMap(s[size..], size, f)
  }

  /** The mapper applied to every chunk. */
  function MapChunks<T, U>(f: seq<T> -> seq<U>, chunks: seq<seq<T>>): seq<seq<U>>
  {
    if chunks == [] then [] else [f(chunks[0])] + MapChunks(f, chunks[1..])
  }

  /** `chunk_map` is the mapper applied to each of the groups `chunks` makes, the results
      concatenated. */
  lemma {:induction false} ChunkMapOfChunks<T, U>(s: seq<T>, size: nat, f: seq<T> -> seq<U>)
    ensures ChunkMap(s, size, f) == Flatten(MapChunks(f, Chunks(s, size)))
    decreases |s|
  {
    if s != [] && size > 0 {
      if |s| <= size {
        assert MapChunks(f, Chunks(s, size)) == [f(s)];
        assert Flatten([f(s)]) == f(s) + [];
      } else {
        ChunkMapOfChunks(s[size..], size, f);
        assert MapChunks(f, Chunks(s, size)) == [f(s[..size])] + MapChunks(f, Chunks(s[size..], size));
      }
    }
  }

  /** A full first chunk contributes its mapping in front of the rest's; when that mapping is
      empty the chunk is skipped and the stream goes on with the next one. */
  lemma ChunkMapStep<T, U>(p: seq<T>, s: seq<T>, size: nat, f: seq<T> -> seq<U>)
    requires |p| == size > 0 && s != []
    ensures ChunkMap(p + s, size, f) == f(p) + ChunkMap(s, size, f)
    ensures f(p) == [] ==> ChunkMap(p + s, size, f) == ChunkMap(s, size, f)
  {
    assert (p + s)[..size] == p && (p + s)[size..] == s;
  }

  /** Taking the first chunk off the input leaves its mapping in front of the rest's. */
  lemma ChunkMapFirst<T, U>(s: seq<T>, chunk: seq<T>, rest: seq<T>, size: nat, f: seq<T> -> seq<U>)
    requires chunk + rest == s && chunk != [] && |chunk| <= size
    requires |chunk| == size || rest == []
    ensures ChunkMap(s, size, f) == f(chunk) + ChunkMap(rest, size, f)
  {
    if rest == [] {
      assert s == chunk;
      assert f(chunk) + [] == f(chunk);
    } else {
      ChunkMapStep(chunk, rest, size, f);
    }
  }

  /** The item-wise map of `c` by `g`. */
  function MapItems<T, U>(g: T -> U, c: seq<T>): seq<U>
  {
    seq(|c|, k requires 0 <= k < |c| => g(c[k]))
  }

  lemma MapItemsAppend<T, U>(g: T -> U, p: seq<T>, s: seq<T>)
    ensures MapItems(g, p + s) == MapItems(g, p) + MapItems(g, s)
  {
  }

  /** A mapper that maps items one by one gives the item-wise map of the whole input. */
  lemma {:induction false} ChunkMapItemwise<T, U>(s: seq<T>, size: nat, f: seq<T> -> seq<U>, g: T -> U)
    requires size > 0
    requires forall c: seq<T> :: f(c) == MapItems(g, c)
    ensures ChunkMap(s, size, f) == MapItems(g, s)
    decreases |s|
  {
    if s == [] {
      assert MapItems(g, s) == [];
    } else if |s| > size {
      ChunkMapItemwise(s[size..], size, f, g);
      MapItemsAppend(g, s[..size], s[size..]);
      assert s[..size] + s[size..] == s;
    }
  }

  /** The items left in a partly drained mapped chunk. */
  function Pending<U>(current: Option<seq<U>>): seq<U>
  {
    if current.Some? then current.value else []
  }

  /** The chunk-map adapter: `current` holds what is left of the last mapped chunk. */
  class ChunkMapIter<T, U> {
    var rest: seq<T>
    const size: nat
    const mapper: seq<T> -> seq<U>
    var current: Option<seq<U>>

    function Remaining(): seq<U>
      reads this
    {
      Pending(current) + ChunkMap(rest, size, mapper)
    }

    /** The next item of the current mapped chunk; once that is used up, it is dropped. */
    method PopCurrent() returns (item: Option<U>)
      modifies this
      ensures rest == old(rest)
      ensures item.None? ==> current.None? && Pending(old(current)) == []
      ensures item.Some? ==> Pending(old(current)) == [item.value] + Pending(current)
      ensures item.None? ==> old(Remaining()) == Remaining()
      ensures item.Some? ==> old(Remaining()) == [item.value] + Remaining()
    {
      if current.Some? {
        if current.value != [] {
          assert current.value == [current.value[0]] + current.value[1..];
          item, current := Some(current.value[0]), Some(current.value[1..]);
          return;
        }
        current := None;
      }
      item := None;
    }

    constructor (items: seq<T>, size: nat, mapper: seq<T> -> seq<U>)
      ensures rest == items && this.size == size && this.mapper == mapper && current.None?
      ensures Remaining() == ChunkMap(items, size, mapper)
    {
      rest, this.size, this.mapper, current := items, size, mapper, None;
    }

    /** Takes the next chunk of up to `size` items and maps it; `None` when the wrapped
        iterator gave nothing. */
    method MapNextChunk() returns (mapped: Option<seq<U>>)
      modifies this
      ensures current == old(current)
      ensures mapped.None? ==> ChunkMap(old(rest), size, mapper) == [] && ChunkMap(rest, size, mapper) == []
      ensures mapped.Some? ==> |rest| < |old(rest)|
                               && ChunkMap(old(rest), size, mapper) == mapped.value + ChunkMap(rest, size, mapper)
      ensures current.None? && mapped.None? ==> old(Remaining()) == [] && Remaining() == []
      ensures current.None? && mapped.Some? ==> old(Remaining()) == mapped.value + Remaining()
    {
      var chunk;
      chunk, rest := TakeChunk(rest, size);
      if chunk == [] {
        assert size == 0 || old(rest) == [];
        return None;
      }
      ChunkMapFirst(old(rest), chunk, rest, size, mapper);
      mapped := Some(mapper(chunk));
    }

    /** Drains the current mapped chunk; when it is used up, maps the next chunk of up to
        `size` items, skipping chunks whose mapping is empty; an empty chunk ends the
        stream. */
    method Next() returns (r: Option<U>)
      modifies this
      ensures r.None? ==> old(Remaining()) == [] && Remaining() == []
      ensures r.Some? ==> old(Remaining()) == [r.value] + Remaining()
    {
      while true
        invariant Remaining() == old(Remaining())
        decreases |rest|
      {
        r := PopCurrent();
        if r.Some? {
          return;
        }
        var mapped := MapNextChunk();
        if mapped.None? {
          return;
        }
        if mapped.value != [] {
          ghost var tail := Remaining();
          assert mapped.value + tail == [mapped.value[0]] + (mapped.value[1..] + tail);
          r, current := Some(mapped.value[0]), Some(mapped.value[1..]);
          return;
        }
      }
    }
  }
}
