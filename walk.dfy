/** The depth-first directory walks of src/fs/walk.rs. A walk keeps a stack of paths still
    to visit and an error to report on the next call. It pops a path, yields it, and when
    `symlink_metadata` reports a real directory (never a link) pushes the children its
    listing gives, in listing order, until an entry read fails. */
module Walk {
  import opened Errors
  import opened Iters
  import opened Entries

  // ---------------------------------------------------------------------------------------
  // Directory listings

  /** How many entries `read_dir` gives before the first failing entry read. */
  function LeadingDone(listing: seq<IoResult<string>>): (n: nat)
    ensures n <= |listing|
    ensures forall k :: 0 <= k < n ==> listing[k].Done?
    ensures n < |listing| ==> listing[n].Failed?
    decreases |listing|
  {
    if listing == [] || listing[0].Failed? then 0 else 1 + LeadingDone(listing[1..])
  }

  /** The children pushed for `dir`: one path per entry read before the first failure. */
  function Children(dir: Path, listing: seq<IoResult<string>>): (r: seq<Path>)
    ensures |r| == LeadingDone(listing)
    ensures forall k :: 0 <= k < |r| ==> r[k] == dir + [listing[k].value]
  {
    seq(LeadingDone(listing), k requires 0 <= k < LeadingDone(listing) => dir + [listing[k].value])
  }

  /** The error the first failing entry read leaves pending. */
  function ListingError(listing: seq<IoResult<string>>): (r: Option<Error>)
    ensures r.Some? <==> LeadingDone(listing) < |listing|
  {
    var n := LeadingDone(listing);
    if n < |listing| then Some(Io(listing[n].io)) else None
  }

  /** The loop of `push_children` over a listing: it collects the child paths in order and
      stops at the first failing entry read, whose error it returns. */
  method ListChildren(dir: Path, listing: seq<IoResult<string>>) returns (children: seq<Path>, err: Option<Error>)
    ensures children == Children(dir, listing)
    ensures err == ListingError(listing)
  {
    children, err := [], None;
    var i := 0;
    while i < |listing|
      invariant i <= LeadingDone(listing)
      invariant children == Children(dir, listing)[..i]
      decreases |listing| - i
    {
      if listing[i].Failed? {
        err := Some(Io(listing[i].io));
        break;
      }
      children := children + [dir + [listing[i].value]];
      i := i + 1;
    }
    assert children == Children(dir, listing)[..i];
  }

  /** The paths pushed for a directory: its children, or none when it cannot be read. */
  function Pushed(fs: Fs, dir: Path): seq<Path>
  {
    match fs.readDir(dir)
    case Done(listing) => Children(dir, listing)
    case Failed(_) => []
  }

  /** The error a directory's listing leaves pending. */
  function PushError(fs: Fs, dir: Path): Option<Error>
  {
    match fs.readDir(dir)
    case Done(listing) => ListingError(listing)
    case Failed(e) => Some(Io(e))
  }

  /** The walk descends into `p` only when `symlink_metadata` says it is a directory and not
      a symbolic link. */
  predicate Descends(fs: Fs, p: Path)
  {
    fs.lstat(p).Done? && fs.lstat(p).value.kind == Dir && fs.lstat(p).value.kind != Link
  }

  /** A filesystem lists no name twice in one directory. */
  ghost predicate DistinctListings(fs: Fs)
  {
    forall p :: fs.readDir(p).Done? ==> DistinctNames(fs.readDir(p).value)
  }

  predicate DistinctNames(listing: seq<IoResult<string>>)
  {
    forall i, j :: 0 <= i < j < |listing| && listing[i].Done? && listing[j].Done? ==>
      listing[i].value != listing[j].value
  }

  // ---------------------------------------------------------------------------------------
  // Why no path is visited twice: no path on the stack lies inside another one, and none
  // lies inside (or is) a path already visited. A popped path is then new, and its children
  // keep both properties.

  /** No stack path is a prefix of another stack path. */
  ghost predicate Apart(s: seq<Path>)
  {
    forall i, j :: 0 <= i < |s| && 0 <= j < |s| && i != j ==> !(s[i] <= s[j])
  }

  /** No stack path is a prefix of a visited path. */
  ghost predicate Unvisited(s: seq<Path>, visited: seq<Path>)
  {
    forall i, k :: 0 <= i < |s| && 0 <= k < |visited| ==> !(s[i] <= visited[k])
  }

  ghost predicate WalkInvariant(fs: Fs, s: seq<Path>, visited: seq<Path>)
  {
    DistinctListings(fs) && Apart(s) && Unvisited(s, visited) && NoDuplicates(visited)
  }

  /** Paths one component below `p`, all different. */
  ghost predicate ChildrenOf(p: Path, c: seq<Path>)
  {
    NoDuplicates(c) && forall k :: 0 <= k < |c| ==> |c[k]| == |p| + 1 && p <= c[k]
  }

  lemma PushedAreChildren(fs: Fs, p: Path)
    requires DistinctListings(fs)
    ensures ChildrenOf(p, Pushed(fs, p))
  {
    if fs.readDir(p).Done? {
      var l := fs.readDir(p).value;
      var c := Children(p, l);
      assert DistinctNames(l);
      forall i, j | 0 <= i < j < |c|
        ensures c[i] != c[j]
      {
        assert c[i][|p|] == l[i].value && c[j][|p|] == l[j].value;
      }
      forall k | 0 <= k < |c|
        ensures |c[k]| == |p| + 1 && p <= c[k]
      {
        assert c[k] == p + [l[k].value];
      }
    }
  }

  /** A path apart from `p` is no prefix of a child of `p`. */
  lemma ApartFromChild(x: Path, p: Path, c: Path)
    requires !(x <= p) && !(p <= x) && |c| == |p| + 1 && p <= c
    ensures !(x <= c)
  {
    if |x| <= |p| {
      assert c[..|x|] == p[..|x|];
    }
  }

  /** A child of `p` is a prefix only of paths `p` is a prefix of. */
  lemma BelowChild(p: Path, c: Path, y: Path)
    requires !(p <= y) && p <= c
    ensures !(c <= y)
  {
    if |c| <= |y| {
      assert c[..|p|] == p;
      assert y[..|p|] == y[..|c|][..|p|];
    }
  }

  /** Popping the top path `p` and pushing children of it keeps the stack apart. */
  lemma {:induction false} PopPushApart(s: seq<Path>, c: seq<Path>)
    requires |s| > 0 && Apart(s) && ChildrenOf(s[|s| - 1], c)
    ensures Apart(s[..|s| - 1] + c)
  {
    var m := |s| - 1;
    var p := s[m];
    var t := s[..m] + c;
    forall i, j | 0 <= i < |t| && 0 <= j < |t| && i != j
      ensures !(t[i] <= t[j])
    {
      if i < m && j >= m {
        assert t[i] == s[i] && t[j] == c[j - m];
        assert !(s[i] <= s[m]) && !(s[m] <= s[i]);
        ApartFromChild(s[i], p, c[j - m]);
      } else if i >= m && j < m {
        assert t[i] == c[i - m] && t[j] == s[j];
        assert !(s[m] <= s[j]);
        BelowChild(p, c[i - m], s[j]);
      } else if i >= m {
        assert t[i] == c[i - m] && t[j] == c[j - m] && c[i - m] != c[j - m];
        assert |t[i]| == |t[j]| && t[j][..|t[j]|] == t[j];
      } else {
        assert t[i] == s[i] && t[j] == s[j];
      }
    }
  }

  /** ... and no new stack path lies inside a visited one, the popped path included. */
  lemma {:induction false} PopPushUnvisited(s: seq<Path>, visited: seq<Path>, c: seq<Path>)
    requires |s| > 0 && Apart(s) && Unvisited(s, visited) && ChildrenOf(s[|s| - 1], c)
    ensures Unvisited(s[..|s| - 1] + c, visited + [s[|s| - 1]])
  {
    var m := |s| - 1;
    var p := s[m];
    var t := s[..m] + c;
    var v := visited + [p];
    forall i, k | 0 <= i < |t| && 0 <= k < |v|
      ensures !(t[i] <= v[k])
    {
      if i < m {
        if k == |visited| {
          assert !(s[i] <= s[m]);
        } else {
          assert t[i] == s[i] && v[k] == visited[k];
        }
      } else if k < |visited| {
        assert !(s[m] <= visited[k]);
        BelowChild(p, c[i - m], visited[k]);
      } else {
        assert |t[i]| > |p|;
      }
    }
  }

  /** The walk step keeps the invariant and the popped path is new. */
  lemma PopPush(fs: Fs, s: seq<Path>, visited: seq<Path>, c: seq<Path>)
    requires |s| > 0 && WalkInvariant(fs, s, visited) && ChildrenOf(s[|s| - 1], c)
    ensures s[|s| - 1] !in visited
    ensures WalkInvariant(fs, s[..|s| - 1] + c, visited + [s[|s| - 1]])
  {
    var p := s[|s| - 1];
    forall k | 0 <= k < |visited|
      ensures visited[k] != p
    {
      assert !(s[|s| - 1] <= visited[k]);
    }
    PopPushApart(s, c);
    PopPushUnvisited(s, visited, c);
  }

  /** What the walk leaves pending after visiting `p`: the `symlink_metadata` failure, or
      else, for a directory, the listing's failure. */
  function StepError(fs: Fs, p: Path): Option<Error>
  {
    match fs.lstat(p)
    case Failed(e) => Some(Io(e))
    case Done(_) => if Descends(fs, p) then PushError(fs, p) else None
  }

  // ---------------------------------------------------------------------------------------
  // walk

  /** `WalkIter`. */
  class WalkIter {
    const fs: Fs
    var stack: seq<Path>
    var pendingErr: Option<Error>
    /** The paths popped so far. */
    ghost var visited: seq<Path>

    ghost predicate Valid()
      reads this
    {
      WalkInvariant(fs, stack, visited)
    }

    /** `WalkIter::new`: only the root on the stack, nothing pending. */
    constructor (fs: Fs, root: Path)
      requires DistinctListings(fs)
      ensures Valid()
      ensures this.fs == fs && stack == [root] && pendingErr == None && visited == []
    {
      this.fs := fs;
      stack := [root];
      pendingErr := None;
      visited := [];
    }

    /** `push_children`: the directory's children go on the stack in listing order; a
        failing listing or entry read leaves its error pending. */
    method PushChildren(dir: Path)
      modifies this
      ensures stack == old(stack) + Pushed(fs, dir)
      ensures pendingErr == if PushError(fs, dir).Some? then PushError(fs, dir) else old(pendingErr)
      ensures visited == old(visited)
    {
      match fs.readDir(dir)
      case Done(listing) =>
        var children, err := ListChildren(dir, listing);
        stack := stack + children;
        if err.Some? {
          pendingErr := err;
        }
      case Failed(e) =>
        pendingErr := Some(Io(e));
    }

    /** The examination of a popped path: `symlink_metadata`, then the children of a real
        directory; a failure of either is left pending. */
    method Visit(path: Path)
      requires pendingErr == None
      modifies this
      ensures stack == old(stack) + (if Descends(fs, path) then Pushed(fs, path) else [])
      ensures pendingErr == StepError(fs, path)
      ensures visited == old(visited)
    {
      var shouldDescend := false;
      match fs.lstat(path) {
        case Done(meta) =>
          shouldDescend := meta.kind == Dir && meta.kind != Link;
        case Failed(e) =>
          pendingErr := Some(Io(e));
      }
      if shouldDescend {
        PushChildren(path);
      }
    }

    /** `next`: a pending error first; then the top of the stack, yielded even when it
        cannot be examined or listed, its children pushed when it is a real directory. */
    method Next() returns (r: Option<Result<Path>>)
      requires Valid()
      modifies this
      ensures Valid()
      ensures old(pendingErr).Some? ==>
        r == Some(Err(old(pendingErr).value)) && pendingErr == None
        && stack == old(stack) && visited == old(visited)
      ensures old(pendingErr).None? && old(stack) == [] ==>
        r == None && pendingErr == None && stack == [] && visited == old(visited)
      ensures old(pendingErr).None? && old(stack) != [] ==>
        var p := old(stack)[|old(stack)| - 1];
        r == Some(Ok(p)) && p !in old(visited) && visited == old(visited) + [p]
        && stack == old(stack)[..|old(stack)| - 1] + (if Descends(fs, p) then Pushed(fs, p) else [])
        && pendingErr == StepError(fs, p)
    {
      if pendingErr.Some? {
        r := Some(Err(pendingErr.value));
        pendingErr := None;
        return;
      }
      if stack == [] {
        return None;
      }
      var path := stack[|stack| - 1];
      PushedAreChildren(fs, path);
      PopPush(fs, stack, visited, if Descends(fs, path) then Pushed(fs, path) else []);
      stack := stack[..|stack| - 1];
      visited := visited + [path];
      Visit(path);
      r := Some(Ok(path));
    }
  }

  /** `walk(root)` yields the root first. */
  method WalkStartsAtRoot(fs: Fs, root: Path) returns (first: Option<Result<Path>>)
    requires DistinctListings(fs)
    ensures first == Some(Ok(root))
  {
    var it := new WalkIter(fs, root);
    first := it.Next();
  }

  // ---------------------------------------------------------------------------------------
  // walk_detailed

  /** `WalkDetailedIter`: the same walk, yielding each path with its metadata. A path whose
      `symlink_metadata` fails is yielded as that error and not descended into. */
  class WalkDetailedIter {
    const fs: Fs
    var stack: seq<Path>
    var pendingErr: Option<Error>
    ghost var visited: seq<Path>

    ghost predicate Valid()
      reads this
    {
      WalkInvariant(fs, stack, visited)
    }

    constructor (fs: Fs, root: Path)
      requires DistinctListings(fs)
      ensures Valid()
      ensures this.fs == fs && stack == [root] && pendingErr == None && visited == []
    {
      this.fs := fs;
      stack := [root];
      pendingErr := None;
      visited := [];
    }

    /** `next`. The source asks `symlink_metadata` a second time before deciding to
        descend; the filesystem here answers the same question the same way, so that
        second call cannot fail. */
    method Next() returns (r: Option<Result<PathEntry>>)
      requires Valid()
      modifies this
      ensures Valid()
      ensures old(pendingErr).Some? ==>
        r == Some(Err(old(pendingErr).value)) && pendingErr == None
        && stack == old(stack) && visited == old(visited)
      ensures old(pendingErr).None? && old(stack) == [] ==>
        r == None && pendingErr == None && stack == [] && visited == old(visited)
      ensures old(pendingErr).None? && old(stack) != [] ==>
        var p := old(stack)[|old(stack)| - 1];
        p !in old(visited) && visited == old(visited) + [p]
        && (fs.lstat(p).Failed? ==>
              r == Some(Err(Io(fs.lstat(p).io))) && stack == old(stack)[..|old(stack)| - 1]
              && pendingErr == None)
        && (fs.lstat(p).Done? ==>
              r == Some(Ok(PathEntry(p, fs.lstat(p).value)))
              && stack == old(stack)[..|old(stack)| - 1] + (if Descends(fs, p) then Pushed(fs, p) else [])
              && pendingErr == StepError(fs, p))
    {
      if pendingErr.Some? {
        r := Some(Err(pendingErr.value));
        pendingErr := None;
        return;
      }
      if stack == [] {
        return None;
      }
      var path := stack[|stack| - 1];
      ghost var c := if Descends(fs, path) then Pushed(fs, path) else [];
      PushedAreChildren(fs, path);
      PopPush(fs, stack, visited, c);
      stack := stack[..|stack| - 1];
      visited := visited + [path];
      match fs.lstat(path)
      case Failed(e) =>
        r := Some(Err(Io(e)));
      case Done(metadata) =>
        if metadata.kind == Dir && metadata.kind != Link {
          match fs.readDir(path)
          case Done(listing) =>
            var children, err := ListChildren(path, listing);
            stack := stack + children;
            if err.Some? {
              pendingErr := err;
            }
          case Failed(e) =>
            pendingErr := Some(Io(e));
        }
        r := Some(Ok(PathEntry(path, metadata)));
    }
  }

  /** Draining `walk_detailed` as far as `limit` items: no path comes out twice, however the
      filesystem's links loop. */
  method WalkDetailedTake(fs: Fs, root: Path, limit: nat) returns (out: seq<Result<PathEntry>>)
    requires DistinctListings(fs)
    ensures |out| <= limit
    ensures forall i, j :: 0 <= i < j < |out| && out[i].Ok? && out[j].Ok? ==> out[i].value.path != out[j].value.path
  {
    var it := new WalkDetailedIter(fs, root);
    out := [];
    while |out| < limit
      invariant it.Valid() && |out| <= limit
      invariant forall i :: 0 <= i < |out| && out[i].Ok? ==> out[i].value.path in it.visited
      invariant forall i, j :: 0 <= i < j < |out| && out[i].Ok? && out[j].Ok? ==> out[i].value.path != out[j].value.path
      decreases limit - |out|
    {
      var r := it.Next();
      if r.None? {
        break;
      }
      out := out + [r.value];
    }
  }

  // ---------------------------------------------------------------------------------------
  // walk_files and walk_filter

  /** `is_file_or_symlink_to_file`: a regular file, or a link whose target `fs::metadata`
      reports as a regular file; directories and special files never pass. */
  predicate IsFileOrSymlinkToFile(fs: Fs, e: PathEntry): (r: bool)
    ensures e.IsFile() ==> r
    ensures r && !e.IsFile() ==> e.metadata.kind == Link && fs.stat(e.path).Done? && fs.stat(e.path).value.kind == File
    ensures e.metadata.kind == Dir || e.metadata.kind == Special ==> !r
  {
    if e.IsFile() then true
    else if e.metadata.kind == Link then fs.stat(e.path).Done? && fs.stat(e.path).value.kind == File
    else false
  }

  /** `walk_files` keeps the regular files and the links to regular files, passes errors
      through, and keeps the walk's order. */
  function WalkFiles(fs: Fs, walked: seq<Result<PathEntry>>): (r: seq<Result<PathEntry>>)
    ensures forall x :: x in r <==>
      x in walked && (x.Err? || x.value.IsFile()
        || (x.value.metadata.kind == Link && fs.stat(x.value.path).Done? && fs.stat(x.value.path).value.kind == File))
    ensures Subsequence(r, walked)
  {
    var keep := (e: PathEntry) => IsFileOrSymlinkToFile(fs, e);
    FilterOkMembers(walked, keep);
    FilterOkSubsequence(walked, keep);
    FilterOk(walked, keep)
  }

  /** `walk_filter(predicate)` keeps the entries the predicate accepts and passes errors
      through, in the walk's order. */
  lemma WalkFilterSpec(walked: seq<Result<PathEntry>>, keep: PathEntry -> bool, x: Result<PathEntry>)
    ensures x in FilterOk(walked, keep) <==> x in walked && (x.Err? || keep(x.value))
    ensures Subsequence(FilterOk(walked, keep), walked)
  {
    FilterOkMember(walked, keep, x);
    FilterOkSubsequence(walked, keep);
  }
}
