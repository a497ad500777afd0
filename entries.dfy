/** Filesystem entries (src/fs/entries.rs) and the filesystem itself, which the walking,
    watching and file modules only ever consult: it is given as an oracle of lookups
    rather than defined here. */
module Entries {
  import opened Errors
  import opened Iters

  /** A path as its components, outermost first; `Path::join` of a name appends it. */
  type Path = seq<string>

  /** The type of a file as `symlink_metadata` reports it: a symbolic link is reported as
      a link, never as what it points to. */
  datatype FileKind = File | Dir | Link | Special

  /** The parts of `fs::Metadata` the toolkit reads; times are integers on one clock. */
  datatype Metadata = Metadata(kind: FileKind, size: nat, modified: Option<int>)

  /** The outcome of one operating-system call. */
  datatype IoResult<+T> = Done(value: T) | Failed(io: IoError)

  /** The filesystem as seen through the calls the toolkit makes.
      - `lstat`: `fs::symlink_metadata`, which does not follow links;
      - `stat`: `fs::metadata`, which follows them;
      - `readDir`: `fs::read_dir`: the names of a directory's children in listing order, each
        entry read either giving a name or failing;
      - `open`: `File::open` and then `BufRead::lines`: each line read, in order. */
  datatype Fs = Fs(
    lstat: Path -> IoResult<Metadata>,
    stat: Path -> IoResult<Metadata>,
    readDir: Path -> IoResult<seq<IoResult<string>>>,
    open: Path -> IoResult<seq<IoResult<string>>>)

  /** No '.' in `s`. */
  predicate NoDot(s: string)
  {
    forall j :: 0 <= j < |s| ==> s[j] != '.'
  }

  /** The index of the last '.' in `s`. */
  function LastDot(s: string): (r: Option<nat>)
    ensures r.Some? ==> r.value < |s| && s[r.value] == '.' && NoDot(s[r.value + 1..])
    ensures r.None? ==> NoDot(s)
    decreases |s|
  {
    if s == [] then None
    else if s[|s| - 1] == '.' then Some(|s| - 1)
    else
      var r := LastDot(s[..|s| - 1]);
      assert r.Some? ==> s[r.value + 1..] == s[..|s| - 1][r.value + 1..] + [s[|s| - 1]];
      r
  }

  /** `Path::extension` of a file name: the text after its last '.', unless that '.' is the
      name's first character (a hidden file such as ".profile" has no extension). */
  function ExtensionOf(name: string): (r: Option<string>)
    ensures r.Some? ==>
      |r.value| + 1 < |name| && name[|name| - |r.value| - 1] == '.'
      && name[|name| - |r.value|..] == r.value && NoDot(r.value)
    ensures r.None? <==> NoDot(name) || (name[0] == '.' && NoDot(name[1..]))
  {
    match LastDot(name)
    case None => None
    case Some(i) =>
      if i == 0 then
        None
      else
        assert !NoDot(name) by {
          assert name[i] == '.';
        }
        assert name[1..] != [] && name[1..][i - 1] == '.';
        Some(name[i + 1..])
  }

  /** `PathEntry`: a path with the metadata read for it. */
  datatype PathEntry = PathEntry(path: Path, metadata: Metadata)
  {
    predicate IsDir()
    {
      metadata.kind == Dir
    }

    predicate IsFile()
    {
      metadata.kind == File
    }

    function Size(): nat
    {
      metadata.size
    }

    function Modified(): Option<int>
    {
      metadata.modified
    }

    /** `Path::file_name`: the last component, unless there is none or it is "..". */
    function FileName(): Option<string>
    {
      if path == [] || path[|path| - 1] == ".." then None else Some(path[|path| - 1])
    }

    function Extension(): Option<string>
    {
      match FileName()
      case None => None
      case Some(name) => ExtensionOf(name)
    }
  }

  /** `path_entry_for`: the entry when `symlink_metadata` succeeds. */
  function PathEntryFor(fs: Fs, path: Path): (r: Option<PathEntry>)
    ensures r.Some? <==> fs.lstat(path).Done?
    ensures r.Some? ==> r.value.path == path && r.value.metadata == fs.lstat(path).value
  {
    match fs.lstat(path)
    case Done(m) => Some(PathEntry(path, m))
    case Failed(_) => None
  }

  // ---------------------------------------------------------------------------------------
  // The `filter_map` shape shared by the entry filters and the walks: an `Ok` item is kept
  // when the predicate holds, an `Err` item always.

  predicate Kept<T>(keep: T -> bool, x: Result<T>)
  {
    x.Err? || keep(x.value)
  }

  function FilterOk<T>(items: seq<Result<T>>, keep: T -> bool): seq<Result<T>>
    decreases |items|
  {
    if items == [] then []
    else (if Kept(keep, items[0]) then [items[0]] else []) + FilterOk(items[1..], keep)
  }

  /** The kept items are the input's, in the input's order. */
  lemma {:induction false} FilterOkSubsequence<T>(items: seq<Result<T>>, keep: T -> bool)
    ensures Subsequence(FilterOk(items, keep), items)
    decreases |items|
  {
    if items != [] {
      FilterOkSubsequence(items[1..], keep);
      var rest := FilterOk(items[1..], keep);
      if Kept(keep, items[0]) {
        assert ([items[0]] + rest)[1..] == rest;
      } else {
        assert FilterOk(items, keep) == rest;
      }
    }
  }

  /** An item is in the output exactly when it is in the input and is an error or passes
      the predicate. */
  lemma {:induction false} FilterOkMember<T>(items: seq<Result<T>>, keep: T -> bool, x: Result<T>)
    ensures x in FilterOk(items, keep) <==> x in items && Kept(keep, x)
    decreases |items|
  {
    if items != [] {
      FilterOkMember(items[1..], keep, x);
      assert items == [items[0]] + items[1..];
    }
  }

  /** `FilterOkMember` for every item of a stream of path entries at once. */
  lemma FilterOkMembers(items: seq<Result<PathEntry>>, keep: PathEntry -> bool)
    ensures forall x :: x in FilterOk(items, keep) <==> x in items && Kept(keep, x)
  {
    forall x
      ensures x in FilterOk(items, keep) <==> x in items && Kept(keep, x)
    {
      FilterOkMember(items, keep, x);
    }
  }

  /** Errors pass through unchanged and in order: the errors of the output are the errors
      of the input. */
  lemma {:induction false} FilterOkErrors<T>(items: seq<Result<T>>, keep: T -> bool)
    ensures FilterOk(FilterOk(items, keep), _ => false) == FilterOk(items, _ => false)
    decreases |items|
  {
    if items != [] {
      var rest := FilterOk(items[1..], keep);
      FilterOkErrors(items[1..], keep);
      if Kept(keep, items[0]) {
        assert FilterOk(items, keep) == [items[0]] + rest;
        assert ([items[0]] + rest)[1..] == rest;
      } else {
        assert FilterOk(items, keep) == rest;
      }
    }
  }

  /** Two tests that agree on every entry keep the same items. */
  lemma {:induction false} FilterOkSameTest<T>(items: seq<Result<T>>, keep: T -> bool, keep2: T -> bool)
    requires forall e :: keep(e) == keep2(e)
    ensures FilterOk(items, keep) == FilterOk(items, keep2)
    decreases |items|
  {
    if items != [] {
      FilterOkSameTest(items[1..], keep, keep2);
    }
  }
}
