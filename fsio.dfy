/** File helpers (src/fs/io.rs): concatenating files line by line, writing lines, removing
    a path, and allocating a temporary file. Every operating-system call is an outcome
    given to the model: the `Fs` oracle for lookups and reads, and an outcome per write,
    removal or creation. */
module FsIo {
  import opened Errors
  import opened Iters
  import opened Entries
  import opened Text

  // ---------------------------------------------------------------------------------------
  // cat

  /** One line read as a stream item: the line, or the read's error. */
  function ItemOf(result: IoResult<string>): Result<string>
  {
    match result
    case Done(line) => Ok(line)
    case Failed(e) => Err(Io(e))
  }

  /** One file's line reads as stream items. */
  function LinesOf(results: seq<IoResult<string>>): (r: seq<Result<string>>)
    ensures |r| == |results|
    ensures forall k :: 0 <= k < |r| ==> r[k] == ItemOf(results[k])
  {
    seq(|results|, k requires 0 <= k < |results| => ItemOf(results[k]))
  }

  lemma LinesOfCons(results: seq<IoResult<string>>)
    requires results != []
    ensures LinesOf(results) == [ItemOf(results[0])] + LinesOf(results[1..])
  {
  }

  /** What file `p` contributes: one item per line read, an error exactly where the read
      failed, or one error when the file cannot be opened. */
  function FileItems(fs: Fs, p: Path): (r: seq<Result<string>>)
    ensures fs.open(p).Failed? ==> r == [Err(Io(fs.open(p).io))]
    ensures fs.open(p).Done? ==>
      |r| == |fs.open(p).value| && forall k :: 0 <= k < |r| ==> (r[k].Ok? <==> fs.open(p).value[k].Done?)
  {
    match fs.open(p)
    case Done(results) => LinesOf(results)
    case Failed(e) => [Err(Io(e))]
  }

  /** `cat(files)` from file `i` on: each file's items, in the order listed; a file that
      cannot be opened leaves its error in the output. */
  function CatFrom(fs: Fs, files: seq<Path>, i: nat): (r: seq<Result<string>>)
    ensures forall k :: i <= k < |files| && fs.open(files[k]).Failed? ==> Err(Io(fs.open(files[k]).io)) in r
    decreases |files| - i
  {
    if i >= |files| then [] else FileItems(fs, files[i]) + CatFrom(fs, files, i + 1)
  }

  /** `cat(files)`: every file that cannot be opened leaves its error in the output. */
  function Cat(fs: Fs, files: seq<Path>): (r: seq<Result<string>>)
    ensures forall k :: 0 <= k < |files| && fs.open(files[k]).Failed? ==> Err(Io(fs.open(files[k]).io)) in r
  {
    CatFrom(fs, files, 0)
  }

  lemma {:induction false} CatFromShift(fs: Fs, a: seq<Path>, b: seq<Path>, i: nat)
    requires i <= |a|
    ensures CatFrom(fs, a + b, i) == CatFrom(fs, a, i) + CatFrom(fs, b, 0)
    decreases |a| - i
  {
    if i < |a| {
      CatFromShift(fs, a, b, i + 1);
      assert (a + b)[i] == a[i];
    } else {
      CatFromOffset(fs, a, b, 0);
    }
  }

  lemma {:induction false} CatFromOffset(fs: Fs, a: seq<Path>, b: seq<Path>, j: nat)
    requires j <= |b|
    ensures CatFrom(fs, a + b, |a| + j) == CatFrom(fs, b, j)
    decreases |b| - j
  {
    if j < |b| {
      CatFromOffset(fs, a, b, j + 1);
      assert (a + b)[|a| + j] == b[j];
    }
  }

  /** Concatenating two lists of files concatenates their outputs: every file's items come
      out whole, in the order the files are listed. */
  lemma CatAppend(fs: Fs, a: seq<Path>, b: seq<Path>)
    ensures Cat(fs, a + b) == Cat(fs, a) + Cat(fs, b)
  {
    CatFromShift(fs, a, b, 0);
  }

  /** A single file gives its lines in order, or one error when it cannot be opened. */
  lemma CatSingle(fs: Fs, p: Path)
    ensures fs.open(p).Done? ==> Cat(fs, [p]) == LinesOf(fs.open(p).value)
    ensures fs.open(p).Failed? ==> Cat(fs, [p]) == [Err(Io(fs.open(p).io))]
  {
    assert CatFrom(fs, [p], 1) == [];
  }

  /** A file that cannot be opened costs one error and the files after it still follow. */
  lemma CatOpenFailure(fs: Fs, before: seq<Path>, p: Path, after: seq<Path>)
    requires fs.open(p).Failed?
    ensures Cat(fs, before + [p] + after) == Cat(fs, before) + [Err(Io(fs.open(p).io))] + Cat(fs, after)
  {
    CatAppend(fs, before + [p], after);
    CatAppend(fs, before, [p]);
    CatSingle(fs, p);
  }

  /** `CatIter`: the files, the index of the next one to open, and the open file's unread
      line reads. */
  class CatIter {
    const fs: Fs
    const files: seq<Path>
    var idx: nat
    var current: Option<seq<IoResult<string>>>

    ghost predicate Valid()
      reads this
    {
      idx <= |files|
    }

    function Remaining(): seq<Result<string>>
      reads this
    {
      (if current.Some? then LinesOf(current.value) else []) + CatFrom(fs, files, idx)
    }

    constructor (fs: Fs, files: seq<Path>)
      ensures Valid() && Remaining() == Cat(fs, files)
    {
      this.fs := fs;
      this.files := files;
      idx := 0;
      current := None;
    }

    /** `advance_reader`: past the last file, nothing; otherwise move past the next file and
        open it, keeping its lines on success. */
    method AdvanceReader() returns (r: Option<Result<()>>)
      requires Valid()
      modifies this
      ensures Valid()
      ensures old(idx) == |files| ==> r.None? && idx == old(idx) && current == old(current)
      ensures old(idx) < |files| ==> idx == old(idx) + 1
      ensures old(idx) < |files| && fs.open(files[old(idx)]).Done? ==>
        r == Some(Ok(())) && current == Some(fs.open(files[old(idx)]).value)
      ensures old(idx) < |files| && fs.open(files[old(idx)]).Failed? ==>
        r == Some(Err(Io(fs.open(files[old(idx)]).io))) && current == old(current)
      ensures old(current).None? && r.None? ==> old(Remaining()) == [] && Remaining() == []
      ensures old(current).None? && r == Some(Ok(())) ==> old(Remaining()) == Remaining()
      ensures old(current).None? && r.Some? && r.value.Err? ==>
        old(Remaining()) == [Err(r.value.error)] + Remaining()
    {
      if idx >= |files| {
        return None;
      }
      var path := files[idx];
      ghost var rest := CatFrom(fs, files, idx + 1);
      assert CatFrom(fs, files, idx) == FileItems(fs, path) + rest;
      idx := idx + 1;
      match fs.open(path) {
        case Done(results) =>
          current := Some(results);
          return Some(Ok(()));
        case Failed(e) =>
          return Some(Err(Io(e)));
      }
    }

    /** The open file's next line read: the line, or its error with the file kept open. */
    method NextLine() returns (item: Result<string>)
      requires Valid() && current.Some? && current.value != []
      modifies this
      ensures Valid() && idx == old(idx)
      ensures old(Remaining()) == [item] + Remaining()
    {
      var results := current.value;
      LinesOfCons(results);
      current := Some(results[1..]);
      item := ItemOf(results[0]);
    }

    /** `next`: the open file's next line or read error; at the file's end, the next file,
        whose open failure is returned as an error; past the last file, the end. */
    method Next() returns (r: Option<Result<string>>)
      requires Valid()
      modifies this
      ensures Valid()
      ensures r.None? ==> old(Remaining()) == [] && Remaining() == []
      ensures r.Some? ==> old(Remaining()) == [r.value] + Remaining()
    {
      while true
        invariant Valid() && Remaining() == old(Remaining())
        decreases |files| - idx, if current.Some? then 1 + |current.value| else 0
      {
        if current.Some? {
          if current.value != [] {
            var item := NextLine();
            r := Some(item);
            break;
          }
          assert LinesOf(current.value) == [];
          current := None;
        } else {
          var result := AdvanceReader();
          if result.None? {
            r := None;
            break;
          }
          if result.value.Err? {
            r := Some(Err(result.value.error));
            break;
          }
        }
      }
    }
  }

  /** `cat(files)` drained. */
  method CollectCat(fs: Fs, files: seq<Path>) returns (out: seq<Result<string>>)
    ensures out == Cat(fs, files)
  {
    var it := new CatIter(fs, files);
    out := [];
    while true
      invariant it.Valid() && out + it.Remaining() == Cat(fs, files)
      decreases |it.Remaining()|
    {
      var r := it.Next();
      if r.None? {
        assert out + [] == out;
        return;
      }
      DrainStep(out, r.value, it.Remaining(), Cat(fs, files));
      out := out + [r.value];
    }
  }

  /** Two files read without error give all their lines, first file first: one line and
      two lines make three. */
  lemma CatTwoFiles(fs: Fs, a: Path, b: Path, la: seq<string>, lb: seq<string>)
    requires fs.open(a) == Done(seq(|la|, k requires 0 <= k < |la| => Done(la[k])))
    requires fs.open(b) == Done(seq(|lb|, k requires 0 <= k < |lb| => Done(lb[k])))
    ensures |Cat(fs, [a, b])| == |la| + |lb|
    ensures forall k :: 0 <= k < |la| ==> Cat(fs, [a, b])[k] == Ok(la[k])
    ensures forall k :: 0 <= k < |lb| ==> Cat(fs, [a, b])[|la| + k] == Ok(lb[k])
  {
    CatAppend(fs, [a], [b]);
    CatSingle(fs, a);
    CatSingle(fs, b);
    var c := Cat(fs, [a, b]);
    assert [a, b] == [a] + [b];
    assert c == LinesOf(fs.open(a).value) + LinesOf(fs.open(b).value);
    forall k | 0 <= k < |lb|
      ensures c[|la| + k] == Ok(lb[k])
    {
      assert c[|la| + k] == LinesOf(fs.open(b).value)[k];
    }
  }

  // ---------------------------------------------------------------------------------------
  // write_lines

  /** The text in the file when `write_lines` stops, from line `i` on: `fails(j)` is the
      outcome of the `j`-th `write_all` call (two per line: the line, then "\n"). */
  function WrittenFrom(fails: nat -> Option<IoError>, lines: seq<string>, i: nat): (r: string)
    ensures i <= |lines| ==> r <= Terminated(lines[i..])
    decreases |lines| - i
  {
    if i >= |lines| || fails(2 * i).Some? then []
    else
      assert lines[i..][1..] == lines[i + 1..];
      assert Terminated(lines[i..]) == lines[i] + "\n" + Terminated(lines[i + 1..]);
      if fails(2 * i + 1).Some? then lines[i]
      else lines[i] + "\n" + WrittenFrom(fails, lines, i + 1)
  }

  /** The first failing write from line `i` on, if any. */
  function WriteErrorFrom(fails: nat -> Option<IoError>, lines: seq<string>, i: nat): Option<IoError>
    decreases |lines| - i
  {
    if i >= |lines| then None
    else if fails(2 * i).Some? then fails(2 * i)
    else if fails(2 * i + 1).Some? then fails(2 * i + 1)
    else WriteErrorFrom(fails, lines, i + 1)
  }

  /** `write_lines`: create (or truncate) the file, then write each line and a "\n". Returns
      the outcome and the text written (none when the file could not be created, which then
      keeps whatever it held). */
  method WriteLines(createError: Option<IoError>, fails: nat -> Option<IoError>, lines: seq<string>)
    returns (r: Result<()>, written: string)
    ensures createError.Some? ==> r == Err(Io(createError.value)) && written == []
    ensures createError.None? ==> written == WrittenFrom(fails, lines, 0)
    ensures createError.None? && WriteErrorFrom(fails, lines, 0).None? ==> r == Ok(())
    ensures createError.None? && WriteErrorFrom(fails, lines, 0).Some? ==>
      r == Err(Io(WriteErrorFrom(fails, lines, 0).value))
  {
    written := [];
    if createError.Some? {
      return Err(Io(createError.value)), written;
    }
    r := Ok(());
    for i := 0 to |lines|
      invariant written + WrittenFrom(fails, lines, i) == WrittenFrom(fails, lines, 0)
      invariant WriteErrorFrom(fails, lines, i) == WriteErrorFrom(fails, lines, 0)
    {
      var e := fails(2 * i);
      if e.Some? {
        assert written + [] == written;
        return Err(Io(e.value)), written;
      }
      ghost var before := written;
      written := written + lines[i];
      e := fails(2 * i + 1);
      if e.Some? {
        return Err(Io(e.value)), written;
      }
      WrittenStep(fails, lines, i, before);
      written := written + "\n";
    }
    assert written + [] == written;
  }

  /** One line and its "\n" written after the text `done`. */
  lemma WrittenStep(fails: nat -> Option<IoError>, lines: seq<string>, i: nat, done: string)
    requires i < |lines| && fails(2 * i).None? && fails(2 * i + 1).None?
    ensures done + WrittenFrom(fails, lines, i) == ((done + lines[i]) + "\n") + WrittenFrom(fails, lines, i + 1)
  {
  }

  /** With no failing write the file holds every line, each followed by "\n". */
  lemma {:induction false} WrittenComplete(fails: nat -> Option<IoError>, lines: seq<string>, i: nat)
    requires i <= |lines|
    ensures WriteErrorFrom(fails, lines, i).None? ==> WrittenFrom(fails, lines, i) == Terminated(lines[i..])
    decreases |lines| - i
  {
    if i < |lines| {
      WrittenComplete(fails, lines, i + 1);
      assert lines[i..][1..] == lines[i + 1..];
      assert Terminated(lines[i..]) == lines[i] + "\n" + Terminated(lines[i + 1..]);
    }
  }

  /** The writes succeed exactly when no `write_all` call fails. */
  lemma {:induction false} WriteErrorNone(fails: nat -> Option<IoError>, lines: seq<string>, i: nat)
    ensures WriteErrorFrom(fails, lines, i).None? <==>
      forall j :: 2 * i <= j < 2 * |lines| ==> fails(j).None?
    decreases |lines| - i
  {
    if i < |lines| {
      WriteErrorNone(fails, lines, i + 1);
      if WriteErrorFrom(fails, lines, i).None? {
        assert forall j :: 2 * i <= j < 2 * |lines| ==> fails(j).None? by {
          forall j | 2 * i <= j < 2 * |lines|
            ensures fails(j).None?
          {
            if j >= 2 * i + 2 {
              assert 2 * (i + 1) <= j;
            }
          }
        }
      }
    }
  }

  /** Lines written and then read back with `BufRead::lines` come back unchanged, when no
      line holds a "\n" or ends in "\r". */
  lemma WriteThenRead(fails: nat -> Option<IoError>, lines: seq<string>)
    requires forall j :: 0 <= j < 2 * |lines| ==> fails(j).None?
    requires forall k :: 0 <= k < |lines| ==> PlainLine(lines[k])
    ensures WrittenFrom(fails, lines, 0) == Terminated(lines)
    ensures ReadLines(WrittenFrom(fails, lines, 0)) == lines
  {
    WriteErrorNone(fails, lines, 0);
    WrittenComplete(fails, lines, 0);
    assert lines[0..] == lines;
    ReadLinesTerminated(lines);
  }

  // ---------------------------------------------------------------------------------------
  // rm

  /** What `rm` asks the system to do. */
  datatype Removal = RemoveDirAll | RemoveFile

  /** `rm`'s decision from `symlink_metadata`: a missing path needs nothing, another lookup
      error is returned, a directory is removed recursively, anything else (a symbolic link
      included, whatever it points to) is removed as a file. */
  function RmPlan(fs: Fs, p: Path): (r: Result<Option<Removal>>)
    ensures r == Ok(None) <==> fs.lstat(p).Failed? && fs.lstat(p).io.kind == NotFound
    ensures r.Err? <==> fs.lstat(p).Failed? && fs.lstat(p).io.kind != NotFound
    ensures r.Err? ==> r.error == Io(fs.lstat(p).io)
    ensures r == Ok(Some(RemoveDirAll)) <==> fs.lstat(p).Done? && fs.lstat(p).value.kind == Dir
    ensures r == Ok(Some(RemoveFile)) <==> fs.lstat(p).Done? && fs.lstat(p).value.kind != Dir
  {
    match fs.lstat(p)
    case Failed(e) => if e.kind == NotFound then Ok(None) else Err(Io(e))
    case Done(m) => if m.kind == Dir then Ok(Some(RemoveDirAll)) else Ok(Some(RemoveFile))
  }

  /** `rm`, given the outcome of the removal call it makes. */
  function Rm(fs: Fs, p: Path, removeError: Removal -> Option<IoError>): (r: Result<()>)
    ensures RmPlan(fs, p) == Ok(None) ==> r == Ok(())
    ensures RmPlan(fs, p).Err? ==> r == Err(RmPlan(fs, p).error)
    ensures RmPlan(fs, p).Ok? && RmPlan(fs, p).value.Some? ==>
      (r.Ok? <==> removeError(RmPlan(fs, p).value.value).None?)
  {
    match RmPlan(fs, p)
    case Err(e) => Err(e)
    case Ok(None) => Ok(())
    case Ok(Some(removal)) =>
      match removeError(removal)
      case Some(e) => Err(Io(e))
      case None => Ok(())
  }

  /** A symbolic link to a directory is removed as a file: the directory it points to is
      not descended into. */
  lemma RmLinkToDir(fs: Fs, p: Path)
    requires fs.lstat(p).Done? && fs.lstat(p).value.kind == Link
    requires fs.stat(p).Done? && fs.stat(p).value.kind == Dir
    ensures RmPlan(fs, p) == Ok(Some(RemoveFile))
  {
  }

  // ---------------------------------------------------------------------------------------
  // temp_file

  function DigitChar(d: nat): char
    requires d < 10
  {
    ('0' as int + d) as char
  }

  /** `{}` of an unsigned integer: its decimal digits. */
  function Decimal(n: nat): (r: string)
    ensures |r| >= 1
    ensures forall k :: 0 <= k < |r| ==> '0' <= r[k] <= '9'
  {
    if n < 10 then [DigitChar(n)] else Decimal(n / 10) + [DigitChar(n % 10)]
  }

  /** Reading decimal digits back: the reference the formatting is checked against. */
  function ParseDecimal(s: string): nat
  {
    if s == [] then 0
    else
      var c := s[|s| - 1];
      var d := if '0' <= c <= '9' then (c as int - '0' as int) else 0;
      10 * ParseDecimal(s[..|s| - 1]) + d
  }

  lemma {:induction false} ParseDecimalOfDecimal(n: nat)
    ensures ParseDecimal(Decimal(n)) == n
  {
    if n >= 10 {
      ParseDecimalOfDecimal(n / 10);
      var s := Decimal(n);
      assert s[..|s| - 1] == Decimal(n / 10);
    }
  }

  /** The milliseconds since the epoch `temp_file` formats: zero for a clock reading
      before the epoch. */
  function EpochMillis(clock: int): nat
  {
    if clock >= 0 then clock else 0
  }

  /** The name of attempt `attempt`: "{prefix}-{pid}-{now}-{attempt}.tmp" in the
      temporary directory. */
  function Candidate(base: Path, prefix: string, pid: nat, now: nat, attempt: nat): Path
  {
    base + [prefix + "-" + Decimal(pid) + "-" + Decimal(now) + "-" + Decimal(attempt) + ".tmp"]
  }

  /** Different attempts try different names. */
  lemma CandidatesDiffer(base: Path, prefix: string, pid: nat, now: nat, a: nat, b: nat)
    requires a != b
    ensures Candidate(base, prefix, pid, now, a) != Candidate(base, prefix, pid, now, b)
  {
    var stem := prefix + "-" + Decimal(pid) + "-" + Decimal(now) + "-";
    var na := stem + Decimal(a) + ".tmp";
    var nb := stem + Decimal(b) + ".tmp";
    if na == nb {
      assert |Decimal(a)| == |Decimal(b)|;
      assert Decimal(a) == na[|stem|..|na| - 4];
      assert Decimal(b) == nb[|stem|..|nb| - 4];
      ParseDecimalOfDecimal(a);
      ParseDecimalOfDecimal(b);
    }
    assert Candidate(base, prefix, pid, now, a)[|base|] == na;
    assert Candidate(base, prefix, pid, now, b)[|base|] == nb;
  }

  /** The most names `temp_file` tries. */
  const MaxAttempts: nat := 100

  /** The error after every name was taken. */
  const AllocationFailed: IoError := IoError(AlreadyExists, "failed to allocate temporary file")

  /** `temp_file` from attempt `attempt` on, `create(p)` being the outcome of creating `p`
      exclusively: the first name created wins, a name that exists moves on, any other
      error is returned. */
  function TempFileFrom(create: Path -> Option<IoError>, base: Path, prefix: string, pid: nat, now: nat, attempt: nat): (r: Result<Path>)
    ensures r.Ok? ==> create(r.value).None? && exists a :: attempt <= a < MaxAttempts && r.value == Candidate(base, prefix, pid, now, a)
    ensures r.Err? ==> r.error.Io? && (r.error.io == AllocationFailed || r.error.io.kind != AlreadyExists)
    decreases MaxAttempts - attempt
  {
    if attempt >= MaxAttempts then Err(Io(AllocationFailed))
    else
      var candidate := Candidate(base, prefix, pid, now, attempt);
      match create(candidate)
      case None => Ok(candidate)
      case Some(e) =>
        if e.kind == AlreadyExists then TempFileFrom(create, base, prefix, pid, now, attempt + 1)
        else Err(Io(e))
  }

  /** `temp_file(prefix)`, the clock read as `clock` milliseconds. */
  method TempFile(create: Path -> Option<IoError>, base: Path, prefix: string, pid: nat, clock: int)
    returns (r: Result<Path>)
    ensures r == TempFileFrom(create, base, prefix, pid, EpochMillis(clock), 0)
  {
    var now := EpochMillis(clock);
    for attempt := 0 to MaxAttempts
      invariant TempFileFrom(create, base, prefix, pid, now, attempt) == TempFileFrom(create, base, prefix, pid, now, 0)
    {
      var candidate := Candidate(base, prefix, pid, now, attempt);
      match create(candidate) {
        case None =>
          return Ok(candidate);
        case Some(e) =>
          if e.kind != AlreadyExists {
            return Err(Io(e));
          }
      }
    }
    return Err(Io(AllocationFailed));
  }

  predicate Taken(create: Path -> Option<IoError>, p: Path)
  {
    create(p).Some? && create(p).value.kind == AlreadyExists
  }

  /** Names already taken are skipped: the outcome is that of the first attempt whose name
      is not taken. */
  lemma {:induction false} TempFileSkipsTaken(create: Path -> Option<IoError>, base: Path, prefix: string, pid: nat, now: nat, a: nat)
    requires a <= MaxAttempts
    requires forall b :: 0 <= b < a ==> Taken(create, Candidate(base, prefix, pid, now, b))
    ensures TempFileFrom(create, base, prefix, pid, now, 0) == TempFileFrom(create, base, prefix, pid, now, a)
  {
    var k := 0;
    while k < a
      invariant k <= a
      invariant TempFileFrom(create, base, prefix, pid, now, 0) == TempFileFrom(create, base, prefix, pid, now, k)
    {
      assert Taken(create, Candidate(base, prefix, pid, now, k));
      k := k + 1;
    }
  }

  /** The outcomes of `temp_file`: the first free name among at most 100 distinct ones, the
      first error other than a taken name, or, all 100 names taken, "failed to allocate
      temporary file". */
  lemma TempFileOutcomes(create: Path -> Option<IoError>, base: Path, prefix: string, pid: nat, now: nat, a: nat)
    requires a <= MaxAttempts
    requires forall b :: 0 <= b < a ==> Taken(create, Candidate(base, prefix, pid, now, b))
    ensures a == MaxAttempts ==> TempFileFrom(create, base, prefix, pid, now, 0) == Err(Io(AllocationFailed))
    ensures a < MaxAttempts && create(Candidate(base, prefix, pid, now, a)).None? ==>
      TempFileFrom(create, base, prefix, pid, now, 0) == Ok(Candidate(base, prefix, pid, now, a))
    ensures (a < MaxAttempts && !Taken(create, Candidate(base, prefix, pid, now, a))
      && create(Candidate(base, prefix, pid, now, a)).Some?) ==>
      TempFileFrom(create, base, prefix, pid, now, 0) == Err(Io(create(Candidate(base, prefix, pid, now, a)).value))
  {
    TempFileSkipsTaken(create, base, prefix, pid, now, a);
  }
}
