/** The entry filters of src/fs/filter.rs: each keeps the `Ok` entries its test accepts
    and lets every `Err` item through, in stream order. */
module Filter {
  import opened Errors
  import opened Iters
  import opened Entries

  /** `char::to_ascii_lowercase`: 'A'..'Z' become 'a'..'z'; every other character is kept. */
  function LowerChar(c: char): (r: char)
    ensures 'A' <= c <= 'Z' ==> r as int == c as int + 32
    ensures !('A' <= c <= 'Z') ==> r == c
  {
    if 'A' <= c <= 'Z' then (c as int + 32) as char else c
  }

  /** `str::to_ascii_lowercase`. */
  function AsciiLower(s: string): (r: string)
    ensures |r| == |s|
    ensures forall j :: 0 <= j < |s| ==> r[j] == LowerChar(s[j])
  {
    seq(|s|, j requires 0 <= j < |s| => LowerChar(s[j]))
  }

  /** Lower-casing twice is lower-casing once. */
  lemma AsciiLowerIdempotent(s: string)
    ensures AsciiLower(AsciiLower(s)) == AsciiLower(s)
  {
  }

  /** The test of `filter_extension`: the entry has an extension, equal to `ext` up to
      ASCII case. */
  predicate HasExtension(ext: string, e: PathEntry)
  {
    e.Extension().Some? && AsciiLower(e.Extension().value) == AsciiLower(ext)
  }

  /** `filter_extension(ext)` keeps an `Ok` entry exactly when its extension matches `ext`
      ignoring ASCII case; entries without an extension go, errors stay. */
  function FilterExtension(items: seq<Result<PathEntry>>, ext: string): (r: seq<Result<PathEntry>>)
    ensures forall x :: x in r <==>
      x in items && (x.Err? || (x.value.Extension().Some? && AsciiLower(x.value.Extension().value) == AsciiLower(ext)))
  {
    var keep := (e: PathEntry) => HasExtension(ext, e);
    FilterOkMembers(items, keep);
    FilterOk(items, keep)
  }

  /** The needle's case does not matter. */
  lemma FilterExtensionCase(items: seq<Result<PathEntry>>, ext: string)
    ensures FilterExtension(items, ext) == FilterExtension(items, AsciiLower(ext))
  {
    AsciiLowerIdempotent(ext);
    FilterOkSameTest(items, (e: PathEntry) => HasExtension(ext, e), (e: PathEntry) => HasExtension(AsciiLower(ext), e));
  }

  /** `filter_size(min_bytes)` keeps an `Ok` entry exactly when it holds at least
      `min_bytes` bytes; errors stay. */
  function FilterSize(items: seq<Result<PathEntry>>, minBytes: nat): (r: seq<Result<PathEntry>>)
    ensures forall x :: x in r <==> x in items && (x.Err? || x.value.Size() >= minBytes)
  {
    var keep := (e: PathEntry) => e.Size() >= minBytes;
    FilterOkMembers(items, keep);
    FilterOk(items, keep)
  }

  predicate ModifiedSince(since: int, e: PathEntry)
  {
    e.Modified().Some? && e.Modified().value >= since
  }

  /** `filter_modified_since(since)` keeps an `Ok` entry exactly when it has a
      modification time and that time is not before `since`; errors stay. */
  function FilterModifiedSince(items: seq<Result<PathEntry>>, since: int): (r: seq<Result<PathEntry>>)
    ensures forall x :: x in r <==>
      x in items && (x.Err? || (x.value.Modified().Some? && x.value.Modified().value >= since))
  {
    var keep := (e: PathEntry) => ModifiedSince(since, e);
    FilterOkMembers(items, keep);
    FilterOk(items, keep)
  }

  /** Each filter's output is an order-preserving subsequence of its input, and carries
      the input's errors unchanged and in order. */
  lemma FiltersKeepOrderAndErrors(items: seq<Result<PathEntry>>, ext: string, minBytes: nat, since: int)
    ensures Subsequence(FilterExtension(items, ext), items)
    ensures Subsequence(FilterSize(items, minBytes), items)
    ensures Subsequence(FilterModifiedSince(items, since), items)
    ensures FilterOk(FilterExtension(items, ext), _ => false) == FilterOk(items, _ => false)
    ensures FilterOk(FilterSize(items, minBytes), _ => false) == FilterOk(items, _ => false)
    ensures FilterOk(FilterModifiedSince(items, since), _ => false) == FilterOk(items, _ => false)
  {
    FilterOkSubsequence(items, (e: PathEntry) => HasExtension(ext, e));
    FilterOkSubsequence(items, (e: PathEntry) => e.Size() >= minBytes);
    FilterOkSubsequence(items, (e: PathEntry) => ModifiedSince(since, e));
    FilterOkErrors(items, (e: PathEntry) => HasExtension(ext, e));
    FilterOkErrors(items, (e: PathEntry) => e.Size() >= minBytes);
    FilterOkErrors(items, (e: PathEntry) => ModifiedSince(since, e));
  }

  /** "notes.TXT" passes `filter_extension("txt")`: the extension's case is ignored. */
  lemma ExtensionExampleUpper(dir: Path, m: Metadata)
    ensures HasExtension("txt", PathEntry(dir + ["notes.TXT"], m))
  {
    var e := PathEntry(dir + ["notes.TXT"], m);
    assert e.FileName() == Some("notes.TXT");
    var name := "notes.TXT";
    var x := ExtensionOf(name);
    assert !NoDot(name) by {
      assert name[5] == '.';
    }
    assert x.Some? by {
      assert name[0] != '.';
    }
    assert |name| - |x.value| - 1 == 5 by {
      assert forall j :: 0 <= j < |name| && j != 5 ==> name[j] != '.';
    }
    assert x.value == name[6..] == "TXT";
    assert AsciiLower("TXT") == "txt";
    assert AsciiLower("txt") == "txt";
  }

  /** ".txt", a hidden file with no extension, and "notes", with no dot at all, do not
      pass `filter_extension("txt")`. */
  lemma ExtensionExamplesWithout(dir: Path, m: Metadata)
    ensures !HasExtension("txt", PathEntry(dir + [".txt"], m))
    ensures !HasExtension("txt", PathEntry(dir + ["notes"], m))
  {
    assert PathEntry(dir + [".txt"], m).FileName() == Some(".txt");
    assert NoDot(".txt"[1..]);
    assert PathEntry(dir + ["notes"], m).FileName() == Some("notes");
    assert NoDot("notes");
  }
}
