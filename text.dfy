/** Line handling shared by the command and file modules: Rust's `str::lines` and
    `BufRead::lines` splitting, and the `trim_end_matches` trimmings applied to lines. */
module Text {

  /** Index of the first '\n' in `s`, or `|s|` when there is none. */
  function NewlineIndex(s: string): (r: nat)
    ensures r <= |s|
    ensures forall j :: 0 <= j < r ==> s[j] != '\n'
    ensures r < |s| ==> s[r] == '\n'
  {
    if s == [] || s[0] == '\n' then 0 else 1 + NewlineIndex(s[1..])
  }

  predicate NoNewline(s: string)
  {
    forall j :: 0 <= j < |s| ==> s[j] != '\n'
  }

  /** Splitting at '\n' as `str::lines` and `BufRead::lines` do: each '\n' ends a line, a
      final line needs no terminator, and an empty text has no lines. */
  function SplitNewlines(s: string): (r: seq<string>)
    ensures forall k :: 0 <= k < |r| ==> NoNewline(r[k])
    decreases |s|
  {
    if s == [] then []
    else
      var i := NewlineIndex(s);
      if i == |s| then [s] else [s[..i]] + SplitNewlines(s[i + 1..])
  }

  /** Each line followed by '\n', the text a line-per-line writer produces. */
  function Terminated(lines: seq<string>): string
  {
    if lines == [] then [] else lines[0] + "\n" + Terminated(lines[1..])
  }

  /** Splitting a text made of '\n'-terminated lines gives the lines back, provided no line
      holds a '\n' of its own. */
  lemma {:induction false} SplitTerminated(lines: seq<string>)
    requires forall k :: 0 <= k < |lines| ==> NoNewline(lines[k])
    ensures SplitNewlines(Terminated(lines)) == lines
  {
    if lines != [] {
      SplitHead(lines[0], Terminated(lines[1..]));
      SplitTerminated(lines[1..]);
    }
  }

  /** A line without '\n' followed by '\n' is split off as the first part. */
  lemma SplitHead(head: string, rest: string)
    requires NoNewline(head)
    ensures SplitNewlines(head + "\n" + rest) == [head] + SplitNewlines(rest)
  {
    var s := head + "\n" + rest;
    assert s[|head|] == '\n';
    assert forall j :: 0 <= j < |head| ==> s[j] == head[j];
    assert NewlineIndex(s) == |head|;
    assert s[..|head|] == head;
    assert s[|head| + 1..] == rest;
  }

  /** `trim_end_matches('\r')`: every trailing carriage return removed. */
  function TrimCr(s: string): (r: string)
    ensures r <= s
    ensures r == [] || r[|r| - 1] != '\r'
    ensures forall j :: |r| <= j < |s| ==> s[j] == '\r'
  {
    if s != [] && s[|s| - 1] == '\r' then TrimCr(s[..|s| - 1]) else s
  }

  /** `trim_end_matches(&['\r', '\n'])`: every trailing carriage return and line feed
      removed, as the streaming producers do to each line they read. */
  function TrimLineEnd(s: string): (r: string)
    ensures r <= s
    ensures r == [] || (r[|r| - 1] != '\r' && r[|r| - 1] != '\n')
    ensures forall j :: |r| <= j < |s| ==> s[j] == '\r' || s[j] == '\n'
  {
    if s != [] && (s[|s| - 1] == '\r' || s[|s| - 1] == '\n') then TrimLineEnd(s[..|s| - 1])
    else s
  }

  /** The part `BufRead::lines` strips besides the '\n': one carriage return before it. */
  function StripOneCr(s: string): (r: string)
    ensures r == s || (s == r + "\r")
  {
    if s != [] && s[|s| - 1] == '\r' then s[..|s| - 1] else s
  }

  /** `str::lines` followed by `trim_end_matches('\r')` on each line, as the command's
      `lines` does. */
  function CommandLines(text: string): (r: seq<string>)
    ensures |r| == |SplitNewlines(text)|
    ensures forall k :: 0 <= k < |r| ==> r[k] == TrimCr(SplitNewlines(text)[k])
  {
    var parts := SplitNewlines(text);
    seq(|parts|, k requires 0 <= k < |parts| => TrimCr(parts[k]))
  }

  /** Whether part `k` of the split text was followed by a '\n': every part but the last,
      and the last one too when the text ends in '\n'. */
  predicate NewlineAfter(text: string, parts: seq<string>, k: nat)
  {
    k + 1 < |parts| || (text != [] && text[|text| - 1] == '\n')
  }

  /** `BufRead::lines`: lines split at '\n', each losing one '\r' right before its '\n'; an
      unterminated last line keeps its '\r'. */
  function ReadLines(text: string): (r: seq<string>)
    ensures |r| == |SplitNewlines(text)|
    ensures forall k :: 0 <= k < |r| && NewlineAfter(text, SplitNewlines(text), k) ==>
              r[k] == StripOneCr(SplitNewlines(text)[k])
    ensures forall k :: 0 <= k < |r| && !NewlineAfter(text, SplitNewlines(text), k) ==>
              r[k] == SplitNewlines(text)[k]
  {
    var parts := SplitNewlines(text);
    seq(|parts|, k requires 0 <= k < |parts| =>
      if NewlineAfter(text, parts, k) then StripOneCr(parts[k]) else parts[k])
  }

  /** A text without '\n' is one line, read as it stands: a trailing '\r' stays. */
  lemma ReadLinesUnterminated(line: string)
    requires NoNewline(line) && line != []
    ensures ReadLines(line) == [line]
  {
    assert NewlineIndex(line) == |line|;
  }

  /** A text ending in '\n' splits into terminated parts only. */
  lemma {:induction false} TerminatedEndsInNewline(lines: seq<string>)
    requires lines != []
    ensures Terminated(lines) != [] && Terminated(lines)[|Terminated(lines)| - 1] == '\n'
  {
    if lines[1..] != [] {
      TerminatedEndsInNewline(lines[1..]);
    }
  }

  /** A line that survives being written with a '\n' and read back unchanged: no line feed
      inside and no carriage return at its end. */
  predicate PlainLine(s: string)
  {
    NoNewline(s) && (s == [] || s[|s| - 1] != '\r')
  }

  /** Reading back '\n'-terminated plain lines with `BufRead::lines` gives the same lines. */
  lemma ReadLinesTerminated(lines: seq<string>)
    requires forall k :: 0 <= k < |lines| ==> PlainLine(lines[k])
    ensures ReadLines(Terminated(lines)) == lines
  {
    SplitTerminated(lines);
    if lines != [] {
      TerminatedEndsInNewline(lines);
    }
  }

  /** The same round trip for a command's `lines` over captured output. */
  lemma CommandLinesTerminated(lines: seq<string>)
    requires forall k :: 0 <= k < |lines| ==> PlainLine(lines[k])
    ensures CommandLines(Terminated(lines)) == lines
  {
    SplitTerminated(lines);
  }
}
