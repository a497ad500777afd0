/** Stdin sources of a command (src/command/stdin.rs): an owned byte buffer, or a reader
    shared behind a one-shot slot, and the feeding of a child's stdin from either. */
module Stdin {
  import opened Errors
  import opened Process

  /** The shared slot behind a reader source. It holds the bytes the reader would produce
      until a feed takes them; afterwards it is empty for every holder of the slot. */
  class ReaderSlot {
    var reader: Option<seq<bv8>>

    constructor (data: seq<bv8>)
      ensures reader == Some(data)
    {
      reader := Some(data);
    }
  }

  /** `StdinSource`: bytes written in one go, or a reader copied on a feeder thread. */
  datatype StdinSource = Bytes(data: seq<bv8>) | Reader(slot: ReaderSlot)

  /** `StdinSource::reader`: a reader source over a fresh, full slot. */
  method NewReader(data: seq<bv8>) returns (s: StdinSource)
    ensures s.Reader? && fresh(s.slot) && s.slot.reader == Some(data)
  {
    var slot := new ReaderSlot(data);
    s := Reader(slot);
  }

  /** `StdinSource::try_clone`: byte sources are duplicated, reader sources cannot be. */
  function TryClone(s: StdinSource): (r: Option<StdinSource>)
    ensures r.Some? <==> s.Bytes?
    ensures r.Some? ==> r.value.Bytes? && r.value.data == s.data
  {
    match s
    case Bytes(data) => Some(Bytes(data))
    case Reader(_) => None
  }

  /** The thread copying a reader into a child's stdin: the bytes it copies and what
      joining it reports. */
  datatype FeederHandle = FeederHandle(copied: seq<bv8>, outcome: JoinOutcome)

  const MissingStdinPipe: string := "missing stdin pipe"
  const ReaderConsumed: string := "stdin reader already consumed"

  /** The slots a feed may empty: the reader's, if the source is a reader. */
  function SlotOf(source: Option<StdinSource>): set<ReaderSlot>
  {
    if source.Some? && source.value.Reader? then {source.value.slot} else {}
  }

  /** What the shared slot of a source holds now (nothing, for a byte source). */
  function Available(source: Option<StdinSource>): Option<seq<bv8>>
    reads SlotOf(source)
  {
    if source.Some? && source.value.Reader? then source.value.slot.reader else None
  }

  /** The result of `feed_child_stdin`, given what the reader slot held before the feed.
      Feeding hands out a thread handle exactly when a reader is taken; every failure is an
      I/O error: a child without a stdin pipe, a failed write, or an already taken reader. */
  function FeedOutcome(child: Child, source: Option<StdinSource>, available: Option<seq<bv8>>)
    : (r: Result<Option<FeederHandle>>)
    ensures (r.Ok? && r.value.Some?) <==>
              source.Some? && source.value.Reader? && child.stdin.Some? && available.Some?
    ensures r.Ok? && r.value.Some? ==> r.value.value == FeederHandle(available.value, child.script.feeder)
    ensures r.Err? <==>
              source.Some? && (child.stdin.None?
                               || (source.value.Bytes? && child.script.writeError.Some?)
                               || (source.value.Reader? && available.None?))
    ensures r.Err? ==> r.error.Io?
  {
    match source
    case None => Ok(None)
    case Some(Bytes(_)) =>
      if child.stdin.None? then Err(Io(Other(MissingStdinPipe)))
      else if child.script.writeError.Some? then Err(Io(child.script.writeError.value))
      else Ok(None)
    case Some(Reader(_)) =>
      if child.stdin.None? then Err(Io(Other(MissingStdinPipe)))
      else if available.None? then Err(Io(Other(ReaderConsumed)))
      else Ok(Some(FeederHandle(available.value, child.script.feeder)))
  }

  /** The child after a feed: with a source and a stdin pipe the pipe is taken (and so
      closed once the feed is done), and the buffer of a byte source is written into it when
      the write succeeds; otherwise the child is unchanged. */
  function AfterFeed(child: Child, source: Option<StdinSource>): (after: Child)
    ensures after.(stdin := child.stdin, written := child.written) == child
    ensures after.stdin.None? <==> child.stdin.None? || source.Some?
    ensures child.written <= after.written
  {
    if source.None? || child.stdin.None? then child
    else if source.value.Bytes? && child.script.writeError.None? then
      child.(stdin := None, written := child.written + source.value.data)
    else child.(stdin := None)
  }

  /** `feed_child_stdin`. With no source nothing happens. A byte source takes the child's
      stdin pipe (closing it once written), writes the whole buffer and returns no handle. A
      reader source takes the pipe, then takes the reader out of the shared slot and returns
      the handle of the copying thread; a second feed from the same slot fails. A child
      without a stdin pipe is an error for either source. */
  method FeedChildStdin(child: Child, source: Option<StdinSource>)
    returns (after: Child, r: Result<Option<FeederHandle>>)
    modifies SlotOf(source)
    ensures r == FeedOutcome(child, source, old(Available(source)))
    ensures after == AfterFeed(child, source)
    ensures source.Some? && source.value.Reader? && child.stdin.Some? ==>
              source.value.slot.reader.None?
    ensures source.Some? && source.value.Reader? && child.stdin.None? ==>
              unchanged(source.value.slot)
  {
    after := child;
    if source.None? {
      return after, Ok(None);
    }
    if child.stdin.None? {
      return after, Err(Io(Other(MissingStdinPipe)));
    }
    after := after.(stdin := None);
    match source.value
    case Bytes(data) =>
      if child.script.writeError.Some? {
        r := Err(Io(child.script.writeError.value));
      } else {
        after := after.(written := after.written + data);
        r := Ok(None);
      }
    case Reader(slot) =>
      var taken := slot.reader;
      slot.reader := None;
      if taken.None? {
        r := Err(Io(Other(ReaderConsumed)));
      } else {
        r := Ok(Some(FeederHandle(taken.value, child.script.feeder)));
      }
  }

  /** A reader source feeds once: two children fed from the same reader source get the
      reader the first time and "stdin reader already consumed" the second time. */
  method FeedReaderTwice(first: Child, second: Child, data: seq<bv8>)
    returns (r1: Result<Option<FeederHandle>>, r2: Result<Option<FeederHandle>>)
    requires first.stdin.Some? && second.stdin.Some?
    ensures r1 == Ok(Some(FeederHandle(data, first.script.feeder)))
    ensures r2 == Err(Io(Other(ReaderConsumed)))
  {
    var source := NewReader(data);
    var _, a := FeedChildStdin(first, Some(source));
    var _, b := FeedChildStdin(second, Some(source));
    r1, r2 := a, b;
  }

  /** Text of the error reported for a panicked feeder thread. The panic payload is
      formatted with `Debug`, which for a boxed `Any` prints `Any { .. }` whatever the
      panic message was. */
  const FeederPanicked: string := "stdin writer task panicked: Any { .. }"

  /** `wait_stdin_writer`: no handle is success; otherwise the thread is joined, a panic
      becomes an I/O error and the thread's own I/O error is passed through. */
  function WaitStdinWriter(handle: Option<FeederHandle>): (r: Result<()>)
    ensures r.Ok? <==> handle.None? || handle.value.outcome == Returned(None)
    ensures r.Err? ==> r.error.Io?
    ensures r.Err? && handle.value.outcome.Returned? ==>
              r.error.io == handle.value.outcome.failure.value
  {
    match handle
    case None => Ok(())
    case Some(h) =>
      match h.outcome
      case Panicked(_) => Err(Io(Other(FeederPanicked)))
      case Returned(None) => Ok(())
      case Returned(Some(e)) => Err(Io(e))
  }
}
