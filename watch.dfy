/** Filesystem change events (src/fs/watch.rs): the events themselves, their conversion
    from the notification backend's raw events, the iterator that queues converted events,
    and the debouncing filter. The backend's raw events and errors arrive as a given
    sequence of messages; the filesystem is consulted through the `Fs` oracle. */
module Watch {
  import opened Errors
  import opened Iters
  import opened Entries

  /** `WatchEvent`. */
  datatype WatchEvent =
    | Created(entry: PathEntry)
    | Modified(entry: PathEntry)
    | Removed(path: Path, wasDir: bool)
    | Renamed(from: Path, to: Path, target: Option<PathEntry>)
  {
    /** `path()`: where the change happened: the entry's path, the removed path, and for a
        rename the destination entry's path, or `to` when it could not be examined. */
    function PathOf(): (r: Path)
      ensures (Created? || Modified?) ==> r == entry.path
      ensures Removed? ==> r == path
      ensures Renamed? && target.None? ==> r == to
      ensures Renamed? && target.Some? ==> r == target.value.path
    {
      match this
      case Created(e) => e.path
      case Modified(e) => e.path
      case Removed(p, _) => p
      case Renamed(_, to, target) => if target.Some? then target.value.path else to
    }

    /** `is_dir()`: the entry's kind, the flag a removal recorded, and for a rename the
        destination entry's kind, false when it could not be examined. */
    predicate IsDir(): (r: bool)
      ensures (Created? || Modified?) ==> (r <==> entry.IsDir())
      ensures Removed? ==> (r <==> wasDir)
      ensures Renamed? ==> (r <==> target.Some? && target.value.IsDir())
    {
      match this
      case Created(e) => e.IsDir()
      case Modified(e) => e.IsDir()
      case Removed(_, wasDir) => wasDir
      case Renamed(_, _, target) => target.Some? && target.value.IsDir()
    }

    /** `from_path()`: only a rename has a source. */
    function FromPath(): (r: Option<Path>)
      ensures r.Some? <==> Renamed?
      ensures r.Some? ==> r.value == from
    {
      if Renamed? then Some(from) else None
    }
  }

  // ---------------------------------------------------------------------------------------
  // Raw backend events

  datatype RenameMode = RenameAny | RenameTo | RenameFrom | RenameBoth | RenameOther
  datatype RemoveKind = RemoveAny | RemoveFile | RemoveFolder | RemoveOther

  /** The backend's event kinds, as far as the conversion tells them apart: `Modify(Some(m))`
      is a modification of kind `Name(m)`, a rename; `Modify(None)` any other modification. */
  datatype EventKind =
    | KindAny
    | Access
    | Create
    | Modify(rename: Option<RenameMode>)
    | Remove(removeKind: RemoveKind)
    | KindOther

  datatype RawEvent = RawEvent(kind: EventKind, paths: seq<Path>)

  /** `path.is_dir()`, which follows links. */
  predicate IsDirFollowing(fs: Fs, p: Path)
  {
    fs.stat(p).Done? && fs.stat(p).value.kind == Dir
  }

  /** The events one path of a non-rename raw event converts to: none or one, about that
      path; a removal always gives one, an access none. */
  function StandardOne(fs: Fs, kind: EventKind, p: Path): (r: seq<WatchEvent>)
    ensures |r| <= 1
    ensures |r| == 1 ==> r[0].PathOf() == p
    ensures kind.Remove? ==> |r| == 1 && r[0].Removed?
    ensures kind == Access ==> r == []
    ensures kind == Create ==> (|r| == 1 <==> fs.lstat(p).Done?) && (|r| == 1 ==> r[0].Created?)
  {
    match kind
    case Create =>
      if PathEntryFor(fs, p).Some? then [Created(PathEntryFor(fs, p).value)] else []
    case Remove(rk) =>
      [Removed(p, rk == RemoveFolder || rk == RemoveAny || IsDirFollowing(fs, p))]
    case Access => []
    case _ =>
      if PathEntryFor(fs, p).Some? then [Modified(PathEntryFor(fs, p).value)] else []
  }

  /** Concatenating one-or-no-event units, one per path, each about its path, gives at
      most one event per path, each about one of the paths. */
  lemma {:induction false} UnitsBound(units: seq<seq<WatchEvent>>, paths: seq<Path>)
    requires |units| == |paths|
    requires forall k :: 0 <= k < |units| ==> |units[k]| <= 1
    requires forall k :: 0 <= k < |units| && |units[k]| == 1 ==> units[k][0].PathOf() == paths[k]
    ensures |Flatten(units)| <= |paths|
    ensures forall e :: e in Flatten(units) ==> e.PathOf() in paths
    decreases |units|
  {
    if units != [] {
      UnitsBound(units[1..], paths[1..]);
      assert Flatten(units) == units[0] + Flatten(units[1..]);
      forall e | e in Flatten(units)
        ensures e.PathOf() in paths
      {
        if e !in units[0] {
          assert e.PathOf() in paths[1..];
        }
      }
    }
  }

  /** `convert_standard_event`, as the concatenation of the paths' events: at most one
      event per path, each about one of the raw event's paths. */
  function StandardEvents(fs: Fs, kind: EventKind, paths: seq<Path>): (r: seq<WatchEvent>)
    ensures |r| <= |paths|
    ensures forall e :: e in r ==> e.PathOf() in paths
  {
    var units := seq(|paths|, k requires 0 <= k < |paths| => StandardOne(fs, kind, paths[k]));
    UnitsBound(units, paths);
    Flatten(units)
  }

  lemma FlattenSnoc<T>(xss: seq<seq<T>>, ys: seq<T>)
    ensures Flatten(xss + [ys]) == Flatten(xss) + ys
  {
    FlattenAppend(xss, [ys]);
    assert Flatten([ys]) == ys + Flatten([ys][1..]);
  }

  /** `convert_standard_event`: a loop over the paths pushing each one's event. */
  method ConvertStandard(fs: Fs, kind: EventKind, paths: seq<Path>) returns (out: seq<WatchEvent>)
    ensures out == StandardEvents(fs, kind, paths)
  {
    ghost var units := seq(|paths|, k requires 0 <= k < |paths| => StandardOne(fs, kind, paths[k]));
    out := [];
    for i := 0 to |paths|
      invariant out == Flatten(units[..i])
    {
      var p := paths[i];
      match kind {
        case Create =>
          var entry := PathEntryFor(fs, p);
          if entry.Some? {
            out := out + [Created(entry.value)];
          }
        case Remove(rk) =>
          var wasDir := rk == RemoveFolder || rk == RemoveAny || IsDirFollowing(fs, p);
          out := out + [Removed(p, wasDir)];
        case Access =>
        case _ =>
          var entry := PathEntryFor(fs, p);
          if entry.Some? {
            out := out + [Modified(entry.value)];
          }
      }
      assert units[..i + 1] == units[..i] + [units[i]];
      FlattenSnoc(units[..i], units[i]);
    }
    assert units[..|paths|] == units;
  }

  /** Concatenating one-event units gives their events, one per unit, in order. */
  lemma {:induction false} FlattenSingletons(units: seq<seq<WatchEvent>>)
    requires forall k :: 0 <= k < |units| ==> |units[k]| == 1
    ensures |Flatten(units)| == |units|
    ensures forall k :: 0 <= k < |units| ==> Flatten(units)[k] == units[k][0]
    decreases |units|
  {
    if units != [] {
      FlattenSingletons(units[1..]);
      assert Flatten(units) == units[0] + Flatten(units[1..]);
    }
  }

  /** A removal yields one `Removed` per path, in order, a directory when the removal kind
      says so or the path is still a directory. */
  lemma RemoveEvents(fs: Fs, rk: RemoveKind, paths: seq<Path>)
    ensures |StandardEvents(fs, Remove(rk), paths)| == |paths|
    ensures forall k :: 0 <= k < |paths| ==>
      StandardEvents(fs, Remove(rk), paths)[k]
        == Removed(paths[k], rk == RemoveFolder || rk == RemoveAny || IsDirFollowing(fs, paths[k]))
  {
    var units := seq(|paths|, k requires 0 <= k < |paths| => StandardOne(fs, Remove(rk), paths[k]));
    assert StandardEvents(fs, Remove(rk), paths) == Flatten(units);
    FlattenSingletons(units);
  }

  /** `convert_as_modified`: a `Modified` for each path that still exists, which is what a
      plain modification of the same paths gives. */
  function AsModified(fs: Fs, paths: seq<Path>): (r: seq<WatchEvent>)
    ensures r == StandardEvents(fs, Modify(None), paths)
  {
    assert seq(|paths|, k requires 0 <= k < |paths| =>
      if PathEntryFor(fs, paths[k]).Some? then [Modified(PathEntryFor(fs, paths[k]).value)] else [])
      == seq(|paths|, k requires 0 <= k < |paths| => StandardOne(fs, Modify(None), paths[k]));
    Flatten(seq(|paths|, k requires 0 <= k < |paths| =>
      if PathEntryFor(fs, paths[k]).Some? then [Modified(PathEntryFor(fs, paths[k]).value)] else []))
  }

  /** `convert_rename_event`: every event is about one of the paths, and there are never
      more events than paths. */
  function ConvertRename(fs: Fs, mode: RenameMode, paths: seq<Path>): (r: seq<WatchEvent>)
    ensures |r| <= |paths|
    ensures forall w :: w in r ==> w.PathOf() in paths
  {
    match mode
    case RenameBoth =>
      if |paths| >= 2 then [Renamed(paths[0], paths[1], PathEntryFor(fs, paths[1]))] else AsModified(fs, paths)
    case RenameAny =>
      if |paths| >= 2 then [Renamed(paths[0], paths[1], PathEntryFor(fs, paths[1]))] else AsModified(fs, paths)
    case RenameTo =>
      var units := seq(|paths|, k requires 0 <= k < |paths| =>
        if PathEntryFor(fs, paths[k]).Some? then [Created(PathEntryFor(fs, paths[k]).value)] else []);
      UnitsBound(units, paths);
      Flatten(units)
    case RenameFrom =>
      var removed := seq(|paths|, k requires 0 <= k < |paths| =>
        Removed(paths[k], PathEntryFor(fs, paths[k]).Some? && PathEntryFor(fs, paths[k]).value.IsDir()));
      assert forall k :: 0 <= k < |paths| ==> removed[k].PathOf() == paths[k];
      removed
    case RenameOther => AsModified(fs, paths)
  }

  /** A two-path rename gives one `Renamed` event whose `path()` is the destination and
      whose `from_path()` is the source. */
  lemma RenameBothEvent(fs: Fs, mode: RenameMode, from: Path, to: Path, more: seq<Path>)
    requires mode == RenameBoth || mode == RenameAny
    ensures |ConvertRename(fs, mode, [from, to] + more)| == 1
    ensures ConvertRename(fs, mode, [from, to] + more)[0].Renamed?
    ensures ConvertRename(fs, mode, [from, to] + more)[0].PathOf() == to
    ensures ConvertRename(fs, mode, [from, to] + more)[0].FromPath() == Some(from)
  {
  }

  /** A rename with fewer than two paths is reported as modifications of the paths that
      exist, exactly as a plain modification of them would be. */
  lemma RenameFewPaths(fs: Fs, mode: RenameMode, paths: seq<Path>)
    requires mode == RenameBoth || mode == RenameAny || mode == RenameOther
    requires mode != RenameOther ==> |paths| < 2
    ensures ConvertRename(fs, mode, paths) == StandardEvents(fs, Modify(None), paths)
  {
  }

  /** The source of a rename is `Removed` with the directory flag read without following
      links, where a plain removal follows them: a link to a directory renamed away is not
      a directory, removed it is. */
  lemma RenameFromVersusRemove(fs: Fs, p: Path)
    requires fs.lstat(p).Done? && fs.lstat(p).value.kind == Link
    requires fs.stat(p).Done? && fs.stat(p).value.kind == Dir
    ensures ConvertRename(fs, RenameFrom, [p]) == [Removed(p, false)]
    ensures StandardEvents(fs, Remove(RemoveFile), [p]) == [Removed(p, true)]
  {
    var units := seq(1, k requires 0 <= k < 1 => StandardOne(fs, Remove(RemoveFile), [p][k]));
    assert units == [[Removed(p, true)]];
    assert Flatten(units) == [Removed(p, true)] + Flatten(units[1..]);
  }

  /** `convert_event`: renames by their mode, everything else per path. Every converted
      event is about one of the raw event's paths, and there are never more events than
      paths. */
  function ConvertEvent(fs: Fs, ev: RawEvent): (r: seq<WatchEvent>)
    ensures |r| <= |ev.paths|
    ensures forall w :: w in r ==> w.PathOf() in ev.paths
  {
    match ev.kind
    case Modify(Some(mode)) => ConvertRename(fs, mode, ev.paths)
    case _ => StandardEvents(fs, ev.kind, ev.paths)
  }

  method ConvertEventLoop(fs: Fs, ev: RawEvent) returns (out: seq<WatchEvent>)
    ensures out == ConvertEvent(fs, ev)
  {
    if ev.kind.Modify? && ev.kind.rename.Some? {
      out := ConvertRename(fs, ev.kind.rename.value, ev.paths);
    } else {
      out := ConvertStandard(fs, ev.kind, ev.paths);
    }
  }

  // ---------------------------------------------------------------------------------------
  // The watcher's iterator

  /** What the watcher's channel delivers: a raw event or a backend error (already turned
      into the crate's error). The channel's end is the end of the sequence. */
  datatype Message = Delivered(event: RawEvent) | BackendError(error: Error)

  function OkEvents(events: seq<WatchEvent>): (r: seq<Result<WatchEvent>>)
    ensures |r| == |events| && forall k :: 0 <= k < |r| ==> r[k] == Ok(events[k])
  {
    seq(|events|, k requires 0 <= k < |events| => Ok(events[k]))
  }

  /** The items a watcher yields for the messages: each raw event's conversion, in order,
      and one `Err` per backend error. */
  function Expanded(fs: Fs, msgs: seq<Message>): seq<Result<WatchEvent>>
    decreases |msgs|
  {
    if msgs == [] then [] else MessageItems(fs, msgs[0]) + Expanded(fs, msgs[1..])
  }

  /** The items one message gives. */
  function MessageItems(fs: Fs, msg: Message): seq<Result<WatchEvent>>
  {
    match msg
    case Delivered(ev) => OkEvents(ConvertEvent(fs, ev))
    case BackendError(e) => [Err(e)]
  }

  /** `WatcherIter`: converted events queue in `pending` and leave it first in, first
      out. */
  class WatcherIter {
    const fs: Fs
    var rx: seq<Message>
    var pending: seq<Result<WatchEvent>>

    function Remaining(): seq<Result<WatchEvent>>
      reads this
    {
      pending + Expanded(fs, rx)
    }

    constructor (fs: Fs, msgs: seq<Message>)
      ensures Remaining() == Expanded(fs, msgs)
    {
      this.fs := fs;
      rx := msgs;
      pending := [];
    }

    /** One message off the channel: a backend error is handed back; a raw event's
        conversion is queued, nothing when it converts to nothing. */
    method Receive() returns (err: Option<Error>)
      requires pending == [] && rx != []
      modifies this
      ensures |rx| == |old(rx)| - 1
      ensures err.Some? ==> old(Remaining()) == [Err(err.value)] + Remaining()
      ensures err.None? ==> old(Remaining()) == Remaining()
    {
      var msg := rx[0];
      ghost var rest := Expanded(fs, rx[1..]);
      assert old(Remaining()) == MessageItems(fs, msg) + rest;
      rx := rx[1..];
      match msg {
        case BackendError(e) =>
          err := Some(e);
          assert Remaining() == rest;
        case Delivered(ev) =>
          err := None;
          var converted := ConvertEventLoop(fs, ev);
          if converted != [] {
            pending := OkEvents(converted);
          } else {
            assert |OkEvents(converted)| == 0;
          }
          assert Remaining() == MessageItems(fs, msg) + rest;
      }
    }

    /** The oldest queued event leaves the queue. */
    method PopPending() returns (item: Result<WatchEvent>)
      requires pending != []
      modifies this
      ensures rx == old(rx)
      ensures old(Remaining()) == [item] + Remaining()
    {
      item := pending[0];
      pending := pending[1..];
      assert old(pending) == [item] + pending;
    }

    /** `next`: the oldest pending event; else the next message: a backend error is
        returned, a raw event's conversion queued (and skipped when empty); the channel's
        end ends the stream. */
    method Next() returns (r: Option<Result<WatchEvent>>)
      modifies this
      ensures r.None? ==> old(Remaining()) == [] && Remaining() == []
      ensures r.Some? ==> old(Remaining()) == [r.value] + Remaining()
    {
      while true
        invariant Remaining() == old(Remaining())
        decreases |rx|, |pending|
      {
        if pending != [] {
          var item := PopPending();
          r := Some(item);
          break;
        }
        if rx == [] {
          r := None;
          break;
        }
        var err := Receive();
        if err.Some? {
          r := Some(Err(err.value));
          break;
        }
      }
    }
  }

  /** The watcher drained: every message's items, in order. */
  method CollectWatcher(fs: Fs, msgs: seq<Message>) returns (out: seq<Result<WatchEvent>>)
    ensures out == Expanded(fs, msgs)
  {
    var it := new WatcherIter(fs, msgs);
    out := [];
    while true
      invariant out + it.Remaining() == Expanded(fs, msgs)
      decreases |it.Remaining()|
    {
      var r := it.Next();
      if r.None? {
        assert out + [] == out;
        return;
      }
      DrainStep(out, r.value, it.Remaining(), Expanded(fs, msgs));
      out := out + [r.value];
    }
  }

  // ---------------------------------------------------------------------------------------
  // debounce_watch

  /** The last emitted event's path and time. */
  datatype Emitted = Emitted(path: Path, time: int)

  /** The time debouncing gives an event: the entry's modification time when there is one,
      else the clock's reading `now`. */
  function Stamp(e: WatchEvent, now: int): (r: int)
    ensures e.Removed? ==> r == now
    ensures (e.Created? || e.Modified?) && e.entry.Modified().Some? ==> r == e.entry.Modified().value
    ensures (e.Created? || e.Modified?) && e.entry.Modified().None? ==> r == now
    ensures e.Renamed? ==> r == now || (e.target.Some? && e.target.value.Modified() == Some(r))
  {
    match e
    case Created(entry) => if entry.Modified().Some? then entry.Modified().value else now
    case Modified(entry) => if entry.Modified().Some? then entry.Modified().value else now
    case Removed(_, _) => now
    case Renamed(_, _, target) =>
      if target.Some? && target.value.Modified().Some? then target.value.Modified().value else now
  }

  /** `duration_since(...).unwrap_or_default()`: the time from `last` to `t`, and zero when
      `t` is earlier. */
  function Elapsed(last: int, t: int): (d: nat)
    ensures t >= last ==> d == t - last
    ensures t < last ==> d == 0
  {
    if t >= last then t - last else 0
  }

  /** An event at `p` and time `t` passes after `last` when nothing was emitted yet, the
      path differs, or at least `window` has passed. */
  predicate ShouldEmit(last: Option<Emitted>, p: Path, t: int, window: nat): (r: bool)
    ensures last.None? || last.value.path != p ==> r
    ensures last.Some? && last.value.path == p && window > 0 ==> (r <==> t - last.value.time >= window)
    ensures window == 0 ==> r
  {
    last.None? || last.value.path != p || Elapsed(last.value.time, t) >= window
  }

  /** The debounced stream, from state `last`, each item read with its clock reading: never
      longer than the input, and an error, or any item when nothing was emitted yet, comes
      out first when it comes first. */
  function Debounced(items: seq<Result<WatchEvent>>, clock: seq<int>, last: Option<Emitted>, window: nat): (r: seq<Result<WatchEvent>>)
    requires |clock| == |items|
    ensures |r| <= |items|
    ensures items != [] && (last.None? || items[0].Err?) ==> r != [] && r[0] == items[0]
    decreases |items|
  {
    if items == [] then []
    else if items[0].Err? then [items[0]] + Debounced(items[1..], clock[1..], last, window)
    else
      var e := items[0].value;
      var t := Stamp(e, clock[0]);
      if ShouldEmit(last, e.PathOf(), t, window) then
        [items[0]] + Debounced(items[1..], clock[1..], Some(Emitted(e.PathOf(), t)), window)
      else
        Debounced(items[1..], clock[1..], last, window)
  }

  /** The state `debounce_watch`'s closure keeps between items. */
  class Debouncer {
    const window: nat
    var last: Option<Emitted>

    constructor (window: nat)
      ensures this.window == window && last == None
    {
      this.window := window;
      last := None;
    }

    /** The closure on one item, with the clock reading `now`: errors pass unchanged; an
        event is emitted, and remembered, exactly when it should be. */
    method Offer(item: Result<WatchEvent>, now: int) returns (out: Option<Result<WatchEvent>>)
      modifies this
      ensures item.Err? ==> out == Some(item) && last == old(last)
      ensures item.Ok? && ShouldEmit(old(last), item.value.PathOf(), Stamp(item.value, now), window) ==>
        out == Some(item) && last == Some(Emitted(item.value.PathOf(), Stamp(item.value, now)))
      ensures item.Ok? && !ShouldEmit(old(last), item.value.PathOf(), Stamp(item.value, now), window) ==>
        out == None && last == old(last)
    {
      match item {
        case Err(_) =>
          return Some(item);
        case Ok(event) =>
          var path, timestamp;
          match event {
            case Created(entry) =>
              path := entry.path;
              timestamp := if entry.Modified().Some? then entry.Modified().value else now;
            case Modified(entry) =>
              path := entry.path;
              timestamp := if entry.Modified().Some? then entry.Modified().value else now;
            case Removed(p, _) =>
              path, timestamp := p, now;
            case Renamed(_, to, target) =>
              path := if target.Some? then target.value.path else to;
              timestamp := if target.Some? && target.value.Modified().Some? then target.value.Modified().value else now;
          }
          var shouldEmit := match last
            case Some(Emitted(lastPath, lastTime)) =>
              lastPath != path || Elapsed(lastTime, timestamp) >= window
            case None => true;
          if shouldEmit {
            last := Some(Emitted(path, timestamp));
            return Some(item);
          }
          return None;
      }
    }
  }

  /** `debounce_watch(events, window)` drained, the clock read once per item. */
  method DebounceWatch(items: seq<Result<WatchEvent>>, clock: seq<int>, window: nat) returns (out: seq<Result<WatchEvent>>)
    requires |clock| == |items|
    ensures out == Debounced(items, clock, None, window)
  {
    var d := new Debouncer(window);
    out := [];
    for i := 0 to |items|
      invariant out + Debounced(items[i..], clock[i..], d.last, window) == Debounced(items, clock, None, window)
    {
      ghost var before := Debounced(items[i..], clock[i..], d.last, window);
      DebouncedStep(items, clock, i, d.last, window);
      var r := d.Offer(items[i], clock[i]);
      ghost var after := Debounced(items[i + 1..], clock[i + 1..], d.last, window);
      if r.Some? {
        assert before == [r.value] + after;
        DrainStep(out, r.value, after, Debounced(items, clock, None, window));
        out := out + [r.value];
      } else {
        assert before == after;
      }
    }
  }

  /** One item of the debounced stream from position `i`: an error passes, an event passes
      and becomes the last emitted when it should be emitted, and is dropped otherwise. */
  lemma DebouncedStep(items: seq<Result<WatchEvent>>, clock: seq<int>, i: nat, last: Option<Emitted>, window: nat)
    requires |clock| == |items| && i < |items|
    ensures items[i].Err? ==>
      Debounced(items[i..], clock[i..], last, window) == [items[i]] + Debounced(items[i + 1..], clock[i + 1..], last, window)
    ensures items[i].Ok? && ShouldEmit(last, items[i].value.PathOf(), Stamp(items[i].value, clock[i]), window) ==>
      Debounced(items[i..], clock[i..], last, window)
        == [items[i]] + Debounced(items[i + 1..], clock[i + 1..],
                                  Some(Emitted(items[i].value.PathOf(), Stamp(items[i].value, clock[i]))), window)
    ensures items[i].Ok? && !ShouldEmit(last, items[i].value.PathOf(), Stamp(items[i].value, clock[i]), window) ==>
      Debounced(items[i..], clock[i..], last, window) == Debounced(items[i + 1..], clock[i + 1..], last, window)
  {
    assert items[i..][1..] == items[i + 1..] && clock[i..][1..] == clock[i + 1..];
  }

  /** The debounced stream keeps items of the input, in order, and every error unchanged. */
  lemma {:induction false} DebouncedSubsequence(items: seq<Result<WatchEvent>>, clock: seq<int>, last: Option<Emitted>, window: nat)
    requires |clock| == |items|
    ensures Subsequence(Debounced(items, clock, last, window), items)
    ensures FilterOk(Debounced(items, clock, last, window), _ => false) == FilterOk(items, _ => false)
    decreases |items|
  {
    if items != [] {
      var x := items[0];
      if x.Err? {
        DebouncedSubsequence(items[1..], clock[1..], last, window);
        var rest := Debounced(items[1..], clock[1..], last, window);
        assert ([x] + rest)[1..] == rest;
      } else {
        var e := x.value;
        var t := Stamp(e, clock[0]);
        if ShouldEmit(last, e.PathOf(), t, window) {
          var next := Some(Emitted(e.PathOf(), t));
          DebouncedSubsequence(items[1..], clock[1..], next, window);
          var rest := Debounced(items[1..], clock[1..], next, window);
          assert ([x] + rest)[1..] == rest;
        } else {
          DebouncedSubsequence(items[1..], clock[1..], last, window);
        }
      }
    }
  }

  /** The first event is always emitted, whatever errors come before it. */
  lemma {:induction false} DebouncedFirstEvent(items: seq<Result<WatchEvent>>, clock: seq<int>, window: nat, k: nat)
    requires |clock| == |items| && k < |items| && items[k].Ok?
    requires forall j :: 0 <= j < k ==> items[j].Err?
    ensures Debounced(items, clock, None, window) == items[..k + 1] + Debounced(items[k + 1..], clock[k + 1..],
      Some(Emitted(items[k].value.PathOf(), Stamp(items[k].value, clock[k]))), window)
    decreases k
  {
    if k > 0 {
      DebouncedFirstEvent(items[1..], clock[1..], window, k - 1);
      assert items[1..][..k] == items[1..k + 1] && items[..k + 1] == [items[0]] + items[1..k + 1];
      assert items[1..][k..] == items[k + 1..] && clock[1..][k..] == clock[k + 1..];
    }
  }

  /** The same event three times within the window comes out once. */
  lemma DebounceRepeats(e: WatchEvent, t0: int, t1: int, t2: int, window: nat)
    requires e.Created? && e.entry.Modified().Some? && window > 0
    ensures Debounced([Ok(e), Ok(e), Ok(e)], [t0, t1, t2], None, window) == [Ok(e)]
  {
    var s := [Ok(e), Ok(e), Ok(e)];
    var c := [t0, t1, t2];
    var last := Some(Emitted(e.PathOf(), Stamp(e, t0)));
    assert s[1..] == [Ok(e), Ok(e)] && c[1..] == [t1, t2];
    assert s[1..][1..] == [Ok(e)] && c[1..][1..] == [t2];
    assert Debounced([Ok(e)], [t2], last, window) == [];
  }
}
