/** The producer thread behind `stream_lines` and `stream_stderr`, for a single command
    (src/command/builder.rs) and for the last stage of a pipeline
    (src/command/pipeline.rs). It reads one pipe line by line, sends each trimmed line to
    the receiving side, and after end of input sends at most one trailing error. Reads,
    the receiver's hang-up and the child's exit are given as data. */
module Stream {
  import opened Errors
  import opened Text

  /** One `read_line` call on the streamed pipe: a line (with its terminator, if any) or a
      read error. End of input is the end of the sequence of events. */
  datatype ReadEvent = Line(raw: string) | ReadFailed(err: IoError)

  /** The receiving side: it accepts `capacity` items and then hangs up, or it never hangs
      up. A send to a receiver that hung up fails. */
  datatype Consumer = Consumer(capacity: Option<nat>)

  predicate Accepts(consumer: Consumer, sent: nat)
  {
    consumer.capacity.None? || sent < consumer.capacity.value
  }

  /** Which copy of the producer runs: the single-command one always tears the child down
      after a read error; the pipeline one does so only when the error could not be sent. */
  datatype Flavor = SingleCommand | PipelineFinal

  /** How the producer ended:
      - `Killed`: the child was killed and waited, the stdin feeder and the thread draining
        the other stream were joined (and, for a pipeline, the upstream stages waited);
      - `Abandoned`: it returned without waiting for anything;
      - `Waited`: end of input; everything was waited for and the trailing error resolved. */
  datatype Finish = Killed | Abandoned | Waited

  /** Everything the receiving side gets, and how the producer ended. */
  datatype Production = Production(delivered: seq<Result<string>>, finish: Finish)

  /** The producer, reading `events` after `sent` items were already sent: at most one item
      per read and one trailing error; only the pipeline's copy returns without waiting,
      and only after sending a read error as its last item. */
  function Produce(events: seq<ReadEvent>, consumer: Consumer, sent: nat,
                   trailing: Option<Error>, flavor: Flavor): (r: Production)
    ensures |r.delivered| <= |events| + 1
    ensures r.finish == Abandoned ==>
      flavor == PipelineFinal && r.delivered != [] && r.delivered[|r.delivered| - 1].Err?
    decreases |events|
  {
    if events == [] then
      Production(if trailing.Some? && Accepts(consumer, sent) then [Err(trailing.value)] else [],
                 Waited)
    else match events[0]
      case Line(raw) =>
        if Accepts(consumer, sent) then
          var rest := Produce(events[1..], consumer, sent + 1, trailing, flavor);
          Production([Ok(TrimLineEnd(raw))] + rest.delivered, rest.finish)
        else
          Production([], Killed)
      case ReadFailed(e) =>
        var delivered := Accepts(consumer, sent);
        Production(if delivered then [Err(Io(e))] else [],
                   if flavor == SingleCommand || !delivered then Killed else Abandoned)
  }

  /** The production when `done` was sent for the first `i` events and the producer goes
      on from event `i`. */
  function Resume(done: seq<Result<string>>, events: seq<ReadEvent>, i: nat, consumer: Consumer,
                  trailing: Option<Error>, flavor: Flavor): Production
    requires i <= |events|
  {
    var rest := Produce(events[i..], consumer, i, trailing, flavor);
    Production(done + rest.delivered, rest.finish)
  }

  lemma ResumeLine(done: seq<Result<string>>, events: seq<ReadEvent>, i: nat, consumer: Consumer,
                   trailing: Option<Error>, flavor: Flavor)
    requires i < |events| && events[i].Line? && Accepts(consumer, i)
    ensures Resume(done, events, i, consumer, trailing, flavor)
         == Resume(done + [Ok(TrimLineEnd(events[i].raw))], events, i + 1, consumer, trailing, flavor)
  {
    assert events[i..][1..] == events[i + 1..];
  }

  lemma ResumeHungUp(done: seq<Result<string>>, events: seq<ReadEvent>, i: nat, consumer: Consumer,
                     trailing: Option<Error>, flavor: Flavor)
    requires i < |events| && events[i].Line? && !Accepts(consumer, i)
    ensures Resume(done, events, i, consumer, trailing, flavor) == Production(done, Killed)
  {
    assert done + [] == done;
  }

  lemma ResumeFailed(done: seq<Result<string>>, events: seq<ReadEvent>, i: nat, consumer: Consumer,
                     trailing: Option<Error>, flavor: Flavor)
    requires i < |events| && events[i].ReadFailed?
    ensures Resume(done, events, i, consumer, trailing, flavor)
         == Production(if Accepts(consumer, i) then done + [Err(Io(events[i].err))] else done,
                       if flavor == SingleCommand || !Accepts(consumer, i) then Killed else Abandoned)
  {
    assert done + [] == done;
  }

  lemma ResumeEnd(done: seq<Result<string>>, events: seq<ReadEvent>, consumer: Consumer,
                  trailing: Option<Error>, flavor: Flavor)
    ensures Resume(done, events, |events|, consumer, trailing, flavor)
         == Production(if trailing.Some? && Accepts(consumer, |events|) then done + [Err(trailing.value)]
                       else done, Waited)
  {
    assert events[|events|..] == [];
    assert done + [] == done;
  }

  /** The producer loop: read a line; at end of input send the trailing error, if any; on a
      line send it trimmed and, if the receiver hung up, tear down and stop; on a read error
      send it and stop, tearing down as the flavour says. */
  method ProduceLines(events: seq<ReadEvent>, consumer: Consumer, trailing: Option<Error>,
                      flavor: Flavor)
    returns (delivered: seq<Result<string>>, finish: Finish)
    ensures Production(delivered, finish) == Produce(events, consumer, 0, trailing, flavor)
  {
    delivered := [];
    assert events[0..] == events;
    var i := 0;
    while i < |events|
      invariant 0 <= i <= |events|
      invariant Produce(events, consumer, 0, trailing, flavor)
                == Resume(delivered, events, i, consumer, trailing, flavor)
    {
      match events[i] {
        case Line(raw) =>
          if !Accepts(consumer, i) {
            ResumeHungUp(delivered, events, i, consumer, trailing, flavor);
            return delivered, Killed;
          }
          ResumeLine(delivered, events, i, consumer, trailing, flavor);
          delivered := delivered + [Ok(TrimLineEnd(raw))];
        case ReadFailed(e) =>
          ResumeFailed(delivered, events, i, consumer, trailing, flavor);
          var sentOk := Accepts(consumer, i);
          if sentOk {
            delivered := delivered + [Err(Io(e))];
          }
          finish := if flavor == SingleCommand || !sentOk then Killed else Abandoned;
          return;
      }
      i := i + 1;
    }
    ResumeEnd(delivered, events, consumer, trailing, flavor);
    if trailing.Some? && Accepts(consumer, i) {
      delivered := delivered + [Err(trailing.value)];
    }
    finish := Waited;
  }


  /** The lines a receiver would get from events that are all lines. */
  function Trimmed(events: seq<ReadEvent>): (r: seq<Result<string>>)
    requires forall k :: 0 <= k < |events| ==> events[k].Line?
    ensures |r| == |events|
  {
    if events == [] then [] else [Ok(TrimLineEnd(events[0].raw))] + Trimmed(events[1..])
  }

  /** Lines are delivered in read order, trimmed: every `Ok` item at position k is the k-th
      read, which was a line. */
  lemma {:induction false} DeliveredInOrder(events: seq<ReadEvent>, consumer: Consumer, sent: nat,
                                            trailing: Option<Error>, flavor: Flavor, k: nat)
    requires k < |Produce(events, consumer, sent, trailing, flavor).delivered|
    requires Produce(events, consumer, sent, trailing, flavor).delivered[k].Ok?
    ensures k < |events| && events[k].Line?
    ensures Produce(events, consumer, sent, trailing, flavor).delivered[k]
            == Ok(TrimLineEnd(events[k].raw))
  {
    if events != [] && events[0].Line? && Accepts(consumer, sent) && k > 0 {
      DeliveredInOrder(events[1..], consumer, sent + 1, trailing, flavor, k - 1);
    }
  }

  /** At most one error is sent, and it is the last item. */
  lemma {:induction false} ErrorIsLast(events: seq<ReadEvent>, consumer: Consumer, sent: nat,
                                       trailing: Option<Error>, flavor: Flavor, k: nat)
    requires k < |Produce(events, consumer, sent, trailing, flavor).delivered|
    requires Produce(events, consumer, sent, trailing, flavor).delivered[k].Err?
    ensures k == |Produce(events, consumer, sent, trailing, flavor).delivered| - 1
  {
    if events != [] && events[0].Line? && Accepts(consumer, sent) {
      ErrorIsLast(events[1..], consumer, sent + 1, trailing, flavor, k - 1);
    }
  }

  /** Nothing is sent after the receiver hangs up: a receiver taking m items gets at most m,
      and a producer that found the receiver gone has sent exactly m and torn everything
      down. */
  lemma {:induction false} HangUpStops(events: seq<ReadEvent>, consumer: Consumer, sent: nat,
                                       trailing: Option<Error>, flavor: Flavor)
    requires consumer.capacity.Some? && sent <= consumer.capacity.value
    ensures sent + |Produce(events, consumer, sent, trailing, flavor).delivered|
            <= consumer.capacity.value
    ensures (forall k :: 0 <= k < |events| ==> events[k].Line?) && sent + |events| > consumer.capacity.value
            ==> Produce(events, consumer, sent, trailing, flavor).finish == Killed
                && sent + |Produce(events, consumer, sent, trailing, flavor).delivered|
                   == consumer.capacity.value
    decreases |events|
  {
    if events != [] && events[0].Line? && Accepts(consumer, sent) {
      HangUpStops(events[1..], consumer, sent + 1, trailing, flavor);
    }
  }

  /** A receiver that never hangs up gets every line, trimmed and in order, then the
      trailing error if there is one; the producer waits for everything. */
  lemma {:induction false} AllLinesThenTrailing(events: seq<ReadEvent>, consumer: Consumer, sent: nat,
                                                trailing: Option<Error>, flavor: Flavor)
    requires consumer.capacity.None?
    requires forall k :: 0 <= k < |events| ==> events[k].Line?
    ensures Produce(events, consumer, sent, trailing, flavor)
            == Production(Trimmed(events) + (if trailing.Some? then [Err(trailing.value)] else []),
                          Waited)
  {
    if events != [] {
      AllLinesThenTrailing(events[1..], consumer, sent + 1, trailing, flavor);
    }
  }

  /** A read error after some lines: the receiver gets those lines and one I/O error, and
      nothing after it. The single-command producer then tears the child down; the pipeline
      producer returns without waiting for anything. */
  lemma {:induction false} ReadErrorEnds(events: seq<ReadEvent>, consumer: Consumer, sent: nat,
                                         trailing: Option<Error>, flavor: Flavor, p: nat)
    requires consumer.capacity.None?
    requires p < |events| && events[p].ReadFailed?
    requires forall k :: 0 <= k < p ==> events[k].Line?
    ensures Produce(events, consumer, sent, trailing, flavor)
            == Production(Trimmed(events[..p]) + [Err(Io(events[p].err))],
                          if flavor == SingleCommand then Killed else Abandoned)
  {
    if p > 0 {
      assert events[1..][..p - 1] == events[..p][1..];
      ReadErrorEnds(events[1..], consumer, sent + 1, trailing, flavor, p - 1);
    }
  }

  /** The text of the drained companion stream: `read_to_string` into an empty buffer
      leaves it empty when the bytes are not valid UTF-8, and a panicked drain thread gives
      the empty default too. */
  function CompanionText(bytes: seq<bv8>, codec: Codec): (r: string)
    ensures codec.strict(bytes).Some? ==> r == codec.strict(bytes).value
    ensures codec.strict(bytes).None? ==> r == []
  {
    match codec.strict(bytes)
    case Some(text) => text
    case None => []
  }
}
