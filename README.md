# qshr core in Dafny

qshr is a Rust toolkit for writing shell-style scripts: a command builder and process
pipelines that run, capture or stream their output line by line; `$VAR` / `${VAR}` / `$$`
command templates; `Shell`, a lazy stream of values with chunking, windows, interleaving,
products, distinct items, chunk maps, joins and folds; and filesystem helpers that walk
directory trees, filter entries, watch for changes, concatenate files and write lines.

This project models the logic of that core and proves what it promises. The operating
system is replaced by given data:

- a child process is a script of outcomes (spawn error, write outcome, feeder thread
  result, exit status or wait failure, captured bytes);
- a streamed pipe is the sequence of its line reads, and the receiving side of the channel
  is the number of items it accepts before hanging up;
- the filesystem is an oracle of `symlink_metadata`, `metadata`, `read_dir` and file
  reads (`Entries.Fs`), and each write, removal or exclusive creation is a given outcome;
- the clock is an integer reading per use, and UTF-8 decoding is a given codec.

The modules follow the source:

- `Errors` (src/error.rs types), `Process` (the spawn boundary), `Stdin`
  (src/command/stdin.rs), `Text` (line splitting and trimming), `Stream` (the line
  producer shared by src/command/builder.rs and src/command/pipeline.rs), `Builder`
  (src/command/builder.rs), `Pipeline` (src/command/pipeline.rs);
- `Macros` (src/macros.rs);
- `Iters` (src/shell/iters.rs), `Shell` (src/shell/base.rs and its older copy
  src/shell.rs);
- `Entries` (src/fs/entries.rs and the filesystem oracle), `Filter` (src/fs/filter.rs),
  `Walk` (src/fs/walk.rs), `Watch` (src/fs/watch.rs), `FsIo` (src/fs/io.rs).

Where the source keeps state, the model is a class: the reader slot of a stdin source, every
iterator adapter, the walks, the watcher's queue, the debouncer, `CatIter` and
`DoubleEndedShell`. Each iterator class has a `Remaining()` function, the items it still
yields, and its `Next` is proved to yield exactly the first of them. The loops of the source
(waiting on upstream stages, the producer loop, template interpolation, the chunking loop of
`chunk_map_parallel`, `join`, `fold`, `write_lines`, `temp_file`, event conversion) are
methods proved against specification functions, and the properties the source promises are
lemmas about those functions.

The streaming producer of a pipeline returns without waiting for its child or upstream
stages after it has delivered a read error; the single-command producer tears the child
down in that case (src/command/pipeline.rs:208-213 against src/command/builder.rs:410-414).
The model keeps that difference as written (`Stream.Finish`: `Abandoned` against `Killed`).

## Model

Several functions below are reference definitions: `Shell.Joined`, `Shell.FoldLeft`, `Shell.Sort`, `Watch.Debounced`, `Stream.Produce`, `Pipeline.RunningResult`, `Macros.InterpolateFrom` and `Macros.Interpolate`, `FsIo.CatFrom`, `FsIo.WrittenFrom` and `FsIo.TempFileFrom` state what a loop, a stateful method or (for `Shell.Sort`) a standard-library call of the source computes. Where the model has a method for that loop, its contract proves it equal to the reference definition, and the definition's own contract and the lemmas beside it state what the source promises.

| member | source | states |
|---|---|---|
| Text.SplitNewlines | src/command/builder.rs:190-197 | splitting text into lines at '\n' gives lines without a '\n' in them |
| Text.SplitTerminated | src/fs/io.rs:35-45 | splitting text made of '\n'-terminated lines gives those lines back, when no line holds a '\n' |
| Text.TrimCr | src/command/builder.rs:194 | trimming trailing '\r's gives a prefix that does not end in '\r', and everything cut off was '\r' |
| Text.TrimLineEnd | src/command/builder.rs:237 | trimming trailing '\r' and '\n' gives a prefix ending in neither, and everything cut off was '\r' or '\n' |
| Text.CommandLines | src/command/builder.rs:190-197 | `lines()` gives one line per '\n'-separated part of the output, each with its trailing '\r's trimmed |
| Text.ReadLines | src/fs/io.rs:218 | `BufRead::lines` gives one line per '\n'-separated part; a part followed by '\n' loses one '\r' before it, an unterminated last part is kept as it stands |
| Text.ReadLinesUnterminated | src/fs/io.rs:218 | a text without '\n' is read back as one line, a trailing '\r' included |
| Text.ReadLinesTerminated | src/fs/tests.rs:6-14 | reading back lines written each with a "\n" gives the same lines, when no line holds a '\n' or ends in '\r' |
| Text.CommandLinesTerminated | src/command/builder.rs:190-197 | the same round trip through a command's `lines()` over its captured output |
| Process.Spawn | src/command/builder.rs:461-481 | spawning fails exactly when the script says so, with that I/O error; a spawned child has its configuration and script, nothing written yet, and holds a stdin, stdout or stderr pipe exactly when that stream is piped |
| Process.ChildEnvironment | src/command/builder.rs:483-492 | without `env_clear` every parent variable stays set; a variable not inherited from the parent (any variable at all after `env_clear`) was set by an override |
| Process.ApplyEnv | src/command/builder.rs:487 | applying the overrides keeps every base key, adds only overridden keys, and the last override holds for its key |
| Stdin.ReaderSlot.constructor | src/command/stdin.rs:19-24 | a new reader source's slot holds the whole reader |
| Stdin.NewReader | src/command/stdin.rs:19-24 | `StdinSource::reader` gives a reader source over a fresh, full slot |
| Stdin.TryClone | src/command/stdin.rs:26-31 | a clone exists exactly for a byte source, and it holds the same bytes; a reader source gives none |
| Stdin.FeedOutcome | src/command/stdin.rs:43-78 | a thread handle is returned exactly when a reader source is fed into a child with a stdin pipe and the reader was still in its slot, and it copies what the reader holds; the feed fails exactly when there is a source and the pipe is missing, a byte write fails or the reader was already taken; every failure is an I/O error |
| Stdin.AfterFeed | src/command/stdin.rs:47-60 | a feed changes only the child's stdin pipe and what was written to it; the pipe is gone afterwards exactly when there was a source (or no pipe to begin with); written bytes only grow |
| Stdin.FeedChildStdin | src/command/stdin.rs:43-78 | the feed's result and the child afterwards are those above, taken against the slot's content before the call; feeding a reader source into a child with a pipe empties the shared slot, and a child without a pipe leaves the slot untouched |
| Stdin.FeedReaderTwice | src/command/stdin.rs:56-74 | two feeds from one reader source: the first gets the reader's thread handle, the second fails with "stdin reader already consumed" |
| Stdin.WaitStdinWriter | src/command/stdin.rs:80-90 | success exactly when there is no handle or the thread returned success; otherwise an I/O error, the thread's own error passed through unchanged |
| Stream.Produce | src/command/builder.rs:396-439 | at most one item per read plus one trailing error; only the producer of a pipeline's final stage abandons the stream without waiting, and then the last item it sent is an error |
| Stream.ProduceLines | src/command/builder.rs:396-439 | the producer loop sends exactly what the producer specification `Produce` says and ends as it says: trimmed lines while the receiver accepts them, teardown on a hang-up, one I/O error and a stop on a read error, the trailing error at end of input |
| Stream.DeliveredInOrder | src/command/builder.rs:399-408 | every `Ok` item the receiver gets at position k is the k-th read, which was a line, with its trailing '\r'/'\n' trimmed |
| Stream.ErrorIsLast | src/command/builder.rs:410-413 | at most one error is sent and nothing is sent after it |
| Stream.HangUpStops | src/command/builder.rs:405-408 | a receiver that takes m items gets at most m; when the input has more lines than that, exactly m are sent and the child is killed and waited |
| Stream.AllLinesThenTrailing | src/command/builder.rs:396-439 | a receiver that never hangs up gets every line, trimmed and in order, then the trailing error if there is one, and the producer waits for everything |
| Stream.ReadErrorEnds | src/command/builder.rs:410-414 | a read error after some lines: those lines, then one I/O error, then nothing; the single-command producer then tears the child down, the pipeline one returns without waiting |
| Stream.CompanionText | src/command/builder.rs:390-395 | the drained other stream's text is the bytes decoded when they are valid UTF-8, and empty otherwise (read_to_string leaves its buffer empty) |
| Builder.BuildStdinExclusive | src/command/builder.rs:51-121 | every command built by `new` and any sequence of builder calls has exclusive stdin settings |
| Builder.New | src/command/builder.rs:51-62 | `new(program)` holds the program and nothing else: no arguments or overrides, environment not cleared, no directory, no stdin source, stdin not inherited |
| Builder.Apply | src/command/builder.rs:63-121 | one builder call keeps the program and appends only its own arguments (`arg`, `args`) and environment pair (`env`); a command that never has a stdin source while inheriting stdin keeps that property |
| Builder.Build | src/command/builder.rs:51-121 | a command built by `new(program)` and builder calls keeps the program, and its environment is cleared exactly when `env_clear` was called |
| Builder.BuildAccumulates | src/command/builder.rs:51-83 | after `new(program)` and any calls, the program is unchanged, the arguments are those added, in call order, and the overrides are the `env` pairs, in call order |
| Builder.BuildStdinSource | src/command/builder.rs:98-121 | the stdin source is decided by the last of `stdin` (bytes), `stdin_reader` (a reader) and `inherit_stdin(true)` (none); `inherit_stdin(false)` never touches it |
| Builder.BuildInherit | src/command/builder.rs:98-121 | stdin is inherited exactly when the last stdin-related call was `inherit_stdin(true)` |
| Builder.Clone | src/command/builder.rs:35-47 | a clone equals the command except for stdin: a byte source is kept, a reader source is dropped |
| Builder.CloneFields | src/command/builder.rs:35-47 | a clone keeps exclusive stdin settings, and cloning twice is cloning once |
| Builder.Configure | src/command/builder.rs:472-492 | the spawned command gets the program, arguments, overrides, `env_clear` flag and directory; stdin is piped exactly when there is a source and inherited exactly when there is none and `inherit_stdin` is set; stdout and stderr are as the caller asks |
| Builder.StdinChoice | src/command/builder.rs:472-481 | the spawned child's stdin is piped exactly when there is a source, inherited exactly when there is none and `inherit_stdin` is set, and left at the default otherwise |
| Builder.CloneOfReaderCommand | src/command/builder.rs:35-47 | a command with a reader source gets a stdin pipe, its clone does not: it inherits or gets the default as its flag says |
| Builder.SpawnedStdinMatchesSource | src/command/builder.rs:472-481 | the spawned child has a stdin pipe exactly when the command has a source, so a feed never fails for a missing pipe |
| Builder.EnvLastWins | src/command/builder.rs:483-492 | applying overrides in order: a key is set exactly when it was in the base or overridden, the last override wins, keys never overridden keep their base value |
| Builder.ChildEnvironmentOf | src/command/builder.rs:483-492 | the child's environment is the parent's (or empty with `clear_env`) with the overrides applied, the last value for a key winning |
| Builder.RunResult | src/command/builder.rs:146-176 | a spawn failure is the error; success needs a spawned child that exited successfully, and an unsuccessful status is always an error; with no stdin source a failed wait is the error |
| Builder.Run | src/command/builder.rs:146-176 | `run` fails on spawn or feed failure, then on a failed wait, then on the feeder's error, and only then on an unsuccessful status, which becomes a command error with "stderr inherited by parent" |
| Builder.RunErrorPrecedence | src/command/builder.rs:163-175 | once the child ran, `run` succeeds exactly when the feeder and the status both succeed; a feeder error wins over a failed status |
| Builder.SpawnAndWaitResult | src/command/builder.rs:461-470 | a spawn failure is the error; success carries the exit status and both captured streams; with no stdin source the result is the failed wait or the output, whatever the status |
| Builder.SpawnAndWait | src/command/builder.rs:461-470 | spawn with stdout and stderr piped, feed, wait and collect, then join the feeder; the first failure in that order is returned |
| Builder.CheckOutput | src/command/builder.rs:124-138 | the output check fails exactly when the status is unsuccessful, with a command error carrying the program and the lossily decoded stderr; otherwise the output comes back unchanged |
| Builder.OutputOf | src/command/builder.rs:124-138 | `output` succeeds exactly when `spawn_and_wait` succeeds with a successful status, passes on `spawn_and_wait`'s failure, and keeps the captured stdout and stderr |
| Builder.CommandOutput | src/command/builder.rs:124-138 | `output` is `OutputOf`: `spawn_and_wait`'s failure, or its output put through the status check |
| Builder.Status | src/command/builder.rs:141-143 | `status` is `spawn_and_wait`'s failure, or the exit status whatever it is |
| Builder.StdoutString | src/command/builder.rs:542-544 | decoding stdout succeeds exactly for valid UTF-8 and then gives the decoded text; otherwise a UTF-8 error carrying the bytes |
| Builder.StderrString | src/command/builder.rs:546-548 | the same for stderr |
| Builder.StdoutLines | src/command/builder.rs:190-197 | once `output` succeeded, `lines` succeeds exactly when stdout is valid UTF-8, and gives its lines with trailing '\r's trimmed |
| Builder.StdoutLinesRoundTrip | src/command/builder.rs:190-197 | once `output` succeeded, captured stdout of plain '\n'-terminated lines gives exactly those lines back |
| Builder.StdoutText | src/command/builder.rs:180-187 | `read` and `stdout_text` give `output`'s failure, or its stdout decoded strictly |
| Builder.LinesOf | src/command/builder.rs:190-197 | `lines` succeeds exactly when `output` succeeds and stdout is valid UTF-8; otherwise it gives `output`'s error, or the UTF-8 error with the stdout bytes |
| Builder.Lines | src/command/builder.rs:190-197 | `lines` runs `stdout_text` and splits its text, giving `LinesOf` |
| Builder.LinesOfFailedCommand | src/command/builder.rs:185-197 | a command that ran but exited unsuccessfully gets no lines: `lines` fails with `output`'s command error, carrying the program, the status and the lossily decoded stderr |
| Builder.LinesRoundTrip | src/command/builder.rs:190-197 | a command that succeeds printing plain '\n'-terminated lines gets exactly those lines back from `lines` |
| Builder.Sh | src/command/builder.rs:520-527 | `sh(script)` is program "sh" with arguments "-c" and the script, and otherwise a fresh command |
| Builder.SingleTrailing | src/command/builder.rs:418-439 | the trailing item is absent exactly when the wait succeeded with success and the feeder succeeded; a failed wait is an I/O error; an unsuccessful status is a command error carrying the drained other stream, even if the feeder failed too; otherwise the feeder's error |
| Builder.StreamLines | src/command/builder.rs:360-442 | `stream_lines` fails with the spawn or feed error, or delivers what the producer over stdout delivers, with stderr's drained text in the trailing command error |
| Builder.StreamStderr | src/command/builder.rs:200-276 | `stream_stderr` is the same over stderr, with stdout's drained text in the trailing command error |
| Builder.StreamLaunch | src/command/builder.rs:361-373 | a spawn failure is the error; with no stdin source the launch succeeds without a feeder thread; a feeder thread exists only for a reader source; after a spawn the launch fails only on a failing byte write or a reader already taken |
| Builder.StreamPipe | src/command/builder.rs:361-373 | launching with both pipes and feeding, then producing over the streamed pipe with the single-command trailing error |
| Pipeline.NewPipeline | src/command/pipeline.rs:44-48 | a new pipeline holds exactly the two commands, in order |
| Pipeline.PipeInto | src/command/pipeline.rs:51-54 | `pipe` keeps the stages and adds the command as the last one |
| Pipeline.PipeAll | src/command/pipeline.rs:44-54 | piping more commands into a pipeline appends them, in order, after its stages |
| Pipeline.BuiltPipelineHasTwoStages | src/command/pipeline.rs:44-54 | a pipeline built with `new` and any number of `pipe` calls holds the two first commands and then the piped ones, so at least two stages |
| Pipeline.StageConfig | src/command/pipeline.rs:390-414 | each stage keeps its program, arguments, environment and directory; every stage after the first reads the previous stage's stdout whatever its own stdin settings; the first stage's stdin is piped exactly when it has a source and inherited exactly when it has none and inherits; every stage but the last pipes stdout and inherits stderr; the last pipes stdout (stderr) exactly when it is captured |
| Pipeline.FirstSpawnFailure | src/command/pipeline.rs:416 | the stage found is the first, from the given one on, whose spawn fails; none is found exactly when every later spawn succeeds |
| Pipeline.LaunchError | src/command/pipeline.rs:375-449 | no stages is "empty pipeline"; a first stage that does not spawn gives that spawn error; a launch without error has stages, every spawn succeeded, and every pipe to be taken was captured |
| Pipeline.StageChild | src/command/pipeline.rs:391-421 | each stage's child runs its own script with its stage configuration; a stage before the last has its stdout taken (it feeds the next stage); later stages have no stdin pipe and nothing written; the last holds stdout and stderr exactly when they are captured |
| Pipeline.LaunchSpec | src/command/pipeline.rs:375-465 | the launch fails exactly with `LaunchError`'s error; otherwise there are n-1 running stages, each with its program and script, none but the first with a feeder, and the last stage with its program, its script and exactly the pipes asked for |
| Pipeline.SpawnStage | src/command/pipeline.rs:391-421 | one stage spawned as configured and, only when it does not read the previous stage's output, fed from its own source |
| Pipeline.LaunchLast | src/command/pipeline.rs:423-449 | spawning the last stage and taking out the pipes asked for completes the launch exactly as `LaunchSpec` says |
| Pipeline.SpawnPipeline | src/command/pipeline.rs:375-465 | `spawn_pipeline` returns what `LaunchSpec` says: "empty pipeline" for no stages; otherwise the first failing spawn or feed, in stage order; otherwise n-1 running stages in order, each with its program and child (stdout taken), only the first with a feeder, and the last stage with its program and the pipes it was asked to hand over |
| Pipeline.StageResult | src/command/pipeline.rs:469-478 | waiting for one upstream stage succeeds exactly when its wait, its feeder and its exit status all succeed |
| Pipeline.FirstFailing | src/command/pipeline.rs:468-481 | the stage found fails and every stage before it succeeds; none is found exactly when every stage succeeds |
| Pipeline.RunningResult | src/command/pipeline.rs:468-481 | a failure reported is the failure of one of the stages |
| Pipeline.RunningResultFirstFailure | src/command/pipeline.rs:468-481 | waiting the upstream stages succeeds exactly when every stage succeeds; otherwise it reports the first failing stage in order, and every stage before it succeeded |
| Pipeline.WaitRunningStages | src/command/pipeline.rs:468-481 | the loop returns the first failure in stage order and has waited for exactly the stages up to and including that one (all of them on success) |
| Pipeline.WaitStage | src/command/pipeline.rs:469-478 | waiting for one stage reports its failed wait, then its feeder's error, then a failing status, as `StageResult` says |
| Pipeline.WaitStep | src/command/pipeline.rs:468-481 | waiting from a stage on is that stage's failure, or waiting from the next stage on |
| Pipeline.RunAndOutputPrecedence | src/command/pipeline.rs:57-111 | with the final wait and feeder successful: a failing final status is what `run` reports, an upstream failure is what `output` reports, so they differ when both fail; with a successful final status `run` reports the upstream result; with only the final stage failing `output` reports it with the lossily decoded stderr |
| Pipeline.FalsePipedIntoCatFails | tests/command_pipeline.rs:44-48 | `sh("false")` piped into `sh("cat")` launches both stages with each script in place and fails on `run`: the final stage succeeds, so the upstream command error is reported |
| Pipeline.RunVerdict | src/command/pipeline.rs:92-112 | once launched, `run` succeeds exactly when the final wait, the final feeder, the final status and every upstream stage succeed |
| Pipeline.OutputVerdict | src/command/pipeline.rs:57-80 | once launched, `output` succeeds under exactly the same conditions, and then gives the final status and captured streams |
| Pipeline.Run | src/command/pipeline.rs:92-112 | `run` is a launch failure, or a failed final wait, then the final feeder's error, then a failing final status (with "stderr inherited by parent"), and only then the upstream result |
| Pipeline.PipelineOutput | src/command/pipeline.rs:57-80 | `output` is a launch failure, or a failed final wait, then the final feeder's error, then the upstream result, and only then the final status check with the lossily decoded stderr |
| Pipeline.PipelineTrailing | src/command/pipeline.rs:217-250 | the pipeline producer's trailing item is absent exactly when the final wait, status, feeder and every upstream stage succeed; when only upstream failed, it is the upstream error |
| Pipeline.TrailingExtendsSingle | src/command/pipeline.rs:225-250 | with every upstream stage successful, the pipeline producer ends with the same trailing item as the single-command producer |
| Pipeline.StreamPipeline | src/command/pipeline.rs:153-356 | `stream_lines`/`stream_stderr` fail with the launch failure, or deliver what the producer over the chosen pipe of the last stage delivers, with the pipeline trailing error that takes the drained other stream's text and the upstream result |
| Macros.ResolveVar | src/macros.rs:309-314 | a set variable gives its value, an unset one the empty string |
| Macros.IsIdentStart | src/macros.rs:316-318 | a character that starts a name is never '$', '{' or '}' |
| Macros.IsIdentContinue | src/macros.rs:320-322 | every start character continues a name, and no continuing character is '$', '{' or '}' |
| Macros.IdentEnd | src/macros.rs:201-208 | the identifier run stops inside the template, at a character that cannot continue an identifier or at the end |
| Macros.IdentEndRun | src/macros.rs:201-208 | every character of the run continues an identifier (`is_ident_continue`: '_', ASCII letter or digit) |
| Macros.BraceEnd | src/macros.rs:188-194 | the braced name stops at a '}' or at the end of the template |
| Macros.BraceEndRun | src/macros.rs:188-194 | no character of the braced name is a '}' |
| Macros.PieceEnd | src/macros.rs:178-216 | every turn of the loop consumes at least one character and stays within the template |
| Macros.ReadBracedName | src/macros.rs:185-194 | the inner loop reads the name up to the first '}', which it consumes, or to the end of the template |
| Macros.ReadIdentName | src/macros.rs:197-208 | the inner loop reads the longest run of identifier characters |
| Macros.NextPiece | src/macros.rs:178-216 | one turn of the loop appends the piece's expansion and resumes where the piece ends |
| Macros.Expansion | src/macros.rs:178-216 | a one-character piece is copied; a longer piece starts with '$'; `$$` gives "$"; with no variable set, every reference expands to nothing |
| Macros.InterpolateFrom | src/macros.rs:178-216 | with no variable set, interpolating the rest of the template gives no more characters than remain |
| Macros.Interpolate | src/macros.rs:175-218 | with no variable set, the interpolated text is never longer than the template |
| Macros.InterpolateCommand | src/macros.rs:175-218 | `interpolate_command` gives the piece-by-piece interpolation of the whole template |
| Macros.LiteralCommand | src/macros.rs:221-223 | `literal_command(t)` is `sh` running the interpolated template: program "sh", arguments "-c" and the interpolation, no environment changes |
| Macros.IdentEndIs | src/macros.rs:201-208 | the identifier run is exactly the one that ends at the first non-identifier character |
| Macros.BraceEndIs | src/macros.rs:188-194 | the braced name is exactly the one that ends at the first '}' |
| Macros.InterpolateShift | src/macros.rs:178-216 | interpolating after a prefix that ends on a piece boundary continues as interpolating the rest on its own |
| Macros.NoDollarUnchanged | src/macros.rs:213-215 | a template without '$' comes back unchanged |
| Macros.EscapeRoundTrip | src/macros.rs:181-184 | `$$` is a literal '$': doubling every '$' of a text and interpolating gives the text back, whatever the environment |
| Macros.PrefixWithoutDollar | src/macros.rs:213-215 | characters before the first '$' are copied and interpolation goes on after them |
| Macros.PlainHead | src/macros.rs:213-215 | a first character other than '$' is copied and the rest interpolated |
| Macros.DollarName | src/macros.rs:197-210 | `$NAME` takes the longest identifier run as the name and is replaced by its value, by nothing when unset |
| Macros.BracedName | src/macros.rs:185-196 | `${NAME}` takes the text up to the first '}', whatever it holds, as the name and is replaced by its value |
| Macros.UnterminatedBrace | src/macros.rs:188-195 | `${` with no '}' takes the rest of the template as the name |
| Macros.LoneDollar | src/macros.rs:211 | a '$' at the end, or before a character that starts no reference, stays a '$' and the next character is read normally |
| Macros.DoubleDollar | src/macros.rs:181-184 | `$$` gives one '$' |
| Macros.Example | src/macros.rs:330-336 | with NAME set to VALUE, `echo $NAME ${NAME} $$` becomes `echo VALUE VALUE $`, for any identifier name |
| Iters.FlattenAppend | src/shell/iters.rs:21-31 | concatenating the groups of two runs of chunks is concatenating each run's items |
| Iters.ChunksFlatten | src/shell/iters.rs:21-31 | for a positive size the chunks concatenate back to the input, nothing lost, reordered or repeated |
| Iters.ChunkSizes | src/shell/iters.rs:21-31 | every chunk holds between 1 and `size` items and only the last may be short |
| Iters.ChunksFirst | src/shell/iters.rs:21-31 | a first group of `size` items (or all of a shorter input) taken off leaves the chunks of what follows |
| Iters.TakeChunk | src/shell/iters.rs:22-29 | the `0..size` loop takes the first `size` items, or all when fewer remain, and leaves the rest in order |
| Iters.ChunkIter.constructor | src/shell/iters.rs:13-15 | a new adapter yields the chunks of the whole input |
| Iters.ChunkIter.Next | src/shell/iters.rs:21-31 | each call yields the next chunk; an empty group is `None`, which ends the stream and stays ended |
| Iters.WindowsLength | src/shell/iters.rs:60-84 | there are len - size + 1 windows, none when the input is shorter than a window |
| Iters.WindowAt | src/shell/iters.rs:60-84 | window i holds the `size` items starting at position i |
| Iters.WindowsShape | src/shell/iters.rs:60-84 | the count of windows and the content of each, together |
| Iters.WindowIter.constructor | src/shell/iters.rs:44-51 | a new adapter, empty buffer and not initialized, yields the windows of the whole input |
| Iters.WindowIter.Next | src/shell/iters.rs:60-84 | the first call fills the buffer; each call yields the next window, dropping the oldest item and appending the next; the buffer invariant is kept |
| Iters.AlternateCons | src/shell/iters.rs:107-125 | taking an item from one side hands the turn to the other |
| Iters.AlternateLength | src/shell/iters.rs:107-125 | the interleaving is as long as both inputs together |
| Iters.AlternatePair | src/shell/iters.rs:107-125 | while both inputs last, items 2k and 2k + 1 are a[k] and b[k] |
| Iters.AlternateTail | src/shell/iters.rs:107-125 | after the shorter input runs out, the longer one's remaining items follow in order |
| Iters.AlternateShape | src/shell/iters.rs:107-125 | the alternation and the tail, together, pin down every position |
| Iters.AlternateMultiset | src/shell/iters.rs:107-125 | the interleaving holds exactly the items of both inputs |
| Iters.InterleavingStep | src/shell/iters.rs:108-117 | one poll: the side due next yields its first item and hands the turn over; an empty side hands it over and nothing else changes |
| Iters.InterleaveIter.constructor | src/shell/iters.rs:96-101 | a new adapter, flag false, yields `a` first, alternating with `b` |
| Iters.InterleaveIter.Next | src/shell/iters.rs:107-125 | each call yields the next item of the interleaving; `None` only once both sides are drained |
| Iters.PairsFromLength | src/shell/iters.rs:151-158 | from index i on there are len - i pairs left |
| Iters.PairFromAt | src/shell/iters.rs:151-158 | pair k from index i is `base` with others[i + k] |
| Iters.PairsShape | src/shell/iters.rs:151-158 | a row of the product pairs `base` with each of `others`, in order |
| Iters.ProductIter.constructor | src/shell/iters.rs:135-141 | a new row starts at index 0 and yields the whole row |
| Iters.ProductIter.Next | src/shell/iters.rs:151-158 | each call yields `base` with the next of `others`; `None` once the index reaches the end |
| Iters.DistinctMembers | src/shell/iters.rs:184-188 | an item comes out iff it is in the input and not among those already seen |
| Iters.DistinctNoDuplicates | src/shell/iters.rs:184-188 | no item comes out twice |
| Iters.DistinctSubsequence | src/shell/iters.rs:184-188 | the output keeps the input's order |
| Iters.DistinctSpec | src/shell/iters.rs:184-188 | `distinct` gives each item of the input once, at its first occurrence, in input order |
| Iters.DistinctIter.constructor | src/shell/iters.rs:170-175 | a new adapter has seen nothing and yields the distinct items of the whole input |
| Iters.DistinctIter.Next | src/shell/iters.rs:184-188 | `find` skips items already seen and yields the next new one, recording it as seen |
| Iters.ChunkMapOfChunks | src/shell/iters.rs:221-246 | `chunk_map` is the mapper applied to each chunk, the results concatenated |
| Iters.ChunkMapStep | src/shell/iters.rs:237-245 | a full first chunk contributes its mapping before the rest's; an empty mapping is skipped |
| Iters.ChunkMapFirst | src/shell/iters.rs:229-240 | taking the first chunk off leaves its mapping in front of the rest's |
| Iters.MapItemsAppend | src/shell/iters.rs:221-246 | the item-wise map of a concatenation is the concatenation of the maps |
| Iters.ChunkMapItemwise | src/shell/iters.rs:221-246 | a mapper that maps items one by one gives the item-wise map of the whole input, whatever the chunk size |
| Iters.ChunkMapIter.PopCurrent | src/shell/iters.rs:223-228 | the next item of the current mapped chunk is yielded; a used-up chunk is dropped and nothing else changes |
| Iters.ChunkMapIter.constructor | src/shell/iters.rs:205-212 | a new adapter has no current chunk and yields the chunk map of the whole input |
| Iters.ChunkMapIter.MapNextChunk | src/shell/iters.rs:229-240 | the next chunk is taken and mapped; `None` when the wrapped iterator gave nothing |
| Iters.ChunkMapIter.Next | src/shell/iters.rs:221-246 | each call yields the next item of the chunk map, skipping chunks whose mapping is empty; `None` once the input is used up |
| Shell.CollectChunks | src/shell/base.rs:189-196 | `chunks(size)`, for the positive size it asserts, collects to the chunks of the input |
| Shell.CollectWindows | src/shell/base.rs:199-206 | `windows(size)`, for the positive size it asserts, collects to the sliding windows of the input |
| Shell.CollectInterleave | src/shell/base.rs:209-218 | `interleave(other)` collects to the alternation of both streams |
| Shell.CollectDistinct | src/shell/base.rs:283-289 | `distinct()` collects to the first occurrences, in input order |
| Shell.CollectChunkMap | src/shell/base.rs:305-314 | `chunk_map(size, f)`, for the positive size it asserts, collects to the chunk map |
| Shell.CollectRow | src/shell/iters.rs:151-158 | a drained product row is `base` paired with each of `others`, in order |
| Shell.CollectProduct | src/shell/base.rs:221-231 | `product(other)` collects to the row-by-row cartesian product |
| Shell.Product | src/shell/base.rs:221-231 | the product has |a|·|b| pairs |
| Shell.ProductAt | src/shell/base.rs:221-231 | pair i·|b| + j is (a[i], b[j]): row-major order |
| Shell.Joined | src/shell/base.rs:247-262 | joining no strings gives ""; otherwise the length is the strings' total plus one separator per pair of neighbours |
| Shell.JoinedCons | src/shell/base.rs:247-262 | no separator leads: the first string, then a separator before each further one |
| Shell.JoinedSnoc | src/shell/base.rs:247-262 | nothing trails the last string |
| Shell.JoinedThree | src/shell/tests.rs:22-23 | "a", "b", "c" joined with a separator are the three with a separator between each pair |
| Shell.Join | src/shell/base.rs:247-262 | `join(sep)` gives the items' texts joined with `sep`, the empty string for an empty stream |
| Shell.FoldLeft | src/shell/base.rs:265-273 | folding nothing leaves the initial value, and the last item is folded in last, into the fold of those before it |
| Shell.Fold | src/shell/base.rs:265-273 | `fold(acc, f)` gives the left-to-right fold of the items |
| Shell.FoldSum | src/shell/tests.rs:24-25 | summing 1, 2, 3 from 0 gives 6 |
| Shell.ForEach | src/shell/base.rs:276-280 | the callback is called once per item, in order |
| Shell.InsertMultiset | src/shell/base.rs:292-299 | inserting adds exactly the one item |
| Shell.SortedCons | src/shell/base.rs:292-299 | a least item in front of a sorted sequence keeps it sorted |
| Shell.InsertSorted | src/shell/base.rs:292-299 | inserting into a sorted sequence keeps it sorted |
| Shell.Sort | src/shell/base.rs:292-299 | `sorted()` yields the input's items, each as often as it occurs |
| Shell.SortSorted | src/shell/base.rs:292-299 | `sorted()` yields its items in ascending order |
| Shell.SortedUnique | src/shell/base.rs:292-299 | any sorted rearrangement of the input is the same sequence, so the specification fixes the result |
| Shell.SortExample | src/shell/tests.rs:62-63 | 3, 1, 2 sorted is 1, 2, 3 |
| Shell.ParallelChunks | src/shell/base.rs:328-338 | the chunking loop of `chunk_map_parallel` builds the same chunks as the `chunks` adapter |
| Shell.CloseChunk | src/shell/base.rs:328-338 | closing a full chunk, or the last one, moves it from the chunks to come to the chunks done |
| Shell.ChunkMapParallel | src/shell/base.rs:320-341 | `chunk_map_parallel` gives the same items, in the same order, as `chunk_map` |
| Shell.DoubleEndedShell.constructor | src/shell/base.rs:361-363 | `from_vec` holds the vector's items |
| Shell.DoubleEndedShell.Next | src/shell/base.rs:382-384 | takes the first item, `None` when empty |
| Shell.DoubleEndedShell.NextBack | src/shell/base.rs:388-390 | takes the last item, `None` when empty |
| Shell.PopsBothEnds | src/shell/tests.rs:84-89 | from 1, 2, 3 the front gives 1, the back gives 3 and 2 is left |
| Shell.ChunksExample | src/shell/tests.rs:30-31 | 1..=5 in chunks of 2 is [1, 2], [3, 4], [5] |
| Shell.WindowsExample | src/shell/tests.rs:44-45 | 1, 2, 3, 4 in windows of 3 is [1, 2, 3], [2, 3, 4] |
| Shell.InterleaveExample | src/shell/tests.rs:47-48 | 1, 3, 5 interleaved with 2, 4, 6 is 1..6 |
| Shell.ProductExample | src/shell/tests.rs:50-54 | a two-by-two product, row by row |
| Shell.DistinctExample | src/shell/tests.rs:59-60 | 1, 2, 2, 3, 1 made distinct is 1, 2, 3 |
| Shell.ChunkMapDoubling | src/shell/tests.rs:66-72 | doubling each item chunk by chunk doubles the stream, for any input and chunk size |
| Entries.LastDot | src/fs/entries.rs:27-29 | the index found holds a '.' and no '.' follows it; none is found only when the name has no '.' |
| Entries.ExtensionOf | src/fs/entries.rs:27-29 | the extension is the text after the last '.', which follows at least one other character; there is none exactly when the name has no '.' or its only '.' leads |
| Entries.PathEntryFor | src/fs/entries.rs:51-56 | an entry exists iff `symlink_metadata` succeeds, and then holds the path and that metadata |
| Entries.FilterOkSubsequence | src/fs/filter.rs:13-20 | the `filter_map` shape keeps items of the input in the input's order |
| Entries.FilterOkMember | src/fs/filter.rs:13-20 | an item is kept iff it is an error or its entry passes the test |
| Entries.FilterOkMembers | src/fs/filter.rs:13-20 | for a stream of entries, every item at once: kept iff it is an error or its entry passes the test |
| Entries.FilterOkErrors | src/fs/filter.rs:19 | errors pass through: the errors of the output are exactly those of the input, in order |
| Entries.FilterOkSameTest | src/fs/filter.rs:13-20 | two tests that agree on every entry keep the same items |
| Filter.LowerChar | src/fs/filter.rs:12 | ASCII capitals map to their lower-case letters, every other character to itself |
| Filter.AsciiLower | src/fs/filter.rs:12 | lower-casing keeps the length and maps each character on its own |
| Filter.AsciiLowerIdempotent | src/fs/filter.rs:12-16 | lower-casing twice is lower-casing once |
| Filter.FilterExtension | src/fs/filter.rs:8-21 | an `Ok` entry is kept iff it has an extension equal to `ext` up to ASCII case; errors are always kept |
| Filter.FilterExtensionCase | src/fs/filter.rs:12 | the needle's case does not change what is kept |
| Filter.FilterSize | src/fs/filter.rs:24-29 | an `Ok` entry is kept iff it holds at least `min_bytes` bytes; errors are always kept |
| Filter.FilterModifiedSince | src/fs/filter.rs:32-44 | an `Ok` entry is kept iff it has a modification time not before `since`; errors are always kept |
| Filter.FiltersKeepOrderAndErrors | src/fs/filter.rs:13-43 | each filter keeps input order and passes the input's errors through unchanged and in order |
| Filter.ExtensionExampleUpper | src/fs/filter.rs:12-16 | "notes.TXT" passes the "txt" filter |
| Filter.ExtensionExamplesWithout | src/fs/entries.rs:27-29 | ".txt", a hidden file, and "notes" have no extension and do not pass the "txt" filter |
| Walk.LeadingDone | src/fs/walk.rs:129-137 | counts the entry reads before the first failing one: all of them succeed, and the next one, if any, failed |
| Walk.Children | src/fs/walk.rs:129-137 | one child path per entry read before the first failure, in listing order, each the directory joined with the entry's name |
| Walk.ListingError | src/fs/walk.rs:132-135 | an error is left pending exactly when some entry read failed |
| Walk.ListChildren | src/fs/walk.rs:129-137 | the loop over the listing pushes the children in order and stops at the first failing entry read, returning its error |
| Walk.PushedAreChildren | src/fs/walk.rs:126-143 | the pushed paths lie one component below the directory and are all different |
| Walk.ApartFromChild | src/fs/walk.rs:153-163 | a path that neither contains nor lies inside `p` lies inside no child of `p` |
| Walk.BelowChild | src/fs/walk.rs:153-163 | a child of `p` contains only paths that `p` contains |
| Walk.PopPushApart | src/fs/walk.rs:153-163 | popping the top path and pushing its children keeps every stack path outside every other |
| Walk.PopPushUnvisited | src/fs/walk.rs:153-163 | no stack path lies inside a visited path, the popped one included |
| Walk.PopPush | src/fs/walk.rs:153-163 | one step keeps the walk invariant and the popped path was not visited before |
| Walk.WalkIter.constructor | src/fs/walk.rs:119-124 | a new walk has only the root on its stack and nothing pending |
| Walk.WalkIter.PushChildren | src/fs/walk.rs:126-143 | the listing's children go on the stack in order; a failing listing or entry read leaves its error pending and pushes nothing further |
| Walk.WalkIter.Visit | src/fs/walk.rs:154-163 | a popped path is descended into only when `symlink_metadata` reports a directory that is not a link; a metadata failure is left pending |
| Walk.WalkIter.Next | src/fs/walk.rs:149-165 | a pending error comes first and pops nothing; otherwise the top path is yielded, even when it cannot be examined or listed, and it was never yielded before; an empty stack ends the walk |
| Walk.WalkStartsAtRoot | src/fs/walk.rs:23-27 | the first item of `walk(root)` is the root |
| Walk.WalkDetailedIter.constructor | src/fs/walk.rs:174-179 | a new walk has only the root on its stack and nothing pending |
| Walk.WalkDetailedIter.Next | src/fs/walk.rs:185-220 | as the plain walk, but a path whose metadata cannot be read is yielded as that error and not descended into; a readable one is yielded with its metadata |
| Walk.WalkDetailedTake | src/fs/walk.rs:185-220 | no path comes out twice, however the filesystem's links loop |
| Walk.IsFileOrSymlinkToFile | src/fs/walk.rs:56-66 | a regular file passes; anything else that passes is a link whose target `metadata` reports as a regular file; directories and special files never pass |
| Walk.WalkFiles | src/fs/walk.rs:37-43 | `walk_files` keeps regular files and links whose target is a regular file, passes errors through and keeps the walk's order |
| Walk.WalkFilterSpec | src/fs/walk.rs:46-54 | `walk_filter` keeps the entries the predicate accepts, passes errors through and keeps the walk's order |
| Watch.WatchEvent.PathOf | src/fs/watch.rs:45-54 | created and modified events are at their entry's path, a removal at the removed path, a rename at its destination entry's path, or at `to` when the destination could not be examined |
| Watch.WatchEvent.IsDir | src/fs/watch.rs:56-65 | an entry's kind, a removal's recorded flag, and for a rename the destination entry's kind, false when it could not be examined |
| Watch.WatchEvent.FromPath | src/fs/watch.rs:67-72 | only a rename has a source path, and it is `from` |
| Watch.FlattenSnoc | src/fs/watch.rs:303-321 | appending one path's events to the output appends them to the concatenation |
| Watch.ConvertStandard | src/fs/watch.rs:301-323 | the loop over the paths pushes each path's event, in path order: creation or modification only for a path that still exists, removal always, access nothing |
| Watch.StandardOne | src/fs/watch.rs:303-321 | one path gives at most one event, about that path: a removal always one `Removed`, an access none, a creation one `Created` exactly when the path can be examined |
| Watch.UnitsBound | src/fs/watch.rs:301-323 | concatenating per-path units of at most one event each gives at most one event per path, each about one of the paths |
| Watch.StandardEvents | src/fs/watch.rs:301-323 | at most one event per path, each about one of the event's paths |
| Watch.FlattenSingletons | src/fs/watch.rs:315-318 | units of one event each concatenate to their events, one per unit, in order |
| Watch.RemoveEvents | src/fs/watch.rs:315-318 | a removal yields one `Removed` per path, in order, a directory when the removal kind is Folder or Any or the path is a directory |
| Watch.ConvertRename | src/fs/watch.rs:325-353 | every event of a rename is about one of its paths, and there are never more events than paths |
| Watch.RenameBothEvent | src/fs/watch.rs:327-333 | a Both or Any rename with at least two paths yields exactly one `Renamed`, from the first path, reported at the second |
| Watch.AsModified | src/fs/watch.rs:355-360 | `convert_as_modified` gives what a plain modification of the same paths gives |
| Watch.RenameFewPaths | src/fs/watch.rs:334-336 | a Both or Any rename with fewer than two paths, and any Other rename, is a modification of the paths that still exist |
| Watch.RenameFromVersusRemove | src/fs/watch.rs:342-350 | a rename's source takes its directory flag without following links (a renamed link to a directory is not one) where a removal follows them |
| Watch.ConvertEvent | src/fs/watch.rs:294-299 | every converted event is about one of the raw event's paths and there are never more events than paths |
| Watch.ConvertEventLoop | src/fs/watch.rs:294-299 | renames are converted by their mode, every other kind path by path |
| Watch.OkEvents | src/fs/watch.rs:164 | each converted event is queued as one `Ok` item, in order |
| Watch.WatcherIter.constructor | src/fs/watch.rs:138-147 | a new iterator has nothing queued and yields the items of every message |
| Watch.WatcherIter.Receive | src/fs/watch.rs:158-167 | one message is taken off the channel: a backend error is handed back, a raw event's conversion is queued |
| Watch.WatcherIter.Next | src/fs/watch.rs:153-170 | queued events come out first in, first out; a batch converting to nothing is skipped; a backend error is one `Err`; the channel's end is `None` |
| Watch.CollectWatcher | src/fs/watch.rs:153-170 | drained, the watcher yields each message's items in order |
| Watch.Stamp | src/fs/watch.rs:193-209 | a removal is stamped with the clock reading; a creation or modification with its entry's modification time, or the clock reading when there is none; a rename with its destination entry's modification time or the clock reading |
| Watch.Elapsed | src/fs/watch.rs:213 | the time since the last emission, zero when the clock reads earlier |
| Watch.ShouldEmit | src/fs/watch.rs:210-216 | an event is emitted when nothing was emitted yet or its path differs; at the last path, with a positive window, exactly when at least the window has passed since the last emission; with a zero window, always |
| Watch.Debouncer.constructor | src/fs/watch.rs:190 | nothing has been emitted yet |
| Watch.Debouncer.Offer | src/fs/watch.rs:191-225 | errors pass unchanged; an event passes, and becomes the last emitted, iff nothing was emitted, its path differs, or the window has elapsed; otherwise it is dropped and the state is unchanged |
| Watch.DebounceWatch | src/fs/watch.rs:186-226 | the debounced stream is the items the closure lets through, in order |
| Watch.DebouncedStep | src/fs/watch.rs:191-225 | one item: an error passes; an event passes, and becomes the last emitted, when it should be emitted, and is dropped otherwise |
| Watch.Debounced | src/fs/watch.rs:186-226 | the debounced stream is never longer than the input; an error, or any first item when nothing was emitted yet, comes out first |
| Watch.DebouncedSubsequence | src/fs/watch.rs:191-225 | the output keeps input items in order and passes every error through |
| Watch.DebouncedFirstEvent | src/fs/watch.rs:210-219 | the first event is always emitted, whatever errors come before it |
| Watch.DebounceRepeats | tests/watchers.rs:79-95 | the same event three times within the window comes out once |
| FsIo.LinesOf | src/fs/io.rs:232-234 | each line read becomes one item, in order: the line, or its error |
| FsIo.LinesOfCons | src/fs/io.rs:231-234 | the first read gives the first item and the rest follow |
| FsIo.FileItems | src/fs/io.rs:210-234 | a file that cannot be opened gives its one error; an opened file gives one item per line read, an error exactly where the read failed |
| FsIo.CatFrom | src/fs/io.rs:229-249 | from file i on, every file that cannot be opened leaves its error in the output |
| FsIo.Cat | src/fs/io.rs:61-71 | every file that cannot be opened leaves its error in the output |
| FsIo.CatFromShift | src/fs/io.rs:229-249 | the output from file i of a longer list is that of the first list from i followed by the second list's |
| FsIo.CatFromOffset | src/fs/io.rs:229-249 | the output from a position inside the appended list is that list's output from the matching position |
| FsIo.CatAppend | src/fs/io.rs:229-249 | every file's items come out whole, in the order the files are listed |
| FsIo.CatSingle | src/fs/io.rs:210-249 | one file gives its lines in order, or one error when it cannot be opened |
| FsIo.CatOpenFailure | src/fs/io.rs:240-244 | a file that cannot be opened costs one error and the files after it still follow |
| FsIo.CatIter.constructor | src/fs/io.rs:202-208 | a new iterator yields the concatenation of all the files |
| FsIo.CatIter.AdvanceReader | src/fs/io.rs:210-223 | past the last file, `None` and nothing changes; otherwise the index moves past the next file before it is opened, its lines kept on success and its error returned on failure |
| FsIo.CatIter.NextLine | src/fs/io.rs:231-234 | the open file's next read is yielded, a read error included, and the file stays open |
| FsIo.CatIter.Next | src/fs/io.rs:229-249 | each call yields the next item of the concatenation; `None` only once every file is used up |
| FsIo.CollectCat | src/fs/io.rs:61-71 | `cat(files)` drained gives every file's items, in order |
| FsIo.CatTwoFiles | src/fs/tests.rs:42-43 | two readable files give all their lines, first file first, so one line and two make three |
| FsIo.WrittenFrom | src/fs/io.rs:35-45 | whatever the writes do, the file holds a prefix of the lines each followed by "\n" |
| FsIo.WriteLines | src/fs/io.rs:35-45 | a failing create writes nothing and is the error; otherwise each line and then "\n" is written until the first failing write, whose error is returned |
| FsIo.WrittenStep | src/fs/io.rs:40-43 | one more line and its "\n" extend what was written |
| FsIo.WrittenComplete | src/fs/io.rs:35-45 | with no failing write the file holds every line, each followed by "\n" |
| FsIo.WriteErrorNone | src/fs/io.rs:40-43 | `write_lines` succeeds iff no write call fails |
| FsIo.WriteThenRead | src/fs/tests.rs:6-14 | lines without "\n" and not ending in "\r", written and read back with `lines`, come back unchanged |
| FsIo.RmPlan | src/fs/io.rs:80-94 | a missing path needs nothing, another lookup error is returned, a directory (by `symlink_metadata`) is removed recursively, anything else is removed as a file |
| FsIo.Rm | src/fs/io.rs:80-94 | a missing path is success, a lookup error is returned, and otherwise `rm` succeeds iff the removal call does |
| FsIo.RmLinkToDir | src/fs/tests.rs:150-169 | a symbolic link to a directory is removed as a file, not descended into |
| FsIo.Decimal | src/fs/io.rs:177 | formatting a number gives at least one character, all decimal digits |
| FsIo.ParseDecimalOfDecimal | src/fs/io.rs:177 | reading the formatted digits back gives the number |
| FsIo.CandidatesDiffer | src/fs/io.rs:176-177 | different attempts try different names |
| FsIo.TempFileFrom | src/fs/io.rs:168-193 | a name returned is one of the at most 100 candidates and its exclusive creation succeeded; an error is an I/O error, either "failed to allocate temporary file" or one that is not a taken name |
| FsIo.TempFile | src/fs/io.rs:168-193 | the loop gives the attempt-by-attempt outcome, with a clock before the epoch read as zero |
| FsIo.TempFileSkipsTaken | src/fs/io.rs:184 | names already taken are skipped: the outcome is that of the first attempt whose name is free |
| FsIo.TempFileOutcomes | src/fs/io.rs:176-192 | the first free name among at most 100, the first error other than a taken name, or, all 100 taken, "failed to allocate temporary file" |

## Left out

- Process spawning, pipes, threads, `kill`/`wait` and channels are not executed: each stage is a given script of outcomes, and the teardown a producer performs is reported as a `Stream.Finish` value.
- The async variants (src/command/builder.rs:307-349 and 444-459, src/command/pipeline.rs:358-373, src/fs/watch.rs:239-292) only bridge to a runtime.
- The `notify` backend and its forwarding thread (src/fs/watch.rs:76-129), `watch`, `watch_channel` and `watch_filtered`: the watcher's channel is a given sequence of messages, and raw event kinds are reduced to the distinctions the conversion makes.
- `with_dir` and the `macro_rules!` definitions of src/macros.rs: a process-global working directory and compile-time rewriting.
- The rayon `into_par_iter` step of `chunk_map_parallel`: `Shell.ChunkMapParallel` states its result in chunk order, which is what rayon's `collect` into a `Vec` gives: it keeps the order of the items even for an unindexed parallel iterator such as the one `flat_map` returns.
- The one-line `Shell` wrappers over standard adapters (`map`, `filter`, `filter_map`, `then`, `take`, `skip`, `chain`, `zip`, `enumerate`, `inspect`, `len_hint`, ...), `ls` and `ls_detailed`, which hand `read_dir` over unchanged.
- src/env.rs, src/fs/glob.rs, src/command/receiver.rs and the `Display` text of src/error.rs are not part of this model.
- `read_text`, `read_lines`, `write_text`, `copy_file`, `append_text`, `mkdir_all`, `copy_dir`, `move_path` and `copy_entries` of src/fs/io.rs are single system calls or loops over them and are not part of this model.
- The Windows `cmd /C` form of `sh` is not modelled; only `sh -c`.
- The `debug_assert!`s of `spawn_pipeline` (take flags require capture flags) are not modelled as panics; the release behaviour, a missing-pipe I/O error, is.
- The `assert!(size > 0)` panics of `chunks`, `windows`, `chunk_map` and `chunk_map_parallel` are preconditions of the corresponding methods.
- Iters.WindowIter.constructor: requires a positive size, as `windows` asserts; the adapter built directly with size 0 is not modelled.
- Iters.InterleaveIter.Next: the wrapped iterators are sequences, which stay empty once drained, so the two extra polls after both sides came up empty (src/shell/iters.rs:118-123) are not modelled; a wrapped iterator that yields again after `None` is not captured.
- Iters.ChunkMapIter.Next: the `FnMut` mapper is a pure function; a mapper whose result depends on earlier calls is not captured.
- Shell.Sort: `sorted` is modelled over integers by a reference insertion sort; the standard library's algorithm is not visible, only its result, a sorted permutation, which `Shell.SortedUnique` shows is unique.
- Shell.ForEach: the callback's effects are represented by the sequence of its calls.
- The filesystem oracle is stateless: it answers every lookup the same way for the whole of a walk, a `cat` or a conversion, so changes made concurrently are not captured (and the second `symlink_metadata` of `WalkDetailedIter::next` cannot disagree with the first).
- Walk.WalkDetailedTake: assumes, as `Walk.DistinctListings`, that a directory never lists one name twice; the same requirement sits on `Walk.WalkIter.constructor`, `Walk.WalkDetailedIter.constructor` and `Walk.WalkStartsAtRoot`, and, through `Valid()`, on `Walk.WalkIter.Next` and `Walk.WalkDetailedIter.Next`.
- FsIo.WriteLines: a failing `write_all` writes nothing; a partial write before the error is not captured.
- Paths are sequences of component names; `to_string_lossy` of non-UTF-8 names in `filter_extension` is not modelled.
- Macros.ResolveVar: the environment is a `map<string, string>`, so a variable whose value is not valid UTF-8, which `to_string_lossy` would convert with replacement characters, is not modelled.
- Stream.CompanionText: only the text drained from the companion stream (stderr for `stream_lines`, stdout for `stream_stderr`) is modelled; an I/O error while draining it is not.
- `SystemTime` is an integer on one clock and `SystemTime::now()` a given reading; `Duration` is a natural number.
- File reads (`BufRead::lines`) in `cat` are a given finite sequence of line reads per file; `Text.ReadLines` models how `BufRead::lines` splits a whole text, which the write-then-read round trip uses.
