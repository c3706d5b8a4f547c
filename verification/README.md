# Rotating file log sink, modelled in Dafny

This project models the rotating file sink of the ergo logger package
(`rotate/logger.go`). Producers call `Log` with records and the runtime calls
`Terminate` once. A tri-state word (0 wait, 1 run, 2 close) picks the single
goroutine that drains the queue. The drain rotates the active file when its
time window has passed, writes one line per record, and then hands the writer
back. Rotation copies the active file out under a time-stamped name, empties
it, and keeps a bounded list of rotated files.

Everything is a pure function over integers, sequences and small datatypes:

- `outcomes.dfy`: `Option` and `Result`.
- `levels.dfy` (`Levels`): log levels and the level-tag tables.
- `clock.dfy` (`Clock`): time is a count of nanoseconds since Go's zero time,
  the origin `Time.Truncate` rounds to. This module has truncation, the first
  switch time and the drift-corrected advance.
- `decimal.dfy` (`Decimal`): the `%d` rendering of Unix nanoseconds used when
  no time format is set, with its reading back.
- `config.dfy` (`Config`): options and their normalisation at construction.
- `formatting.dfy` (`Formatting`): records, sources, the line format, and the
  pop loop as `Render`. The name and behavior annotations carry from one
  record to the next within one drain call, as the source does.
- `retention.dfy` (`Retention`): the bounded list of rotated files.
- `rotation.dfy` (`Rotation`): the file store and one rotation step.
- `writer.dfy` (`Writer`): the state word, `Log`, `Terminate`, the drain
  pass and the whole drain call, and construction.

Concurrency is modelled sequentially. `Terminate` and each of the drain's
swaps on the state word is one transition. A whole `Log` call is one
transition too: its load of the state word, its push and its swap happen
together (see "Left out"). What other callers do while a drain runs is given
to the drain as a script with one entry per pass. Each entry holds:

- the clock reading at the top of that pass;
- whether creating a rotation target would succeed;
- a window of `Log`/`Terminate` events before the drain's 1→0 swap;
- a window of events between that swap and the re-arm.

This makes every branch at the end of `write` reachable. A busy drain reads
the clock again on every pass, as the `goto next` does.

Where the code's behaviour is easy to misread, the model follows the code:

- Rotation is due only when the clock is strictly after the switch time (`Time.After`), not at it.
- The switch time advances before the target file is created. After a failed create, the next attempt therefore comes one window later, not at the next record.
- With a depth of zero or less, rotated files are not tracked at all, so none is ever deleted.
- A drain that finds the sink terminated closes the file without looking at the queue again (see Findings).

## Model

| member | source | states |
|---|---|---|
| Levels.TagsFor | rotate/logger.go:64-80 | Short names give `[TRC]`, `[DBG]`, `[INF]`, `[WRN]`, `[ERR]`, `[PNC]`; otherwise each known level gets its bracketed text |
| Levels.LongTagIsBracketedText | rotate/logger.go:75-80 | With long names, every level, known or not, prints as `"[" + text + "]"` |
| Levels.ShortTagsDistinct | rotate/logger.go:64-70 | Short tags are five characters long, and two known levels share a tag exactly when they are the same level |
| Levels.UnknownLevelFallback | rotate/logger.go:183-184 | A level outside the table prints as its bracketed text under either table |
| Levels.TagPrinted | rotate/logger.go:170-185 | The per-record lookup: with short names a known level prints a five-character bracketed tag, which differs from its long form. Every other case, long names or an unknown level, prints the bracketed level text |
| Clock.Truncate | rotate/logger.go:53 | The result is a multiple of the period, at most `t` and within one period below it |
| Clock.TruncateUnique | rotate/logger.go:53 | Any multiple of the period within one period below `t` is the truncation, so the ensures of `Truncate` pin it down |
| Clock.InitialSwitch | rotate/logger.go:53 | The first switch time is on a period boundary with `now < switch <= now + period` |
| Clock.InitialSwitchIsEarliest | rotate/logger.go:53 | The first switch time is the earliest period boundary strictly after `now` |
| Clock.Advance | rotate/logger.go:233-239 | The new switch time is after the old one, at or after `now`, and stays aligned. It equals `old + period` exactly when `now <= old + period`; otherwise it re-anchors the way construction does. When rotation was due it is at most one period past `now` |
| Decimal.Digits | rotate/logger.go:165 | At least one digit, all characters digits, and no leading zero |
| Decimal.FormatRoundTrip | rotate/logger.go:165 | The `%d` rendering of any integer reads back as that integer |
| Decimal.FormatInjective | rotate/logger.go:165 | Two times print the same exactly when they are equal |
| Config.ClampPeriod | rotate/logger.go:49-51 | The period is at least one minute; a period of at least a minute is kept and a shorter one becomes one minute |
| Config.Suffix | rotate/logger.go:55-58 | The suffix is `.log.gz` exactly when compressing, and `.log` exactly when not |
| Config.Normalize | rotate/logger.go:36-80 | The normalised logger is valid. Its period is the option's period, raised to one minute when shorter (`ClampPeriod`), its suffix follows `Compress`, its tag table follows `ShortLevelName`, an empty prefix becomes the executable's base name, and the other options pass through |
| Config.NormalizeIdempotent | rotate/logger.go:36-51 | Normalising options whose prefix and period came out of normalisation gives the same logger |
| Formatting.Annotate | rotate/logger.go:192-198 | Only a process record changes the annotations: the behavior when behaviors are included, the name when names are included and the name is not empty. Anything else keeps the previous values |
| Formatting.TimeTextReadsBack | rotate/logger.go:164-168 | With no time format, the time column reads back as the record's Unix nanoseconds. With one, it is the text the time formatter gives |
| Formatting.SourceColumn | rotate/logger.go:187-202 | The source column of a network record is node, hyphen, peer, and reads back at the first hyphen when the node name has none. A process record shows only its identifier, since its name and behavior go to the annotations. A node record shows its checksum text and a meta-process record its identifier |
| Formatting.LineShape | rotate/logger.go:206-207 | Every line reads back as three parts: `time level ` first, then the source column followed by the name and behavior annotations, then `: message` and a newline |
| Formatting.Render | rotate/logger.go:158-208 | The pop loop writes one line per record |
| Formatting.RenderAppend | rotate/logger.go:153-208 | Draining a queue in two goes, carrying the annotations across, writes the same lines as draining it in one |
| Formatting.RenderIsLinePerRecord | rotate/logger.go:151-208 | Line `i` is record `i`'s line, printed with the annotations of records `0..i`; the drain leaves the annotations of the whole queue behind |
| Formatting.FullProcessLineIgnoresCarry | rotate/logger.go:192-199 | A named process record, with names and behaviors included, prints the same whatever came before |
| Formatting.CarryOverReachesLaterRecords | rotate/logger.go:193-201 | A meta-process record drained after a named process record is printed with that process's name and behavior |
| Retention.Retain | rotate/logger.go:265-271 | With depth at most 0 nothing changes. Otherwise the new path is last, and the list stays within the depth. A file is evicted exactly when the list overflows, and then it is the oldest one, with the rest kept in order |
| Retention.RetainAllKeepsNewest | rotate/logger.go:265-271 | After any run of rotations the list is the `depth` newest paths, and the deletions are exactly the older ones, oldest first |
| Retention.RetainAllUnbounded | rotate/logger.go:265 | With depth at most 0, no run of rotations records or deletes anything |
| Rotation.RotatedName | rotate/logger.go:231 | The rotated name is the prefix and a dot, then the stamp, then the suffix |
| Rotation.SwitchFile | rotate/logger.go:229-272 | The schedule advances from the old switch time whether or not the create succeeds. The target is named from the old switch time. A failed create leaves the active lines and the retention list unchanged. A successful one archives exactly the active lines, empties the active file, and records the target in the retention list |
| Rotation.SwitchFileKeepsLines | rotate/logger.go:248-263 | Archived lines followed by the remaining active lines equal the active lines before the rotation |
| Rotation.SwitchFileKeepsValid | rotate/logger.go:233-271 | A rotation keeps the switch time aligned and the retention list within its depth; the switch time increases and is not due again at `now` |
| Rotation.RotatedNameStampsClosingWindow | rotate/logger.go:231-239 | The file is stamped one period before the old switch time, and the next window starts no earlier than the old switch time |
| Writer.CompareAndSwap | rotate/logger.go:138 | The swap succeeds exactly when the word holds the expected value; only then does the word change |
| Writer.Log | rotate/logger.go:132-141 | In state 2 nothing changes. Otherwise the record is appended to the queue. The caller starts a drain exactly when the state was 0, and the state is never 0 afterwards |
| Writer.Terminate | rotate/logger.go:143-148 | The state becomes 2 and the queue is untouched. A final drain starts exactly when the previous state was 0 |
| Writer.Call | rotate/logger.go:132-148 | One call by another caller. A push is queued unless the state is 2. Afterwards the state is 2 after a terminate or when it already was, and 1 otherwise. The call starts a drain exactly when the state was 0 |
| Writer.Apply | rotate/logger.go:132-148 | The records accepted from a run of calls are exactly the pushes made before the first terminate, and they are appended to the queue in order. At most one call starts a drain, and only from state 0. State 2 is absorbing |
| Writer.TerminateIsFinal | rotate/logger.go:133-136 | After Terminate, later calls change nothing and start nothing |
| Writer.RotateIfDue | rotate/logger.go:154-156 | When the pass's clock reading is past the switch time, the result is exactly the rotation step `SwitchFile` at that reading. Otherwise the store is untouched and nothing is archived. Either way no line is lost, the store stays valid, and the schedule is not due at that reading |
| Writer.PopAll | rotate/logger.go:153-208 | The rotation comes first. The new lines are appended to the active file that the rotation left, so the archive holds only lines written before the pass. The queue is emptied in order |
| Writer.CloseTerminated | rotate/logger.go:210-215 | A failed 1→0 swap closes the file. As written, the queue is left as it was; the corrected drain writes it first |
| Writer.Rearm | rotate/logger.go:217-227 | After the 1→0 swap: with the queue empty the drain stops. Otherwise the 0→1 swap re-arms it, unless another caller started a drain in between. The records accepted are those queued plus the pushes before the first Terminate among the other callers' calls. One drain is started exactly when some caller acted, and the sink is closed exactly when one of them terminated it |
| Writer.HandBack | rotate/logger.go:210-227 | The release step. Nothing is accepted once the sink is closed; otherwise the pushes before the first Terminate, and, when none came before the 1→0 swap, those after it. The drain closes exactly when the sink was closed or a Terminate came before the swap. It starts one other drain exactly when the swap succeeded and someone logged after it. The hand-over properties hold throughout |
| Writer.DrainPass | rotate/logger.go:153-227 | One pass with its own clock reading loses no record or line. It rotates at most once and only when that reading is past the switch time, leaves the schedule not due at that reading, and hands the writer on. The records it accepts, whether it closes, and how many drains it starts follow from the other callers' calls as in `HandBack` |
| Writer.Drain | rotate/logger.go:150-227 | A whole drain call. Records written plus records still queued equal the records queued before plus those accepted, in order. Archived lines plus active lines equal the old active lines plus the lines of the written records. The schedule is not due at the last pass's clock reading. On exit the writer is held by nobody, held by exactly one other drain, or closed by this one, and a terminated sink is closed by exactly one drain |
| Writer.PassRotation | rotate/logger.go:153-156 | The rotation a pass makes, and the switch time it leaves, are those of `RotateIfDue` at the pass's clock reading and create outcome |
| Writer.DrainRotatesAtMostOncePerPass | rotate/logger.go:150-227 | A drain call makes no more rotations than passes, since each `goto next` pass checks the clock once |
| Writer.DrainRotatesOnlyWhenDue | rotate/logger.go:153-227 | If no pass reads a clock past the switch time, the call archives nothing and leaves the switch time as it was |
| Writer.DrainUnfold | rotate/logger.go:153-227 | A drain call is its first pass, followed, when that pass re-armed, by the drain of the rest of the script. Its effects, sink, passes, last clock reading, accepted records, started drains and exit are assembled accordingly: the records accepted are those of the first pass followed by those of the rest |
| Writer.BusyDrainRotatesOnLaterPass | rotate/logger.go:153-227 | A record pushed before the release makes the drain re-arm. If the second pass reads a clock past the switch time, that pass makes exactly the rotation `SwitchFile` makes at that reading, and then writes the record |
| Writer.Write | rotate/logger.go:150-227 | The drain as written. A final drain started by Terminate writes everything queued before it closes. Nothing is left queued at close unless a terminate came while the drain still held the writer |
| Writer.WriteFlushing | rotate/logger.go:210-215 | The corrected drain: at close, every record the sink accepted has been written |
| Writer.LateRecordLostAsWritten | rotate/logger.go:210-215 | A record pushed while the drain finishes, then Terminate before the 1→0 swap: the drain as written closes with the record accepted but never written |
| Writer.LateRecordWrittenWhenFlushing | rotate/logger.go:210-215 | The same calls with the corrected drain write the record before closing |
| Writer.FirstRecordReachesFile | rotate/logger.go:17-227 | After construction at time `t0`, the first Log starts a drain. With no other callers and a clock reading at or before the first switch time, that drain appends exactly that record's line and leaves state 0 with an empty queue |
| Writer.Create | rotate/logger.go:17-83 | A failed directory creation or file open is returned as an error. Otherwise the options are normalised and the first switch time is aligned with `now < switch <= now + period`. The sink starts in state 0 with an empty queue and an empty retention list, and an existing active file keeps its lines |

## Left out

- Default directory from `os.Args` and `~` expansion (rotate/logger.go:20-30): these depend on the OS. The model takes the configured path as the directory.
- Rotation.Join: `filepath.Join` is modelled as `dir + "/" + name`; its path cleaning is not modelled.
- File-system calls (`MkdirAll`, `OpenFile`, `Create`, `Sync`, `Seek`, `io.Copy`, `Truncate`, `Remove`, `Close`): the active and rotated files are sequences of lines. The outcome of `MkdirAll`, `OpenFile` and `Create` is a boolean input. `Remove`, and errors from copying, truncating and per-line writes, are not modelled; the evicted path is reported as an effect.
- gzip compression (rotate/logger.go:251-254): a compressed copy is taken to carry the same lines.
- Calendar formatting of rotated-file stamps (`"200601021504"`) and of `TimeFormat`: both are opaque functions passed in `Env`.
- Levels.Text: the runtime's level names are not part of this model, so lower-case names stand in for them. Only the bracketing is relied on.
- Renderings that belong to the runtime (`CRC32`, PID, registered name, meta-process and peer strings), and `fmt.Sprintf` expansion of the message template: these are carried as text.
- The panic on an unknown source type (rotate/logger.go:202-203): the source is a closed datatype, so that branch cannot occur.
- The lock-free MPSC queue: it is a sequence. Goroutines and real interleavings are not modelled; other callers' actions arrive only through the scripted event windows of a drain call.
- Rotation.SwitchFile: its two further `time.Now()` reads (rotate/logger.go:234-236) are taken to equal the pass's reading at rotate/logger.go:154.
- Writer.Drain: once the script of passes runs out, later passes keep the last clock reading and create outcome, and no other caller acts. The script's clock readings need not increase: no contract depends on that.
- Writer.Log: the load at rotate/logger.go:133, the push and the swap at rotate/logger.go:138 are one step. This excludes one interleaving. A `Log` loads a state other than 2; then `Terminate` swaps in 2, starting a final drain if the state was 0; then the `Log` pushes its record. That record is accepted after `Terminate`, and it is lost if the final drain has already popped the queue. `Writer.Apply`'s "accepted are the pushes before the first terminate" holds only because of this.
- Go's `int64` range for durations and times: integers are unbounded, so wrap-around near 292 years is not modelled.
- colored/logger.go: stateless coloured printing to standard output, which is not part of the rotating sink.

## Findings

| source | as written | input that shows it | evidently intended | confidence | as-written member | corrected member |
|---|---|---|---|---|---|---|
| rotate/logger.go:210-215 | When the drain's 1→0 swap fails, it syncs and closes the file without popping the queue again | While a drain holds state 1 and has just found the queue empty, another caller logs `m`: it is pushed, and its 0→1 swap fails. Then Terminate swaps in 2 with previous state 1, so it starts no final drain. The drain's 1→0 swap fails, and the file is closed with `m` still queued | Records accepted before Terminate are written before the file closes. Terminate's own comment says what is left in the queue is to be handled | medium; not executed | Writer.LateRecordLostAsWritten | Writer.WriteFlushing |

The rest of the model keeps the behaviour as written: `Writer.Write` is the
source's drain. `Writer.WriteFlushing` is the same drain with the close
corrected, and its contract carries the property that `Write` lacks.
