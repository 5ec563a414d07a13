# Cuphead Run Recap: the run-event recorder

This project models the recorder at the heart of the Cuphead Run Recap
LiveSplit component (`CupheadRunRecap/Component.cs`). While a run is in
progress, the component polls the game about 120 times a second for the current
scene name and the loading flag. It turns that stream into an append-only list
of segment records. Each attempt of the run gets an entry in a recap document,
`run_recap.rrc`, and each segment gets a record in that entry:

- a level record when the scoreboard starts loading;
- a scoreboard record (hp bonus, parries, and the super meter or the coins)
  when the scoreboard is left;
- a generic record for any other scene change.

The whole document is written back to the file after every change.

The project has these files:

- `wrappers.dfy`: `Option`.
- `time_format.dfy` (`TimeFormat`): `FormatTime` on a TimeSpan given as a
  count of 100 ns ticks, and its inverse `ParseTime`.
- `recap_document.dfy` (`RecapDocument`): the document and its records, the
  `FirstOrDefault` lookup of the current attempt, and the two edits the
  component makes (add an attempt, append a record).
- `scoreboard.dfy` (`Scoreboard`): the scoreboard snapshot, the `hpBonus`
  expression in 32-bit arithmetic, and the scoreboard record.
- `recorder.dfy` (`Recorder`): the specification. It has one function per
  handler, from the component's state and the readings of the host and the
  game to the new state and an outcome, `Completed` or `Raised(fault)`.
- `recorder_properties.dfy` (`RecorderProperties`): what the recorder
  guarantees.
  - One tick: the latch, branch priority, and one record per firing tick.
  - Whole streams of polls: at most one record per loading span, nothing
    recorded between a reset and the next start, and the file always equal
    to the document in memory.
  - The "none" sentinel, described below.
- `component.dfy` (`CupheadRunRecap.Component`): the class. Its fields and
  methods are those of the C# component. Each method is proved to change the
  fields exactly as its `Recorder` function says.

The readings come in as parameters:

- from the game's memory: scene name, loading flag, scoring values;
- from LiveSplit: the game time, the last attempt's index, the split index and
  the split count.

The file is the field `recapFile`: `None` while it does not exist, otherwise
the document it holds.

Exceptions are outcomes. A handler that throws in C# returns `Raised` and
keeps every field change it made before the throw. The polling loop
(`Component.cs:145-154`) catches the exception, and so does `PollOnce`. Three
faults are possible:

- `AttemptHistory.Last()` on an empty history;
- a null `recapJson`;
- `Substring(6)` on a scene name shorter than `"scene_"`.

### The "none" sentinel

`OnStart` and `OnReset` set `previousSceneName` to `"none"`, which has four
characters. Suppose the first tick after a start is not a loading tick. It
re-arms the latch while `"none"` is still remembered. The next loading tick
then fires a save with the name `"none"`. `Substring(6)` throws
before `previousSceneName` is updated (lines 206, 296 and 214), so the next
loading tick throws the same way.

As written, no poll of that attempt adds a record. Every save still stamps
`SegmentEndTime`. The lemmas `SentinelBlocksRecording` and
`UnarmedStartRecordsNothing` prove this. `OnSplit` is different: it names
its record after the scene being played (lines 336, 340 and 345), not after
the remembered one, so the final split's record still reaches the attempt.
The expected flow is a start, some menu or map time, then levels recorded
one after another. In the code, that flow records no segment until the
final split unless the very first poll after the start is already a
loading poll. The model follows the code.

The lookup of the current attempt matches on `id == index + 1` and takes the
first match. If the file already holds an attempt with that id, for example
from another run definition, every later save goes to that older attempt. The
attempt just added stays empty (`EarlierAttemptShadowsNew`).

## Model

| member | source | states |
|---|---|---|
| TimeFormat.FormatTime | CupheadRunRecap/Component.cs:303-306 | a stamp has 12 characters, ':' at positions 2 and 5, '.' at 8, and a digit everywhere else |
| TimeFormat.FormatTimeShape | CupheadRunRecap/Component.cs:303-306 | every stamp has 12 characters, "HH:MM:SS.mmm", and its digit fields read back as the TimeSpan's Hours, Minutes, Seconds and Milliseconds |
| TimeFormat.PadDecimalExact | CupheadRunRecap/Component.cs:305 | the "D2"/"D3" format of a number below 10^width has exactly width digits and denotes the number |
| TimeFormat.ParseFormatTime | CupheadRunRecap/Component.cs:303-306 | round trip: parsing a formatted stamp gives the millisecond of the day of the span |
| TimeFormat.FormatTimeDropsDays | CupheadRunRecap/Component.cs:303-306 | whole days do not appear in the stamp: a span one day longer gets the same stamp |
| TimeFormat.FormatTimeExample | CupheadRunRecap/Component.cs:303-306 | 1 h 2 min 3 s 4 ms is stamped "01:02:03.004" |
| RecapDocument.LoadOrCreate | CupheadRunRecap/Component.cs:76-90 | the stored document when the file exists, else version "v0.2" with no attempts |
| RecapDocument.FindAttempt | CupheadRunRecap/Component.cs:92-98 | the position of the first attempt whose id matches, no earlier match; None exactly when no attempt matches |
| RecapDocument.AppendScene | CupheadRunRecap/Component.cs:225-236 | the record goes at the end of the current attempt's scenes, every other attempt and the version are unchanged, and without a current attempt the document is unchanged |
| RecapDocument.AppendSceneCount | CupheadRunRecap/Component.cs:235 | an append adds exactly one record when the attempt exists and none otherwise |
| RecapDocument.AddAttempt | CupheadRunRecap/Component.cs:104-110 | the version and the existing attempts are kept, and one attempt with the given id and no scenes is added at the end |
| RecapDocument.AppendSceneKeepsLookup | CupheadRunRecap/Component.cs:92-98 | appending a record keeps every attempt id, so the lookup of any id finds the same attempt afterwards |
| RecapDocument.AddAttemptCount | CupheadRunRecap/Component.cs:100-114 | a new attempt holds no records |
| RecapDocument.NewAttemptIsCurrent | CupheadRunRecap/Component.cs:92-114 | with no earlier attempt of the same id, the attempt just added is the one the lookup finds |
| RecapDocument.EarlierAttemptShadowsNew | CupheadRunRecap/Component.cs:92-114 | with an earlier attempt of the same id, the lookup keeps finding that one, never the new one |
| Scoreboard.HpBonus | CupheadRunRecap/Component.cs:243 | the bonus stays a 32-bit int |
| Scoreboard.HpBonusIsMissingHits | CupheadRunRecap/Component.cs:243 | the bonus is max(0, 3 - hits) when 3 - hits fits in an int, so 0..3 for a hit count of 0 or more |
| Scoreboard.HpBonusWrapsAtMinimum | CupheadRunRecap/Component.cs:243 | for the four hit counts from int.MinValue to -2147483645 the unchecked subtraction wraps to a negative bonus; the next count gives int.MaxValue |
| Scoreboard.Store | CupheadRunRecap/Component.cs:238-248 | the snapshot names the level "win", keeps levelTime, gives a bonus of max(0, 3 - hits) (0..3) for a hit count of 0 or more, and copies parries, both meters and the coins flag |
| Scoreboard.Record | CupheadRunRecap/Component.cs:249-276 | a scoreboard record with the snapshot's level, bonus and parries and the given end time; its meter is the coins exactly when the coins flag is set, else the super meter |
| Scoreboard.RecordHasOneMeter | CupheadRunRecap/Component.cs:256-272 | a scoreboard record has name, hp, parries, endTime, and exactly one of coins (iff the coins flag is set) and superMeter |
| Recorder.Initial | CupheadRunRecap/Component.cs:52-74 | the constructed component has no loop, no run, the latch clear, no document in memory, no segment times, the default scoreboard, and the file as found |
| Recorder.StartComponent | CupheadRunRecap/Component.cs:121-124 | the loop is marked running and nothing else changes |
| Recorder.Stripped | CupheadRunRecap/Component.cs:230 | for a name of at least six characters the record name is what follows the "scene_" prefix |
| Recorder.Save | CupheadRunRecap/Component.cs:221-237 | a save always stamps the end time; it raises on an empty history, then on a missing document, returns quietly without a current attempt, raises on a short name, and otherwise appends the record to the current attempt and writes the file; nothing else changes |
| Recorder.SaveLevelData | CupheadRunRecap/Component.cs:221-237 | as Save, with a level record named after the scene without "scene_", the scoring timer and the stamp; it raises on a short name exactly when the attempt exists |
| Recorder.SaveScoreboardData | CupheadRunRecap/Component.cs:249-276 | as Save, with the record of the snapshot; it never raises on the name |
| Recorder.SaveGenericSceneData | CupheadRunRecap/Component.cs:287-302 | as Save, with a generic record named after the scene without "scene_"; it raises on a short name exactly when the attempt exists |
| Recorder.Select | CupheadRunRecap/Component.cs:178-208 | branch priority: entry iff loading, latch clear, scene "scene_win"; exit iff that fails only because the scene is another and the previous scene was "scene_win"; generic iff loading and latch clear otherwise; nothing iff not loading or latch set |
| Recorder.MainLoop | CupheadRunRecap/Component.cs:172-220 | a non-loading tick only clears the latch; a loading tick with the latch set only remembers the scene; a firing tick saves the branch's record; if the save throws, only its end-time stamp remains, otherwise the latch is set, the scene remembered and the scoreboard snapshotted on entry or cleared on exit |
| Recorder.Poll | CupheadRunRecap/Component.cs:145-154 | without the game hooked or a run in progress a poll changes nothing; no poll changes the running flags or the segment start time |
| Recorder.OnStart | CupheadRunRecap/Component.cs:315-327 | a start sets the run in progress and the latch, loads or creates the document, appends one empty attempt with id = index + 1, writes the file, sets "none" and the segment start; with an empty history it throws after loading, with nothing else changed |
| Recorder.OnReset | CupheadRunRecap/Component.cs:308-312 | a reset stops the run, sets the latch and remembers "none"; nothing else changes |
| Recorder.OnSplit | CupheadRunRecap/Component.cs:330-348 | a split before the last changes nothing; the final split stops the run and saves a level record for a "scene_level" scene being played, a generic one otherwise |
| RecorderProperties.SaveRecords | CupheadRunRecap/Component.cs:221-302 | a save adds one record exactly when it completes with the attempt open, none otherwise |
| RecorderProperties.TickRecords | CupheadRunRecap/Component.cs:172-220 | a tick adds at most one record, and only a firing, completing tick adds one |
| RecorderProperties.TickAppendsRecord | CupheadRunRecap/Component.cs:178-219 | a firing tick with the attempt open appends the branch's record, writes the file, sets the latch and, by branch, snapshots, clears or keeps the scoreboard |
| RecorderProperties.ScoreboardRound | CupheadRunRecap/Component.cs:178-192 | entering the scoreboard, one tick on it and leaving it add to the attempt the level record and then a scoreboard record with "win", the bonus for the hits, the parries and the meter read on entry, and clear the snapshot |
| RecorderProperties.QuietTick | CupheadRunRecap/Component.cs:203-219 | a tick that is not loading, or finds the latch set, leaves the document alone and sets the latch to the loading flag |
| RecorderProperties.RunSnoc | CupheadRunRecap/Component.cs:141-164 | polling through a stream and then one more input is one more poll |
| RecorderProperties.RecordsBoundedFrom | CupheadRunRecap/Component.cs:172-220 | the induction behind the span bound, from any point of a stream |
| RecorderProperties.RecordsBoundedBySpans | CupheadRunRecap/Component.cs:172-220 | over any stream of polls the document gains at most one record per loading span |
| RecorderProperties.LatchedSpanIsQuiet | CupheadRunRecap/Component.cs:178-219 | once the latch is set, the rest of a loading span keeps it set and changes no record |
| RecorderProperties.SpanRecordsOnce | CupheadRunRecap/Component.cs:178-219 | a loading span whose first poll fires with the attempt open and a "scene_" name yields exactly one record |
| RecorderProperties.IdleWithoutRun | CupheadRunRecap/Component.cs:147-150 | while no run is in progress the polls change nothing |
| RecorderProperties.ResetStopsRecording | CupheadRunRecap/Component.cs:308-312 | after a reset the latch is set, the scene is "none", and the polls change nothing until the next start |
| RecorderProperties.SentinelPoll | CupheadRunRecap/Component.cs:206-219 | with "none" remembered and the latch clear, a poll throws or re-arms and the condition stays |
| RecorderProperties.SentinelBlocksRecording | CupheadRunRecap/Component.cs:296 | in that condition no later poll adds a record and "none" stays remembered |
| RecorderProperties.StartOpensAttempt | CupheadRunRecap/Component.cs:315-327 | after a start the attempt for the host's index exists |
| RecorderProperties.UnarmedStartRecordsNothing | CupheadRunRecap/Component.cs:311-324 | if the first poll after a start is not loading, no later poll of that attempt adds a record |
| RecorderProperties.FinalSplitClosesSegment | CupheadRunRecap/Component.cs:330-348 | the final split stops recording and appends a level record in a "scene_level" scene, a generic one elsewhere; earlier splits do nothing |
| RecorderProperties.SaveKeepsDurable | CupheadRunRecap/Component.cs:116-119 | after a save the file holds the document in memory |
| RecorderProperties.TickKeepsDurable | CupheadRunRecap/Component.cs:172-302 | every change a tick makes to the document is written to the file |
| RecorderProperties.StartIsDurable | CupheadRunRecap/Component.cs:315-327 | after a start the file holds the document in memory |
| RecorderProperties.SplitKeepsDurable | CupheadRunRecap/Component.cs:330-348 | the final split's record is written with the rest of the document |
| RecorderProperties.InitialIsDurable | CupheadRunRecap/Component.cs:52-74 | a new component keeps the file invariant, holds no records and has no run in progress |
| CupheadRunRecap.Component.constructor | CupheadRunRecap/Component.cs:52-74 | the defaults, then StartComponent |
| CupheadRunRecap.Component.StartComponent | CupheadRunRecap/Component.cs:121-124 | the loop is started once; a second call changes nothing |
| CupheadRunRecap.Component.LoadOrCreateJson | CupheadRunRecap/Component.cs:76-90 | only the document in memory changes, to the loaded or new one |
| CupheadRunRecap.Component.SaveJson | CupheadRunRecap/Component.cs:116-119 | the file becomes the document; nothing else changes |
| CupheadRunRecap.Component.GetCurrentAttempt | CupheadRunRecap/Component.cs:92-98 | raises on an empty history or a missing document, otherwise the first attempt with id = index + 1, or none |
| CupheadRunRecap.Component.CreateNewAttempt | CupheadRunRecap/Component.cs:100-114 | one empty attempt with id = index + 1 at the end, written to the file; raises and changes nothing otherwise |
| CupheadRunRecap.Component.AppendToAttempt | CupheadRunRecap/Component.cs:235-236 | the record is added at the end of that attempt's scenes and the file is rewritten |
| CupheadRunRecap.Component.SaveLevelData | CupheadRunRecap/Component.cs:221-237 | the fields change as Recorder.SaveLevelData says |
| CupheadRunRecap.Component.StoreScoreboardData | CupheadRunRecap/Component.cs:238-248 | only the scoreboard fields change, to the snapshot of the readings |
| CupheadRunRecap.Component.SaveScoreboardData | CupheadRunRecap/Component.cs:249-276 | the fields change as Recorder.SaveScoreboardData says |
| CupheadRunRecap.Component.ClearScoreboardData | CupheadRunRecap/Component.cs:277-286 | only the scoreboard fields change, to "", 0, 3, 0, 0, 0, false |
| CupheadRunRecap.Component.SaveGenericSceneData | CupheadRunRecap/Component.cs:287-302 | the fields change as Recorder.SaveGenericSceneData says |
| CupheadRunRecap.Component.MainLoop | CupheadRunRecap/Component.cs:172-220 | the fields change as Recorder.MainLoop says, and the file stays equal to the document |
| CupheadRunRecap.Component.PollOnce | CupheadRunRecap/Component.cs:145-154 | a tick runs only when hooked and a run is in progress; its exception is absorbed |
| CupheadRunRecap.Component.PollLoop | CupheadRunRecap/Component.cs:141-164 | the loop's polls leave the state RecorderProperties.Run gives, and keep the file equal to the document |
| CupheadRunRecap.Component.OnReset | CupheadRunRecap/Component.cs:308-312 | the fields change as Recorder.OnReset says |
| CupheadRunRecap.Component.OnStart | CupheadRunRecap/Component.cs:315-327 | the fields change as Recorder.OnStart says, and the file equals the document afterwards |
| CupheadRunRecap.Component.OnSplit | CupheadRunRecap/Component.cs:330-348 | the fields change as Recorder.OnSplit says, and the file stays equal to the document |

## Left out

- The background task, the `Stopwatch` pacing and `Thread.Sleep` (lines
  135-170) are concurrency and timing. `PollLoop` models the loop as a finite
  sequence of polls. The loop never ends in C#, because nothing clears
  `isRunning`.
- Reading the game's memory (`MemoryManager`, pointer paths) is modelled only
  by its results, which come in as a `Probe`. LiveSplit's timer state comes in
  as a `Host` and as the split index and count.
- JSON parsing and serialisation, and file I/O. The file is a field holding a
  document, and a write replaces it whole. A malformed or unreadable file,
  which makes `JObject.Parse` or the file calls throw, is not modelled.
- The JSON `levelTime` is `Math.Truncate(time * 100) / 100` as a float printed
  with "F2" (line 231). This is floating point and culture formatting, so the
  probe supplies the value as whole hundredths. The float field `levelTime` is
  never assigned except by `ClearScoreboardData` and is modelled as an int.
- `Recorder.AttemptId` computes `Index + 1` unbounded. The 32-bit overflow at
  `int.MaxValue` is not modelled.
- A null `GameTime` is not modelled (the game time is a natural number of
  ticks), and neither are whole days beyond the `TimeSpan.Hours` component
  (`FormatTimeDropsDays` shows they are dropped).
- The initial null `previousSceneName` is written as the empty string. Both
  make `Substring(6)` throw.
- The initial null `level` is also written as the empty string
  (`Scoreboard.Initial`). In C# a scoreboard record built before any
  snapshot carries `"name": null` (line 258); the model gives it `""`.
- Logging (`LogManager`), the settings UI and XML settings
  (`ComponentSettings`), the registry and shell icon setup
  (`FileTypeRegister`), the host factory (`Factory.cs`), the drawing and size
  members, and the pause/resume/undo/skip handlers. These handlers have empty
  bodies.
- Schema migration, star-skip deltas, difficulty tracking, a sub-boss phase
  rule, attempt ids derived from positions, omission of zero fields, and
  atomic write-then-rename. `Component.cs` does not implement any of these.
- RecorderProperties.RecordsBoundedBySpans: holds only because in the model
  writes and memory reads never fail. In C# a throwing `File.WriteAllText`
  (line 118) leaves the record appended in memory (lines 235, 274, 300)
  while `savedSceneData = true` (lines 183, 191, 207) and line 214 are
  skipped. The next loading tick then appends the record again. A memory
  read that throws in `StoreScoreboardData` (lines 242-247) does the same.
- The JSON objects are edited in place and aliased (the attempt returned by
  `GetCurrentAttempt` is a reference into the document). The model replaces
  the document value instead, and `GetCurrentAttempt` returns the attempt's
  position.
