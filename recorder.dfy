/**
 * The run-event recorder of Component.cs as functions on its state: one
 * function per handler (the MainLoop tick, OnStart, OnReset, OnSplit,
 * StartComponent, one poll of the loop) mapping the old state and the
 * host's and the game's readings to the new state and how the call ended.
 *
 * An exception that escapes a handler is an outcome, Raised, and the state
 * keeps every change made before the throw: the polling loop catches it and
 * carries on with that state.
 */
module Recorder {

  import opened Wrappers
  import opened RecapDocument
  import opened Scoreboard
  import TimeFormat

  /** Why a handler threw. */
  datatype Fault =
    | EmptyAttemptHistory  // AttemptHistory.Last() on a run with no attempts yet
    | NoDocument           // recapJson is still null
    | NameTooShort         // Substring(6) on a scene name shorter than "scene_"

  datatype Outcome = Completed | Raised(fault: Fault)

  /**
   * What the host timer reports: the current game time, in TimeSpan ticks,
   * and the index of the last attempt in the run's history, None when the
   * history is empty.
   */
  datatype Host = Host(gameTime: nat, lastAttemptIndex: Option<int>)

  /** One reading of the game's memory. levelTime is the scoring timer in hundredths. */
  datatype Probe = Probe(sceneName: string, isLoading: bool, levelTime: int, scoring: Readings)

  /**
   * The component's fields, plus recapFile: the contents of run_recap.rrc,
   * None while the file does not exist.
   */
  datatype State = State(
    isRunning: bool,
    isRunInProgress: bool,
    savedSceneData: bool,
    previousSceneName: string,
    board: ScoreboardData,
    segmentStartTime: Option<nat>,
    segmentEndTime: Option<nat>,
    recapJson: Option<Document>,
    recapFile: Option<Document>)

  datatype Step = Step(state: State, outcome: Outcome)

  const SceneWin: string := "scene_win"
  const SceneLevelPrefix: string := "scene_level"
  /** The sentinel OnStart and OnReset put in previousSceneName. */
  const NoScene: string := "none"
  /** Length of the "scene_" prefix that Substring(6) strips. */
  const PrefixLength: nat := 6

  /**
   * The component just constructed, with the file as found on disk: no loop,
   * no run, the latch clear, no document in memory and no segment times.
   */
  function Initial(file: Option<Document>): (s: State)
    ensures !s.isRunning && !s.isRunInProgress && !s.savedSceneData
    ensures s.recapJson.None? && s.recapFile == file && s.board == Scoreboard.Initial
    ensures s.segmentStartTime.None? && s.segmentEndTime.None? && s.previousSceneName == ""
  {
    State(false, false, false, "", Scoreboard.Initial, None, None, None, file)
  }

  predicate ValidProbe(p: Probe) { ValidReadings(p.scoring) }

  predicate StartsWith(s: string, prefix: string) {
    |prefix| <= |s| && s[..|prefix|] == prefix
  }

  /** The attempt id GetCurrentAttempt and CreateNewAttempt compute, None when Last() throws. */
  function AttemptId(h: Host): Option<int> {
    match h.lastAttemptIndex
    case None => None
    case Some(index) => Some(index + 1)
  }

  /** The record name: the scene name without its "scene_" prefix. */
  function Stripped(sceneName: string): (name: string)
    ensures |sceneName| >= PrefixLength ==> sceneName == sceneName[..PrefixLength] + name
  {
    if |sceneName| >= PrefixLength then sceneName[PrefixLength..] else ""
  }

  /** The saves of a tick with host h would append to an existing attempt. */
  predicate AttemptOpen(s: State, h: Host) {
    && AttemptId(h).Some?
    && s.recapJson.Some?
    && FindAttempt(s.recapJson.value.attempts, AttemptId(h).value).Some?
  }

  /**
   * How a save ends: it throws on an empty attempt history, then on a missing
   * document, then (only when the current attempt exists) on a name too short
   * for Substring(6); otherwise it completes.
   */
  predicate SaveEnds(s: State, h: Host, nameOk: bool, o: Outcome) {
    && (o == Raised(EmptyAttemptHistory) <==> AttemptId(h).None?)
    && (o == Raised(NoDocument) <==> AttemptId(h).Some? && s.recapJson.None?)
    && (o == Raised(NameTooShort) <==> AttemptOpen(s, h) && !nameOk)
  }

  /**
   * What a save leaves: the segment end time stamped and, when it completes
   * with the current attempt found, seg appended to that attempt and the
   * document written to the file. Nothing else changes.
   */
  predicate Saved(s: State, h: Host, seg: Segment, r: Step) {
    var stamped := s.(segmentEndTime := Some(h.gameTime));
    if r.outcome.Completed? && AttemptOpen(s, h) then
      var doc := AppendScene(s.recapJson.value, AttemptId(h).value, seg);
      r.state == stamped.(recapJson := Some(doc), recapFile := Some(doc))
    else
      r.state == stamped
  }

  /**
   * The common path of the three Save*Data methods: stamp SegmentEndTime,
   * look the current attempt up (returning quietly when there is none),
   * build the record (which throws when nameOk is false: Substring(6) on a
   * short name) and append it, then rewrite the whole file.
   */
  function Save(s: State, h: Host, nameOk: bool, seg: Segment): (r: Step)
    ensures SaveEnds(s, h, nameOk, r.outcome) && Saved(s, h, seg, r)
  {
    var s1 := s.(segmentEndTime := Some(h.gameTime));
    if AttemptId(h).None? then Step(s1, Raised(EmptyAttemptHistory))
    else if s1.recapJson.None? then Step(s1, Raised(NoDocument))
    else if FindAttempt(s1.recapJson.value.attempts, AttemptId(h).value).None? then Step(s1, Completed)
    else if !nameOk then Step(s1, Raised(NameTooShort))
    else
      var doc := AppendScene(s1.recapJson.value, AttemptId(h).value, seg);
      Step(s1.(recapJson := Some(doc), recapFile := Some(doc)), Completed)
  }

  /** SaveLevelData(sceneName): a level record with the scoring timer. */
  function SaveLevelData(s: State, sceneName: string, levelTime: int, h: Host): (r: Step)
    ensures SaveEnds(s, h, |sceneName| >= PrefixLength, r.outcome)
    ensures Saved(s, h, LevelRecord(Stripped(sceneName), levelTime, TimeFormat.FormatTime(h.gameTime)), r)
  {
    Save(s, h, |sceneName| >= PrefixLength,
         LevelRecord(Stripped(sceneName), levelTime, TimeFormat.FormatTime(h.gameTime)))
  }

  /** SaveScoreboardData: the scoreboard record built from the snapshot. */
  function SaveScoreboardData(s: State, h: Host): (r: Step)
    ensures SaveEnds(s, h, true, r.outcome) && r.outcome != Raised(NameTooShort)
    ensures Saved(s, h, Record(s.board, TimeFormat.FormatTime(h.gameTime)), r)
  {
    Save(s, h, true, Record(s.board, TimeFormat.FormatTime(h.gameTime)))
  }

  /** SaveGenericSceneData(sceneName): a record with only a name and an end time. */
  function SaveGenericSceneData(s: State, sceneName: string, h: Host): (r: Step)
    ensures SaveEnds(s, h, |sceneName| >= PrefixLength, r.outcome)
    ensures Saved(s, h, GenericRecord(Stripped(sceneName), TimeFormat.FormatTime(h.gameTime)), r)
  {
    Save(s, h, |sceneName| >= PrefixLength,
         GenericRecord(Stripped(sceneName), TimeFormat.FormatTime(h.gameTime)))
  }

  /** The three mutually exclusive actions of a tick, and doing nothing. */
  datatype Branch = EnterScoreboard | ExitScoreboard | GenericScene | NoBranch

  /** Which action a tick takes; the first matching test of MainLoop wins. */
  function Select(previousSceneName: string, savedSceneData: bool, sceneName: string, isLoading: bool): (b: Branch)
    ensures b == EnterScoreboard <==> isLoading && !savedSceneData && sceneName == SceneWin
    ensures b == ExitScoreboard <==>
      isLoading && !savedSceneData && sceneName != SceneWin && previousSceneName == SceneWin
    ensures b == GenericScene <==>
      isLoading && !savedSceneData && sceneName != SceneWin && previousSceneName != SceneWin
    ensures b == NoBranch <==> !isLoading || savedSceneData
  {
    if sceneName == SceneWin && isLoading && !savedSceneData then EnterScoreboard
    else if previousSceneName == SceneWin && isLoading && !savedSceneData then ExitScoreboard
    else if isLoading && !savedSceneData then GenericScene
    else NoBranch
  }

  /** The record a firing tick appends, by branch. */
  function TickRecord(s: State, p: Probe, h: Host): Segment {
    var stamp := TimeFormat.FormatTime(h.gameTime);
    match Select(s.previousSceneName, s.savedSceneData, p.sceneName, p.isLoading)
    case EnterScoreboard => LevelRecord(Stripped(s.previousSceneName), p.levelTime, stamp)
    case ExitScoreboard => Record(s.board, stamp)
    case _ => GenericRecord(Stripped(s.previousSceneName), stamp)
  }

  /** The scoreboard after a firing tick completes: snapshotted on entry, cleared on exit. */
  function TickBoard(s: State, p: Probe): ScoreboardData
    requires ValidProbe(p)
  {
    if p.sceneName == SceneWin then Store(s.board, p.scoring)
    else if s.previousSceneName == SceneWin then Cleared
    else s.board
  }

  /** The chosen action, up to setting the latch. */
  function Act(s: State, p: Probe, h: Host): Step
    requires ValidProbe(p)
  {
    match Select(s.previousSceneName, s.savedSceneData, p.sceneName, p.isLoading)
    case EnterScoreboard =>
      var r := SaveLevelData(s, s.previousSceneName, p.levelTime, h);
      if r.outcome.Raised? then r
      else Step(r.state.(board := Store(r.state.board, p.scoring), savedSceneData := true), Completed)
    case ExitScoreboard =>
      var r := SaveScoreboardData(s, h);
      if r.outcome.Raised? then r
      else Step(r.state.(board := Cleared, savedSceneData := true), Completed)
    case GenericScene =>
      var r := SaveGenericSceneData(s, s.previousSceneName, h);
      if r.outcome.Raised? then r
      else Step(r.state.(savedSceneData := true), Completed)
    case NoBranch => Step(s, Completed)
  }

  /**
   * MainLoop: take at most one action, then follow the loading flag:
   * remember the scene while loading, re-arm the latch otherwise.
   */
  function MainLoop(s: State, p: Probe, h: Host): (r: Step)
    requires ValidProbe(p)
    ensures !p.isLoading ==> r == Step(s.(savedSceneData := false), Completed)
    ensures p.isLoading && s.savedSceneData ==> r == Step(s.(previousSceneName := p.sceneName), Completed)
    ensures p.isLoading && !s.savedSceneData ==>
      var saved := Save(s, h, |s.previousSceneName| >= PrefixLength, TickRecord(s, p, h));
      && r.outcome == saved.outcome
      && r.state == if saved.outcome.Raised? then saved.state
                    else saved.state.(board := TickBoard(s, p), savedSceneData := true,
                                      previousSceneName := p.sceneName)
  {
    var r := Act(s, p, h);
    if r.outcome.Raised? then r
    else if p.isLoading then Step(r.state.(previousSceneName := p.sceneName), Completed)
    else Step(r.state.(savedSceneData := false), Completed)
  }

  /** One iteration of the polling loop: a tick while the game is hooked and a run is in progress. */
  function Poll(s: State, hooked: bool, p: Probe, h: Host): (r: State)
    requires ValidProbe(p)
    ensures !(hooked && s.isRunInProgress) ==> r == s
    ensures r.isRunning == s.isRunning && r.isRunInProgress == s.isRunInProgress
    ensures r.segmentStartTime == s.segmentStartTime
  {
    if hooked && s.isRunInProgress then MainLoop(s, p, h).state else s
  }

  /** StartComponent: the polling loop is started once. */
  function StartComponent(s: State): (r: State)
    ensures r.isRunning && r.(isRunning := s.isRunning) == s
  {
    if s.isRunning then s else s.(isRunning := true)
  }

  /**
   * OnStart: mark the run in progress with the latch set, load the file or
   * make a new document, add this attempt and save, then reset the scene.
   */
  function OnStart(s: State, h: Host): (r: Step)
    ensures r.state.isRunInProgress && r.state.savedSceneData
    ensures r.state.recapJson.Some? && r.state.isRunning == s.isRunning
    ensures AttemptId(h).None? ==>
      r == Step(s.(isRunInProgress := true, savedSceneData := true, recapJson := Some(LoadOrCreate(s.recapFile))),
                Raised(EmptyAttemptHistory))
    ensures AttemptId(h).Some? ==>
      var doc := r.state.recapJson.value;
      && r.outcome == Completed
      && r.state.recapFile == r.state.recapJson
      && r.state.previousSceneName == NoScene && r.state.segmentStartTime == Some(h.gameTime)
      && doc.version == LoadOrCreate(s.recapFile).version
      && doc.attempts == LoadOrCreate(s.recapFile).attempts + [Attempt(AttemptId(h).value, [])]
      && (s.recapFile.None? ==> doc == Document(TreeVersion, [Attempt(AttemptId(h).value, [])]))
      && r.state.board == s.board && r.state.segmentEndTime == s.segmentEndTime
  {
    var s1 := s.(isRunInProgress := true, savedSceneData := true,
                 recapJson := Some(LoadOrCreate(s.recapFile)));
    match AttemptId(h)
    case None => Step(s1, Raised(EmptyAttemptHistory))
    case Some(id) =>
      var doc := AddAttempt(s1.recapJson.value, id);
      Step(s1.(recapJson := Some(doc), recapFile := Some(doc), previousSceneName := NoScene,
               segmentStartTime := Some(h.gameTime)),
           Completed)
  }

  /** OnReset: stop recording, set the latch and forget the scene. */
  function OnReset(s: State): (r: State)
    ensures !r.isRunInProgress && r.savedSceneData && r.previousSceneName == NoScene
    ensures r.(isRunInProgress := s.isRunInProgress, savedSceneData := s.savedSceneData,
               previousSceneName := s.previousSceneName) == s
  {
    s.(isRunInProgress := false, savedSceneData := true, previousSceneName := NoScene)
  }

  /**
   * OnSplit: on the final split stop recording and close the last segment
   * with the scene being played: a level record inside a level, a generic
   * record anywhere else.
   */
  function OnSplit(s: State, currentSplitIndex: int, splitCount: int, p: Probe, h: Host): (r: Step)
    ensures currentSplitIndex < splitCount ==> r == Step(s, Completed)
    ensures currentSplitIndex >= splitCount ==>
      var stopped := s.(isRunInProgress := false);
      var stamp := TimeFormat.FormatTime(h.gameTime);
      && SaveEnds(stopped, h, |p.sceneName| >= PrefixLength, r.outcome)
      && Saved(stopped, h,
               if StartsWith(p.sceneName, SceneLevelPrefix) then LevelRecord(Stripped(p.sceneName), p.levelTime, stamp)
               else GenericRecord(Stripped(p.sceneName), stamp),
               r)
  {
    if currentSplitIndex >= splitCount then
      var s1 := s.(isRunInProgress := false);
      if StartsWith(p.sceneName, SceneLevelPrefix) then SaveLevelData(s1, p.sceneName, p.levelTime, h)
      else SaveGenericSceneData(s1, p.sceneName, h)
    else
      Step(s, Completed)
  }
}
