/**
 * What the recorder guarantees, and what it does not, over single ticks and
 * over whole streams of polls.
 */
module RecorderProperties {

  import opened Wrappers
  import opened RecapDocument
  import opened Scoreboard
  import opened Recorder
  import TimeFormat

  /** One iteration of the polling loop: whether the game is hooked, its memory, the timer. */
  datatype PollInput = PollInput(hooked: bool, probe: Probe, host: Host)

  predicate ValidInputs(inputs: seq<PollInput>) {
    forall i :: 0 <= i < |inputs| ==> ValidProbe(inputs[i].probe)
  }

  /** The state after polling through inputs in order. */
  function Run(s: State, inputs: seq<PollInput>): State
    requires ValidInputs(inputs)
    decreases |inputs|
  {
    if inputs == [] then s
    else Run(Poll(s, inputs[0].hooked, inputs[0].probe, inputs[0].host), inputs[1..])
  }

  /** Polling through inputs and then t is one more poll after the run through inputs. */
  lemma {:induction false} RunSnoc(s: State, inputs: seq<PollInput>, t: PollInput)
    requires ValidInputs(inputs) && ValidProbe(t.probe)
    ensures ValidInputs(inputs + [t])
    ensures Run(s, inputs + [t]) == Poll(Run(s, inputs), t.hooked, t.probe, t.host)
    decreases |inputs|
  {
    var all := inputs + [t];
    assert ValidInputs(all) by {
      forall i | 0 <= i < |all| ensures ValidProbe(all[i].probe) {
        if i < |inputs| { assert all[i] == inputs[i]; }
      }
    }
    if inputs == [] {
      assert all[1..] == [];
    } else {
      assert all[1..] == inputs[1..] + [t];
      RunSnoc(Poll(s, inputs[0].hooked, inputs[0].probe, inputs[0].host), inputs[1..], t);
    }
  }

  /**
   * Number of loading spans (maximal runs of polls with the loading flag set)
   * that start in inputs, given whether the poll before them was loading.
   */
  function SpansAfter(wasLoading: bool, inputs: seq<PollInput>): nat
    decreases |inputs|
  {
    if inputs == [] then 0
    else (if inputs[0].probe.isLoading && !wasLoading then 1 else 0)
         + SpansAfter(inputs[0].probe.isLoading, inputs[1..])
  }

  function LoadingSpans(inputs: seq<PollInput>): nat { SpansAfter(false, inputs) }

  /** Records in the in-memory document. */
  function Records(s: State): nat { DocumentSegments(s.recapJson) }

  /** The file, read back, is the document in memory. */
  predicate Durable(s: State) {
    s.recapJson.Some? ==> LoadOrCreate(s.recapFile) == s.recapJson.value
  }

  // ---------------------------------------------------------------- one tick

  /** A save adds at most one record, and adds one exactly when the attempt exists and it completes. */
  lemma SaveRecords(s: State, h: Host, nameOk: bool, seg: Segment)
    ensures var r := Save(s, h, nameOk, seg);
      Records(r.state) == Records(s) + (if r.outcome.Completed? && AttemptOpen(s, h) then 1 else 0)
  {
    if AttemptOpen(s, h) {
      AppendSceneCount(s.recapJson.value, AttemptId(h).value, seg);
    }
  }

  /**
   * A tick adds at most one record, and only when its action fires (loading,
   * latch clear) and completes.
   */
  lemma TickRecords(s: State, p: Probe, h: Host)
    requires ValidProbe(p)
    ensures var r := MainLoop(s, p, h);
      || Records(r.state) == Records(s)
      || (Records(r.state) == Records(s) + 1 && p.isLoading && !s.savedSceneData && r.outcome.Completed?)
  {
    var sel := Select(s.previousSceneName, s.savedSceneData, p.sceneName, p.isLoading);
    match sel
    case EnterScoreboard =>
      SaveRecords(s, h, |s.previousSceneName| >= PrefixLength,
                  LevelRecord(Stripped(s.previousSceneName), p.levelTime, TimeFormat.FormatTime(h.gameTime)));
    case ExitScoreboard =>
      SaveRecords(s, h, true, Record(s.board, TimeFormat.FormatTime(h.gameTime)));
    case GenericScene =>
      SaveRecords(s, h, |s.previousSceneName| >= PrefixLength,
                  GenericRecord(Stripped(s.previousSceneName), TimeFormat.FormatTime(h.gameTime)));
    case NoBranch =>
  }

  /**
   * A firing tick whose attempt exists and whose remembered scene carries the
   * "scene_" prefix appends its record at the end of that attempt, rewrites
   * the file, sets the latch and remembers the scene. Entering the scoreboard
   * closes the level and snapshots the scoring values; leaving it emits the
   * snapshot and clears it.
   */
  lemma TickAppendsRecord(s: State, p: Probe, h: Host)
    requires ValidProbe(p)
    requires p.isLoading && !s.savedSceneData && AttemptOpen(s, h)
    requires |s.previousSceneName| >= PrefixLength
    ensures var r := MainLoop(s, p, h);
      var doc := AppendScene(s.recapJson.value, AttemptId(h).value, TickRecord(s, p, h));
      && r.outcome == Completed
      && r.state.recapJson == Some(doc) && r.state.recapFile == Some(doc)
      && Records(r.state) == Records(s) + 1
      && r.state.savedSceneData && r.state.previousSceneName == p.sceneName
      && r.state.board == (if p.sceneName == SceneWin then Store(s.board, p.scoring)
                           else if s.previousSceneName == SceneWin then Cleared
                           else s.board)
  {
    var seg := TickRecord(s, p, h);
    SaveRecords(s, h, true, seg);
  }

  /**
   * The scoreboard round: the tick that sees the scoreboard load closes the
   * level and snapshots the scoring values, a tick on the scoreboard re-arms
   * the latch, and the tick that sees the next scene load appends the
   * snapshot as a scoreboard record and clears it. The attempt ends with the
   * level record and then a scoreboard record reporting "win", the bonus for
   * the hits, the parries and the meter chosen on entry.
   */
  lemma ScoreboardRound(s: State, enter: Probe, h1: Host, show: Probe, h2: Host, leave: Probe, h3: Host)
    requires ValidProbe(enter) && ValidProbe(show) && ValidProbe(leave)
    requires enter.isLoading && enter.sceneName == SceneWin && !show.isLoading
    requires leave.isLoading && leave.sceneName != SceneWin
    requires !s.savedSceneData && AttemptOpen(s, h1) && |s.previousSceneName| >= PrefixLength
    requires h3.lastAttemptIndex == h1.lastAttemptIndex
    ensures var s1 := MainLoop(s, enter, h1).state;
      var s2 := MainLoop(s1, show, h2).state;
      var r := MainLoop(s2, leave, h3);
      var i := FindAttempt(s.recapJson.value.attempts, AttemptId(h1).value).value;
      var sc := enter.scoring;
      && r.outcome == Completed
      && r.state.board == Cleared
      && r.state.recapJson.Some? && r.state.recapFile == r.state.recapJson
      && |r.state.recapJson.value.attempts| == |s.recapJson.value.attempts|
      && r.state.recapJson.value.attempts[i].scenes
         == s.recapJson.value.attempts[i].scenes
            + [LevelRecord(Stripped(s.previousSceneName), enter.levelTime, TimeFormat.FormatTime(h1.gameTime)),
               ScoreboardRecord("win", HpBonus(sc.hits), sc.parries,
                                if sc.useCoinsInsteadOfSuperMeter then Coins(sc.coins) else SuperMeter(sc.superMeter),
                                TimeFormat.FormatTime(h3.gameTime))]
      && Records(r.state) == Records(s) + 2
  {
    var id := AttemptId(h1).value;
    var doc0 := s.recapJson.value;
    var i := FindAttempt(doc0.attempts, id).value;
    TickAppendsRecord(s, enter, h1);
    var s1 := MainLoop(s, enter, h1).state;
    var level := LevelRecord(Stripped(s.previousSceneName), enter.levelTime, TimeFormat.FormatTime(h1.gameTime));
    assert TickRecord(s, enter, h1) == level;
    var doc1 := AppendScene(doc0, id, level);
    assert s1.recapJson == Some(doc1) && s1.board == Store(s.board, enter.scoring);
    assert doc1.attempts[i].scenes == doc0.attempts[i].scenes + [level];
    var s2 := MainLoop(s1, show, h2).state;
    assert s2 == s1.(savedSceneData := false);
    AppendSceneKeepsLookup(doc0, id, level, id);
    assert AttemptOpen(s2, h3);
    TickAppendsRecord(s2, leave, h3);
    var board := Record(Store(s.board, enter.scoring), TimeFormat.FormatTime(h3.gameTime));
    assert TickRecord(s2, leave, h3) == board;
    var doc2 := AppendScene(doc1, id, board);
    assert doc2.attempts[i].scenes == doc1.attempts[i].scenes + [board];
    assert doc2.attempts[i].scenes == doc0.attempts[i].scenes + [level, board];
  }

  /** A tick that is not loading, or finds the latch set, leaves the document alone. */
  lemma QuietTick(s: State, p: Probe, h: Host)
    requires ValidProbe(p)
    requires !p.isLoading || s.savedSceneData
    ensures MainLoop(s, p, h).state.recapJson == s.recapJson
    ensures MainLoop(s, p, h).state.savedSceneData == p.isLoading
  {
  }

  // ----------------------------------------------------------- whole streams

  lemma {:induction false} RecordsBoundedFrom(s: State, wasLoading: bool, inputs: seq<PollInput>)
    requires ValidInputs(inputs)
    ensures Records(Run(s, inputs))
            <= Records(s) + SpansAfter(wasLoading, inputs) + (if wasLoading && !s.savedSceneData then 1 else 0)
    decreases |inputs|
  {
    if inputs != [] {
      var t := inputs[0];
      var s1 := Poll(s, t.hooked, t.probe, t.host);
      if t.hooked && s.isRunInProgress {
        TickRecords(s, t.probe, t.host);
      }
      RecordsBoundedFrom(s1, t.probe.isLoading, inputs[1..]);
    }
  }

  /**
   * Never two records for one loading span: over any stream of polls the
   * document gains at most one record per loading span.
   */
  lemma {:induction false} RecordsBoundedBySpans(s: State, inputs: seq<PollInput>)
    requires ValidInputs(inputs)
    ensures Records(Run(s, inputs)) <= Records(s) + LoadingSpans(inputs)
  {
    RecordsBoundedFrom(s, false, inputs);
  }

  /** Once the latch is set, the rest of a loading span changes neither the latch nor the document. */
  lemma {:induction false} LatchedSpanIsQuiet(s: State, inputs: seq<PollInput>)
    requires ValidInputs(inputs) && s.savedSceneData
    requires forall i :: 0 <= i < |inputs| ==> inputs[i].probe.isLoading
    ensures Run(s, inputs).recapJson == s.recapJson && Run(s, inputs).savedSceneData
    decreases |inputs|
  {
    if inputs != [] {
      var t := inputs[0];
      if t.hooked && s.isRunInProgress {
      }
      LatchedSpanIsQuiet(Poll(s, t.hooked, t.probe, t.host), inputs[1..]);
    }
  }

  /**
   * Exactly one record for a loading span whose first poll runs a tick with
   * the latch clear, the attempt open and a remembered "scene_" name.
   */
  lemma {:induction false} SpanRecordsOnce(s: State, inputs: seq<PollInput>)
    requires ValidInputs(inputs) && |inputs| >= 1
    requires forall i :: 0 <= i < |inputs| ==> inputs[i].probe.isLoading
    requires inputs[0].hooked && s.isRunInProgress && !s.savedSceneData
    requires AttemptOpen(s, inputs[0].host) && |s.previousSceneName| >= PrefixLength
    ensures Records(Run(s, inputs)) == Records(s) + 1
  {
    var t := inputs[0];
    TickAppendsRecord(s, t.probe, t.host);
    LatchedSpanIsQuiet(Poll(s, t.hooked, t.probe, t.host), inputs[1..]);
  }

  /** Nothing is recorded, and nothing at all changes, while no run is in progress. */
  lemma {:induction false} IdleWithoutRun(s: State, inputs: seq<PollInput>)
    requires ValidInputs(inputs) && !s.isRunInProgress
    ensures Run(s, inputs) == s
  {
    if inputs != [] {
      IdleWithoutRun(s, inputs[1..]);
    }
  }

  /** After a reset the polls change nothing until the next start. */
  lemma {:induction false} ResetStopsRecording(s: State, inputs: seq<PollInput>)
    requires ValidInputs(inputs)
    ensures Run(OnReset(s), inputs) == OnReset(s)
    ensures OnReset(s).savedSceneData && OnReset(s).previousSceneName == NoScene
  {
    IdleWithoutRun(OnReset(s), inputs);
  }

  // ----------------------------------------------- the "none" scene sentinel

  /** One poll in the sentinel condition: it throws or re-arms, and the condition stays. */
  lemma SentinelPoll(s: State, t: PollInput)
    requires ValidProbe(t.probe)
    requires s.previousSceneName == NoScene && !s.savedSceneData && AttemptOpen(s, t.host)
    ensures var s1 := Poll(s, t.hooked, t.probe, t.host);
      s1.recapJson == s.recapJson && s1.previousSceneName == NoScene && !s1.savedSceneData
  {
    if t.hooked && s.isRunInProgress {
      if t.probe.isLoading {
      }
    }
  }

  /**
   * With the sentinel "none" remembered, the latch clear and the attempt
   * open, every firing tick throws in Substring(6) before it can remember the
   * new scene, so the recorder stays in that condition: no poll ever adds a
   * record.
   */
  lemma {:induction false} SentinelBlocksRecording(s: State, inputs: seq<PollInput>)
    requires ValidInputs(inputs)
    requires s.previousSceneName == NoScene && !s.savedSceneData
    requires forall i :: 0 <= i < |inputs| ==> AttemptOpen(s, inputs[i].host)
    ensures Run(s, inputs).recapJson == s.recapJson
    ensures Run(s, inputs).previousSceneName == NoScene
    decreases |inputs|
  {
    if inputs != [] {
      var t := inputs[0];
      SentinelPoll(s, t);
      var s1 := Poll(s, t.hooked, t.probe, t.host);
      assert forall i :: 0 <= i < |inputs[1..]| ==> AttemptOpen(s1, inputs[1..][i].host) by {
        forall i | 0 <= i < |inputs[1..]| ensures AttemptOpen(s1, inputs[1..][i].host) {
          assert AttemptOpen(s, inputs[i + 1].host);
        }
      }
      SentinelBlocksRecording(s1, inputs[1..]);
    }
  }

  /** OnStart leaves the attempt it adds open for the polls that follow. */
  lemma StartOpensAttempt(s: State, h: Host)
    requires AttemptId(h).Some?
    ensures AttemptOpen(OnStart(s, h).state, h)
  {
    var doc := LoadOrCreate(s.recapFile);
    var id := AttemptId(h).value;
    if FindAttempt(doc.attempts, id).None? {
      NewAttemptIsCurrent(doc, id);
    } else {
      EarlierAttemptShadowsNew(doc, id, FindAttempt(doc.attempts, id).value);
    }
  }

  /**
   * If the first poll after a successful OnStart is not a loading poll, the
   * latch is re-armed while "none" is still remembered, and no later poll of
   * the attempt (same attempt index) ever adds a record.
   */
  lemma {:induction false} UnarmedStartRecordsNothing(s: State, h: Host, first: PollInput, inputs: seq<PollInput>)
    requires AttemptId(h).Some? && ValidProbe(first.probe) && ValidInputs(inputs)
    requires first.hooked && !first.probe.isLoading
    requires forall i :: 0 <= i < |inputs| ==> inputs[i].host.lastAttemptIndex == h.lastAttemptIndex
    ensures Run(Poll(OnStart(s, h).state, first.hooked, first.probe, first.host), inputs).recapJson
            == OnStart(s, h).state.recapJson
  {
    var started := OnStart(s, h).state;
    StartOpensAttempt(s, h);
    var s1 := Poll(started, first.hooked, first.probe, first.host);
    forall i | 0 <= i < |inputs| ensures AttemptOpen(s1, inputs[i].host) {
      assert AttemptId(inputs[i].host) == AttemptId(h);
    }
    SentinelBlocksRecording(s1, inputs);
  }

  // ------------------------------------------------------ lifecycle handlers

  /**
   * The final split stops recording and closes the segment with the scene
   * being played: a level record (without "scene_") inside a "scene_level"
   * scene, a generic record elsewhere; a split before the last does nothing.
   */
  lemma FinalSplitClosesSegment(s: State, currentSplitIndex: int, splitCount: int, p: Probe, h: Host)
    requires AttemptOpen(s, h) && |p.sceneName| >= PrefixLength
    ensures var r := OnSplit(s, currentSplitIndex, splitCount, p, h);
      var stamp := TimeFormat.FormatTime(h.gameTime);
      var seg := if StartsWith(p.sceneName, SceneLevelPrefix)
                 then LevelRecord(p.sceneName[PrefixLength..], p.levelTime, stamp)
                 else GenericRecord(p.sceneName[PrefixLength..], stamp);
      && (currentSplitIndex < splitCount ==> r == Step(s, Completed))
      && (currentSplitIndex >= splitCount ==>
            && r.outcome == Completed && !r.state.isRunInProgress
            && r.state.recapJson == Some(AppendScene(s.recapJson.value, AttemptId(h).value, seg))
            && r.state.recapFile == r.state.recapJson
            && Records(r.state) == Records(s) + 1)
  {
    if currentSplitIndex >= splitCount {
      var stamp := TimeFormat.FormatTime(h.gameTime);
      var seg := if StartsWith(p.sceneName, SceneLevelPrefix)
                 then LevelRecord(p.sceneName[PrefixLength..], p.levelTime, stamp)
                 else GenericRecord(p.sceneName[PrefixLength..], stamp);
      var s1 := s.(isRunInProgress := false);
      assert AttemptOpen(s1, h);
      SaveRecords(s1, h, true, seg);
    }
  }

  // -------------------------------------------------------------- durability

  lemma SaveKeepsDurable(s: State, h: Host, nameOk: bool, seg: Segment)
    requires Durable(s)
    ensures Durable(Save(s, h, nameOk, seg).state)
  {
  }

  /** Every edit of a tick is followed by a save of the whole document. */
  lemma TickKeepsDurable(s: State, p: Probe, h: Host)
    requires Durable(s) && ValidProbe(p)
    ensures Durable(MainLoop(s, p, h).state)
  {
    var sel := Select(s.previousSceneName, s.savedSceneData, p.sceneName, p.isLoading);
    if sel != NoBranch {
      SaveKeepsDurable(s, h, sel == ExitScoreboard || |s.previousSceneName| >= PrefixLength, TickRecord(s, p, h));
    }
  }

  /** OnStart leaves the file equal to the document in memory, whatever state it starts from. */
  lemma StartIsDurable(s: State, h: Host)
    ensures Durable(OnStart(s, h).state)
  {
  }

  /** The final split's record is saved with the rest of the document. */
  lemma SplitKeepsDurable(s: State, currentSplitIndex: int, splitCount: int, p: Probe, h: Host)
    requires Durable(s)
    ensures Durable(OnSplit(s, currentSplitIndex, splitCount, p, h).state)
  {
    if currentSplitIndex >= splitCount {
      var stamp := TimeFormat.FormatTime(h.gameTime);
      var s1 := s.(isRunInProgress := false);
      if StartsWith(p.sceneName, SceneLevelPrefix) {
        SaveKeepsDurable(s1, h, |p.sceneName| >= PrefixLength,
                         LevelRecord(Stripped(p.sceneName), p.levelTime, stamp));
      } else {
        SaveKeepsDurable(s1, h, |p.sceneName| >= PrefixLength, GenericRecord(Stripped(p.sceneName), stamp));
      }
    }
  }

  lemma InitialIsDurable(file: Option<Document>)
    ensures Durable(Recorder.Initial(file)) && Records(Recorder.Initial(file)) == 0
    ensures !Recorder.Initial(file).isRunInProgress
  {
  }
}
