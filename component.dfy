/**
 * The Component class of CupheadRunRecap: the recorder's fields, updated in
 * place by its handlers, each proved against the function of the Recorder
 * module that specifies it.
 *
 * A handler that would throw returns Raised(fault) as its outcome and stops
 * where the exception would have left it; the caller passes the outcome on,
 * as C# unwinds, and the polling loop absorbs it.
 */
module CupheadRunRecap {

  import opened Wrappers
  import opened RecapDocument
  import opened Scoreboard
  import Recorder
  import RecorderProperties
  import TimeFormat

  class Component {
    var isRunning: bool
    var isRunInProgress: bool
    var savedSceneData: bool
    var previousSceneName: string

    var level: string
    var levelTime: int
    var hpBonus: int
    var parries: int
    var superMeter: int
    var coins: int
    var useCoinsInsteadOfSuperMeter: bool

    var segmentStartTime: Option<nat>
    var segmentEndTime: Option<nat>

    var recapJson: Option<Document>
    /** The contents of run_recap.rrc; None while the file does not exist. */
    var recapFile: Option<Document>

    function Board(): ScoreboardData
      reads this
    {
      ScoreboardData(level, levelTime, hpBonus, parries, superMeter, coins, useCoinsInsteadOfSuperMeter)
    }

    /** The fields as one value of the specification. */
    function State(): Recorder.State
      reads this
    {
      Recorder.State(isRunning, isRunInProgress, savedSceneData, previousSceneName, Board(),
                     segmentStartTime, segmentEndTime, recapJson, recapFile)
    }

    /** The file on disk, read back, is the document in memory. */
    predicate Valid()
      reads this
    {
      RecorderProperties.Durable(State())
    }

    /** The constructor sets the defaults and starts the polling loop. */
    constructor (file: Option<Document>)
      ensures State() == Recorder.StartComponent(Recorder.Initial(file))
      ensures Valid() && isRunning && !isRunInProgress
    {
      isRunning := false;
      isRunInProgress := false;
      savedSceneData := false;
      previousSceneName := "";
      level, levelTime, hpBonus, parries := "", 0, 0, 0;
      superMeter, coins, useCoinsInsteadOfSuperMeter := 0, 0, false;
      segmentStartTime, segmentEndTime := None, None;
      recapJson := None;
      recapFile := file;
      new;
      StartComponent();
    }

    /** StartComponent: the loop is started once; a second call does nothing. */
    method StartComponent()
      modifies this
      ensures State() == Recorder.StartComponent(old(State()))
      ensures isRunning
    {
      if isRunning {
        return;
      }
      isRunning := true;
    }

    /** LoadOrCreateJson: the stored document, or a new empty "v0.2" one without a file. */
    method LoadOrCreateJson()
      modifies this
      ensures State() == old(State()).(recapJson := Some(LoadOrCreate(recapFile)))
    {
      match recapFile
      case Some(stored) =>
        recapJson := Some(stored);
      case None =>
        recapJson := Some(Document(TreeVersion, []));
    }

    /** SaveJson: the whole document is written over the file. */
    method SaveJson()
      requires recapJson.Some?
      modifies this
      ensures State() == old(State()).(recapFile := recapJson)
      ensures Valid()
    {
      recapFile := recapJson;
    }

    /**
     * GetCurrentAttempt: the position of the first attempt whose id is the
     * last history index + 1. Last() throws on an empty history, and the
     * lookup throws while there is no document.
     */
    method GetCurrentAttempt(h: Recorder.Host) returns (outcome: Recorder.Outcome, attempt: Option<nat>)
      ensures h.lastAttemptIndex.None? ==> outcome == Recorder.Raised(Recorder.EmptyAttemptHistory)
      ensures h.lastAttemptIndex.Some? && recapJson.None? ==> outcome == Recorder.Raised(Recorder.NoDocument)
      ensures outcome.Completed? <==> h.lastAttemptIndex.Some? && recapJson.Some?
      ensures outcome.Completed? ==>
        var attempts := recapJson.value.attempts;
        var id := h.lastAttemptIndex.value + 1;
        && (attempt.Some? ==> attempt.value < |attempts| && attempts[attempt.value].id == id
                              && forall j :: 0 <= j < attempt.value ==> attempts[j].id != id)
        && (attempt.None? ==> forall j :: 0 <= j < |attempts| ==> attempts[j].id != id)
    {
      attempt := None;
      if h.lastAttemptIndex.None? {
        return Recorder.Raised(Recorder.EmptyAttemptHistory), None;
      }
      var id := h.lastAttemptIndex.value + 1;
      if recapJson.None? {
        return Recorder.Raised(Recorder.NoDocument), None;
      }
      attempt := FindAttempt(recapJson.value.attempts, id);
      outcome := Recorder.Completed;
    }

    /** CreateNewAttempt: an attempt with the next id and no scenes is added at the end and saved. */
    method CreateNewAttempt(h: Recorder.Host) returns (outcome: Recorder.Outcome)
      modifies this
      ensures h.lastAttemptIndex.None? ==>
        State() == old(State()) && outcome == Recorder.Raised(Recorder.EmptyAttemptHistory)
      ensures h.lastAttemptIndex.Some? && old(recapJson).None? ==>
        State() == old(State()) && outcome == Recorder.Raised(Recorder.NoDocument)
      ensures h.lastAttemptIndex.Some? && old(recapJson).Some? ==>
        var doc := AddAttempt(old(recapJson).value, h.lastAttemptIndex.value + 1);
        State() == old(State()).(recapJson := Some(doc), recapFile := Some(doc)) && outcome.Completed?
    {
      if h.lastAttemptIndex.None? {
        return Recorder.Raised(Recorder.EmptyAttemptHistory);
      }
      var id := h.lastAttemptIndex.value + 1;
      if recapJson.None? {
        return Recorder.Raised(Recorder.NoDocument);
      }
      var doc := recapJson.value;
      recapJson := Some(doc.(attempts := doc.attempts + [Attempt(id, [])]));
      SaveJson();
      outcome := Recorder.Completed;
    }

    /**
     * Appends seg to the scenes of the attempt at position index of the
     * document and saves: the shared tail of the three Save*Data methods.
     */
    method AppendToAttempt(index: nat, seg: Segment)
      requires recapJson.Some? && index < |recapJson.value.attempts|
      modifies this
      ensures var doc := old(recapJson).value;
        var a := doc.attempts[index];
        var doc' := doc.(attempts := doc.attempts[index := a.(scenes := a.scenes + [seg])]);
        State() == old(State()).(recapJson := Some(doc'), recapFile := Some(doc'))
    {
      var doc := recapJson.value;
      var a := doc.attempts[index];
      recapJson := Some(doc.(attempts := doc.attempts[index := a.(scenes := a.scenes + [seg])]));
      SaveJson();
    }

    /** SaveLevelData(sceneName): close a level with its scoring timer. */
    method SaveLevelData(sceneName: string, scoringTime: int, h: Recorder.Host) returns (outcome: Recorder.Outcome)
      modifies this
      ensures var r := Recorder.SaveLevelData(old(State()), sceneName, scoringTime, h);
        State() == r.state && outcome == r.outcome
    {
      segmentEndTime := Some(h.gameTime);
      var found;
      outcome, found := GetCurrentAttempt(h);
      if outcome.Raised? || found.None? {
        return;
      }
      if |sceneName| < Recorder.PrefixLength {
        return Recorder.Raised(Recorder.NameTooShort);
      }
      var seg := LevelRecord(sceneName[Recorder.PrefixLength..], scoringTime, TimeFormat.FormatTime(h.gameTime));
      AppendToAttempt(found.value, seg);
    }

    /** StoreScoreboardData: the scoring values snapshotted as the scoreboard loads. */
    method StoreScoreboardData(readings: Readings)
      requires ValidReadings(readings)
      modifies this
      ensures State() == old(State()).(board := Store(old(Board()), readings))
    {
      level := "win";
      var scoringHits := readings.hits;
      hpBonus := if scoringHits >= 3 then 0 else Wrap32(3 - scoringHits);
      parries := readings.parries;
      superMeter := readings.superMeter;
      coins := readings.coins;
      useCoinsInsteadOfSuperMeter := readings.useCoinsInsteadOfSuperMeter;
    }

    /** SaveScoreboardData: the snapshot, with one meter field, as a record. */
    method SaveScoreboardData(h: Recorder.Host) returns (outcome: Recorder.Outcome)
      modifies this
      ensures var r := Recorder.SaveScoreboardData(old(State()), h);
        State() == r.state && outcome == r.outcome
    {
      segmentEndTime := Some(h.gameTime);
      var found;
      outcome, found := GetCurrentAttempt(h);
      if outcome.Raised? || found.None? {
        return;
      }
      var meter := if !useCoinsInsteadOfSuperMeter then SuperMeter(superMeter) else Coins(coins);
      var seg := ScoreboardRecord(level, hpBonus, parries, meter, TimeFormat.FormatTime(h.gameTime));
      AppendToAttempt(found.value, seg);
    }

    /** ClearScoreboardData: back to the defaults, with the full bonus of 3. */
    method ClearScoreboardData()
      modifies this
      ensures State() == old(State()).(board := Cleared)
    {
      level := "";
      levelTime := 0;
      hpBonus := 3;
      parries := 0;
      superMeter := 0;
      coins := 0;
      useCoinsInsteadOfSuperMeter := false;
    }

    /** SaveGenericSceneData(sceneName): close any other scene with its name and end time. */
    method SaveGenericSceneData(sceneName: string, h: Recorder.Host) returns (outcome: Recorder.Outcome)
      modifies this
      ensures var r := Recorder.SaveGenericSceneData(old(State()), sceneName, h);
        State() == r.state && outcome == r.outcome
    {
      segmentEndTime := Some(h.gameTime);
      var found;
      outcome, found := GetCurrentAttempt(h);
      if outcome.Raised? || found.None? {
        return;
      }
      if |sceneName| < Recorder.PrefixLength {
        return Recorder.Raised(Recorder.NameTooShort);
      }
      var seg := GenericRecord(sceneName[Recorder.PrefixLength..], TimeFormat.FormatTime(h.gameTime));
      AppendToAttempt(found.value, seg);
    }

    /**
     * MainLoop: on the first loading poll after the latch was cleared, close
     * the segment (entering the scoreboard, leaving it, or any other scene
     * change); then remember the scene while loading, re-arm the latch
     * otherwise.
     */
    method MainLoop(p: Recorder.Probe, h: Recorder.Host) returns (outcome: Recorder.Outcome)
      requires Recorder.ValidProbe(p)
      modifies this
      ensures var r := Recorder.MainLoop(old(State()), p, h);
        State() == r.state && outcome == r.outcome
      ensures old(Valid()) ==> Valid()
    {
      if Valid() {
        RecorderProperties.TickKeepsDurable(State(), p, h);
      }
      var sceneName := p.sceneName;
      var isLoading := p.isLoading;
      if sceneName == Recorder.SceneWin && isLoading && !savedSceneData {
        outcome := SaveLevelData(previousSceneName, p.levelTime, h);
        if outcome.Raised? {
          return;
        }
        StoreScoreboardData(p.scoring);
        savedSceneData := true;
      } else if previousSceneName == Recorder.SceneWin && isLoading && !savedSceneData {
        outcome := SaveScoreboardData(h);
        if outcome.Raised? {
          return;
        }
        ClearScoreboardData();
        savedSceneData := true;
      } else if isLoading && !savedSceneData {
        outcome := SaveGenericSceneData(previousSceneName, h);
        if outcome.Raised? {
          return;
        }
        savedSceneData := true;
      }
      outcome := Recorder.Completed;

      if isLoading {
        previousSceneName := sceneName;
      } else {
        savedSceneData := false;
      }
    }

    /** One iteration of the polling loop; an exception from the tick is caught and dropped. */
    method PollOnce(hooked: bool, p: Recorder.Probe, h: Recorder.Host)
      requires Recorder.ValidProbe(p)
      modifies this
      ensures State() == Recorder.Poll(old(State()), hooked, p, h)
      ensures old(Valid()) ==> Valid()
    {
      if hooked && isRunInProgress {
        var _ := MainLoop(p, h);
      }
    }

    /** The polling loop, over the polls it makes. */
    method PollLoop(inputs: seq<RecorderProperties.PollInput>)
      requires RecorderProperties.ValidInputs(inputs)
      modifies this
      ensures State() == RecorderProperties.Run(old(State()), inputs)
      ensures old(Valid()) ==> Valid()
    {
      for k := 0 to |inputs|
        invariant RecorderProperties.ValidInputs(inputs[..k])
        invariant State() == RecorderProperties.Run(old(State()), inputs[..k])
        invariant old(Valid()) ==> Valid()
      {
        var t := inputs[k];
        RecorderProperties.RunSnoc(old(State()), inputs[..k], t);
        assert inputs[..k + 1] == inputs[..k] + [t];
        PollOnce(t.hooked, t.probe, t.host);
      }
      assert inputs[..|inputs|] == inputs;
    }

    /** OnReset: stop recording, set the latch, forget the scene. */
    method OnReset()
      modifies this
      ensures State() == Recorder.OnReset(old(State()))
      ensures old(Valid()) ==> Valid()
    {
      isRunInProgress := false;
      savedSceneData := true;
      previousSceneName := Recorder.NoScene;
    }

    /** OnStart: open a new attempt in the loaded or new document and reset the scene. */
    method OnStart(h: Recorder.Host) returns (outcome: Recorder.Outcome)
      modifies this
      ensures var r := Recorder.OnStart(old(State()), h);
        State() == r.state && outcome == r.outcome
      ensures Valid()
    {
      RecorderProperties.StartIsDurable(State(), h);
      isRunInProgress := true;
      savedSceneData := true;

      LoadOrCreateJson();
      outcome := CreateNewAttempt(h);
      if outcome.Raised? {
        return;
      }

      previousSceneName := Recorder.NoScene;
      segmentStartTime := Some(h.gameTime);
    }

    /** OnSplit: the final split stops recording and closes the scene being played. */
    method OnSplit(currentSplitIndex: int, splitCount: int, p: Recorder.Probe, h: Recorder.Host)
      returns (outcome: Recorder.Outcome)
      modifies this
      ensures var r := Recorder.OnSplit(old(State()), currentSplitIndex, splitCount, p, h);
        State() == r.state && outcome == r.outcome
      ensures old(Valid()) ==> Valid()
    {
      if Valid() {
        RecorderProperties.SplitKeepsDurable(State(), currentSplitIndex, splitCount, p, h);
      }
      outcome := Recorder.Completed;
      if currentSplitIndex >= splitCount {
        isRunInProgress := false;
        var sceneName := p.sceneName;
        if Recorder.StartsWith(sceneName, Recorder.SceneLevelPrefix) {
          outcome := SaveLevelData(sceneName, p.levelTime, h);
        } else {
          outcome := SaveGenericSceneData(sceneName, h);
        }
      }
    }
  }
}
