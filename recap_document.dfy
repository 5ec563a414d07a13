/**
 * The recap document (run_recap.rrc): a version tag and the list of attempts,
 * each attempt an id and its recorded scenes. The JSON tree the component
 * edits in place is modelled as a value that the component's field holds and
 * replaces after every edit.
 */
module RecapDocument {

  import opened Wrappers

  /** RUN_RECAP_TREE_VERSION: the tag written into a freshly created document. */
  const TreeVersion: string := "v0.2"

  /** The scoreboard record carries exactly one of these, chosen by the coins flag. */
  datatype Meter = SuperMeter(amount: int) | Coins(amount: int)

  /**
   * One entry of an attempt's "scenes" array. levelTime is the scoring timer
   * truncated to hundredths of a second; endTime is a FormatTime stamp.
   */
  datatype Segment =
    | LevelRecord(name: string, levelTime: int, endTime: string)
    | ScoreboardRecord(name: string, hp: int, parries: int, meter: Meter, endTime: string)
    | GenericRecord(name: string, endTime: string)

  datatype Attempt = Attempt(id: int, scenes: seq<Segment>)

  datatype Document = Document(version: string, attempts: seq<Attempt>)

  /** The JSON property names of a record, in the order the component adds them. */
  function Keys(seg: Segment): seq<string> {
    match seg
    case LevelRecord(_, _, _) => ["name", "levelTime", "endTime"]
    case ScoreboardRecord(_, _, _, meter, _) =>
      ["name", "hp", "parries", if meter.Coins? then "coins" else "superMeter", "endTime"]
    case GenericRecord(_, _) => ["name", "endTime"]
  }

  const EmptyDocument: Document := Document(TreeVersion, [])

  /**
   * LoadOrCreateJson: the stored document when the file exists, otherwise a
   * new one at the current version with no attempts.
   */
  function LoadOrCreate(file: Option<Document>): (d: Document)
    ensures file.Some? ==> d == file.value
    ensures file.None? ==> d.version == TreeVersion && d.attempts == []
  {
    match file
    case Some(stored) => stored
    case None => EmptyDocument
  }

  /**
   * The FirstOrDefault lookup of GetCurrentAttempt: the position of the
   * first attempt whose id is id, or None when there is none.
   */
  function FindAttempt(attempts: seq<Attempt>, id: int): (r: Option<nat>)
    ensures r.Some? ==> r.value < |attempts| && attempts[r.value].id == id
    ensures r.Some? ==> forall j :: 0 <= j < r.value ==> attempts[j].id != id
    ensures r.None? ==> forall j :: 0 <= j < |attempts| ==> attempts[j].id != id
  {
    if attempts == [] then None
    else if attempts[0].id == id then Some(0)
    else match FindAttempt(attempts[1..], id)
      case None => None
      case Some(k) => Some(k + 1)
  }

  /** CreateNewAttempt's edit: one more attempt, with no scenes, at the end. */
  function AddAttempt(doc: Document, id: int): (d: Document)
    ensures d.version == doc.version && |d.attempts| == |doc.attempts| + 1
    ensures d.attempts[..|doc.attempts|] == doc.attempts && d.attempts[|doc.attempts|] == Attempt(id, [])
  {
    doc.(attempts := doc.attempts + [Attempt(id, [])])
  }

  /**
   * The edit made by each Save*Data: seg is added at the end of the scenes of
   * the attempt GetCurrentAttempt finds; without one the document is unchanged.
   */
  function AppendScene(doc: Document, id: int, seg: Segment): (d: Document)
    ensures d.version == doc.version && |d.attempts| == |doc.attempts|
    ensures FindAttempt(doc.attempts, id).None? ==> d == doc
    ensures FindAttempt(doc.attempts, id).Some? ==>
      var i := FindAttempt(doc.attempts, id).value;
      && d.attempts[i] == Attempt(id, doc.attempts[i].scenes + [seg])
      && forall j :: 0 <= j < |d.attempts| && j != i ==> d.attempts[j] == doc.attempts[j]
  {
    match FindAttempt(doc.attempts, id)
    case None => doc
    case Some(i) =>
      doc.(attempts := doc.attempts[i := Attempt(id, doc.attempts[i].scenes + [seg])])
  }

  /** Number of records in all attempts together. */
  function SegmentCount(attempts: seq<Attempt>): nat {
    if attempts == [] then 0 else |attempts[0].scenes| + SegmentCount(attempts[1..])
  }

  function DocumentSegments(recap: Option<Document>): nat {
    match recap
    case None => 0
    case Some(doc) => SegmentCount(doc.attempts)
  }

  lemma {:induction false} SegmentCountUpdate(attempts: seq<Attempt>, i: nat, a: Attempt)
    requires i < |attempts|
    ensures SegmentCount(attempts[i := a]) + |attempts[i].scenes| == SegmentCount(attempts) + |a.scenes|
  {
    if i == 0 {
      assert attempts[i := a][1..] == attempts[1..];
    } else {
      assert attempts[i := a][1..] == attempts[1..][i - 1 := a];
      SegmentCountUpdate(attempts[1..], i - 1, a);
    }
  }

  lemma {:induction false} SegmentCountAppend(attempts: seq<Attempt>, a: Attempt)
    ensures SegmentCount(attempts + [a]) == SegmentCount(attempts) + |a.scenes|
  {
    if attempts == [] {
      assert [a][1..] == [];
    } else {
      assert (attempts + [a])[1..] == attempts[1..] + [a];
      SegmentCountAppend(attempts[1..], a);
    }
  }

  /** Appending adds exactly one record to the document when the attempt exists, none otherwise. */
  lemma AppendSceneCount(doc: Document, id: int, seg: Segment)
    ensures SegmentCount(AppendScene(doc, id, seg).attempts)
            == SegmentCount(doc.attempts) + (if FindAttempt(doc.attempts, id).Some? then 1 else 0)
  {
    match FindAttempt(doc.attempts, id)
    case None =>
    case Some(i) =>
      SegmentCountUpdate(doc.attempts, i, Attempt(id, doc.attempts[i].scenes + [seg]));
  }

  /** A new attempt holds no records, so it leaves the record count alone. */
  lemma AddAttemptCount(doc: Document, id: int)
    ensures SegmentCount(AddAttempt(doc, id).attempts) == SegmentCount(doc.attempts)
  {
    SegmentCountAppend(doc.attempts, Attempt(id, []));
  }

  lemma {:induction false} FindAttemptAppend(attempts: seq<Attempt>, a: Attempt, id: int)
    ensures FindAttempt(attempts + [a], id)
            == match FindAttempt(attempts, id)
               case Some(i) => Some(i)
               case None => if a.id == id then Some(|attempts|) else None
  {
    if attempts != [] {
      assert (attempts + [a])[1..] == attempts[1..] + [a];
      FindAttemptAppend(attempts[1..], a, id);
    }
  }

  /** Attempt lists with the same ids in the same order answer every lookup alike. */
  lemma {:induction false} SameIdsSameLookup(a: seq<Attempt>, b: seq<Attempt>, id: int)
    requires |a| == |b| && forall j :: 0 <= j < |a| ==> a[j].id == b[j].id
    ensures FindAttempt(a, id) == FindAttempt(b, id)
    decreases |a|
  {
    if a != [] && a[0].id != id {
      SameIdsSameLookup(a[1..], b[1..], id);
    }
  }

  /** Appending a record keeps every id, so later lookups find the same attempts. */
  lemma AppendSceneKeepsLookup(doc: Document, id: int, seg: Segment, other: int)
    ensures FindAttempt(AppendScene(doc, id, seg).attempts, other) == FindAttempt(doc.attempts, other)
  {
    var d := AppendScene(doc, id, seg);
    SameIdsSameLookup(d.attempts, doc.attempts, other);
  }

  /** When no attempt has the id yet, the attempt just added is the one later saves go to. */
  lemma NewAttemptIsCurrent(doc: Document, id: int)
    requires FindAttempt(doc.attempts, id).None?
    ensures FindAttempt(AddAttempt(doc, id).attempts, id) == Some(|doc.attempts|)
  {
    FindAttemptAppend(doc.attempts, Attempt(id, []), id);
  }

  /**
   * When an earlier attempt already has the id (the same file used with
   * another run definition whose attempt count overlaps), the lookup keeps
   * finding that earlier attempt and the new one never receives a record.
   */
  lemma EarlierAttemptShadowsNew(doc: Document, id: int, i: nat)
    requires FindAttempt(doc.attempts, id) == Some(i)
    ensures FindAttempt(AddAttempt(doc, id).attempts, id) == Some(i)
    ensures i < |doc.attempts|
  {
    FindAttemptAppend(doc.attempts, Attempt(id, []), id);
  }
}
