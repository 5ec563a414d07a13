/**
 * The scoreboard snapshot: what StoreScoreboardData reads from the game when
 * the scoreboard loads, the record SaveScoreboardData builds from it when the
 * scoreboard is left, and the defaults ClearScoreboardData restores.
 */
module Scoreboard {

  import opened RecapDocument

  const Int32Min: int := -0x8000_0000
  const Int32Max: int := 0x7fff_ffff

  predicate IsInt32(x: int) { Int32Min <= x <= Int32Max }

  /** C#'s unchecked int arithmetic: the result reduced to 32-bit two's complement. */
  function Wrap32(x: int): (r: int)
    ensures IsInt32(r)
  {
    (x - Int32Min) % 0x1_0000_0000 + Int32Min
  }

  /** The hpBonus expression: no bonus from 3 hits on, otherwise 3 - hits in 32-bit arithmetic. */
  function HpBonus(hits: int): (b: int)
    requires IsInt32(hits)
    ensures IsInt32(b)
  {
    if hits >= 3 then 0 else Wrap32(3 - hits)
  }

  /** The scoring values read from the game's memory when the scoreboard loads. */
  datatype Readings = Readings(hits: int, parries: int, superMeter: int, coins: int, useCoinsInsteadOfSuperMeter: bool)

  predicate ValidReadings(r: Readings) { IsInt32(r.hits) }

  /** The component's scoreboard fields. levelTime is never set, only reset. */
  datatype ScoreboardData = ScoreboardData(
    level: string, levelTime: int, hpBonus: int, parries: int,
    superMeter: int, coins: int, useCoinsInsteadOfSuperMeter: bool)

  /** The fields as the component is constructed: C# defaults (a null level is written ""). */
  const Initial: ScoreboardData := ScoreboardData("", 0, 0, 0, 0, 0, false)

  /** What ClearScoreboardData restores. */
  const Cleared: ScoreboardData := ScoreboardData("", 0, 3, 0, 0, 0, false)

  /** StoreScoreboardData: the snapshot taken as the scoreboard loads. */
  function Store(board: ScoreboardData, r: Readings): (s: ScoreboardData)
    requires ValidReadings(r)
    ensures s.level == "win" && s.levelTime == board.levelTime
    ensures 0 <= r.hits ==> 0 <= s.hpBonus <= 3 && s.hpBonus == (if r.hits < 3 then 3 - r.hits else 0)
    ensures s.parries == r.parries && s.superMeter == r.superMeter && s.coins == r.coins
    ensures s.useCoinsInsteadOfSuperMeter == r.useCoinsInsteadOfSuperMeter
  {
    ScoreboardData("win", board.levelTime, HpBonus(r.hits), r.parries, r.superMeter, r.coins,
                   r.useCoinsInsteadOfSuperMeter)
  }

  /** The record SaveScoreboardData appends, stamped endTime. */
  function Record(board: ScoreboardData, endTime: string): (seg: Segment)
    ensures seg.ScoreboardRecord? && seg.name == board.level && seg.endTime == endTime
    ensures seg.hp == board.hpBonus && seg.parries == board.parries
    ensures seg.meter.Coins? <==> board.useCoinsInsteadOfSuperMeter
    ensures seg.meter.amount == if board.useCoinsInsteadOfSuperMeter then board.coins else board.superMeter
  {
    ScoreboardRecord(board.level, board.hpBonus, board.parries,
                     if board.useCoinsInsteadOfSuperMeter then Coins(board.coins) else SuperMeter(board.superMeter),
                     endTime)
  }

  /** hpBonus is max(0, 3 - hits) wherever 3 - hits fits in an int, and 0..3 for a real hit count. */
  lemma HpBonusIsMissingHits(hits: int)
    requires IsInt32(hits) && IsInt32(3 - hits)
    ensures HpBonus(hits) == if 3 - hits > 0 then 3 - hits else 0
    ensures 0 <= hits ==> 0 <= HpBonus(hits) <= 3
  {
  }

  /**
   * The four hit counts from int.MinValue up to -2147483645 wrap around to a
   * negative bonus (int.MinValue + 3 at int.MinValue); the next one gives int.MaxValue.
   */
  lemma HpBonusWrapsAtMinimum()
    ensures forall hits :: Int32Min <= hits < Int32Min + 4 ==> HpBonus(hits) == 2 * Int32Min + 3 - hits < 0
    ensures HpBonus(Int32Min + 4) == Int32Max
  {
  }

  /**
   * A scoreboard record carries name, hp, parries and endTime and exactly one
   * of superMeter and coins: coins when the game counts coins, else the super meter.
   */
  lemma RecordHasOneMeter(board: ScoreboardData, endTime: string)
    ensures var k := Keys(Record(board, endTime));
      && |k| == 5 && k[0] == "name" && k[1] == "hp" && k[2] == "parries" && k[4] == "endTime"
      && ("coins" in k <==> board.useCoinsInsteadOfSuperMeter)
      && ("superMeter" in k <==> !board.useCoinsInsteadOfSuperMeter)
  {
    var k := Keys(Record(board, endTime));
    assert "coins" != "superMeter";
    assert "coins" in k <==> k[3] == "coins" by {
      assert "coins" != "name" && "coins" != "hp" && "coins" != "parries" && "coins" != "endTime";
    }
    assert "superMeter" in k <==> k[3] == "superMeter" by {
      assert "superMeter" != "name" && "superMeter" != "hp" && "superMeter" != "parries"
        && "superMeter" != "endTime";
    }
  }
}
