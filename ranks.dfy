/**
 * The rank ladder of the rank engine: the ten tiers, their configuration
 * table, ladder positions (tier, division) with their order, and the
 * internal Radiant levels.
 */
module Ranks {
  import opened Wrappers

  /** The ten tiers, lowest first. */
  datatype Rank =
    | Iron | Bronze | Silver | Gold | Platinum | Diamond
    | Immortal1 | Immortal2 | Immortal3 | Radiant
  {
    /** Ordinal of the tier on the ladder (0 is Iron, 9 is Radiant). */
    function Index(): (i: nat)
      ensures i < 10
    {
      match this
      case Iron => 0
      case Bronze => 1
      case Silver => 2
      case Gold => 3
      case Platinum => 4
      case Diamond => 5
      case Immortal1 => 6
      case Immortal2 => 7
      case Immortal3 => 8
      case Radiant => 9
    }
  }

  /** One row of the ladder table. */
  datatype RankConfig = RankConfig(
    rank: Rank,
    name: string,
    nameEs: string,
    minHours: nat,
    divisions: nat,
    lpPerDivision: nat,
    color: string,
    glowColor: string)

  /** The ladder table, ordered from the lowest tier to the highest. */
  const RankConfigs: seq<RankConfig> := [
    RankConfig(Iron, "Iron", "Hierro", 0, 3, 100, "#5a5a5a", "#7a7a7a"),
    RankConfig(Bronze, "Bronze", "Bronce", 15, 3, 100, "#cd7f32", "#da9655"),
    RankConfig(Silver, "Silver", "Plata", 35, 3, 100, "#c0c0c0", "#e8e8e8"),
    RankConfig(Gold, "Gold", "Oro", 65, 3, 100, "#ffd700", "#ffe55c"),
    RankConfig(Platinum, "Platinum", "Platino", 105, 3, 100, "#00cec9", "#55efc4"),
    RankConfig(Diamond, "Diamond", "Diamante", 160, 3, 100, "#a855f7", "#c084fc"),
    RankConfig(Immortal1, "Immortal 1", "Inmortal 1", 230, 1, 100, "#ef4444", "#f87171"),
    RankConfig(Immortal2, "Immortal 2", "Inmortal 2", 310, 1, 100, "#dc2626", "#ef4444"),
    RankConfig(Immortal3, "Immortal 3", "Inmortal 3", 400, 1, 100, "#b91c1c", "#dc2626"),
    RankConfig(Radiant, "Radiant", "Radiante", 550, 1, 200, "#ffe55c", "#fff9c4")
  ]

  /** The table lists every tier exactly once, in ladder order. */
  lemma {:induction false} TableIsOrdered(i: nat)
    requires i < |RankConfigs|
    ensures RankConfigs[i].rank.Index() == i
  {
    if i < 5 {
      assert i == 0 || i == 1 || i == 2 || i == 3 || i == 4;
    } else {
      assert i == 5 || i == 6 || i == 7 || i == 8 || i == 9;
    }
  }

  /**
   * The source's `findIndex` over the table, from position `from`: the
   * first index at or after `from` whose tier is `rank`, or -1.
   */
  function FindRankIndex(rank: Rank, from: nat): (i: int)
    requires from <= |RankConfigs|
    ensures i == -1 || (from <= i < |RankConfigs| && RankConfigs[i].rank == rank)
    ensures forall j :: from <= j < |RankConfigs| && (i == -1 || j < i) ==> RankConfigs[j].rank != rank
    decreases |RankConfigs| - from
  {
    if from == |RankConfigs| then -1
    else if RankConfigs[from].rank == rank then from
    else FindRankIndex(rank, from + 1)
  }

  /** `getRankIndex`: the tier's position in the table; never -1, since the table is closed. */
  function GetRankIndex(rank: Rank): (i: int)
    ensures 0 <= i < |RankConfigs| && RankConfigs[i].rank == rank
    ensures i == rank.Index()
  {
    TableIsOrdered(rank.Index());
    var i := FindRankIndex(rank, 0);
    TableIsOrdered(if i < 0 then 0 else i);
    i
  }

  /** `getRankConfig`: the table row of the tier (falling back to the first row, which cannot happen). */
  function GetRankConfig(rank: Rank): (c: RankConfig)
    ensures c.rank == rank && c == RankConfigs[rank.Index()]
    ensures c.divisions == Divisions(rank) == (if rank.Index() < 6 then 3 else 1)
    ensures c.lpPerDivision == (if rank == Radiant then 200 else 100)
  {
    TableIsOrdered(rank.Index());
    var i := FindRankIndex(rank, 0);
    TableIsOrdered(if i < 0 then 0 else i);
    if i >= 0 then RankConfigs[i] else LowestConfig
  }

  /** The first row, which the source falls back to for an unknown tier. */
  const LowestConfig: RankConfig := RankConfigs[0]

  /** The tier at ladder index `i`: the `rank` of row `i` of the table. */
  function RankAt(i: nat): (r: Rank)
    requires i < |RankConfigs|
    ensures r.Index() == i
  {
    if i == 0 then Iron else if i == 1 then Bronze else if i == 2 then Silver
    else if i == 3 then Gold else if i == 4 then Platinum else if i == 5 then Diamond
    else if i == 6 then Immortal1 else if i == 7 then Immortal2 else if i == 8 then Immortal3
    else Radiant
  }

  /** Row `i` of the table holds the tier at ladder index `i`. */
  lemma RankAtIsTableRow(i: nat)
    requires i < |RankConfigs|
    ensures RankConfigs[i].rank == RankAt(i)
  {
    TableIsOrdered(i);
    IndexIsInjective(RankConfigs[i].rank, RankAt(i));
  }

  /** Number of divisions of a tier: three up to Diamond, one from Immortal 1 on. */
  function Divisions(rank: Rank): nat {
    if rank.Index() < 6 then 3 else 1
  }

  /** No two tiers share a Spanish name. */
  lemma NameEsDistinct(r: Rank, s: Rank)
    requires GetRankConfig(r).nameEs == GetRankConfig(s).nameEs
    ensures r == s
  {
  }

  /**
   * A single-division tier's Spanish name never reads as a three-division
   * tier's name followed by a space and one more character.
   */
  lemma SingleNamesAreNotPrefixed(r: Rank, s: Rank)
    requires Divisions(r) == 1 && Divisions(s) == 3
    ensures var n := GetRankConfig(r).nameEs; |n| < 2 || n[..|n| - 2] != GetRankConfig(s).nameEs
  {
    var n := GetRankConfig(r).nameEs;
    var m := GetRankConfig(s).nameEs;
    assert |n| >= 8 && n[0] in "IR";
    assert |m| >= 3 && m[0] in "HBPOD";
    assert n[..|n| - 2][0] == n[0];
  }

  /** A place on the ladder: a tier and a division (1 is the lowest division of a tier). */
  datatype Position = Position(rank: Rank, division: nat)

  predicate ValidPosition(p: Position) {
    1 <= p.division <= Divisions(p.rank)
  }

  /**
   * Strict ladder order, as the peak-rank update compares: first by tier,
   * then by division.
   */
  predicate Below(p: Position, q: Position) {
    p.rank.Index() < q.rank.Index() ||
    (p.rank.Index() == q.rank.Index() && p.division < q.division)
  }

  predicate AtOrBelow(p: Position, q: Position) {
    Below(p, q) || p == q
  }

  lemma BelowIsStrictTotalOrder(p: Position, q: Position, r: Position)
    ensures !Below(p, p)
    ensures Below(p, q) && Below(q, r) ==> Below(p, r)
    ensures p == q || Below(p, q) || Below(q, p)
  {
    if p.rank.Index() == q.rank.Index() {
      assert p.rank == q.rank by { IndexIsInjective(p.rank, q.rank); }
    }
  }

  lemma IndexIsInjective(r: Rank, s: Rank)
    requires r.Index() == s.Index()
    ensures r == s
  {
  }

  /**
   * One division up, as a promotion moves: the next division of the tier,
   * or division 1 of the next tier; nothing above Radiant.
   */
  function Promoted(p: Position): (q: Option<Position>)
  {
    if p.division < Divisions(p.rank) then Some(Position(p.rank, p.division + 1))
    else if p.rank.Index() < 9 then Some(Position(RankAt(p.rank.Index() + 1), 1))
    else None
  }

  /**
   * One division down, as a demotion moves: the previous division of the
   * tier, or the top division of the tier below; nothing below Iron 1.
   */
  function Demoted(p: Position): (q: Option<Position>)
  {
    if p.division > 1 then Some(Position(p.rank, p.division - 1))
    else if p.rank.Index() > 0 then
      var lower := RankAt(p.rank.Index() - 1);
      Some(Position(lower, Divisions(lower)))
    else None
  }

  /** A promotion goes to the very next valid position on the ladder, and only Radiant has none. */
  lemma PromotedIsSuccessor(p: Position)
    requires ValidPosition(p)
    ensures Promoted(p).None? <==> p.rank == Radiant
    ensures Promoted(p).Some? ==>
      var q := Promoted(p).value;
      ValidPosition(q) && Below(p, q) &&
      forall r :: ValidPosition(r) && Below(p, r) ==> AtOrBelow(q, r)
  {
    if Promoted(p).Some? {
      var q := Promoted(p).value;
      forall r | ValidPosition(r) && Below(p, r) ensures AtOrBelow(q, r) {
        if r.rank.Index() == q.rank.Index() { IndexIsInjective(r.rank, q.rank); }
        if r.rank.Index() == p.rank.Index() { IndexIsInjective(r.rank, p.rank); }
      }
    }
  }

  /** A demotion goes to the very previous valid position on the ladder, and only Iron 1 has none. */
  lemma DemotedIsPredecessor(p: Position)
    requires ValidPosition(p)
    ensures Demoted(p).None? <==> p == Position(Iron, 1)
    ensures Demoted(p).Some? ==>
      var q := Demoted(p).value;
      ValidPosition(q) && Below(q, p) &&
      forall r :: ValidPosition(r) && Below(r, p) ==> AtOrBelow(r, q)
  {
    if Demoted(p).Some? {
      var q := Demoted(p).value;
      forall r | ValidPosition(r) && Below(r, p) ensures AtOrBelow(r, q) {
        if r.rank.Index() == q.rank.Index() { IndexIsInjective(r.rank, q.rank); }
        if r.rank.Index() == p.rank.Index() { IndexIsInjective(r.rank, p.rank); }
      }
    }
  }

  /** Promotion and demotion undo each other on valid positions. */
  lemma PromoteDemoteRoundTrip(p: Position)
    requires ValidPosition(p)
    ensures Promoted(p).Some? ==> Demoted(Promoted(p).value) == Some(p)
    ensures Demoted(p).Some? ==> Promoted(Demoted(p).value) == Some(p)
  {
    if p.division >= Divisions(p.rank) && p.rank.Index() < 9 {
      IndexIsInjective(RankAt(RankAt(p.rank.Index() + 1).Index() - 1), p.rank);
    }
    if p.division <= 1 && p.rank.Index() > 0 {
      IndexIsInjective(RankAt(RankAt(p.rank.Index() - 1).Index() + 1), p.rank);
    }
  }

  /** Internal levels of the Radiant tier. */
  datatype RadiantLevel = Low | Mid | High | Elite | Peak

  datatype RadiantThreshold = RadiantThreshold(level: RadiantLevel, minLp: int, name: string)

  /**
   * Radiant thresholds, ascending by minimum internal LP. The Elite name
   * keeps the characters the program holds: an "É" stored twice-encoded,
   * which reads as "Ã" followed by "‰".
   */
  const RadiantThresholds: seq<RadiantThreshold> := [
    RadiantThreshold(Low, 0, "Radiante Bajo"),
    RadiantThreshold(Mid, 200, "Radiante Medio"),
    RadiantThreshold(High, 500, "Radiante Alto"),
    RadiantThreshold(Elite, 1000, "Radiante Ã‰lite"),
    RadiantThreshold(Peak, 2000, "Radiante #1")
  ]

  /**
   * `getRadiantLevel`: the level of the highest threshold whose minimum the
   * internal LP reaches, scanning the thresholds from the top; Low when none
   * is reached (a negative internal LP).
   */
  method GetRadiantLevel(radiantLp: int) returns (level: RadiantLevel)
    ensures exists k ::
      && 0 <= k < |RadiantThresholds|
      && level == RadiantThresholds[k].level
      && (RadiantThresholds[k].minLp <= radiantLp || k == 0)
      && (forall j :: k < j < |RadiantThresholds| ==> radiantLp < RadiantThresholds[j].minLp)
    ensures radiantLp < 0 ==> level == Low
  {
    var i := |RadiantThresholds| - 1;
    while i >= 0
      invariant -1 <= i < |RadiantThresholds|
      invariant forall j :: i < j < |RadiantThresholds| ==> radiantLp < RadiantThresholds[j].minLp
    {
      if radiantLp >= RadiantThresholds[i].minLp {
        return RadiantThresholds[i].level;
      }
      i := i - 1;
    }
    assert RadiantThresholds[0].level == Low;
    return Low;
  }

  /** `getRadiantLevelName`: the display name the threshold table gives the level. */
  function GetRadiantLevelName(level: RadiantLevel): (name: string)
    ensures exists k ::
      && 0 <= k < |RadiantThresholds|
      && RadiantThresholds[k].level == level
      && name == RadiantThresholds[k].name
  {
    match level
    case Low => RadiantThresholds[0].name
    case Mid => RadiantThresholds[1].name
    case High => RadiantThresholds[2].name
    case Elite => RadiantThresholds[3].name
    case Peak => RadiantThresholds[4].name
  }
}
