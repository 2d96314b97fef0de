/**
 * The records the rank engine and the game reducer work on. Timestamps,
 * which the application keeps as ISO-8601 strings, are milliseconds since
 * the epoch here.
 */
module Types {
  import opened Wrappers
  import opened Ranks

  /** Milliseconds since the epoch. */
  type Millis = int

  /** The self-reported outcome of a focus block. */
  datatype Outcome = Win | Loss | Abandon

  /** One entry of a skill's history. */
  datatype BlockResult = BlockResult(
    id: string,
    skillId: string,
    startTime: Millis,
    endTime: Millis,
    duration: int,
    result: Outcome,
    lpChange: int,
    rankBefore: Rank,
    divisionBefore: nat,
    rankAfter: Rank,
    divisionAfter: nat,
    notes: Option<string>)

  /** A skill the user practises, with its progression state. */
  datatype Skill = Skill(
    id: string,
    name: string,
    icon: string,
    color: string,
    lp: int,
    rank: Rank,
    division: nat,
    totalMinutes: int,
    totalBlocks: nat,
    wins: nat,
    losses: nat,
    abandons: nat,
    currentStreak: int,
    bestStreak: int,
    worstStreak: int,
    peakRank: Rank,
    peakDivision: nat,
    history: seq<BlockResult>,
    protectedPromotion: bool,
    createdAt: Millis)
  {
    /** Where the skill stands on the ladder. */
    function Standing(): Position {
      Position(rank, division)
    }

    /** The highest place the skill has reached. */
    function PeakStanding(): Position {
      Position(peakRank, peakDivision)
    }
  }

  /** What one scored block did to a skill's LP, for the presentation layer. */
  datatype LpChangeEvent = LpChangeEvent(
    kind: Outcome,
    amount: int,
    bonusAmount: int,
    newLp: int,
    oldLp: int,
    promotion: bool,
    demotion: bool,
    newRank: Option<Rank>,
    newDivision: Option<nat>)

  datatype PlayerSettings = PlayerSettings(
    blockDuration: int,
    soundEnabled: bool,
    notificationsEnabled: bool)

  /** The whole persisted state of one player. */
  datatype PlayerState = PlayerState(
    id: string,
    createdAt: Millis,
    currentSeason: int,
    seasonStartDate: Millis,
    skills: seq<Skill>,
    areas: seq<string>,
    settings: PlayerSettings,
    activeBlockId: Option<string>,
    activeSkillId: Option<string>,
    activeBlockStartTime: Option<Millis>,
    activeBlockDuration: Option<int>)
}
