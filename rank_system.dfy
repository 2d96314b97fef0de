/**
 * The rank engine: streaks, the flat LP scoring, promotion protection, the
 * single-step promotion/demotion machine over (tier, division, LP), and the
 * bookkeeping a scored block performs on a skill. The small display helpers
 * of the same source file (hours, rank names, win rate) are here too.
 */
module RankSystem {
  import opened Wrappers
  import opened Ranks
  import opened Types
  import opened Text

  // ---------------------------------------------------------------------
  // Scoring constants and streaks
  // ---------------------------------------------------------------------

  const LpWin: int := 20
  const LpLoss: int := -20
  const LpAbandon: int := -30

  /**
   * The flat LP swing of an outcome, before any streak modifier: only a
   * win gains, a loss costs what a win gains, and an abandon costs more.
   */
  function BaseChange(result: Outcome): (c: int)
    ensures c > 0 <==> result == Win
    ensures result == Win ==> c == LpWin == 20
    ensures result == Loss ==> c == -LpWin
    ensures result == Abandon ==> c == LpAbandon == -30 && c < LpLoss
  {
    match result
    case Win => LpWin
    case Loss => LpLoss
    case Abandon => LpAbandon
  }

  function Abs(x: int): nat {
    if x < 0 then -x else x
  }

  function Max(a: int, b: int): int {
    if a >= b then a else b
  }

  function Min(a: int, b: int): int {
    if a <= b then a else b
  }

  /**
   * `getStreakModifier`: the bonus of a win streak of three or more, and the
   * "tilt" penalty of a losing streak of three or more, saturating at five.
   */
  function StreakModifier(streak: int): (m: int)
    ensures -10 <= m <= 10
    ensures m > 0 <==> streak >= 3
    ensures m < 0 <==> streak <= -3
    ensures Abs(m) == (if Abs(streak) >= 5 then 10 else if Abs(streak) >= 3 then 5 else 0)
  {
    if streak >= 5 then 10
    else if streak >= 3 then 5
    else if streak <= -5 then -10
    else if streak <= -3 then -5
    else 0
  }

  /** The modifier treats win and losing streaks of equal length alike, with opposite sign. */
  lemma StreakModifierIsOdd(streak: int)
    ensures StreakModifier(-streak) == -StreakModifier(streak)
  {
  }

  /** A longer win streak (or a shorter losing streak) never earns less. */
  lemma StreakModifierIsMonotone(s: int, t: int)
    requires s <= t
    ensures StreakModifier(s) <= StreakModifier(t)
  {
  }

  /** Whether `result` continues the run that `streak` records (a positive streak is a run of wins). */
  predicate ContinuesRun(streak: int, result: Outcome) {
    (result == Win && streak > 0) || (result != Win && streak < 0)
  }

  /**
   * The next streak: its sign says whether the last outcome was a win, its
   * magnitude how long the current run of like outcomes is.
   */
  function NextStreak(streak: int, result: Outcome): (next: int)
    ensures next != 0
    ensures next > 0 <==> result == Win
    ensures Abs(next) == if ContinuesRun(streak, result) then Abs(streak) + 1 else 1
  {
    if result == Win then (if streak >= 0 then streak + 1 else 1)
    else (if streak <= 0 then streak - 1 else -1)
  }

  /** The streak after a sequence of outcomes, starting from `streak`. */
  function StreakAfter(streak: int, outcomes: seq<Outcome>): int
    decreases |outcomes|
  {
    if outcomes == [] then streak
    else NextStreak(StreakAfter(streak, outcomes[..|outcomes| - 1]), outcomes[|outcomes| - 1])
  }

  /** Length of the run of outcomes at the end of `outcomes` that agree with the last one on being a win. */
  function TrailingRun(outcomes: seq<Outcome>): nat
    decreases |outcomes|
  {
    if |outcomes| <= 1 then |outcomes|
    else
      var last := outcomes[|outcomes| - 1];
      var prev := outcomes[|outcomes| - 2];
      if (last == Win) == (prev == Win) then 1 + TrailingRun(outcomes[..|outcomes| - 1]) else 1
  }

  /**
   * From a cleared streak, the streak counts the trailing run of like
   * outcomes: positive for wins, negative for losses and abandons.
   */
  lemma {:induction false} StreakCountsTrailingRun(outcomes: seq<Outcome>)
    requires |outcomes| >= 1
    ensures var run: int := TrailingRun(outcomes);
      StreakAfter(0, outcomes) == if outcomes[|outcomes| - 1] == Win then run else -run
  {
    if |outcomes| > 1 {
      var init := outcomes[..|outcomes| - 1];
      assert init[|init| - 1] == outcomes[|outcomes| - 2];
      StreakCountsTrailingRun(init);
    }
  }

  // ---------------------------------------------------------------------
  // The LP change of one block (specification)
  // ---------------------------------------------------------------------

  /** The LP actually applied: base plus streak modifier, or nothing for a protected non-win. */
  function AppliedChange(skill: Skill, result: Outcome): int {
    if result != Win && skill.protectedPromotion then 0
    else BaseChange(result) + StreakModifier(NextStreak(skill.currentStreak, result))
  }

  /** Where a raw LP total leaves a skill: the new position, LP and flags. */
  datatype Settlement = Settlement(standing: Position, lp: int, promotion: bool, demotion: bool)

  /**
   * The promotion/demotion machine: at 100 LP or more move one position up
   * (or saturate at 100 at the top), below 0 move one position down (or
   * floor at 0 at the bottom), otherwise stay.
   */
  function Settle(p: Position, lp: int): Settlement {
    if lp >= 100 then
      match Promoted(p)
      case Some(q) => Settlement(q, lp - 100, true, false)
      case None => Settlement(p, Min(lp, 100), false, false)
    else if lp < 0 then
      match Demoted(p)
      case Some(q) => Settlement(q, 100 + lp, false, true)
      case None => Settlement(p, 0, false, false)
    else Settlement(p, lp, false, false)
  }

  /** The event `calculateLpChange` reports for `result` on `skill`. */
  function LpChange(skill: Skill, result: Outcome): LpChangeEvent {
    var s := Settle(skill.Standing(), skill.lp + AppliedChange(skill, result));
    var moved := s.promotion || s.demotion;
    LpChangeEvent(
      result,
      BaseChange(result),
      StreakModifier(NextStreak(skill.currentStreak, result)),
      s.lp,
      skill.lp,
      s.promotion,
      s.demotion,
      if moved then Some(s.standing.rank) else None,
      if moved then Some(s.standing.division) else None)
  }

  /** The position an event leaves the skill at. */
  function EventStanding(skill: Skill, ev: LpChangeEvent): Position {
    Position(ev.newRank.GetOr(skill.rank), ev.newDivision.GetOr(skill.division))
  }

  /** An event names a new tier and division exactly when the skill moved, and the division is never 0. */
  lemma LpChangeNamesMove(skill: Skill, result: Outcome)
    ensures var ev := LpChange(skill, result);
      && (ev.newRank.Some? <==> ev.promotion || ev.demotion)
      && (ev.newDivision.Some? <==> ev.newRank.Some?)
      && (ev.newDivision.Some? ==> ev.newDivision.value >= 1)
  {
  }

  /** JavaScript's `n || fallback` on an optional number: undefined and 0 both fall back. */
  function NumberOr(n: Option<nat>, fallback: nat): nat {
    if n.Some? && n.value != 0 then n.value else fallback
  }

  // ---------------------------------------------------------------------
  // The LP change of one block (as the source computes it)
  // ---------------------------------------------------------------------

  /**
   * The promotion and demotion checks of `calculateLpChange`, step by step
   * as the source does them, on the raw total `lp`: the demotion check runs
   * after the promotion check and reads the skill's old division and tier.
   */
  method SettleLp(skill: Skill, lp: int) returns (s: Settlement)
    ensures s == Settle(skill.Standing(), lp)
  {
    ghost var p := skill.Standing();
    var newLp := lp;
    var newRank := skill.rank;
    var newDivision := skill.division;
    var promotion := false;
    var demotion := false;

    if newLp >= 100 {
      var config := GetRankConfig(skill.rank);
      if skill.division < config.divisions {
        newDivision := skill.division + 1;
        newLp := newLp - 100;
        promotion := true;
      } else {
        var currentIndex := GetRankIndex(skill.rank);
        if currentIndex < |RankConfigs| - 1 {
          newRank := RankConfigs[currentIndex + 1].rank;
          newDivision := 1;
          newLp := newLp - 100;
          promotion := true;
          RankAtIsTableRow(p.rank.Index() + 1);
        } else {
          newLp := Min(newLp, 100);
        }
      }
    }

    if newLp < 0 {
      if skill.division > 1 {
        newDivision := skill.division - 1;
        newLp := 100 + newLp;
        demotion := true;
      } else {
        var currentIndex := GetRankIndex(skill.rank);
        if currentIndex > 0 {
          newRank := RankConfigs[currentIndex - 1].rank;
          var newConfig := GetRankConfig(newRank);
          newDivision := newConfig.divisions;
          newLp := 100 + newLp;
          demotion := true;
          RankAtIsTableRow(p.rank.Index() - 1);
        } else {
          newLp := 0;
        }
      }
    }
    s := Settlement(Position(newRank, newDivision), newLp, promotion, demotion);
  }

  /**
   * `calculateLpChange`, step by step as the source does it: the new streak,
   * the base change and streak modifier, the promotion protection, and then
   * the promotion and demotion checks.
   */
  method CalculateLpChange(skill: Skill, result: Outcome) returns (ev: LpChangeEvent)
    ensures ev == LpChange(skill, result)
  {
    var baseChange := 0;
    var newStreak := skill.currentStreak;
    match result {
      case Win =>
        baseChange := LpWin;
        newStreak := if skill.currentStreak >= 0 then skill.currentStreak + 1 else 1;
      case Loss =>
        baseChange := LpLoss;
        newStreak := if skill.currentStreak <= 0 then skill.currentStreak - 1 else -1;
      case Abandon =>
        baseChange := LpAbandon;
        newStreak := if skill.currentStreak <= 0 then skill.currentStreak - 1 else -1;
    }

    var streakBonus := if result == Win then StreakModifier(newStreak) else 0;
    var streakPenalty := if result != Win then StreakModifier(newStreak) else 0;
    var totalChange := baseChange + streakBonus + streakPenalty;
    if result != Win && skill.protectedPromotion {
      totalChange := 0;
    }
    assert newStreak == NextStreak(skill.currentStreak, result);
    assert totalChange == AppliedChange(skill, result);

    var oldLp := skill.lp;
    var settled := SettleLp(skill, skill.lp + totalChange);
    var moved := settled.promotion || settled.demotion;
    ev := LpChangeEvent(
      result,
      baseChange,
      streakBonus + streakPenalty,
      settled.lp,
      oldLp,
      settled.promotion,
      settled.demotion,
      if moved then Some(settled.standing.rank) else None,
      if moved then Some(settled.standing.division) else None);
  }

  // ---------------------------------------------------------------------
  // Applying a block to a skill
  // ---------------------------------------------------------------------

  datatype Applied = Applied(updatedSkill: Skill, event: LpChangeEvent)

  /** The peak after an event: raised to the new position only by a promotion past it. */
  function PeakAfter(skill: Skill, ev: LpChangeEvent): Position {
    var standing := EventStanding(skill, ev);
    if ev.promotion && Below(skill.PeakStanding(), standing) then standing else skill.PeakStanding()
  }

  /**
   * The skill after a block lasting `blockDuration` minutes that `ev`
   * reports, with the streak computed once and threaded through.
   */
  function ScoredSkill(skill: Skill, result: Outcome, blockDuration: int, ev: LpChangeEvent): Skill {
    var streak := NextStreak(skill.currentStreak, result);
    var standing := EventStanding(skill, ev);
    var peak := PeakAfter(skill, ev);
    skill.(
      lp := ev.newLp,
      rank := standing.rank,
      division := standing.division,
      totalMinutes := skill.totalMinutes + blockDuration,
      totalBlocks := skill.totalBlocks + 1,
      wins := if result == Win then skill.wins + 1 else skill.wins,
      losses := if result == Loss then skill.losses + 1 else skill.losses,
      abandons := if result == Abandon then skill.abandons + 1 else skill.abandons,
      currentStreak := streak,
      bestStreak := Max(skill.bestStreak, streak),
      worstStreak := Min(skill.worstStreak, streak),
      protectedPromotion := ev.promotion || (result == Win && skill.protectedPromotion),
      peakRank := peak.rank,
      peakDivision := peak.division)
  }

  /** The skill and event after one scored block. */
  function ApplyOutcome(skill: Skill, result: Outcome, blockDuration: int): Applied {
    var ev := LpChange(skill, result);
    Applied(ScoredSkill(skill, result, blockDuration, ev), ev)
  }

  /**
   * `applyLpChange`, as the source does it: the streak is computed a second
   * time, the new tier and division fall back through JavaScript's `||`, and
   * the peak fields are overwritten afterwards when a promotion passes them.
   */
  method ApplyLpChange(skill: Skill, result: Outcome, blockDuration: int)
    returns (updatedSkill: Skill, event: LpChangeEvent)
    ensures event == LpChange(skill, result)
    ensures updatedSkill == ScoredSkill(skill, result, blockDuration, event)
  {
    event := CalculateLpChange(skill, result);
    LpChangeNamesMove(skill, result);
    assert NumberOr(event.newDivision, skill.division) == event.newDivision.GetOr(skill.division);
    assert NumberOr(event.newDivision, 1) == event.newDivision.GetOr(1);

    var newStreak := skill.currentStreak;
    if result == Win {
      newStreak := if skill.currentStreak >= 0 then skill.currentStreak + 1 else 1;
    } else {
      newStreak := if skill.currentStreak <= 0 then skill.currentStreak - 1 else -1;
    }

    assert newStreak == NextStreak(skill.currentStreak, result);
    ghost var standing := EventStanding(skill, event);

    updatedSkill := skill.(
      lp := event.newLp,
      rank := event.newRank.GetOr(skill.rank),
      division := NumberOr(event.newDivision, skill.division),
      totalMinutes := skill.totalMinutes + blockDuration,
      totalBlocks := skill.totalBlocks + 1,
      wins := if result == Win then skill.wins + 1 else skill.wins,
      losses := if result == Loss then skill.losses + 1 else skill.losses,
      abandons := if result == Abandon then skill.abandons + 1 else skill.abandons,
      currentStreak := newStreak,
      bestStreak := Max(skill.bestStreak, newStreak),
      worstStreak := Min(skill.worstStreak, newStreak),
      protectedPromotion := if event.promotion then true else (if result != Win then false else skill.protectedPromotion));
    ghost var expected := ScoredSkill(skill, result, blockDuration, event);
    assert updatedSkill == expected.(peakRank := skill.peakRank, peakDivision := skill.peakDivision);

    if event.promotion && event.newRank.Some? {
      var currentPeakIndex := GetRankIndex(skill.peakRank);
      var newRankIndex := GetRankIndex(event.newRank.value);
      if newRankIndex > currentPeakIndex ||
         (newRankIndex == currentPeakIndex && NumberOr(event.newDivision, 1) > skill.peakDivision) {
        assert Below(skill.PeakStanding(), standing);
        updatedSkill := updatedSkill.(
          peakRank := event.newRank.value,
          peakDivision := NumberOr(event.newDivision, 1));
      } else {
        assert !Below(skill.PeakStanding(), standing);
        assert expected.PeakStanding() == skill.PeakStanding();
      }
    } else {
      assert expected.PeakStanding() == skill.PeakStanding();
    }
  }

  // ---------------------------------------------------------------------
  // Properties of one scored block
  // ---------------------------------------------------------------------

  /** LP inside a division: below 100, except that Radiant saturates at exactly 100. */
  predicate LpInRange(lp: int, rank: Rank) {
    0 <= lp < 100 || (rank == Radiant && lp == 100)
  }

  /**
   * The event reports the flat amount of the outcome and the streak
   * modifier of the new streak (a bonus on a win, a penalty otherwise),
   * whether or not protection suppressed them.
   */
  lemma LpChangeReportsAmounts(skill: Skill, result: Outcome)
    ensures var ev := LpChange(skill, result);
      && ev.kind == result
      && ev.oldLp == skill.lp
      && ev.amount == (match result case Win => 20 case Loss => -20 case Abandon => -30)
      && ev.bonusAmount == StreakModifier(NextStreak(skill.currentStreak, result))
      && (result == Win ==> 0 <= ev.bonusAmount <= 10)
      && (result != Win ==> -10 <= ev.bonusAmount <= 0)
  {
  }

  /** The applied change is a gain of 20 to 30 on a win, a loss of 20 to 40 otherwise, or 0 when protected. */
  lemma AppliedChangeBounds(skill: Skill, result: Outcome)
    ensures var c := AppliedChange(skill, result);
      && (result == Win ==> 20 <= c <= 30)
      && (result == Loss && !skill.protectedPromotion ==> -30 <= c <= -20)
      && (result == Abandon && !skill.protectedPromotion ==> -40 <= c <= -30)
      && (result != Win && skill.protectedPromotion ==> c == 0)
  {
  }

  /**
   * Promotion protection: a non-win on a protected skill applies no LP at
   * all (so no move), still reports the unsuppressed amounts, and uses up
   * the protection.
   */
  lemma ProtectionAbsorbsNonWin(skill: Skill, result: Outcome, blockDuration: int)
    requires result != Win && skill.protectedPromotion
    requires ValidPosition(skill.Standing()) && LpInRange(skill.lp, skill.rank)
    ensures var ev := LpChange(skill, result);
      && ev.newLp == ev.oldLp == skill.lp
      && !ev.promotion && !ev.demotion
      && ev.amount + ev.bonusAmount < 0
    ensures var after := ApplyOutcome(skill, result, blockDuration).updatedSkill;
      && after.Standing() == skill.Standing()
      && !after.protectedPromotion
  {
  }

  /**
   * One block keeps a skill on the ladder: from a valid position with LP in
   * 0..100 the new position is valid and the new LP is in 0..99, or exactly
   * 100 at Radiant.
   */
  lemma LpChangeStaysInRange(skill: Skill, result: Outcome)
    requires ValidPosition(skill.Standing())
    requires 0 <= skill.lp <= 100
    ensures var ev := LpChange(skill, result);
      && ValidPosition(EventStanding(skill, ev))
      && LpInRange(ev.newLp, EventStanding(skill, ev).rank)
  {
    AppliedChangeBounds(skill, result);
    PromotedIsSuccessor(skill.Standing());
    DemotedIsPredecessor(skill.Standing());
  }

  /**
   * One block moves at most one position: never both a promotion and a
   * demotion; a promotion goes to the next position up the ladder, a
   * demotion to the next one down, and otherwise the position is kept.
   * At Iron 1 a negative total floors at 0 without a demotion.
   */
  lemma LpChangeIsSingleStep(skill: Skill, result: Outcome)
    ensures var ev := LpChange(skill, result);
      && !(ev.promotion && ev.demotion)
      && (ev.promotion ==> Promoted(skill.Standing()) == Some(EventStanding(skill, ev)))
      && (ev.demotion ==> Demoted(skill.Standing()) == Some(EventStanding(skill, ev)))
      && (!ev.promotion && !ev.demotion ==> EventStanding(skill, ev) == skill.Standing())
    ensures var ev := LpChange(skill, result);
      skill.Standing() == Position(Iron, 1) && skill.lp + AppliedChange(skill, result) < 0 ==>
        ev.newLp == 0 && !ev.demotion
  {
  }

  /** Within a tier, a promotion raises the division by one; from the top division it enters the next tier at division 1. */
  lemma PromotionSteps(skill: Skill, result: Outcome)
    requires LpChange(skill, result).promotion
    ensures var q := EventStanding(skill, LpChange(skill, result));
      if skill.division < Divisions(skill.rank) then q == Position(skill.rank, skill.division + 1)
      else q.rank.Index() == skill.rank.Index() + 1 && q.division == 1
  {
  }

  /** A demotion lowers the division by one; from division 1 it lands in the top division of the tier below. */
  lemma DemotionSteps(skill: Skill, result: Outcome)
    requires LpChange(skill, result).demotion
    ensures var q := EventStanding(skill, LpChange(skill, result));
      if skill.division > 1 then q == Position(skill.rank, skill.division - 1)
      else q.rank.Index() + 1 == skill.rank.Index() && q.division == Divisions(q.rank)
  {
  }

  /**
   * The counters and flags `applyLpChange` keeps: one more block, the
   * outcome's counter up by one and the other two unchanged, the minutes
   * added, best and worst streak extended, protection set by a promotion
   * and cleared by any other non-win, and identity and history untouched.
   */
  lemma ApplyOutcomeBookkeeping(skill: Skill, result: Outcome, blockDuration: int)
    ensures var r := ApplyOutcome(skill, result, blockDuration);
      var after := r.updatedSkill;
      var streak := NextStreak(skill.currentStreak, result);
      && r.event == LpChange(skill, result)
      && after.lp == r.event.newLp
      && after.Standing() == EventStanding(skill, r.event)
      && after.totalBlocks == skill.totalBlocks + 1
      && after.wins + after.losses + after.abandons == skill.wins + skill.losses + skill.abandons + 1
      && after.wins == skill.wins + (if result == Win then 1 else 0)
      && after.losses == skill.losses + (if result == Loss then 1 else 0)
      && after.abandons == skill.abandons + (if result == Abandon then 1 else 0)
      && after.totalMinutes == skill.totalMinutes + blockDuration
      && after.currentStreak == streak
      && after.bestStreak >= skill.bestStreak && after.bestStreak >= streak
      && (after.bestStreak == skill.bestStreak || after.bestStreak == streak)
      && after.worstStreak <= skill.worstStreak && after.worstStreak <= streak
      && (after.worstStreak == skill.worstStreak || after.worstStreak == streak)
      && (r.event.promotion ==> after.protectedPromotion)
      && (!r.event.promotion && result != Win ==> !after.protectedPromotion)
      && (!r.event.promotion && result == Win ==> after.protectedPromotion == skill.protectedPromotion)
      && after.id == skill.id && after.name == skill.name && after.icon == skill.icon
      && after.color == skill.color && after.history == skill.history
      && after.createdAt == skill.createdAt
  {
  }

  /**
   * The peak never goes down; a promotion raises it to the new position
   * when that is higher, and without a promotion it stays as it was.
   */
  lemma PeakNeverDecreases(skill: Skill, result: Outcome, blockDuration: int)
    ensures var r := ApplyOutcome(skill, result, blockDuration);
      var peak := r.updatedSkill.PeakStanding();
      && AtOrBelow(skill.PeakStanding(), peak)
      && (r.event.promotion ==> AtOrBelow(EventStanding(skill, r.event), peak))
      && (r.event.promotion ==> peak == skill.PeakStanding() || peak == EventStanding(skill, r.event))
      && (!r.event.promotion ==> peak == skill.PeakStanding())
  {
    var r := ApplyOutcome(skill, result, blockDuration);
    BelowIsStrictTotalOrder(skill.PeakStanding(), EventStanding(skill, r.event), skill.PeakStanding());
  }

  /**
   * What a skill keeps true between blocks: a valid position with LP in
   * range, a valid peak at or above it, the three outcome counters adding
   * up to the block count, and the best and worst streaks bracketing the
   * current one (and 0).
   */
  predicate Progression(s: Skill) {
    && ValidPosition(s.Standing())
    && LpInRange(s.lp, s.rank)
    && ValidPosition(s.PeakStanding())
    && AtOrBelow(s.Standing(), s.PeakStanding())
    && s.wins + s.losses + s.abandons == s.totalBlocks
    && s.worstStreak <= s.currentStreak <= s.bestStreak
    && s.worstStreak <= 0 <= s.bestStreak
  }

  /** Scoring a block keeps a skill's progression state consistent. */
  lemma ApplyOutcomePreservesProgression(skill: Skill, result: Outcome, blockDuration: int)
    requires Progression(skill)
    ensures Progression(ApplyOutcome(skill, result, blockDuration).updatedSkill)
  {
    var r := ApplyOutcome(skill, result, blockDuration);
    var after := r.updatedSkill;
    LpChangeStaysInRange(skill, result);
    LpChangeIsSingleStep(skill, result);
    PeakNeverDecreases(skill, result, blockDuration);
    if r.event.demotion {
      DemotedIsPredecessor(skill.Standing());
      BelowIsStrictTotalOrder(after.Standing(), skill.Standing(), skill.PeakStanding());
    }
  }

  /** `createSkill`: a fresh skill at Iron 1 with no LP, no blocks and no history; `now` and `token` stand for the clock and the random id suffix. */
  function CreateSkill(name: string, icon: string, color: string, now: Millis, token: string): (s: Skill)
    ensures Progression(s)
    ensures s.Standing() == s.PeakStanding() == Position(Iron, 1)
    ensures s.lp == 0 && s.totalBlocks == 0 && s.totalMinutes == 0 && s.currentStreak == 0
    ensures s.wins == 0 && s.losses == 0 && s.abandons == 0 && s.bestStreak == 0 && s.worstStreak == 0
    ensures s.history == [] && !s.protectedPromotion
    ensures s.name == name && s.icon == icon && s.color == color && s.createdAt == now
  {
    Skill(
      id := "skill_" + IntToString(now) + "_" + token,
      name := name,
      icon := icon,
      color := color,
      lp := 0,
      rank := Iron,
      division := 1,
      totalMinutes := 0,
      totalBlocks := 0,
      wins := 0,
      losses := 0,
      abandons := 0,
      currentStreak := 0,
      bestStreak := 0,
      worstStreak := 0,
      peakRank := Iron,
      peakDivision := 1,
      history := [],
      protectedPromotion := false,
      createdAt := now)
  }

  // ---------------------------------------------------------------------
  // Display helpers
  // ---------------------------------------------------------------------

  /** JavaScript's `minutes % 60`: the remainder takes the sign of the dividend. */
  function MinutesPastHour(minutes: int): (r: int)
    ensures minutes >= 0 ==> 0 <= r < 60 && r == minutes % 60
    ensures minutes < 0 ==> -60 < r <= 0
    ensures (minutes - r) % 60 == 0
  {
    if minutes >= 0 then minutes % 60 else -((-minutes) % 60)
  }

  /** `formatHours`: "Xm" under an hour, "Xh" on the hour, "Xh Ym" otherwise. */
  function FormatHours(minutes: int): (r: string)
    ensures |r| >= 2
    ensures r[|r| - 1] == 'h' <==> minutes / 60 != 0 && minutes % 60 == 0
    ensures r[|r| - 1] != 'h' ==> r[|r| - 1] == 'm'
  {
    var hours := minutes / 60;
    var mins := MinutesPastHour(minutes);
    if hours == 0 then IntToString(mins) + "m"
    else if mins == 0 then IntToString(hours) + "h"
    else IntToString(hours) + "h " + IntToString(mins) + "m"
  }

  /** Reads back a duration rendered as "Xm", "Xh" or "Xh Ym" (with Y below 60). */
  function ParseHours(s: string): Option<int> {
    match ParseNatPrefix(s)
    case None => None
    case Some((a, rest)) => ParseUnit(a, rest)
  }

  /** What follows the leading number `a`: "m", "h", or "h " and the minutes. */
  function ParseUnit(a: nat, rest: string): Option<int> {
    if rest == "m" then Some(a)
    else if rest == "h" then Some(60 * a)
    else if |rest| >= 2 && rest[..2] == "h " then ParseMinutesAfterHours(a, rest[2..])
    else None
  }

  /** The "Ym" part after "Xh ", with Y below 60. */
  function ParseMinutesAfterHours(hours: nat, s: string): Option<int> {
    match ParseNatPrefix(s)
    case None => None
    case Some((b, tail)) => if tail == "m" && b < 60 then Some(60 * hours + b) else None
  }

  /** Formatting a non-negative number of minutes loses nothing. */
  lemma FormatHoursRoundTrip(minutes: nat)
    ensures ParseHours(FormatHours(minutes)) == Some(minutes)
  {
    var hours := minutes / 60;
    var mins := minutes % 60;
    assert minutes == 60 * hours + mins;
    if hours == 0 {
      assert FormatHours(minutes) == NatToString(mins) + "m";
      ParseNatPrefixRendered(mins, "m");
    } else if mins == 0 {
      assert FormatHours(minutes) == NatToString(hours) + "h";
      ParseNatPrefixRendered(hours, "h");
    } else {
      assert FormatHours(minutes) == NatToString(hours) + "h " + NatToString(mins) + "m";
      HoursAndMinutesRoundTrip(hours, mins);
    }
  }

  /** "Xh Ym" reads back as X hours and Y minutes. */
  lemma HoursAndMinutesRoundTrip(hours: nat, mins: nat)
    requires 0 < mins < 60
    ensures ParseHours(NatToString(hours) + "h " + NatToString(mins) + "m") == Some(60 * hours + mins)
  {
    var rest := "h " + NatToString(mins) + "m";
    assert NatToString(hours) + "h " + NatToString(mins) + "m" == NatToString(hours) + rest;
    ParseNatPrefixRendered(hours, rest);
    MinutesAfterHoursRoundTrip(hours, mins);
  }

  /** The unit part "h Ym" after the hours reads back as Y minutes on top of them. */
  lemma MinutesAfterHoursRoundTrip(hours: nat, mins: nat)
    requires 0 < mins < 60
    ensures ParseUnit(hours, "h " + NatToString(mins) + "m") == Some(60 * hours + mins)
  {
    var rest := "h " + NatToString(mins) + "m";
    assert |rest| >= 4 && rest[..2] == "h ";
    assert rest[2..] == NatToString(mins) + "m";
    ParseNatPrefixRendered(mins, "m");
  }

  /**
   * `getRankDisplayName`: the Radiant level's name when one is given for
   * Radiant, the tier's Spanish name for single-division tiers, and the
   * Spanish name followed by the division otherwise.
   */
  function GetRankDisplayName(rank: Rank, division: int, radiantLevel: Option<RadiantLevel>): (r: string)
    ensures rank == Radiant && radiantLevel.Some? ==> r == GetRadiantLevelName(radiantLevel.value)
    ensures !(rank == Radiant && radiantLevel.Some?) && Divisions(rank) == 1 ==> r == GetRankConfig(rank).nameEs
    ensures !(rank == Radiant && radiantLevel.Some?) && Divisions(rank) == 3 && division >= 0 ==>
      var n := GetRankConfig(rank).nameEs;
      && |r| > |n| + 1 && r[..|n|] == n && r[|n|] == ' '
      && AllDigits(r[|n| + 1..]) && ParseNat(r[|n| + 1..]) == division
  {
    var config := GetRankConfig(rank);
    if rank == Radiant && radiantLevel.Some? then GetRadiantLevelName(radiantLevel.value)
    else if config.divisions == 1 then config.nameEs
    else
      var r := config.nameEs + " " + IntToString(division);
      assert division >= 0 ==> ParseNat(r[|config.nameEs| + 1..]) == division by {
        if division >= 0 {
          assert r[|config.nameEs| + 1..] == NatToString(division);
          ParseNatToString(division);
        }
      }
      r
  }

  /** In a tier with divisions, the display name is the Spanish name, a space and the division's digit. */
  lemma DivisionedDisplayName(p: Position)
    requires ValidPosition(p) && Divisions(p.rank) == 3
    ensures var n := GetRankDisplayName(p.rank, p.division, None);
      && |n| >= 2
      && n[..|n| - 2] == GetRankConfig(p.rank).nameEs
      && n[|n| - 1] == DigitChar(p.division)
  {
    var np := GetRankConfig(p.rank).nameEs;
    assert GetRankDisplayName(p.rank, p.division, None) == np + " " + [DigitChar(p.division)];
  }

  /** Different ladder positions are displayed differently. */
  lemma RankDisplayNameIdentifiesPosition(p: Position, q: Position)
    requires ValidPosition(p) && ValidPosition(q)
    requires GetRankDisplayName(p.rank, p.division, None) == GetRankDisplayName(q.rank, q.division, None)
    ensures p == q
  {
    if Divisions(p.rank) == 3 && Divisions(q.rank) == 3 {
      DivisionedDisplayName(p);
      DivisionedDisplayName(q);
      assert DigitValue(DigitChar(p.division)) == p.division;
      assert DigitValue(DigitChar(q.division)) == q.division;
      NameEsDistinct(p.rank, q.rank);
    } else if Divisions(p.rank) == 1 && Divisions(q.rank) == 1 {
      NameEsDistinct(p.rank, q.rank);
    } else if Divisions(p.rank) == 1 {
      DivisionedDisplayName(q);
      SingleNamesAreNotPrefixed(p.rank, q.rank);
    } else {
      DivisionedDisplayName(p);
      SingleNamesAreNotPrefixed(q.rank, p.rank);
    }
  }

  /**
   * `calculateWinRate`: the percentage of wins among all blocks, rounded
   * half up to a whole number, and 0 when there are no blocks.
   */
  function CalculateWinRate(wins: nat, losses: nat, abandons: nat): (rate: nat)
    ensures wins + losses + abandons == 0 ==> rate == 0
    ensures var total := wins + losses + abandons;
      total > 0 ==> 2 * total * rate <= 200 * wins + total < 2 * total * rate + 2 * total
    ensures rate <= 100
  {
    var total := wins + losses + abandons;
    if total == 0 then 0
    else
      var rate := (200 * wins + total) / (2 * total);
      RoundedQuotientBounds(200 * wins + total, 2 * total, 101);
      rate
  }

  /** The quotient `n / d` brackets `n` between consecutive multiples of `d`, and stays below `k` when `n` is below `d * k`. */
  lemma RoundedQuotientBounds(n: nat, d: nat, k: nat)
    requires d > 0 && n < d * k
    ensures d * (n / d) <= n < d * (n / d) + d
    ensures n / d < k
  {
    var q := n / d;
    assert n == d * q + n % d;
    if q >= k {
      MultiplyIsMonotone(d, k, q);
    }
  }

  lemma MultiplyIsMonotone(d: nat, a: nat, b: nat)
    requires a <= b
    ensures d * a <= d * b
  {
  }
}
