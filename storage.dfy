/**
 * The season lifecycle and the default player state. Persistence itself
 * (the browser's local storage) is not part of this model.
 */
module Storage {
  import opened Wrappers
  import opened Types
  import opened Text
  import opened RankSystem

  const DefaultSettings: PlayerSettings := PlayerSettings(30, true, true)

  const DefaultAreas: seq<string> := ["Programación", "Salud", "Estudio", "Arte", "Trabajo", "Otros"]

  const MillisPerDay: int := 1000 * 60 * 60 * 24

  /** Length of a season in whole days. */
  const SeasonDays: int := 30

  /**
   * `generateId`: a prefix, the clock reading and a random suffix joined by
   * underscores; `now` and `token` stand for `Date.now()` and the random part.
   */
  function GenerateId(prefix: string, now: Millis, token: string): (id: string)
    ensures |id| > |prefix| + 1 && id[..|prefix|] == prefix && id[|prefix|] == '_'
  {
    prefix + "_" + IntToString(now) + "_" + token
  }

  /**
   * Ids drawn at two non-negative moments with the same prefix and the
   * same random suffix are equal only when the moments are: the time part
   * of an id can be read back.
   */
  lemma GenerateIdDeterminesTime(prefix: string, t1: Millis, t2: Millis, token: string)
    requires 0 <= t1 && 0 <= t2
    requires GenerateId(prefix, t1, token) == GenerateId(prefix, t2, token)
    ensures t1 == t2
  {
    var head, tail := prefix + "_", "_" + token;
    var a, b := NatToString(t1), NatToString(t2);
    GenerateIdParts(prefix, t1, token);
    GenerateIdParts(prefix, t2, token);
    CommonPrefix(head, a + tail, b + tail);
    CommonSuffix(a, b, tail);
    NatToStringInjective(t1, t2);
  }

  /** An id drawn at a non-negative time is the prefix and "_", then the time's digits, "_" and the suffix. */
  lemma GenerateIdParts(prefix: string, t: Millis, token: string)
    requires 0 <= t
    ensures GenerateId(prefix, t, token) == (prefix + "_") + (NatToString(t) + ("_" + token))
  {
    assert IntToString(t) == NatToString(t);
  }

  /** Two strings that are equal after the same head are equal. */
  lemma CommonPrefix(head: string, x: string, y: string)
    requires head + x == head + y
    ensures x == y
  {
    assert x == (head + x)[|head|..];
    assert y == (head + y)[|head|..];
  }

  /** Two strings that are equal before the same tail are equal. */
  lemma CommonSuffix(x: string, y: string, tail: string)
    requires x + tail == y + tail
    ensures x == y
  {
    assert |x| == |y|;
    assert x == (x + tail)[..|x|];
    assert y == (y + tail)[..|y|];
  }

  /** `createInitialState`: season 1 starting now, no skills, the default areas and settings, no active block. */
  function CreateInitialState(now: Millis): (s: PlayerState)
    ensures s.currentSeason == 1 && s.seasonStartDate == now && s.createdAt == now
    ensures s.skills == [] && s.areas == DefaultAreas && s.settings == DefaultSettings
    ensures s.activeBlockId.None? && s.activeSkillId.None?
    ensures s.activeBlockStartTime.None? && s.activeBlockDuration.None?
    ensures !ShouldStartNewSeason(s.seasonStartDate, now)
  {
    PlayerState(
      id := "player_" + IntToString(now),
      createdAt := now,
      currentSeason := 1,
      seasonStartDate := now,
      skills := [],
      areas := DefaultAreas,
      settings := DefaultSettings,
      activeBlockId := None,
      activeSkillId := None,
      activeBlockStartTime := None,
      activeBlockDuration := None)
  }

  /** `shouldStartNewSeason`: at least 30 whole days have passed since the season started. */
  function ShouldStartNewSeason(seasonStartDate: Millis, now: Millis): (due: bool)
    ensures due <==> now - seasonStartDate >= SeasonDays * MillisPerDay
  {
    var daysDiff := (now - seasonStartDate) / MillisPerDay;
    daysDiff >= SeasonDays
  }

  /** The season decay of LP: `Math.floor(lp * 0.8)`, i.e. 80% rounded down. */
  function DecayLp(lp: int): (decayed: int)
    ensures 5 * decayed <= 4 * lp < 5 * decayed + 5
    ensures lp >= 0 ==> 0 <= decayed <= lp
    ensures lp > 0 ==> decayed < lp
  {
    (4 * lp) / 5
  }

  /** One skill at a season rollover: LP decayed, streak and promotion protection cleared. */
  function ResetSkill(skill: Skill): (r: Skill)
    ensures r == skill.(lp := r.lp, currentStreak := 0, protectedPromotion := false)
    ensures 5 * r.lp <= 4 * skill.lp < 5 * r.lp + 5
    ensures skill.lp >= 0 ==> 0 <= r.lp <= skill.lp
  {
    skill.(lp := DecayLp(skill.lp), currentStreak := 0, protectedPromotion := false)
  }

  /**
   * `applySeasonReset`: the next season starts now, and every skill, in
   * the same order, has its LP decayed and its streak and protection
   * cleared; nothing else changes.
   */
  function ApplySeasonReset(state: PlayerState, now: Millis): (r: PlayerState)
    ensures r.currentSeason == state.currentSeason + 1 && r.seasonStartDate == now
    ensures r == state.(currentSeason := r.currentSeason, seasonStartDate := now, skills := r.skills)
    ensures |r.skills| == |state.skills|
    ensures forall i :: 0 <= i < |state.skills| ==>
      && r.skills[i].lp == DecayLp(state.skills[i].lp)
      && r.skills[i].currentStreak == 0
      && !r.skills[i].protectedPromotion
      && r.skills[i] == state.skills[i].(lp := r.skills[i].lp, currentStreak := 0, protectedPromotion := false)
  {
    state.(
      currentSeason := state.currentSeason + 1,
      seasonStartDate := now,
      skills := seq(|state.skills|, i requires 0 <= i < |state.skills| => ResetSkill(state.skills[i])))
  }

  /** A season rollover keeps every skill's progression state consistent. */
  lemma ResetSkillPreservesProgression(skill: Skill)
    requires Progression(skill)
    ensures Progression(ResetSkill(skill))
    ensures ResetSkill(skill).Standing() == skill.Standing()
    ensures 0 <= ResetSkill(skill).lp <= skill.lp
  {
  }

  /** Right after a rollover no new season is due, so checking twice at the same moment resets once. */
  lemma SeasonResetIsNotDueAgain(state: PlayerState, now: Millis)
    ensures !ShouldStartNewSeason(ApplySeasonReset(state, now).seasonStartDate, now)
  {
  }
}
