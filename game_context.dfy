/**
 * The game reducer: every user action as a pure transition over the
 * player state. The clock reading and the random id suffixes the reducer
 * would draw are passed in; audio feedback is not part of this model.
 */
module GameContext {
  import opened Wrappers
  import opened Ranks
  import opened Types
  import opened RankSystem
  import opened Storage

  /** The keys an UPDATE_SETTINGS action may carry; a missing key keeps the current value. */
  datatype SettingsPatch = SettingsPatch(
    blockDuration: Option<int>,
    soundEnabled: Option<bool>,
    notificationsEnabled: Option<bool>)

  datatype Action =
    | LoadState(payload: PlayerState)
    | AddSkill(name: string, icon: string, color: string, initialRank: Option<Rank>)
    | DeleteSkill(skillId: string)
    | StartBlock(startSkillId: string)
    | EndBlock(result: Outcome, notes: Option<string>)
    | CancelBlock
    | UpdateSettings(patch: SettingsPatch)
    | CheckSeason

  /** What the reducer reads from the outside world: the clock and two random id suffixes. */
  datatype Env = Env(now: Millis, skillToken: string, recordToken: string)

  /** JavaScript truthiness of an optional string: absent and empty are both false. */
  predicate Truthy(s: Option<string>) {
    s.Some? && s.value != ""
  }

  // ---------------------------------------------------------------------
  // Skill-list helpers
  // ---------------------------------------------------------------------

  /** The position of the first skill with that id, or -1 when there is none. */
  function FindSkillIndex(skills: seq<Skill>, id: string): (i: int)
    ensures -1 <= i < |skills|
    ensures i == -1 <==> forall k :: 0 <= k < |skills| ==> skills[k].id != id
    ensures i >= 0 ==> skills[i].id == id && forall k :: 0 <= k < i ==> skills[k].id != id
  {
    if skills == [] then -1
    else if skills[0].id == id then 0
    else
      var i := FindSkillIndex(skills[1..], id);
      if i == -1 then -1 else i + 1
  }

  /** `skills.find(s => s.id === id)`: the first skill with that id. */
  function FindSkill(skills: seq<Skill>, id: string): (r: Option<Skill>)
    ensures r.None? <==> forall k :: 0 <= k < |skills| ==> skills[k].id != id
    ensures r.Some? ==> r.value.id == id && r.value in skills
    ensures r.Some? ==> exists i :: 0 <= i < |skills| && skills[i] == r.value && forall k :: 0 <= k < i ==> skills[k].id != id
  {
    var i := FindSkillIndex(skills, id);
    if i == -1 then None else Some(skills[i])
  }

  /** `skills.filter(s => s.id !== id)`: the skills without that id, in their order. */
  function Without(skills: seq<Skill>, id: string): (r: seq<Skill>)
    ensures |r| <= |skills|
    ensures forall k :: 0 <= k < |r| ==> r[k].id != id && r[k] in skills
    ensures forall s :: s in skills && s.id != id ==> s in r
  {
    if skills == [] then []
    else
      var rest := Without(skills[1..], id);
      assert forall s :: s in skills[1..] ==> s in skills;
      if skills[0].id == id then rest else [skills[0]] + rest
  }

  /** Filtering distributes over concatenation, so the kept skills keep their relative order. */
  lemma {:induction false} WithoutDistributes(a: seq<Skill>, b: seq<Skill>, id: string)
    ensures Without(a + b, id) == Without(a, id) + Without(b, id)
  {
    if a != [] {
      assert (a + b)[0] == a[0] && (a + b)[1..] == a[1..] + b;
      WithoutDistributes(a[1..], b, id);
    } else {
      assert a + b == b;
    }
  }

  /** Filtering out an id no skill has changes nothing. */
  lemma {:induction false} WithoutAbsentId(skills: seq<Skill>, id: string)
    requires forall k :: 0 <= k < |skills| ==> skills[k].id != id
    ensures Without(skills, id) == skills
  {
    if skills != [] {
      WithoutAbsentId(skills[1..], id);
    }
  }

  /** `skills.map(s => s.id === id ? updated : s)`. */
  function ReplaceById(skills: seq<Skill>, id: string, updated: Skill): (r: seq<Skill>)
    ensures |r| == |skills|
    ensures forall k :: 0 <= k < |skills| ==> r[k] == if skills[k].id == id then updated else skills[k]
  {
    seq(|skills|, k requires 0 <= k < |skills| => if skills[k].id == id then updated else skills[k])
  }

  /** `Math.round(ms / 60000)`: elapsed milliseconds to whole minutes, halves rounded up. */
  function RoundedMinutes(ms: int): (m: int)
    ensures 120000 * m <= 2 * ms + 60000 < 120000 * m + 120000
    ensures ms >= 0 ==> m >= 0
  {
    (2 * ms + 60000) / 120000
  }

  // ---------------------------------------------------------------------
  // The actions
  // ---------------------------------------------------------------------

  /** The history entry that records a placement above Iron. */
  function PlacementRecord(skill: Skill, rank: Rank, env: Env): BlockResult {
    BlockResult(
      id := GenerateId("placed", env.now, env.recordToken),
      skillId := skill.id,
      startTime := env.now,
      endTime := env.now,
      duration := 0,
      result := Win,
      lpChange := 0,
      rankBefore := Iron,
      divisionBefore := 1,
      rankAfter := rank,
      divisionAfter := 1,
      notes := Some("Initial Placement"))
  }

  /** The skill ADD_SKILL creates: a fresh skill, placed at division 1 of the initial rank with 50 LP unless that is Iron. */
  function NewSkill(name: string, icon: string, color: string, initialRank: Option<Rank>, env: Env): (s: Skill)
    ensures s.name == name && s.icon == icon && s.color == color && s.createdAt == env.now
    ensures s.division == s.peakDivision == 1 && !s.protectedPromotion
    ensures s.totalBlocks == 0 && s.wins == 0 && s.losses == 0 && s.abandons == 0 && s.totalMinutes == 0
    ensures s.currentStreak == 0 && s.bestStreak == 0 && s.worstStreak == 0
    ensures initialRank.Some? && initialRank.value != Iron ==>
      && s.rank == s.peakRank == initialRank.value && s.lp == 50
      && |s.history| == 1
      && var h := s.history[0];
      && h.skillId == s.id && h.startTime == h.endTime == env.now && h.duration == 0
      && h.result == Win && h.lpChange == 0
      && h.rankBefore == Iron && h.divisionBefore == 1
      && h.rankAfter == initialRank.value && h.divisionAfter == 1
    ensures initialRank.None? || initialRank.value == Iron ==>
      s.rank == s.peakRank == Iron && s.lp == 0 && s.history == []
  {
    var skill := CreateSkill(name, icon, color, env.now, env.skillToken);
    if initialRank.Some? && initialRank.value != Iron then
      var rank := initialRank.value;
      skill.(rank := rank, peakRank := rank, lp := 50,
             history := skill.history + [PlacementRecord(skill, rank, env)])
    else skill
  }

  /**
   * ADD_SKILL: exactly one skill is appended. Placed above Iron, it starts
   * at division 1 of that rank (also its peak) with 50 LP and a single
   * placement entry in its history, a "win" worth 0 LP that is not counted
   * as a block; otherwise it starts at Iron 1 with no LP and no history.
   */
  function AddSkillStep(state: PlayerState, name: string, icon: string, color: string,
                        initialRank: Option<Rank>, env: Env): (r: PlayerState)
    ensures |r.skills| == |state.skills| + 1 && r.skills[..|state.skills|] == state.skills
    ensures r == state.(skills := r.skills)
    ensures var s := r.skills[|state.skills|];
      && s.name == name && s.icon == icon && s.color == color
      && s.wins == 0 && s.totalBlocks == 0 && s.currentStreak == 0
      && s.division == s.peakDivision == 1
      && (initialRank.Some? && initialRank.value != Iron ==>
            && s.rank == s.peakRank == initialRank.value
            && s.lp == 50
            && |s.history| == 1
            && s.history[0].result == Win && s.history[0].lpChange == 0
            && s.history[0].rankBefore == Iron && s.history[0].rankAfter == initialRank.value)
      && (initialRank.None? || initialRank.value == Iron ==>
            s.rank == s.peakRank == Iron && s.lp == 0 && s.history == [])
  {
    state.(skills := state.skills + [NewSkill(name, icon, color, initialRank, env)])
  }

  /** DELETE_SKILL: the skills with that id are removed and the others kept in order; nothing else changes. */
  function DeleteSkillStep(state: PlayerState, id: string): (r: PlayerState)
    ensures r == state.(skills := Without(state.skills, id))
    ensures forall k :: 0 <= k < |r.skills| ==> r.skills[k].id != id
  {
    state.(skills := Without(state.skills, id))
  }

  /** START_BLOCK: a new block for the skill starts now under a fresh block id; the skills are untouched. */
  function StartBlockStep(state: PlayerState, skillId: string, env: Env): (r: PlayerState)
    ensures r.activeSkillId == Some(skillId) && r.activeBlockStartTime == Some(env.now)
    ensures r.activeBlockId == Some(GenerateId("block", env.now, env.recordToken)) && Truthy(r.activeBlockId)
    ensures r == state.(activeBlockId := r.activeBlockId, activeSkillId := r.activeSkillId,
                        activeBlockStartTime := r.activeBlockStartTime)
  {
    state.(
      activeBlockId := Some(GenerateId("block", env.now, env.recordToken)),
      activeSkillId := Some(skillId),
      activeBlockStartTime := Some(env.now))
  }

  /** The state with no active block. */
  function ClearActiveBlock(state: PlayerState): PlayerState {
    state.(activeBlockId := None, activeSkillId := None, activeBlockStartTime := None)
  }

  /** Whether END_BLOCK has a block to score: the three active-block fields are set and the skill exists. */
  predicate HasActiveBlock(state: PlayerState) {
    && Truthy(state.activeBlockId)
    && Truthy(state.activeSkillId)
    && state.activeBlockStartTime.Some?
    && FindSkill(state.skills, state.activeSkillId.value).Some?
  }

  /** The history entry END_BLOCK records for the active block. */
  function BlockRecord(state: PlayerState, skill: Skill, result: Outcome, notes: Option<string>, now: Millis): (b: BlockResult)
    requires state.activeBlockId.Some? && state.activeBlockStartTime.Some?
    ensures b.id == state.activeBlockId.value && b.skillId == skill.id && b.result == result && b.notes == notes
    ensures b.startTime == state.activeBlockStartTime.value && b.endTime == now
    ensures b.duration == RoundedMinutes(now - b.startTime)
    ensures var ev := LpChange(skill, result);
      && b.lpChange == ev.amount + ev.bonusAmount
      && Position(b.rankBefore, b.divisionBefore) == skill.Standing()
      && (ev.promotion ==> Promoted(skill.Standing()) == Some(Position(b.rankAfter, b.divisionAfter)))
      && (ev.demotion ==> Demoted(skill.Standing()) == Some(Position(b.rankAfter, b.divisionAfter)))
      && (!ev.promotion && !ev.demotion ==> Position(b.rankAfter, b.divisionAfter) == skill.Standing())
  {
    var start := state.activeBlockStartTime.value;
    var duration := RoundedMinutes(now - start);
    var applied := ApplyOutcome(skill, result, duration);
    ApplyOutcomeBookkeeping(skill, result, duration);
    LpChangeIsSingleStep(skill, result);
    BlockResult(
      id := state.activeBlockId.value,
      skillId := skill.id,
      startTime := start,
      endTime := now,
      duration := duration,
      result := result,
      lpChange := applied.event.amount + applied.event.bonusAmount,
      rankBefore := skill.rank,
      divisionBefore := skill.division,
      rankAfter := applied.updatedSkill.rank,
      divisionAfter := applied.updatedSkill.division,
      notes := notes)
  }

  /**
   * END_BLOCK: with no block to score the state is returned as it is.
   * Otherwise the active skill is scored for the rounded elapsed minutes,
   * the block is prepended to its history, every skill with that id is
   * replaced by the result while the others stay in place, and the active
   * block is cleared.
   */
  function EndBlockStep(state: PlayerState, result: Outcome, notes: Option<string>, env: Env): (r: PlayerState)
    ensures !HasActiveBlock(state) ==> r == state
    ensures HasActiveBlock(state) ==>
      var skill := FindSkill(state.skills, state.activeSkillId.value).value;
      var record := BlockRecord(state, skill, result, notes, env.now);
      var updated := ApplyOutcome(skill, result, record.duration).updatedSkill;
      && r == ClearActiveBlock(state).(skills := r.skills)
      && |r.skills| == |state.skills|
      && (forall k :: 0 <= k < |state.skills| && state.skills[k].id != skill.id ==> r.skills[k] == state.skills[k])
      && (forall k :: 0 <= k < |state.skills| && state.skills[k].id == skill.id ==>
            r.skills[k] == updated.(history := [record] + skill.history))
  {
    if !HasActiveBlock(state) then state
    else
      var skill := FindSkill(state.skills, state.activeSkillId.value).value;
      var record := BlockRecord(state, skill, result, notes, env.now);
      var updated := ApplyOutcome(skill, result, record.duration).updatedSkill;
      ClearActiveBlock(state).(
        skills := ReplaceById(state.skills, skill.id, updated.(history := [record] + updated.history)))
  }

  /** CANCEL_BLOCK: only the active block is cleared. */
  function CancelBlockStep(state: PlayerState): (r: PlayerState)
    ensures r.activeBlockId.None? && r.activeSkillId.None? && r.activeBlockStartTime.None?
    ensures r.(activeBlockId := state.activeBlockId, activeSkillId := state.activeSkillId,
               activeBlockStartTime := state.activeBlockStartTime) == state
  {
    ClearActiveBlock(state)
  }

  /** `{ ...settings, ...patch }`: the keys the patch carries override, the others are kept. */
  function MergeSettings(settings: PlayerSettings, patch: SettingsPatch): (r: PlayerSettings)
    ensures r.blockDuration == patch.blockDuration.GetOr(settings.blockDuration)
    ensures r.soundEnabled == patch.soundEnabled.GetOr(settings.soundEnabled)
    ensures r.notificationsEnabled == patch.notificationsEnabled.GetOr(settings.notificationsEnabled)
  {
    PlayerSettings(
      patch.blockDuration.GetOr(settings.blockDuration),
      patch.soundEnabled.GetOr(settings.soundEnabled),
      patch.notificationsEnabled.GetOr(settings.notificationsEnabled))
  }

  /** CHECK_SEASON: a rollover when the season is due, the identity otherwise. */
  function CheckSeasonStep(state: PlayerState, now: Millis): (r: PlayerState)
    ensures ShouldStartNewSeason(state.seasonStartDate, now) ==> r == ApplySeasonReset(state, now)
    ensures !ShouldStartNewSeason(state.seasonStartDate, now) ==> r == state
    ensures !ShouldStartNewSeason(r.seasonStartDate, now)
  {
    if ShouldStartNewSeason(state.seasonStartDate, now) then ApplySeasonReset(state, now) else state
  }

  /** `gameReducer`. */
  function GameReducer(state: PlayerState, action: Action, env: Env): (r: PlayerState)
    ensures action.LoadState? ==> r == action.payload
    ensures !action.LoadState? ==> r.id == state.id && r.createdAt == state.createdAt && r.areas == state.areas
    ensures !action.LoadState? && !action.CheckSeason? ==>
      r.currentSeason == state.currentSeason && r.seasonStartDate == state.seasonStartDate
    ensures !action.LoadState? && !action.UpdateSettings? ==> r.settings == state.settings
    ensures action.StartBlock? || action.CancelBlock? || action.UpdateSettings? ==> r.skills == state.skills
    ensures action.UpdateSettings? ==> r == state.(settings := r.settings)
    ensures action.CheckSeason? ==> !ShouldStartNewSeason(r.seasonStartDate, env.now)
  {
    match action
    case LoadState(payload) => payload
    case AddSkill(name, icon, color, initialRank) => AddSkillStep(state, name, icon, color, initialRank, env)
    case DeleteSkill(id) => DeleteSkillStep(state, id)
    case StartBlock(skillId) => StartBlockStep(state, skillId, env)
    case EndBlock(result, notes) => EndBlockStep(state, result, notes, env)
    case CancelBlock => CancelBlockStep(state)
    case UpdateSettings(patch) => state.(settings := MergeSettings(state.settings, patch))
    case CheckSeason => CheckSeasonStep(state, env.now)
  }

  /** `getActiveSkill`: the skill of the running block, if there is one and it still exists. */
  function ActiveSkill(state: PlayerState): (r: Option<Skill>)
    ensures state.activeSkillId.None? ==> r.None?
    ensures state.activeSkillId.Some? ==> r == FindSkill(state.skills, state.activeSkillId.value)
    ensures r.Some? ==> r.value in state.skills && Some(r.value.id) == state.activeSkillId
  {
    if state.activeSkillId.None? then None else FindSkill(state.skills, state.activeSkillId.value)
  }

  // ---------------------------------------------------------------------
  // What the reducer keeps true
  // ---------------------------------------------------------------------

  /**
   * A skill's state between actions: its progression is consistent, every
   * scored block is in its history (placements add history without a
   * block), and a running streak continues the outcome of the latest entry.
   */
  predicate SkillInvariant(s: Skill) {
    && Progression(s)
    && s.totalBlocks <= |s.history|
    && (s.currentStreak != 0 ==> |s.history| > 0 && (s.currentStreak > 0 <==> s.history[0].result == Win))
  }

  /** The player state between actions: every skill keeps its invariant and the active block is all set or all clear. */
  predicate StateInvariant(state: PlayerState) {
    && (forall k :: 0 <= k < |state.skills| ==> SkillInvariant(state.skills[k]))
    && (state.activeBlockId.Some? <==> state.activeSkillId.Some?)
    && (state.activeBlockId.Some? <==> state.activeBlockStartTime.Some?)
  }

  /** A fresh player satisfies the invariant. */
  lemma InitialStateSatisfiesInvariant(now: Millis)
    ensures StateInvariant(CreateInitialState(now))
  {
  }

  /** The skill ADD_SKILL creates satisfies the invariant, placed or not. */
  lemma NewSkillSatisfiesInvariant(name: string, icon: string, color: string, initialRank: Option<Rank>, env: Env)
    ensures SkillInvariant(NewSkill(name, icon, color, initialRank, env))
  {
    var skill := CreateSkill(name, icon, color, env.now, env.skillToken);
    if initialRank.Some? && initialRank.value != Iron {
      var placed := NewSkill(name, icon, color, initialRank, env);
      assert placed.Standing() == placed.PeakStanding() == Position(initialRank.value, 1);
      assert Divisions(initialRank.value) >= 1;
    }
  }

  /** Scoring a block and prepending its record keeps the skill invariant. */
  lemma ScoredSkillSatisfiesInvariant(skill: Skill, result: Outcome, duration: int, record: BlockResult)
    requires SkillInvariant(skill)
    requires record.result == result
    ensures var updated := ApplyOutcome(skill, result, duration).updatedSkill;
      SkillInvariant(updated.(history := [record] + updated.history))
  {
    ApplyOutcomePreservesProgression(skill, result, duration);
    ApplyOutcomeBookkeeping(skill, result, duration);
  }

  /** ADD_SKILL keeps the state invariant. */
  lemma AddSkillPreservesInvariant(state: PlayerState, name: string, icon: string, color: string,
                                   initialRank: Option<Rank>, env: Env)
    requires StateInvariant(state)
    ensures StateInvariant(AddSkillStep(state, name, icon, color, initialRank, env))
  {
    NewSkillSatisfiesInvariant(name, icon, color, initialRank, env);
    var r := AddSkillStep(state, name, icon, color, initialRank, env);
    assert forall k :: 0 <= k < |state.skills| ==> r.skills[k] == state.skills[k];
  }

  /** DELETE_SKILL keeps the state invariant. */
  lemma DeleteSkillPreservesInvariant(state: PlayerState, id: string)
    requires StateInvariant(state)
    ensures StateInvariant(DeleteSkillStep(state, id))
  {
    var r := DeleteSkillStep(state, id);
    forall k | 0 <= k < |r.skills|
      ensures SkillInvariant(r.skills[k])
    {
      var j :| 0 <= j < |state.skills| && state.skills[j] == r.skills[k];
    }
  }

  /** END_BLOCK keeps the state invariant. */
  lemma EndBlockPreservesInvariant(state: PlayerState, result: Outcome, notes: Option<string>, env: Env)
    requires StateInvariant(state)
    ensures StateInvariant(EndBlockStep(state, result, notes, env))
  {
    if HasActiveBlock(state) {
      var skill := FindSkill(state.skills, state.activeSkillId.value).value;
      var record := BlockRecord(state, skill, result, notes, env.now);
      ScoredSkillSatisfiesInvariant(skill, result, record.duration, record);
    }
  }

  /** CHECK_SEASON keeps the state invariant. */
  lemma CheckSeasonPreservesInvariant(state: PlayerState, now: Millis)
    requires StateInvariant(state)
    ensures StateInvariant(CheckSeasonStep(state, now))
  {
    if ShouldStartNewSeason(state.seasonStartDate, now) {
      var r := ApplySeasonReset(state, now);
      forall k | 0 <= k < |r.skills|
        ensures SkillInvariant(r.skills[k])
      {
        ResetSkillPreservesProgression(state.skills[k]);
      }
    }
  }

  /** Every action keeps the state invariant; LOAD_STATE does when its payload has it. */
  lemma ReducerPreservesInvariant(state: PlayerState, action: Action, env: Env)
    requires StateInvariant(state)
    requires action.LoadState? ==> StateInvariant(action.payload)
    ensures StateInvariant(GameReducer(state, action, env))
  {
    match action
    case LoadState(_) =>
    case AddSkill(name, icon, color, initialRank) =>
      AddSkillPreservesInvariant(state, name, icon, color, initialRank, env);
    case DeleteSkill(id) =>
      DeleteSkillPreservesInvariant(state, id);
    case StartBlock(_) =>
    case EndBlock(result, notes) =>
      EndBlockPreservesInvariant(state, result, notes, env);
    case CancelBlock =>
    case UpdateSettings(_) =>
    case CheckSeason =>
      CheckSeasonPreservesInvariant(state, env.now);
  }

  /** Replays a sequence of actions, each with the clock and tokens of its own moment. */
  function Run(state: PlayerState, actions: seq<Action>, envs: seq<Env>): PlayerState
    requires |actions| == |envs|
    decreases |actions|
  {
    if actions == [] then state
    else Run(GameReducer(state, actions[0], envs[0]), actions[1..], envs[1..])
  }

  /** From a fresh player, any sequence of actions that loads only consistent states keeps the invariant. */
  lemma {:induction false} RunPreservesInvariant(state: PlayerState, actions: seq<Action>, envs: seq<Env>)
    requires |actions| == |envs|
    requires StateInvariant(state)
    requires forall k :: 0 <= k < |actions| && actions[k].LoadState? ==> StateInvariant(actions[k].payload)
    ensures StateInvariant(Run(state, actions, envs))
    decreases |actions|
  {
    if actions != [] {
      ReducerPreservesInvariant(state, actions[0], envs[0]);
      RunPreservesInvariant(GameReducer(state, actions[0], envs[0]), actions[1..], envs[1..]);
    }
  }

  // ---------------------------------------------------------------------
  // Partners of the individual actions
  // ---------------------------------------------------------------------

  /** Deleting a skill just added under an id no other skill has gives back the state from before. */
  lemma DeleteUndoesAdd(state: PlayerState, name: string, icon: string, color: string,
                        initialRank: Option<Rank>, env: Env)
    requires var id := NewSkill(name, icon, color, initialRank, env).id;
      forall k :: 0 <= k < |state.skills| ==> state.skills[k].id != id
    ensures var added := AddSkillStep(state, name, icon, color, initialRank, env);
      DeleteSkillStep(added, added.skills[|state.skills|].id) == state
  {
    var skill := NewSkill(name, icon, color, initialRank, env);
    WithoutDistributes(state.skills, [skill], skill.id);
    WithoutAbsentId(state.skills, skill.id);
    assert Without([skill], skill.id) == [];
    assert AddSkillStep(state, name, icon, color, initialRank, env).skills == state.skills + [skill];
  }

  /** Deleting twice is deleting once. */
  lemma DeleteIsIdempotent(state: PlayerState, id: string)
    ensures DeleteSkillStep(DeleteSkillStep(state, id), id) == DeleteSkillStep(state, id)
  {
    WithoutAbsentId(Without(state.skills, id), id);
  }

  /** Cancelling a block just started gives back the state from before when no block was running. */
  lemma CancelUndoesStart(state: PlayerState, skillId: string, env: Env)
    requires state.activeBlockId.None? && state.activeSkillId.None? && state.activeBlockStartTime.None?
    ensures CancelBlockStep(StartBlockStep(state, skillId, env)) == state
  {
  }

  /** Ending a block with none running, or one whose skill was deleted, leaves the state as it is. */
  lemma EndBlockNeedsLiveSkill(state: PlayerState, result: Outcome, notes: Option<string>, env: Env)
    requires state.activeSkillId.Some?
    requires forall k :: 0 <= k < |state.skills| ==> state.skills[k].id != state.activeSkillId.value
    ensures EndBlockStep(state, result, notes, env) == state
  {
  }

  /**
   * After START_BLOCK on an existing skill (with a non-empty id, which the
   * falsy check of END_BLOCK would otherwise refuse), END_BLOCK scores exactly that
   * skill: one more block, the record at the head of its history carries
   * the block id, start and end, and the active block is cleared.
   */
  lemma StartThenEndScoresSkill(state: PlayerState, skillId: string, start: Env, result: Outcome,
                                notes: Option<string>, end: Env)
    requires skillId != ""
    requires exists k :: 0 <= k < |state.skills| && state.skills[k].id == skillId
    ensures var started := StartBlockStep(state, skillId, start);
      var ended := EndBlockStep(started, result, notes, end);
      var i := FindSkillIndex(state.skills, skillId);
      && 0 <= i < |ended.skills|
      && ended.skills[i].totalBlocks == state.skills[i].totalBlocks + 1
      && ended.skills[i].history[0].id == started.activeBlockId.value
      && ended.skills[i].history[0].startTime == start.now
      && ended.skills[i].history[0].endTime == end.now
      && ended.skills[i].history[0].result == result
      && ended.skills[i].history[1..] == state.skills[i].history
      && ended.activeBlockId.None? && ended.activeSkillId.None? && ended.activeBlockStartTime.None?
  {
    var started := StartBlockStep(state, skillId, start);
    var k :| 0 <= k < |state.skills| && state.skills[k].id == skillId;
    assert HasActiveBlock(started);
    var skill := FindSkill(started.skills, skillId).value;
    var i := FindSkillIndex(state.skills, skillId);
    assert skill == state.skills[i];
    var record := BlockRecord(started, skill, result, notes, end.now);
    ApplyOutcomeBookkeeping(skill, result, record.duration);
  }

  /**
   * The history entry of a block keeps the change the event reports,
   * before promotion protection: a loss on a protected skill is logged as
   * a loss of LP although the skill's LP did not move.
   */
  lemma RecordedChangeIgnoresProtection(state: PlayerState, notes: Option<string>, env: Env)
    requires HasActiveBlock(state)
    requires var skill := FindSkill(state.skills, state.activeSkillId.value).value;
      && skill.protectedPromotion && ValidPosition(skill.Standing()) && LpInRange(skill.lp, skill.rank)
    ensures var skill := FindSkill(state.skills, state.activeSkillId.value).value;
      var i := FindSkillIndex(state.skills, skill.id);
      var after := EndBlockStep(state, Loss, notes, env).skills[i];
      && after.lp == skill.lp
      && after.history[0].lpChange <= -20
  {
    var skill := FindSkill(state.skills, state.activeSkillId.value).value;
    var record := BlockRecord(state, skill, Loss, notes, env.now);
    ProtectionAbsorbsNonWin(skill, Loss, record.duration);
    LpChangeReportsAmounts(skill, Loss);
  }

  /** Checking the season twice at the same moment rolls over at most once. */
  lemma CheckSeasonIsIdempotent(state: PlayerState, now: Millis)
    ensures CheckSeasonStep(CheckSeasonStep(state, now), now) == CheckSeasonStep(state, now)
  {
  }

  /** Applying the same settings patch twice is applying it once, and an empty patch changes nothing. */
  lemma MergeSettingsIsIdempotent(settings: PlayerSettings, patch: SettingsPatch)
    ensures MergeSettings(MergeSettings(settings, patch), patch) == MergeSettings(settings, patch)
    ensures MergeSettings(settings, SettingsPatch(None, None, None)) == settings
  {
  }
}
