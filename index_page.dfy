/**
 * The page that owns the game state: experience, level, the list of
 * unlocked map locations and the session statistics. A completed focus
 * session awards a fixed amount of exp, runs the level-up cascade against
 * the threshold `level * 100`, unlocks one location per level-up where the
 * level calls for a new one, and bumps the session counters.
 */
module IndexPage {
  import AdventureMap
  import NinjaCharacter

  datatype Option<+T> = None | Some(value: T)

  /** Exp awarded for each completed focus session. */
  const ExpGained := 50

  /** Minutes credited to today's total for each completed focus session. */
  const FocusMinutes := 25

  /** The highest location id the cascade may unlock. */
  const LastLocationId := 8

  // ---------------------------------------------------------------------
  // Thresholds and ranks
  // ---------------------------------------------------------------------

  /** `getExpToNext`: the exp that fills the bar of `currentLevel`. */
  function ExpToNext(currentLevel: int): int
  {
    currentLevel * 100
  }

  /**
   * The exp needed to climb from level 1 to the start of `level`: the
   * thresholds of the levels in between, added up (and, below level 1,
   * taken away, so that every gap between two levels is the lower one's
   * threshold).
   */
  function LevelBase(level: int): int
    decreases if level >= 1 then level - 1 else 1 - level
  {
    if level == 1 then 0
    else if level > 1 then LevelBase(level - 1) + ExpToNext(level - 1)
    else LevelBase(level + 1) - ExpToNext(level)
  }

  /** All exp ever earned by a player at `level` holding `exp`, counted from level 1 with none. */
  function TotalExp(level: int, exp: int): int
  {
    LevelBase(level) + exp
  }

  /** The thresholds `L * 100` add up to `50 * L * (L - 1)`. */
  lemma {:induction false} LevelBaseClosedForm(level: int)
    ensures LevelBase(level) == 50 * level * (level - 1)
    decreases if level >= 1 then level - 1 else 1 - level
  {
    if level > 1 {
      LevelBaseClosedForm(level - 1);
      assert 50 * level * (level - 1) == 50 * (level - 1) * (level - 2) + (level - 1) * 100;
    } else if level < 1 {
      LevelBaseClosedForm(level + 1);
      assert 50 * level * (level - 1) == 50 * (level + 1) * level - level * 100;
    }
  }

  /** `getRankName` on this page: the title shown in the level-up notice. */
  function GetRankName(level: int): string
  {
    if level < 5 then "🥷 Genin"
    else if level < 10 then "🧑‍🎓 Chunin"
    else if level < 20 then "👤 Jonin"
    else if level < 30 then "🎭 ANBU"
    else if level < 50 then "🔥 Kage"
    else "🌟 Hokage"
  }

  /**
   * This page's copy of the rank lookup gives the character card's title at
   * every level: the same six tiers with the same cut points.
   */
  lemma SameRankAsCharacterCard(level: int)
    ensures GetRankName(level) == NinjaCharacter.RankName(level)
    ensures GetRankName(level) == NinjaCharacter.RankNames[NinjaCharacter.Tier(level)]
  {
  }

  // ---------------------------------------------------------------------
  // The level-up cascade
  // ---------------------------------------------------------------------

  /** The gap between the starts of two consecutive levels is the lower one's threshold, so a level-up keeps the total. */
  lemma TotalExpStep(level: int, exp: int)
    ensures LevelBase(level + 1) - LevelBase(level) == ExpToNext(level)
    ensures TotalExp(level + 1, exp - ExpToNext(level)) == TotalExp(level, exp)
  {
  }

  /**
   * The notices the page raises, in order. A level-up notice names the new
   * level and its title, `GetRankName(level)`.
   */
  datatype Event =
    | LevelUp(level: int)
    | LocationUnlocked(id: int)
    | SessionDone(expGained: int)
    | BreakStarted
    | BreakEnded

  /** The location a level-up to `newLevel` asks for: `floor(newLevel / 5) + 1`. */
  function UnlockCandidate(newLevel: int): int
  {
    newLevel / 5 + 1
  }

  /** The variables of the cascade loop: level, exp, the growing unlocked list and the notices so far. */
  datatype Progress = Progress(level: int, exp: int, unlocked: seq<int>, events: seq<Event>)

  /**
   * One pass of the cascade loop: take the bar's threshold off the exp, go
   * up a level, and append the level's location if it is a catalog id that
   * `seen` does not hold yet. `seen` is the unlocked list as it was when the
   * session completed: the membership test reads that list, while each new
   * id is appended to the running one.
   */
  function LevelUpStep(p: Progress, seen: seq<int>): Progress
  {
    var level := p.level + 1;
    var events := p.events + [LevelUp(level)];
    var id := UnlockCandidate(level);
    if id <= LastLocationId && id !in seen then
      Progress(level, p.exp - ExpToNext(p.level), p.unlocked + [id], events + [LocationUnlocked(id)])
    else
      Progress(level, p.exp - ExpToNext(p.level), p.unlocked, events)
  }

  /** The cascade: level-ups while the exp fills the bar, for any level and exp. */
  function Cascade(p: Progress, seen: seq<int>): (r: Progress)
    ensures r.exp < ExpToNext(r.level)
    ensures r.level >= p.level
    ensures r.level == p.level <==> p.exp < ExpToNext(p.level)
    ensures r.level == p.level ==> r == p
    ensures r.level > p.level ==> r.exp >= 0
    decreases if p.level < 1 then 1 - p.level else 0, if p.exp < 0 then 0 else p.exp
  {
    if p.exp < ExpToNext(p.level) then p
    else Cascade(LevelUpStep(p, seen), seen)
  }

  /**
   * The cascade only appends to the unlocked list, and every id it appends
   * is a catalog id (from 1 when the level starts from 0 up) that `seen`
   * did not hold.
   */
  lemma {:induction false} CascadeOnlyAppends(p: Progress, seen: seq<int>)
    ensures var r := Cascade(p, seen);
      && p.unlocked <= r.unlocked
      && forall k :: |p.unlocked| <= k < |r.unlocked| ==>
           r.unlocked[k] !in seen && r.unlocked[k] <= LastLocationId && (p.level >= 0 ==> 1 <= r.unlocked[k])
    decreases if p.level < 1 then 1 - p.level else 0, if p.exp < 0 then 0 else p.exp
  {
    if p.exp >= ExpToNext(p.level) {
      var q := LevelUpStep(p, seen);
      CascadeOnlyAppends(q, seen);
      assert p.unlocked <= q.unlocked;
    }
  }

  /** The cascade only moves exp from the bar into levels: the total exp is unchanged. */
  lemma {:induction false} CascadeKeepsTotalExp(p: Progress, seen: seq<int>)
    ensures var r := Cascade(p, seen); TotalExp(r.level, r.exp) == TotalExp(p.level, p.exp)
    decreases if p.level < 1 then 1 - p.level else 0, if p.exp < 0 then 0 else p.exp
  {
    if p.exp >= ExpToNext(p.level) {
      CascadeKeepsTotalExp(LevelUpStep(p, seen), seen);
      TotalExpStep(p.level, p.exp);
    }
  }

  /**
   * With the usual state (level from 1, exp below the threshold), adding the
   * session's 50 exp gives at most one level-up, and so at most one unlock.
   */
  lemma AtMostOneLevelUp(level: int, exp: int, unlocked: seq<int>)
    requires 1 <= level && 0 <= exp < ExpToNext(level)
    ensures var r := Cascade(Progress(level, exp + ExpGained, unlocked, []), unlocked);
      && r.level <= level + 1
      && |r.unlocked| <= |unlocked| + 1
      && |r.events| <= 2
  {
    var p := Progress(level, exp + ExpGained, unlocked, []);
    if exp + ExpGained >= ExpToNext(level) {
      var q := LevelUpStep(p, unlocked);
      assert q.exp < 50 && ExpToNext(q.level) >= 200;
      assert Cascade(q, unlocked) == q;
    }
  }

  // ---------------------------------------------------------------------
  // The saved record
  // ---------------------------------------------------------------------

  /** Everything the page keeps between visits. */
  datatype Snapshot = Snapshot(
    level: int,
    exp: int,
    totalSessions: int,
    unlockedLocations: seq<int>,
    todaySessions: int,
    todayMinutes: int,
    weekSessions: int,
    currentStreak: int)

  /** The initial state of the page, and the fallback of every field. */
  const Defaults := Snapshot(1, 0, 0, [1], 0, 0, 0, 1)

  /** A parsed saved record; a field may be absent. */
  datatype SavedData = SavedData(
    level: Option<int>,
    exp: Option<int>,
    totalSessions: Option<int>,
    unlockedLocations: Option<seq<int>>,
    todaySessions: Option<int>,
    todayMinutes: Option<int>,
    weekSessions: Option<int>,
    currentStreak: Option<int>)

  /** JavaScript `value || fallback` on a number: an absent value or 0 is falsy and falls back. */
  function OrNumber(value: Option<int>, fallback: int): int
  {
    if value.None? || value.value == 0 then fallback else value.value
  }

  /** JavaScript `value || fallback` on an array: only an absent one falls back, since `[]` is truthy. */
  function OrList(value: Option<seq<int>>, fallback: seq<int>): seq<int>
  {
    if value.None? then fallback else value.value
  }

  /** The load step: each field defaulted on its own. */
  function Load(saved: SavedData): (s: Snapshot)
    ensures s.level == (if saved.level.Some? && saved.level.value != 0 then saved.level.value else 1)
    ensures s.currentStreak == (if saved.currentStreak.Some? && saved.currentStreak.value != 0 then saved.currentStreak.value else 1)
    ensures saved.unlockedLocations.None? ==> s.unlockedLocations == [1]
    ensures s.level != 0 && s.currentStreak != 0
    ensures saved.unlockedLocations.Some? ==> s.unlockedLocations == saved.unlockedLocations.value
    ensures s.exp == (if saved.exp.Some? then saved.exp.value else 0)
    ensures s.totalSessions == (if saved.totalSessions.Some? then saved.totalSessions.value else 0)
    ensures s.todaySessions == (if saved.todaySessions.Some? then saved.todaySessions.value else 0)
    ensures s.todayMinutes == (if saved.todayMinutes.Some? then saved.todayMinutes.value else 0)
    ensures s.weekSessions == (if saved.weekSessions.Some? then saved.weekSessions.value else 0)
  {
    Snapshot(
      OrNumber(saved.level, Defaults.level),
      OrNumber(saved.exp, Defaults.exp),
      OrNumber(saved.totalSessions, Defaults.totalSessions),
      OrList(saved.unlockedLocations, Defaults.unlockedLocations),
      OrNumber(saved.todaySessions, Defaults.todaySessions),
      OrNumber(saved.todayMinutes, Defaults.todayMinutes),
      OrNumber(saved.weekSessions, Defaults.weekSessions),
      OrNumber(saved.currentStreak, Defaults.currentStreak))
  }

  /** The save step: every field written. */
  function Store(s: Snapshot): SavedData
  {
    SavedData(Some(s.level), Some(s.exp), Some(s.totalSessions), Some(s.unlockedLocations),
              Some(s.todaySessions), Some(s.todayMinutes), Some(s.weekSessions), Some(s.currentStreak))
  }

  /** A record with no fields loads as exactly the defaults. */
  lemma LoadEmptyGivesDefaults()
    ensures Load(SavedData(None, None, None, None, None, None, None, None)) == Defaults
  {
  }

  /** Saving then loading gives the state back exactly when neither level nor streak is 0. */
  lemma LoadAfterStore(s: Snapshot)
    ensures Load(Store(s)) == s <==> s.level != 0 && s.currentStreak != 0
  {
    if s.level == 0 {
      assert Load(Store(s)).level == 1;
    }
    if s.currentStreak == 0 {
      assert Load(Store(s)).currentStreak == 1;
    }
  }

  /** A stored 0 for level or streak comes back as 1. */
  lemma ZeroLevelLoadsAsOne(s: Snapshot)
    requires s.level == 0 || s.currentStreak == 0
    ensures Load(Store(s)).level == (if s.level == 0 then 1 else s.level)
    ensures Load(Store(s)).currentStreak == (if s.currentStreak == 0 then 1 else s.currentStreak)
    ensures Load(Store(s)) != s
  {
  }

  // ---------------------------------------------------------------------
  // A completed session
  // ---------------------------------------------------------------------

  predicate NoDuplicates(xs: seq<int>)
  {
    forall i, j :: 0 <= i < j < |xs| ==> xs[i] != xs[j]
  }

  /** The state every page reaches from the defaults by completed sessions. */
  predicate Valid(s: Snapshot)
  {
    && 1 <= s.level
    && 0 <= s.exp < ExpToNext(s.level)
    && NoDuplicates(s.unlockedLocations)
    && (forall id :: id in s.unlockedLocations ==> 1 <= id <= LastLocationId)
    && 0 <= s.totalSessions && 0 <= s.todaySessions && 0 <= s.todayMinutes && 0 <= s.weekSessions
  }

  /** The effect of one completed focus session on the saved record, with its notices. */
  function SessionComplete(s: Snapshot): (Snapshot, seq<Event>)
  {
    var p := Cascade(Progress(s.level, s.exp + ExpGained, s.unlockedLocations, []), s.unlockedLocations);
    (s.(level := p.level,
        exp := p.exp,
        unlockedLocations := p.unlocked,
        totalSessions := s.totalSessions + 1,
        todaySessions := s.todaySessions + 1,
        todayMinutes := s.todayMinutes + FocusMinutes,
        weekSessions := s.weekSessions + 1),
     p.events + [SessionDone(ExpGained)])
  }

  /** The counters: one more session in each count, 25 more minutes today, streak untouched. */
  lemma SessionCompleteCounters(s: Snapshot)
    ensures var (t, events) := SessionComplete(s);
      && t.totalSessions == s.totalSessions + 1
      && t.todaySessions == s.todaySessions + 1
      && t.weekSessions == s.weekSessions + 1
      && t.todayMinutes == s.todayMinutes + 25
      && t.currentStreak == s.currentStreak
      && |events| >= 1 && events[|events| - 1] == SessionDone(50)
  {
  }

  /**
   * A completed session keeps the state valid, gains at most one level,
   * adds exactly 50 to the total exp, and only ever appends to the unlocked
   * list, at most one id, which is a catalog id not already present.
   */
  lemma SessionCompletePreservesValid(s: Snapshot)
    requires Valid(s)
    ensures var t := SessionComplete(s).0;
      && Valid(t)
      && s.level <= t.level <= s.level + 1
      && (t.level == s.level + 1 <==> s.exp + ExpGained >= ExpToNext(s.level))
      && TotalExp(t.level, t.exp) == TotalExp(s.level, s.exp) + 50
      && s.unlockedLocations <= t.unlockedLocations
      && |t.unlockedLocations| <= |s.unlockedLocations| + 1
  {
    var u := s.unlockedLocations;
    var r := Cascade(Progress(s.level, s.exp + ExpGained, u, []), u);
    AtMostOneLevelUp(s.level, s.exp, u);
    CascadeOnlyAppends(Progress(s.level, s.exp + ExpGained, u, []), u);
    CascadeKeepsTotalExp(Progress(s.level, s.exp + ExpGained, u, []), u);
    AppendFreshKeepsCatalogList(u, r.unlocked);
    var t := SessionComplete(s).0;
    assert t.level == r.level && t.exp == r.exp && t.unlockedLocations == r.unlocked;
  }

  /**
   * The unlock rule of one session from a valid state. Without a level-up the
   * list is unchanged and the only notice is the completion. With one, the
   * id `floor((level + 1) / 5) + 1` is appended exactly when it is at most 8
   * and not yet in the list, and the notices are the level-up, the unlock
   * when there is one, and the completion.
   */
  lemma SessionCompleteUnlockRule(s: Snapshot)
    requires Valid(s)
    ensures var (t, events) := SessionComplete(s);
      var id := UnlockCandidate(s.level + 1);
      var isNew := id <= LastLocationId && id !in s.unlockedLocations;
      if s.exp + ExpGained < ExpToNext(s.level) then
        t.unlockedLocations == s.unlockedLocations && events == [SessionDone(50)]
      else
        && t.unlockedLocations == s.unlockedLocations + (if isNew then [id] else [])
        && events == [LevelUp(s.level + 1)] + (if isNew then [LocationUnlocked(id)] else []) + [SessionDone(50)]
  {
    var u := s.unlockedLocations;
    var p := Progress(s.level, s.exp + ExpGained, u, []);
    if s.exp + ExpGained >= ExpToNext(s.level) {
      var q := LevelUpStep(p, u);
      assert Cascade(q, u) == q;
    }
  }

  /**
   * In closed form: `50 * L * (L - 1) + exp` grows by exactly 50 per
   * completed session, from any loaded record, however many level-ups the
   * session brings.
   */
  lemma CumulativeExpGrowsBy50(s: Snapshot)
    ensures var t := SessionComplete(s).0;
      50 * t.level * (t.level - 1) + t.exp == 50 * s.level * (s.level - 1) + s.exp + 50
  {
    CascadeKeepsTotalExp(Progress(s.level, s.exp + ExpGained, s.unlockedLocations, []), s.unlockedLocations);
    var t := SessionComplete(s).0;
    LevelBaseClosedForm(s.level);
    LevelBaseClosedForm(t.level);
  }

  /** Appending at most one catalog id that is not yet present keeps a list duplicate-free and within the catalog. */
  lemma AppendFreshKeepsCatalogList(u: seq<int>, v: seq<int>)
    requires NoDuplicates(u) && forall id :: id in u ==> 1 <= id <= LastLocationId
    requires u <= v && |v| <= |u| + 1
    requires forall k :: |u| <= k < |v| ==> v[k] !in u && 1 <= v[k] <= LastLocationId
    ensures NoDuplicates(v) && forall id :: id in v ==> 1 <= id <= LastLocationId
  {
    if |v| > |u| {
      assert v == u + [v[|u|]];
    } else {
      assert v == u;
    }
  }

  /** Worked example: level 1 with 80 exp goes to level 2 with 30; id 1 is already open, so nothing unlocks. */
  lemma ExampleLevelOneToTwo()
    ensures var (t, events) := SessionComplete(Defaults.(exp := 80));
      && t.level == 2 && t.exp == 30 && t.unlockedLocations == [1]
      && events == [LevelUp(2), SessionDone(50)]
  {
    var p := Progress(1, 130, [1], []);
    assert Cascade(p, [1]) == Cascade(Progress(2, 30, [1], [LevelUp(2)]), [1]);
  }

  /** Worked example: level 4 with 90 exp stays at level 4 with 140. */
  lemma ExampleNoLevelUp()
    ensures var (t, events) := SessionComplete(Defaults.(level := 4, exp := 90));
      && t.level == 4 && t.exp == 140 && events == [SessionDone(50)]
  {
  }

  /** Worked example: level 4 with 350 exp reaches level 5 with 0 and unlocks location 2. */
  lemma ExampleUnlockSecond()
    ensures var (t, events) := SessionComplete(Defaults.(level := 4, exp := 350));
      && t.level == 5 && t.exp == 0 && t.unlockedLocations == [1, 2]
      && events == [LevelUp(5), LocationUnlocked(2), SessionDone(50)]
  {
    var p := Progress(4, 400, [1], []);
    assert UnlockCandidate(5) == 2;
    assert Cascade(p, [1])
        == Cascade(Progress(5, 0, [1, 2], [LevelUp(5), LocationUnlocked(2)]), [1]);
  }

  /**
   * The membership test reads the list as it was before the session, so a
   * saved record whose exp is past its threshold (level 5 with 1050 exp)
   * levels up twice in one session and appends location 2 twice.
   */
  lemma StaleMembershipDuplicates()
    ensures var t := SessionComplete(Defaults.(level := 5, exp := 1050)).0;
      && t.level == 7 && t.exp == 0 && t.unlockedLocations == [1, 2, 2]
      && !NoDuplicates(t.unlockedLocations)
  {
    assert UnlockCandidate(6) == 2 && UnlockCandidate(7) == 2;
    var e6 := [LevelUp(6), LocationUnlocked(2)];
    var e7 := e6 + [LevelUp(7), LocationUnlocked(2)];
    var p5 := Progress(5, 1100, [1], []);
    var p6 := Progress(6, 600, [1, 2], e6);
    var p7 := Progress(7, 0, [1, 2, 2], e7);
    assert Cascade(p7, [1]) == p7;
    assert Cascade(p6, [1]) == Cascade(p7, [1]);
    assert Cascade(p5, [1]) == Cascade(p6, [1]);
    var t := SessionComplete(Defaults.(level := 5, exp := 1050)).0;
    assert t.unlockedLocations == [1, 2, 2];
    assert t.unlockedLocations[1] == t.unlockedLocations[2];
  }

  /**
   * The id a level-up asks for against the catalog: from level 1 up, while
   * it is a catalog id, it names the catalog entry with that id, and that
   * entry's required level is reached exactly when the new level is below
   * 35; levels 35 to 39 ask for location 8, whose required level is 40.
   */
  lemma UnlockCandidateAgainstCatalog(level: int)
    requires 1 <= level && UnlockCandidate(level) <= LastLocationId
    ensures var id := UnlockCandidate(level);
      && 1 <= id <= |AdventureMap.Locations|
      && AdventureMap.Locations[id - 1].id == id
      && (AdventureMap.IsLocationUnlocked(level, AdventureMap.Locations[id - 1]) <==> level < 35)
  {
    AdventureMap.CatalogShape();
    var id := UnlockCandidate(level);
    assert (id - 1) * 5 <= level < id * 5;
    var required := AdventureMap.Locations[id - 1].requiredLevel;
    if id == 1 {
      assert required == 1;
    } else if id < 8 {
      assert required == (id - 1) * 5;
    } else {
      assert required == 40;
    }
  }

  // ---------------------------------------------------------------------
  // The page's state holder
  // ---------------------------------------------------------------------

  /** The page's state variables, changed by its handlers. */
  class Game {
    var level: int
    var exp: int
    var totalSessions: int
    var isBreak: bool
    var unlockedLocations: seq<int>
    var todaySessions: int
    var todayMinutes: int
    var weekSessions: int
    var currentStreak: int

    /** The record the page saves. */
    function Snap(): Snapshot
      reads this
    {
      Snapshot(level, exp, totalSessions, unlockedLocations, todaySessions, todayMinutes, weekSessions, currentStreak)
    }

    /** The initial state of every variable. */
    constructor ()
      ensures Snap() == Defaults && !isBreak && Valid(Snap())
    {
      level, exp, totalSessions, isBreak := 1, 0, 0, false;
      unlockedLocations := [1];
      todaySessions, todayMinutes, weekSessions, currentStreak := 0, 0, 0, 1;
    }

    /** The mount-time load: nothing when no record is saved, else every field defaulted on its own. */
    method LoadSaved(saved: Option<SavedData>)
      modifies this
      ensures Snap() == if saved.Some? then Load(saved.value) else old(Snap())
      ensures isBreak == old(isBreak)
    {
      if saved.Some? {
        var data := saved.value;
        level := OrNumber(data.level, 1);
        exp := OrNumber(data.exp, 0);
        totalSessions := OrNumber(data.totalSessions, 0);
        unlockedLocations := OrList(data.unlockedLocations, [1]);
        todaySessions := OrNumber(data.todaySessions, 0);
        todayMinutes := OrNumber(data.todayMinutes, 0);
        weekSessions := OrNumber(data.weekSessions, 0);
        currentStreak := OrNumber(data.currentStreak, 1);
      }
    }

    /**
     * `handleSessionComplete`: award the exp, run the level-up loop, unlock
     * locations, bump the counters, and return the notices in order.
     */
    method HandleSessionComplete() returns (events: seq<Event>)
      modifies this
      ensures (Snap(), events) == SessionComplete(old(Snap()))
      ensures isBreak == old(isBreak)
      ensures old(Valid(Snap())) ==> Valid(Snap())
    {
      ghost var before := Snap();
      var seen := unlockedLocations;
      var newExp := exp + ExpGained;
      var newLevel := level;
      var unlocked := unlockedLocations;
      events := [];
      ghost var target := Cascade(Progress(newLevel, newExp, unlocked, events), seen);
      while newExp >= ExpToNext(newLevel)
        invariant Cascade(Progress(newLevel, newExp, unlocked, events), seen) == target
        decreases if newLevel < 1 then 1 - newLevel else 0, if newExp < 0 then 0 else newExp
      {
        ghost var was := Progress(newLevel, newExp, unlocked, events);
        newExp := newExp - ExpToNext(newLevel);
        newLevel := newLevel + 1;
        events := events + [LevelUp(newLevel)];
        var newLocationId := UnlockCandidate(newLevel);
        if newLocationId <= LastLocationId && newLocationId !in seen {
          unlocked := unlocked + [newLocationId];
          events := events + [LocationUnlocked(newLocationId)];
        }
        assert Progress(newLevel, newExp, unlocked, events) == LevelUpStep(was, seen);
      }
      assert target == Progress(newLevel, newExp, unlocked, events);
      exp := newExp;
      level := newLevel;
      unlockedLocations := unlocked;
      totalSessions := totalSessions + 1;
      todaySessions := todaySessions + 1;
      todayMinutes := todayMinutes + FocusMinutes;
      weekSessions := weekSessions + 1;
      events := events + [SessionDone(ExpGained)];
      if Valid(before) {
        SessionCompletePreservesValid(before);
      }
    }

    /** `handleBreakStart`: the page switches to the break view. */
    method HandleBreakStart() returns (events: seq<Event>)
      modifies this`isBreak
      ensures isBreak && events == [BreakStarted]
    {
      isBreak := true;
      events := [BreakStarted];
    }

    /** `handleBreakEnd`: the page switches back to the timer. */
    method HandleBreakEnd() returns (events: seq<Event>)
      modifies this`isBreak
      ensures !isBreak && events == [BreakEnded]
    {
      isBreak := false;
      events := [BreakEnded];
    }
  }
}
