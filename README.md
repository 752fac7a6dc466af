# Pomodoro ninja: a Dafny model of the game core

The app is a Pomodoro timer wrapped in a small game. Each completed 25-minute
focus session earns the ninja 50 exp. The exp bar of level `L` fills at
`L * 100`. Every level-up may open one location on an eight-stop adventure
map. The rank title and character emoji follow the level through fixed cut
points.

This project models that core in four modules, one per source file:

- `Pomodoro` (`pomodoro_timer.dfy`) is the timer component:
  - the mm:ss countdown and its one-second tick;
  - the automatic focus→break switch, with a 5- or 15-minute break;
  - the paused return to a 25:00 focus phase;
  - start/pause and reset.

  Step functions on `TimerState` values specify it. The class
  `PomodoroTimer` updates its fields in place and is proved to agree with
  the step functions.
- `IndexPage` (`index_page.dfy`) is the page that owns the game state:
  - the threshold `getExpToNext`;
  - the level-up cascade run by `handleSessionComplete`, its location unlocks
    and the counter updates;
  - the per-field defaulting of a saved record;
  - the page's copy of `getRankName`.

  The cascade is the function `Cascade`. The class `Game` runs the same
  cascade as a `while` loop over its fields, and the loop is proved equal
  to `Cascade`.
- `AdventureMap` (`adventure_map.dfy`) is the location catalog, the
  unlocked/visited predicates, and the badge and card look of each location.
- `NinjaCharacter` (`ninja_character.dfy`) is the rank title and emoji tiers
  and the whole hours of focus shown on the character card.

Notifications (toasts) and the timer's callbacks are returned as event
lists, in the order the source raises them.

Two behaviours of the code are worth knowing before reading the model:

- The membership test at `src/pages/Index.tsx:86` reads the unlocked list as
  it was before the session, while `src/pages/Index.tsx:87` appends to the
  running list. So a saved record whose exp is already past its threshold
  can append the same id twice (`IndexPage.StaleMembershipDuplicates`).
  From a valid state this cannot happen
  (`IndexPage.SessionCompletePreservesValid`).
- The timer's `sessionCount` is component state that is never saved, so
  `Pomodoro.Initial` starts it at 0.

## Model

| member | source | states |
|---|---|---|
| NinjaCharacter.CutsReached | src/components/NinjaCharacter.tsx:20-36 | the reference count behind both tier chains: how many cut points a level has reached, at most the number of cuts |
| NinjaCharacter.Tier | src/components/NinjaCharacter.tsx:20-36 | the tier is below 6, and tier `t` means exactly the first `t` cuts of 5, 10, 20, 30, 50 are reached |
| NinjaCharacter.RankName | src/components/NinjaCharacter.tsx:20-27 | `getRankName` returns the title of the level's tier |
| NinjaCharacter.NinjaEmoji | src/components/NinjaCharacter.tsx:29-36 | `getNinjaEmoji` returns the emoji of the level's tier, with the same cut points |
| NinjaCharacter.CutsReachedMonotone | src/components/NinjaCharacter.tsx:20-36 | for any list of cuts, a higher level reaches at least as many |
| NinjaCharacter.TierMonotone | src/components/NinjaCharacter.tsx:20-36 | the tier never decreases as the level rises |
| NinjaCharacter.RankNeverDrops | src/components/NinjaCharacter.tsx:20-27 | a higher level's title is the lower level's title or a later one |
| NinjaCharacter.TitlesDistinct | src/components/NinjaCharacter.tsx:20-27 | no two tiers share a title |
| NinjaCharacter.EmojisDistinct | src/components/NinjaCharacter.tsx:29-36 | no two tiers share an emoji |
| NinjaCharacter.EmojiStartsTitle | src/components/NinjaCharacter.tsx:20-36 | each tier's title starts with that tier's emoji and a space |
| NinjaCharacter.EmojiMatchesRank | src/components/NinjaCharacter.tsx:20-36 | two levels share a title iff they share an emoji; the shown emoji starts the shown title |
| NinjaCharacter.TotalHours | src/components/NinjaCharacter.tsx:79 | the hours are the largest whole number whose 60 minutes fit in `totalSessions * 25` minutes |
| NinjaCharacter.HoursNonNegative | src/components/NinjaCharacter.tsx:79 | no session count shows negative hours |
| NinjaCharacter.HoursMonotone | src/components/NinjaCharacter.tsx:79 | more sessions never show fewer hours |
| NinjaCharacter.HoursStep | src/components/NinjaCharacter.tsx:79 | one more session raises the hours by 0 or 1 |
| AdventureMap.BadgeFor | src/components/AdventureMap.tsx:83-97 | exactly one of Selesai (visited), Tersedia (not visited, level reached) or a lock showing the required level (not visited, level not reached) |
| AdventureMap.CardFor | src/components/AdventureMap.tsx:57-63 | the card is dimmed iff the level is not reached, and glows iff the level is reached and the location is visited |
| AdventureMap.CatalogShape | src/components/AdventureMap.tsx:20-29 | 8 entries, ids 1..8 in order, required levels 1, 5, 10, 15, 20, 25, 30, 40, strictly increasing |
| AdventureMap.UnlockedMonotone | src/components/AdventureMap.tsx:32-34 | a location open at one level is open at every higher level |
| AdventureMap.HomeAlwaysUnlocked | src/components/AdventureMap.tsx:21 | location 1 is open at every level from 1 up |
| AdventureMap.VisitedIgnoresLevel | src/components/AdventureMap.tsx:36-38 | whether the badge says Selesai never depends on the level |
| AdventureMap.VisitedButDimmed | src/components/AdventureMap.tsx:57-97 | at level 35 with location 8 in the list, the badge says Selesai while the card is dimmed |
| AdventureMap.Locations | src/components/AdventureMap.tsx:20-29 | definition only; the catalog, entry by entry (its shape is stated by `AdventureMap.CatalogShape`) |
| AdventureMap.IsLocationUnlocked | src/components/AdventureMap.tsx:32-34 | definition only; mirrors `currentLevel >= location.requiredLevel` |
| AdventureMap.IsLocationVisited | src/components/AdventureMap.tsx:36-38 | definition only; mirrors the membership test on the unlocked list |
| IndexPage.LevelBaseClosedForm | src/pages/Index.tsx:27-29 | the thresholds `L * 100` of the levels below `L` add up to `50 * L * (L - 1)` |
| IndexPage.TotalExpStep | src/pages/Index.tsx:73-75 | one loop pass (threshold off the exp, one level up) keeps the total exp |
| IndexPage.SameRankAsCharacterCard | src/pages/Index.tsx:130-137 | the page's `getRankName` equals the character card's title at every level, tier by tier |
| IndexPage.Cascade | src/pages/Index.tsx:73-94 | after the loop the exp is below the new level's threshold; the level never drops; the level rises iff the exp filled the bar; without a level-up nothing changes; after a level-up the exp is non-negative |
| IndexPage.CascadeOnlyAppends | src/pages/Index.tsx:84-93 | the loop only appends to the unlocked list, and only ids up to 8 that the pre-session list did not hold |
| IndexPage.CascadeKeepsTotalExp | src/pages/Index.tsx:73-75 | the loop keeps the total exp earned since level 1 |
| IndexPage.AtMostOneLevelUp | src/pages/Index.tsx:68-94 | from a level of at least 1 with exp below its threshold, +50 exp gives at most one level-up, one unlock and two notices |
| IndexPage.Load | src/pages/Index.tsx:38-45 | each field is defaulted on its own: the level and the streak are the saved value when present and non-zero, else 1; the list is the saved one when present, else `[1]`; exp and the four counters are the saved value when present, else 0 |
| IndexPage.LoadEmptyGivesDefaults | src/pages/Index.tsx:12-22 | a record with no fields loads as the initial state |
| IndexPage.LoadAfterStore | src/pages/Index.tsx:38-62 | saving and loading gives the state back iff neither level nor streak is 0 |
| IndexPage.ZeroLevelLoadsAsOne | src/pages/Index.tsx:38-45 | a stored 0 level or streak comes back as 1 |
| IndexPage.SessionCompleteCounters | src/pages/Index.tsx:98-107 | one more session in each of the three counts, 25 more minutes today, streak untouched, the completion notice last |
| IndexPage.SessionCompletePreservesValid | src/pages/Index.tsx:64-108 | from a valid state: still valid (exp below threshold, duplicate-free ids in 1..8); the level rises by 0 or 1, by 1 iff exp + 50 reaches the threshold; the total exp grows by exactly 50; the list only grows, by at most one id |
| IndexPage.CumulativeExpGrowsBy50 | src/pages/Index.tsx:68-75 | from any loaded record, `50 * L * (L - 1) + exp` grows by exactly 50 per session, however many level-ups it brings |
| IndexPage.SessionCompleteUnlockRule | src/pages/Index.tsx:73-107 | from a valid state: without a level-up the list is unchanged and the only notice is the completion; with one, id `floor((level + 1) / 5) + 1` is appended exactly when it is at most 8 and not yet present, and the notices are the level-up, the unlock if any, then the completion |
| IndexPage.ExampleLevelOneToTwo | src/pages/Index.tsx:68-94 | level 1 with 80 exp becomes level 2 with 30; location 1 is already open, so nothing unlocks |
| IndexPage.ExampleNoLevelUp | src/pages/Index.tsx:68-73 | level 4 with 90 exp stays at level 4 with 140 |
| IndexPage.ExampleUnlockSecond | src/pages/Index.tsx:68-94 | level 4 with 350 exp becomes level 5 with 0 and unlocks location 2 |
| IndexPage.StaleMembershipDuplicates | src/pages/Index.tsx:85-87 | a saved level 5 with 1050 exp levels up twice and appends location 2 twice |
| IndexPage.UnlockCandidateAgainstCatalog | src/pages/Index.tsx:85 | the id asked for at a new level names the catalog entry with that id, whose level is reached iff the new level is below 35 |
| IndexPage.ExpToNext | src/pages/Index.tsx:27-29 | definition only; mirrors `currentLevel * 100` (summed by `IndexPage.LevelBaseClosedForm`) |
| IndexPage.GetRankName | src/pages/Index.tsx:130-137 | definition only; mirrors the page's if-chain (tied to the card by `IndexPage.SameRankAsCharacterCard`) |
| IndexPage.UnlockCandidate | src/pages/Index.tsx:85 | definition only; mirrors `Math.floor(newLevel / 5) + 1` |
| IndexPage.LevelUpStep | src/pages/Index.tsx:74-93 | definition only; mirrors one pass of the loop body, with the membership test on the pre-session list |
| IndexPage.SessionComplete | src/pages/Index.tsx:64-108 | definition only; mirrors the handler's effect on the record and its notices (its properties are the `SessionComplete*` lemmas) |
| IndexPage.OrNumber | src/pages/Index.tsx:38-45 | definition only; mirrors `value \|\| fallback` on a number: absent or 0 falls back |
| IndexPage.OrList | src/pages/Index.tsx:41 | definition only; mirrors `value \|\| [1]` on an array: only absent falls back, since an empty array is truthy |
| IndexPage.Store | src/pages/Index.tsx:51-61 | definition only; mirrors the saved record, every field written (inverted by `Load` in `IndexPage.LoadAfterStore`) |
| IndexPage.Game.constructor | src/pages/Index.tsx:12-22 | the initial state: level 1, no exp, only location 1, streak 1, no break, valid |
| IndexPage.Game.LoadSaved | src/pages/Index.tsx:34-47 | with no saved record nothing changes; otherwise every field is the defaulted saved value |
| IndexPage.Game.HandleSessionComplete | src/pages/Index.tsx:64-108 | the loop leaves the fields and notices that `SessionComplete` gives, keeps the break flag, and keeps a valid state valid |
| IndexPage.Game.HandleBreakStart | src/pages/Index.tsx:110-118 | the break view is on, with one break notice |
| IndexPage.Game.HandleBreakEnd | src/pages/Index.tsx:120-128 | the break view is off, with one ready notice |
| Pomodoro.BreakPattern | src/components/PomodoroTimer.tsx:71 | a 15-minute break iff the count leaves 3 modulo 4, else 5 minutes, repeating with period 4 |
| Pomodoro.TickCountsDown | src/components/PomodoroTimer.tsx:32-36 | a running tick before 0:00 takes exactly one second off, keeps seconds in 0..59, changes nothing else, calls nothing |
| Pomodoro.FocusEnds | src/components/PomodoroTimer.tsx:42-45 | focus end reports the session once, then a break start; it counts the session and starts a running break whose length comes from the count before it |
| Pomodoro.BreakEnds | src/components/PomodoroTimer.tsx:39-41 | break end reports it once and returns to a paused 25:00 focus phase with the count kept |
| Pomodoro.TickKeepsValid | src/components/PomodoroTimer.tsx:31-47 | a tick keeps a proper mm:ss within the phase length, never shows negative time, never lowers the count |
| Pomodoro.ToggleFlipsOnlyActive | src/components/PomodoroTimer.tsx:78-80 | start/pause flips the running flag and nothing else |
| Pomodoro.ResetKeepsPhase | src/components/PomodoroTimer.tsx:82-92 | reset pauses, keeps phase and count, and restores 25:00 in focus or the current count's break length in a break |
| Pomodoro.ResetShortensLongBreak | src/components/PomodoroTimer.tsx:44-85 | the fourth session starts a 15-minute break, but resetting it gives 5 minutes, because the count then reads 4 |
| Pomodoro.Countdown | src/components/PomodoroTimer.tsx:32-36 | while time is left, `n` ticks take exactly `n` seconds off and change nothing else |
| Pomodoro.TicksKeepValid | src/components/PomodoroTimer.tsx:31-47 | any number of ticks keeps the clock valid and the count from dropping |
| Pomodoro.FocusLastsWorkTime | src/components/PomodoroTimer.tsx:31-47 | from any running 25:00 focus phase: time left for 1500 ticks, 0:00 after exactly 1500, and the 1501st tick counts the session and starts a break sized by the count before it |
| Pomodoro.FocusLastsExactlyWorkTime | src/components/PomodoroTimer.tsx:25-47 | the first session of a fresh timer: from a running 25:00 with count 0 there is time left for 1500 ticks, 0:00 after exactly 1500, and the 1501st tick starts a 5-minute break with one completion |
| Pomodoro.BreakTime | src/components/PomodoroTimer.tsx:71 | definition only; mirrors `sessionCount % 4 === 3 ? LONG_BREAK : SHORT_BREAK` (also line 85) |
| Pomodoro.WorkSession | src/components/PomodoroTimer.tsx:62-67 | definition only; mirrors `startWorkSession` |
| Pomodoro.BreakSession | src/components/PomodoroTimer.tsx:69-76 | definition only; mirrors `startBreakSession` with the count it reads as a parameter |
| Pomodoro.AfterTick | src/components/PomodoroTimer.tsx:31-47 | definition only; mirrors the interval callback, a no-op while paused (its properties are `Pomodoro.TickCountsDown`, `Pomodoro.FocusEnds`, `Pomodoro.BreakEnds`, `Pomodoro.TickKeepsValid`) |
| Pomodoro.AfterToggle | src/components/PomodoroTimer.tsx:78-80 | definition only; mirrors `toggleTimer` |
| Pomodoro.AfterReset | src/components/PomodoroTimer.tsx:82-92 | definition only; mirrors `resetTimer` |
| Pomodoro.Ticks | src/components/PomodoroTimer.tsx:31-47 | definition only; `n` successive interval callbacks with their callbacks collected in order |
| Pomodoro.PomodoroTimer.constructor | src/components/PomodoroTimer.tsx:18-22 | a paused 25:00 focus phase with count 0 |
| Pomodoro.PomodoroTimer.StartWorkSession | src/components/PomodoroTimer.tsx:62-67 | 25:00, focus, paused; the count is kept |
| Pomodoro.PomodoroTimer.StartBreakSession | src/components/PomodoroTimer.tsx:69-76 | a running break of the length chosen by the count the handler reads; the break-start callback is called |
| Pomodoro.PomodoroTimer.Tick | src/components/PomodoroTimer.tsx:31-47 | the fields and callbacks that `AfterTick` gives; keeps a valid clock valid; never lowers the count |
| Pomodoro.PomodoroTimer.ToggleTimer | src/components/PomodoroTimer.tsx:78-80 | flips the running flag; keeps a valid clock valid |
| Pomodoro.PomodoroTimer.ResetTimer | src/components/PomodoroTimer.tsx:82-92 | the state `AfterReset` gives: paused and valid |

## Left out

- Saving to and reading from `localStorage`, and JSON parsing (`src/pages/Index.tsx:35-37,50-62`). The record is a value with optional fields; `Load` and `Store` are its two directions. A stored field that is not an integer (a string, a fraction) and a parse error are not modelled.
- Toast titles, descriptions and durations, and `console.log`. Each toast is an `Event` in a returned list. `LevelUp` carries the new level; its title is `GetRankName(level)`. `LocationUnlocked` carries the id, which the real toast does not show.
- `setInterval`, `useEffect` and React's batching of state updates. Each tick and each handler is one atomic step. Two stale reads are kept: the break length at focus end uses the count before the increment, and the cascade's membership test uses the list as it was before the session.
- Page composition: starting a break swaps the timer for the break animation. The timer is modelled on its own, with no whole-app focus→break→focus cycle.
- Floating-point progress percentages (`src/components/PomodoroTimer.tsx:94-98`, `src/components/NinjaCharacter.tsx:38`), all JSX, styling and icons.
- `src/components/StatsPanel.tsx` (display only) and `src/components/BreakAnimation.tsx` (decorative quotes) are not part of this model.
- Maintenance of `currentStreak` and the day and week rollover of the counters: the source has none.
- JavaScript number limits: levels, exp and counters are unbounded integers, because the source never comes near 2^53.
