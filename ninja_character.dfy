/**
 * The character card: the rank title and emoji chosen from the level by a
 * chain of thresholds, and the whole focus hours derived from the number of
 * completed 25-minute sessions.
 */
module NinjaCharacter {

  /** The levels at which the next rank begins, ascending. */
  const RankCuts: seq<int> := [5, 10, 20, 30, 50]

  /** Rank titles, one per tier, lowest first. */
  const RankNames: seq<string> :=
    ["🥷 Genin", "🧑‍🎓 Chunin", "👤 Jonin", "🎭 ANBU", "🔥 Kage", "🌟 Hokage"]

  /** Character emojis, one per tier, lowest first. */
  const Emojis: seq<string> := ["🥷", "🧑‍🎓", "👤", "🎭", "🔥", "🌟"]

  /** How many of the given cut points the level has reached. */
  function CutsReached(cuts: seq<int>, level: int): (n: nat)
    ensures n <= |cuts|
  {
    if cuts == [] then 0
    else (if cuts[0] <= level then 1 else 0) + CutsReached(cuts[1..], level)
  }

  /**
   * The tier of a level, counted as the number of rank cut points it has
   * reached: a reference definition that the two if-chains below are proved
   * to agree with.
   */
  function Tier(level: int): (t: nat)
    ensures t < |RankNames| && t < |Emojis|
    ensures forall i :: 0 <= i < |RankCuts| ==> (i < t <==> RankCuts[i] <= level)
  {
    assert RankCuts[1..] == [10, 20, 30, 50] && [50][1..] == [];
    var n4 := CutsReached([50], level);
    var n3 := CutsReached([30, 50], level);
    var n2 := CutsReached([20, 30, 50], level);
    var n1 := CutsReached([10, 20, 30, 50], level);
    assert n4 == if 50 <= level then 1 else 0;
    assert n3 == (if 30 <= level then 1 else 0) + n4;
    assert n2 == (if 20 <= level then 1 else 0) + n3;
    assert n1 == (if 10 <= level then 1 else 0) + n2;
    CutsReached(RankCuts, level)
  }

  /** `getRankName`: the rank title shown under the level badge. */
  function RankName(level: int): (name: string)
    ensures name == RankNames[Tier(level)]
  {
    assert RankCuts[0] == 5 && RankCuts[1] == 10 && RankCuts[2] == 20 && RankCuts[3] == 30 && RankCuts[4] == 50;
    if level < 5 then "🥷 Genin"
    else if level < 10 then "🧑‍🎓 Chunin"
    else if level < 20 then "👤 Jonin"
    else if level < 30 then "🎭 ANBU"
    else if level < 50 then "🔥 Kage"
    else "🌟 Hokage"
  }

  /** `getNinjaEmoji`: the large emoji drawn for the character. */
  function NinjaEmoji(level: int): (emoji: string)
    ensures emoji == Emojis[Tier(level)]
  {
    assert RankCuts[0] == 5 && RankCuts[1] == 10 && RankCuts[2] == 20 && RankCuts[3] == 30 && RankCuts[4] == 50;
    if level < 5 then "🥷"
    else if level < 10 then "🧑‍🎓"
    else if level < 20 then "👤"
    else if level < 30 then "🎭"
    else if level < 50 then "🔥"
    else "🌟"
  }

  /** Reaching cut points is monotone in the level, for any list of cuts. */
  lemma {:induction false} CutsReachedMonotone(cuts: seq<int>, a: int, b: int)
    requires a <= b
    ensures CutsReached(cuts, a) <= CutsReached(cuts, b)
  {
    if cuts != [] {
      CutsReachedMonotone(cuts[1..], a, b);
    }
  }

  /** A higher level never has a lower tier. */
  lemma TierMonotone(a: int, b: int)
    requires a <= b
    ensures Tier(a) <= Tier(b)
  {
    CutsReachedMonotone(RankCuts, a, b);
  }

  /** The rank title never goes back to an earlier tier as the level rises. */
  lemma RankNeverDrops(a: int, b: int)
    requires a <= b
    ensures RankName(b) in RankNames[Tier(a)..]
  {
    TierMonotone(a, b);
    assert RankName(b) == RankNames[Tier(a)..][Tier(b) - Tier(a)];
  }

  /** No two tiers share a title. */
  lemma TitlesDistinct(i: nat, j: nat)
    requires i < |RankNames| && j < |RankNames| && i != j
    ensures RankNames[i] != RankNames[j]
  {
    assert RankNames[i][0] != RankNames[j][0];
  }

  /** No two tiers share an emoji. */
  lemma EmojisDistinct(i: nat, j: nat)
    requires i < |Emojis| && j < |Emojis| && i != j
    ensures Emojis[i] != Emojis[j]
  {
    assert Emojis[i][0] != Emojis[j][0];
  }

  /** Each tier's title is its emoji, a space and the rank word. */
  lemma EmojiStartsTitle(t: nat)
    requires t < |Emojis|
    ensures Emojis[t] + " " <= RankNames[t]
  {
    if t == 0 { assert RankNames[0] == Emojis[0] + " " + "Genin"; }
    else if t == 1 { assert RankNames[1] == Emojis[1] + " " + "Chunin"; }
    else if t == 2 { assert RankNames[2] == Emojis[2] + " " + "Jonin"; }
    else if t == 3 { assert RankNames[3] == Emojis[3] + " " + "ANBU"; }
    else if t == 4 { assert RankNames[4] == Emojis[4] + " " + "Kage"; }
    else { assert RankNames[5] == Emojis[5] + " " + "Hokage"; }
  }

  /**
   * Emoji and rank title always name the same tier: two levels share a
   * title exactly when they share an emoji, and the emoji starts the title.
   */
  lemma EmojiMatchesRank(a: int, b: int)
    ensures RankName(a) == RankName(b) <==> NinjaEmoji(a) == NinjaEmoji(b)
    ensures NinjaEmoji(a) + " " <= RankName(a)
  {
    var ta, tb := Tier(a), Tier(b);
    EmojiStartsTitle(ta);
    if ta != tb {
      TitlesDistinct(ta, tb);
      EmojisDistinct(ta, tb);
    }
  }

  /**
   * The whole hours of focus in `totalSessions` sessions of 25 minutes,
   * rounded down (`Math.floor` of a non-negative or negative quotient by a
   * positive divisor agrees with Dafny's `/`).
   */
  function TotalHours(totalSessions: int): (hours: int)
    ensures hours * 60 <= totalSessions * 25 < (hours + 1) * 60
  {
    totalSessions * 25 / 60
  }

  /** No session count shows negative hours. */
  lemma HoursNonNegative(totalSessions: nat)
    ensures TotalHours(totalSessions) >= 0
  {
  }

  /** More sessions never show fewer hours. */
  lemma HoursMonotone(a: int, b: int)
    requires a <= b
    ensures TotalHours(a) <= TotalHours(b)
  {
  }

  /** One more session raises the shown hours by 0 or 1, never more. */
  lemma HoursStep(totalSessions: int)
    ensures TotalHours(totalSessions) <= TotalHours(totalSessions + 1) <= TotalHours(totalSessions) + 1
  {
  }
}
