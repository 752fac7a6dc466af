/**
 * The adventure map: a fixed catalog of eight locations, whether each is
 * open at the current level, whether it is in the list of locations the
 * progression has unlocked ("visited"), and the badge and card look that
 * the map derives from those two facts.
 */
module AdventureMap {

  datatype Location = Location(
    id: int,
    name: string,
    emoji: string,
    requiredLevel: int,
    description: string)

  /** The static catalog, in display order. */
  const Locations: seq<Location> := [
    Location(1, "Desa Konoha", "🏘️", 1, "Tempat awal perjalanan ninja"),
    Location(2, "Hutan Maut", "🌲", 5, "Tempat latihan survival"),
    Location(3, "Gunung Myoboku", "⛰️", 10, "Tempat para katak bijak"),
    Location(4, "Desa Suna", "🏜️", 15, "Desa tersembunyi di pasir"),
    Location(5, "Pulau Kura-kura", "🏝️", 20, "Tempat latihan Rasengan"),
    Location(6, "Desa Kumo", "☁️", 25, "Desa di atas awan"),
    Location(7, "Lembah Akhir", "⚡", 30, "Tempat pertarungan legendaris"),
    Location(8, "Bulan Sage Mode", "🌙", 40, "Dimensi chakra tertinggi")
  ]

  /** `isLocationUnlocked`: the level is high enough for the location. */
  predicate IsLocationUnlocked(currentLevel: int, location: Location)
  {
    currentLevel >= location.requiredLevel
  }

  /** `isLocationVisited`: the id is in the progression's unlocked list. */
  predicate IsLocationVisited(unlockedLocations: seq<int>, locationId: int)
  {
    locationId in unlockedLocations
  }

  /** The badge under a location card: "Selesai", "Tersedia", or a lock with "Lv.<n>". */
  datatype Badge = Done | Available | Locked(requiredLevel: int)

  /** The badge of one card; visited is tested before unlocked. */
  function BadgeFor(currentLevel: int, unlockedLocations: seq<int>, location: Location): (b: Badge)
    ensures b.Done? <==> IsLocationVisited(unlockedLocations, location.id)
    ensures b.Available? <==>
      !IsLocationVisited(unlockedLocations, location.id) && IsLocationUnlocked(currentLevel, location)
    ensures b.Locked? <==>
      !IsLocationVisited(unlockedLocations, location.id) && !IsLocationUnlocked(currentLevel, location)
    ensures b.Locked? ==> b.requiredLevel == location.requiredLevel > currentLevel
  {
    if IsLocationVisited(unlockedLocations, location.id) then Done
    else if IsLocationUnlocked(currentLevel, location) then Available
    else Locked(location.requiredLevel)
  }

  /** The look of a card (border, background, emoji or lock); here unlocked is tested first. */
  datatype CardLook = Glowing | Open | Dimmed

  function CardFor(currentLevel: int, unlockedLocations: seq<int>, location: Location): (look: CardLook)
    ensures look.Dimmed? <==> !IsLocationUnlocked(currentLevel, location)
    ensures look.Glowing? <==>
      IsLocationUnlocked(currentLevel, location) && IsLocationVisited(unlockedLocations, location.id)
  {
    if IsLocationUnlocked(currentLevel, location) then
      if IsLocationVisited(unlockedLocations, location.id) then Glowing else Open
    else Dimmed
  }

  /** Eight entries, ids 1..8 in order, required levels strictly increasing with the listed values. */
  lemma CatalogShape()
    ensures |Locations| == 8
    ensures forall i :: 0 <= i < |Locations| ==> Locations[i].id == i + 1
    ensures forall i, j :: 0 <= i < j < |Locations| ==> Locations[i].requiredLevel < Locations[j].requiredLevel
    ensures seq(|Locations|, i requires 0 <= i < |Locations| => Locations[i].requiredLevel)
         == [1, 5, 10, 15, 20, 25, 30, 40]
  {
  }

  /** Once open at some level, a location stays open at every higher level. */
  lemma UnlockedMonotone(level: int, higher: int, location: Location)
    requires level <= higher
    requires IsLocationUnlocked(level, location)
    ensures IsLocationUnlocked(higher, location)
  {
  }

  /** The first location (Konoha) is open at every level from 1 up. */
  lemma HomeAlwaysUnlocked(level: int)
    requires level >= 1
    ensures Locations[0].id == 1 && IsLocationUnlocked(level, Locations[0])
  {
  }

  /**
   * Whether a card shows "Selesai" depends only on the unlocked list, never
   * on the level; a visited location shows it even while its level is not
   * reached.
   */
  lemma VisitedIgnoresLevel(a: int, b: int, unlockedLocations: seq<int>, location: Location)
    ensures BadgeFor(a, unlockedLocations, location).Done? == BadgeFor(b, unlockedLocations, location).Done?
  {
  }

  /**
   * Badge and card disagree on a visited location whose level is not yet
   * reached: at level 35 with location 8 in the list (as the level-up
   * cascade produces it), the badge says "Selesai" while the card is dimmed.
   */
  lemma VisitedButDimmed()
    ensures BadgeFor(35, [1, 2, 3, 4, 5, 6, 7, 8], Locations[7]) == Done
    ensures CardFor(35, [1, 2, 3, 4, 5, 6, 7, 8], Locations[7]) == Dimmed
  {
  }
}
