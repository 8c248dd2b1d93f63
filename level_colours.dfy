/**
 * The web front end's colour lookup for achievement levels: a
 * four-entry table keyed by the lower-cased level name, a grey default,
 * and black text on the two light badges.
 */
module LevelColours {
  import AchievementLevels

  const LevelColourTable: map<string, string> :=
    map["bronze" := "#cd7f32", "silver" := "#c0c0c0", "gold" := "#ffd700", "platinum" := "#0070FF"]

  /** The colour of a level missing from the table. */
  const DefaultColour := "#757575"

  /** ASCII `toLowerCase` of one character. */
  function LowerChar(c: char): char
  {
    if 'A' <= c <= 'Z' then (c as int - 'A' as int + 'a' as int) as char else c
  }

  function ToLower(s: string): string
  {
    seq(|s|, i requires 0 <= i < |s| => LowerChar(s[i]))
  }

  /** The two strings are equal up to the case of their letters. */
  predicate EqualIgnoringCase(a: string, b: string)
  {
    |a| == |b| && forall i :: 0 <= i < |a| ==> LowerChar(a[i]) == LowerChar(b[i])
  }

  /** `getLevelColour` */
  function GetLevelColour(level: string): (colour: string)
    ensures colour == DefaultColour || colour in LevelColourTable.Values
  {
    var lowerLevel := ToLower(level);
    if lowerLevel in LevelColourTable then LevelColourTable[lowerLevel] else DefaultColour
  }

  /** `getLevelTextColour` */
  function GetLevelTextColour(level: string): (colour: string)
    ensures colour == "black" || colour == "white"
  {
    if ToLower(level) in ["gold", "platinum"] then "black" else "white"
  }

  /** The four tiers and their badge colours; anything else is grey. */
  lemma LevelColourTableLookup(level: string)
    ensures ToLower(level) == "bronze" ==> GetLevelColour(level) == "#cd7f32"
    ensures ToLower(level) == "silver" ==> GetLevelColour(level) == "#c0c0c0"
    ensures ToLower(level) == "gold" ==> GetLevelColour(level) == "#ffd700"
    ensures ToLower(level) == "platinum" ==> GetLevelColour(level) == "#0070FF"
    ensures GetLevelColour(level) == DefaultColour <==> ToLower(level) !in LevelColourTable
  {
  }

  /** Lower-casing is what `EqualIgnoringCase` compares. */
  lemma EqualIgnoringCaseMeans(a: string, b: string)
    ensures EqualIgnoringCase(a, b) <==> ToLower(a) == ToLower(b)
  {
    if ToLower(a) == ToLower(b) {
      assert |a| == |ToLower(a)|;
      forall i | 0 <= i < |a| ensures LowerChar(a[i]) == LowerChar(b[i]) {
        assert ToLower(a)[i] == ToLower(b)[i];
      }
    }
  }

  /** Any casing of a level name gets the same badge and text colour. */
  lemma ColoursIgnoreCase(a: string, b: string)
    requires EqualIgnoringCase(a, b)
    ensures GetLevelColour(a) == GetLevelColour(b)
    ensures GetLevelTextColour(a) == GetLevelTextColour(b)
  {
    EqualIgnoringCaseMeans(a, b);
  }

  /** Black text exactly on gold and platinum badges. */
  lemma TextColourIff(level: string)
    ensures GetLevelTextColour(level) == "black" <==> ToLower(level) == "gold" || ToLower(level) == "platinum"
    ensures GetLevelTextColour(level) == "white" <==> ToLower(level) != "gold" && ToLower(level) != "platinum"
  {
  }

  /** The name the API sends for each level (the enum's `ToString`). */
  function LevelName(level: AchievementLevels.AchievementLevel): string
  {
    match level
    case None => "None"
    case Bronze => "Bronze"
    case Silver => "Silver"
    case Gold => "Gold"
    case Platinum => "Platinum"
  }

  /** What the front end shows for each level the API can send. */
  lemma ApiLevelColours()
    ensures GetLevelColour(LevelName(AchievementLevels.None)) == DefaultColour
    ensures GetLevelColour(LevelName(AchievementLevels.Bronze)) == "#cd7f32"
    ensures GetLevelColour(LevelName(AchievementLevels.Silver)) == "#c0c0c0"
    ensures GetLevelColour(LevelName(AchievementLevels.Gold)) == "#ffd700"
    ensures GetLevelColour(LevelName(AchievementLevels.Platinum)) == "#0070FF"
    ensures forall l :: GetLevelTextColour(LevelName(l)) == "black" <==> l == AchievementLevels.Gold || l == AchievementLevels.Platinum
  {
    assert ToLower("None") == "none";
    assert ToLower("Bronze") == "bronze";
    assert ToLower("Silver") == "silver";
    assert ToLower("Gold") == "gold";
    assert ToLower("Platinum") == "platinum";
  }
}
