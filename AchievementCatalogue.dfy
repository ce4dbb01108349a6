/**
 * The achievement catalogue of config/achievements.js and the condition
 * enumeration of the Achievement table it is seeded into.
 */
module AchievementCatalogue {

  /** One catalogue entry: what is shown, and the condition that unlocks it. */
  datatype Achievement = Achievement(
    name: string,
    description: string,
    icon: string,
    condition: string,
    threshold: int)

  /** The values the Achievement table's `condition` column admits. */
  const ConditionNames: seq<string> := [
    "wins", "streak", "games", "perfect",
    "diagonal_wins", "fast_win", "comeback", "unique_opponents"
  ]

  /** The eight entries, in their listed order. */
  function Catalogue(): (c: seq<Achievement>)
    ensures |c| == 8
    ensures forall i, j :: 0 <= i < j < |c| ==> c[i].name != c[j].name
    ensures forall i :: 0 <= i < |c| ==> c[i].condition in ConditionNames
    ensures forall i :: 0 <= i < |c| ==> c[i].threshold > 0
  {
    [ Achievement("First Victory", "Win your first game", "\U{1F3C6}", "wins", 1),
      Achievement("Winning Streak", "Win 3 games in a row", "\U{1F525}", "streak", 3),
      Achievement("Veteran Player", "Play 10 games", "\U{2B50}", "games", 10),
      Achievement("Perfect Game", "Win without letting opponent make a move", "\U{1F451}", "perfect", 1),
      Achievement("Master Tactician", "Win 5 games using diagonal victories", "\U{1F3AF}", "diagonal_wins", 5),
      Achievement("Speed Demon", "Win a game in under 10 seconds", "\U{26A1}", "fast_win", 1),
      Achievement("Comeback King", "Win after being one move away from losing", "\U{1F451}", "comeback", 1),
      Achievement("Social Butterfly", "Play with 5 different opponents", "\U{1F98B}", "unique_opponents", 5) ]
  }

  /** Entry k of the catalogue uses value k of the condition enumeration, so each value is used exactly once. */
  lemma EveryConditionUsedOnce()
    ensures forall k :: 0 <= k < |ConditionNames| ==> Catalogue()[k].condition == ConditionNames[k]
  {
  }
}
