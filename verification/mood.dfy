/** The closed list of moods and the total normalisation onto it (scripts/moodservice.py). */
module MoodService {
  import opened Wrappers

  /** The ten mood labels, in declaration order; the last one is the fallback. */
  const Moods: seq<string> := [
    "HAPPY",
    "SAD",
    "CHILL",
    "ENERGETIC",
    "ROMANTIC",
    "ANGRY",
    "PEACEFUL",
    "PARTY",
    "MOTIVATIONAL",
    "NOSTALGIC"
  ]

  /** The labels as a set: the keys every user history carries. */
  const MoodSet: set<string> := set m | m in Moods

  /**
   * Maps any request argument onto the list: a known label is kept as given
   * (case-sensitively), anything else, a missing argument included, becomes
   * the last label of the list.
   */
  function GetMood(mood: Option<string>): (r: string)
    ensures r in Moods && r in MoodSet
    ensures mood.Some? && mood.value in Moods ==> r == mood.value
    ensures r != Moods[|Moods| - 1] ==> mood == Some(r)
  {
    if mood.Some? && mood.value in Moods then mood.value else Moods[|Moods| - 1]
  }

  /** Unknown and missing moods fall back to "NOSTALGIC". */
  lemma UnknownMoodIsNostalgic(mood: Option<string>)
    requires mood.None? || mood.value !in Moods
    ensures GetMood(mood) == "NOSTALGIC"
  {
  }

  /** Normalising an already normalised mood changes nothing. */
  lemma GetMoodIdempotent(mood: Option<string>)
    ensures GetMood(Some(GetMood(mood))) == GetMood(mood)
  {
  }

  /** The list holds ten distinct labels and ends with the fallback. */
  lemma MoodsDistinct()
    ensures |Moods| == 10
    ensures Moods[|Moods| - 1] == "NOSTALGIC"
    ensures forall i, j :: 0 <= i < j < |Moods| ==> Moods[i] != Moods[j]
  {
  }
}
