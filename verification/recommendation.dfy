/**
 * The scoring of a candidate song from the user's history for one mood, and
 * the list of normalised weights built for a set of candidates
 * (scripts/recommendationservice.py). Scores are exact reals.
 */
module RecommendationService {
  import opened Wrappers
  import opened MoodService
  import opened HistoryModel
  import opened RandomService

  const BaseChance: real := 0.50
  const DislikedChance: real := 0.10
  const RecentPenalty: real := 0.20
  const LikedBonus: real := 0.10
  const FavoriteBonus: real := 0.20
  const CompletionWeight: real := 0.10

  function Max(a: real, b: real): real
  {
    if a < b then b else a
  }

  function MinReal(a: real, b: real): real
  {
    if a < b then a else b
  }

  /** `max(0.00, min(x, 1.00))`: pulls a score into [0, 1], leaving one already inside it alone. */
  function Clamp(x: real): (r: real)
    ensures 0.0 <= r <= 1.0
    ensures 0.0 <= x <= 1.0 ==> r == x
    ensures x < 0.0 ==> r == 0.0
    ensures x > 1.0 ==> r == 1.0
  {
    Max(0.0, MinReal(x, 1.0))
  }

  /**
   * The completion ratio `finished / (finished + skipped)` can be computed:
   * when the song has both counts, they do not add up to zero.
   */
  predicate Scorable(record: MoodHistory, song: string)
  {
    song in record.skipped && song in record.finished ==> record.finished[song] + record.skipped[song] > 0
  }

  /** Counters that only grow from zero by increments make every song of every mood scorable. */
  lemma WellFormedIsScorable(h: History, mood: string, song: string)
    requires WellFormed(h) && mood in h
    ensures Scorable(h[mood], song)
  {
    assert CountsPositive(h[mood]);
  }

  /** The share of plays that ran to the end: one exactly when there were no skips. */
  function CompletionRatio(finished: nat, skipped: nat): (p: real)
    requires finished + skipped > 0
    ensures 0.0 <= p <= 1.0
    ensures p == 1.0 <==> skipped == 0
    ensures p == 0.0 <==> finished == 0
  {
    finished as real / (finished + skipped) as real
  }

  /**
   * The selection weight of `song` in `mood`. A disliked song gets 0.10 and
   * nothing else counts; otherwise 0.50, less 0.20 when recently played, plus
   * 0.10 when liked, plus 0.20 when a favorite, plus 0.10 times the completion
   * ratio when the song has both a skip and a finish count. Membership is key
   * presence: the stored boolean is never read.
   */
  function GetSongChance(h: History, mood: string, song: string): (r: real)
    requires mood in h
    requires Scorable(h[mood], song)
    ensures 0.0 <= r <= 1.0
    ensures song in h[mood].disliked ==> r == DislikedChance
    ensures song !in h[mood].disliked ==> 0.30 <= r <= 0.90
    ensures r > 0.0
  {
    var record := h[mood];
    var chance :=
      if song in record.disliked then DislikedChance
      else
        var recent := if song in record.previous then BaseChance - RecentPenalty else BaseChance;
        var liked := if song in record.liked then recent + LikedBonus else recent;
        var favorite := if song in record.favorite then liked + FavoriteBonus else liked;
        if song in record.skipped && song in record.finished then
          favorite + CompletionWeight * CompletionRatio(record.finished[song], record.skipped[song])
        else favorite;
    Clamp(chance)
  }

  function Indicator(b: bool): real
  {
    if b then 1.0 else 0.0
  }

  /** The completion ratio when both counts exist, and nothing otherwise. */
  function CompletionBonus(record: MoodHistory, song: string): (p: real)
    requires Scorable(record, song)
    ensures 0.0 <= p <= 1.0
  {
    if song in record.skipped && song in record.finished
    then CompletionRatio(record.finished[song], record.skipped[song])
    else 0.0
  }

  /**
   * For a song that is not disliked the clamp never fires: the weight is the
   * plain sum of the adjustments.
   */
  lemma ChanceIsSumOfSignals(h: History, mood: string, song: string)
    requires mood in h && Scorable(h[mood], song)
    requires song !in h[mood].disliked
    ensures GetSongChance(h, mood, song)
         == BaseChance
            - RecentPenalty * Indicator(song in h[mood].previous)
            + LikedBonus * Indicator(song in h[mood].liked)
            + FavoriteBonus * Indicator(song in h[mood].favorite)
            + CompletionWeight * CompletionBonus(h[mood], song)
  {
  }

  /** Two records that give `song` the same signals: the same key presences and the same counts. */
  predicate SameSignals(a: MoodHistory, b: MoodHistory, song: string)
  {
    && (song in a.disliked <==> song in b.disliked)
    && (song in a.liked <==> song in b.liked)
    && (song in a.favorite <==> song in b.favorite)
    && (song in a.previous <==> song in b.previous)
    && a.skipped == b.skipped && a.finished == b.finished
  }

  /** The weight depends on the song's signals and on nothing else in the record. */
  lemma ChanceDependsOnSignals(a: History, b: History, mood: string, song: string)
    requires mood in a && mood in b && Scorable(a[mood], song)
    requires SameSignals(a[mood], b[mood], song)
    ensures Scorable(b[mood], song)
    ensures GetSongChance(a, mood, song) == GetSongChance(b, mood, song)
  {
  }

  /**
   * A stored false counts like a stored true: overwriting any flag of the song
   * with either value gives the same weight.
   */
  lemma ChanceReadsKeysNotValues(h: History, mood: string, flag: Flag, song: string)
    requires mood in h && Scorable(h[mood], song)
    ensures GetSongChance(RecordFlag(h, mood, flag, song, false), mood, song)
         == GetSongChance(RecordFlag(h, mood, flag, song, true), mood, song)
  {
    var f := RecordFlag(h, mood, flag, song, false);
    var t := RecordFlag(h, mood, flag, song, true);
    assert SameSignals(f[mood], t[mood], song) by {
      assert song in Flags(f[mood], flag) && song in Flags(t[mood], flag);
      assert forall other :: other != flag ==> Flags(f[mood], other) == Flags(t[mood], other);
      match flag
      case Liked => assert f[mood].disliked == t[mood].disliked && f[mood].favorite == t[mood].favorite;
      case Disliked => assert f[mood].liked == t[mood].liked && f[mood].favorite == t[mood].favorite;
      case Favorite => assert f[mood].liked == t[mood].liked && f[mood].disliked == t[mood].disliked;
    }
    ChanceDependsOnSignals(f, t, mood, song);
  }

  /** A disliked song scores 0.10 even when it is also liked and a favorite. */
  lemma DislikeVetoesFavorite(h: History, mood: string, song: string)
    requires mood in h && Scorable(h[mood], song)
    ensures var vetoed := RecordFlag(RecordFlag(RecordFlag(h, mood, Favorite, song, true),
                                                mood, Liked, song, true), mood, Disliked, song, true);
            GetSongChance(vetoed, mood, song) == 0.10
  {
  }

  /** Worked values: a fresh ledger scores 0.50, a recent play 0.30, three finishes and a skip 0.575. */
  lemma WorkedValues(mood: string, song: string, other: string)
    requires mood in Moods
    ensures GetSongChance(Create(), mood, song) == 0.50
    ensures GetSongChance(Create()[mood := EmptyMoodHistory.(previous := [song, other])], mood, song) == 0.30
    ensures GetSongChance(Create()[mood := EmptyMoodHistory.(finished := map[song := 3], skipped := map[song := 1])],
                          mood, song) == 0.575
  {
  }

  /** The weight of each candidate, in order, duplicates included. */
  function Chances(h: History, mood: string, songIds: seq<string>): (r: seq<real>)
    requires mood in h
    requires forall s :: s in songIds ==> Scorable(h[mood], s)
    ensures |r| == |songIds|
    ensures forall i :: 0 <= i < |r| ==> 0.0 < r[i] <= 1.0
  {
    seq(|songIds|, i requires 0 <= i < |songIds| => GetSongChance(h, mood, songIds[i]))
  }

  /**
   * Scores every candidate into two parallel lists and normalises the
   * weights: the keys are the candidates in order, and the weights are a
   * distribution over them whenever there is at least one candidate.
   */
  method GetSongChances(h: History, mood: string, songIds: seq<string>) returns (w: WeightedKeys<string>)
    requires mood in h
    requires forall s :: s in songIds ==> Scorable(h[mood], s)
    ensures w.keys == songIds && |w.chances| == |songIds|
    ensures Normalize(Chances(h, mood, songIds)) == Success(w.chances)
    ensures songIds != [] ==> IsDistribution(w.chances)
  {
    var keys: seq<string> := [];
    var chances: seq<real> := [];
    for i := 0 to |songIds|
      invariant keys == songIds[..i]
      invariant |chances| == i
      invariant forall j :: 0 <= j < i ==> chances[j] == GetSongChance(h, mood, songIds[j])
    {
      var chance := GetSongChance(h, mood, songIds[i]);
      keys := keys + [songIds[i]];
      chances := chances + [chance];
    }
    assert keys == songIds;
    assert chances == Chances(h, mood, songIds);
    if songIds != [] {
      PositiveSum(chances);
      NormalizedIsDistribution(chances);
    }
    var normalized := Normalize(chances);
    w := WeightedKeys(keys, normalized.value);
  }

  /**
   * Scoring then drawing always yields one of the candidates when there is
   * one: the weights form a distribution and the draw returns the key at the
   * generator's index.
   */
  lemma DrawPicksCandidate(h: History, mood: string, songIds: seq<string>, drawn: nat)
    requires mood in h
    requires forall s :: s in songIds ==> Scorable(h[mood], s)
    requires drawn < |songIds|
    ensures Normalize(Chances(h, mood, songIds)).Success?
    ensures GetKey(WeightedKeys(songIds, Normalize(Chances(h, mood, songIds)).value), drawn)
         == Success(songIds[drawn])
  {
    var raw := Chances(h, mood, songIds);
    PositiveSum(raw);
    NormalizedIsDistribution(raw);
  }
}
