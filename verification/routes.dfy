/**
 * The ledger-changing request handlers and the next-song handler
 * (scripts/routeservice.py), with the request arguments already extracted.
 * Each handler normalises the mood, fetches the user's ledger object through
 * the cache, and changes that object in place, so the cache sees the change.
 */
module RouteService {
  import opened Wrappers
  import opened MoodService
  import opened HistoryModel
  import opened FileHistory
  import opened RandomService
  import opened RecommendationService

  /** A normalised mood always names a record of a well-formed ledger. */
  lemma NormalisedMoodIsRecorded(h: History, mood: Option<string>)
    requires WellFormed(h)
    ensures GetMood(mood) in h
  {
  }

  /** Handles /skip: one more skip of `songId` for the user in the normalised mood, and a recorded play. */
  method Skip(service: HistoryService, userId: string, songId: string, mood: Option<string>)
    requires service.Valid()
    requires GetMood(mood) in service.Current(userId)
    modifies service, service.Cache.Values
    ensures service.Valid() && service.Files == old(service.Files)
    ensures service.Cache.Keys == old(service.Cache.Keys) + {userId}
    ensures userId in old(service.Cache) ==> service.Cache[userId] == old(service.Cache[userId])
    ensures service.Cache[userId].moods == RecordSkip(old(service.Current(userId)), GetMood(mood), songId)
    ensures service.Cache[userId].moods[GetMood(mood)].previous[0] == songId
    ensures forall u :: u in old(service.Cache) && u != userId ==>
              service.Cache[u] == old(service.Cache[u]) && unchanged(service.Cache[u])
  {
    var normalised := GetMood(mood);
    var history := service.GetHistory(userId);
    history.Skip(normalised, songId);
  }

  /** Handles /finish: one more finish of `songId` for the user in the normalised mood, and a recorded play. */
  method Finish(service: HistoryService, userId: string, songId: string, mood: Option<string>)
    requires service.Valid()
    requires GetMood(mood) in service.Current(userId)
    modifies service, service.Cache.Values
    ensures service.Valid() && service.Files == old(service.Files)
    ensures service.Cache.Keys == old(service.Cache.Keys) + {userId}
    ensures userId in old(service.Cache) ==> service.Cache[userId] == old(service.Cache[userId])
    ensures service.Cache[userId].moods == RecordFinish(old(service.Current(userId)), GetMood(mood), songId)
    ensures service.Cache[userId].moods[GetMood(mood)].previous[0] == songId
    ensures forall u :: u in old(service.Cache) && u != userId ==>
              service.Cache[u] == old(service.Cache[u]) && unchanged(service.Cache[u])
  {
    var normalised := GetMood(mood);
    var history := service.GetHistory(userId);
    history.Finish(normalised, songId);
  }

  /** Handles /like: overwrites the entry of `songId` in the liked map of the normalised mood with `like`. */
  method Like(service: HistoryService, userId: string, songId: string, mood: Option<string>, like: bool)
    requires service.Valid()
    requires GetMood(mood) in service.Current(userId)
    modifies service, service.Cache.Values
    ensures service.Valid() && service.Files == old(service.Files)
    ensures service.Cache.Keys == old(service.Cache.Keys) + {userId}
    ensures userId in old(service.Cache) ==> service.Cache[userId] == old(service.Cache[userId])
    ensures service.Cache[userId].moods == RecordFlag(old(service.Current(userId)), GetMood(mood), Liked, songId, like)
    ensures forall u :: u in old(service.Cache) && u != userId ==>
              service.Cache[u] == old(service.Cache[u]) && unchanged(service.Cache[u])
  {
    var normalised := GetMood(mood);
    var history := service.GetHistory(userId);
    history.SetFlag(normalised, Liked, songId, like);
  }

  /** Handles /dislike: overwrites the entry of `songId` in the disliked map of the normalised mood with `dislike`. */
  method Dislike(service: HistoryService, userId: string, songId: string, mood: Option<string>, dislike: bool)
    requires service.Valid()
    requires GetMood(mood) in service.Current(userId)
    modifies service, service.Cache.Values
    ensures service.Valid() && service.Files == old(service.Files)
    ensures service.Cache.Keys == old(service.Cache.Keys) + {userId}
    ensures userId in old(service.Cache) ==> service.Cache[userId] == old(service.Cache[userId])
    ensures service.Cache[userId].moods == RecordFlag(old(service.Current(userId)), GetMood(mood), Disliked, songId, dislike)
    ensures forall u :: u in old(service.Cache) && u != userId ==>
              service.Cache[u] == old(service.Cache[u]) && unchanged(service.Cache[u])
  {
    var normalised := GetMood(mood);
    var history := service.GetHistory(userId);
    history.SetFlag(normalised, Disliked, songId, dislike);
  }

  /** Handles /favorite: overwrites the entry of `songId` in the favorite map of the normalised mood with `favorite`. */
  method Favorite(service: HistoryService, userId: string, songId: string, mood: Option<string>, favorite: bool)
    requires service.Valid()
    requires GetMood(mood) in service.Current(userId)
    modifies service, service.Cache.Values
    ensures service.Valid() && service.Files == old(service.Files)
    ensures service.Cache.Keys == old(service.Cache.Keys) + {userId}
    ensures userId in old(service.Cache) ==> service.Cache[userId] == old(service.Cache[userId])
    ensures service.Cache[userId].moods == RecordFlag(old(service.Current(userId)), GetMood(mood), Flag.Favorite, songId, favorite)
    ensures forall u :: u in old(service.Cache) && u != userId ==>
              service.Cache[u] == old(service.Cache[u]) && unchanged(service.Cache[u])
  {
    var normalised := GetMood(mood);
    var history := service.GetHistory(userId);
    history.SetFlag(normalised, Flag.Favorite, songId, favorite);
  }

  /**
   * The candidate list as /next reads it: the default empty list when the
   * argument is missing, and otherwise the query-string value itself, whose
   * iteration yields one single-character string per character.
   */
  function RequestSongIds(raw: Option<string>): (r: seq<string>)
    ensures raw.None? ==> r == []
    ensures raw.Some? ==> |r| == |raw.value| && forall i :: 0 <= i < |r| ==> r[i] == [raw.value[i]]
  {
    if raw.None? then [] else seq(|raw.value|, i requires 0 <= i < |raw.value| => [raw.value[i]])
  }

  /**
   * With the candidates read as written, a draw over an argument of two or
   * more characters returns one character of it, never a song id the client
   * sent.
   */
  lemma RawSongIdsDrawOneCharacter(h: History, mood: string, raw: string, drawn: nat)
    requires mood in h
    requires forall s :: s in RequestSongIds(Some(raw)) ==> Scorable(h[mood], s)
    requires drawn < |raw| && |raw| >= 2
    ensures Normalize(Chances(h, mood, RequestSongIds(Some(raw)))).Success?
    ensures var songIds := RequestSongIds(Some(raw));
            var r := GetKey(WeightedKeys(songIds, Normalize(Chances(h, mood, songIds)).value), drawn);
            r == Success([raw[drawn]]) && |r.value| == 1 && r.value != raw
  {
    DrawPicksCandidate(h, mood, RequestSongIds(Some(raw)), drawn);
  }

  /**
   * Handles /next: scores the candidates against the user's ledger for the
   * normalised mood and draws one. `drawn` is the index the generator picks.
   * The candidates are the list of song ids the client sends, rather than the
   * characters of the raw argument (see RequestSongIds). With candidates the
   * draw returns the candidate at that index; with none it fails.
   */
  method Next(service: HistoryService, userId: string, mood: Option<string>, songIds: seq<string>, drawn: nat)
    returns (r: Result<string, RandomError>)
    requires service.Valid()
    requires GetMood(mood) in service.Current(userId)
    requires forall s :: s in songIds ==> Scorable(service.Current(userId)[GetMood(mood)], s)
    requires songIds == [] || drawn < |songIds|
    modifies service
    ensures service.Valid() && service.Files == old(service.Files)
    ensures service.Cache.Keys == old(service.Cache.Keys) + {userId}
    ensures service.Cache[userId].moods == old(service.Current(userId))
    ensures forall u :: u in old(service.Cache) ==> service.Cache[u] == old(service.Cache[u])
    ensures songIds != [] ==> r == Success(songIds[drawn])
    ensures songIds == [] ==> r == Failure(EmptyKeys)
  {
    var normalised := GetMood(mood);
    var history := service.GetHistory(userId);
    var weighted := GetSongChances(history.moods, normalised, songIds);
    r := GetKey(weighted, drawn);
  }
}
