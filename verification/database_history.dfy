/**
 * The database-backed history service (services/historyservice.py). The
 * "users" collection is a map from user id to stored ledger; every operation
 * reads the stored ledger (or an empty one), changes a copy in place and
 * writes it back.
 */
module DatabaseHistory {
  import opened HistoryModel
  import opened Ledgers

  /** What a read of `userId` yields: the stored ledger, or an empty one when there is none. */
  function Stored(users: map<string, History>, userId: string): (h: History)
    ensures userId in users ==> h == users[userId]
    ensures userId !in users ==> h == Create()
    ensures (forall u :: u in users ==> WellFormed(users[u])) ==> WellFormed(h)
  {
    if userId in users then users[userId] else Create()
  }

  lemma OverrideTwice<K, V>(m: map<K, V>, k: K, first: V, second: V)
    ensures m[k := first][k := second] == m[k := second]
  {
  }

  class HistoryService {
    /** The stored documents: user id to ledger. */
    var users: map<string, History>

    constructor (initial: map<string, History>)
      ensures users == initial
    {
      users := initial;
    }

    /** Upserts the ledger of `userId`. */
    method Save(userId: string, history: History)
      modifies this
      ensures users == old(users)[userId := history]
    {
      users := users[userId := history];
    }

    /** Reads the stored ledger, or an empty one when there is none; nothing is written. */
    method Load(userId: string) returns (history: History)
      ensures history == Stored(users, userId)
    {
      if userId in users {
        history := users[userId];
      } else {
        history := Create();
      }
    }

    /** Reads the stored ledger; a user seen for the first time gets an empty ledger, which is stored. */
    method GetHistory(userId: string) returns (history: History)
      modifies this
      ensures history == Stored(old(users), userId)
      ensures users == old(users)[userId := history]
      ensures userId in old(users) ==> users == old(users)
    {
      if userId in users {
        history := users[userId];
      } else {
        history := Create();
        Save(userId, history);
      }
    }

    /** Stores and returns an empty ledger, whatever was stored before. */
    method Reset(userId: string) returns (history: History)
      modifies this
      ensures history == Create()
      ensures users == old(users)[userId := Create()]
    {
      history := Create();
      Save(userId, history);
    }

    /** Counts a skip of `songId` in `mood`, records the play, and stores the result. */
    method SkipSong(userId: string, songId: string, mood: string)
      requires mood in Stored(users, userId)
      modifies this
      ensures users == old(users)[userId := RecordSkip(Stored(old(users), userId), mood, songId)]
    {
      ghost var before := users;
      var history := GetHistory(userId);
      var ledger := new Ledger(history);
      ledger.Skip(mood, songId);
      Save(userId, ledger.moods);
      OverrideTwice(before, userId, history, ledger.moods);
    }

    /** Counts a finish of `songId` in `mood`, records the play, and stores the result. */
    method FinishSong(userId: string, songId: string, mood: string)
      requires mood in Stored(users, userId)
      modifies this
      ensures users == old(users)[userId := RecordFinish(Stored(old(users), userId), mood, songId)]
    {
      ghost var before := users;
      var history := GetHistory(userId);
      var ledger := new Ledger(history);
      ledger.Finish(mood, songId);
      Save(userId, ledger.moods);
      OverrideTwice(before, userId, history, ledger.moods);
    }

    /** Sets the liked entry of `songId` in `mood` to `like` and stores the result. */
    method LikeSong(userId: string, songId: string, mood: string, like: bool)
      requires mood in Stored(users, userId)
      modifies this
      ensures users == old(users)[userId := RecordFlag(Stored(old(users), userId), mood, Liked, songId, like)]
    {
      ghost var before := users;
      var history := GetHistory(userId);
      var ledger := new Ledger(history);
      ledger.SetFlag(mood, Liked, songId, like);
      Save(userId, ledger.moods);
      OverrideTwice(before, userId, history, ledger.moods);
    }

    /** Sets the disliked entry of `songId` in `mood` to `dislike` and stores the result. */
    method DislikeSong(userId: string, songId: string, mood: string, dislike: bool)
      requires mood in Stored(users, userId)
      modifies this
      ensures users == old(users)[userId := RecordFlag(Stored(old(users), userId), mood, Disliked, songId, dislike)]
    {
      ghost var before := users;
      var history := GetHistory(userId);
      var ledger := new Ledger(history);
      ledger.SetFlag(mood, Disliked, songId, dislike);
      Save(userId, ledger.moods);
      OverrideTwice(before, userId, history, ledger.moods);
    }

    /** Sets the favorite entry of `songId` in `mood` to `favorite` and stores the result. */
    method FavoriteSong(userId: string, songId: string, mood: string, favorite: bool)
      requires mood in Stored(users, userId)
      modifies this
      ensures users == old(users)[userId := RecordFlag(Stored(old(users), userId), mood, Favorite, songId, favorite)]
    {
      ghost var before := users;
      var history := GetHistory(userId);
      var ledger := new Ledger(history);
      ledger.SetFlag(mood, Favorite, songId, favorite);
      Save(userId, ledger.moods);
      OverrideTwice(before, userId, history, ledger.moods);
    }
  }
}
