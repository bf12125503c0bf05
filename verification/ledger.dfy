/**
 * A user's history as the mutable object the handlers receive and change in
 * place: the insert-then-pop on the recent-plays list, the counter bumps and
 * the flag overwrites. Each method is proved against the matching function of
 * HistoryModel.
 */
module Ledgers {
  import opened HistoryModel

  class Ledger {
    /** The mood-keyed records of one user. */
    var moods: History

    constructor (h: History)
      ensures moods == h
    {
      moods := h;
    }

    /** Puts `song` at the front of the mood's window and pops the last entry past three. */
    method AddToPreviouslyPlayed(mood: string, song: string)
      requires mood in moods
      modifies this
      ensures moods == RecordPlayed(old(moods), mood, song)
    {
      var previous := moods[mood].previous;
      previous := [song] + previous;
      if |previous| > MaxPrevious {
        previous := previous[..|previous| - 1];
      }
      moods := moods[mood := moods[mood].(previous := previous)];
    }

    /** Starts an absent skip count at zero, adds one, then records the play. */
    method Skip(mood: string, song: string)
      requires mood in moods
      modifies this
      ensures moods == RecordSkip(old(moods), mood, song)
    {
      var record := moods[mood];
      if song !in record.skipped {
        record := record.(skipped := record.skipped[song := 0]);
      }
      record := record.(skipped := record.skipped[song := record.skipped[song] + 1]);
      assert record.skipped == Incremented(moods[mood].skipped, song);
      moods := moods[mood := record];
      AddToPreviouslyPlayed(mood, song);
    }

    /** Starts an absent finish count at zero, adds one, then records the play. */
    method Finish(mood: string, song: string)
      requires mood in moods
      modifies this
      ensures moods == RecordFinish(old(moods), mood, song)
    {
      var record := moods[mood];
      if song !in record.finished {
        record := record.(finished := record.finished[song := 0]);
      }
      record := record.(finished := record.finished[song := record.finished[song] + 1]);
      assert record.finished == Incremented(moods[mood].finished, song);
      moods := moods[mood := record];
      AddToPreviouslyPlayed(mood, song);
    }

    /** Overwrites the entry for `song` in the liked, disliked or favorite map of the mood. */
    method SetFlag(mood: string, flag: Flag, song: string, value: bool)
      requires mood in moods
      modifies this
      ensures moods == RecordFlag(old(moods), mood, flag, song, value)
    {
      var record := moods[mood];
      match flag {
        case Liked => record := record.(liked := record.liked[song := value]);
        case Disliked => record := record.(disliked := record.disliked[song := value]);
        case Favorite => record := record.(favorite := record.favorite[song := value]);
      }
      moods := moods[mood := record];
    }
  }
}
