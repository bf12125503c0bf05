/**
 * The per-user, per-mood interaction ledger shared by both history services
 * (services/historyservice.py with lower-case keys, scripts/historyservice.py
 * with capitalised keys): its shape, the empty ledger, and the effect of each
 * mutation as a function of the ledger before it.
 */
module HistoryModel {
  import opened MoodService

  /** One mood's record: three flag maps, two counters and the recent-plays window. */
  datatype MoodHistory = MoodHistory(
    liked: map<string, bool>,
    disliked: map<string, bool>,
    favorite: map<string, bool>,
    skipped: map<string, nat>,
    finished: map<string, nat>,
    previous: seq<string>)

  /** A user's ledger: one record per mood label. */
  type History = map<string, MoodHistory>

  /** How many recent plays a record keeps. */
  const MaxPrevious: nat := 3

  const EmptyMoodHistory: MoodHistory := MoodHistory(map[], map[], map[], map[], map[], [])

  /** The three boolean maps that the like, dislike and favorite handlers overwrite. */
  datatype Flag = Liked | Disliked | Favorite

  function Flags(record: MoodHistory, flag: Flag): map<string, bool>
  {
    match flag
    case Liked => record.liked
    case Disliked => record.disliked
    case Favorite => record.favorite
  }

  /** Every recorded skip or finish count is at least one, as increments from zero leave it. */
  predicate CountsPositive(record: MoodHistory)
  {
    && (forall s :: s in record.skipped ==> record.skipped[s] > 0)
    && (forall s :: s in record.finished ==> record.finished[s] > 0)
  }

  /**
   * The ledger invariant: exactly the mood labels as keys, each window at
   * most three long, every counter positive.
   */
  predicate WellFormed(h: History)
  {
    && h.Keys == MoodSet
    && forall m :: m in h ==> |h[m].previous| <= MaxPrevious && CountsPositive(h[m])
  }

  /** Two records that differ at most in their recent-plays window. */
  predicate SameExceptPrevious(a: MoodHistory, b: MoodHistory)
  {
    a.liked == b.liked && a.disliked == b.disliked && a.favorite == b.favorite
    && a.skipped == b.skipped && a.finished == b.finished
  }

  /** Two ledgers with the same moods that agree on every mood except `mood`. */
  predicate OnlyMoodChanged(before: History, after: History, mood: string)
  {
    after.Keys == before.Keys && forall m :: m in before && m != mood ==> after[m] == before[m]
  }

  /** The empty ledger: every mood, every map empty, no recent plays. */
  function Create(): (h: History)
    ensures h.Keys == MoodSet
    ensures forall m :: m in h ==> h[m] == EmptyMoodHistory
    ensures WellFormed(h)
  {
    map m | m in Moods :: EmptyMoodHistory
  }

  /**
   * The window after a play: the song first, then the old entries in order;
   * one entry is dropped from the end when the window would exceed three.
   */
  function Pushed(previous: seq<string>, song: string): (r: seq<string>)
    ensures |r| == if |previous| < MaxPrevious then |previous| + 1 else |previous|
    ensures r[0] == song && r[1..] == previous[..|r| - 1]
    ensures |previous| <= MaxPrevious ==> |r| <= MaxPrevious
  {
    var inserted := [song] + previous;
    if |inserted| > MaxPrevious then inserted[..|inserted| - 1] else inserted
  }

  /** A counter map after one more event for `song`: absent counts start at zero. */
  function Incremented(counts: map<string, nat>, song: string): (r: map<string, nat>)
    ensures r.Keys == counts.Keys + {song}
    ensures r[song] == (if song in counts then counts[song] else 0) + 1
    ensures forall s :: s in counts && s != song ==> r[s] == counts[s]
    ensures forall s :: s in counts ==> r[s] >= counts[s]
  {
    var start := if song in counts then counts[song] else 0;
    counts[song := start + 1]
  }

  lemma IncrementedPositive(counts: map<string, nat>, song: string)
    ensures (forall s :: s in counts ==> counts[s] > 0) ==>
            forall s :: s in Incremented(counts, song) ==> Incremented(counts, song)[s] > 0
  {
  }

  /** The ledger after `song` is played in `mood`: only that mood's window changes. */
  function RecordPlayed(h: History, mood: string, song: string): (r: History)
    requires mood in h
    ensures OnlyMoodChanged(h, r, mood)
    ensures SameExceptPrevious(h[mood], r[mood])
    ensures r[mood].previous == Pushed(h[mood].previous, song)
    ensures WellFormed(h) ==> WellFormed(r)
  {
    h[mood := h[mood].(previous := Pushed(h[mood].previous, song))]
  }

  /** The ledger after a skip: the skip counter of `song` goes up by one, then the play is recorded. */
  function RecordSkip(h: History, mood: string, song: string): (r: History)
    requires mood in h
    ensures OnlyMoodChanged(h, r, mood)
    ensures r[mood].skipped == Incremented(h[mood].skipped, song)
    ensures r[mood].liked == h[mood].liked && r[mood].disliked == h[mood].disliked
    ensures r[mood].favorite == h[mood].favorite && r[mood].finished == h[mood].finished
    ensures r[mood].previous == Pushed(h[mood].previous, song)
    ensures WellFormed(h) ==> WellFormed(r)
  {
    var record := h[mood];
    var counted := h[mood := record.(skipped := Incremented(record.skipped, song))];
    IncrementedPositive(record.skipped, song);
    assert WellFormed(h) ==> WellFormed(counted);
    RecordPlayed(counted, mood, song)
  }

  /** The ledger after a finish: the finish counter of `song` goes up by one, then the play is recorded. */
  function RecordFinish(h: History, mood: string, song: string): (r: History)
    requires mood in h
    ensures OnlyMoodChanged(h, r, mood)
    ensures r[mood].finished == Incremented(h[mood].finished, song)
    ensures r[mood].liked == h[mood].liked && r[mood].disliked == h[mood].disliked
    ensures r[mood].favorite == h[mood].favorite && r[mood].skipped == h[mood].skipped
    ensures r[mood].previous == Pushed(h[mood].previous, song)
    ensures WellFormed(h) ==> WellFormed(r)
  {
    var record := h[mood];
    var counted := h[mood := record.(finished := Incremented(record.finished, song))];
    IncrementedPositive(record.finished, song);
    assert WellFormed(h) ==> WellFormed(counted);
    RecordPlayed(counted, mood, song)
  }

  /** The ledger after one flag map of `mood` has its entry for `song` overwritten with `value`. */
  function RecordFlag(h: History, mood: string, flag: Flag, song: string, value: bool): (r: History)
    requires mood in h
    ensures OnlyMoodChanged(h, r, mood)
    ensures Flags(r[mood], flag) == Flags(h[mood], flag)[song := value]
    ensures forall other :: other != flag ==> Flags(r[mood], other) == Flags(h[mood], other)
    ensures r[mood].skipped == h[mood].skipped && r[mood].finished == h[mood].finished
    ensures r[mood].previous == h[mood].previous
    ensures WellFormed(h) ==> WellFormed(r)
  {
    var record := WithFlag(h[mood], flag, song, value);
    assert SameCounts(h[mood], record);
    h[mood := record]
  }

  /** Two records with the same counters and the same window. */
  predicate SameCounts(a: MoodHistory, b: MoodHistory)
  {
    a.skipped == b.skipped && a.finished == b.finished && a.previous == b.previous
  }

  /** One record with the entry for `song` in one flag map overwritten; the other fields as they were. */
  function WithFlag(record: MoodHistory, flag: Flag, song: string, value: bool): (r: MoodHistory)
    ensures Flags(r, flag) == Flags(record, flag)[song := value]
    ensures forall other :: other != flag ==> Flags(r, other) == Flags(record, other)
    ensures SameCounts(record, r)
  {
    match flag
    case Liked => record.(liked := record.liked[song := value])
    case Disliked => record.(disliked := record.disliked[song := value])
    case Favorite => record.(favorite := record.favorite[song := value])
  }

  /** Setting a flag twice to the same value is the same as setting it once. */
  lemma RecordFlagIdempotent(h: History, mood: string, flag: Flag, song: string, value: bool)
    requires mood in h
    ensures RecordFlag(RecordFlag(h, mood, flag, song, value), mood, flag, song, value)
         == RecordFlag(h, mood, flag, song, value)
  {
    var once := WithFlag(h[mood], flag, song, value);
    assert WithFlag(once, flag, song, value) == once by {
      match flag
      case Liked => assert once.liked[song := value] == once.liked;
      case Disliked => assert once.disliked[song := value] == once.disliked;
      case Favorite => assert once.favorite[song := value] == once.favorite;
    }
    assert h[mood := once][mood := once] == h[mood := once];
  }

  /** The window after a sequence of plays, oldest play first. */
  function PlayAll(previous: seq<string>, plays: seq<string>): seq<string>
    decreases |plays|
  {
    if plays == [] then previous else PlayAll(Pushed(previous, plays[0]), plays[1..])
  }

  function Reversed(s: seq<string>): seq<string>
  {
    if s == [] then [] else Reversed(s[1..]) + [s[0]]
  }

  function Min(a: int, b: int): int
  {
    if a < b then a else b
  }

  /** Keeping a prefix of the tail does not matter when the result is cut short enough. */
  lemma PrefixOfAppend(a: seq<string>, b: seq<string>, k: nat, n: nat)
    requires k <= |b| && n <= |a| + k
    ensures (a + b[..k])[..n] == (a + b)[..n]
  {
    assert forall i :: 0 <= i < n ==> (a + b[..k])[i] == (a + b)[i];
  }

  /**
   * Whatever the plays, the window holds the newest three songs, newest
   * first, topped up from the window it started with.
   */
  lemma {:induction false} PlayAllKeepsNewest(previous: seq<string>, plays: seq<string>)
    requires |previous| <= MaxPrevious
    ensures |Reversed(plays)| == |plays|
    ensures PlayAll(previous, plays)
         == (Reversed(plays) + previous)[..Min(MaxPrevious, |plays| + |previous|)]
    decreases |plays|
  {
    ReversedLength(plays);
    if plays == [] {
      assert previous[..|previous|] == previous;
    } else {
      var song, rest := plays[0], plays[1..];
      var pushed := Pushed(previous, song);
      PlayAllKeepsNewest(pushed, rest);
      var k := Min(MaxPrevious, |previous| + 1);
      assert pushed == ([song] + previous)[..k];
      PrefixOfAppend(Reversed(rest), [song] + previous, k,
                     Min(MaxPrevious, |rest| + |pushed|));
      assert Reversed(rest) + ([song] + previous) == Reversed(plays) + previous;
    }
  }

  /** Starting from an empty window, playing a, b, c, d leaves [d, c, b]. */
  lemma FourPlaysKeepThree(a: string, b: string, c: string, d: string)
    ensures PlayAll([], [a, b, c, d]) == [d, c, b]
  {
    PlayAllKeepsNewest([], [a, b, c, d]);
    assert [a, b, c, d][1..] == [b, c, d];
    assert [b, c, d][1..] == [c, d];
    assert [c, d][1..] == [d];
    assert Reversed([d]) == [d];
    assert Reversed([c, d]) == [d, c];
    assert Reversed([b, c, d]) == [d, c, b];
  }

  /** However many plays, a window that starts within bounds stays within them. */
  lemma {:induction false} PlayAllBounded(previous: seq<string>, plays: seq<string>)
    requires |previous| <= MaxPrevious
    ensures |PlayAll(previous, plays)| <= MaxPrevious
    ensures plays != [] ==> |PlayAll(previous, plays)| > 0 && PlayAll(previous, plays)[0] == plays[|plays| - 1]
  {
    PlayAllKeepsNewest(previous, plays);
    if plays != [] {
      ReversedFirst(plays);
    }
  }

  lemma {:induction false} ReversedFirst(s: seq<string>)
    requires s != []
    ensures |Reversed(s)| == |s| && Reversed(s)[0] == s[|s| - 1]
  {
    if |s| > 1 {
      ReversedFirst(s[1..]);
    }
    ReversedLength(s);
  }

  lemma {:induction false} ReversedLength(s: seq<string>)
    ensures |Reversed(s)| == |s|
  {
    if s != [] {
      ReversedLength(s[1..]);
    }
  }
}
