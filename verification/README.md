# Song recommender history core, in Dafny

This project models the part of the mood-based song recommender server that decides what to play next.

- **Moods.** Every request carries a mood argument. It is normalised onto a closed list of ten labels, and anything unknown becomes `NOSTALGIC`.
- **The ledger.** Each user has one record per mood. A record holds three flag maps (liked, disliked, favorite), two counters (skipped, finished) and a window of the three most recent plays.
- **Handlers.** The `/skip`, `/finish`, `/like`, `/dislike` and `/favorite` handlers change the record of the normalised mood in place. They work on the ledger object that the file-backed history service keeps in its per-process cache.
- **Database service.** A second, database-backed history service does the same mutations on a copy it reads and writes back.
- **Scoring.** `/next` scores every candidate from the ledger. A disliked song gets 0.10. Any other song starts at 0.50, then loses 0.20 if recently played, gains 0.10 if liked, gains 0.20 if a favorite, and, when it has both a skip count and a finish count, gains 0.10 times its completion ratio. The score is clamped to [0, 1].
- **Drawing.** The scores are normalised by their sum, and one key is drawn.

Modules follow the source files:

- `MoodService` (mood.dfy) covers scripts/moodservice.py.
- `HistoryModel` (history.dfy) holds the ledger datatype and the effect of every mutation as a function. Both services share it; the field-name casing differs between the two stacks (`previous` / `Previous`).
- `Ledgers` (ledger.dfy) is a ledger as a mutable object. Its in-place mutators are proved against `HistoryModel`.
- `DatabaseHistory` (database_history.dfy) covers services/historyservice.py. The collection is a map from user id to ledger.
- `FileHistory` (file_history.dfy) covers scripts/historyservice.py:
  - the cache is a map from user id to a shared `Ledger` object;
  - the files are a map from path to ledger.
- `RouteService` (routes.dfy) covers the handlers of scripts/routeservice.py. The request arguments arrive already extracted.
- `RecommendationService` (recommendation.dfy) covers scripts/recommendationservice.py.
- `RandomService` (random.dfy) covers services/randomservice.py.
- `Wrappers` (wrappers.dfy) holds `Option` and `Result`.

Scores and weights are exact reals. Counters are natural numbers.

Two behaviours of the code worth stating outright:

- An empty list does not divide: `normalize([])` returns `[]`. Only a non-empty list whose sum is zero fails (`ZeroDivision`).
- The file-backed `Reset` rewrites the file but leaves the cache alone. A user who is already cached keeps seeing the old ledger, and the teardown hook later writes that cached ledger back over the reset file.

## Model

| member | source | states |
|---|---|---|
| MoodService.GetMood | scripts/moodservice.py:15-19 | the result is always one of the ten labels; a known label comes back unchanged; any result other than the last label is the input itself |
| MoodService.UnknownMoodIsNostalgic | scripts/moodservice.py:19 | a missing or unknown mood becomes "NOSTALGIC" |
| MoodService.GetMoodIdempotent | scripts/moodservice.py:15-19 | normalising twice is normalising once |
| MoodService.MoodsDistinct | scripts/moodservice.py:2-13 | ten pairwise-distinct labels with "NOSTALGIC" last |
| HistoryModel.Create | scripts/historyservice.py:52-62 | the keys are exactly the mood labels, every record is empty, and the result satisfies the ledger invariant |
| HistoryModel.Pushed | services/historyservice.py:69-72 | the song goes first, followed by the old window in order; the last entry is dropped only when the window would exceed three, so a window of at most three stays within three |
| HistoryModel.Incremented | services/historyservice.py:77-79 | the song's count becomes old+1, or 1 when absent; other songs keep their counts; no count decreases |
| HistoryModel.RecordPlayed | scripts/routeservice.py:122-125 | only the window of that mood changes, to the pushed window; the ledger invariant is preserved |
| HistoryModel.RecordSkip | services/historyservice.py:75-80 | only that mood changes; its skip counter is incremented and its window pushed, and its flags and finish counter are untouched; the invariant is preserved |
| HistoryModel.RecordFinish | services/historyservice.py:84-89 | only that mood changes; its finish counter is incremented and its window pushed, and its flags and skip counter are untouched; the invariant is preserved |
| HistoryModel.RecordFlag | services/historyservice.py:93-107 | only that mood changes; exactly one entry of the chosen flag map becomes the given value; the other maps, counters and window are untouched; the invariant is preserved |
| HistoryModel.WithFlag | scripts/routeservice.py:70 | within one record, the chosen flag map gets the entry and everything else is kept |
| HistoryModel.RecordFlagIdempotent | services/historyservice.py:95 | setting the same flag to the same value twice equals setting it once |
| HistoryModel.PlayAllKeepsNewest | services/historyservice.py:69-72 | after any sequence of plays, the window is the newest plays, newest first, topped up from the old window and cut to three |
| HistoryModel.FourPlaysKeepThree | services/historyservice.py:70-72 | from an empty window, plays a, b, c, d leave [d, c, b] |
| HistoryModel.PlayAllBounded | services/historyservice.py:70-72 | a window that starts within three stays within three, and the last play is at its front |
| Ledgers.Ledger.AddToPreviouslyPlayed | scripts/routeservice.py:122-125 | the in-place insert-then-pop leaves the ledger equal to RecordPlayed of the old one |
| Ledgers.Ledger.Skip | scripts/routeservice.py:23-27 | starting an absent count at zero, adding one and recording the play gives RecordSkip of the old ledger |
| Ledgers.Ledger.Finish | scripts/routeservice.py:46-50 | the same for the finish counter: RecordFinish of the old ledger |
| Ledgers.Ledger.SetFlag | scripts/routeservice.py:70 | overwriting one entry of one flag map gives RecordFlag of the old ledger |
| DatabaseHistory.Stored | services/historyservice.py:41-45 | the stored ledger, or an empty one when the user has no document; well-formed when every stored ledger is |
| DatabaseHistory.HistoryService.Save | services/historyservice.py:48-53 | upsert: the user's document becomes the given ledger and the others stay as they were |
| DatabaseHistory.HistoryService.Load | services/historyservice.py:41-45 | returns the stored ledger or an empty one, and writes nothing |
| DatabaseHistory.HistoryService.GetHistory | services/historyservice.py:25-32 | returns the stored ledger when there is one and writes nothing; otherwise returns an empty ledger and stores it |
| DatabaseHistory.HistoryService.Reset | services/historyservice.py:35-38 | stores and returns an empty ledger, whatever was stored |
| DatabaseHistory.HistoryService.SkipSong | services/historyservice.py:75-81 | the user's document becomes RecordSkip of what a read would have given; other users are untouched |
| DatabaseHistory.HistoryService.FinishSong | services/historyservice.py:84-90 | the user's document becomes RecordFinish of what a read would have given; other users are untouched |
| DatabaseHistory.HistoryService.LikeSong | services/historyservice.py:93-96 | the user's document becomes RecordFlag on the liked map; other users are untouched |
| DatabaseHistory.HistoryService.DislikeSong | services/historyservice.py:99-102 | the user's document becomes RecordFlag on the disliked map; other users are untouched |
| DatabaseHistory.HistoryService.FavoriteSong | services/historyservice.py:105-108 | the user's document becomes RecordFlag on the favorite map; other users are untouched |
| FileHistory.GetUserFilePath | scripts/historyservice.py:29-30 | the path is "../data/users/", then the id, then ".json", each part recoverable |
| FileHistory.UserFilePathInjective | scripts/historyservice.py:29-30 | distinct users have distinct files |
| FileHistory.Loaded | scripts/historyservice.py:39-44 | the ledger in the user's file, or an empty one when the file is missing |
| FileHistory.HistoryService.Load | scripts/historyservice.py:39-44 | reading the file returns Loaded and changes nothing |
| FileHistory.HistoryService.Save | scripts/historyservice.py:47-49 | only the user's file is rewritten; the cache is untouched |
| FileHistory.HistoryService.Reset | scripts/historyservice.py:33-36 | writes and returns an empty ledger, and leaves the cache as it was |
| FileHistory.HistoryService.GetHistory | scripts/historyservice.py:22-26 | afterwards the user is cached and the result is the cached object, holding what the user's ledger was; a cached user leaves the cache unchanged; an uncached user adds exactly one fresh entry; ledger objects stay unshared |
| RouteService.NormalisedMoodIsRecorded | scripts/routeservice.py:20 | a normalised mood is always a key of a ledger shaped like Create's |
| RouteService.Skip | scripts/routeservice.py:16-35 | the user's cached ledger becomes RecordSkip of the ledger the request saw, and the song is at the front of the window; an already cached user keeps the same ledger object; the files and every other user's ledger object are untouched |
| RouteService.Finish | scripts/routeservice.py:39-58 | the user's cached ledger becomes RecordFinish of the ledger the request saw, and the song is at the front of the window; an already cached user keeps the same ledger object; the files and every other user's ledger object are untouched |
| RouteService.Like | scripts/routeservice.py:62-78 | the user's cached ledger becomes RecordFlag on the liked map, in the same ledger object when the user was already cached; nothing else changes |
| RouteService.Dislike | scripts/routeservice.py:82-98 | the user's cached ledger becomes RecordFlag on the disliked map, in the same ledger object when the user was already cached; nothing else changes |
| RouteService.Favorite | scripts/routeservice.py:102-118 | the user's cached ledger becomes RecordFlag on the favorite map, in the same ledger object when the user was already cached; nothing else changes |
| RouteService.RequestSongIds | scripts/routeservice.py:155 | the candidates as read: none when the argument is missing, otherwise one single-character string per character of the argument |
| RouteService.RawSongIdsDrawOneCharacter | scripts/routeservice.py:155-159 | with the candidates read as written, the draw returns one character of the argument, never the id that was sent |
| RouteService.Next | scripts/routeservice.py:151-169 | with candidates, the draw succeeds with the candidate at the generator's index; with none, it fails with the empty-keys error; the user ends up cached, holding the ledger the request saw, every previously cached user keeps its ledger object, and the files stay as they were |
| RecommendationService.Clamp | scripts/recommendationservice.py:29 | the result is in [0, 1], equals x inside that range and the nearer bound outside it |
| RecommendationService.CompletionRatio | scripts/recommendationservice.py:24-26 | a ratio in [0, 1] that is 1 exactly when there are no skips and 0 exactly when there are no finishes |
| RecommendationService.WellFormedIsScorable | scripts/recommendationservice.py:23-26 | counters built by increments never make the ratio's denominator zero |
| RecommendationService.GetSongChance | scripts/recommendationservice.py:8-31 | the score is in [0, 1] and positive; a disliked song scores exactly 0.10; any other song scores between 0.30 and 0.90 |
| RecommendationService.ChanceIsSumOfSignals | scripts/recommendationservice.py:14-27 | for a song that is not disliked, the score is 0.50 − 0.20·recent + 0.10·liked + 0.20·favorite + 0.10·ratio, so the clamp never changes it |
| RecommendationService.CompletionBonus | scripts/recommendationservice.py:23-27 | the ratio when the song has both counters, otherwise no bonus, always in [0, 1] |
| RecommendationService.ChanceDependsOnSignals | scripts/recommendationservice.py:11-27 | two records giving a song the same key presences and counters give it the same score |
| RecommendationService.ChanceReadsKeysNotValues | scripts/recommendationservice.py:11-20 | a flag stored as false scores like a flag stored as true: membership is key presence |
| RecommendationService.DislikeVetoesFavorite | scripts/recommendationservice.py:11-12 | a disliked song scores 0.10 even when it is also liked and a favorite |
| RecommendationService.WorkedValues | scripts/recommendationservice.py:9-27 | an empty record gives 0.50; a recent play gives 0.30; three finishes and one skip give 0.575 |
| RecommendationService.Chances | scripts/recommendationservice.py:40-43 | one score per candidate, in order, each in (0, 1] |
| RecommendationService.GetSongChances | scripts/recommendationservice.py:34-46 | the keys are the candidates in order, duplicates kept; the weights are the normalised scores and form a distribution whenever there is a candidate |
| RecommendationService.DrawPicksCandidate | scripts/recommendationservice.py:34-46 | scoring then drawing with at least one candidate always succeeds with the candidate at the drawn index |
| RandomService.Normalize | services/randomservice.py:18-21 | fails only on a non-empty list with a zero sum; otherwise keeps the length and order, and each weight times the sum gives back the input weight |
| RandomService.GetKey | services/randomservice.py:14-16 | succeeds exactly on non-empty keys with one weight per key that form a distribution, and then returns the key at the generator's index, a member of the keys |
| RandomService.SumDivided | services/randomservice.py:20-21 | dividing every weight by t divides the sum by t |
| RandomService.SumScaled | services/randomservice.py:20-21 | multiplying every weight by k multiplies the sum by k |
| RandomService.NormalizedSumsToOne | services/randomservice.py:20-21 | a non-empty list with a non-zero sum normalises to weights that sum to one |
| RandomService.NormalizedIsDistribution | services/randomservice.py:20-21 | non-negative weights with a positive sum normalise to weights in [0, 1] that form a distribution |
| RandomService.NormalizeScaleInvariant | services/randomservice.py:20-21 | scaling every weight by a positive factor leaves the normalised weights unchanged |

## Findings

| source | as written | input that shows it | evidently intended | confidence | as-written member | corrected member |
|---|---|---|---|---|---|---|
| scripts/routeservice.py:155 | the candidate list is the raw `SongsIds` query-string value, so the scoring loop walks its characters | `SongsIds=ab` with draw index 0 gives candidates "a" and "b", and the draw returns "a" | the list of song ids the client sends | likely; not executed | RouteService.RawSongIdsDrawOneCharacter | RouteService.Next |

## Left out

- Spotify search and token handling (scripts/spotifyservice.py, services/spotifyservice.py) and the `/playlist` handler are left out: they only wrap HTTP calls.
- Quart routing, the JSON response envelope and the `try`/`except` that turns any error into `Success: False` are not modelled. A request's error paths appear as preconditions or `Result` values instead.
- Request arguments are typed. Ids are strings, the mood is an optional string, and the like, dislike and favorite values are booleans rather than the query-string text the source stores. A missing user or song id (`None`) is not modelled.
- File and database I/O is not modelled. The user files are a map from path to ledger, and the users collection is a map from id to ledger. JSON encoding, malformed or hand-edited files, and a stored ledger lacking a mood are not modelled.
- The teardown hook that saves every cached ledger (scripts/routeservice.py:171-176) is not modelled. It is a loop of file writes plus a log line.
- RandomService.GetKey: the draw is `numpy.random.Generator.choice`, a foreign call. The generator's pick is the parameter `drawn`. The weighted distribution of the pick, PCG64, and numpy's tolerance on weights summing to one are not modelled.
- Scores and weights are exact reals. IEEE-754 rounding is not modelled. In particular, the model's `Sum == 1` is exact where numpy accepts a small tolerance.
- The handlers are async and the read-modify-write per user can race. Concurrency is not modelled.
- services/moodservice.py and scripts/randomservice.py are not part of this model. The database service's mood list is taken to be the one of scripts/moodservice.py, and the scripts' `Normalize` and `GetKey` to be those of services/randomservice.py.
- RouteService.Skip requires the normalised mood to be a key of the ledger the request sees. Without it the source raises a KeyError that the handler reports as a failure. NormalisedMoodIsRecorded shows that the precondition holds for every ledger shaped like Create's.
- RouteService.Finish, RouteService.Like, RouteService.Dislike and RouteService.Favorite carry the same mood-key requirement, for the same reason.
- RouteService.Next requires the mood key and a scorable record for every candidate. Without them the source raises a KeyError or a division by zero that the handler reports as a failure. WellFormedIsScorable shows that the second requirement holds for counters built by increments.
- RecommendationService.GetSongChance requires that a song with both counters has a non-zero total (Scorable). The source divides by zero otherwise, which only a hand-edited file can cause.
- DatabaseHistory.HistoryService.SkipSong, FinishSong, LikeSong, DislikeSong and FavoriteSong require the mood to be a key of the user's stored ledger. The source raises a KeyError otherwise. Their mood argument is whatever the caller passes, since no normalisation happens in that service.
- Ledgers.Ledger.AddToPreviouslyPlayed, Skip, Finish and SetFlag require the mood to be a key of the ledger, as the source's dictionary indexing does.
