/**
 * The file-backed history service (scripts/historyservice.py): a per-process
 * cache from user id to the ledger object the handlers mutate, in front of
 * one JSON file per user. The files are a map from path to the ledger they
 * hold; reading and writing them is the only I/O.
 */
module FileHistory {
  import opened HistoryModel
  import opened Ledgers

  const UsersDirectory: string := "../data/users/"
  const Extension: string := ".json"

  /** The file of `userId`: the users directory, the id, then ".json". */
  function GetUserFilePath(userId: string): (path: string)
    ensures |path| == |UsersDirectory| + |userId| + |Extension|
    ensures path[..|UsersDirectory|] == UsersDirectory
    ensures path[|UsersDirectory|..|path| - |Extension|] == userId
    ensures path[|path| - |Extension|..] == Extension
  {
    UsersDirectory + userId + Extension
  }

  /** Distinct users have distinct files. */
  lemma UserFilePathInjective(u: string, v: string)
    ensures GetUserFilePath(u) == GetUserFilePath(v) ==> u == v
  {
    if GetUserFilePath(u) == GetUserFilePath(v) {
      var p := GetUserFilePath(u);
      assert u == p[|UsersDirectory|..|p| - |Extension|] == v;
    }
  }

  /** What loading `userId` yields: the ledger in its file, or an empty one when there is no file. */
  function Loaded(files: map<string, History>, userId: string): (h: History)
    ensures GetUserFilePath(userId) in files ==> h == files[GetUserFilePath(userId)]
    ensures GetUserFilePath(userId) !in files ==> h == Create()
    ensures (forall p :: p in files ==> WellFormed(files[p])) ==> WellFormed(h)
  {
    var path := GetUserFilePath(userId);
    if path in files then files[path] else Create()
  }

  class HistoryService {
    /** The ledgers loaded so far in this process, by user id. */
    var Cache: map<string, Ledger>
    /** The user files, by path. */
    var Files: map<string, History>

    /** No two users share a ledger object, so a change to one user's ledger leaves the others alone. */
    ghost predicate Valid()
      reads this
    {
      forall u, v :: u in Cache && v in Cache && u != v ==> Cache[u] != Cache[v]
    }

    /** The ledger a request for `userId` would see: the cached one, else the loaded one. */
    ghost function Current(userId: string): History
      reads this, Cache.Values
    {
      if userId in Cache then Cache[userId].moods else Loaded(Files, userId)
    }

    constructor (files: map<string, History>)
      ensures Valid() && Cache == map[] && Files == files
    {
      Cache := map[];
      Files := files;
    }

    /** Reads the user's file; a missing file gives an empty ledger. Nothing changes. */
    method Load(userId: string) returns (history: History)
      ensures history == Loaded(Files, userId)
    {
      var path := GetUserFilePath(userId);
      if path in Files {
        history := Files[path];
      } else {
        history := Create();
      }
    }

    /** Overwrites the user's file with `history`. */
    method Save(userId: string, history: History)
      modifies this
      ensures Files == old(Files)[GetUserFilePath(userId) := history]
      ensures Cache == old(Cache)
    {
      Files := Files[GetUserFilePath(userId) := history];
    }

    /**
     * Writes an empty ledger to the user's file and returns it. The cache is
     * left as it was, so a cached ledger of the user stays what requests see.
     */
    method Reset(userId: string) returns (history: History)
      requires Valid()
      modifies this
      ensures Valid()
      ensures history == Create()
      ensures Files == old(Files)[GetUserFilePath(userId) := Create()]
      ensures Cache == old(Cache)
    {
      history := Create();
      Save(userId, history);
    }

    /**
     * The user's ledger object: the cached one, or the loaded one, which is
     * cached first. Only a user not yet cached changes the cache, by exactly
     * one new entry.
     */
    method GetHistory(userId: string) returns (ledger: Ledger)
      requires Valid()
      modifies this
      ensures Valid()
      ensures Files == old(Files)
      ensures userId in Cache && ledger == Cache[userId]
      ensures ledger.moods == old(Current(userId))
      ensures userId in old(Cache) ==> Cache == old(Cache)
      ensures userId !in old(Cache) ==> fresh(ledger) && Cache == old(Cache)[userId := ledger]
    {
      if userId !in Cache {
        var history := Load(userId);
        var loaded := new Ledger(history);
        Cache := Cache[userId := loaded];
      }
      ledger := Cache[userId];
    }
  }
}
