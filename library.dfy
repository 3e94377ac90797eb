/**
 * The song catalog and its parse cache (`src/core/library.ts`).
 *
 * The `songs` table is a map from id to the record as a later `SELECT`
 * returns it. `addSong` is `INSERT OR REPLACE` on a table whose primary key
 * is `id` and whose `path` column is `UNIQUE`: SQLite deletes every row that
 * clashes on either, then inserts. Reading a row back turns an empty
 * `fileHash` or `lastParsed` into `undefined`, and the AST's JSON round trip
 * is taken as the identity.
 *
 * The file read is the `files` map of a `FileSystem` (a missing path is a
 * read error), the content hash is a function parameter and the clock is a
 * timestamp parameter.
 */
module Library {
  import opened SongTypes
  import Parser

  // ---------------------------------------------------------------------
  // Records as stored
  // ---------------------------------------------------------------------

  /** `row.x || undefined`: the empty string reads back as absent. */
  function Truthy(s: Option<string>): (r: Option<string>)
  {
    if s == Some("") then None else s
  }

  /** The record a `SELECT` returns after `addSong(m)`. */
  function Persisted(m: SongMeta): (r: SongMeta)
  {
    m.(fileHash := Truthy(m.fileHash), lastParsed := Truthy(m.lastParsed))
  }

  /** A record as it can come out of the table. */
  predicate Stored(m: SongMeta)
  {
    m.fileHash != Some("") && m.lastParsed != Some("")
  }

  /** Storing changes a record exactly when it holds an empty hash or timestamp, and storing twice is storing once. */
  lemma PersistedFixes(m: SongMeta)
    ensures Stored(Persisted(m))
    ensures Persisted(m) == m <==> Stored(m)
    ensures Persisted(Persisted(m)) == Persisted(m)
  {
  }

  /** Everything but the three cache fields agrees. */
  predicate SameRecord(a: SongMeta, b: SongMeta)
  {
    a.id == b.id && a.title == b.title && a.artist == b.artist && a.path == b.path
    && a.lastKey == b.lastKey && a.capo == b.capo && a.tags == b.tags && a.lastOpened == b.lastOpened
  }

  /**
   * `isCacheValid`: a stored AST, a hash equal to the current one and a
   * (truthy) parse time.
   */
  predicate IsCacheValid(meta: SongMeta, currentHash: string)
  {
    meta.cachedAst.Some? && meta.fileHash == Some(currentHash) && meta.lastParsed.Some? && meta.lastParsed.value != ""
  }

  // ---------------------------------------------------------------------
  // The table
  // ---------------------------------------------------------------------

  type Table = map<string, SongMeta>

  /** Each row is keyed by its id, reads back as stored, and no two rows share a path. */
  predicate WellFormed(songs: Table)
  {
    (forall id | id in songs :: songs[id].id == id && Stored(songs[id]))
    && (forall a, b | a in songs && b in songs && songs[a].path == songs[b].path :: a == b)
  }

  /** `INSERT OR REPLACE`: rows clashing on id or path go, then the record is inserted. */
  function Upsert(songs: Table, m: SongMeta): (r: Table)
    ensures m.id in r && r[m.id] == Persisted(m)
    ensures forall id | id in r && id != m.id :: id in songs && r[id] == songs[id] && songs[id].path != m.path
    ensures forall id | id in songs && id != m.id && songs[id].path != m.path :: id in r
  {
    (map id | id in songs && id != m.id && songs[id].path != m.path :: songs[id])[m.id := Persisted(m)]
  }

  /** The table stays well formed, and the new record is the one row holding its id and the one holding its path. */
  lemma UpsertWellFormed(songs: Table, m: SongMeta)
    requires WellFormed(songs)
    ensures WellFormed(Upsert(songs, m))
    ensures forall id | id in Upsert(songs, m) && Upsert(songs, m)[id].path == m.path :: id == m.id
  {
    PersistedFixes(m);
  }

  /** A record rewritten under its own id and path replaces its row and leaves every other row alone. */
  lemma UpsertInPlace(songs: Table, m: SongMeta)
    requires WellFormed(songs) && m.id in songs && songs[m.id].path == m.path
    ensures Upsert(songs, m) == songs[m.id := Persisted(m)]
  {
    var r := Upsert(songs, m);
    forall id | id in songs
      ensures id in r
    {
      if id != m.id {
        assert songs[id].path != m.path;
      }
    }
  }

  // ---------------------------------------------------------------------
  // Partial updates
  // ---------------------------------------------------------------------

  /** One property of a `Partial<SongMeta>`: absent, or present with a value (possibly `undefined`). */
  datatype Field<T> = Keep | Set(value: T)

  function Pick<T>(f: Field<T>, current: T): T
  {
    match f
    case Keep => current
    case Set(v) => v
  }

  datatype Patch = Patch(
    id: Field<string>,
    title: Field<string>,
    artist: Field<string>,
    path: Field<string>,
    lastKey: Field<int>,
    capo: Field<int>,
    tags: Field<seq<string>>,
    lastOpened: Field<string>,
    cachedAst: Field<Option<Song>>,
    fileHash: Field<Option<string>>,
    lastParsed: Field<Option<string>>)

  const NoChange: Patch := Patch(Keep, Keep, Keep, Keep, Keep, Keep, Keep, Keep, Keep, Keep, Keep)

  /** `{ ...existing, ...updates }`. */
  function Apply(m: SongMeta, p: Patch): SongMeta
  {
    SongMeta(Pick(p.id, m.id), Pick(p.title, m.title), Pick(p.artist, m.artist), Pick(p.path, m.path),
      Pick(p.lastKey, m.lastKey), Pick(p.capo, m.capo), Pick(p.tags, m.tags), Pick(p.lastOpened, m.lastOpened),
      Pick(p.cachedAst, m.cachedAst), Pick(p.fileHash, m.fileHash), Pick(p.lastParsed, m.lastParsed))
  }

  /** The patch `updateCache` writes. */
  function CachePatch(ast: Song, fileHash: string, now: string): Patch
  {
    NoChange.(cachedAst := Set(Some(ast)), fileHash := Set(Some(fileHash)), lastParsed := Set(Some(now)))
  }

  /** The patch `invalidateCache` writes: the three cache fields set to `undefined`. */
  const ClearPatch: Patch := NoChange.(cachedAst := Set(None), fileHash := Set(None), lastParsed := Set(None))

  /** The record with no cache. */
  function WithoutCache(m: SongMeta): (r: SongMeta)
    ensures SameRecord(r, m) && Stored(r)
    ensures forall h :: !IsCacheValid(r, h)
  {
    Apply(m, ClearPatch)
  }

  /** An update that keeps the id and the path rewrites that one row and no other. */
  lemma UpdateInPlace(songs: Table, id: string, p: Patch)
    requires WellFormed(songs) && id in songs
    requires Pick(p.id, id) == id && Pick(p.path, songs[id].path) == songs[id].path
    ensures Upsert(songs, Apply(songs[id], p)) == songs[id := Persisted(Apply(songs[id], p))]
    ensures WellFormed(Upsert(songs, Apply(songs[id], p)))
  {
    UpsertInPlace(songs, Apply(songs[id], p));
    UpsertWellFormed(songs, Apply(songs[id], p));
  }

  /** A cache write keeps every other field, and the record then hits for that hash when hash and time are non-empty. */
  lemma CachePatchHits(m: SongMeta, ast: Song, h: string, now: string)
    requires h != "" && now != ""
    ensures SameRecord(Persisted(Apply(m, CachePatch(ast, h, now))), m)
    ensures IsCacheValid(Persisted(Apply(m, CachePatch(ast, h, now))), h)
    ensures Persisted(Apply(m, CachePatch(ast, h, now))).cachedAst == Some(ast)
  {
  }

  /** `UPDATE songs SET cachedAst = NULL, fileHash = NULL, lastParsed = NULL`. */
  function ClearAll(songs: Table): (r: Table)
    ensures r.Keys == songs.Keys
    ensures forall id | id in r :: SameRecord(r[id], songs[id]) && r[id].cachedAst.None?
    ensures forall id, h | id in r :: !IsCacheValid(r[id], h)
  {
    map id | id in songs :: WithoutCache(songs[id])
  }

  lemma ClearAllWellFormed(songs: Table)
    requires WellFormed(songs)
    ensures WellFormed(ClearAll(songs))
  {
    var r := ClearAll(songs);
    forall a, b | a in r && b in r && r[a].path == r[b].path
      ensures a == b
    {
      assert songs[a].path == r[a].path && songs[b].path == r[b].path;
    }
  }

  /** The row holding a path, if any; well-formedness makes it unique. */
  function FindByPath(songs: Table, path: string): Option<SongMeta>
    requires WellFormed(songs)
  {
    if exists id :: id in songs && songs[id].path == path then
      var id :| id in songs && songs[id].path == path;
      Some(songs[id])
    else None
  }

  function NotFoundMessage(id: string): string
  {
    "Song with id " + id + " not found"
  }

  // ---------------------------------------------------------------------
  // SongLibrary
  // ---------------------------------------------------------------------

  class SongLibrary {
    var songs: Table

    predicate Valid()
      reads this
    {
      WellFormed(songs)
    }

    /** Opening the database: the table holds whatever rows it already had. */
    constructor (rows: Table)
      requires WellFormed(rows)
      ensures songs == rows && Valid()
    {
      songs := rows;
    }

    /** `addSong`: insert or replace. */
    method AddSong(song: SongMeta)
      modifies this
      requires Valid()
      ensures Valid()
      ensures songs == Upsert(old(songs), song)
    {
      UpsertWellFormed(songs, song);
      songs := Upsert(songs, song);
    }

    /** `getSongById`: the row with that id, or null. */
    method GetSongById(id: string) returns (r: Option<SongMeta>)
      requires Valid()
      ensures r.Some? <==> id in songs
      ensures r.Some? ==> r.value == songs[id] && r.value.id == id
    {
      if id in songs {
        r := Some(songs[id]);
      } else {
        r := None;
      }
    }

    /** `getSongByPath`: the row with that path, or null; there is at most one. */
    method GetSongByPath(path: string) returns (r: Option<SongMeta>)
      requires Valid()
      ensures r.Some? <==> exists id :: id in songs && songs[id].path == path
      ensures r.Some? ==> r.value.path == path && r.value.id in songs && songs[r.value.id] == r.value
      ensures r == FindByPath(songs, path)
    {
      if exists id :: id in songs && songs[id].path == path {
        var id :| id in songs && songs[id].path == path;
        r := Some(songs[id]);
      } else {
        r := None;
      }
    }

    /** `updateSong`: fails for an unknown id, otherwise re-adds the record with the present fields replaced. */
    method UpdateSong(id: string, updates: Patch) returns (r: Result<(), string>)
      modifies this
      requires Valid()
      ensures Valid()
      ensures id !in old(songs) ==> r == Err(NotFoundMessage(id)) && songs == old(songs)
      ensures id in old(songs) ==> r == Ok(()) && songs == Upsert(old(songs), Apply(old(songs)[id], updates))
    {
      var existing := GetSongById(id);
      if existing.None? {
        return Err(NotFoundMessage(id));
      }
      var updated := Apply(existing.value, updates);
      AddSong(updated);
      r := Ok(());
    }

    /** `deleteSong`: removes that id, if present, and nothing else. */
    method DeleteSong(id: string)
      modifies this
      requires Valid()
      ensures Valid()
      ensures songs == old(songs) - {id}
    {
      songs := songs - {id};
    }

    /** `hasSong`: exactly when `getSongById` finds a row. */
    method HasSong(id: string) returns (b: bool)
      requires Valid()
      ensures b <==> id in songs
    {
      var r := GetSongById(id);
      b := r.Some?;
    }

    /** `hasSongByPath`: exactly when `getSongByPath` finds a row. */
    method HasSongByPath(path: string) returns (b: bool)
      requires Valid()
      ensures b <==> exists id :: id in songs && songs[id].path == path
    {
      var r := GetSongByPath(path);
      b := r.Some?;
    }

    /** `clearAllCaches`: drops the cache of every row. */
    method ClearAllCaches()
      modifies this
      requires Valid()
      ensures Valid()
      ensures songs == ClearAll(old(songs))
    {
      ClearAllWellFormed(songs);
      songs := ClearAll(songs);
    }
  }

  // ---------------------------------------------------------------------
  // Files
  // ---------------------------------------------------------------------

  /** The files `readFileSync` and `writeFileSync` see. */
  class FileSystem {
    var files: map<string, string>

    constructor (files: map<string, string>)
      ensures this.files == files
    {
      this.files := files;
    }
  }

  function ReadErrorMessage(path: string): string
  {
    "ENOENT: no such file or directory, open '" + path + "'"
  }

  function ReadFile(files: map<string, string>, path: string): (r: Result<string, string>)
    ensures r.Ok? <==> path in files
    ensures r.Ok? ==> r.value == files[path]
  {
    if path in files then Ok(files[path]) else Err(ReadErrorMessage(path))
  }

  // ---------------------------------------------------------------------
  // SongCache: what it returns and what the table becomes
  // ---------------------------------------------------------------------

  datatype LoadOutcome = LoadOutcome(result: Result<Song, string>, songs: Table)

  /**
   * `loadSong`: an unknown id fails before any read; a read failure is
   * rethrown; a hit returns the stored AST; a miss parses, stores the AST
   * with the hash and the time in that record, and returns it.
   */
  function Load(songs: Table, id: string, files: map<string, string>, hash: string -> string, now: string): LoadOutcome
  {
    if id !in songs then LoadOutcome(Err(NotFoundMessage(id)), songs)
    else
      var meta := songs[id];
      match ReadFile(files, meta.path)
      case Err(e) => LoadOutcome(Err(e), songs)
      case Ok(content) =>
        var currentHash := hash(content);
        if IsCacheValid(meta, currentHash) then LoadOutcome(Ok(meta.cachedAst.value), songs)
        else
          var ast := Parser.Parse(content);
          LoadOutcome(Ok(ast), Upsert(songs, Apply(meta, CachePatch(ast, currentHash, now))))
  }

  /** A failed load leaves the table as it was; a successful one only touches the cache of that record. */
  lemma LoadChanges(songs: Table, id: string, files: map<string, string>, hash: string -> string, now: string)
    requires WellFormed(songs)
    ensures var o := Load(songs, id, files, hash, now);
      WellFormed(o.songs)
      && (o.result.Err? ==> o.songs == songs)
      && (id !in songs ==> o.result == Err(NotFoundMessage(id)))
      && (id in songs && songs[id].path !in files ==> o.result == Err(ReadErrorMessage(songs[id].path)))
      && (o.result.Ok? ==>
            id in songs && o.songs.Keys == songs.Keys && SameRecord(o.songs[id], songs[id])
            && forall other | other in songs && other != id :: o.songs[other] == songs[other])
  {
    if id in songs && songs[id].path in files {
      var meta := songs[id];
      var h := hash(files[meta.path]);
      if !IsCacheValid(meta, h) {
        UpdateInPlace(songs, id, CachePatch(Parser.Parse(files[meta.path]), h, now));
      }
    }
  }

  /** On a hit the parser is not consulted: the stored AST comes back and nothing changes. */
  lemma LoadHit(songs: Table, id: string, files: map<string, string>, hash: string -> string, now: string)
    requires id in songs && songs[id].path in files
    requires IsCacheValid(songs[id], hash(files[songs[id].path]))
    ensures Load(songs, id, files, hash, now) == LoadOutcome(Ok(songs[id].cachedAst.value), songs)
  {
  }

  /** On a miss the result is the parse of the current content. */
  lemma LoadMiss(songs: Table, id: string, files: map<string, string>, hash: string -> string, now: string)
    requires id in songs && songs[id].path in files
    requires !IsCacheValid(songs[id], hash(files[songs[id].path]))
    ensures Load(songs, id, files, hash, now).result == Ok(Parser.Parse(files[songs[id].path]))
  {
  }

  /**
   * A second load of unchanged content is a hit: it returns the AST of the
   * first and changes nothing (given a non-empty hash and time).
   */
  lemma LoadTwiceHits(songs: Table, id: string, files: map<string, string>, hash: string -> string, now: string, later: string)
    requires WellFormed(songs)
    requires id in songs && songs[id].path in files
    requires hash(files[songs[id].path]) != "" && now != ""
    ensures var first := Load(songs, id, files, hash, now);
      Load(first.songs, id, files, hash, later) == LoadOutcome(first.result, first.songs)
  {
    var meta := songs[id];
    var content := files[meta.path];
    var h := hash(content);
    if !IsCacheValid(meta, h) {
      var ast := Parser.Parse(content);
      UpdateInPlace(songs, id, CachePatch(ast, h, now));
      CachePatchHits(meta, ast, h, now);
    }
  }

  /** `invalidateCache`: the record without its cache, or not found. */
  function Invalidate(songs: Table, id: string): (r: Result<Table, string>)
  {
    if id !in songs then Err(NotFoundMessage(id)) else Ok(Upsert(songs, Apply(songs[id], ClearPatch)))
  }

  /** Invalidation clears exactly the cache of that record, so no hash hits it afterwards. */
  lemma InvalidateClears(songs: Table, id: string)
    requires WellFormed(songs)
    ensures Invalidate(songs, id).Err? <==> id !in songs
    ensures Invalidate(songs, id).Ok? ==>
      var r := Invalidate(songs, id).value;
      WellFormed(r) && r == songs[id := WithoutCache(songs[id])] && forall h :: !IsCacheValid(r[id], h)
  {
    if id in songs {
      UpdateInPlace(songs, id, ClearPatch);
    }
  }

  /** `rebuildCache`: invalidate, then load. */
  function Rebuild(songs: Table, id: string, files: map<string, string>, hash: string -> string, now: string): LoadOutcome
  {
    match Invalidate(songs, id)
    case Err(e) => LoadOutcome(Err(e), songs)
    case Ok(cleared) => Load(cleared, id, files, hash, now)
  }

  /** A rebuild parses the current content whatever hash the record held. */
  lemma RebuildParses(songs: Table, id: string, files: map<string, string>, hash: string -> string, now: string)
    requires WellFormed(songs) && id in songs && songs[id].path in files
    ensures Rebuild(songs, id, files, hash, now).result == Ok(Parser.Parse(files[songs[id].path]))
  {
    InvalidateClears(songs, id);
  }

  // ---------------------------------------------------------------------
  // SongCache
  // ---------------------------------------------------------------------

  class SongCache {
    const library: SongLibrary

    constructor (library: SongLibrary)
      ensures this.library == library
    {
      this.library := library;
    }

    /** `updateCache`: stores the AST, the hash and the time in that record. */
    method UpdateCache(songId: string, ast: Song, fileHash: string, now: string) returns (r: Result<(), string>)
      modifies library
      requires library.Valid()
      ensures library.Valid()
      ensures songId !in old(library.songs) ==> r.Err? && library.songs == old(library.songs)
      ensures songId in old(library.songs) ==>
        r.Ok? && library.songs == Upsert(old(library.songs), Apply(old(library.songs)[songId], CachePatch(ast, fileHash, now)))
    {
      r := library.UpdateSong(songId, CachePatch(ast, fileHash, now));
    }

    /** `loadSong`. */
    method LoadSong(songId: string, fs: FileSystem, hash: string -> string, now: string) returns (r: Result<Song, string>)
      modifies library
      requires library.Valid()
      ensures library.Valid()
      ensures LoadOutcome(r, library.songs) == Load(old(library.songs), songId, fs.files, hash, now)
    {
      var meta := library.GetSongById(songId);
      if meta.None? {
        return Err(NotFoundMessage(songId));
      }
      var read := ReadFile(fs.files, meta.value.path);
      if read.Err? {
        return Err(read.error);
      }
      var content := read.value;
      var currentHash := hash(content);
      if IsCacheValid(meta.value, currentHash) {
        return Ok(meta.value.cachedAst.value);
      }
      var ast := Parser.ParseChord(content);
      var _ := UpdateCache(songId, ast, currentHash, now);
      r := Ok(ast);
    }

    /** `invalidateCache`. */
    method InvalidateCache(songId: string) returns (r: Result<(), string>)
      modifies library
      requires library.Valid()
      ensures library.Valid()
      ensures match Invalidate(old(library.songs), songId)
        case Err(e) => r == Err(e) && library.songs == old(library.songs)
        case Ok(cleared) => r == Ok(()) && library.songs == cleared
    {
      r := library.UpdateSong(songId, ClearPatch);
    }

    /** `rebuildCache`. */
    method RebuildCache(songId: string, fs: FileSystem, hash: string -> string, now: string) returns (r: Result<Song, string>)
      modifies library
      requires library.Valid()
      ensures library.Valid()
      ensures LoadOutcome(r, library.songs) == Rebuild(old(library.songs), songId, fs.files, hash, now)
    {
      var cleared := InvalidateCache(songId);
      if cleared.Err? {
        return Err(cleared.error);
      }
      r := LoadSong(songId, fs, hash, now);
    }

    /** `clearAllCaches`. */
    method ClearAllCaches()
      modifies library
      requires library.Valid()
      ensures library.Valid()
      ensures library.songs == ClearAll(old(library.songs))
    {
      library.ClearAllCaches();
    }
  }
}
