/**
 * The decision logic of the `library:pickAndAddSong`, `song:save` and
 * `song:open` handlers (`src/main/ipcHandlers.ts`).
 *
 * The file dialog's answer, the content hash, `generateSongId`,
 * `parseInt(...) || 0` and the clock are parameters; a thrown error caught
 * by the handler is an `Err` holding its message.
 */
module IpcHandlers {
  import opened SongTypes
  import opened Library
  import Parser

  const AlreadyInLibrary := "This file is already in the library"
  const AlreadyExists := "This song already exists in the library"
  const InvalidSong := "File does not contain a valid song"
  const SongNotFound := "Song not found"

  /** What `library:pickAndAddSong` answers. */
  datatype AddResult =
    | Cancelled
    | DuplicatePath(existingSong: SongMeta)
    | DuplicateId(existingId: string)
    | Added(meta: SongMeta, ast: Song)
    | Failed(message: string)

  datatype AddOutcome = AddOutcome(result: AddResult, songs: Table)

  /** The `error` field of the answer; `null` and the success object carry none. */
  function ErrorMessage(r: AddResult): Option<string>
  {
    match r
    case Cancelled => None
    case DuplicatePath(_) => Some(AlreadyInLibrary)
    case DuplicateId(_) => Some(AlreadyExists)
    case Added(_, _) => None
    case Failed(message) => Some(message)
  }

  /** `metadata[key] || fallback`. */
  function OrDefault(metadata: Metadata, key: string, fallback: string): (r: string)
    ensures key in metadata && metadata[key] != "" ==> r == metadata[key]
    ensures !(key in metadata && metadata[key] != "") ==> r == fallback
  {
    if key in metadata && metadata[key] != "" then metadata[key] else fallback
  }

  /** `metadata[key]`, absent as `undefined`. */
  function Lookup(metadata: Metadata, key: string): (r: Option<string>)
    ensures r.Some? <==> key in metadata
    ensures r.Some? ==> r.value == metadata[key]
  {
    if key in metadata then Some(metadata[key]) else None
  }

  /** The record `pickAndAddSong` inserts, its cache already filled in. */
  function NewRecord(songId: string, filePath: string, ast: Song, fileHash: string,
                     toInt: string -> int, now: string): SongMeta
  {
    SongMeta(
      songId,
      OrDefault(ast.metadata, "title", "Untitled"),
      OrDefault(ast.metadata, "artist", "Unknown Artist"),
      filePath,
      toInt(OrDefault(ast.metadata, "key", "0")),
      toInt(OrDefault(ast.metadata, "capo", "0")),
      [],
      now,
      Some(ast),
      Some(fileHash),
      Some(now))
  }

  /**
   * `library:pickAndAddSong`: cancelled dialog, known path, unreadable file,
   * song without sections, known id, and only then the insertion.
   */
  function PickAndAdd(songs: Table, files: map<string, string>, picked: Option<string>, hash: string -> string,
                      songIdOf: (string, Option<string>, Option<string>) -> string,
                      toInt: string -> int, now: string): AddOutcome
    requires WellFormed(songs)
  {
    if picked.None? then AddOutcome(Cancelled, songs)
    else
      var filePath := picked.value;
      match FindByPath(songs, filePath)
      case Some(existing) => AddOutcome(DuplicatePath(existing), songs)
      case None =>
        match ReadFile(files, filePath)
        case Err(e) => AddOutcome(Failed(e), songs)
        case Ok(content) =>
          var ast := Parser.Parse(content);
          if |ast.sections| == 0 then AddOutcome(Failed(InvalidSong), songs)
          else
            var songId := songIdOf(filePath, Lookup(ast.metadata, "title"), Lookup(ast.metadata, "artist"));
            if songId in songs then AddOutcome(DuplicateId(songId), songs)
            else
              var meta := NewRecord(songId, filePath, ast, hash(content), toInt, now);
              AddOutcome(Added(meta, ast), Upsert(songs, meta))
  }

  /** A known path is reported with its record before the file is read: the answer is the same whatever the files hold. */
  lemma AddKnownPath(songs: Table, files: map<string, string>, other: map<string, string>, path: string,
                     hash: string -> string, songIdOf: (string, Option<string>, Option<string>) -> string,
                     toInt: string -> int, now: string)
    requires WellFormed(songs)
    requires exists id :: id in songs && songs[id].path == path
    ensures var o := PickAndAdd(songs, files, Some(path), hash, songIdOf, toInt, now);
      o == PickAndAdd(songs, other, Some(path), hash, songIdOf, toInt, now)
      && o.songs == songs && o.result.DuplicatePath?
      && o.result.existingSong.path == path && o.result.existingSong.id in songs
      && songs[o.result.existingSong.id] == o.result.existingSong
  {
  }

  /** Every answer but `Added` leaves the catalog unchanged; a cancelled dialog answers `Cancelled`. */
  lemma AddFailuresChangeNothing(songs: Table, files: map<string, string>, picked: Option<string>,
                                 hash: string -> string, songIdOf: (string, Option<string>, Option<string>) -> string,
                                 toInt: string -> int, now: string)
    requires WellFormed(songs)
    ensures var o := PickAndAdd(songs, files, picked, hash, songIdOf, toInt, now);
      (picked.None? ==> o.result == Cancelled)
      && (!o.result.Added? ==> o.songs == songs)
  {
  }

  /** A file whose parse has no section is refused with its message, and nothing is inserted. */
  lemma AddEmptySong(songs: Table, files: map<string, string>, path: string,
                     hash: string -> string, songIdOf: (string, Option<string>, Option<string>) -> string,
                     toInt: string -> int, now: string)
    requires WellFormed(songs)
    requires !(exists id :: id in songs && songs[id].path == path)
    requires path in files && Parser.Parse(files[path]).sections == []
    ensures PickAndAdd(songs, files, Some(path), hash, songIdOf, toInt, now) == AddOutcome(Failed(InvalidSong), songs)
  {
  }

  /** A generated id that is already taken is reported with that id, and nothing is inserted. */
  lemma AddKnownId(songs: Table, files: map<string, string>, path: string,
                   hash: string -> string, songIdOf: (string, Option<string>, Option<string>) -> string,
                   toInt: string -> int, now: string)
    requires WellFormed(songs)
    requires !(exists id :: id in songs && songs[id].path == path)
    requires path in files && |Parser.Parse(files[path]).sections| > 0
    requires var md := Parser.Parse(files[path]).metadata;
      songIdOf(path, Lookup(md, "title"), Lookup(md, "artist")) in songs
    ensures var md := Parser.Parse(files[path]).metadata;
      PickAndAdd(songs, files, Some(path), hash, songIdOf, toInt, now)
        == AddOutcome(DuplicateId(songIdOf(path, Lookup(md, "title"), Lookup(md, "artist"))), songs)
  {
  }

  /**
   * A successful import inserts one new row and touches no other: it holds
   * the parse of the file as its cache, the content's hash, the time, no
   * tags, and a title and artist that are never empty; opening it next is a
   * cache hit when the hash and the time are non-empty.
   */
  lemma AddSuccess(songs: Table, files: map<string, string>, picked: Option<string>,
                   hash: string -> string, songIdOf: (string, Option<string>, Option<string>) -> string,
                   toInt: string -> int, now: string)
    requires WellFormed(songs)
    requires PickAndAdd(songs, files, picked, hash, songIdOf, toInt, now).result.Added?
    ensures var o := PickAndAdd(songs, files, picked, hash, songIdOf, toInt, now);
      var meta := o.result.meta;
      picked.Some? && meta.path == picked.value && picked.value in files
      && o.result.ast == Parser.Parse(files[picked.value]) && |o.result.ast.sections| > 0
      && meta.id !in songs && o.songs == songs[meta.id := Persisted(meta)] && WellFormed(o.songs)
      && meta.cachedAst == Some(o.result.ast) && meta.fileHash == Some(hash(files[meta.path]))
      && meta.lastParsed == Some(now) && meta.lastOpened == now && meta.tags == []
      && meta.title != "" && meta.artist != ""
      && (hash(files[meta.path]) != "" && now != "" ==> IsCacheValid(o.songs[meta.id], hash(files[meta.path])))
  {
    var path := picked.value;
    assert FindByPath(songs, path).None?;
    var content := files[path];
    var ast := Parser.Parse(content);
    var songId := songIdOf(path, Lookup(ast.metadata, "title"), Lookup(ast.metadata, "artist"));
    var meta := NewRecord(songId, path, ast, hash(content), toInt, now);
    assert PickAndAdd(songs, files, picked, hash, songIdOf, toInt, now) == AddOutcome(Added(meta, ast), Upsert(songs, meta));
    InsertNewPath(songs, meta);
  }

  /** Inserting a record whose id and path are both new adds its row and changes no other. */
  lemma InsertNewPath(songs: Table, meta: SongMeta)
    requires WellFormed(songs) && meta.id !in songs
    requires !(exists id :: id in songs && songs[id].path == meta.path)
    ensures Upsert(songs, meta) == songs[meta.id := Persisted(meta)]
    ensures WellFormed(Upsert(songs, meta))
  {
    UpsertWellFormed(songs, meta);
    var r := Upsert(songs, meta);
    forall id | id in songs
      ensures id in r
    {
      assert songs[id].path != meta.path;
    }
  }

  /** `library:pickAndAddSong`. */
  method PickAndAddSong(library: SongLibrary, fs: FileSystem, picked: Option<string>, hash: string -> string,
                        songIdOf: (string, Option<string>, Option<string>) -> string,
                        toInt: string -> int, now: string) returns (r: AddResult)
    modifies library
    requires library.Valid()
    ensures library.Valid()
    ensures AddOutcome(r, library.songs) == PickAndAdd(old(library.songs), fs.files, picked, hash, songIdOf, toInt, now)
  {
    if picked.None? {
      return Cancelled;
    }
    var filePath := picked.value;
    var known := library.HasSongByPath(filePath);
    if known {
      var existing := library.GetSongByPath(filePath);
      return DuplicatePath(existing.value);
    }
    var read := ReadFile(fs.files, filePath);
    if read.Err? {
      return Failed(read.error);
    }
    var content := read.value;
    var fileHash := hash(content);
    var ast := Parser.ParseChord(content);
    if |ast.sections| == 0 {
      return Failed(InvalidSong);
    }
    var songId := songIdOf(filePath, Lookup(ast.metadata, "title"), Lookup(ast.metadata, "artist"));
    var duplicate := library.HasSong(songId);
    if duplicate {
      return DuplicateId(songId);
    }
    var meta := NewRecord(songId, filePath, ast, fileHash, toInt, now);
    library.AddSong(meta);
    r := Added(meta, ast);
  }

  // ---------------------------------------------------------------------
  // song:save
  // ---------------------------------------------------------------------

  /** `song:save`: an unknown id writes nothing; otherwise the file is written, then that song's cache invalidated. */
  method SaveSong(library: SongLibrary, cache: SongCache, fs: FileSystem, songId: string, newContent: string)
    returns (r: Result<(), string>)
    modifies library, fs
    requires cache.library == library && library.Valid()
    ensures library.Valid()
    ensures songId !in old(library.songs) ==>
      r == Err(SongNotFound) && library.songs == old(library.songs) && fs.files == old(fs.files)
    ensures songId in old(library.songs) ==>
      r == Ok(()) && fs.files == old(fs.files)[old(library.songs)[songId].path := newContent]
      && Invalidate(old(library.songs), songId) == Ok(library.songs)
  {
    var meta := library.GetSongById(songId);
    if meta.None? {
      return Err(SongNotFound);
    }
    fs.files := fs.files[meta.value.path := newContent];
    var _ := cache.InvalidateCache(songId);
    r := Ok(());
  }

  /** After a save, the next load parses the saved content, whatever was cached. */
  lemma SaveThenLoad(songs: Table, files: map<string, string>, songId: string, newContent: string,
                     hash: string -> string, now: string)
    requires WellFormed(songs) && songId in songs
    ensures var saved := Invalidate(songs, songId).value;
      Load(saved, songId, files[songs[songId].path := newContent], hash, now).result == Ok(Parser.Parse(newContent))
  {
    InvalidateClears(songs, songId);
  }

  // ---------------------------------------------------------------------
  // song:open
  // ---------------------------------------------------------------------

  datatype Opened = Opened(meta: SongMeta, ast: Song)

  datatype OpenOutcome = OpenOutcome(result: Result<Opened, string>, songs: Table)

  /** The patch `song:open` writes. */
  function TouchPatch(now: string): Patch
  {
    NoChange.(lastOpened := Set(now))
  }

  /** `song:open`: load through the cache, read the record back, then stamp `lastOpened`. */
  function Open(songs: Table, songId: string, files: map<string, string>, hash: string -> string, now: string): OpenOutcome
  {
    var loaded := Load(songs, songId, files, hash, now);
    match loaded.result
    case Err(e) => OpenOutcome(Err(e), loaded.songs)
    case Ok(ast) =>
      if songId !in loaded.songs then OpenOutcome(Err(SongNotFound), loaded.songs)
      else
        var meta := loaded.songs[songId];
        OpenOutcome(Ok(Opened(meta, ast)), Upsert(loaded.songs, Apply(meta, TouchPatch(now))))
  }

  /**
   * A successful open returns what the load returned, together with the
   * record as loaded; afterwards only that record's `lastOpened` differs from
   * the table the load left.
   */
  lemma OpenTouches(songs: Table, songId: string, files: map<string, string>, hash: string -> string, now: string)
    requires WellFormed(songs)
    ensures var o := Open(songs, songId, files, hash, now);
      var loaded := Load(songs, songId, files, hash, now);
      WellFormed(o.songs)
      && (o.result.Err? <==> loaded.result.Err?)
      && (o.result.Err? ==> o.songs == loaded.songs)
      && (o.result.Ok? ==>
            Ok(o.result.value.ast) == loaded.result && songId in loaded.songs
            && o.result.value.meta == loaded.songs[songId]
            && o.songs == loaded.songs[songId := loaded.songs[songId].(lastOpened := now)])
  {
    var loaded := Load(songs, songId, files, hash, now);
    LoadChanges(songs, songId, files, hash, now);
    if loaded.result.Ok? {
      UpdateInPlace(loaded.songs, songId, TouchPatch(now));
    }
  }

  /** `song:open`. */
  method OpenSong(library: SongLibrary, cache: SongCache, fs: FileSystem, songId: string,
                  hash: string -> string, now: string) returns (r: Result<Opened, string>)
    modifies library
    requires cache.library == library && library.Valid()
    ensures library.Valid()
    ensures OpenOutcome(r, library.songs) == Open(old(library.songs), songId, fs.files, hash, now)
  {
    var ast := cache.LoadSong(songId, fs, hash, now);
    if ast.Err? {
      return Err(ast.error);
    }
    var meta := library.GetSongById(songId);
    if meta.None? {
      return Err(SongNotFound);
    }
    var _ := library.UpdateSong(songId, TouchPatch(now));
    r := Ok(Opened(meta.value, ast.value));
  }
}
