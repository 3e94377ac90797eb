# ChordPro app core, modelled in Dafny

This project models the core of a desktop ChordPro song-sheet app:

- the ChordPro parser;
- the chord transposition engine;
- the song catalog with its content-hash parse cache;
- the import, open and save handlers of the main process;
- the open-tabs selection store of the renderer;
- the chord-over-lyric column computation of the song viewer.

It proves what each of them guarantees.

Modules follow the source files:

| module | file | form |
|---|---|---|
| `Text` | (shared) | JavaScript `trim()` and `\s` whitespace over `seq<char>` |
| `SongTypes` | `src/renderer/src/types.ts` | datatypes: `Song`, `Section`, `Line`, `LinePart`, `SongMeta` |
| `MusicUtils` | `src/core/musicUtils.ts` | functions and lemmas |
| `Parser` | `src/core/parser.ts` | functions for preprocessing, directive matching, tokenising and `parseCho`; methods with loops for `parseLine` and the main loop of `parseChord`; the class `SongBuilder` for the song under construction |
| `ParserLaws` | `src/core/parser.ts` | lemmas about the main loop |
| `ParserAliasing` | `src/core/parser.ts` | the start-directive aliasing as written (see Findings) |
| `Library` | `src/core/library.ts` | classes `SongLibrary` (a table `id → SongMeta`), `SongCache` and `FileSystem`, each proved against a specification function |
| `IpcHandlers` | `src/main/ipcHandlers.ts` | methods for `library:pickAndAddSong`, `song:save` and `song:open`, each proved against a specification function |
| `SongsStore` | `src/renderer/src/stores/songs.ts` | the class `SelectedSongs` |
| `SongViewer` | `src/renderer/src/components/SongViewer.tsx` | the `ChordLine` loop as a method; the step computation as a function |

Inputs the model takes as parameters:

- the content hash (`hash: string -> string`);
- `generateSongId` (`songIdOf`);
- `parseInt(...) || 0` (`toInt`);
- the clock (`now`, one timestamp per handler call);
- the file the open dialog picked (`picked: Option<string>`, where `None` means cancelled).

The files on disk are the `files` map of a `FileSystem`. Reading a path that is not in the map fails with the ENOENT message.

The catalog table is the map of rows as a later `SELECT` returns them. `addSong` is SQLite's `INSERT OR REPLACE` on a table keyed by `id` with a `UNIQUE` `path`: every row that clashes on either is deleted, then the record is inserted (`Library.Upsert`). Reading a row back turns an empty `fileHash` or `lastParsed` into `undefined` (`Library.Persisted`).

Where the code and its documented behaviour differ, the model follows the code. The exceptions are the two defects under "## Findings". For those, the rest of the model uses the corrected behaviour, and the code as written is modelled beside it (`ParserAliasing`, `MusicUtils.TransposeChordValueAsWritten`). The differences the model follows:

- A directive value is not right-trimmed: `{title: A }` stores `"A "`.
- `soc` and `chorus` are not section directives. Like any unknown name, they only set metadata (`ParserLaws.ShortNamesAreMetadata`).
- An `end_of_*` directive appends the open section even when it has no lines (`ParserLaws.EmptyPairKeepsSection`).
- Transposing by 0 respells a flat root as its sharp (`MusicUtils.ZeroStepRespellsFlat`). Composition of transpositions needs the rest after the root not to begin with `b` or `#` (`MusicUtils.ComposeNeedsPlainRest`).
- `extractRoot`'s pattern has no end anchor, so the rest it returns stops at the first line terminator.
- `parseCho` does not trim chord values.
- Directive names are lowercased with ASCII case folding. The name pattern admits only ASCII letters and `_`, so this is exact.
- A `[` that no `]` closes starts a chord when it begins a token, that is at the start of the line or right after a closed span: `parseLine` turns every token starting with `[` into a chord. So `[C` is the chord `C`, and `[]abc` is the chord `abc`, not lyric text (`Parser.UnclosedBracketIsChord`). After other text the `[` stays inside that lyric token: `x [C` is the single lyric `x [C` (`Parser.UnclosedBracketInLyric`).
- A `{__proto__:x}` directive stores nothing. The metadata is a plain object literal, and JavaScript ignores a string assigned to its `__proto__` key (`ParserLaws.ProtoDirectiveIgnored`).

## Model

| member | source | states |
|---|---|---|
| Text.TrimStartSpec | src/core/parser.ts:14 | trimming the start removes a prefix made only of whitespace and leaves text that starts with a non-space |
| Text.TrimEndSpec | src/core/parser.ts:14 | trimming the end removes a suffix made only of whitespace and leaves text that ends with a non-space |
| Text.TrimEmptyIff | src/core/parser.ts:14 | a line trims to empty exactly when every character is whitespace or a line terminator |
| MusicUtils.NormalizeNote | src/core/musicUtils.ts:9-21 | the result is a pitch class in 0..11 or -1 |
| MusicUtils.NormalizeNoteIsLookup | src/core/musicUtils.ts:9-21 | normalising equals the table position of the name after the flat-to-sharp map |
| MusicUtils.NormalizeNoteRecognised | src/core/musicUtils.ts:6-21 | a name is recognised exactly when it is one of the 12 table names or the 5 flats; a table name maps to its own entry, and a flat to its sharp equivalent |
| MusicUtils.UnrecognisedSpellings | src/core/musicUtils.ts:9-21 | Cb, Fb, E#, B# and every name longer than two characters (such as "N.C.") give -1 |
| MusicUtils.ExtractRoot | src/core/musicUtils.ts:24-30 | on a match, the root is the leading letter A-G with an optional accidental, and root plus rest are a prefix of the value that stops only at its first line terminator or at its end (the whole value when it has none); otherwise the whole value is the root and the rest is empty |
| MusicUtils.ReadChord | src/core/musicUtils.ts:32-36 | a chord reads as a pitch 0..11 with the extracted rest exactly when its root normalises |
| MusicUtils.TransposeChordValueShape | src/core/musicUtils.ts:24-39 | an unrecognised root leaves the chord unchanged for any step count; a recognised one becomes a sharp-spelled table note followed by the original rest, unchanged |
| MusicUtils.TransposeChordValue | src/core/musicUtils.ts:32-40 | computes the transposed chord: an unrecognised root is returned unchanged, a recognised one is replaced by the table entry its pitch moves to, wrapping for every step count |
| MusicUtils.TransposeRecognised | src/core/musicUtils.ts:32-39 | a recognised chord with pitch p and rest r becomes `notes[(p + steps) % 12] + r`: the entry its pitch lands on modulo 12, then the rest unchanged |
| MusicUtils.AsWrittenAgreesInRange | src/core/musicUtils.ts:38 | for steps ≥ -12, the source's truncating remainder agrees with the wrap-around |
| MusicUtils.AsWrittenBelowRange | src/core/musicUtils.ts:38 | thirteen steps down from "C", the source gives the text "undefined" where the wrap-around gives "B" |
| MusicUtils.TransposeCompose | src/core/musicUtils.ts:9-40 | transposing by a and then by b equals transposing by a+b, for every step count, when the rest does not begin with an accidental |
| MusicUtils.ComposeNeedsPlainRest | src/core/musicUtils.ts:24-39 | without that condition composition fails: "C#b" up 1 twice is "D", up 2 is "D#b" |
| MusicUtils.ZeroStep | src/core/musicUtils.ts:9-39 | a zero step keeps a chord whose root is a table name |
| MusicUtils.ZeroStepRespellsFlat | src/core/musicUtils.ts:9-39 | a zero step respells a flat root as its sharp, so it is not the identity |
| MusicUtils.TransposeSong | src/core/musicUtils.ts:42-73 | computes the transposed song: the same metadata and sections, with every chord part's value transposed and every other part kept |
| MusicUtils.TransposeSongPreservesStructure | src/core/musicUtils.ts:42-73 | metadata, section types, line and part counts and every non-chord part are kept; each chord becomes its transposed value |
| MusicUtils.TransposeSongCompose | src/core/musicUtils.ts:42-73 | song transposition composes when every chord meets the accidental condition |
| MusicUtils.TransposeSongZero | src/core/musicUtils.ts:42-73 | a zero step is the identity on songs whose chords are table-spelled or unrecognised |
| MusicUtils.GetNoteIndex | src/core/musicUtils.ts:76-78 | the index is in 0..11, or -1 |
| MusicUtils.GetNoteByIndex | src/core/musicUtils.ts:81-83 | the table entry for 0..11, and "C" for any other index |
| MusicUtils.NoteIndexRoundTrip | src/core/musicUtils.ts:76-83 | index and name lookups are inverse on the table |
| MusicUtils.GetTransposeSteps | src/core/musicUtils.ts:86-96 | the result is in 0..11; it is 0 if either name is unrecognised; otherwise from + steps ≡ to (mod 12) |
| MusicUtils.TransposeStepsReachTarget | src/core/musicUtils.ts:86-96 | transposing a chord rooted at the source key by those steps roots it at the target key's table spelling |
| Parser.SplitLF | src/core/parser.ts:79 | splitting gives at least one piece, and no piece holds a line feed |
| Parser.JoinSplitLF | src/core/parser.ts:79 | joining the pieces with line feeds gives back the input |
| Parser.SplitJoinLF | src/core/parser.ts:79 | splitting a join of line-feed-free pieces gives back the pieces |
| Parser.SplitLinesPieces | src/core/parser.ts:79 | splitting on `\r?\n` gives one line per line feed plus one; each is the piece with at most one trailing carriage return removed |
| Parser.StripBackslash | src/core/parser.ts:80 | at most one trailing backslash is removed, exactly when the line ends with one |
| Parser.DropCommentsKeeps | src/core/parser.ts:81 | every kept line is a non-comment line of the input, every non-comment input line is kept, and input without comment lines is kept whole |
| Parser.DropCommentsAppend | src/core/parser.ts:81 | the filter distributes over concatenation, and a single line stays exactly when it is not a comment, so it keeps exactly the non-comment lines in their order |
| Parser.Preprocess | src/core/parser.ts:77-82 | computes the preprocessed lines: split on `\r?\n`, one trailing backslash removed from each, comment lines dropped |
| Parser.PreprocessLines | src/core/parser.ts:77-82 | preprocessing works line by line: the first line (without its carriage return) is handled, then the rest |
| Parser.MatchBody | src/core/parser.ts:4 | a matched name is letters and underscores and a prefix of the body; the value starts with a non-space and holds no line terminator |
| Parser.MatchDirective | src/core/parser.ts:19-21 | only a whole line between `{` and `}` can match |
| Parser.DirectiveRoundTrip | src/core/parser.ts:4 | `{name:value}` matches with that name and value |
| Parser.BareDirective | src/core/parser.ts:4 | `{name}` matches with an empty value |
| Parser.NotBraced | src/core/parser.ts:4 | a line that does not start with `{` and end with `}` is not a directive |
| Parser.ToLower | src/core/parser.ts:22 | the name is lowercased character by character and keeps its length |
| Parser.ToLowerIdempotent | src/core/parser.ts:22 | lowercasing twice is lowercasing once, and a name stays a name |
| Parser.FirstSpanLeftmost | src/core/parser.ts:5 | the bracket span found is the leftmost one |
| Parser.PiecesHoldSpans | src/core/parser.ts:5 | splitting on the capture group alternates text and the `[...]` spans: 2n+1 pieces, with span k at position 2k+1 |
| Parser.TokensSpellLine | src/core/parser.ts:143 | the tokens concatenate to the line, and none is empty |
| Parser.TokensWithoutBrackets | src/core/parser.ts:143 | a line with no `[` is a single token, or none when empty |
| Parser.RemoveBrackets | src/core/parser.ts:147 | the chord text holds no bracket and is no longer than its token |
| Parser.SplitChord | src/core/parser.ts:171-179 | when the pattern matches (a letter A-G, and no line terminator after it), the root is that letter plus a following `b` or `#` if any, and the suffix is the rest, absent when empty; otherwise the whole chord is the root with no suffix |
| Parser.SplitChordJoin | src/core/parser.ts:171-179 | root followed by the suffix (or nothing) gives back the chord |
| Parser.LineOfParts | src/core/parser.ts:141-159 | one part per token, in order: a `[` token is a chord whose value is its text without brackets, trimmed; any other token is that lyric verbatim; no annotation parts |
| Parser.UnclosedBracketIsChord | src/core/parser.ts:143-152 | a line starting with a `[` that no `]` closes is one chord part: its text without brackets, trimmed |
| Parser.UnclosedBracketInLyric | src/core/parser.ts:143-156 | a line that does not start with `[` and holds no `]` is one lyric part, the line verbatim, even when it holds an unclosed `[` |
| Parser.PlainLyricLine | src/core/parser.ts:141-159 | a non-empty line without brackets is one lyric part |
| Parser.ParseLine | src/core/parser.ts:141-159 | the token loop builds the line the specification function describes |
| Parser.OutsideKeepsRest | src/core/parser.ts:54 | the lengths of the outside text and of the spans add up to the line; a line without spans is kept whole |
| Parser.OutsideIsTextPieces | src/core/parser.ts:54 | removing the chord spans keeps exactly the text between and around them, in order: the outside text is the concatenation of the non-span pieces of the split |
| Parser.ExtractChordsFromLine | src/core/parser.ts:162-168 | one chord per bracket span, in order; root and suffix of chord k spell span k without its brackets |
| Parser.ChoLineParts | src/core/parser.ts:53-70 | a `parseCho` line holds every chord span in order, then at most one lyric: the trimmed text outside the spans, left out when blank |
| Parser.ChoPlainLine | src/core/parser.ts:53-70 | a non-blank line without brackets is one trimmed lyric |
| Parser.NonBlankKeeps | src/core/parser.ts:41 | the kept lines are non-blank lines of the input, every non-blank input line is kept, and input without blank lines is kept whole |
| Parser.NonBlankAppend | src/core/parser.ts:41 | the filter distributes over concatenation, and a single line stays exactly when it is not blank |
| Parser.ParseCho | src/core/parser.ts:40-75 | computes the `parseCho` song: the fixed title and artist, and one verse holding the line of each non-blank input line |
| Parser.ParseChoShape | src/core/parser.ts:40-75 | always exactly one verse section; the metadata is exactly the fixed title and the fixed artist; one line per non-blank input line |
| Parser.ClassifyMeaning | src/core/parser.ts:13-29 | a line is blank exactly when it trims to empty; otherwise it is a directive when the whole line matches, and content otherwise |
| Parser.ApplyDirective | src/core/parser.ts:84-139 | computes one directive's effect: a start directive closes a non-empty open section as a copy and opens an empty one; an end directive appends a copy and empties the lines; `comment` appends a comment section; `__proto__` changes nothing; any other name sets metadata |
| Parser.SongBuilder.constructor | src/core/parser.ts:10-11 | empty metadata, no sections, an empty verse open |
| Parser.SongBuilder.AddLine | src/core/parser.ts:27-28 | the line is appended to the open section |
| Parser.SongBuilder.HandleDirective | src/core/parser.ts:84-139 | the state becomes the directive's effect: metadata set, a section opened or closed, or a comment section appended |
| Parser.SongBuilder.Close | src/core/parser.ts:31-34 | the open section is appended only when it has lines |
| Parser.ProcessLine | src/core/parser.ts:13-29 | one loop iteration is one step on the classified line |
| Parser.ParseChord | src/core/parser.ts:8-37 | the loop computes the song of the specification fold |
| Parser.Parse | src/core/parser.ts:8-37 | computes the `parseChord` song: the fold of the directive and content steps over the classified preprocessed lines, then the final append |
| ParserLaws.StepKeepsContent | src/core/parser.ts:13-29 | a step never drops or reorders lines, and a content line is added at the end; the open section is never a comment |
| ParserLaws.RunKeepsContent | src/core/parser.ts:13-29 | after any prefix, the closed and open sections hold exactly its content lines |
| ParserLaws.ParseKeepsContent | src/core/parser.ts:8-37 | the lines of the song's non-comment sections are the input's content lines, in input order |
| ParserLaws.StepExtends | src/core/parser.ts:13-29 | a step only appends sections |
| ParserLaws.RunExtends | src/core/parser.ts:13-29 | a closed section is never changed by later input |
| ParserLaws.StepMetadata | src/core/parser.ts:90-101 | only a metadata directive for a key changes that key, and it sets the directive's value |
| ParserLaws.MetadataKeys | src/core/parser.ts:84-139 | a key is present exactly when some metadata directive sets it |
| ParserLaws.MetadataLastWins | src/core/parser.ts:84-139 | the last directive for a key wins |
| ParserLaws.ParseMetadata | src/core/parser.ts:8-37 | the song's metadata keys are exactly the keys its directives set |
| ParserLaws.EmptyPairKeepsSection | src/core/parser.ts:102-110 | a start directive followed directly by an end directive gives one empty section of the started type |
| ParserLaws.ProtoDirectiveIgnored | src/core/parser.ts:135-137 | a `__proto__` directive changes nothing, and no parse ever has a `__proto__` metadata entry |
| ParserLaws.ShortNamesAreMetadata | src/core/parser.ts:135-137 | `soc` and `chorus` only set metadata |
| ParserAliasing.AliasingLosesVerse | src/core/parser.ts:111-115 | as written, a verse line followed by a chorus yields the chorus twice and loses the verse; copy-on-close yields verse then chorus |
| ParserAliasing.AliasingOnText | src/core/parser.ts:8-37 | the same divergence on the text `a\n{start_of_chorus}\nb` for any plain lines a and b |
| ParserAliasing.RunAgrees | src/core/parser.ts:102-128 | without start directives, the aliasing loop and the copy-on-close loop agree after every prefix |
| ParserAliasing.FinishAgrees | src/core/parser.ts:31-34 | the final append then agrees too |
| ParserAliasing.ParseAgrees | src/core/parser.ts:102-128 | for input without start directives, the parse as written equals the corrected parse |
| Library.IsCacheValid | src/core/library.ts:21-27 | the cache is valid exactly when an AST is stored, the stored hash equals the current one, and a parse time is stored |
| Library.PersistedFixes | src/core/library.ts:152-166 | a record read back holds no empty hash or timestamp; reading back changes exactly those records that held one, and is idempotent |
| Library.Upsert | src/core/library.ts:63-75 | the record is stored under its id; every other row survives exactly when it clashes on neither id nor path, and is unchanged |
| Library.UpsertWellFormed | src/core/library.ts:63-75 | the table stays keyed by id with unique paths; the new record is the only row with its path |
| Library.UpsertInPlace | src/core/library.ts:63-75 | rewriting a record under its own id and path replaces only its row |
| Library.UpdateInPlace | src/core/library.ts:119-125 | an update that keeps id and path rewrites that row only, and the table stays well formed |
| Library.WithoutCache | src/core/library.ts:216-222 | all non-cache fields are kept, and no hash hits afterwards |
| Library.CachePatchHits | src/core/library.ts:208-214 | a cache write keeps every other field, stores the AST, and the record then hits for that hash |
| Library.ClearAll | src/core/library.ts:142-149 | every record keeps its id and non-cache fields and loses its AST; no record hits for any hash |
| Library.ClearAllWellFormed | src/core/library.ts:142-149 | clearing the caches keeps the table well formed |
| Library.ReadFile | src/core/library.ts:186 | reading succeeds exactly for a path on disk, with its content |
| Library.Load | src/core/library.ts:181-206 | computes a load: an unknown id or an unreadable file fails; a valid cache returns the stored AST; otherwise the content is parsed and the cache updated |
| Library.Invalidate | src/core/library.ts:216-222 | computes an invalidation: an unknown id fails; otherwise that record loses its AST, hash and parse time |
| Library.Rebuild | src/core/library.ts:224-227 | computes a rebuild: invalidate, then load |
| Library.LoadChanges | src/core/library.ts:181-206 | an unknown id fails with "not found", an unreadable path fails with the read error; a failure leaves the table unchanged; a success changes only the cache fields of that record |
| Library.LoadHit | src/core/library.ts:189-193 | on a hit the stored AST is returned and nothing changes |
| Library.LoadMiss | src/core/library.ts:195-201 | on a miss the result is the parse of the current content |
| Library.LoadTwiceHits | src/core/library.ts:195-214 | a second load of unchanged content returns the first result and changes nothing |
| Library.InvalidateClears | src/core/library.ts:216-222 | invalidation fails exactly for an unknown id; otherwise only that record loses its cache, and no hash hits it |
| Library.RebuildParses | src/core/library.ts:224-227 | a rebuild returns the parse of the current content, whatever hash the record held |
| Library.SongLibrary.constructor | src/core/library.ts:36-60 | the catalog opens with the rows already stored |
| Library.SongLibrary.AddSong | src/core/library.ts:63-75 | insert or replace, keeping ids and paths unique |
| Library.SongLibrary.GetSongById | src/core/library.ts:78-86 | the row with that id, or none exactly when absent |
| Library.SongLibrary.GetSongByPath | src/core/library.ts:88-96 | the one row with that path, or none exactly when no row has it |
| Library.SongLibrary.UpdateSong | src/core/library.ts:119-125 | an unknown id fails with its message and changes nothing; otherwise the present fields overwrite and the record is re-added |
| Library.SongLibrary.DeleteSong | src/core/library.ts:128-130 | only that id is removed |
| Library.SongLibrary.HasSong | src/core/library.ts:133-135 | true exactly when the id is in the catalog |
| Library.SongLibrary.HasSongByPath | src/core/library.ts:137-139 | true exactly when some row has the path |
| Library.SongLibrary.ClearAllCaches | src/core/library.ts:142-149 | every record loses its cache |
| Library.SongCache.UpdateCache | src/core/library.ts:208-214 | the AST, hash and time are stored in that record, or the id is not found and nothing changes |
| Library.SongCache.LoadSong | src/core/library.ts:181-206 | the result and the new table are those of the load specification |
| Library.SongCache.InvalidateCache | src/core/library.ts:216-222 | the table becomes the invalidated one, or the id is not found and nothing changes |
| Library.SongCache.RebuildCache | src/core/library.ts:224-227 | invalidate then load, as the rebuild specification says |
| Library.SongCache.ClearAllCaches | src/core/library.ts:229-231 | every record loses its cache |
| IpcHandlers.OrDefault | src/main/ipcHandlers.ts:108-112 | a non-empty metadata value, else the fallback |
| IpcHandlers.Lookup | src/main/ipcHandlers.ts:93-94 | the metadata value, absent exactly when the key is absent |
| IpcHandlers.NewRecord | src/main/ipcHandlers.ts:106-119 | builds the record of a new song: its id and path; the title and artist from the metadata, or "Untitled" and "Unknown Artist"; key and capo through `toInt`; no tags; the time as opening and parse time; the parsed AST as cache; and the content hash |
| IpcHandlers.PickAndAdd | src/main/ipcHandlers.ts:57-129 | computes an import: cancelled, known path, read failure, empty song, known id, or a new record inserted |
| IpcHandlers.Open | src/main/ipcHandlers.ts:135-153 | computes an open: the load's failure, or the loaded AST and record with `lastOpened` set to the time |
| IpcHandlers.AddFailuresChangeNothing | src/main/ipcHandlers.ts:57-129 | a cancelled dialog answers null; every answer but success leaves the catalog unchanged |
| IpcHandlers.AddKnownPath | src/main/ipcHandlers.ts:72-80 | a known path answers the duplicate with its existing record, whatever the files hold, so the file is not read |
| IpcHandlers.AddEmptySong | src/main/ipcHandlers.ts:86-89 | a parse with no sections answers "File does not contain a valid song" and inserts nothing |
| IpcHandlers.AddKnownId | src/main/ipcHandlers.ts:97-104 | a generated id already present answers the duplicate with that id and inserts nothing |
| IpcHandlers.AddSuccess | src/main/ipcHandlers.ts:106-123 | success adds exactly one new row: the parsed AST as cache, the content hash, the time, no tags, a non-empty title and artist; it hits on the next load |
| IpcHandlers.InsertNewPath | src/main/ipcHandlers.ts:121 | inserting a record with a new id and a new path adds its row and changes no other |
| IpcHandlers.PickAndAddSong | src/main/ipcHandlers.ts:57-129 | the handler's answer and the new catalog are those of the import specification |
| IpcHandlers.SaveSong | src/main/ipcHandlers.ts:170-187 | an unknown id answers "Song not found" and writes nothing; otherwise the file is written, then that song's cache is invalidated |
| IpcHandlers.SaveThenLoad | src/main/ipcHandlers.ts:170-187 | after a save, the next load parses the saved content |
| IpcHandlers.OpenTouches | src/main/ipcHandlers.ts:135-153 | an open fails exactly when the load fails; on success it returns the loaded AST and record, and then changes only that record's `lastOpened` |
| IpcHandlers.OpenSong | src/main/ipcHandlers.ts:135-153 | the handler's answer and the new catalog are those of the open specification |
| SongsStore.WithoutCounts | src/renderer/src/stores/songs.ts:34 | every occurrence of the id goes; every other id stays as often as before |
| SongsStore.WithoutAppend | src/renderer/src/stores/songs.ts:34 | the filter keeps order: it distributes over concatenation |
| SongsStore.WithoutDistinct | src/renderer/src/stores/songs.ts:34 | a list without duplicates stays without duplicates |
| SongsStore.LastOrNone | src/renderer/src/stores/songs.ts:35 | the last remaining id, or '' when none remains |
| SongsStore.SelectedSongs.constructor | src/renderer/src/stores/songs.ts:17-26 | no open songs, no selection, key A |
| SongsStore.SelectedSongs.SelectSong | src/renderer/src/stores/songs.ts:27-31 | nothing changes when the id is already selected; otherwise the id is appended only if absent, then selected; no duplicates are created |
| SongsStore.SelectedSongs.AddSong | src/renderer/src/stores/songs.ts:32 | appends unconditionally and keeps the selection |
| SongsStore.SelectedSongs.RemoveSong | src/renderer/src/stores/songs.ts:33-40 | removes every occurrence, keeps the rest in order, and selects the last remaining id or '' |
| SongsStore.SelectedSongs.ClearSelection | src/renderer/src/stores/songs.ts:41 | empties list and selection and keeps the key |
| SongsStore.SelectedSongs.SetSelectedKey | src/renderer/src/stores/songs.ts:42 | changes the key only |
| SongViewer.ChordLine | src/renderer/src/components/SongViewer.tsx:63-82 | the loop collects the chords at their columns and the lyric text; the chord-only layout is chosen exactly when the lyrics are all whitespace |
| SongViewer.ChordPositionAt | src/renderer/src/components/SongViewer.tsx:63-79 | each chord part appears in the list at the summed length of the lyric texts before it |
| SongViewer.PositionsOrdered | src/renderer/src/components/SongViewer.tsx:67-79 | columns never decrease and never pass the end of the lyrics |
| SongViewer.DropAnnotations | src/renderer/src/components/SongViewer.tsx:69-79 | the line without its annotation parts |
| SongViewer.AnnotationsIgnored | src/renderer/src/components/SongViewer.tsx:69-79 | annotations add neither lyric text nor columns |
| SongViewer.ChordsAreChordParts | src/renderer/src/components/SongViewer.tsx:65-79 | the chord list holds exactly the chord parts' values, in order |
| SongViewer.SongKey | src/renderer/src/components/SongViewer.tsx:230 | the key used is never empty (C when the song has none) |
| SongViewer.ViewerSteps | src/renderer/src/components/SongViewer.tsx:230 | the viewer's steps are in 0..11, and 0 when either key is unrecognised |
| SongViewer.ViewerOnlyChangesChords | src/renderer/src/components/SongViewer.tsx:243 | the song shown differs from the stored one only in chord values |
| SongViewer.ViewerReachesSelectedKey | src/renderer/src/components/SongViewer.tsx:230-243 | a chord on the song's key is shown on the selected key |

## Left out

- SQLite and JSON persistence: the table is a map. Only `INSERT OR REPLACE` and the read-back of empty strings are modelled. The AST's JSON round trip is taken as the identity. Opening the database (its path, schema creation and logging) and `close` are left out.
- `listSongs` and `searchSongs`: their `ORDER BY` and SQL `LIKE` matching are left out.
- SHA-256 hashing, `generateSongId` and `normalizeString`: these are function parameters. Cryptography, `path.basename` and Unicode NFD are left out.
- The clock: `pickAndAddSong` reads it twice, and the model uses one value for both `lastOpened` and `lastParsed`. `song:open` also reads it twice, once for the cache write's `lastParsed` in `loadSong` on a cache miss, and once for `lastOpened`; `IpcHandlers.Open` uses one value for both.
- `parseInt(...) || 0`: this is the `toInt` parameter.
- Logging: `loadSong`'s console messages for a cache hit, a cache miss and a load error are left out, since they change no state and no result.
- Electron plumbing: `ipcMain` registration, the dialog itself and `async`/Promise wrapping are left out. The handlers are sequential methods.
- `writeFileSync`: writing always succeeds. `readFileSync` fails only for a missing path, with the ENOENT message. Permission and encoding errors are left out.
- Thin handlers: `library:getSongs`, `library:search`, `library:getSong`, `library:updateSong`, `library:deleteSong`, `song:edit`, `cache:rebuild` and `cache:clearAll` forward to modelled operations (`GetSongById`, `ReadFile`, `UpdateSong`, `DeleteSong`, `RebuildCache`, `ClearAllCaches`) and wrap the result. Their answer objects are left out.
- The JSX of the viewer: only `ChordLine`'s accumulation and `SongViewer`'s step computation are modelled.
- `SongViewer` imports `transposeSong` and `getTransposeSteps` from `@renderer/musicUtils`, which is not part of this model. The model uses the core `musicUtils` versions.
- String lengths: `.length` counts UTF-16 code units, while the model counts characters. They agree on text without surrogate pairs.
- `src/core/renderer.ts`, the UI store and the editor components are not part of this model.

## Findings

| source | as written | input that shows it | evidently intended | confidence | as-written member | corrected member |
|---|---|---|---|---|---|---|
| src/core/musicUtils.ts:38 | `(idx + steps + 12) % 12` with JavaScript's truncating `%` goes negative below -12 steps, and `notes[newIdx]` is `undefined` | `transposeChordValue("C", -13)` gives `"undefined"` | the index wraps into 0..11 for every step count, giving `"B"` | not executed | MusicUtils.AsWrittenBelowRange | MusicUtils.TransposeChordValueShape |
| src/core/parser.ts:111-115 | `start_of_*` pushes the open section by reference and then retypes and empties it; the same object is pushed again at the end | `a\n{start_of_chorus}\nb` gives two chorus sections holding `b`, and the verse `a` is lost | the open section is closed as a copy, as `end_of_*` does: a verse with `a`, then a chorus with `b` | not executed | ParserAliasing.AliasingOnText | ParserLaws.ParseKeepsContent |
