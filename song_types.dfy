/**
 * The shared data model: the song AST produced by the parser and consumed by
 * transposition and rendering, and the catalog record that carries the
 * parse cache. Field and variant names follow the application's type
 * declarations; `type` is a Dafny keyword, so a section's type is `kind`.
 */
module SongTypes {

  datatype Option<T> = None | Some(value: T)

  datatype Result<T, E> = Ok(value: T) | Err(error: E)

  datatype SectionType = Verse | Chorus | Bridge | Intro | Outro | Instrumental | Comment

  /** One token of a line: a chord name, lyric text, or an annotation. */
  datatype LinePart = Chord(value: string) | Lyric(text: string) | Annotation(text: string)

  datatype Line = Line(parts: seq<LinePart>)

  datatype Section = Section(kind: SectionType, lines: seq<Line>)

  /** Lower-case directive name to raw value; unknown names are kept too. */
  type Metadata = map<string, string>

  datatype Song = Song(metadata: Metadata, sections: seq<Section>)

  /**
   * A catalog record. `path` is unique across the catalog; the last three
   * fields are the parse cache (absent = `undefined`).
   */
  datatype SongMeta = SongMeta(
    id: string,
    title: string,
    artist: string,
    path: string,
    lastKey: int,
    capo: int,
    tags: seq<string>,
    lastOpened: string,
    cachedAst: Option<Song>,
    fileHash: Option<string>,
    lastParsed: Option<string>)
}
