/**
 * The layout computation of the viewer
 * (`src/renderer/src/components/SongViewer.tsx`): `ChordLine` places each
 * chord at the column where the lyric text before it ends, and `SongViewer`
 * transposes the song from its key to the selected one.
 */
module SongViewer {
  import opened SongTypes
  import opened Text
  import MusicUtils

  /** A chord and the column it is drawn at. */
  datatype ChordPosition = ChordPosition(chord: string, position: nat)

  /** The lyric text of the parts, in order; chords and annotations add nothing. */
  function LyricsOf(parts: seq<LinePart>): string
  {
    if parts == [] then []
    else
      var last := parts[|parts| - 1];
      LyricsOf(parts[..|parts| - 1]) + (if last.Lyric? then last.text else [])
  }

  /** Each chord with the length of the lyric text before it. */
  function ChordsOf(parts: seq<LinePart>): seq<ChordPosition>
  {
    if parts == [] then []
    else
      var init := parts[..|parts| - 1];
      var last := parts[|parts| - 1];
      ChordsOf(init) + (if last.Chord? then [ChordPosition(last.value, |LyricsOf(init)|)] else [])
  }

  lemma PartsSnoc(parts: seq<LinePart>, i: nat)
    requires i < |parts|
    ensures var p := parts[i];
      LyricsOf(parts[..i + 1]) == LyricsOf(parts[..i]) + (if p.Lyric? then p.text else [])
      && ChordsOf(parts[..i + 1]) == ChordsOf(parts[..i]) + (if p.Chord? then [ChordPosition(p.value, |LyricsOf(parts[..i])|)] else [])
  {
    assert parts[..i + 1][..i] == parts[..i];
  }

  /**
   * `ChordLine`: walks the parts once, collecting the chords at the running
   * lyric length and the lyric text; a line is drawn chords-only exactly
   * when its lyric text is all whitespace.
   */
  method ChordLine(line: Line) returns (chords: seq<ChordPosition>, lyrics: string, chordsOnly: bool)
    ensures chords == ChordsOf(line.parts)
    ensures lyrics == LyricsOf(line.parts)
    ensures chordsOnly <==> AllSpace(lyrics)
  {
    chords := [];
    lyrics := [];
    var currentPos := 0;
    var i := 0;
    while i < |line.parts|
      invariant 0 <= i <= |line.parts|
      invariant chords == ChordsOf(line.parts[..i])
      invariant lyrics == LyricsOf(line.parts[..i])
      invariant currentPos == |lyrics|
    {
      var part := line.parts[i];
      if part.Chord? {
        chords := chords + [ChordPosition(part.value, currentPos)];
      } else if part.Lyric? {
        lyrics := lyrics + part.text;
        currentPos := currentPos + |part.text|;
      }
      PartsSnoc(line.parts, i);
      i := i + 1;
    }
    assert line.parts[..i] == line.parts;
    TrimEmptyIff(lyrics);
    chordsOnly := Trim(lyrics) == [];
  }

  /** The chords of a prefix of the line come first among the chords of the line. */
  lemma {:induction false} ChordsOfPrefix(parts: seq<LinePart>, j: nat)
    requires j <= |parts|
    ensures ChordsOf(parts[..j]) <= ChordsOf(parts)
    ensures |LyricsOf(parts[..j])| <= |LyricsOf(parts)|
    decreases |parts|
  {
    if j < |parts| {
      var init := parts[..|parts| - 1];
      assert init[..j] == parts[..j];
      ChordsOfPrefix(init, j);
    } else {
      assert parts[..j] == parts;
    }
  }

  /**
   * A chord part's column is the summed length of the lyric texts before
   * it in the line, and it comes right after the chords before it.
   */
  lemma ChordPositionAt(parts: seq<LinePart>, j: nat)
    requires j < |parts| && parts[j].Chord?
    ensures |ChordsOf(parts[..j])| < |ChordsOf(parts)|
    ensures ChordsOf(parts)[|ChordsOf(parts[..j])|] == ChordPosition(parts[j].value, |LyricsOf(parts[..j])|)
  {
    PartsSnoc(parts, j);
    ChordsOfPrefix(parts, j + 1);
  }

  /** Columns never decrease along the line and never pass the end of the lyric text. */
  lemma {:induction false} PositionsOrdered(parts: seq<LinePart>)
    ensures forall i, j | 0 <= i <= j < |ChordsOf(parts)| :: ChordsOf(parts)[i].position <= ChordsOf(parts)[j].position
    ensures forall k | 0 <= k < |ChordsOf(parts)| :: ChordsOf(parts)[k].position <= |LyricsOf(parts)|
  {
    if parts != [] {
      var init := parts[..|parts| - 1];
      PositionsOrdered(init);
    }
  }

  /** The line without its annotation parts. */
  function DropAnnotations(parts: seq<LinePart>): (r: seq<LinePart>)
    ensures forall k | 0 <= k < |r| :: !r[k].Annotation?
  {
    if parts == [] then []
    else
      var last := parts[|parts| - 1];
      DropAnnotations(parts[..|parts| - 1]) + (if last.Annotation? then [] else [last])
  }

  /** Annotations add neither lyric text nor columns: dropping them changes nothing. */
  lemma {:induction false} AnnotationsIgnored(parts: seq<LinePart>)
    ensures LyricsOf(DropAnnotations(parts)) == LyricsOf(parts)
    ensures ChordsOf(DropAnnotations(parts)) == ChordsOf(parts)
  {
    if parts != [] {
      var init := parts[..|parts| - 1];
      var last := parts[|parts| - 1];
      AnnotationsIgnored(init);
      var d := DropAnnotations(init);
      if last.Annotation? {
        assert DropAnnotations(parts) == d + [] == d;
        assert LyricsOf(parts) == LyricsOf(init) + [];
        assert ChordsOf(parts) == ChordsOf(init) + [];
      } else {
        assert DropAnnotations(parts) == d + [last];
        assert (d + [last])[..|d|] == d;
      }
    }
  }

  /** The chord values of the line, in order. */
  function ChordValues(parts: seq<LinePart>): seq<string>
  {
    if parts == [] then []
    else
      var last := parts[|parts| - 1];
      ChordValues(parts[..|parts| - 1]) + (if last.Chord? then [last.value] else [])
  }

  /** The chord list holds exactly the chord parts, in order. */
  lemma {:induction false} ChordsAreChordParts(parts: seq<LinePart>)
    ensures |ChordsOf(parts)| == |ChordValues(parts)|
    ensures forall k | 0 <= k < |ChordsOf(parts)| :: ChordsOf(parts)[k].chord == ChordValues(parts)[k]
  {
    if parts != [] {
      ChordsAreChordParts(parts[..|parts| - 1]);
    }
  }

  /** `song?.metadata?.key || 'C'`. */
  function SongKey(song: Song): (r: string)
    ensures r != ""
  {
    if "key" in song.metadata && song.metadata["key"] != "" then song.metadata["key"] else "C"
  }

  /** The transposition `SongViewer` applies: from the song's key (C if none) to the selected key. */
  function ViewerSteps(song: Song, selectedKey: string): (r: int)
    ensures 0 <= r < 12
    ensures MusicUtils.NormalizeNote(SongKey(song)) == -1 || MusicUtils.NormalizeNote(selectedKey) == -1 ==> r == 0
  {
    MusicUtils.GetTransposeSteps(SongKey(song), selectedKey)
  }

  /** The song the viewer shows differs from the stored one only in its chord values. */
  lemma ViewerOnlyChangesChords(song: Song, selectedKey: string)
    ensures MusicUtils.OnlyChordsDiffer(song, MusicUtils.TransposeSong(song, ViewerSteps(song, selectedKey)))
  {
    MusicUtils.TransposeSongPreservesStructure(song, ViewerSteps(song, selectedKey));
  }

  /** A chord on the song's key (written as a table or flat name) is shown on the selected key. */
  lemma ViewerReachesSelectedKey(song: Song, selectedKey: string, suffix: string)
    requires SongKey(song) in MusicUtils.Notes || SongKey(song) in MusicUtils.Flats
    requires MusicUtils.NormalizeNote(selectedKey) >= 0
    requires NoLineTerminator(suffix) && (suffix == [] || (suffix[0] != 'b' && suffix[0] != '#'))
    ensures MusicUtils.TransposeChordValue(SongKey(song) + suffix, ViewerSteps(song, selectedKey))
      == MusicUtils.Notes[MusicUtils.NormalizeNote(selectedKey)] + suffix
  {
    MusicUtils.TransposeStepsReachTarget(SongKey(song), selectedKey, suffix);
  }
}
