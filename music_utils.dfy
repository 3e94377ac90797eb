/**
 * The transposition engine: a 12-entry sharp-spelled note table, flat
 * spellings normalised to sharps, chord-value transposition and the
 * structure-preserving song transposition built on it.
 */
module MusicUtils {
  import opened SongTypes
  import opened Text

  const Notes: seq<string> := ["C", "C#", "D", "D#", "E", "F", "F#", "G", "G#", "A", "A#", "B"]

  /** The five flat spellings the note map rewrites to their sharp equivalents. */
  const Flats: seq<string> := ["Db", "Eb", "Gb", "Ab", "Bb"]

  function FlatToSharp(note: string): Option<string>
  {
    if note == "Db" then Some("C#")
    else if note == "Eb" then Some("D#")
    else if note == "Gb" then Some("F#")
    else if note == "Ab" then Some("G#")
    else if note == "Bb" then Some("A#")
    else None
  }

  /** `Array.prototype.findIndex` with `===`: the first position of `x`, or -1. */
  function IndexOf(table: seq<string>, x: string): (r: int)
    ensures -1 <= r < |table|
  {
    if table == [] then -1
    else if table[0] == x then 0
    else
      var k := IndexOf(table[1..], x);
      if k == -1 then -1 else k + 1
  }

  /** `IndexOf` finds the first occurrence, and -1 exactly when there is none. */
  lemma {:induction false} IndexOfFirst(table: seq<string>, x: string)
    ensures IndexOf(table, x) >= 0 ==>
      table[IndexOf(table, x)] == x && forall j :: 0 <= j < IndexOf(table, x) ==> table[j] != x
    ensures IndexOf(table, x) == -1 <==> x !in table
  {
    if table != [] && table[0] != x {
      IndexOfFirst(table[1..], x);
      assert table == [table[0]] + table[1..];
    }
  }

  /** Semitone of a natural note letter above C, or -1. */
  function LetterPitch(c: char): int
  {
    match c
    case 'C' => 0 case 'D' => 2 case 'E' => 4 case 'F' => 5
    case 'G' => 7 case 'A' => 9 case 'B' => 11
    case _ => -1
  }

  /**
   * Reference definition of the table position, read off the characters: a
   * natural letter, or a letter other than E and B followed by '#'.
   */
  function SharpPitch(x: string): (r: int)
    ensures -1 <= r < 12
  {
    if |x| == 1 && LetterPitch(x[0]) >= 0 then LetterPitch(x[0])
    else if |x| == 2 && x[1] == '#' && LetterPitch(x[0]) >= 0 && x[0] != 'E' && x[0] != 'B' then LetterPitch(x[0]) + 1
    else -1
  }

  lemma SharpPitchOfTable()
    ensures forall j :: 0 <= j < 12 ==> SharpPitch(Notes[j]) == j
  {
  }

  lemma SharpPitchNames(x: string)
    requires SharpPitch(x) >= 0
    ensures Notes[SharpPitch(x)] == x
  {
    var k := SharpPitch(x);
    assert |Notes[k]| == |x|;
    assert Notes[k][0] == x[0];
    assert |x| == 2 ==> Notes[k][1] == x[1];
  }

  /** The table lookup agrees with the character-level reference definition. */
  lemma TableLookup(x: string)
    ensures IndexOf(Notes, x) == SharpPitch(x)
  {
    SharpPitchOfTable();
    IndexOfFirst(Notes, x);
    if SharpPitch(x) >= 0 {
      SharpPitchNames(x);
      assert x in Notes;
    } else {
      forall j | 0 <= j < 12
        ensures Notes[j] != x
      {
        assert SharpPitch(Notes[j]) == j;
      }
    }
  }

  /** The name the note map produces before the table lookup. */
  function Spelled(note: string): string
  {
    match FlatToSharp(note) case Some(s) => s case None => note
  }

  /** The five flats map to the pitch just below their letter. */
  lemma FlatPitch(note: string)
    ensures FlatToSharp(note).Some? <==>
      |note| == 2 && note[1] == 'b' && note[0] in {'D', 'E', 'G', 'A', 'B'}
    ensures FlatToSharp(note).Some? ==> SharpPitch(FlatToSharp(note).value) == LetterPitch(note[0]) - 1
  {
    if |note| == 2 && note[1] == 'b' && note[0] in {'D', 'E', 'G', 'A', 'B'} {
      assert note == [note[0], 'b'];
    }
  }

  /**
   * Pitch class 0..11 of a note name, or -1 when the name is not recognised,
   * read off its characters; `NormalizeNoteIsLookup` shows it is the table
   * position of the name after the flat-to-sharp map.
   */
  function NormalizeNote(note: string): (r: int)
    ensures -1 <= r < 12
  {
    if |note| == 2 && note[1] == 'b' && note[0] in {'D', 'E', 'G', 'A', 'B'} then LetterPitch(note[0]) - 1
    else SharpPitch(note)
  }

  lemma NormalizeNoteIsLookup(note: string)
    ensures NormalizeNote(note) == IndexOf(Notes, Spelled(note))
  {
    FlatPitch(note);
    TableLookup(Spelled(note));
  }

  /** The table names map to their own positions. */
  lemma NormalizeTableNote(i: int)
    requires 0 <= i < 12
    ensures NormalizeNote(Notes[i]) == i
  {
    FlatPitch(Notes[i]);
    SharpPitchOfTable();
  }

  /**
   * A name is recognised exactly when it is one of the twelve table names or
   * one of the five flats, and each flat lands on its sharp equivalent.
   */
  lemma NormalizeNoteRecognised(note: string)
    ensures NormalizeNote(note) >= 0 <==> note in Notes || note in Flats
    ensures note in Notes ==> Notes[NormalizeNote(note)] == note
    ensures FlatToSharp(note).Some? ==> note in Flats && Notes[NormalizeNote(note)] == FlatToSharp(note).value
  {
    FlatPitch(note);
    TableLookup(note);
    IndexOfFirst(Notes, note);
    assert note in Notes <==> SharpPitch(note) >= 0;
    assert note in Flats <==> FlatToSharp(note).Some?;
    if FlatToSharp(note).Some? {
      assert FlatToSharp(note).value in Notes;
      TableLookup(FlatToSharp(note).value);
      SharpPitchNames(FlatToSharp(note).value);
    } else if note in Notes {
      SharpPitchNames(note);
    }
  }

  /**
   * Spellings outside the table are refused: Cb and Fb, E# and B#, and any
   * name longer than two characters such as "N.C.".
   */
  lemma UnrecognisedSpellings(note: string)
    requires || |note| > 2
             || (|note| == 2 && note[1] == 'b' && (note[0] == 'C' || note[0] == 'F'))
             || (|note| == 2 && note[1] == '#' && (note[0] == 'E' || note[0] == 'B'))
    ensures NormalizeNote(note) == -1
  {
    FlatPitch(note);
  }

  /** `/^([A-G][b#]?)/` matches the start of `v`; the length of the match. */
  function RootLength(v: string): (n: nat)
    ensures n <= |v| && n <= 2
  {
    if |v| > 0 && 'A' <= v[0] <= 'G' then
      if |v| > 1 && (v[1] == 'b' || v[1] == '#') then 2 else 1
    else 0
  }

  /** The longest prefix without a line terminator (what `(.*)` captures). */
  function UpToLineTerminator(s: string): (r: string)
    ensures |r| <= |s| && r == s[..|r|] && NoLineTerminator(r)
    ensures |r| < |s| ==> IsLineTerminator(s[|r|])
  {
    if s == [] || IsLineTerminator(s[0]) then [] else [s[0]] + UpToLineTerminator(s[1..])
  }

  lemma UpToLineTerminatorKeeps(s: string)
    requires NoLineTerminator(s)
    ensures UpToLineTerminator(s) == s
  {
  }

  datatype RootSplit = RootSplit(root: string, rest: string)

  /**
   * `extractRoot`: the regex `/^([A-G][b#]?)(.*)/` (no end anchor). When it
   * matches, the root is the note letter with an optional accidental and the
   * rest runs up to the first line terminator; otherwise the whole value is
   * the root and the rest is empty.
   */
  function ExtractRoot(v: string): (r: RootSplit)
    ensures RootLength(v) > 0 ==> r.root == v[..RootLength(v)] && StartsWith(v, r.root + r.rest)
    ensures RootLength(v) > 0 && NoLineTerminator(v) ==> r.root + r.rest == v
    ensures RootLength(v) == 0 ==> r == RootSplit(v, "")
    ensures NoLineTerminator(r.rest)
    // the rest stops only at a line terminator or at the end of the value
    ensures RootLength(v) > 0 && RootLength(v) + |r.rest| < |v| ==> IsLineTerminator(v[RootLength(v) + |r.rest|])
  {
    var n := RootLength(v);
    if n > 0 then
      var rest := UpToLineTerminator(v[n..]);
      assert v[..n + |rest|] == v[..n] + rest;
      assert NoLineTerminator(v) ==> NoLineTerminator(v[n..]) && rest == v[n..];
      RootSplit(v[..n], rest)
    else RootSplit(v, "")
  }

  /**
   * `n` reduced into 0..11, the wrap-around of a table index; equal to the
   * Euclidean `n % 12` (`WrapIsMod`).
   */
  function Wrap(n: int): (r: int)
    ensures 0 <= r < 12
    decreases if n < 0 then 12 - n else n
  {
    if n < 0 then Wrap(n + 12) else if n >= 12 then Wrap(n - 12) else n
  }

  lemma {:induction false} WrapIsMod(n: int)
    ensures Wrap(n) == n % 12
    decreases if n < 0 then 12 - n else n
  {
    if n < 0 { WrapIsMod(n + 12); } else if n >= 12 { WrapIsMod(n - 12); }
  }

  /** One or two octaves above a table index wrap back to it. */
  lemma WrapOctaves(n: int)
    requires 0 <= n < 12
    ensures Wrap(n + 12) == n && Wrap(n + 24) == n
  {
    assert Wrap(n + 24) == Wrap(n + 12);
  }

  /** Wrapping forgets whole octaves: `Wrap(Wrap(n) + m) == Wrap(n + m)`. */
  lemma WrapAdd(n: int, m: int)
    ensures Wrap(Wrap(n) + m) == Wrap(n + m)
  {
    WrapIsMod(n);
    WrapIsMod(Wrap(n) + m);
    WrapIsMod(n + m);
    var q := n / 12;
    assert n == 12 * q + n % 12;
    assert (n % 12 + m) % 12 == (n + m - 12 * q) % 12 == (n + m) % 12;
  }

  lemma WrapCompose(idx: int, a: int, b: int)
    ensures Wrap(Wrap(idx + a + 12) + b + 12) == Wrap(idx + (a + b) + 12)
  {
    WrapAdd(idx + a + 12, b + 12);
    WrapIsMod(idx + a + 12 + b + 12);
    WrapIsMod(idx + (a + b) + 12);
  }

  /**
   * What `transposeChordValue` reads from a chord value: the pitch class of
   * its root and the rest after it, or nothing usable when the root is not a
   * name the note table knows.
   */
  datatype Reading = Recognised(pitch: int, rest: string) | Unrecognised

  function ReadChord(v: string): (r: Reading)
    ensures r.Recognised? ==> 0 <= r.pitch < 12 && r.rest == ExtractRoot(v).rest
    ensures r.Unrecognised? <==> NormalizeNote(ExtractRoot(v).root) == -1
  {
    var sp := ExtractRoot(v);
    var idx := NormalizeNote(sp.root);
    if idx == -1 then Unrecognised else Recognised(idx, sp.rest)
  }

  /** The chord's root is recognised by the note table. */
  predicate HasKnownRoot(v: string)
  {
    ReadChord(v).Recognised?
  }

  /**
   * `notes[pitch] + rest`: the table spelling of a pitch class followed by a
   * rest. The lookup walks down the table so that the solver does not unfold
   * a spelled chord back into its characters unless a proof asks for it
   * (`SpellIsTableEntry`).
   */
  function Spell(pitch: int, rest: string): string
    requires 0 <= pitch < 12
  {
    SpellFrom(Notes, pitch, rest)
  }

  function SpellFrom(table: seq<string>, k: nat, rest: string): string
    requires k < |table|
  {
    if k == 0 then table[0] + rest else SpellFrom(table[1..], k - 1, rest)
  }

  lemma {:induction false} SpellFromEntry(table: seq<string>, k: nat, rest: string)
    requires k < |table|
    ensures SpellFrom(table, k, rest) == table[k] + rest
  {
    if k > 0 {
      SpellFromEntry(table[1..], k - 1, rest);
    }
  }

  lemma SpellIsTableEntry(pitch: int, rest: string)
    requires 0 <= pitch < 12
    ensures Spell(pitch, rest) == Notes[pitch] + rest
  {
    SpellFromEntry(Notes, pitch, rest);
  }

  /**
   * `transposeChordValue`, with the wrap-around the `+12` bias was meant to
   * give for every step count: the index is the Euclidean remainder, in
   * 0..11 for any `steps`. Unrecognised roots pass through unchanged.
   */
  function TransposeChordValue(v: string, steps: int): (r: string)
  {
    match ReadChord(v)
    case Unrecognised => v
    case Recognised(pitch, rest) => Spell(Wrap(pitch + steps + 12), rest)
  }

  /** JavaScript's `%`: the remainder truncated toward zero (sign of the dividend). */
  function JsRemainder(a: int, n: int): (r: int)
    requires n > 0
    ensures -n < r < n
  {
    if a >= 0 then a % n else -((-a) % n)
  }

  /**
   * `transposeChordValue` as written: `(idx + steps + 12) % 12` with
   * JavaScript's truncating `%`, so below -12 steps the index goes negative,
   * `notes[newIdx]` is `undefined` and string concatenation spells it out.
   */
  function TransposeChordValueAsWritten(v: string, steps: int): (r: string)
  {
    match ReadChord(v)
    case Unrecognised => v
    case Recognised(pitch, rest) =>
      var newIdx := JsRemainder(pitch + steps + 12, 12);
      if newIdx >= 0 then Notes[newIdx] + rest else "undefined" + rest
  }

  /** For `steps >= -12` the index stays in 0..11 and the two definitions agree. */
  lemma AsWrittenAgreesInRange(v: string, steps: int)
    requires steps >= -12
    ensures TransposeChordValueAsWritten(v, steps) == TransposeChordValue(v, steps)
  {
    match ReadChord(v)
    case Unrecognised =>
    case Recognised(pitch, rest) =>
      WrapIsMod(pitch + steps + 12);
      SpellIsTableEntry(Wrap(pitch + steps + 12), rest);
      assert 0 <= JsRemainder(pitch + steps + 12, 12) == Wrap(pitch + steps + 12);
  }

  /** Thirteen steps down from C: the source yields the text "undefined". */
  lemma AsWrittenBelowRange()
    ensures TransposeChordValueAsWritten("C", -13) == "undefined"
    ensures TransposeChordValue("C", -13) == "B"
  {
    assert ExtractRoot("C").root == "C";
    NormalizeTableNote(0);
    assert JsRemainder(-1, 12) == -1;
  }

  /**
   * An unrecognised root (e.g. "N.C.") is left alone by any step count; a
   * recognised one becomes a sharp-spelled table note followed by the
   * original rest (so the bass of "G/B" stays "B").
   */
  lemma TransposeChordValueShape(v: string, steps: int)
    ensures !HasKnownRoot(v) ==> TransposeChordValue(v, steps) == v
    ensures HasKnownRoot(v) ==>
      exists k :: 0 <= k < 12 && TransposeChordValue(v, steps) == Notes[k] + ExtractRoot(v).rest
    ensures HasKnownRoot(v) && NoLineTerminator(v) ==>
      exists k :: 0 <= k < 12 && TransposeChordValue(v, steps) == Notes[k] + v[|ExtractRoot(v).root|..]
  {
    if HasKnownRoot(v) {
      var sp := ExtractRoot(v);
      var k := Wrap(ReadChord(v).pitch + steps + 12);
      SpellIsTableEntry(k, sp.rest);
      assert TransposeChordValue(v, steps) == Notes[k] + sp.rest;
      if NoLineTerminator(v) {
        assert sp.rest == v[|sp.root|..];
      }
    }
  }

  lemma NotesShape(k: int)
    requires 0 <= k < 12
    ensures 1 <= |Notes[k]| <= 2 && 'A' <= Notes[k][0] <= 'G'
    ensures |Notes[k]| == 2 ==> Notes[k][1] == '#'
    ensures NoLineTerminator(Notes[k])
  {
  }

  /**
   * A rest that reads back as itself after a table note: no line terminator,
   * and no leading 'b' or '#' that `extractRoot` would take as an accidental.
   */
  predicate PlainRest(rest: string)
  {
    NoLineTerminator(rest) && (rest == [] || (rest[0] != 'b' && rest[0] != '#'))
  }

  /** The rest after the root begins with an accidental character. */
  predicate AccidentalAfterRoot(v: string)
  {
    var rest := ExtractRoot(v).rest;
    rest != [] && (rest[0] == 'b' || rest[0] == '#')
  }

  /**
   * Spelling and reading are inverse: reading a table note followed by a
   * plain rest gives back that pitch class and that rest.
   */
  lemma ReadSpelled(pitch: int, rest: string)
    requires 0 <= pitch < 12 && PlainRest(rest)
    ensures ReadChord(Spell(pitch, rest)) == Recognised(pitch, rest)
  {
    var w := Spell(pitch, rest);
    SpellIsTableEntry(pitch, rest);
    NotesShape(pitch);
    assert w[..|Notes[pitch]|] == Notes[pitch];
    assert w[|Notes[pitch]|..] == rest;
    assert RootLength(w) == |Notes[pitch]|;
    UpToLineTerminatorKeeps(rest);
    NormalizeTableNote(pitch);
  }

  /**
   * Composition: transposing by `a` and then by `b` equals transposing by
   * `a + b` (mod 12), for every chord whose rest does not begin with an
   * accidental character; unrecognised roots are unchanged on both sides.
   */
  lemma TransposeCompose(v: string, a: int, b: int)
    requires !AccidentalAfterRoot(v)
    ensures TransposeChordValue(TransposeChordValue(v, a), b) == TransposeChordValue(v, a + b)
  {
    match ReadChord(v)
    case Unrecognised =>
    case Recognised(pitch, rest) =>
      var k := Wrap(pitch + a + 12);
      TransposeReading(v, a, pitch, rest);
      ReadSpelled(k, rest);
      TransposeReading(Spell(k, rest), b, k, rest);
      TransposeReading(v, a + b, pitch, rest);
      WrapCompose(pitch, a, b);
  }

  lemma TransposeReading(v: string, steps: int, pitch: int, rest: string)
    requires ReadChord(v) == Recognised(pitch, rest)
    ensures TransposeChordValue(v, steps) == Spell(Wrap(pitch + steps + 12), rest)
  {
  }

  /**
   * A recognised chord becomes the table entry its pitch class moved by
   * `steps` semitones lands on (modulo 12), followed by its rest unchanged.
   */
  lemma TransposeRecognised(v: string, steps: int, pitch: int, rest: string)
    requires ReadChord(v) == Recognised(pitch, rest)
    ensures 0 <= (pitch + steps) % 12 < 12
    ensures TransposeChordValue(v, steps) == Notes[(pitch + steps) % 12] + rest
  {
    TransposeReading(v, steps, pitch, rest);
    SpellIsTableEntry(Wrap(pitch + steps + 12), rest);
    WrapIsMod(pitch + steps + 12);
    assert (pitch + steps + 12) % 12 == (pitch + steps) % 12;
  }

  /** Why the accidental condition is needed: "C#b" up 1 then 1 is "D", up 2 is "D#b". */
  lemma ComposeNeedsPlainRest()
    ensures TransposeChordValue(TransposeChordValue("C#b", 1), 1) == "D"
    ensures TransposeChordValue("C#b", 2) == "D#b"
  {
    assert ExtractRoot("C#b") == RootSplit("C#", "b");
    NormalizeTableNote(1);
    TransposeReading("C#b", 1, 1, "b");
    TransposeReading("C#b", 2, 1, "b");
    WrapOctaves(2);
    WrapOctaves(3);
    SpellIsTableEntry(2, "b");
    SpellIsTableEntry(3, "b");
    assert TransposeChordValue("C#b", 1) == "Db";
    assert ExtractRoot("Db") == RootSplit("Db", "");
    assert NormalizeNote("Db") == 1;
    TransposeReading("Db", 1, 1, "");
    SpellIsTableEntry(2, "");
  }

  /** A zero step keeps a natural or sharp spelling of the root. */
  lemma ZeroStep(v: string)
    requires ExtractRoot(v).root in Notes && NoLineTerminator(v)
    ensures TransposeChordValue(v, 0) == v
  {
    var sp := ExtractRoot(v);
    NormalizeNoteRecognised(sp.root);
    var idx := NormalizeNote(sp.root);
    WrapOctaves(idx);
    SpellIsTableEntry(idx, sp.rest);
    assert RootLength(v) > 0;
    assert sp.root + sp.rest == v;
  }

  /**
   * ... but a zero step respells a flat root as its sharp ("Bbm7" becomes
   * "A#m7"), so it is not the identity on flat-spelled chords.
   */
  lemma ZeroStepRespellsFlat(v: string)
    requires ExtractRoot(v).root in Flats
    ensures TransposeChordValue(v, 0) == FlatToSharp(ExtractRoot(v).root).value + ExtractRoot(v).rest
    ensures TransposeChordValue(v, 0) != v
  {
    var sp := ExtractRoot(v);
    FlatPitch(sp.root);
    NormalizeNoteRecognised(sp.root);
    var idx := NormalizeNote(sp.root);
    WrapOctaves(idx);
    TransposeReading(v, 0, idx, sp.rest);
    SpellIsTableEntry(idx, sp.rest);
    assert RootLength(v) == 2;
    assert TransposeChordValue(v, 0)[1] == '#' != v[1];
  }

  // ---------------------------------------------------------------------
  // Structure-preserving song transposition
  // ---------------------------------------------------------------------

  function TransposePart(p: LinePart, steps: int): LinePart
  {
    match p
    case Chord(v) => Chord(TransposeChordValue(v, steps))
    case _ => p
  }

  function TransposeLine(line: Line, steps: int): Line
  {
    Line(seq(|line.parts|, i requires 0 <= i < |line.parts| => TransposePart(line.parts[i], steps)))
  }

  function TransposeSection(section: Section, steps: int): Section
  {
    Section(section.kind, seq(|section.lines|, i requires 0 <= i < |section.lines| => TransposeLine(section.lines[i], steps)))
  }

  /** `transposeSong`: a new song with every chord transposed. */
  function TransposeSong(song: Song, steps: int): Song
  {
    Song(song.metadata, seq(|song.sections|, i requires 0 <= i < |song.sections| => TransposeSection(song.sections[i], steps)))
  }

  /** Two parts agree off chords: both chords, or the very same non-chord part. */
  predicate PartAgrees(p: LinePart, q: LinePart)
  {
    (p.Chord? <==> q.Chord?) && (!p.Chord? ==> p == q)
  }

  predicate LineAgrees(a: Line, b: Line)
  {
    |a.parts| == |b.parts| && forall k :: 0 <= k < |a.parts| ==> PartAgrees(a.parts[k], b.parts[k])
  }

  predicate SectionAgrees(a: Section, b: Section)
  {
    a.kind == b.kind && |a.lines| == |b.lines|
    && forall j :: 0 <= j < |a.lines| ==> LineAgrees(a.lines[j], b.lines[j])
  }

  /**
   * Only chord values may differ: same metadata, same section count and
   * types, same line and part counts, every lyric and annotation identical.
   */
  predicate OnlyChordsDiffer(a: Song, b: Song)
  {
    a.metadata == b.metadata && |a.sections| == |b.sections|
    && forall i :: 0 <= i < |a.sections| ==> SectionAgrees(a.sections[i], b.sections[i])
  }

  /** Every chord part of the song satisfies `P`. */
  predicate AllChords(song: Song, P: string -> bool)
  {
    forall i, j, k ::
      (0 <= i < |song.sections| && 0 <= j < |song.sections[i].lines| && 0 <= k < |song.sections[i].lines[j].parts|
       && song.sections[i].lines[j].parts[k].Chord?) ==> P(song.sections[i].lines[j].parts[k].value)
  }

  /** Transposition changes only chords, and changes each one by `TransposeChordValue`. */
  lemma TransposeSongPreservesStructure(song: Song, steps: int)
    ensures OnlyChordsDiffer(song, TransposeSong(song, steps))
    ensures forall i, j, k ::
      (0 <= i < |song.sections| && 0 <= j < |song.sections[i].lines| && 0 <= k < |song.sections[i].lines[j].parts|
       && song.sections[i].lines[j].parts[k].Chord?) ==>
        TransposeSong(song, steps).sections[i].lines[j].parts[k]
          == Chord(TransposeChordValue(song.sections[i].lines[j].parts[k].value, steps))
  {
  }

  lemma TransposeLineCompose(line: Line, a: int, b: int)
    requires forall k :: 0 <= k < |line.parts| && line.parts[k].Chord? ==> !AccidentalAfterRoot(line.parts[k].value)
    ensures TransposeLine(TransposeLine(line, a), b) == TransposeLine(line, a + b)
  {
    forall k | 0 <= k < |line.parts|
      ensures TransposePart(TransposePart(line.parts[k], a), b) == TransposePart(line.parts[k], a + b)
    {
      if line.parts[k].Chord? {
        TransposeCompose(line.parts[k].value, a, b);
      }
    }
  }

  lemma TransposeSectionCompose(section: Section, a: int, b: int)
    requires forall j, k ::
      (0 <= j < |section.lines| && 0 <= k < |section.lines[j].parts| && section.lines[j].parts[k].Chord?)
      ==> !AccidentalAfterRoot(section.lines[j].parts[k].value)
    ensures TransposeSection(TransposeSection(section, a), b) == TransposeSection(section, a + b)
  {
    forall j | 0 <= j < |section.lines|
      ensures TransposeLine(TransposeLine(section.lines[j], a), b) == TransposeLine(section.lines[j], a + b)
    {
      TransposeLineCompose(section.lines[j], a, b);
    }
  }

  /** Song-level composition, for songs whose chords satisfy the accidental condition. */
  lemma TransposeSongCompose(song: Song, a: int, b: int)
    requires AllChords(song, v => !AccidentalAfterRoot(v))
    ensures TransposeSong(TransposeSong(song, a), b) == TransposeSong(song, a + b)
  {
    forall i | 0 <= i < |song.sections|
      ensures TransposeSection(TransposeSection(song.sections[i], a), b) == TransposeSection(song.sections[i], a + b)
    {
      TransposeSectionCompose(song.sections[i], a, b);
    }
  }

  /** Transposing by 0 is the identity on songs whose chords are table-spelled or unrecognised. */
  lemma TransposeSongZero(song: Song)
    requires AllChords(song, v => NoLineTerminator(v) && (ExtractRoot(v).root in Notes || !HasKnownRoot(v)))
    ensures TransposeSong(song, 0) == song
  {
    forall i, j, k |
      0 <= i < |song.sections| && 0 <= j < |song.sections[i].lines| && 0 <= k < |song.sections[i].lines[j].parts|
      ensures TransposePart(song.sections[i].lines[j].parts[k], 0) == song.sections[i].lines[j].parts[k]
    {
      var p := song.sections[i].lines[j].parts[k];
      if p.Chord? {
        if HasKnownRoot(p.value) {
          ZeroStep(p.value);
        } else {
          TransposeChordValueShape(p.value, 0);
        }
      }
    }
    forall i | 0 <= i < |song.sections| ensures TransposeSection(song.sections[i], 0) == song.sections[i] {
      forall j | 0 <= j < |song.sections[i].lines|
        ensures TransposeLine(song.sections[i].lines[j], 0) == song.sections[i].lines[j]
      {
      }
    }
  }

  // ---------------------------------------------------------------------
  // Note lookup helpers used by the viewer
  // ---------------------------------------------------------------------

  function GetNoteIndex(note: string): (r: int)
    ensures -1 <= r < 12
  {
    NormalizeNote(note)
  }

  /** `notes[index] || 'C'`: the table entry for 0..11 and "C" for any other index. */
  function GetNoteByIndex(index: int): (r: string)
    ensures 0 <= index < 12 ==> r == Notes[index]
    ensures !(0 <= index < 12) ==> r == "C"
  {
    if 0 <= index < 12 then Notes[index] else "C"
  }

  /** Index and name lookups are inverse on the table. */
  lemma NoteIndexRoundTrip(i: int, note: string)
    ensures 0 <= i < 12 ==> GetNoteIndex(GetNoteByIndex(i)) == i
    ensures note in Notes ==> GetNoteByIndex(GetNoteIndex(note)) == note
  {
    if 0 <= i < 12 { NormalizeTableNote(i); }
    NormalizeNoteRecognised(note);
  }

  /**
   * `getTransposeSteps`: the upward distance in semitones from one key to
   * another, or 0 if either name is unrecognised.
   */
  function GetTransposeSteps(fromNote: string, toNote: string): (r: int)
    ensures 0 <= r < 12
    ensures NormalizeNote(fromNote) == -1 || NormalizeNote(toNote) == -1 ==> r == 0
    ensures NormalizeNote(fromNote) >= 0 && NormalizeNote(toNote) >= 0 ==>
      (NormalizeNote(fromNote) + r == NormalizeNote(toNote) || NormalizeNote(fromNote) + r == NormalizeNote(toNote) + 12)
  {
    var fromIdx := NormalizeNote(fromNote);
    var toIdx := NormalizeNote(toNote);
    if fromIdx == -1 || toIdx == -1 then 0
    else
      var steps := toIdx - fromIdx;
      if steps < 0 then steps + 12 else steps
  }

  /**
   * The steps take a chord rooted at the source key to the target key: the
   * transposed chord's root is the table spelling of the target.
   */
  lemma TransposeStepsReachTarget(fromNote: string, toNote: string, suffix: string)
    requires fromNote in Notes || fromNote in Flats
    requires NormalizeNote(toNote) >= 0
    requires NoLineTerminator(suffix) && (suffix == [] || (suffix[0] != 'b' && suffix[0] != '#'))
    ensures TransposeChordValue(fromNote + suffix, GetTransposeSteps(fromNote, toNote))
      == Notes[NormalizeNote(toNote)] + suffix
  {
    NormalizeNoteRecognised(fromNote);
    var v := fromNote + suffix;
    assert v[..|fromNote|] == fromNote && v[|fromNote|..] == suffix;
    assert RootLength(v) == |fromNote|;
    UpToLineTerminatorKeeps(suffix);
    assert ExtractRoot(v) == RootSplit(fromNote, suffix);
    WrapOctaves(NormalizeNote(toNote));
    SpellIsTableEntry(NormalizeNote(toNote), suffix);
  }
}

