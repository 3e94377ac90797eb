/**
 * The main loop of `parseChord` with the aliasing of the original code.
 *
 * The start directives push the open section object itself, then reset its
 * type and lines in place; every later change to the open section shows
 * through every such entry. The end directives push a shallow copy, whose
 * lines array the open section stops using at once, so that copy is a
 * snapshot. An entry is therefore either a snapshot or the open section,
 * read at the end.
 */
module ParserAliasing {
  import opened SongTypes
  import opened Parser

  /** An entry of `song.sections`: a section that no longer changes, or the open section object. */
  datatype Entry = Snapshot(section: Section) | Live

  datatype AliasState = AliasState(metadata: Metadata, entries: seq<Entry>, current: Section)

  const AliasInit: AliasState := AliasState(map[], [], Section(Verse, []))

  /** `handleDirective` as written: a start directive pushes the open section by reference. */
  function ApplyDirectiveAsWritten(st: AliasState, name: string, value: string): AliasState
  {
    match StartKind(name)
    case Some(kind) =>
      var pushed := if |st.current.lines| > 0 then st.entries + [Live] else st.entries;
      AliasState(st.metadata, pushed, Section(kind, []))
    case None =>
      if IsEndDirective(name) then
        AliasState(st.metadata, st.entries + [Snapshot(st.current)], Section(st.current.kind, []))
      else if name == "comment" then
        AliasState(st.metadata, st.entries + [Snapshot(CommentSection(value))], st.current)
      else if name == ProtoKey then
        st
      else
        AliasState(st.metadata[name := value], st.entries, st.current)
  }

  function StepAsWritten(st: AliasState, c: LineClass): AliasState
  {
    match c
    case Blank => st
    case DirectiveLine(name, value) => ApplyDirectiveAsWritten(st, name, value)
    case ContentLine(line) => AliasState(st.metadata, st.entries, Section(st.current.kind, st.current.lines + [line]))
  }

  function RunAsWritten(st: AliasState, cs: seq<LineClass>): AliasState
  {
    if cs == [] then st else StepAsWritten(RunAsWritten(st, cs[..|cs| - 1]), cs[|cs| - 1])
  }

  /** The sections the caller sees: every reference to the open section shows its final state. */
  function Resolve(entries: seq<Entry>, current: Section): (ss: seq<Section>)
    ensures |ss| == |entries|
  {
    seq(|entries|, k requires 0 <= k < |entries| => match entries[k] case Snapshot(s) => s case Live => current)
  }

  /** The final push, by reference too. */
  function FinishAsWritten(st: AliasState): Song
  {
    var entries := if |st.current.lines| > 0 then st.entries + [Live] else st.entries;
    Song(st.metadata, Resolve(entries, st.current))
  }

  /** `parseChord` as written. */
  function ParseAsWritten(input: string): Song
  {
    FinishAsWritten(RunAsWritten(AliasInit, ClassifyAll(Preprocess(input))))
  }

  lemma RunAsWrittenSnoc(cs: seq<LineClass>, c: LineClass)
    ensures RunAsWritten(AliasInit, cs + [c]) == StepAsWritten(RunAsWritten(AliasInit, cs), c)
  {
    assert (cs + [c])[..|cs|] == cs;
  }

  lemma RunSnocAt(cs: seq<LineClass>, c: LineClass)
    ensures Run(Init, cs + [c]) == Step(Run(Init, cs), c)
  {
    assert (cs + [c])[..|cs|] == cs;
  }

  /**
   * A verse line, a start of chorus, then a chorus line: as written the
   * verse line is lost and the chorus appears twice, where copying the
   * section on close keeps both.
   */
  lemma AliasingLosesVerse(x: Line, y: Line, v: string)
    ensures var cs := [ContentLine(x), DirectiveLine("start_of_chorus", v), ContentLine(y)];
      FinishAsWritten(RunAsWritten(AliasInit, cs)).sections == [Section(Chorus, [y]), Section(Chorus, [y])]
      && Finish(Run(Init, cs)).sections == [Section(Verse, [x]), Section(Chorus, [y])]
  {
    var c1, c2, c3 := ContentLine(x), DirectiveLine("start_of_chorus", v), ContentLine(y);
    assert [c1] == [] + [c1];
    assert [c1, c2] == [c1] + [c2];
    assert [c1, c2, c3] == [c1, c2] + [c3];
    RunAsWrittenSnoc([], c1);
    RunAsWrittenSnoc([c1], c2);
    RunAsWrittenSnoc([c1, c2], c3);
    assert RunAsWritten(AliasInit, [c1, c2, c3]) == AliasState(map[], [Live], Section(Chorus, [y]));
    RunSnocAt([], c1);
    RunSnocAt([c1], c2);
    RunSnocAt([c1, c2], c3);
    assert Run(Init, [c1]) == ParseState(map[], [], Section(Verse, [x]));
    assert [] + [Section(Verse, [x])] == [Section(Verse, [x])];
    assert Run(Init, [c1, c2]) == ParseState(map[], [Section(Verse, [x])], Section(Chorus, []));
    assert Run(Init, [c1, c2, c3]) == ParseState(map[], [Section(Verse, [x])], Section(Chorus, [y]));
  }

  /** A line the preprocessing keeps as it is and the loop reads as one lyric. */
  predicate PlainLine(s: string)
  {
    s != [] && '\n' !in s && '[' !in s && s[0] != '{' && s[0] != '#'
    && !Text.IsSpace(s[0]) && !Text.IsSpace(s[|s| - 1]) && s[|s| - 1] != '\\'
  }

  /**
   * The same on text: a lyric line, a line read as `start_of_chorus` (such
   * as `{start_of_chorus}`) and another lyric line give, as written, two
   * choruses holding the second line and no verse.
   */
  lemma AliasingOnText(a: string, d: string, b: string, v: string)
    requires PlainLine(a) && PlainLine(b) && '\n' !in d
    requires Classify(d) == DirectiveLine("start_of_chorus", v)
    ensures ParseAsWritten(a + "\n" + (d + "\n" + b)).sections
      == [Section(Chorus, [Line([Lyric(b)])]), Section(Chorus, [Line([Lyric(b)])])]
    ensures Parse(a + "\n" + (d + "\n" + b)).sections
      == [Section(Verse, [Line([Lyric(a)])]), Section(Chorus, [Line([Lyric(b)])])]
  {
    ClassifyMeaning(d);
    KeptLine(a);
    KeptLine(d);
    KeptLine(b);
    assert DropCR(b) == b;
    ThreeLines(a, d, b);
    ClassifyAllThree(a, d, b);
    ClassifyPlain(a);
    ClassifyPlain(b);
    var cs := ClassifyAll([a, d, b]);
    assert cs == [ContentLine(Line([Lyric(a)])), DirectiveLine("start_of_chorus", v), ContentLine(Line([Lyric(b)]))];
    AliasingLosesVerse(Line([Lyric(a)]), Line([Lyric(b)]), v);
  }

  lemma ClassifyAllThree(a: string, d: string, b: string)
    ensures ClassifyAll([a, d, b]) == [Classify(a), Classify(d), Classify(b)]
  {
    var ls := [a, d, b];
    assert ls[0] == a && ls[1] == d && ls[2] == b;
  }

  /** A line kept as it is by preprocessing. */
  lemma KeptLine(s: string)
    requires s != [] && s[0] != '#' && !Text.IsSpace(s[0]) && !Text.IsSpace(s[|s| - 1]) && s[|s| - 1] != '\\'
    ensures PreprocessOne(DropCR(s)) == [s]
  {
    assert DropCR(s) == s;
    assert StripBackslash(s) == s;
    TrimKeeps(s);
    assert !IsCommentLine(s);
  }

  /** A string with no whitespace at either end trims to itself. */
  lemma TrimKeeps(s: string)
    requires s != [] && !Text.IsSpace(s[0]) && !Text.IsSpace(s[|s| - 1])
    ensures Text.Trim(s) == s
  {
    TrimStartKeeps(s);
  }

  /** Three lines that preprocessing keeps one by one come out as they are. */
  lemma ThreeLines(a: string, d: string, b: string)
    requires '\n' !in a && '\n' !in d && '\n' !in b
    requires PreprocessOne(DropCR(a)) == [a] && PreprocessOne(DropCR(d)) == [d] && PreprocessOne(b) == [b]
    ensures Preprocess(a + "\n" + (d + "\n" + b)) == [a, d, b]
  {
    PreprocessLines(a, d + "\n" + b);
    PreprocessLines(d, b);
    PreprocessSingle(b);
    assert [a] + ([d] + [b]) == [a, d, b];
  }

  lemma ClassifyPlain(s: string)
    requires PlainLine(s)
    ensures Classify(s) == ContentLine(Line([Lyric(s)]))
  {
    PlainLyricLine(s);
    NotBraced(s);
    TrimKeeps(s);
  }

  /** No line of the input is a start directive. */
  predicate NoStart(cs: seq<LineClass>)
  {
    forall k :: 0 <= k < |cs| ==> !(cs[k].DirectiveLine? && StartKind(cs[k].name).Some?)
  }

  function Snapshots(ss: seq<Section>): (es: seq<Entry>)
    ensures |es| == |ss|
  {
    seq(|ss|, k requires 0 <= k < |ss| => Snapshot(ss[k]))
  }

  /** Without start directives every entry is a snapshot of the section the copying loop closes. */
  lemma {:induction false} RunAgrees(cs: seq<LineClass>)
    requires NoStart(cs)
    ensures RunAsWritten(AliasInit, cs)
      == AliasState(Run(Init, cs).metadata, Snapshots(Run(Init, cs).sections), Run(Init, cs).current)
  {
    if cs != [] {
      var init := cs[..|cs| - 1];
      assert forall k :: 0 <= k < |init| ==> init[k] == cs[k];
      RunAgrees(init);
      var st := Run(Init, init);
      var c := cs[|cs| - 1];
      if c.DirectiveLine? && IsEndDirective(c.name) {
        assert Snapshots(st.sections + [st.current]) == Snapshots(st.sections) + [Snapshot(st.current)];
      } else if c.DirectiveLine? && c.name == "comment" {
        assert Snapshots(st.sections + [CommentSection(c.value)]) == Snapshots(st.sections) + [Snapshot(CommentSection(c.value))];
      }
    }
  }

  /** Closing the song agrees too when every entry is a snapshot. */
  lemma FinishAgrees(st: ParseState)
    ensures FinishAsWritten(AliasState(st.metadata, Snapshots(st.sections), st.current)) == Finish(st)
  {
    if |st.current.lines| > 0 {
      assert Resolve(Snapshots(st.sections) + [Live], st.current) == st.sections + [st.current];
    } else {
      assert Resolve(Snapshots(st.sections), st.current) == st.sections;
    }
  }

  /** So the aliasing only matters when the input holds a start directive. */
  lemma ParseAgrees(input: string)
    requires NoStart(ClassifyAll(Preprocess(input)))
    ensures ParseAsWritten(input) == Parse(input)
  {
    var cs := ClassifyAll(Preprocess(input));
    RunAgrees(cs);
    FinishAgrees(Run(Init, cs));
  }
}
