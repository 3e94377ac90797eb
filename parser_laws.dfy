/**
 * What the main loop of `parseChord` guarantees about the song it builds:
 * no content line is lost or reordered, a closed section never changes
 * again, and each metadata key holds the value of its last directive.
 */
module ParserLaws {
  import opened SongTypes
  import opened Parser

  /** The lines of the sections that are not comments, in order. */
  function BodyLines(ss: seq<Section>): seq<Line>
  {
    if ss == [] then []
    else BodyLines(ss[..|ss| - 1]) + (if ss[|ss| - 1].kind == Comment then [] else ss[|ss| - 1].lines)
  }

  /** The parsed content lines among the classified lines, in order. */
  function ContentLines(cs: seq<LineClass>): seq<Line>
  {
    if cs == [] then []
    else ContentLines(cs[..|cs| - 1]) + (if cs[|cs| - 1].ContentLine? then [cs[|cs| - 1].line] else [])
  }

  lemma BodyLinesSnoc(ss: seq<Section>, s: Section)
    ensures BodyLines(ss + [s]) == BodyLines(ss) + (if s.kind == Comment then [] else s.lines)
  {
    assert (ss + [s])[..|ss|] == ss;
  }

  lemma ContentLinesSnoc(cs: seq<LineClass>, c: LineClass)
    ensures ContentLines(cs + [c]) == ContentLines(cs) + (if c.ContentLine? then [c.line] else [])
  {
    assert (cs + [c])[..|cs|] == cs;
  }

  /**
   * One step of the loop moves lines between the open section and the
   * closed ones but never drops or reorders them, and adds the line of a
   * content line at the end; the open section is never a comment.
   */
  lemma StepKeepsContent(st: ParseState, c: LineClass)
    requires st.current.kind != Comment
    ensures Step(st, c).current.kind != Comment
    ensures BodyLines(Step(st, c).sections) + Step(st, c).current.lines
      == BodyLines(st.sections) + st.current.lines + (if c.ContentLine? then [c.line] else [])
  {
    var before := BodyLines(st.sections) + st.current.lines;
    match c
    case Blank =>
      assert before + [] == before;
    case ContentLine(line) =>
      assert BodyLines(st.sections) + (st.current.lines + [line]) == before + [line];
    case DirectiveLine(name, value) =>
      assert before + [] == before;
      if StartKind(name).Some? {
        if |st.current.lines| > 0 {
          BodyLinesSnoc(st.sections, st.current);
        }
      } else if IsEndDirective(name) {
        BodyLinesSnoc(st.sections, st.current);
      } else if name == "comment" {
        BodyLinesSnoc(st.sections, CommentSection(value));
      }
  }

  /** After any prefix of the input, the closed and open sections hold exactly its content lines. */
  lemma {:induction false} RunKeepsContent(cs: seq<LineClass>)
    ensures Run(Init, cs).current.kind != Comment
    ensures BodyLines(Run(Init, cs).sections) + Run(Init, cs).current.lines == ContentLines(cs)
  {
    if cs != [] {
      var init := cs[..|cs| - 1];
      var c := cs[|cs| - 1];
      RunKeepsContent(init);
      StepKeepsContent(Run(Init, init), c);
      ContentLinesSnoc(init, c);
      assert init + [c] == cs;
    }
  }

  /**
   * No content is lost: the lines of the non-comment sections of the parsed
   * song are the parsed content lines of the input, in input order.
   */
  lemma ParseKeepsContent(input: string)
    ensures BodyLines(Parse(input).sections) == ContentLines(ClassifyAll(Preprocess(input)))
  {
    var st := Run(Init, ClassifyAll(Preprocess(input)));
    RunKeepsContent(ClassifyAll(Preprocess(input)));
    if |st.current.lines| > 0 {
      BodyLinesSnoc(st.sections, st.current);
    } else {
      assert st.current.lines == [];
      assert BodyLines(st.sections) + [] == BodyLines(st.sections);
    }
  }

  /** A step only appends sections. */
  lemma StepExtends(st: ParseState, c: LineClass)
    ensures st.sections <= Step(st, c).sections
  {
  }

  /** A section, once closed, is never changed by the rest of the input. */
  lemma {:induction false} RunExtends(cs: seq<LineClass>, i: nat)
    requires i <= |cs|
    ensures Run(Init, cs[..i]).sections <= Run(Init, cs).sections
    decreases |cs|
  {
    if i < |cs| {
      var init := cs[..|cs| - 1];
      assert cs[..i] == init[..i];
      RunExtends(init, i);
      StepExtends(Run(Init, init), cs[|cs| - 1]);
    } else {
      assert cs[..i] == cs;
    }
  }

  /** A line that stores `key` in the metadata. */
  predicate SetsKey(c: LineClass, key: string)
  {
    c.DirectiveLine? && c.name == key && IsMetadataName(key)
  }

  /** Only a metadata directive for `key` changes the entry for `key`. */
  lemma StepMetadata(st: ParseState, c: LineClass, key: string)
    ensures SetsKey(c, key) ==> key in Step(st, c).metadata && Step(st, c).metadata[key] == c.value
    ensures !SetsKey(c, key) ==>
      (key in Step(st, c).metadata <==> key in st.metadata)
      && (key in st.metadata ==> Step(st, c).metadata[key] == st.metadata[key])
  {
  }

  /** A key is present exactly when some metadata directive sets it. */
  lemma {:induction false} MetadataKeys(cs: seq<LineClass>, key: string)
    ensures key in Run(Init, cs).metadata <==> exists k :: 0 <= k < |cs| && SetsKey(cs[k], key)
  {
    if cs != [] {
      var init := cs[..|cs| - 1];
      var c := cs[|cs| - 1];
      MetadataKeys(init, key);
      StepMetadata(Run(Init, init), c, key);
      if exists k :: 0 <= k < |init| && SetsKey(init[k], key) {
        var k :| 0 <= k < |init| && SetsKey(init[k], key);
        assert cs[k] == init[k];
      }
      if exists k :: 0 <= k < |cs| && SetsKey(cs[k], key) {
        var k :| 0 <= k < |cs| && SetsKey(cs[k], key);
        if k < |init| {
          assert init[k] == cs[k];
        }
      }
    }
  }

  /** The last directive for a key wins: later lines that do not set it leave it alone. */
  lemma {:induction false} MetadataLastWins(cs: seq<LineClass>, key: string, k: nat)
    requires k < |cs| && SetsKey(cs[k], key)
    requires forall m :: k < m < |cs| ==> !SetsKey(cs[m], key)
    ensures key in Run(Init, cs).metadata && Run(Init, cs).metadata[key] == cs[k].value
  {
    var init := cs[..|cs| - 1];
    var c := cs[|cs| - 1];
    StepMetadata(Run(Init, init), c, key);
    if k < |init| {
      forall m | k < m < |init|
        ensures !SetsKey(init[m], key)
      {
        assert init[m] == cs[m];
      }
      MetadataLastWins(init, key, k);
    }
  }

  /** The song carries the loop's metadata unchanged. */
  lemma ParseMetadata(input: string, key: string)
    ensures key in Parse(input).metadata <==>
      exists k :: 0 <= k < |ClassifyAll(Preprocess(input))| && SetsKey(ClassifyAll(Preprocess(input))[k], key)
  {
    MetadataKeys(ClassifyAll(Preprocess(input)), key);
  }

  /**
   * An end directive appends the open section even when it has no line: a
   * start directive directly followed by an end directive gives one empty
   * section of the started type.
   */
  lemma EmptyPairKeepsSection(kind: SectionType, start: string, end: string, v: string, w: string)
    requires StartKind(start) == Some(kind) && IsEndDirective(end)
    ensures Finish(Run(Init, [DirectiveLine(start, v), DirectiveLine(end, w)])).sections == [Section(kind, [])]
  {
    var c1, c2 := DirectiveLine(start, v), DirectiveLine(end, w);
    assert [c1, c2][..1] == [c1] && [c1][..0] == [];
    assert Run(Init, [c1]) == ParseState(map[], [], Section(kind, []));
    assert Run(Init, [c1, c2]) == ParseState(map[], [Section(kind, [])], Section(kind, []));
  }

  /**
   * A `{__proto__:...}` directive changes nothing, and no parse ever holds a
   * `__proto__` metadata entry, whatever the input.
   */
  lemma ProtoDirectiveIgnored(st: ParseState, v: string, input: string)
    ensures Step(st, DirectiveLine(ProtoKey, v)) == st
    ensures ProtoKey !in Parse(input).metadata
  {
    ParseMetadata(input, ProtoKey);
  }

  /** `soc` and `chorus` are not section directives: like any unknown name they only set metadata. */
  lemma ShortNamesAreMetadata(st: ParseState, v: string)
    ensures Step(st, DirectiveLine("soc", v)) == st.(metadata := st.metadata["soc" := v])
    ensures Step(st, DirectiveLine("chorus", v)) == st.(metadata := st.metadata["chorus" := v])
  {
  }
}
