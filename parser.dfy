/**
 * The ChordPro line parser: preprocessing of the raw text into lines, the
 * `{name:value}` directive syntax, the `[chord]` tokenizer, root/suffix
 * splitting, the main loop with its open section, and the simpler
 * alternative parser `parseCho`.
 *
 * Sections are kept as values and copied when they are closed; the
 * by-reference behaviour of the start directives is in `ParserAliasing`.
 */
module Parser {
  import opened SongTypes
  import opened Text
  import MusicUtils

  // ---------------------------------------------------------------------
  // Preprocessing
  // ---------------------------------------------------------------------

  /** `split("\n")`: the pieces between line feeds; there is always at least one. */
  function SplitLF(s: string): (r: seq<string>)
    ensures |r| >= 1
    ensures forall k :: 0 <= k < |r| ==> '\n' !in r[k]
  {
    if s == [] then [""]
    else
      var rest := SplitLF(s[1..]);
      if s[0] == '\n' then [""] + rest
      else [[s[0]] + rest[0]] + rest[1..]
  }

  /** `join("\n")`. */
  function JoinLF(ps: seq<string>): string
    requires |ps| >= 1
  {
    if |ps| == 1 then ps[0] else ps[0] + "\n" + JoinLF(ps[1..])
  }

  /** Splitting on line feeds loses nothing: joining the pieces gives the text back. */
  lemma {:induction false} JoinSplitLF(s: string)
    ensures JoinLF(SplitLF(s)) == s
  {
    if s != [] {
      var rest := SplitLF(s[1..]);
      JoinSplitLF(s[1..]);
      if s[0] == '\n' {
        assert ([""] + rest)[1..] == rest;
      } else if |rest| > 1 {
        var ps := [[s[0]] + rest[0]] + rest[1..];
        assert ps[1..] == rest[1..];
        assert JoinLF(rest) == rest[0] + "\n" + JoinLF(rest[1..]);
      }
    }
  }

  /** ... and joining pieces without line feeds splits back into the same pieces. */
  lemma {:induction false} SplitJoinLF(ps: seq<string>)
    requires |ps| >= 1
    requires forall k :: 0 <= k < |ps| ==> '\n' !in ps[k]
    ensures SplitLF(JoinLF(ps)) == ps
  {
    if |ps| == 1 {
      SplitLFNoBreak(ps[0]);
    } else {
      SplitJoinLF(ps[1..]);
      SplitLFPrefix(ps[0], JoinLF(ps[1..]));
      assert [ps[0]] + ps[1..] == ps;
    }
  }

  lemma {:induction false} SplitLFNoBreak(s: string)
    requires '\n' !in s
    ensures SplitLF(s) == [s]
  {
    if s != [] {
      SplitLFNoBreak(s[1..]);
      assert [s[0]] + s[1..] == s;
    }
  }

  /** A first piece without line feed comes off the front of the split. */
  lemma {:induction false} SplitLFPrefix(a: string, b: string)
    requires '\n' !in a
    ensures SplitLF(a + "\n" + b) == [a] + SplitLF(b)
  {
    if a == [] {
      assert ("\n" + b)[1..] == b;
    } else {
      SplitLFPrefix(a[1..], b);
      assert (a + "\n" + b)[1..] == a[1..] + "\n" + b;
      var rest := SplitLF(a[1..] + "\n" + b);
      assert rest == [a[1..]] + SplitLF(b);
      assert [a[0]] + a[1..] == a;
    }
  }

  /** One trailing carriage return removed. */
  function DropCR(p: string): (r: string)
    ensures r == p || r + "\r" == p
  {
    if |p| > 0 && p[|p| - 1] == '\r' then p[..|p| - 1] else p
  }

  /** Every piece but the last loses the carriage return that preceded its line feed. */
  function DropCRs(ps: seq<string>): (r: seq<string>)
    ensures |r| == |ps|
  {
    if |ps| <= 1 then ps else [DropCR(ps[0])] + DropCRs(ps[1..])
  }

  /** `split(/\r?\n/)`. */
  function SplitLines(s: string): seq<string>
  {
    DropCRs(SplitLF(s))
  }

  lemma {:induction false} DropCRsAt(ps: seq<string>, k: nat)
    requires k < |ps|
    ensures DropCRs(ps)[k] == if k < |ps| - 1 then DropCR(ps[k]) else ps[k]
  {
    if |ps| > 1 && k > 0 {
      DropCRsAt(ps[1..], k - 1);
    }
  }

  /**
   * The lines hold no line feed, and each is the line-feed piece, or for all
   * but the last one the piece without the carriage return that ended it.
   */
  lemma SplitLinesPieces(s: string)
    ensures |SplitLines(s)| == |SplitLF(s)|
    ensures forall k :: 0 <= k < |SplitLines(s)| ==> '\n' !in SplitLines(s)[k]
    ensures forall k :: 0 <= k < |SplitLines(s)| ==>
      SplitLines(s)[k] == SplitLF(s)[k] || (k < |SplitLines(s)| - 1 && SplitLines(s)[k] + "\r" == SplitLF(s)[k])
  {
    var ps := SplitLF(s);
    forall k | 0 <= k < |ps|
      ensures '\n' !in SplitLines(s)[k]
      ensures SplitLines(s)[k] == ps[k] || (k < |ps| - 1 && SplitLines(s)[k] + "\r" == ps[k])
    {
      DropCRsAt(ps, k);
    }
  }

  /** `line.replace(/\\$/, "")`: at most one trailing backslash removed. */
  function StripBackslash(line: string): (r: string)
    ensures r == line || r + "\\" == line
    ensures r != line <==> (line != [] && line[|line| - 1] == '\\')
  {
    if |line| > 0 && line[|line| - 1] == '\\' then line[..|line| - 1] else line
  }

  /** `line.trim().startsWith("#")`. */
  predicate IsCommentLine(line: string)
  {
    var t := Trim(line);
    t != [] && t[0] == '#'
  }

  /** `filter(line => !isComment(line))`. */
  function DropComments(lines: seq<string>): (r: seq<string>)
    ensures |r| <= |lines|
  {
    if lines == [] then []
    else (if IsCommentLine(lines[0]) then [] else [lines[0]]) + DropComments(lines[1..])
  }

  /** The filter keeps exactly the lines that are not comments, in order. */
  lemma {:induction false} DropCommentsKeeps(lines: seq<string>)
    ensures forall k :: 0 <= k < |DropComments(lines)| ==>
      !IsCommentLine(DropComments(lines)[k]) && DropComments(lines)[k] in lines
    ensures forall k :: 0 <= k < |lines| && !IsCommentLine(lines[k]) ==> lines[k] in DropComments(lines)
    ensures (forall k :: 0 <= k < |lines| ==> !IsCommentLine(lines[k])) ==> DropComments(lines) == lines
  {
    if lines != [] {
      DropCommentsKeeps(lines[1..]);
      assert lines == [lines[0]] + lines[1..];
      forall k | 1 <= k < |lines| && !IsCommentLine(lines[k])
        ensures lines[k] in DropComments(lines)
      {
        assert lines[k] == lines[1..][k - 1];
      }
    }
  }

  /**
   * The filter works line by line: filtering two blocks is filtering each and
   * joining the results, and a single line stays exactly when it is not a comment.
   */
  lemma {:induction false} DropCommentsAppend(a: seq<string>, b: seq<string>)
    ensures DropComments(a + b) == DropComments(a) + DropComments(b)
    ensures |a| == 1 ==> DropComments(a) == (if IsCommentLine(a[0]) then [] else a)
  {
    if a == [] {
      assert a + b == b;
    } else {
      assert (a + b)[1..] == a[1..] + b;
      DropCommentsAppend(a[1..], b);
    }
  }

  /** `map(line => line.replace(/\\$/, ""))`. */
  function StripAll(lines: seq<string>): (r: seq<string>)
    ensures |r| == |lines|
  {
    if lines == [] then [] else [StripBackslash(lines[0])] + StripAll(lines[1..])
  }

  /** `preprocess`: split into lines, strip one trailing backslash, drop comment lines. */
  function Preprocess(input: string): seq<string>
  {
    DropComments(StripAll(SplitLines(input)))
  }

  /** One line of text after the backslash rule, kept unless it is a comment. */
  function PreprocessOne(line: string): seq<string>
  {
    var l := StripBackslash(line);
    if IsCommentLine(l) then [] else [l]
  }

  /**
   * Preprocessing works line by line: the first line (its CR before the LF
   * dropped) is handled on its own and the rest of the text independently.
   */
  lemma PreprocessLines(a: string, b: string)
    requires '\n' !in a
    ensures Preprocess(a + "\n" + b) == PreprocessOne(DropCR(a)) + Preprocess(b)
  {
    SplitLFPrefix(a, b);
    var ps := SplitLF(b);
    assert ([a] + ps)[1..] == ps;
    var ls := SplitLines(b);
    assert SplitLines(a + "\n" + b) == [DropCR(a)] + ls;
    assert ([DropCR(a)] + ls)[1..] == ls;
    var ms := StripAll(ls);
    assert StripAll([DropCR(a)] + ls) == [StripBackslash(DropCR(a))] + ms;
    assert ([StripBackslash(DropCR(a))] + ms)[1..] == ms;
  }

  /** A text without line feeds is one line. */
  lemma PreprocessSingle(a: string)
    requires '\n' !in a
    ensures Preprocess(a) == PreprocessOne(a)
  {
    SplitLFNoBreak(a);
  }

  // ---------------------------------------------------------------------
  // Directives: /^\{([a-zA-Z_]+):?\s*(.*?)\}$/
  // ---------------------------------------------------------------------

  predicate IsNameChar(c: char)
  {
    'a' <= c <= 'z' || 'A' <= c <= 'Z' || c == '_'
  }

  predicate IsName(s: string)
  {
    s != [] && forall k :: 0 <= k < |s| ==> IsNameChar(s[k])
  }

  /** Length of the longest prefix of name characters. */
  function NameRun(s: string): (n: nat)
    ensures n <= |s|
    ensures forall k :: 0 <= k < n ==> IsNameChar(s[k])
    ensures n < |s| ==> !IsNameChar(s[n])
  {
    if s != [] && IsNameChar(s[0]) then 1 + NameRun(s[1..]) else 0
  }

  datatype Directive = Directive(name: string, value: string)

  /**
   * The directive regex inside the braces: a run of letters and underscores,
   * an optional `:`, whitespace, then the value. The value cannot hold a line
   * terminator, its leading whitespace is not part of it and its trailing
   * whitespace is.
   */
  function MatchBody(body: string): (r: Option<Directive>)
    ensures r.Some? ==> IsName(r.value.name) && NoLineTerminator(r.value.value)
    ensures r.Some? ==> r.value.value == [] || !IsSpace(r.value.value[0])
    ensures r.Some? ==> |r.value.name| <= |body| && body[..|r.value.name|] == r.value.name
  {
    var n := NameRun(body);
    var afterName := body[n..];
    var afterColon := if afterName != [] && afterName[0] == ':' then afterName[1..] else afterName;
    var value := TrimStart(afterColon);
    TrimStartSpec(afterColon);
    if n > 0 && NoLineTerminator(value) then Some(Directive(body[..n], value)) else None
  }

  /** The directive regex: the whole line is `{`, a body `MatchBody` accepts, and `}`. */
  function MatchDirective(line: string): (r: Option<Directive>)
    ensures r.Some? ==> |line| >= 2 && line[0] == '{' && line[|line| - 1] == '}'
  {
    if |line| < 2 || line[0] != '{' || line[|line| - 1] != '}' then None
    else MatchBody(line[1..|line| - 1])
  }

  /** A body `name:value` reads back as that name and value. */
  lemma BodyRoundTrip(name: string, value: string)
    requires IsName(name) && NoLineTerminator(value) && (value == [] || !IsSpace(value[0]))
    ensures MatchBody(name + ":" + value) == Some(Directive(name, value))
  {
    var body := name + ":" + value;
    assert body == name + (":" + value);
    NameRunOf(name, ":" + value);
    var n := NameRun(body);
    var afterName := body[n..];
    assert afterName == ":" + value && afterName[0] == ':';
    assert afterName[1..] == value;
    TrimStartKeeps(value);
    assert body[..n] == name;
  }

  /** Writing a directive as `{name:value}` and matching it are inverse. */
  lemma DirectiveRoundTrip(name: string, value: string)
    requires IsName(name) && NoLineTerminator(value) && (value == [] || !IsSpace(value[0]))
    ensures MatchDirective("{" + name + ":" + value + "}") == Some(Directive(name, value))
  {
    var line := "{" + name + ":" + value + "}";
    assert line[1..|line| - 1] == name + ":" + value;
    BodyRoundTrip(name, value);
  }

  /** A directive written without a value, `{name}`, matches with the empty value. */
  lemma BareDirective(name: string)
    requires IsName(name)
    ensures MatchDirective("{" + name + "}") == Some(Directive(name, ""))
  {
    var line := "{" + name + "}";
    assert line[1..|line| - 1] == name;
    NameRunOf(name, "");
    assert name + "" == name;
  }

  lemma NameRunOf(name: string, tail: string)
    requires IsName(name) && (tail == [] || !IsNameChar(tail[0]))
    ensures NameRun(name + tail) == |name|
    ensures (name + tail)[..|name|] == name && (name + tail)[|name|..] == tail
  {
    var s := name + tail;
    assert forall k :: 0 <= k < |name| ==> s[k] == name[k];
    assert |s| > |name| ==> s[|name|] == tail[0];
  }

  lemma TrimStartKeeps(s: string)
    requires s == [] || !IsSpace(s[0])
    ensures TrimStart(s) == s
  {
  }

  /** A line that does not start with `{` and end with `}` is never a directive. */
  lemma NotBraced(line: string)
    requires line == [] || line[0] != '{' || line[|line| - 1] != '}'
    ensures MatchDirective(line) == None
  {
  }

  function LowerChar(c: char): (d: char)
  {
    if 'A' <= c <= 'Z' then (c as int + 32) as char else c
  }

  /** `toLowerCase` on directive names (ASCII letters and underscores). */
  function ToLower(s: string): (r: string)
    ensures |r| == |s|
    ensures forall k :: 0 <= k < |s| ==> r[k] == LowerChar(s[k])
  {
    seq(|s|, k requires 0 <= k < |s| => LowerChar(s[k]))
  }

  /** Lowercasing is idempotent, and keeps a name a name. */
  lemma ToLowerIdempotent(s: string)
    ensures ToLower(ToLower(s)) == ToLower(s)
    ensures IsName(s) ==> IsName(ToLower(s))
  {
  }

  // ---------------------------------------------------------------------
  // Tokens: split(/(\[[^\]]+\])/).filter(Boolean)
  // ---------------------------------------------------------------------

  /** Position of the first `]` at or after `k`, or `|s|`. */
  function CloseAt(s: string, k: nat): (j: nat)
    requires k <= |s|
    ensures k <= j <= |s|
    ensures j < |s| ==> s[j] == ']'
    decreases |s| - k
  {
    if k == |s| || s[k] == ']' then k else CloseAt(s, k + 1)
  }

  /** No `]` comes before the one `CloseAt` finds. */
  lemma {:induction false} CloseAtFirst(s: string, k: nat)
    requires k <= |s|
    ensures forall m :: k <= m < CloseAt(s, k) ==> s[m] != ']'
    decreases |s| - k
  {
    if k < |s| && s[k] != ']' {
      CloseAtFirst(s, k + 1);
    }
  }

  /** `\[[^\]]+\]` matches at `i`: a `[`, at least one non-`]`, then a `]`. */
  predicate SpanAt(s: string, i: nat)
  {
    i + 1 < |s| && s[i] == '[' && s[i + 1] != ']' && CloseAt(s, i + 1) < |s|
  }

  /** End (exclusive) of the span that starts at `i`. */
  function SpanEnd(s: string, i: nat): (j: nat)
    requires SpanAt(s, i)
    ensures i + 3 <= j <= |s|
  {
    CloseAt(s, i + 1) + 1
  }

  /** The leftmost match at or after `i`. */
  function FirstSpan(s: string, i: nat): (r: Option<nat>)
    requires i <= |s|
    ensures r.Some? ==> i <= r.value < |s| && SpanAt(s, r.value)
    decreases |s| - i
  {
    if i == |s| then None
    else if SpanAt(s, i) then Some(i)
    else FirstSpan(s, i + 1)
  }

  /** The match `FirstSpan` finds is the leftmost one, as the regex engine's is. */
  lemma {:induction false} FirstSpanLeftmost(s: string, i: nat)
    requires i <= |s|
    ensures FirstSpan(s, i).Some? ==> forall m :: i <= m < FirstSpan(s, i).value ==> !SpanAt(s, m)
    ensures FirstSpan(s, i).None? ==> forall m :: i <= m < |s| ==> !SpanAt(s, m)
    decreases |s| - i
  {
    if i < |s| && !SpanAt(s, i) {
      FirstSpanLeftmost(s, i + 1);
    }
  }

  /**
   * `split` with a capturing separator: the text before each chord span,
   * the span itself, and the text after the last one.
   */
  function Pieces(s: string): (r: seq<string>)
    ensures |r| >= 1
    decreases |s|
  {
    match FirstSpan(s, 0)
    case None => [s]
    case Some(i) =>
      var j := SpanEnd(s, i);
      [s[..i], s[i..j]] + Pieces(s[j..])
  }

  function NonEmpty(ps: seq<string>): (r: seq<string>)
    ensures forall k :: 0 <= k < |r| ==> r[k] != []
    ensures |r| <= |ps|
  {
    if ps == [] then []
    else (if ps[0] == [] then [] else [ps[0]]) + NonEmpty(ps[1..])
  }

  /** The tokens of a content line. */
  function Tokens(line: string): seq<string>
  {
    NonEmpty(Pieces(line))
  }

  lemma {:induction false} ConcatNonEmpty(ps: seq<string>)
    ensures Concat(NonEmpty(ps)) == Concat(ps)
  {
    if ps != [] {
      ConcatNonEmpty(ps[1..]);
      ConcatCons(ps[0], ps[1..]);
      assert [ps[0]] + ps[1..] == ps;
      if ps[0] == [] {
        assert NonEmpty(ps) == NonEmpty(ps[1..]);
      } else {
        ConcatCons(ps[0], NonEmpty(ps[1..]));
      }
    }
  }

  lemma {:induction false} ConcatPieces(s: string)
    ensures Concat(Pieces(s)) == s
    decreases |s|
  {
    match FirstSpan(s, 0)
    case None =>
      assert Concat([s]) == Concat([]) + s;
    case Some(i) =>
      var j := SpanEnd(s, i);
      ConcatPieces(s[j..]);
      ConcatCons(s[i..j], Pieces(s[j..]));
      ConcatCons(s[..i], [s[i..j]] + Pieces(s[j..]));
      assert [s[..i], s[i..j]] + Pieces(s[j..]) == [s[..i]] + ([s[i..j]] + Pieces(s[j..]));
      assert s[i..j] + s[j..] == s[i..];
      assert s[..i] + s[i..] == s;
  }

  /** Tokenizing loses nothing: the tokens, none of them empty, spell the line. */
  lemma TokensSpellLine(line: string)
    ensures Concat(Tokens(line)) == line
    ensures forall k :: 0 <= k < |Tokens(line)| ==> Tokens(line)[k] != []
  {
    ConcatNonEmpty(Pieces(line));
    ConcatPieces(line);
  }

  /** A line without `[` is one lyric token (or none when empty). */
  lemma TokensWithoutBrackets(line: string)
    requires '[' !in line
    ensures Tokens(line) == if line == [] then [] else [line]
  {
  }

  /** Without a `]` the separator regex never matches. */
  lemma {:induction false} NoCloseNoSpan(s: string, i: nat)
    requires i <= |s| && ']' !in s
    ensures FirstSpan(s, i) == None
    decreases |s| - i
  {
    if i < |s| {
      NoCloseNoSpan(s, i + 1);
    }
  }

  /** `token.replace(/\[|\]/g, "")`: every bracket removed. */
  function RemoveBrackets(s: string): (r: string)
    ensures '[' !in r && ']' !in r
    ensures |r| <= |s|
  {
    if s == [] then []
    else (if s[0] == '[' || s[0] == ']' then [] else [s[0]]) + RemoveBrackets(s[1..])
  }

  // ---------------------------------------------------------------------
  // splitChord: /^([A-G][b#]?)(.*)$/
  // ---------------------------------------------------------------------

  datatype ChordSplit = ChordSplit(root: string, suffix: Option<string>)

  /**
   * `splitChord`: when the regex matches, the root is a letter A-G with an
   * optional `b` or `#` and the suffix is the rest (absent when empty); the
   * `$` anchor with `.` refuses a rest holding a line terminator, and then
   * the whole chord is the root.
   */
  function SplitChord(chord: string): (r: ChordSplit)
    ensures r.suffix != Some("")
    ensures r.root != chord ==> 1 <= |r.root| <= 2 && 'A' <= r.root[0] <= 'G'
    ensures |r.root| == 2 && r.root != chord ==> r.root[1] == 'b' || r.root[1] == '#'
    // the regex matches: the root takes the accidental when there is one
    ensures |chord| > 0 && 'A' <= chord[0] <= 'G' && NoLineTerminator(chord[1..]) ==>
      var n := if |chord| > 1 && (chord[1] == 'b' || chord[1] == '#') then 2 else 1;
      r.root == chord[..n] && r.suffix == (if |chord| == n then None else Some(chord[n..]))
    // the regex does not match: the whole chord is the root
    ensures !(|chord| > 0 && 'A' <= chord[0] <= 'G' && NoLineTerminator(chord[1..])) ==>
      r == ChordSplit(chord, None)
  {
    var n := MusicUtils.RootLength(chord);
    if n == 0 || !NoLineTerminator(chord[n..]) then ChordSplit(chord, None)
    else ChordSplit(chord[..n], if chord[n..] == [] then None else Some(chord[n..]))
  }

  /** `${root}${suffix || ''}`. */
  function ChordText(c: ChordSplit): string
  {
    match c.suffix
    case None => c.root
    case Some(s) => c.root + s
  }

  /** `splitChord` never fails and never loses text: root and suffix spell the chord. */
  lemma SplitChordJoin(chord: string)
    ensures ChordText(SplitChord(chord)) == chord
  {
    var n := MusicUtils.RootLength(chord);
    if n > 0 && NoLineTerminator(chord[n..]) {
      assert chord[..n] + chord[n..] == chord;
    }
  }

  // ---------------------------------------------------------------------
  // parseLine
  // ---------------------------------------------------------------------

  /** The value a chord token contributes: brackets removed, trimmed, split and rejoined. */
  function ChordValue(token: string): string
  {
    ChordText(SplitChord(Trim(RemoveBrackets(token))))
  }

  /** The part one token becomes: a chord when it starts with `[`, else a verbatim lyric. */
  function PartOf(token: string): (p: LinePart)
    ensures !p.Annotation?
  {
    if token != [] && token[0] == '[' then Chord(ChordValue(token)) else Lyric(token)
  }

  /** The parts of a token sequence, one per token, in order. */
  function PartsOf(tokens: seq<string>): (r: seq<LinePart>)
    ensures |r| == |tokens|
  {
    if tokens == [] then [] else PartsOf(tokens[..|tokens| - 1]) + [PartOf(tokens[|tokens| - 1])]
  }

  /** The part at position `k` is the part of the `k`-th token. */
  lemma {:induction false} PartsOfAt(tokens: seq<string>, k: nat)
    requires k < |tokens|
    ensures PartsOf(tokens)[k] == PartOf(tokens[k])
  {
    var init := tokens[..|tokens| - 1];
    assert PartsOf(tokens) == PartsOf(init) + [PartOf(tokens[|tokens| - 1])];
    if k < |init| {
      PartsOfAt(init, k);
      assert init[k] == tokens[k];
    }
  }

  /** `parseLine` as a value. */
  function LineOf(line: string): Line
  {
    Line(PartsOf(Tokens(line)))
  }

  /**
   * A `[` that no `]` closes still makes a chord: the whole line is one token
   * that starts with `[`, so it becomes a chord of its text without brackets,
   * trimmed ("[C" is the chord "C"), not a lyric.
   */
  lemma UnclosedBracketIsChord(line: string)
    requires line != [] && line[0] == '[' && ']' !in line
    ensures LineOf(line) == Line([Chord(Trim(RemoveBrackets(line)))])
  {
    NoCloseNoSpan(line, 0);
    assert Tokens(line) == [line];
    assert PartsOf([line]) == PartsOf([]) + [PartOf(line)];
    SplitChordJoin(Trim(RemoveBrackets(line)));
  }

  /**
   * ... but only when it begins the token: after other text an unclosed `[`
   * stays inside that lyric ("x [C" is the lyric "x [C").
   */
  lemma UnclosedBracketInLyric(line: string)
    requires line != [] && line[0] != '[' && ']' !in line
    ensures LineOf(line) == Line([Lyric(line)])
  {
    NoCloseNoSpan(line, 0);
    assert Tokens(line) == [line];
    assert PartsOf([line]) == PartsOf([]) + [PartOf(line)];
  }

  /**
   * What `parseLine` promises: one part per token in source order; a token
   * starting with `[` is a chord whose value is the token without brackets,
   * trimmed; every other token is a verbatim lyric; no annotation parts.
   */
  lemma LineOfParts(line: string)
    ensures |LineOf(line).parts| == |Tokens(line)|
    ensures forall k :: 0 <= k < |Tokens(line)| ==>
      var t := Tokens(line)[k];
      (t[0] == '[' ==> LineOf(line).parts[k] == Chord(Trim(RemoveBrackets(t))))
      && (t[0] != '[' ==> LineOf(line).parts[k] == Lyric(t))
    ensures forall k :: 0 <= k < |LineOf(line).parts| ==> !LineOf(line).parts[k].Annotation?
  {
    TokensSpellLine(line);
    var ts := Tokens(line);
    var parts := LineOf(line).parts;
    forall k | 0 <= k < |ts|
      ensures (ts[k][0] == '[' ==> parts[k] == Chord(Trim(RemoveBrackets(ts[k]))))
        && (ts[k][0] != '[' ==> parts[k] == Lyric(ts[k]))
        && !parts[k].Annotation?
    {
      PartsOfAt(ts, k);
      SplitChordJoin(Trim(RemoveBrackets(ts[k])));
    }
  }

  /** A line with no `[` parses to a single lyric holding the whole line. */
  lemma PlainLyricLine(line: string)
    requires line != [] && '[' !in line
    ensures LineOf(line) == Line([Lyric(line)])
  {
    TokensWithoutBrackets(line);
    assert PartsOf([line]) == PartsOf([]) + [PartOf(line)];
  }

  /** `parseLine`: tokenize, then push one part per token. */
  method ParseLine(line: string) returns (result: Line)
    ensures result == LineOf(line)
  {
    var tokens := Tokens(line);
    var parts: seq<LinePart> := [];
    var i := 0;
    while i < |tokens|
      invariant 0 <= i <= |tokens|
      invariant parts == PartsOf(tokens[..i])
    {
      var token := tokens[i];
      if token != [] && token[0] == '[' {
        parts := parts + [Chord(ChordValue(token))];
      } else {
        parts := parts + [Lyric(token)];
      }
      assert tokens[..i + 1][..i] == tokens[..i];
      i := i + 1;
    }
    assert tokens[..i] == tokens;
    result := Line(parts);
  }

  // ---------------------------------------------------------------------
  // parseCho and extractChordsFromLine: /\[([^\]]+)\]/g
  // ---------------------------------------------------------------------

  /** `line.match(/\[([^\]]+)\]/g)`: every chord span, left to right. */
  function Spans(s: string): seq<string>
    decreases |s|
  {
    match FirstSpan(s, 0)
    case None => []
    case Some(i) =>
      var j := SpanEnd(s, i);
      [s[i..j]] + Spans(s[j..])
  }

  /** `line.replace(/\[([^\]]+)\]/g, "")`: the text outside the chord spans. */
  function Outside(s: string): string
    decreases |s|
  {
    match FirstSpan(s, 0)
    case None => s
    case Some(i) =>
      var j := SpanEnd(s, i);
      s[..i] + Outside(s[j..])
  }

  /** Every span is `[`, at least one character other than `]`, and `]`. */
  lemma {:induction false} SpansShape(s: string)
    ensures forall k :: 0 <= k < |Spans(s)| ==>
      |Spans(s)[k]| >= 3 && Spans(s)[k][0] == '[' && Spans(s)[k][|Spans(s)[k]| - 1] == ']'
      && forall m :: 1 <= m < |Spans(s)[k]| - 1 ==> Spans(s)[k][m] != ']'
    decreases |s|
  {
    match FirstSpan(s, 0)
    case None =>
    case Some(i) =>
      var j := SpanEnd(s, i);
      SpansShape(s[j..]);
      CloseAtFirst(s, i + 1);
      var t := s[i..j];
      assert forall m :: 1 <= m < |t| - 1 ==> t[m] == s[i + m];
  }

  /**
   * The capturing split of `parseLine` and the global match of `parseCho`
   * find the same spans: the split yields one more text piece than there
   * are spans, with the spans at the odd positions, in order.
   */
  lemma {:induction false} PiecesHoldSpans(s: string)
    ensures |Pieces(s)| == 2 * |Spans(s)| + 1
    ensures forall k :: 0 <= k < |Spans(s)| ==> Pieces(s)[2 * k + 1] == Spans(s)[k]
    decreases |s|
  {
    match FirstSpan(s, 0)
    case None =>
    case Some(i) =>
      var j := SpanEnd(s, i);
      PiecesHoldSpans(s[j..]);
      forall k | 1 <= k < |Spans(s)|
        ensures Pieces(s)[2 * k + 1] == Spans(s)[k]
      {
        assert Pieces(s)[2 * k + 1] == Pieces(s[j..])[2 * (k - 1) + 1];
      }
  }

  /** Removing the spans keeps every other character: lengths add up to the line. */
  lemma {:induction false} OutsideKeepsRest(s: string)
    ensures |Outside(s)| + |Concat(Spans(s))| == |s|
    ensures Spans(s) == [] ==> Outside(s) == s
    decreases |s|
  {
    match FirstSpan(s, 0)
    case None =>
    case Some(i) =>
      var j := SpanEnd(s, i);
      OutsideKeepsRest(s[j..]);
      ConcatCons(s[i..j], Spans(s[j..]));
  }

  /** The text pieces of a split: the even positions, between and around the spans. */
  function TextPieces(ps: seq<string>): (r: seq<string>)
    decreases |ps|
  {
    if |ps| <= 1 then ps else [ps[0]] + TextPieces(ps[2..])
  }

  /**
   * Removing the spans keeps exactly the text between them, in order: the
   * outside text is the concatenation of the even pieces of the split.
   */
  lemma {:induction false} OutsideIsTextPieces(s: string)
    ensures Outside(s) == Concat(TextPieces(Pieces(s)))
    decreases |s|
  {
    match FirstSpan(s, 0)
    case None =>
      assert Concat([s]) == Concat([]) + s;
    case Some(i) =>
      var j := SpanEnd(s, i);
      var ps := [s[..i], s[i..j]] + Pieces(s[j..]);
      assert ps[2..] == Pieces(s[j..]);
      OutsideIsTextPieces(s[j..]);
      ConcatCons(s[..i], TextPieces(Pieces(s[j..])));
  }

  /** `extractChordsFromLine`: each span without its brackets, split into root and suffix. */
  function ExtractChordsFromLine(line: string): (r: seq<ChordSplit>)
    ensures |r| == |Spans(line)|
    ensures forall k :: 0 <= k < |r| ==> ChordText(r[k]) == RemoveBrackets(Spans(line)[k])
  {
    var spans := Spans(line);
    seq(|spans|, k requires 0 <= k < |spans| => SplitChord(RemoveBrackets(spans[k])))
  }

  /** The line `parseCho` builds: every chord first, then the trimmed lyrics if any. */
  function ChoLine(line: string): Line
  {
    var lyrics := Trim(Outside(line));
    var chords := ExtractChordsFromLine(line);
    var chordParts := seq(|chords|, k requires 0 <= k < |chords| => Chord(ChordText(chords[k])));
    Line(chordParts + (if lyrics != [] then [Lyric(lyrics)] else []))
  }

  /**
   * The parts of a `parseCho` line: one chord per span, whose value is the
   * span without brackets and not trimmed, then one lyric exactly when the
   * text outside the spans is not blank, holding that text trimmed.
   */
  lemma ChoLineParts(line: string)
    ensures |ChoLine(line).parts| == |Spans(line)| + (if AllSpace(Outside(line)) then 0 else 1)
    ensures forall k :: 0 <= k < |Spans(line)| ==> ChoLine(line).parts[k] == Chord(RemoveBrackets(Spans(line)[k]))
    ensures !AllSpace(Outside(line)) ==> ChoLine(line).parts[|Spans(line)|] == Lyric(Trim(Outside(line)))
  {
    TrimEmptyIff(Outside(line));
  }

  /** A line without chords becomes one lyric: the line trimmed. */
  lemma ChoPlainLine(line: string)
    requires '[' !in line && !AllSpace(line)
    ensures ChoLine(line) == Line([Lyric(Trim(line))])
  {
    OutsideKeepsRest(line);
    ChoLineParts(line);
  }

  /** `filter(l => l.trim() !== "")`. */
  function NonBlank(lines: seq<string>): (r: seq<string>)
    ensures |r| <= |lines|
  {
    if lines == [] then []
    else (if AllSpace(lines[0]) then [] else [lines[0]]) + NonBlank(lines[1..])
  }

  /** The filter keeps exactly the lines that are not blank, in order. */
  lemma {:induction false} NonBlankKeeps(lines: seq<string>)
    ensures forall k :: 0 <= k < |NonBlank(lines)| ==> !AllSpace(NonBlank(lines)[k]) && NonBlank(lines)[k] in lines
    ensures forall k :: 0 <= k < |lines| && !AllSpace(lines[k]) ==> lines[k] in NonBlank(lines)
    ensures (forall k :: 0 <= k < |lines| ==> !AllSpace(lines[k])) ==> NonBlank(lines) == lines
  {
    if lines != [] {
      NonBlankKeeps(lines[1..]);
      assert lines == [lines[0]] + lines[1..];
      forall k | 1 <= k < |lines| && !AllSpace(lines[k])
        ensures lines[k] in NonBlank(lines)
      {
        assert lines[k] == lines[1..][k - 1];
      }
    }
  }

  /**
   * The filter works line by line: filtering two blocks is filtering each and
   * joining the results, and a single line stays exactly when it is not blank.
   */
  lemma {:induction false} NonBlankAppend(a: seq<string>, b: seq<string>)
    ensures NonBlank(a + b) == NonBlank(a) + NonBlank(b)
    ensures |a| == 1 ==> NonBlank(a) == (if AllSpace(a[0]) then [] else a)
  {
    if a == [] {
      assert a + b == b;
    } else {
      assert (a + b)[1..] == a[1..] + b;
      NonBlankAppend(a[1..], b);
    }
  }

  const ChoTitle: string := "M\U{FA}sica Exemplo"
  const ChoArtist: string := "Artista X"

  /**
   * `parseCho`: fixed title and artist, and one verse holding a line per
   * non-blank piece of the `split("\n")`, even when there is none.
   */
  function ParseCho(content: string): Song
  {
    var lines := NonBlank(SplitLF(content));
    Song(map["title" := ChoTitle, "artist" := ChoArtist],
         [Section(Verse, seq(|lines|, k requires 0 <= k < |lines| => ChoLine(lines[k])))])
  }

  /**
   * The song `parseCho` returns has exactly the two fixed metadata entries and
   * a single verse section with one line for each non-blank input line.
   */
  lemma ParseChoShape(content: string)
    ensures ParseCho(content).metadata.Keys == {"title", "artist"}
    ensures ParseCho(content).metadata["title"] == ChoTitle
    ensures ParseCho(content).metadata["artist"] == ChoArtist
    ensures |ParseCho(content).sections| == 1 && ParseCho(content).sections[0].kind == Verse
    ensures |ParseCho(content).sections[0].lines| == |NonBlank(SplitLF(content))|
    ensures AllSpace(content) ==> ParseCho(content).sections[0].lines == []
  {
    if AllSpace(content) {
      AllSpacePieces(content);
    }
  }

  /** Every line-feed piece of an all-whitespace text is blank. */
  lemma {:induction false} AllSpacePieces(s: string)
    requires AllSpace(s)
    ensures NonBlank(SplitLF(s)) == []
  {
    BlankPieces(s);
    NonBlankOfBlank(SplitLF(s));
  }

  lemma {:induction false} BlankPieces(s: string)
    requires AllSpace(s)
    ensures forall k :: 0 <= k < |SplitLF(s)| ==> AllSpace(SplitLF(s)[k])
    decreases |s|
  {
    if s != [] {
      BlankPieces(s[1..]);
    }
  }

  lemma {:induction false} NonBlankOfBlank(lines: seq<string>)
    requires forall k :: 0 <= k < |lines| ==> AllSpace(lines[k])
    ensures NonBlank(lines) == []
  {
    if lines != [] {
      NonBlankOfBlank(lines[1..]);
    }
  }

  // ---------------------------------------------------------------------
  // The main loop of parseChord
  // ---------------------------------------------------------------------

  /** How the main loop treats one preprocessed line. */
  datatype LineClass = Blank | DirectiveLine(name: string, value: string) | ContentLine(line: Line)

  /** Blank when it trims to nothing, else a directive when the regex matches, else content. */
  function Classify(text: string): LineClass
  {
    if Trim(text) == [] then Blank
    else match MatchDirective(text)
      case Some(d) => DirectiveLine(ToLower(d.name), d.value)
      case None => ContentLine(LineOf(text))
  }

  /**
   * A line is skipped exactly when it is all whitespace; a directive line is
   * one the regex matches, under the lower-cased name; anything else is a
   * content line parsed by `parseLine`.
   */
  lemma ClassifyMeaning(text: string)
    ensures Classify(text).Blank? <==> AllSpace(text)
    ensures !AllSpace(text) && MatchDirective(text).Some? ==>
      Classify(text) == DirectiveLine(ToLower(MatchDirective(text).value.name), MatchDirective(text).value.value)
    ensures !AllSpace(text) && MatchDirective(text).None? ==> Classify(text) == ContentLine(LineOf(text))
  {
    TrimEmptyIff(text);
    ClassifyCases(text);
  }

  /** The three branches of the loop body, as `Classify` sees them. */
  lemma ClassifyCases(text: string)
    ensures Trim(text) == [] ==> Classify(text) == Blank
    ensures Trim(text) != [] && MatchDirective(text).Some? ==>
      Classify(text) == DirectiveLine(ToLower(MatchDirective(text).value.name), MatchDirective(text).value.value)
    ensures Trim(text) != [] && MatchDirective(text).None? ==> Classify(text) == ContentLine(LineOf(text))
  {
  }

  function ClassifyAll(lines: seq<string>): (cs: seq<LineClass>)
    ensures |cs| == |lines|
  {
    seq(|lines|, k requires 0 <= k < |lines| => Classify(lines[k]))
  }

  /** The open section and the song built so far. */
  datatype ParseState = ParseState(metadata: Metadata, sections: seq<Section>, current: Section)

  const Init: ParseState := ParseState(map[], [], Section(Verse, []))

  /** The directives that open a section, and the type they open. */
  function StartKind(name: string): Option<SectionType>
  {
    if name == "start_of_verse" then Some(Verse)
    else if name == "start_of_chorus" then Some(Chorus)
    else if name == "start_of_bridge" then Some(Bridge)
    else None
  }

  predicate IsEndDirective(name: string)
  {
    name == "end_of_verse" || name == "end_of_chorus" || name == "end_of_bridge"
  }

  /**
   * `__proto__`: assigning a string to this key of a plain object literal
   * is ignored by JavaScript, so a directive of that name stores nothing.
   */
  const ProtoKey: string := "__proto__"

  /**
   * A name that `handleDirective` stores as metadata: the known keys and
   * every unknown one except `__proto__`.
   */
  predicate IsMetadataName(name: string)
  {
    StartKind(name).None? && !IsEndDirective(name) && name != "comment" && name != ProtoKey
  }

  /** The section a `comment` directive appends. */
  function CommentSection(value: string): Section
  {
    Section(Comment, [Line([Lyric(value)])])
  }

  /**
   * `handleDirective` with sections copied when closed: a start directive
   * closes a non-empty open section and opens an empty one of its type; an
   * end directive always appends a copy, then empties the lines and keeps
   * the type; `comment` appends its own section; `__proto__` changes
   * nothing; anything else is metadata.
   */
  function ApplyDirective(st: ParseState, name: string, value: string): ParseState
  {
    match StartKind(name)
    case Some(kind) =>
      var closed := if |st.current.lines| > 0 then st.sections + [st.current] else st.sections;
      ParseState(st.metadata, closed, Section(kind, []))
    case None =>
      if IsEndDirective(name) then
        ParseState(st.metadata, st.sections + [st.current], Section(st.current.kind, []))
      else if name == "comment" then
        ParseState(st.metadata, st.sections + [CommentSection(value)], st.current)
      else if name == ProtoKey then
        st
      else
        ParseState(st.metadata[name := value], st.sections, st.current)
  }

  /** One iteration of the main loop. */
  function Step(st: ParseState, c: LineClass): ParseState
  {
    match c
    case Blank => st
    case DirectiveLine(name, value) => ApplyDirective(st, name, value)
    case ContentLine(line) => ParseState(st.metadata, st.sections, Section(st.current.kind, st.current.lines + [line]))
  }

  /** The main loop over the classified lines. */
  function Run(st: ParseState, cs: seq<LineClass>): ParseState
  {
    if cs == [] then st else Step(Run(st, cs[..|cs| - 1]), cs[|cs| - 1])
  }

  lemma RunSnoc(cs: seq<LineClass>, i: nat, before: ParseState, after: ParseState)
    requires i < |cs| && before == Run(Init, cs[..i]) && after == Step(before, cs[i])
    ensures Run(Init, cs[..i + 1]) == after
  {
    assert cs[..i + 1][..i] == cs[..i];
  }

  /** After the loop: the open section is appended only when it has lines. */
  function Finish(st: ParseState): Song
  {
    Song(st.metadata, if |st.current.lines| > 0 then st.sections + [st.current] else st.sections)
  }

  /** `parseChord`, as a value. */
  function Parse(input: string): Song
  {
    Finish(Run(Init, ClassifyAll(Preprocess(input))))
  }

  /**
   * The song under construction: `song.metadata`, `song.sections` and the
   * open `currentSection` that `handleDirective` mutates.
   */
  class SongBuilder {
    var metadata: Metadata
    var sections: seq<Section>
    var current: Section

    function State(): ParseState
      reads this
    {
      ParseState(metadata, sections, current)
    }

    constructor ()
      ensures State() == Init
    {
      metadata := map[];
      sections := [];
      current := Section(Verse, []);
    }

    /** `currentSection.lines.push(parsedLine)`. */
    method AddLine(line: Line)
      modifies this
      ensures State() == Step(old(State()), ContentLine(line))
    {
      current := Section(current.kind, current.lines + [line]);
    }

    /** `handleDirective(song, currentSection, name, value)`. */
    method HandleDirective(name: string, value: string)
      modifies this
      ensures State() == ApplyDirective(old(State()), name, value)
    {
      var kind := StartKind(name);
      if kind.Some? {
        if |current.lines| > 0 {
          sections := sections + [current];
        }
        current := Section(kind.value, []);
      } else if IsEndDirective(name) {
        sections := sections + [current];
        current := Section(current.kind, []);
      } else if name == "comment" {
        sections := sections + [CommentSection(value)];
      } else if name != ProtoKey {
        metadata := metadata[name := value];
      }
    }

    /** The final push of the open section, if it has lines. */
    method Close() returns (song: Song)
      modifies this
      ensures song == Finish(old(State()))
      ensures State() == old(State())
    {
      if |current.lines| > 0 {
        song := Song(metadata, sections + [current]);
      } else {
        song := Song(metadata, sections);
      }
    }
  }

  /** The body of the main loop of `parseChord`, for one preprocessed line. */
  method ProcessLine(builder: SongBuilder, line: string)
    modifies builder
    ensures builder.State() == Step(old(builder.State()), Classify(line))
  {
    ClassifyCases(line);
    if Trim(line) == [] {
    } else {
      var directiveMatch := MatchDirective(line);
      if directiveMatch.Some? {
        builder.HandleDirective(ToLower(directiveMatch.value.name), directiveMatch.value.value);
      } else {
        var parsedLine := ParseLine(line);
        builder.AddLine(parsedLine);
      }
    }
  }

  /** `parseChord`: preprocess, then one step per line, then the final push. */
  method ParseChord(input: string) returns (song: Song)
    ensures song == Parse(input)
  {
    var lines := Preprocess(input);
    ghost var cs := ClassifyAll(lines);
    var builder := new SongBuilder();
    var i := 0;
    while i < |lines|
      invariant 0 <= i <= |lines|
      invariant builder.State() == Run(Init, cs[..i])
    {
      ghost var before := builder.State();
      ProcessLine(builder, lines[i]);
      RunSnoc(cs, i, before, builder.State());
      i := i + 1;
    }
    assert cs[..|lines|] == cs;
    song := builder.Close();
  }
}
