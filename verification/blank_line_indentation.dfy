/**
 Layout/ConsistentBlankLineIndentation: every blank line must carry the
 indentation of the structural nesting depth it sits at.

 One walk over the tree records, per line, how many tracked constructs open
 there minus how many close there; one scan over the lines keeps a running
 level and compares each blank line with the level's indentation text.
 */
module BlankLineIndentation {
  import opened SourceText
  import opened Syntax

  /** A node's `location.line` and `location.last_line`. */
  datatype Location = Location(line: int, lastLine: int)

  /**
   The parsed tree. `Atom` stands for a child that is not a node (a symbol,
   a string, `nil`): the walk skips it. `location` is `None` when the node
   has no location.
   */
  datatype Node =
    | Node(kind: Kind, location: Option<Location>, children: seq<Node>)
    | Atom

  /**
   The options the rule reads: its own `IndentationWidth` and
   `IndentationStyle`, and the `Width` of `Layout/IndentationWidth` and the
   `Style` of `Layout/IndentationStyle`. `None` is an absent (nil) option.
   */
  datatype Config = Config(
    copWidth: Option<int>,
    globalWidth: Option<int>,
    copStyle: Option<string>,
    globalStyle: Option<string>)

  datatype Message = BlankLineMessage

  const MessageText: string := "Blank lines must have the correct indentation."

  // ---------------------------------------------------------------------
  // Configuration and the expected text of a blank line

  /** The first option that is set, else 1. */
  function ConfiguredIndentationWidth(cfg: Config): (w: int)
    ensures cfg.copWidth.Some? ==> w == cfg.copWidth.value
    ensures cfg.copWidth.None? && cfg.globalWidth.Some? ==> w == cfg.globalWidth.value
    ensures cfg.copWidth.None? && cfg.globalWidth.None? ==> w == 1
  {
    match cfg.copWidth
    case Some(w) => w
    case None =>
      match cfg.globalWidth
      case Some(w) => w
      case None => 1
  }

  /** The first option that is set, else "tab". */
  function ConfiguredIndentationStyle(cfg: Config): (s: string)
    ensures cfg.copStyle.Some? ==> s == cfg.copStyle.value
    ensures cfg.copStyle.None? && cfg.globalStyle.Some? ==> s == cfg.globalStyle.value
    ensures cfg.copStyle.None? && cfg.globalStyle.None? ==> s == "tab"
  {
    match cfg.copStyle
    case Some(s) => s
    case None =>
      match cfg.globalStyle
      case Some(s) => s
      case None => "tab"
  }

  /**
   The configurations the rule can evaluate: a style it knows (any other
   style yields no indentation text at all) and a width that `String#*`
   accepts once multiplied by a level.
   */
  predicate SupportedConfig(cfg: Config) {
    && ConfiguredIndentationWidth(cfg) >= 0
    && (ConfiguredIndentationStyle(cfg) == "tab" || ConfiguredIndentationStyle(cfg) == "space")
  }

  function StyleChar(cfg: Config): char
    requires SupportedConfig(cfg)
  {
    if ConfiguredIndentationStyle(cfg) == "tab" then '\t' else ' '
  }

  /** `indentation(level)`: `level * width` copies of the style character. */
  function Indentation(cfg: Config, level: nat): (r: string)
    requires SupportedConfig(cfg)
    ensures |r| == level * ConfiguredIndentationWidth(cfg)
    ensures ConfiguredIndentationStyle(cfg) == "tab" ==> forall i :: 0 <= i < |r| ==> r[i] == '\t'
    ensures ConfiguredIndentationStyle(cfg) == "space" ==> forall i :: 0 <= i < |r| ==> r[i] == ' '
    ensures IsBlank(r)
  {
    var w: nat := ConfiguredIndentationWidth(cfg);
    Repeat(StyleChar(cfg), level * w)
  }

  // ---------------------------------------------------------------------
  // The structural specification: tracked spans and nesting depth

  /** The 14 node types that open an indentation level. */
  predicate Tracked(k: Kind) {
    k in {Block, Hash, Array, Class, Module, SClass, Def, Defs, If, Case, While, Until, For, KwBegin}
  }

  /** The span this node itself contributes: one if it is tracked and located. */
  function Own(node: Node): seq<Location> {
    if node.Node? && Tracked(node.kind) && node.location.Some? then [node.location.value] else []
  }

  /** The spans of all tracked, located nodes of a tree, in pre-order. */
  function Spans(node: Node): seq<Location>
    decreases node, 1
  {
    match node
    case Atom => []
    case Node(_, _, children) => Own(node) + ChildSpans(children)
  }

  function ChildSpans(cs: seq<Node>): seq<Location>
    decreases cs, 0
  {
    if cs == [] then [] else ChildSpans(cs[..|cs| - 1]) + Spans(cs[|cs| - 1])
  }

  /** Every tracked span starts on a real line and does not end before it starts. */
  predicate WellFormedSpans(spans: seq<Location>) {
    forall k :: 0 <= k < |spans| ==> 1 <= spans[k].line <= spans[k].lastLine
  }

  predicate WellFormed(root: Node) {
    WellFormedSpans(Spans(root))
  }

  /** Openings minus closings on `line`: the delta the walk records there. */
  function DeltaAt(spans: seq<Location>, line: int): int {
    if spans == [] then 0
    else
      (if spans[0].line == line then 1 else 0)
      - (if spans[0].lastLine == line then 1 else 0)
      + DeltaAt(spans[1..], line)
  }

  /** The nesting depth at `line`: spans that opened on an earlier line and are still open. */
  function OpenAt(spans: seq<Location>, line: int): nat {
    if spans == [] then 0
    else (if spans[0].line < line <= spans[0].lastLine then 1 else 0) + OpenAt(spans[1..], line)
  }

  /** The running level before `line`: the deltas of lines `1 .. line - 1` summed. */
  function SumDeltas(spans: seq<Location>, line: nat): int {
    if line <= 1 then 0 else SumDeltas(spans, line - 1) + DeltaAt(spans, line - 1)
  }

  lemma {:induction false} DeltaAtAppend(a: seq<Location>, b: seq<Location>, line: int)
    ensures DeltaAt(a + b, line) == DeltaAt(a, line) + DeltaAt(b, line)
  {
    if a == [] {
      assert a + b == b;
    } else {
      assert (a + b)[1..] == a[1..] + b;
      DeltaAtAppend(a[1..], b, line);
    }
  }

  /** Moving from one line to the next changes the depth by that line's delta. */
  lemma {:induction false} OpenAtStep(spans: seq<Location>, line: int)
    requires forall k :: 0 <= k < |spans| ==> spans[k].line <= spans[k].lastLine
    ensures OpenAt(spans, line + 1) == OpenAt(spans, line) + DeltaAt(spans, line)
  {
    if spans != [] {
      assert spans[0].line <= spans[0].lastLine;
      OpenAtStep(spans[1..], line);
    }
  }

  lemma {:induction false} OpenAtFirstLine(spans: seq<Location>)
    requires WellFormedSpans(spans)
    ensures OpenAt(spans, 1) == 0
  {
    if spans != [] {
      assert 1 <= spans[0].line;
      OpenAtFirstLine(spans[1..]);
    }
  }

  /**
   The running sum of deltas before a line is the number of tracked
   constructs open across it, and so never negative.
   */
  lemma {:induction false} RunningSumIsDepth(spans: seq<Location>, line: nat)
    requires WellFormedSpans(spans)
    requires line >= 1
    ensures SumDeltas(spans, line) == OpenAt(spans, line)
    ensures SumDeltas(spans, line) >= 0
  {
    if line == 1 {
      OpenAtFirstLine(spans);
    } else {
      RunningSumIsDepth(spans, line - 1);
      OpenAtStep(spans, line - 1);
    }
  }

  // ---------------------------------------------------------------------
  // build_indentation_deltas / walk_ast_for_indentation

  /** `deltas[line]` of a `Hash.new(0)`, and `deltas[line] || 0`. */
  function Get(deltas: map<int, int>, line: int): int {
    if line in deltas then deltas[line] else 0
  }

  /** `deltas[key] += d` on a `Hash.new(0)`. */
  function Bump(deltas: map<int, int>, key: int, d: int): (r: map<int, int>)
    ensures forall line :: Get(r, line) == Get(deltas, line) + (if line == key then d else 0)
  {
    deltas[key := Get(deltas, key) + d]
  }

  /** `result` is `base` with the openings and closings of `spans` recorded. */
  ghost predicate Recorded(result: map<int, int>, base: map<int, int>, spans: seq<Location>) {
    forall line :: Get(result, line) == Get(base, line) + DeltaAt(spans, line)
  }

  /** Recording `a` and then `b` records `a + b`. */
  lemma RecordedAppend(m0: map<int, int>, m1: map<int, int>, m2: map<int, int>, a: seq<Location>, b: seq<Location>)
    requires Recorded(m1, m0, a) && Recorded(m2, m1, b)
    ensures Recorded(m2, m0, a + b)
  {
    forall line
      ensures Get(m2, line) == Get(m0, line) + DeltaAt(a + b, line)
    {
      DeltaAtAppend(a, b, line);
    }
  }

  /** The two bumps for one located node record its span. */
  lemma RecordedOwn(deltas: map<int, int>, location: Location)
    ensures Recorded(Bump(Bump(deltas, location.line, 1), location.lastLine, -1), deltas, [location])
  {
    assert [location][1..] == [];
  }

  lemma ChildSpansSnoc(cs: seq<Node>, i: nat)
    requires i < |cs|
    ensures ChildSpans(cs[..i + 1]) == ChildSpans(cs[..i]) + Spans(cs[i])
  {
    assert cs[..i + 1][..i] == cs[..i];
  }

  /**
   `walk_ast_for_indentation(node, deltas)`: adds +1 at the first line and
   -1 at the last line of every tracked, located node of the tree.
   */
  method Walk(node: Node, deltas: map<int, int>) returns (result: map<int, int>)
    ensures forall line :: Get(result, line) == Get(deltas, line) + DeltaAt(Spans(node), line)
    decreases node
  {
    if node.Atom? {
      return deltas;
    }
    result := deltas;
    if Tracked(node.kind) && node.location.Some? {
      var location := node.location.value;
      result := Bump(result, location.line, 1);
      result := Bump(result, location.lastLine, -1);
      RecordedOwn(deltas, location);
    }
    ghost var own := result;
    assert Recorded(own, deltas, Own(node));
    var children := node.children;
    var i := 0;
    while i < |children|
      invariant 0 <= i <= |children|
      invariant Recorded(result, own, ChildSpans(children[..i]))
    {
      ghost var before := result;
      result := Walk(children[i], result);
      RecordedAppend(own, before, result, ChildSpans(children[..i]), Spans(children[i]));
      ChildSpansSnoc(children, i);
      i := i + 1;
    }
    assert children[..i] == children;
    RecordedAppend(deltas, own, result, Own(node), ChildSpans(children));
  }

  /** `build_indentation_deltas`: the walk from an empty `Hash.new(0)`. */
  method BuildIndentationDeltas(root: Node) returns (deltas: map<int, int>)
    ensures forall line :: Get(deltas, line) == DeltaAt(Spans(root), line)
  {
    deltas := Walk(root, map[]);
  }

  // ---------------------------------------------------------------------
  // The buffer: lines joined by "\n", and `source_range`

  /** The buffer whose `processed_source.lines` are `lines`. */
  function Join(lines: seq<string>): string {
    if |lines| == 0 then ""
    else if |lines| == 1 then lines[0]
    else lines[0] + "\n" + Join(lines[1..])
  }

  /** `buffer.line_range(i + 1).begin_pos`. */
  function LineStart(lines: seq<string>, i: nat): nat
    requires i <= |lines|
  {
    if i == 0 then 0 else |lines[0]| + 1 + LineStart(lines[1..], i - 1)
  }

  /** `source_range(buffer, i + 1, 0, line.length)`: the whole line, without its terminator. */
  function LineRange(lines: seq<string>, i: nat): Range
    requires i < |lines|
  {
    Range(LineStart(lines, i), LineStart(lines, i) + |lines[i]|)
  }

  /** The range of line `i` lies in the buffer and holds exactly that line's text. */
  lemma {:induction false} LineRangeSelectsLine(lines: seq<string>, i: nat)
    requires i < |lines|
    ensures ValidRange(Join(lines), LineRange(lines, i))
    ensures Join(lines)[LineRange(lines, i).begin..LineRange(lines, i).end] == lines[i]
  {
    if i == 0 {
      if |lines| > 1 {
        assert Join(lines) == lines[0] + ("\n" + Join(lines[1..]));
      }
    } else {
      LineRangeSelectsLine(lines[1..], i - 1);
      var head := lines[0] + "\n";
      var tail := Join(lines[1..]);
      assert Join(lines) == head + tail;
      var b := LineStart(lines[1..], i - 1);
      var e := b + |lines[i]|;
      assert (head + tail)[|head| + b..|head| + e] == tail[b..e];
    }
  }

  /** An edit behind a fixed prefix is the same edit on what follows the prefix. */
  lemma ApplyAfterPrefix(head: string, tail: string, r: Range, t: string)
    requires ValidRange(tail, r)
    ensures ValidRange(head + tail, Range(|head| + r.begin, |head| + r.end))
    ensures Apply(head + tail, Edit(Range(|head| + r.begin, |head| + r.end), t)) == head + Apply(tail, Edit(r, t))
  {
    var s := head + tail;
    assert s[..|head| + r.begin] == head + tail[..r.begin];
    assert s[|head| + r.end..] == tail[r.end..];
  }

  /** Replacing the range of line `i` by `t` in the buffer replaces that line by `t`. */
  lemma {:induction false} FixReplacesLine(lines: seq<string>, i: nat, t: string)
    requires i < |lines|
    ensures ValidRange(Join(lines), LineRange(lines, i))
    ensures Apply(Join(lines), Edit(LineRange(lines, i), t)) == Join(lines[i := t])
  {
    LineRangeSelectsLine(lines, i);
    var fixed := lines[i := t];
    if i == 0 {
      if |lines| == 1 {
        assert Join(lines) == lines[0];
      } else {
        var rest := "\n" + Join(lines[1..]);
        assert Join(lines) == lines[0] + rest;
        assert (lines[0] + rest)[|lines[0]|..] == rest;
        assert fixed[1..] == lines[1..];
      }
    } else {
      FixReplacesLine(lines[1..], i - 1, t);
      var head := lines[0] + "\n";
      var r := LineRange(lines[1..], i - 1);
      assert Join(lines) == head + Join(lines[1..]);
      assert LineRange(lines, i) == Range(|head| + r.begin, |head| + r.end);
      ApplyAfterPrefix(head, Join(lines[1..]), r, t);
      assert fixed[1..] == lines[1..][i - 1 := t];
      assert Join(fixed) == head + Join(fixed[1..]);
    }
  }

  /** Line ranges come in buffer order: line `i` ends before line `j` starts. */
  lemma {:induction false} LineRangesAscend(lines: seq<string>, i: nat, j: nat)
    requires i < j < |lines|
    ensures LineRange(lines, i).end < LineRange(lines, j).begin
  {
    if i > 0 {
      LineRangesAscend(lines[1..], i - 1, j - 1);
    } else {
      assert LineStart(lines, j) >= |lines[0]| + 1;
    }
  }

  // ---------------------------------------------------------------------
  // on_new_investigation

  /** The nesting depth in effect at line number `line`. */
  function Depth(root: Node, line: int): nat {
    OpenAt(Spans(root), line)
  }

  /** What the rule reports for line index `i` (line number `i + 1`). */
  function LineOffense(root: Node, lines: seq<string>, cfg: Config, i: nat): Option<Offense<Message>>
    requires SupportedConfig(cfg)
    requires i < |lines|
  {
    if !IsBlank(lines[i]) then None
    else
      var expected := Indentation(cfg, Depth(root, i + 1));
      if lines[i] == expected then None
      else Some(Offense(LineRange(lines, i), BlankLineMessage, Some(Edit(LineRange(lines, i), expected))))
  }

  /** The offenses for the first `n` lines, in line order. */
  function OffensesUpTo(root: Node, lines: seq<string>, cfg: Config, n: nat): seq<Offense<Message>>
    requires SupportedConfig(cfg)
    requires n <= |lines|
  {
    if n == 0 then []
    else
      OffensesUpTo(root, lines, cfg, n - 1)
      + match LineOffense(root, lines, cfg, n - 1)
        case None => []
        case Some(o) => [o]
  }

  function Offenses(root: Node, lines: seq<string>, cfg: Config): seq<Offense<Message>>
    requires SupportedConfig(cfg)
  {
    OffensesUpTo(root, lines, cfg, |lines|)
  }

  /**
   `on_new_investigation`: one scan over the lines with a running level that
   starts at 0 and adds each line's delta after the line has been judged.
   The offenses are those of the structural specification.
   */
  method OnNewInvestigation(root: Node, lines: seq<string>, cfg: Config) returns (offenses: seq<Offense<Message>>)
    requires WellFormed(root)
    requires SupportedConfig(cfg)
    ensures offenses == Offenses(root, lines, cfg)
  {
    var deltas := BuildIndentationDeltas(root);
    var level := 0;
    offenses := [];
    OpenAtFirstLine(Spans(root));
    var index := 0;
    while index < |lines|
      invariant 0 <= index <= |lines|
      invariant level == Depth(root, index + 1)
      invariant offenses == OffensesUpTo(root, lines, cfg, index)
    {
      var line := lines[index];
      var lineNumber := index + 1;
      if IsBlank(line) {
        var expected := Indentation(cfg, level);
        if line != expected {
          var range := LineRange(lines, index);
          offenses := offenses + [Offense(range, BlankLineMessage, Some(Edit(range, expected)))];
        }
      }
      OpenAtStep(Spans(root), lineNumber);
      level := level + Get(deltas, lineNumber);
      index := index + 1;
    }
  }

  // ---------------------------------------------------------------------
  // Properties of the specification

  /**
   A line is reported exactly when it is blank and differs from the
   indentation of its depth; the offense covers the whole line, and its fix
   replaces that range with the expected text.
   */
  lemma LineOffenseIff(root: Node, lines: seq<string>, cfg: Config, i: nat)
    requires SupportedConfig(cfg)
    requires i < |lines|
    ensures LineOffense(root, lines, cfg, i).Some?
        <==> IsBlank(lines[i]) && lines[i] != Indentation(cfg, Depth(root, i + 1))
    ensures LineOffense(root, lines, cfg, i).Some? ==>
      var o := LineOffense(root, lines, cfg, i).value;
      && o.range == LineRange(lines, i)
      && o.range.begin == LineStart(lines, i)
      && o.range.end - o.range.begin == |lines[i]|
      && o.fix == Some(Edit(o.range, Indentation(cfg, Depth(root, i + 1))))
  {
  }

  /** A line with any non-whitespace character is never reported. */
  lemma NonBlankLinesNeverOffend(root: Node, lines: seq<string>, cfg: Config, i: nat)
    requires SupportedConfig(cfg)
    requires i < |lines|
    requires exists k :: 0 <= k < |lines[i]| && !IsStripped(lines[i][k])
    ensures LineOffense(root, lines, cfg, i).None?
  {
  }

  /** The next line starts one past the end of this one. */
  lemma {:induction false} LineStartStep(lines: seq<string>, i: nat)
    requires i < |lines|
    ensures LineStart(lines, i + 1) == LineStart(lines, i) + |lines[i]| + 1
  {
    if i > 0 {
      LineStartStep(lines[1..], i - 1);
    }
  }

  /**
   The offenses of the first `n` lines are in strictly ascending buffer
   order, and all of them end before line `n` starts.
   */
  lemma {:induction false} OffensesAscend(root: Node, lines: seq<string>, cfg: Config, n: nat)
    requires SupportedConfig(cfg)
    requires n <= |lines|
    ensures forall j, k :: 0 <= j < k < |OffensesUpTo(root, lines, cfg, n)| ==>
      OffensesUpTo(root, lines, cfg, n)[j].range.end < OffensesUpTo(root, lines, cfg, n)[k].range.begin
    ensures forall o :: o in OffensesUpTo(root, lines, cfg, n) ==> o.range.end < LineStart(lines, n)
  {
    if n > 0 {
      OffensesAscend(root, lines, cfg, n - 1);
      LineStartStep(lines, n - 1);
      var prev := OffensesUpTo(root, lines, cfg, n - 1);
      match LineOffense(root, lines, cfg, n - 1)
      case None =>
        assert OffensesUpTo(root, lines, cfg, n) == prev;
      case Some(last) =>
        assert last.range == LineRange(lines, n - 1) by {
          LineOffenseIff(root, lines, cfg, n - 1);
        }
        assert OffensesUpTo(root, lines, cfg, n) == prev + [last];
        forall j | 0 <= j < |prev|
          ensures prev[j].range.end < last.range.begin
        {
          assert prev[j] in prev;
        }
    }
  }

  /** The lines after every fix of one pass has been applied. */
  function Corrected(root: Node, lines: seq<string>, cfg: Config): (r: seq<string>)
    requires SupportedConfig(cfg)
    ensures |r| == |lines|
  {
    seq(|lines|, i requires 0 <= i < |lines| =>
      if IsBlank(lines[i]) then Indentation(cfg, Depth(root, i + 1)) else lines[i])
  }

  /** A corrected line is never reported again. */
  lemma CorrectedLineSettles(root: Node, lines: seq<string>, cfg: Config, i: nat)
    requires SupportedConfig(cfg)
    requires i < |lines|
    ensures LineOffense(root, Corrected(root, lines, cfg), cfg, i).None?
  {
    var fixed := Corrected(root, lines, cfg);
    var expected := Indentation(cfg, Depth(root, i + 1));
    if IsBlank(lines[i]) {
      assert fixed[i] == expected;
    } else {
      assert fixed[i] == lines[i];
    }
  }

  /**
   Idempotence: the tree (and so every depth) is unchanged by fixes that only
   touch blank lines, and a second pass over the corrected lines reports
   nothing.
   */
  lemma {:induction false} CorrectionIsIdempotent(root: Node, lines: seq<string>, cfg: Config, n: nat)
    requires SupportedConfig(cfg)
    requires n <= |lines|
    ensures OffensesUpTo(root, Corrected(root, lines, cfg), cfg, n) == []
  {
    if n > 0 {
      CorrectionIsIdempotent(root, lines, cfg, n - 1);
      CorrectedLineSettles(root, lines, cfg, n - 1);
    }
  }

  /** Each corrected line is the text the pass's fix puts there, or the line itself when it has no offense. */
  lemma CorrectedIsFixes(root: Node, lines: seq<string>, cfg: Config, i: nat)
    requires SupportedConfig(cfg)
    requires i < |lines|
    ensures Corrected(root, lines, cfg)[i] ==
      match LineOffense(root, lines, cfg, i)
      case Some(o) => o.fix.value.text
      case None => lines[i]
  {
  }

  /** A line's range depends only on that line and the lines before it. */
  lemma {:induction false} LineRangeOfPrefix(a: seq<string>, b: seq<string>, i: nat)
    requires i < |a| && i < |b|
    requires a[..i + 1] == b[..i + 1]
    ensures LineRange(a, i) == LineRange(b, i)
  {
    assert a[i] == a[..i + 1][i] == b[..i + 1][i] == b[i];
    if i > 0 {
      assert a[0] == a[..i + 1][0] == b[..i + 1][0] == b[0];
      assert a[1..][..i] == a[..i + 1][1..] == b[..i + 1][1..] == b[1..][..i];
      LineRangeOfPrefix(a[1..], b[1..], i - 1);
    }
  }

  /** Un-correcting line `n - 1` of a partly corrected list of lines. */
  lemma MixStep(lines: seq<string>, fixed: seq<string>, n: nat)
    requires |fixed| == |lines| && 0 < n <= |lines|
    ensures |lines[..n] + fixed[n..]| == |lines|
    ensures (lines[..n] + fixed[n..])[..n] == lines[..n]
    ensures (lines[..n] + fixed[n..])[n - 1 := fixed[n - 1]] == lines[..n - 1] + fixed[n - 1..]
  {
  }

  /**
   Applying, last to first, the fixes of the first `n` lines to the buffer
   whose later lines are already corrected gives the corrected buffer.
   */
  lemma {:induction false} ApplyFixesUpTo(root: Node, lines: seq<string>, cfg: Config, n: nat)
    requires SupportedConfig(cfg)
    requires n <= |lines|
    ensures ApplyFixes(Join(lines[..n] + Corrected(root, lines, cfg)[n..]), OffensesUpTo(root, lines, cfg, n))
         == Some(Join(Corrected(root, lines, cfg)))
  {
    var fixed := Corrected(root, lines, cfg);
    if n == 0 {
      assert lines[..0] + fixed[0..] == fixed;
    } else {
      var mix := lines[..n] + fixed[n..];
      var before := lines[..n - 1] + fixed[n - 1..];
      ApplyFixesUpTo(root, lines, cfg, n - 1);
      CorrectedIsFixes(root, lines, cfg, n - 1);
      MixStep(lines, fixed, n);
      var prev := OffensesUpTo(root, lines, cfg, n - 1);
      var line := LineOffense(root, lines, cfg, n - 1);
      if line.None? {
        assert mix[n - 1] == fixed[n - 1];
        assert mix == before by {
          assert mix == mix[n - 1 := fixed[n - 1]];
        }
        assert OffensesUpTo(root, lines, cfg, n) == prev + [];
        assert prev + [] == prev;
      } else {
        var o := line.value;
        LineOffenseIff(root, lines, cfg, n - 1);
        assert OffensesUpTo(root, lines, cfg, n) == prev + [o];
        LineRangeOfPrefix(lines, mix, n - 1);
        FixReplacesLine(mix, n - 1, fixed[n - 1]);
        ApplyFixesSnoc(Join(mix), prev, o);
      }
    }
  }

  /**
   The corrector's result: applying every fix of one pass to the buffer
   gives the buffer of the corrected lines, and a second pass over those
   lines reports nothing.
   */
  lemma FixesProduceCorrected(root: Node, lines: seq<string>, cfg: Config)
    requires SupportedConfig(cfg)
    ensures ApplyFixes(Join(lines), Offenses(root, lines, cfg)) == Some(Join(Corrected(root, lines, cfg)))
    ensures Offenses(root, Corrected(root, lines, cfg), cfg) == []
  {
    ApplyFixesUpTo(root, lines, cfg, |lines|);
    assert lines[..|lines|] + Corrected(root, lines, cfg)[|lines|..] == lines;
    CorrectionIsIdempotent(root, lines, cfg, |lines|);
  }

  /** The tree of `def foo` whose body is two statements on lines 2 and 4. */
  function ScenarioTree(): Node {
    Node(Def, Some(Location(1, 5)), [
      Atom,
      Node(Args, None, []),
      Node(Begin, Some(Location(2, 4)), [
        Node(Send, Some(Location(2, 2)), []),
        Node(Send, Some(Location(4, 4)), [])])])
  }

  /** Its lines, with `blank` as line 3 (the buffer ends in a line feed). */
  function ScenarioLines(blank: string): seq<string> {
    ["def foo", "\tputs 'bar'", blank, "\tputs 'baz'", "end", ""]
  }

  const DefaultConfig: Config := Config(None, None, None, None)

  lemma ScenarioDepths()
    ensures Spans(ScenarioTree()) == [Location(1, 5)]
    ensures Depth(ScenarioTree(), 3) == 1
    ensures Depth(ScenarioTree(), 6) == 0
  {
    var cs := ScenarioTree().children;
    assert ChildSpans(cs[..1]) == [] by { assert cs[..1][..0] == []; }
    var body := cs[2];
    assert ChildSpans(body.children) == [] by {
      assert body.children[..1][..0] == [];
    }
    assert cs[..2][..1] == cs[..1];
    assert ChildSpans(cs[..2]) == [];
  }

  /** The lines other than the blank third are not blank; the last is blank and at depth 0. */
  lemma ScenarioOtherLines(blank: string, i: nat)
    requires i < 6 && i != 2
    ensures LineOffense(ScenarioTree(), ScenarioLines(blank), DefaultConfig, i).None?
  {
    var lines := ScenarioLines(blank);
    if i == 5 {
      ScenarioDepths();
      assert Indentation(DefaultConfig, 0) == "";
    } else {
      var k := if i == 0 || i == 4 then 0 else 1;
      assert !IsStripped(lines[i][k]);
      NonBlankLinesNeverOffend(ScenarioTree(), lines, DefaultConfig, i);
    }
  }

  /** Only the blank third line can contribute an offense to the scenario. */
  lemma ScenarioOnlyThirdLine(blank: string)
    ensures OffensesUpTo(ScenarioTree(), ScenarioLines(blank), DefaultConfig, 2) == []
    ensures Offenses(ScenarioTree(), ScenarioLines(blank), DefaultConfig)
         == OffensesUpTo(ScenarioTree(), ScenarioLines(blank), DefaultConfig, 3)
  {
    var root, lines, cfg := ScenarioTree(), ScenarioLines(blank), DefaultConfig;
    ScenarioOtherLines(blank, 0);
    assert OffensesUpTo(root, lines, cfg, 1) == [];
    ScenarioOtherLines(blank, 1);
    ScenarioOtherLines(blank, 3);
    assert OffensesUpTo(root, lines, cfg, 4) == OffensesUpTo(root, lines, cfg, 3);
    ScenarioOtherLines(blank, 4);
    assert OffensesUpTo(root, lines, cfg, 5) == OffensesUpTo(root, lines, cfg, 3);
    ScenarioOtherLines(blank, 5);
  }

  /**
   The scenario of the rule's own test: in a method body at depth 1 a blank
   line of two tabs is the one offense, over that line, and its fix leaves
   one tab.
   */
  lemma ScenarioMisindented()
    ensures Offenses(ScenarioTree(), ScenarioLines("\t\t"), DefaultConfig)
         == [Offense(Range(20, 22), BlankLineMessage, Some(Edit(Range(20, 22), "\t")))]
  {
    var root, lines := ScenarioTree(), ScenarioLines("\t\t");
    ScenarioDepths();
    assert Indentation(DefaultConfig, 1) == "\t";
    assert LineStart(lines, 2) == 20;
    assert LineRange(lines, 2) == Range(20, 22);
    assert IsBlank(lines[2]) && lines[2] != "\t" by {
      assert lines[2] == "\t\t" && |lines[2]| == 2;
    }
    assert LineOffense(root, lines, DefaultConfig, 2)
        == Some(Offense(Range(20, 22), BlankLineMessage, Some(Edit(Range(20, 22), "\t"))));
    ScenarioOnlyThirdLine("\t\t");
  }

  /** The same method with a one-tab blank line yields no offense. */
  lemma ScenarioIndented()
    ensures Offenses(ScenarioTree(), ScenarioLines("\t"), DefaultConfig) == []
  {
    var root, lines := ScenarioTree(), ScenarioLines("\t");
    ScenarioDepths();
    assert Indentation(DefaultConfig, 1) == "\t";
    assert LineOffense(root, lines, DefaultConfig, 2).None?;
    ScenarioOnlyThirdLine("\t");
  }
}
