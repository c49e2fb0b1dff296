/**
 Text-level vocabulary shared by the three rules: offsets into the source
 buffer, the edits a corrector applies, offense records, and the character
 classes of Ruby's `/\s/` and `String#strip`.
 */
module SourceText {

  datatype Option<+T> = None | Some(value: T)

  /** A half-open range `[begin, end)` of character offsets into the buffer. */
  datatype Range = Range(begin: nat, end: nat)

  /**
   A corrector edit: the text of `range` is replaced by `text`.
   `remove(r)` is `Edit(r, "")`; `insert_before(r, t)` is `Edit(Range(r.begin, r.begin), t)`.
   */
  datatype Edit = Edit(range: Range, text: string)

  /** What a rule reports: where, why, and optionally how to fix it. */
  datatype Offense<M> = Offense(range: Range, message: M, fix: Option<Edit>)

  predicate ValidRange(s: string, r: Range) {
    r.begin <= r.end <= |s|
  }

  /** The buffer after one edit has been applied. */
  function Apply(s: string, e: Edit): (r: string)
    requires ValidRange(s, e.range)
    ensures |r| == |s| - (e.range.end - e.range.begin) + |e.text|
    ensures r[..e.range.begin] == s[..e.range.begin]
    ensures r[e.range.begin..e.range.begin + |e.text|] == e.text
    ensures r[e.range.begin + |e.text|..] == s[e.range.end..]
  {
    s[..e.range.begin] + e.text + s[e.range.end..]
  }

  /**
   The corrector applying the fixes of a list of offenses whose ranges
   ascend and do not overlap: the fixes are applied from the last offense
   to the first, so every range still refers to the text it was computed
   on. None when a range does not fit the text at that point.
   */
  function ApplyFixes<M>(s: string, offenses: seq<Offense<M>>): Option<string>
    decreases |offenses|
  {
    if offenses == [] then Some(s)
    else
      var last := offenses[|offenses| - 1];
      if last.fix.None? then ApplyFixes(s, offenses[..|offenses| - 1])
      else if !ValidRange(s, last.fix.value.range) then None
      else ApplyFixes(Apply(s, last.fix.value), offenses[..|offenses| - 1])
  }

  /** Appending one offense applies its fix first. */
  lemma ApplyFixesSnoc<M>(s: string, offenses: seq<Offense<M>>, o: Offense<M>)
    ensures o.fix.None? ==> ApplyFixes(s, offenses + [o]) == ApplyFixes(s, offenses)
    ensures o.fix.Some? && ValidRange(s, o.fix.value.range) ==>
      ApplyFixes(s, offenses + [o]) == ApplyFixes(Apply(s, o.fix.value), offenses)
  {
    assert (offenses + [o])[..|offenses|] == offenses;
  }

  /** An edit with empty text deletes its range. */
  lemma ApplyDeletes(s: string, e: Edit)
    requires ValidRange(s, e.range) && e.text == ""
    ensures Apply(s, e) == s[..e.range.begin] + s[e.range.end..]
  {
    assert s[..e.range.begin] + e.text == s[..e.range.begin];
  }

  /** Ruby's `/\s/`: space, tab, line feed, vertical tab, form feed, carriage return. */
  predicate IsSpace(c: char) {
    c == ' ' || c == '\t' || c == '\n' || c == '\U{B}' || c == '\U{C}' || c == '\r'
  }

  /** The characters `String#strip` removes: `/\s/` and the null character. */
  predicate IsStripped(c: char) {
    IsSpace(c) || c == '\0'
  }

  /** `line.strip.empty?`: the line holds nothing but strippable characters. */
  predicate IsBlank(line: string) {
    forall i :: 0 <= i < |line| ==> IsStripped(line[i])
  }

  /** `/\A\s+\z/`: a non-empty string of whitespace only. */
  predicate AllSpace(s: string) {
    |s| > 0 && forall i :: 0 <= i < |s| ==> IsSpace(s[i])
  }

  /** Ruby's `c * n` for a one-character string `c`. */
  function Repeat(c: char, n: nat): (r: string)
    ensures |r| == n
    ensures forall i :: 0 <= i < n ==> r[i] == c
  {
    if n == 0 then "" else Repeat(c, n - 1) + [c]
  }
}
