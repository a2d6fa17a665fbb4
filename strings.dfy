/**
  The Python `str` operations the bots rely on: `isspace`, `lstrip()`,
  `split('\n')`, `'\n'.join(...)`, `capitalize()` and `upper()`, and the
  line normalisation built from the first four.
 */
module Strings {

  /** Python's `str.isspace()` on one character: the characters `lstrip()`
      with no argument removes. */
  predicate IsSpace(c: char) {
    c == ' ' || '\t' <= c <= '\r' || '\U{1c}' <= c <= '\U{1f}'
    || c == '\U{85}' || c == '\U{a0}' || c == '\U{1680}'
    || '\U{2000}' <= c <= '\U{200a}' || c == '\U{2028}' || c == '\U{2029}'
    || c == '\U{202f}' || c == '\U{205f}' || c == '\U{3000}'
  }

  /** Whether `r` is what is left of `s` after dropping some leading
      characters. */
  predicate IsSuffix(r: string, s: string) {
    |r| <= |s| && r == s[|s| - |r|..]
  }

  /** `s.lstrip()`: `s` without its leading whitespace. The result is a suffix
      of `s`, everything removed is whitespace, and what is left does not start
      with whitespace; these three facts determine the result. */
  function LStrip(s: string): (r: string)
    ensures IsSuffix(r, s)
    ensures forall i :: 0 <= i < |s| - |r| ==> IsSpace(s[i])
    ensures r == [] || !IsSpace(r[0])
  {
    if s != [] && IsSpace(s[0]) then LStrip(s[1..]) else s
  }

  /** Whether `w` is made of whitespace only. */
  predicate AllSpace(w: string) {
    forall i :: 0 <= i < |w| ==> IsSpace(w[i])
  }

  /** A line `lstrip()` leaves alone. */
  predicate Unindented(line: string) {
    line == [] || !IsSpace(line[0])
  }

  /** `lstrip()` leaves a string alone that does not start with
      whitespace. */
  lemma LStripUnindented(s: string)
    requires Unindented(s)
    ensures LStrip(s) == s
  {
  }

  /** `lstrip()` removes any whitespace put in front of a string. */
  lemma {:induction false} LStripIndented(w: string, s: string)
    requires AllSpace(w)
    ensures LStrip(w + s) == LStrip(s)
  {
    if w != [] {
      assert (w + s)[0] == w[0] && (w + s)[1..] == w[1..] + s;
      LStripIndented(w[1..], s);
    } else {
      assert w + s == s;
    }
  }

  /** `lstrip()` never looks past the first character that is not whitespace. */
  lemma {:induction false} LStripAppend(s: string, t: string)
    requires t != [] && !IsSpace(t[0])
    ensures LStrip(s + t) == LStrip(s) + t
  {
    if s != [] {
      assert (s + t)[0] == s[0] && (s + t)[1..] == s[1..] + t;
      if IsSpace(s[0]) {
        LStripAppend(s[1..], t);
      }
    }
  }

  /** `s.split('\n')`: the pieces of `s` between its newline characters, in
      order. There is always at least one piece, and no piece holds a newline. */
  function Split(s: string): (lines: seq<string>)
    ensures |lines| >= 1
    ensures forall i :: 0 <= i < |lines| ==> '\n' !in lines[i]
  {
    if s == [] then [[]]
    else
      var rest := Split(s[1..]);
      if s[0] == '\n' then [[]] + rest
      else [[s[0]] + rest[0]] + rest[1..]
  }

  /** Two single lines written one after the other make a single line. */
  lemma SingleLineConcat(a: string, b: string)
    requires '\n' !in a && '\n' !in b
    ensures '\n' !in a + b
  {
  }

  /** `'\n'.join(lines)`. */
  function Join(lines: seq<string>): string {
    if |lines| == 0 then []
    else if |lines| == 1 then lines[0]
    else lines[0] + "\n" + Join(lines[1..])
  }

  /** Lines that `Split` can produce: at least one, none holding a newline. */
  predicate WellFormedLines(lines: seq<string>) {
    |lines| >= 1 && forall i :: 0 <= i < |lines| ==> '\n' !in lines[i]
  }

  /** Joining the pieces again gives back the string that was split. */
  lemma {:induction false} JoinSplit(s: string)
    ensures Join(Split(s)) == s
  {
    if s != [] {
      var rest := Split(s[1..]);
      JoinSplit(s[1..]);
      if s[0] == '\n' {
        assert Split(s) == [[]] + rest;
        assert Split(s)[1..] == rest;
      } else if |rest| == 1 {
        assert Split(s) == [[s[0]] + rest[0]];
      } else {
        assert Split(s)[1..] == rest[1..];
        assert Join(rest) == rest[0] + "\n" + Join(rest[1..]);
      }
    }
  }

  /** A line without a newline splits into itself. */
  lemma {:induction false} SplitLine(a: string)
    requires '\n' !in a
    ensures Split(a) == [a]
  {
    if a != [] {
      SplitLine(a[1..]);
      assert [a[0]] + a[1..] == a;
    }
  }

  /** Splitting stops at the first newline. */
  lemma {:induction false} SplitFirstLine(a: string, b: string)
    requires '\n' !in a
    ensures Split(a + "\n" + b) == [a] + Split(b)
  {
    var s := a + "\n" + b;
    if a == [] {
      assert s[0] == '\n' && s[1..] == b;
    } else {
      assert s[0] == a[0] && s[1..] == a[1..] + "\n" + b;
      SplitFirstLine(a[1..], b);
      assert [a[0]] + a[1..] == a;
    }
  }

  /** Splitting takes a join of well-formed lines apart again: `Split` and
      `Join` are inverse to each other. */
  lemma {:induction false} SplitJoin(lines: seq<string>)
    requires WellFormedLines(lines)
    ensures Split(Join(lines)) == lines
  {
    if |lines| == 1 {
      SplitLine(lines[0]);
    } else {
      assert '\n' !in lines[0];
      assert WellFormedLines(lines[1..]) by {
        forall i | 0 <= i < |lines| - 1 ensures '\n' !in lines[1..][i] {
          assert lines[1..][i] == lines[i + 1];
        }
      }
      SplitJoin(lines[1..]);
      SplitFirstLine(lines[0], Join(lines[1..]));
      assert [lines[0]] + lines[1..] == lines;
    }
  }

  /** `[line.lstrip() for line in lines]`. */
  function LStripEach(lines: seq<string>): seq<string> {
    seq(|lines|, i requires 0 <= i < |lines| => LStrip(lines[i]))
  }

  /** Stripping each line of a concatenation strips each part. */
  lemma LStripEachAppend(a: seq<string>, b: seq<string>)
    ensures LStripEach(a + b) == LStripEach(a) + LStripEach(b)
  {
  }

  /** Stripping each line of a concatenation of three parts strips each
      part. */
  lemma LStripEachAppend3(a: seq<string>, b: seq<string>, c: seq<string>)
    ensures LStripEach(a + b + c) == LStripEach(a) + LStripEach(b) + LStripEach(c)
  {
  }

  /** Lines that do not start with whitespace are left as they are. */
  lemma LStripEachUnindented(lines: seq<string>)
    requires forall k :: 0 <= k < |lines| ==> Unindented(lines[k])
    ensures LStripEach(lines) == lines
  {
    forall k | 0 <= k < |lines| ensures LStrip(lines[k]) == lines[k] {
      LStripUnindented(lines[k]);
    }
  }

  /** Every line with `indent` in front of it. */
  function Indented(indent: string, lines: seq<string>): seq<string> {
    seq(|lines|, i requires 0 <= i < |lines| => indent + lines[i])
  }

  /** The lines of a triple-quoted literal that opens with a newline, holds
      each of `lines` after `indent`, and closes on a line holding only the
      indentation. */
  function Block(indent: string, lines: seq<string>): seq<string> {
    [""] + Indented(indent, lines) + [indent]
  }

  /** A block of single lines with a single-line indentation is made of
      single lines. */
  lemma BlockWellFormed(indent: string, lines: seq<string>)
    requires '\n' !in indent
    requires forall k :: 0 <= k < |lines| ==> '\n' !in lines[k]
    ensures WellFormedLines(Block(indent, lines))
  {
    var b := Block(indent, lines);
    forall i | 0 <= i < |b| ensures '\n' !in b[i] {
      if 0 < i < |b| - 1 {
        assert b[i] == indent + lines[i - 1];
      }
    }
  }

  /** Stripping every line of a block whose indentation is whitespace leaves
      an empty first line, the stripped lines, and an empty last line. */
  lemma StripBlock(indent: string, lines: seq<string>)
    requires AllSpace(indent)
    ensures LStripEach(Block(indent, lines)) == [""] + LStripEach(lines) + [""]
  {
    LStripEachAppend3([""], Indented(indent, lines), [indent]);
    forall k | 0 <= k < |lines| ensures LStrip(indent + lines[k]) == LStrip(lines[k]) {
      LStripIndented(indent, lines[k]);
    }
    assert LStripEach(Indented(indent, lines)) == LStripEach(lines);
    LStripIndented(indent, "");
    assert indent + "" == indent;
  }

  /** Normalising a block of single lines gives, line by line, an empty line,
      the stripped lines, and an empty line. */
  lemma NormalisedBlock(indent: string, lines: seq<string>)
    requires AllSpace(indent) && '\n' !in indent
    requires forall k :: 0 <= k < |lines| ==> '\n' !in lines[k]
    ensures Split(StripIndentation(Join(Block(indent, lines)))) == [""] + LStripEach(lines) + [""]
  {
    BlockWellFormed(indent, lines);
    StripJoinedLines(Block(indent, lines));
    StripBlock(indent, lines);
  }

  /** `'\n'.join([line.lstrip() for line in s.split('\n')])`: removes the
      indentation of every line of `s`. */
  function StripIndentation(s: string): string {
    Join(LStripEach(Split(s)))
  }

  /** The normalisation keeps the number of lines, turns every line into a
      suffix of itself by dropping only whitespace, and leaves no line that
      starts with whitespace. */
  lemma StripIndentationLines(s: string)
    ensures |Split(StripIndentation(s))| == |Split(s)|
    ensures forall i :: 0 <= i < |Split(s)| ==>
      var before, after := Split(s)[i], Split(StripIndentation(s))[i];
      |after| <= |before| && after == before[|before| - |after|..]
      && (forall j :: 0 <= j < |before| - |after| ==> IsSpace(before[j]))
      && Unindented(after)
  {
    NormalisedSplit(s);
  }

  /** Splitting the normalised string gives the stripped lines of the input. */
  lemma NormalisedSplit(s: string)
    ensures Split(StripIndentation(s)) == LStripEach(Split(s))
  {
    var lines := LStripEach(Split(s));
    forall i | 0 <= i < |lines| ensures '\n' !in lines[i] {
      assert '\n' !in Split(s)[i];
    }
    SplitJoin(lines);
  }

  /** Normalising well-formed lines joined by newlines strips each of them. */
  lemma StripJoinedLines(lines: seq<string>)
    requires WellFormedLines(lines)
    ensures Split(StripIndentation(Join(lines))) == LStripEach(lines)
  {
    SplitJoin(lines);
    NormalisedSplit(Join(lines));
  }

  /** Normalising twice is the same as normalising once. */
  lemma StripIndentationIdempotent(s: string)
    ensures StripIndentation(StripIndentation(s)) == StripIndentation(s)
  {
    NormalisedSplit(s);
    LStripEachUnindented(LStripEach(Split(s)));
  }

  /** Python's case mappings on one character, kept abstract: the Unicode case
      tables are not part of this model. Each maps a character to a string,
      since a full case mapping may turn one character into several. */
  datatype CaseMap = CaseMap(upper: char -> string, lower: char -> string, title: char -> string)

  /** Applies a per-character mapping to every character of `s`, in order. */
  function MapChars(f: char -> string, s: string): string {
    if s == [] then [] else f(s[0]) + MapChars(f, s[1..])
  }

  /** `s.upper()`. */
  function Upper(s: string, cm: CaseMap): string {
    MapChars(cm.upper, s)
  }

  /** `s.capitalize()`: the first character title-cased, every other one
      lower-cased. */
  function Capitalize(s: string, cm: CaseMap): string {
    if s == [] then [] else cm.title(s[0]) + MapChars(cm.lower, s[1..])
  }
}
