/** The string utilities of src/Utils.cpp: undoing JSON escapes in streamed
    code, holding back a trailing backslash between stream fragments, and
    squeezing tool output onto one display line of bounded length. A Dafny
    `char` stands for one byte. */
module Escapes {
  import opened Strings

  /** What `unescape_string` computes: five left-to-right replacement
      passes, in this order. */
  function Unescape(s: string): string {
    var s1 := Replace(s, "\\\\", "\\");
    var s2 := Replace(s1, "\\n", "\n");
    var s3 := Replace(s2, "\\\"", "\"");
    var s4 := Replace(s3, "\\t", "\t");
    Replace(s4, "\\'", "'")
  }

  /** `unescape_string`: each pass a `find`/`replace` loop over the string. */
  method UnescapeString(s0: string) returns (s: string)
    ensures s == Unescape(s0)
  {
    s := ReplaceAll(s0, "\\\\", "\\");
    s := ReplaceAll(s, "\\n", "\n");
    s := ReplaceAll(s, "\\\"", "\"");
    s := ReplaceAll(s, "\\t", "\t");
    s := ReplaceAll(s, "\\'", "'");
  }

  /** A string without backslashes holds no two-character escape. */
  lemma NoEscapeWithoutBackslash(s: string, second: char)
    requires '\\' !in s
    ensures forall i :: !OccursAt(s, ['\\', second], i)
  {
    forall i ensures !OccursAt(s, ['\\', second], i) {
      if 0 <= i < |s| {
        assert s[i] in s;
      }
    }
  }

  /** A string with no backslash is returned unchanged. */
  lemma UnescapeNoBackslash(s: string)
    requires '\\' !in s
    ensures Unescape(s) == s
  {
    NoEscapeWithoutBackslash(s, '\\');
    ReplaceNoOccurrence(s, "\\\\", "\\");
    NoEscapeWithoutBackslash(s, 'n');
    ReplaceNoOccurrence(s, "\\n", "\n");
    NoEscapeWithoutBackslash(s, '"');
    ReplaceNoOccurrence(s, "\\\"", "\"");
    NoEscapeWithoutBackslash(s, 't');
    ReplaceNoOccurrence(s, "\\t", "\t");
    NoEscapeWithoutBackslash(s, '\'');
    ReplaceNoOccurrence(s, "\\'", "'");
  }

  /** Unescaping never lengthens a string: every replacement puts one
      character in place of two. */
  lemma UnescapeNeverLonger(s: string)
    ensures |Unescape(s)| <= |s|
  {
    var s1 := Replace(s, "\\\\", "\\");
    var s2 := Replace(s1, "\\n", "\n");
    var s3 := Replace(s2, "\\\"", "\"");
    var s4 := Replace(s3, "\\t", "\t");
    ReplaceShrinks(s, "\\\\", "\\");
    ReplaceShrinks(s1, "\\n", "\n");
    ReplaceShrinks(s2, "\\\"", "\"");
    ReplaceShrinks(s3, "\\t", "\t");
    ReplaceShrinks(s4, "\\'", "'");
  }

  /** Because the double-backslash pass runs first, an escaped backslash
      followed by `n` becomes a newline rather than a backslash and `n`. */
  lemma UnescapeBackslashN()
    ensures Unescape("\\\\n") == "\n"
  {
    var s1 := Replace("\\\\n", "\\\\", "\\");
    assert "\\\\n"[..2] == "\\\\" && "\\\\n"[2..] == "n";
    assert Replace("n", "\\\\", "\\") == "n";
    assert s1 == "\\n";
    var s2 := Replace(s1, "\\n", "\n");
    assert s1[..2] == "\\n" && s1[2..] == [];
    assert s2 == "\n";
    UnescapeNoBackslashTail("\n");
  }

  /** The last three passes leave a backslash-free string alone. */
  lemma UnescapeNoBackslashTail(s: string)
    requires '\\' !in s
    ensures Replace(Replace(Replace(s, "\\\"", "\""), "\\t", "\t"), "\\'", "'") == s
  {
    NoEscapeWithoutBackslash(s, '"');
    ReplaceNoOccurrence(s, "\\\"", "\"");
    NoEscapeWithoutBackslash(s, 't');
    ReplaceNoOccurrence(s, "\\t", "\t");
    NoEscapeWithoutBackslash(s, '\'');
    ReplaceNoOccurrence(s, "\\'", "'");
  }

  /** The part of a buffer that can be shown now and the part kept for the
      next fragment. */
  datatype SafeSplit = SafeSplit(safe: string, rest: string)

  /** `safe_print_with_escapes`: a trailing backslash may start an escape
      that the next fragment completes, so it is held back. */
  function SafePrintWithEscapes(buffer: string): (r: SafeSplit)
    ensures r.safe + r.rest == buffer
    ensures r.rest == "\\" <==> buffer != [] && buffer[|buffer| - 1] == '\\'
    ensures r.rest == "" || r.rest == "\\"
  {
    if buffer == [] then SafeSplit("", "")
    else if buffer[|buffer| - 1] == '\\' then SafeSplit(buffer[..|buffer| - 1], "\\")
    else SafeSplit(buffer, "")
  }

  /** The two passes of `format_output_for_display` before truncation. */
  function Escaped(output: string): string {
    Replace(Replace(output, "\n", "\\n"), "\t", "\\t")
  }

  const MaxLength := 200

  /** The bytes a UTF-8 sequence occupies, judged from its first byte. */
  function SequenceLength(c: char): nat {
    if c as int < 0x80 then 1
    else if c as int < 0xE0 then 2
    else if c as int < 0xF0 then 3
    else 4
  }

  /** Where the counting loop stops: from byte `pos` with `count`
      characters counted, step over whole sequences until the end of the
      string is reached or `MaxLength` characters are counted. The result
      may overshoot the end by a truncated final sequence. */
  function CutPoint(s: string, pos: nat, count: nat): (r: nat)
    ensures pos <= r
    decreases |s| - pos
  {
    if pos < |s| && count < MaxLength then CutPoint(s, pos + SequenceLength(s[pos]), count + 1)
    else pos
  }

  /** The result of `format_output_for_display`. */
  function FormatOutput(output: string): string {
    var formatted := Escaped(output);
    if |formatted| > MaxLength then
      var endPos := CutPoint(formatted, 0, 0);
      if endPos < |formatted| then formatted[..endPos] + "..." else formatted
    else formatted
  }

  /** `format_output_for_display`: two in-place replacement loops, then the
      counting loop. */
  method FormatOutputForDisplay(output: string) returns (formatted: string)
    ensures formatted == FormatOutput(output)
  {
    formatted := ReplaceAll(output, "\n", "\\n");
    formatted := ReplaceAll(formatted, "\t", "\\t");
    if |formatted| > MaxLength {
      var endPos: nat := 0;
      var charCount: nat := 0;
      while endPos < |formatted| && charCount < MaxLength
        invariant CutPoint(formatted, endPos, charCount) == CutPoint(formatted, 0, 0)
        decreases |formatted| - endPos
      {
        var c := formatted[endPos];
        if c as int < 0x80 {
          endPos := endPos + 1;
        } else if c as int < 0xE0 {
          endPos := endPos + 2;
        } else if c as int < 0xF0 {
          endPos := endPos + 3;
        } else {
          endPos := endPos + 4;
        }
        charCount := charCount + 1;
      }
      if endPos < |formatted| {
        formatted := formatted[..endPos] + "...";
      }
    }
  }

  /** Counting `n` more characters advances between `n` and `4 * n` bytes,
      unless the end of the string comes first. */
  lemma {:induction false} CutPointBounds(s: string, pos: nat, count: nat)
    requires count <= MaxLength
    ensures var r := CutPoint(s, pos, count);
      r <= pos + 4 * (MaxLength - count) &&
      (r < |s| ==> r >= pos + (MaxLength - count))
    decreases |s| - pos
  {
    if pos < |s| && count < MaxLength {
      CutPointBounds(s, pos + SequenceLength(s[pos]), count + 1);
    }
  }

  /** The display text is one line: it holds no newline and no tab. */
  lemma FormatOutputOneLine(output: string)
    ensures '\n' !in FormatOutput(output) && '\t' !in FormatOutput(output)
  {
    var s1 := Replace(output, "\n", "\\n");
    ReplaceRemoves(output, '\n', "\\n");
    ReplaceAvoids(s1, "\t", "\\t", '\n');
    ReplaceRemoves(s1, '\t', "\\t");
    var e := Escaped(output);
    if |e| > MaxLength {
      var endPos := CutPoint(e, 0, 0);
      if endPos < |e| {
        var r := e[..endPos] + "...";
        assert forall i :: 0 <= i < |r| ==> r[i] != '\n' && r[i] != '\t' by {
          forall i | 0 <= i < |r| ensures r[i] != '\n' && r[i] != '\t' {
            if i < endPos {
              assert r[i] == e[i];
            }
          }
        }
      }
    }
  }

  /** The number of UTF-8 sequences that start in bytes `pos` to `end` of
      `s`, each judged by its first byte as the counting loop judges it. */
  function Sequences(s: string, pos: nat, end: nat): nat
    requires end <= |s|
    decreases end - pos
  {
    if pos < end then 1 + Sequences(s, pos + SequenceLength(s[pos]), end) else 0
  }

  /** A UTF-8 continuation byte, `10xxxxxx`. */
  predicate IsContinuation(c: char) {
    0x80 <= c as int < 0xC0
  }

  /** From byte `pos` on, `s` is a run of whole UTF-8 sequences: each
      starts with a byte that is not a continuation byte, is followed by
      as many continuation bytes as that first byte announces, and fits in
      `s`. */
  predicate WholeSequences(s: string, pos: nat)
    decreases |s| - pos
  {
    pos == |s| ||
    (pos < |s| &&
     var n := SequenceLength(s[pos]);
     !IsContinuation(s[pos]) && pos + n <= |s| &&
     (forall j :: pos < j < pos + n ==> IsContinuation(s[j])) &&
     WholeSequences(s, pos + n))
  }

  /** Counting from byte `pos` with `count` characters counted stops before
      the end exactly when more than `MaxLength - count` sequences remain,
      and then the bytes it stepped over hold exactly that many sequences. */
  lemma {:induction false} CutPointCounts(s: string, pos: nat, count: nat)
    requires count <= MaxLength
    ensures var r := CutPoint(s, pos, count);
      (r < |s| <==> Sequences(s, pos, |s|) > MaxLength - count) &&
      (r < |s| ==> Sequences(s, pos, r) == MaxLength - count)
    decreases |s| - pos
  {
    if pos < |s| && count < MaxLength {
      CutPointCounts(s, pos + SequenceLength(s[pos]), count + 1);
    }
  }

  /** Over a run of whole sequences, the counting loop only ever stops on a
      sequence boundary. */
  lemma {:induction false} CutPointOnBoundary(s: string, pos: nat, count: nat)
    requires WholeSequences(s, pos)
    ensures WholeSequences(s, CutPoint(s, pos, count))
    decreases |s| - pos
  {
    if pos < |s| && count < MaxLength {
      CutPointOnBoundary(s, pos + SequenceLength(s[pos]), count + 1);
    }
  }

  /** Output whose escaped form holds at most `MaxLength` sequences is
      shown whole; otherwise the display text is the first `MaxLength`
      sequences of the escaped form, between `MaxLength` and
      `4 * MaxLength` bytes, followed by "...". */
  lemma FormatOutputLength(output: string)
    ensures var e := Escaped(output);
      var r := FormatOutput(output);
      var k := CutPoint(e, 0, 0);
      (|e| <= MaxLength ==> r == e) &&
      (Sequences(e, 0, |e|) <= MaxLength ==> r == e) &&
      (Sequences(e, 0, |e|) > MaxLength ==>
        k < |e| && r == e[..k] + "..." && Sequences(e, 0, k) == MaxLength &&
        MaxLength <= k <= 4 * MaxLength)
  {
    var e := Escaped(output);
    CutPointBounds(e, 0, 0);
    CutPointCounts(e, 0, 0);
  }

  /** When the escaped text is a run of whole UTF-8 sequences, truncation
      never splits a character: it cuts on a sequence boundary, so the
      first byte cut off is not a continuation byte. */
  lemma FormatOutputKeepsCharacters(output: string)
    requires WholeSequences(Escaped(output), 0)
    ensures var e := Escaped(output);
      var k := CutPoint(e, 0, 0);
      FormatOutput(output) != e ==>
        k < |e| && WholeSequences(e, k) && !IsContinuation(e[k])
  {
    CutPointOnBoundary(Escaped(output), 0, 0);
  }
}
