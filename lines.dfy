/** Line splitting as `std::getline` on an `std::istringstream` performs it,
    and the "last non-empty line" helper built on it. */
module Lines {
  import opened Strings

  /** The first index of `c` in `s`, or -1 (`s.find(c)`). */
  function IndexOf(s: string, c: char): (r: int)
    ensures r == -1 <==> c !in s
    ensures r != -1 ==> 0 <= r < |s| && s[r] == c && c !in s[..r]
  {
    if s == [] then -1
    else if s[0] == c then 0
    else
      var k := IndexOf(s[1..], c);
      assert s == [s[0]] + s[1..];
      if k == -1 then -1
      else
        assert s[..k + 1] == [s[0]] + s[1..][..k];
        k + 1
  }

  /** The lines `std::getline` extracts from `s`, in order: every segment
      ended by '\n', plus a final unterminated segment if one is left. An
      empty input yields no line; a trailing '\n' does not start one. */
  function GetLines(s: string): seq<string>
    decreases |s|
  {
    if s == [] then []
    else
      var k := IndexOf(s, '\n');
      if k == -1 then [s] else [s[..k]] + GetLines(s[k + 1..])
  }

  /** Every extracted line is free of '\n'. */
  lemma {:induction false} GetLinesNoNewline(s: string)
    ensures forall i :: 0 <= i < |GetLines(s)| ==> '\n' !in GetLines(s)[i]
    decreases |s|
  {
    if s != [] {
      var k := IndexOf(s, '\n');
      if k != -1 {
        GetLinesNoNewline(s[k + 1..]);
      }
    }
  }

  /** Each line followed by '\n', concatenated. */
  function Unlines(lines: seq<string>): string {
    if lines == [] then "" else lines[0] + "\n" + Unlines(lines[1..])
  }

  lemma UnlinesCons(line: string, lines: seq<string>)
    ensures Unlines([line] + lines) == line + "\n" + Unlines(lines)
  {
    assert ([line] + lines)[1..] == lines;
  }

  /** Re-joining the extracted lines gives back the input, with a '\n'
      added when the input did not already end in one. */
  lemma {:induction false} GetLinesRoundTrip(s: string)
    ensures s == [] || s[|s| - 1] == '\n' ==> Unlines(GetLines(s)) == s
    ensures s != [] && s[|s| - 1] != '\n' ==> Unlines(GetLines(s)) == s + "\n"
    decreases |s|
  {
    if s != [] {
      var k := IndexOf(s, '\n');
      if k == -1 {
        assert GetLines(s) == [s];
        UnlinesCons(s, []);
        assert s + "\n" + "" == s + "\n";
        assert s[|s| - 1] != '\n';
      } else {
        var line, rest := s[..k], s[k + 1..];
        var u := Unlines(GetLines(rest));
        GetLinesRoundTrip(rest);
        assert GetLines(s) == [line] + GetLines(rest);
        UnlinesCons(line, GetLines(rest));
        assert Unlines(GetLines(s)) == line + "\n" + u;
        SplitAtNewline(s, k);
        JoinStep(line, rest, u);
      }
    }
  }

  lemma SplitAtNewline(s: string, k: int)
    requires 0 <= k < |s| && s[k] == '\n'
    ensures s == s[..k] + "\n" + s[k + 1..]
  {
    assert s == s[..k] + [s[k]] + s[k + 1..];
  }

  /** One line and its '\n' in front of a re-joined rest. */
  lemma JoinStep(line: string, rest: string, u: string)
    requires rest == [] || rest[|rest| - 1] == '\n' ==> u == rest
    requires rest != [] && rest[|rest| - 1] != '\n' ==> u == rest + "\n"
    ensures var s := line + "\n" + rest;
      (s[|s| - 1] == '\n' ==> line + "\n" + u == s) &&
      (s[|s| - 1] != '\n' ==> line + "\n" + u == s + "\n")
  {
    var t := line + "\n";
    if rest != [] {
      assert (t + rest)[|t + rest| - 1] == rest[|rest| - 1];
      AppendAssoc(t, rest, "\n");
    }
  }

  /** The last non-empty entry of `lines`, or "" when there is none. */
  function LastNonEmpty(lines: seq<string>): string {
    if lines == [] then ""
    else if lines[|lines| - 1] != "" then lines[|lines| - 1]
    else LastNonEmpty(lines[..|lines| - 1])
  }

  /** `LastNonEmpty` is "" exactly when every line is empty; otherwise it is
      a non-empty line after which only empty lines follow. */
  lemma {:induction false} LastNonEmptySpec(lines: seq<string>)
    ensures LastNonEmpty(lines) == "" <==> forall i :: 0 <= i < |lines| ==> lines[i] == ""
    ensures LastNonEmpty(lines) != "" ==>
      exists i :: 0 <= i < |lines| && lines[i] == LastNonEmpty(lines) &&
        forall j :: i < j < |lines| ==> lines[j] == ""
  {
    if lines != [] && lines[|lines| - 1] == "" {
      var init := lines[..|lines| - 1];
      LastNonEmptySpec(init);
      if LastNonEmpty(init) != "" {
        var i :| 0 <= i < |init| && init[i] == LastNonEmpty(init) &&
          forall j :: i < j < |init| ==> init[j] == "";
        assert lines[i] == LastNonEmpty(lines);
      }
    }
  }

  /** One `getline` call: the line it returns and what is left unread. */
  lemma GetLinesStep(s: string)
    requires s != []
    ensures IndexOf(s, '\n') == -1 ==> GetLines(s) == [s]
    ensures IndexOf(s, '\n') != -1 ==>
      GetLines(s) == [s[..IndexOf(s, '\n')]] + GetLines(s[IndexOf(s, '\n') + 1..])
  {
  }

  /** The last non-empty line of `str`, found by the `getline` loop of the
      source: each non-empty line read replaces the previous candidate.
      `rest` is the part of the stream not read yet. */
  method GetLastNonEmptyLine(str: string) returns (lastLine: string)
    ensures lastLine == LastNonEmpty(GetLines(str))
  {
    lastLine := "";
    var rest := str;
    ghost var done: seq<string> := [];
    while rest != []
      invariant GetLines(str) == done + GetLines(rest)
      invariant lastLine == LastNonEmpty(done)
      decreases |rest|
    {
      var k := IndexOf(rest, '\n');
      GetLinesStep(rest);
      ghost var before := rest;
      var line;
      if k == -1 {
        line := rest;
        rest := [];
      } else {
        line := rest[..k];
        rest := rest[k + 1..];
      }
      ghost var after := GetLines(rest);
      assert GetLines(before) == [line] + after;
      AppendAssoc(done, [line], after);
      assert (done + [line])[..|done|] == done;
      if line != "" {
        lastLine := line;
      }
      done := done + [line];
    }
    assert done + [] == done;
  }

  /** The result of `GetLastNonEmptyLine` never contains '\n', and it is ""
      exactly when the input has no non-empty line. */
  lemma LastNonEmptyLineShape(str: string)
    ensures '\n' !in LastNonEmpty(GetLines(str))
    ensures LastNonEmpty(GetLines(str)) == "" <==>
      forall i :: 0 <= i < |GetLines(str)| ==> GetLines(str)[i] == ""
  {
    GetLinesNoNewline(str);
    LastNonEmptySpec(GetLines(str));
  }
}
