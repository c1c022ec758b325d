/** The load marker: text whose appearance in the model's output means the
    system prompt has been echoed and loading is over. code-atlas.cpp takes
    the last 20 bytes of the prompt; model_caller.cpp the last five words,
    joined by single spaces. */
module Markers {
  import opened Strings

  /** `isspace` in the "C" locale. */
  predicate IsSpace(c: char) {
    c == ' ' || c == '\t' || c == '\n' || c == '\U{0B}' || c == '\U{0C}' || c == '\r'
  }

  /** The length of the leading run of non-space characters of `t`. */
  function WordEnd(t: string): (r: nat)
    ensures r <= |t|
    ensures forall i :: 0 <= i < r ==> !IsSpace(t[i])
    ensures r < |t| ==> IsSpace(t[r])
  {
    if t == [] || IsSpace(t[0]) then 0 else 1 + WordEnd(t[1..])
  }

  /** The words `iss >> word` extracts from `s`, in order. */
  function Words(s: string): seq<string>
    decreases |s|
  {
    if s == [] then []
    else if IsSpace(s[0]) then Words(s[1..])
    else
      var k := WordEnd(s);
      [s[..k]] + Words(s[k..])
  }

  /** A word: non-empty and free of white space. */
  predicate IsWord(w: string) {
    w != [] && forall i :: 0 <= i < |w| ==> !IsSpace(w[i])
  }

  /** Every extracted word is a word. */
  lemma {:induction false} WordsAreWords(s: string)
    ensures forall i :: 0 <= i < |Words(s)| ==> IsWord(Words(s)[i])
    decreases |s|
  {
    if s != [] {
      if IsSpace(s[0]) {
        WordsAreWords(s[1..]);
      } else {
        WordsAreWords(s[WordEnd(s)..]);
      }
    }
  }

  /** `ws` joined with single spaces. */
  function JoinSpaces(ws: seq<string>): string {
    if |ws| == 0 then ""
    else if |ws| == 1 then ws[0]
    else ws[0] + " " + JoinSpaces(ws[1..])
  }

  lemma {:induction false} JoinSpacesSnoc(ws: seq<string>, w: string)
    requires ws != []
    ensures JoinSpaces(ws + [w]) == JoinSpaces(ws) + " " + w
  {
    if |ws| == 1 {
      assert (ws + [w])[1..] == [w];
    } else {
      assert (ws + [w])[1..] == ws[1..] + [w];
      JoinSpacesSnoc(ws[1..], w);
    }
  }

  /** Splitting words joined by single spaces gives them back. */
  lemma {:induction false} WordsOfJoin(ws: seq<string>)
    requires forall i :: 0 <= i < |ws| ==> IsWord(ws[i])
    ensures Words(JoinSpaces(ws)) == ws
  {
    if |ws| == 1 {
      WordAlone(ws[0], "");
      assert ws[0] + "" == ws[0];
    } else if |ws| > 1 {
      var rest := JoinSpaces(ws[1..]);
      WordsOfJoin(ws[1..]);
      WordAlone(ws[0], " " + rest);
      assert ws[0] + " " + rest == ws[0] + (" " + rest);
      assert (" " + rest)[1..] == rest;
    }
  }

  /** A word followed by text that starts with a space is extracted whole. */
  lemma WordAlone(w: string, rest: string)
    requires IsWord(w) && (rest == [] || IsSpace(rest[0]))
    ensures Words(w + rest) == [w] + Words(rest)
  {
    var s := w + rest;
    assert WordEnd(s) == |w|;
    assert s[..|w|] == w && s[|w|..] == rest;
  }

  /** The extraction loop `while (iss >> word) words.push_back(word);`. */
  method SplitWords(s: string) returns (words: seq<string>)
    ensures words == Words(s)
  {
    words := [];
    var pos := 0;
    while pos < |s|
      invariant pos <= |s|
      invariant Words(s) == words + Words(s[pos..])
      decreases |s| - pos
    {
      if IsSpace(s[pos]) {
        WordsSkipSpace(s, pos);
        pos := pos + 1;
      } else {
        var k := ScanWord(s, pos);
        WordsTakeWord(s, pos, k);
        AppendAssoc(words, [s[pos..k]], Words(s[k..]));
        words := words + [s[pos..k]];
        pos := k;
      }
    }
  }

  /** The end of the word that starts at `pos`. */
  method ScanWord(s: string, pos: nat) returns (k: nat)
    requires pos < |s|
    ensures k == pos + WordEnd(s[pos..])
  {
    k := pos;
    while k < |s| && !IsSpace(s[k])
      invariant pos <= k <= |s|
      invariant forall i :: pos <= i < k ==> !IsSpace(s[i])
      decreases |s| - k
    {
      k := k + 1;
    }
    assert WordEnd(s[pos..]) == k - pos;
  }

  /** A leading space is skipped. */
  lemma WordsSkipSpace(s: string, pos: nat)
    requires pos < |s| && IsSpace(s[pos])
    ensures Words(s[pos..]) == Words(s[pos + 1..])
  {
    assert s[pos..][1..] == s[pos + 1..];
  }

  /** A leading word is extracted whole. */
  lemma WordsTakeWord(s: string, pos: nat, k: nat)
    requires pos < |s| && !IsSpace(s[pos]) && k == pos + WordEnd(s[pos..])
    ensures Words(s[pos..]) == [s[pos..k]] + Words(s[k..])
  {
    var t := s[pos..];
    assert t[..k - pos] == s[pos..k] && t[k - pos..] == s[k..];
  }

  /** The last `min(5, |ws|)` entries. */
  function LastFive(ws: seq<string>): (r: seq<string>)
    ensures |r| == if |ws| < 5 then |ws| else 5
    ensures r == ws[|ws| - |r|..]
  {
    if |ws| < 5 then ws else ws[|ws| - 5..]
  }

  /** `systemEndMarker` of model_caller.cpp: the words of the prompt, then
      the last five of them (or all when fewer) joined by single spaces. */
  method CallerMarker(systemPrompt: string) returns (marker: string)
    ensures marker == JoinSpaces(LastFive(Words(systemPrompt)))
  {
    var words := SplitWords(systemPrompt);
    marker := "";
    var startIdx := if |words| - 5 > 0 then |words| - 5 else 0;
    var i := startIdx;
    while i < |words|
      invariant startIdx <= i <= |words|
      invariant i == startIdx ==> marker == ""
      invariant startIdx < i < |words| ==> marker == JoinSpaces(words[startIdx..i]) + " "
      invariant startIdx < i == |words| ==> marker == JoinSpaces(words[startIdx..i])
      decreases |words| - i
    {
      MarkerJoinStep(words, startIdx, i, marker);
      marker := marker + words[i];
      if i < |words| - 1 {
        marker := marker + " ";
      }
      i := i + 1;
    }
    assert words[startIdx..i] == words[startIdx..] == LastFive(words);
  }

  /** One pass of the marker loop: the next word completes the join of
      the words taken so far. */
  lemma MarkerJoinStep(ws: seq<string>, lo: int, i: int, marker: string)
    requires 0 <= lo <= i < |ws|
    requires i == lo ==> marker == ""
    requires lo < i ==> marker == JoinSpaces(ws[lo..i]) + " "
    ensures marker + ws[i] == JoinSpaces(ws[lo..i + 1])
  {
    if i > lo {
      JoinSpacesSnoc(ws[lo..i], ws[i]);
      assert ws[lo..i + 1] == ws[lo..i] + [ws[i]];
    } else {
      assert ws[lo..i + 1] == [ws[i]];
    }
  }

  /** The marker of model_caller.cpp splits back into the last
      `min(5, n)` words of the prompt; it is "" exactly when the prompt has
      no words. */
  lemma CallerMarkerWords(systemPrompt: string)
    ensures var ws := Words(systemPrompt);
      Words(JoinSpaces(LastFive(ws))) == LastFive(ws) &&
      (JoinSpaces(LastFive(ws)) == "" <==> ws == [])
  {
    var ws := Words(systemPrompt);
    WordsAreWords(systemPrompt);
    var lf := LastFive(ws);
    assert forall i :: 0 <= i < |lf| ==> lf[i] == ws[|ws| - |lf| + i];
    WordsOfJoin(lf);
    if ws != [] {
      assert |lf| >= 1 && IsWord(lf[0]);
      JoinStartsWithWord(lf);
    }
  }

  lemma JoinStartsWithWord(ws: seq<string>)
    requires |ws| >= 1 && IsWord(ws[0])
    ensures JoinSpaces(ws) != ""
  {
    if |ws| > 1 {
      assert |JoinSpaces(ws)| >= |ws[0]|;
    }
  }

  /** `systemEndMarker` of code-atlas.cpp: the last 20 bytes of the prompt,
      or the whole prompt when it is shorter. */
  function AtlasMarker(systemPrompt: string): (r: string)
    ensures |r| == if |systemPrompt| >= 20 then 20 else |systemPrompt|
    ensures r == systemPrompt[|systemPrompt| - |r|..]
  {
    if |systemPrompt| >= 20 then systemPrompt[|systemPrompt| - 20..] else systemPrompt
  }
}
