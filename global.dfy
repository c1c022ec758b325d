/** The program-wide constants: console colour words, the heading colour
    table, the language table the fence scanner consults, and the record of
    a captured code block. */
module Global {
  import opened Wrappers
  import opened Strings

  /** A Win32 console attribute word. */
  type Word = bv16

  const ForegroundBlue: Word := 0x1
  const ForegroundGreen: Word := 0x2
  const ForegroundRed: Word := 0x4
  const ForegroundIntensity: Word := 0x8

  const DefaultColor: Word := ForegroundRed | ForegroundGreen | ForegroundBlue
  const CodeColor: Word := ForegroundRed | ForegroundBlue | ForegroundIntensity
  const YellowColor: Word := ForegroundRed | ForegroundGreen | ForegroundIntensity
  const Heading1Color: Word := ForegroundRed | ForegroundIntensity
  const Heading2Color: Word := ForegroundRed | ForegroundGreen | ForegroundIntensity
  const Heading3Color: Word := ForegroundRed | ForegroundBlue | ForegroundIntensity
  const Heading4Color: Word := ForegroundGreen | ForegroundRed | ForegroundBlue | ForegroundIntensity
  const GreenColor: Word := ForegroundGreen | ForegroundIntensity
  const RedColor: Word := ForegroundRed | ForegroundIntensity
  const ItalicColor: Word := ForegroundBlue | ForegroundIntensity
  const BoldColor: Word := ForegroundRed | ForegroundIntensity

  const HeadingColors: seq<Word> := [Heading1Color, Heading2Color, Heading3Color, Heading4Color]

  /** Language tags recognised on the first line of a fence, each with the
      colour its code is echoed in. */
  const LanguageColorMap: map<string, Word> := map[
    "python" := CodeColor,
    "py" := CodeColor,
    "batch" := CodeColor,
    "bat" := CodeColor,
    "sh" := CodeColor,
    "shell" := CodeColor,
    "bash" := CodeColor,
    "cmd" := CodeColor,
    "powershell" := CodeColor,
    "ps1" := CodeColor
  ]

  /** A fenced block captured for execution. */
  datatype CodeBlock = CodeBlock(code: string, language: string)

  /** The table has exactly these keys. */
  lemma LanguageKeys()
    ensures LanguageColorMap.Keys ==
      {"python", "py", "batch", "bat", "sh", "shell", "bash", "cmd", "powershell", "ps1"}
  {
  }

  /** The ten keys are distinct. */
  lemma LanguageKeyCount()
    ensures |LanguageColorMap.Keys| == 10
  {
    var short := {"py", "sh", "bat", "cmd", "ps1"};
    var long := {"python", "batch", "shell", "bash", "powershell"};
    assert |short| == 5 by {
      assert {"py", "sh"} !! {"bat", "cmd", "ps1"};
    }
    assert |long| == 5 by {
      assert {"python", "powershell"} !! {"batch", "shell", "bash"};
    }
    assert short !! long;
    assert LanguageColorMap.Keys == short + long;
  }

  /** Every key maps to the code colour, and no key is empty. */
  lemma LanguageColors()
    ensures forall k :: k in LanguageColorMap ==> LanguageColorMap[k] == CodeColor
    ensures forall k :: k in LanguageColorMap ==> k != ""
  {
  }

  /** The heading colour for level `k` is entry `k - 1` of the table. */
  lemma HeadingTable()
    ensures |HeadingColors| == 4
    ensures HeadingColors[0] == Heading1Color && HeadingColors[1] == Heading2Color
    ensures HeadingColors[2] == Heading3Color && HeadingColors[3] == Heading4Color
    ensures Heading1Color == BoldColor == RedColor
  {
  }

  /** `order` lists the table keys and nothing else: one possible
      iteration order of the unordered map. */
  predicate IsKeyOrder(order: seq<string>) {
    (forall i :: 0 <= i < |order| ==> order[i] in LanguageColorMap) &&
    (forall k :: k in LanguageColorMap ==> k in order)
  }

  /** The first key, in iteration order `order`, that occurs in `line`: the
      `for (pair : languageColorMap) if (line.find(pair.first) != npos) break;`
      search. */
  function FirstMatch(order: seq<string>, line: string): (r: Option<string>)
    ensures r.Some? ==> r.value in order && Contains(line, r.value)
  {
    if order == [] then None
    else if Contains(line, order[0]) then Some(order[0])
    else FirstMatch(order[1..], line)
  }

  /** The search loop itself, walking the map in iteration order `order`. */
  method MatchLanguage(order: seq<string>, lowerLine: string) returns (r: Option<string>)
    ensures r == FirstMatch(order, lowerLine)
  {
    var i := 0;
    while i < |order|
      invariant 0 <= i <= |order|
      invariant FirstMatch(order, lowerLine) == FirstMatch(order[i..], lowerLine)
      decreases |order| - i
    {
      assert order[i..][1..] == order[i + 1..];
      if Contains(lowerLine, order[i]) {
        return Some(order[i]);
      }
      i := i + 1;
    }
    return None;
  }

  /** Whatever the iteration order, the search finds a key exactly when
      some table key occurs in the line, and the key it finds is one of
      them. */
  lemma {:induction false} FirstMatchSpec(order: seq<string>, line: string)
    requires IsKeyOrder(order)
    ensures FirstMatch(order, line).Some? <==>
      exists k :: k in LanguageColorMap && Contains(line, k)
    ensures FirstMatch(order, line).Some? ==>
      FirstMatch(order, line).value in LanguageColorMap &&
      Contains(line, FirstMatch(order, line).value)
  {
    FirstMatchAny(order, line);
  }

  lemma {:induction false} FirstMatchAny(order: seq<string>, line: string)
    ensures FirstMatch(order, line).Some? <==>
      exists i :: 0 <= i < |order| && Contains(line, order[i])
  {
    if order != [] && !Contains(line, order[0]) {
      FirstMatchAny(order[1..], line);
      if exists i :: 0 <= i < |order| && Contains(line, order[i]) {
        var i :| 0 <= i < |order| && Contains(line, order[i]);
        assert order[1..][i - 1] == order[i];
      }
    }
  }

  /** The keys overlap: on the first line "python" the tag picked depends on
      the iteration order alone. */
  lemma OverlapMakesTagUnspecified()
    ensures exists o1, o2 ::
      && IsKeyOrder(o1) && IsKeyOrder(o2)
      && FirstMatch(o1, "python") == Some("python")
      && FirstMatch(o2, "python") == Some("py")
  {
    var o1 := ["python", "py", "batch", "bat", "sh", "shell", "bash", "cmd", "powershell", "ps1"];
    var o2 := ["py", "python", "batch", "bat", "sh", "shell", "bash", "cmd", "powershell", "ps1"];
    KeyOrders(o1, o2);
    assert "python"[..6] == "python";
    assert "python"[..2] == "py";
    assert FirstMatch(o1, "python") == Some("python");
    assert FirstMatch(o2, "python") == Some("py");
  }

  lemma KeyOrders(o1: seq<string>, o2: seq<string>)
    requires o1 == ["python", "py", "batch", "bat", "sh", "shell", "bash", "cmd", "powershell", "ps1"]
    requires o2 == ["py", "python", "batch", "bat", "sh", "shell", "bash", "cmd", "powershell", "ps1"]
    ensures IsKeyOrder(o1) && IsKeyOrder(o2)
  {
    LanguageKeys();
  }
}
