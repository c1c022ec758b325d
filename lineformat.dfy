/** The line formatter `MarkdownLineProcessor`: characters the fence scanner
    declines come here. At the start of a line it collects `#` characters
    and turns `#…# ` into a heading colour (level clamped at 4); `*` and `_`
    toggle italic or bold and are never printed; '\n' resets everything. */
module LineFormat {
  import opened Strings
  import opened Global
  import opened Console

  /** `MarkdownState`: the per-line styling. */
  datatype MarkdownState = MarkdownState(
    headingDetected: bool,
    headingLevel: int,
    inBold: bool,
    inItalic: bool,
    baseColor: Word)

  /** `MarkdownState::currentColor()`: bold wins over italic, italic over the
      base colour. */
  function CurrentColor(s: MarkdownState): (r: Word)
    ensures s.inBold ==> r == BoldColor
    ensures !s.inBold && s.inItalic ==> r == ItalicColor
    ensures !s.inBold && !s.inItalic ==> r == s.baseColor
  {
    if s.inBold then BoldColor else if s.inItalic then ItalicColor else s.baseColor
  }

  /** All fields of the processor. */
  datatype LineState = LineState(
    state: MarkdownState,
    lineStart: bool,
    collectingHash: bool,
    hashCount: int,
    lastMarkerChar: char,
    lastMarkerUsed: bool)

  /** The fields as `resetLineState()` leaves them. */
  const FreshLine := LineState(MarkdownState(false, 0, false, false, DefaultColor), true, false, 0, '\0', true)

  predicate IsMarker(c: char) {
    c == '*' || c == '_'
  }

  /** What the fields satisfy between calls: `#`s are only collected at the
      start of a line and then at least one has been seen; an unused marker
      is one of the two marker characters, and '\0' once used. */
  predicate LineValid(l: LineState) {
    && (l.collectingHash ==> l.lineStart && l.hashCount >= 1)
    && (!l.collectingHash ==> l.hashCount == 0)
    && (l.lastMarkerUsed <==> l.lastMarkerChar == '\0')
    && (!l.lastMarkerUsed ==> IsMarker(l.lastMarkerChar))
    && (l.state.headingDetected ==> 1 <= l.state.headingLevel <= 4)
  }

  datatype Out = Out(line: LineState, term: Term)

  /** `handleFormattingMarker(marker)`. */
  function HandleMarker(l: LineState, t: Term, marker: char): Out {
    var l2 :=
      if !l.lastMarkerUsed && l.lastMarkerChar == marker then
        l.(state := l.state.(inBold := !l.state.inBold), lastMarkerUsed := true, lastMarkerChar := '\0')
      else
        l.(state := l.state.(inItalic := !l.state.inItalic), lastMarkerChar := marker, lastMarkerUsed := false);
    Out(l2, SetAttr(t, CurrentColor(l2.state)))
  }

  /** The line-start part of `processChar` for a character that is neither
      '\n' nor consumed as part of a heading: any collected `#`s are printed
      in the default colour and the line is no longer at its start. */
  function LeaveLineStart(l: LineState, t: Term): Out
    requires LineValid(l)
  {
    if !l.lineStart then Out(l, t)
    else if l.collectingHash then
      Out(l.(collectingHash := false, hashCount := 0, lineStart := false),
          PutAll(SetAttr(t, DefaultColor), Repeat('#', l.hashCount)))
    else Out(l.(lineStart := false), t)
  }

  /** `processChar(ch)`. */
  function FormatChar(l: LineState, t: Term, ch: char): Out
    requires LineValid(l)
  {
    if ch == '\n' then
      Out(FreshLine, PutAll(SetAttr(t, DefaultColor), "\n"))
    else if l.lineStart && l.hashCount == 0 && ch == '#' then
      Out(l.(collectingHash := true, hashCount := 1), t)
    else if l.lineStart && l.collectingHash && ch == '#' then
      Out(l.(hashCount := l.hashCount + 1), t)
    else if l.lineStart && l.collectingHash && ch == ' ' then
      var level := if l.hashCount > 4 then 4 else l.hashCount;
      var st := l.state.(headingDetected := true, headingLevel := level,
                         baseColor := HeadingColors[level - 1]);
      Out(l.(state := st, lineStart := false, collectingHash := false, hashCount := 0),
          SetAttr(t, CurrentColor(st)))
    else
      var o := LeaveLineStart(l, t);
      if IsMarker(ch) then HandleMarker(o.line, o.term, ch)
      else Out(o.line, PutAll(o.term, [ch]))
  }

  /** A run of characters, one `processChar` call each. */
  function FormatString(l: LineState, t: Term, s: string): Out
    requires LineValid(l)
    decreases |s|
  {
    if s == [] then Out(l, t)
    else
      ProcessValid(l, t, s[0]);
      var o := FormatChar(l, t, s[0]);
      FormatString(o.line, o.term, s[1..])
  }

  /** The processor starts valid, and every call keeps it valid. */
  lemma ProcessValid(l: LineState, t: Term, ch: char)
    requires LineValid(l)
    ensures LineValid(FreshLine)
    ensures LineValid(FormatChar(l, t, ch).line)
  {
  }

  /** '\n' is printed in the default colour and resets the whole line state:
      no bold, no italic, no heading, default base colour, at line start,
      the last marker used. */
  lemma NewlineResets(l: LineState, t: Term)
    requires LineValid(l)
    ensures var o := FormatChar(l, t, '\n');
      o.term.out == t.out + [Event('\n', DefaultColor)] && o.term.attr == DefaultColor &&
      !o.line.state.inBold && !o.line.state.inItalic && !o.line.state.headingDetected &&
      o.line.state.headingLevel == 0 && o.line.state.baseColor == DefaultColor &&
      o.line.lineStart && !o.line.collectingHash && o.line.hashCount == 0 &&
      o.line.lastMarkerUsed
  {
  }

  /** A line processor in a state from which `#`s are still collected. */
  predicate AtLineStart(l: LineState) {
    LineValid(l) && l.lineStart && !l.collectingHash
  }

  /** `n` `#`s at the start of a line are collected silently. */
  lemma {:induction false} HashRun(l: LineState, t: Term, n: nat)
    requires AtLineStart(l) && n >= 1
    ensures FormatString(l, t, Repeat('#', n)) == Out(l.(collectingHash := true, hashCount := n), t)
    decreases n
  {
    if n == 1 {
      assert Repeat('#', 1)[1..] == [];
    } else {
      HashRun(l, t, n - 1);
      HashRunAppend(l, t, n - 1);
    }
  }

  lemma {:induction false} HashRunAppend(l: LineState, t: Term, k: nat)
    requires AtLineStart(l) && k >= 1
    requires FormatString(l, t, Repeat('#', k)) == Out(l.(collectingHash := true, hashCount := k), t)
    ensures FormatString(l, t, Repeat('#', k + 1)) == Out(l.(collectingHash := true, hashCount := k + 1), t)
  {
    assert Repeat('#', k + 1) == Repeat('#', k) + "#";
    FormatStringAppend(l, t, Repeat('#', k), "#");
  }

  /** Processing `a + b` is processing `a`, then `b`. */
  lemma {:induction false} FormatStringAppend(l: LineState, t: Term, a: string, b: string)
    requires LineValid(l)
    ensures var o := FormatString(l, t, a);
      LineValid(o.line) && FormatString(l, t, a + b) == FormatString(o.line, o.term, b)
    decreases |a|
  {
    if a == [] {
      assert a + b == b;
    } else {
      ProcessValid(l, t, a[0]);
      var o := FormatChar(l, t, a[0]);
      assert (a + b)[0] == a[0] && (a + b)[1..] == a[1..] + b;
      FormatStringAppend(o.line, o.term, a[1..], b);
    }
  }

  /** `n` `#`s and a space at the start of a line make a heading of level
      min(n, 4) in that level's colour; neither the `#`s nor the space is
      printed. */
  lemma Heading(l: LineState, t: Term, n: nat)
    requires AtLineStart(l) && n >= 1
    ensures var o := FormatString(l, t, Repeat('#', n) + " ");
      var level := if n > 4 then 4 else n;
      o.term.out == t.out &&
      o.line.state.headingDetected && o.line.state.headingLevel == level &&
      o.line.state.baseColor == HeadingColors[level - 1] &&
      o.term.attr == CurrentColor(o.line.state) &&
      (!l.state.inBold && !l.state.inItalic ==> o.term.attr == HeadingColors[level - 1]) &&
      !o.line.lineStart && !o.line.collectingHash
  {
    HashRun(l, t, n);
    FormatStringAppend(l, t, Repeat('#', n), " ");
    var l1 := l.(collectingHash := true, hashCount := n);
    assert " "[1..] == [];
    assert FormatString(l1, t, " ") == FormatChar(l1, t, ' ');
  }

  /** `n` `#`s followed by an ordinary character at the start of a line
      print exactly those `n` `#`s in the default colour, then the
      character. */
  lemma HashesNotHeading(l: LineState, t: Term, n: nat, c: char)
    requires AtLineStart(l) && n >= 1
    requires c != '#' && c != ' ' && c != '\n' && !IsMarker(c)
    ensures var o := FormatString(l, t, Repeat('#', n) + [c]);
      o.term.out == t.out + Paint(Repeat('#', n), DefaultColor) + [Event(c, DefaultColor)] &&
      !o.line.lineStart && !o.line.collectingHash
  {
    HashRun(l, t, n);
    FormatStringAppend(l, t, Repeat('#', n), [c]);
    var l1 := l.(collectingHash := true, hashCount := n);
    assert [c][1..] == [];
    assert FormatString(l1, t, [c]) == FormatChar(l1, t, c);
    var o := FormatChar(l1, t, c);
    assert o.term.out == t.out + Paint(Repeat('#', n), DefaultColor) + Paint([c], DefaultColor);
  }

  /** A marker is never printed: the output grows only by the `#`s of an
      abandoned heading, if any. A marker equal to the pending unused one
      toggles bold and is consumed; any other toggles italic and becomes the
      pending marker. The console then shows the new current colour. */
  lemma MarkerToggles(l: LineState, t: Term, m: char)
    requires LineValid(l) && IsMarker(m)
    ensures var o := FormatChar(l, t, m);
      o.term.out == t.out + (if l.collectingHash then Paint(Repeat('#', l.hashCount), DefaultColor) else []) &&
      o.term.attr == CurrentColor(o.line.state) &&
      o.line.state.headingLevel == l.state.headingLevel &&
      o.line.state.baseColor == l.state.baseColor &&
      (!l.lastMarkerUsed && l.lastMarkerChar == m ==>
        o.line.state.inBold == !l.state.inBold && o.line.state.inItalic == l.state.inItalic &&
        o.line.lastMarkerUsed && o.line.lastMarkerChar == '\0') &&
      (!(!l.lastMarkerUsed && l.lastMarkerChar == m) ==>
        o.line.state.inItalic == !l.state.inItalic && o.line.state.inBold == l.state.inBold &&
        !o.line.lastMarkerUsed && o.line.lastMarkerChar == m)
  {
    var o1 := LeaveLineStart(l, t);
    assert FormatChar(l, t, m) == HandleMarker(o1.line, o1.term, m);
    LeaveLineStartKeeps(l, t);
  }

  /** Leaving the line start prints the collected `#`s, if any, and keeps
      the styling and the marker state. */
  lemma LeaveLineStartKeeps(l: LineState, t: Term)
    requires LineValid(l)
    ensures var o := LeaveLineStart(l, t);
      o.term.out == t.out + (if l.collectingHash then Paint(Repeat('#', l.hashCount), DefaultColor) else []) &&
      o.line.state == l.state && o.line.lastMarkerUsed == l.lastMarkerUsed &&
      o.line.lastMarkerChar == l.lastMarkerChar
  {
  }

  /** On a fresh line the first marker always turns italic on. */
  lemma FirstMarkerItalic(t: Term, m: char)
    requires IsMarker(m)
    ensures var o := FormatChar(FreshLine, t, m);
      o.line.state.inItalic && !o.line.state.inBold && o.term.attr == ItalicColor && o.term.out == t.out
  {
  }

  /** Markers pair up across other characters: in "*a*" the second `*`
      matches the still unused first one, so it turns bold on and italic
      stays on; "a" is printed in the italic colour. */
  lemma StarPairAcrossText(t: Term)
    ensures var o := FormatString(FreshLine, t, "*a*");
      o.line.state.inBold && o.line.state.inItalic && o.term.attr == BoldColor &&
      o.term.out == t.out + [Event('a', ItalicColor)]
  {
    var o1 := FormatChar(FreshLine, t, '*');
    var o2 := FormatChar(o1.line, o1.term, 'a');
    var o3 := FormatChar(o2.line, o2.term, '*');
    assert "*a*"[1..] == "a*" && "a*"[1..] == "*" && "*"[1..] == [];
    assert FormatString(FreshLine, t, "*a*") == o3;
  }

  /** An ordinary character away from the line start is printed in the
      console's current attribute and changes no state. */
  lemma OrdinaryChar(l: LineState, t: Term, c: char)
    requires LineValid(l) && !l.lineStart
    requires c != '\n' && !IsMarker(c)
    ensures FormatChar(l, t, c) == Out(l, t.(out := t.out + [Event(c, t.attr)]))
  {
  }

  /** The line processor object. */
  class MarkdownLineProcessor {
    var state: MarkdownState
    var lineStart: bool
    var collectingHash: bool
    var hashCount: int
    var lastMarkerChar: char
    var lastMarkerUsed: bool

    function Snapshot(): LineState
      reads this
    {
      LineState(state, lineStart, collectingHash, hashCount, lastMarkerChar, lastMarkerUsed)
    }

    ghost predicate Valid()
      reads this
    {
      LineValid(Snapshot())
    }

    constructor()
      ensures Snapshot() == FreshLine && Valid()
    {
      state := MarkdownState(false, 0, false, false, DefaultColor);
      lineStart := true;
      collectingHash := false;
      hashCount := 0;
      lastMarkerChar := '\0';
      lastMarkerUsed := true;
    }

    /** `resetLineState()`. */
    method ResetLineState()
      modifies this
      ensures Snapshot() == FreshLine && Valid()
    {
      state := MarkdownState(false, 0, false, false, DefaultColor);
      lineStart := true;
      collectingHash := false;
      hashCount := 0;
      lastMarkerChar := '\0';
      lastMarkerUsed := true;
    }

    /** `processChar(ch)`. */
    method ProcessChar(ch: char, screen: Screen)
      requires Valid()
      modifies this, screen
      ensures Valid()
      ensures Out(Snapshot(), screen.Snapshot()) == FormatChar(old(Snapshot()), old(screen.Snapshot()), ch)
    {
      ProcessValid(Snapshot(), screen.Snapshot(), ch);
      if ch == '\n' {
        state := state.(inBold := false, inItalic := false);
        if !state.headingDetected {
          state := state.(baseColor := DefaultColor);
        }
        screen.SetTextAttribute(DefaultColor);
        screen.Write([ch]);
        ResetLineState();
        return;
      }
      var consumed := LineStartChar(ch, screen);
      if consumed {
        return;
      }
      if ch == '*' || ch == '_' {
        HandleFormattingMarker(ch, screen);
        return;
      }
      screen.Write([ch]);
    }

    /** The start-of-line part of `processChar(ch)` for a character other
        than '\n': `consumed` when the character was taken as part of a
        heading marker, otherwise the line has left its start. */
    method LineStartChar(ch: char, screen: Screen) returns (consumed: bool)
      requires Valid() && ch != '\n'
      modifies this, screen
      ensures Valid()
      ensures consumed ==>
        Out(Snapshot(), screen.Snapshot()) == FormatChar(old(Snapshot()), old(screen.Snapshot()), ch)
      ensures !consumed ==>
        !(old(lineStart) && old(hashCount) == 0 && ch == '#') &&
        !(old(lineStart) && old(collectingHash) && (ch == '#' || ch == ' ')) &&
        Out(Snapshot(), screen.Snapshot()) == LeaveLineStart(old(Snapshot()), old(screen.Snapshot()))
    {
      consumed := false;
      if lineStart {
        if hashCount == 0 && ch == '#' {
          collectingHash := true;
          hashCount := 1;
          consumed := true;
          return;
        } else if collectingHash {
          if ch == '#' {
            hashCount := hashCount + 1;
            consumed := true;
            return;
          } else if ch == ' ' {
            state := state.(headingDetected := true);
            if hashCount > 4 {
              hashCount := 4;
            }
            state := state.(headingLevel := hashCount);
            state := state.(baseColor := HeadingColors[state.headingLevel - 1]);
            screen.SetTextAttribute(CurrentColor(state));
            lineStart := false;
            collectingHash := false;
            hashCount := 0;
            consumed := true;
            return;
          } else {
            PrintCollectedHashes(screen);
          }
        }
        if !collectingHash {
          lineStart := false;
        }
      }
    }

    /** The `#`s collected at the start of a line that turned out not to be
        a heading, printed one by one in the default colour. */
    method PrintCollectedHashes(screen: Screen)
      requires Valid() && lineStart && collectingHash
      modifies this, screen
      ensures Valid()
      ensures Out(Snapshot(), screen.Snapshot()) == LeaveLineStart(old(Snapshot()), old(screen.Snapshot()))
    {
      screen.SetTextAttribute(DefaultColor);
      var i := 0;
      while i < hashCount
        invariant 0 <= i <= hashCount
        invariant screen.Snapshot() ==
          PutAll(SetAttr(old(screen.Snapshot()), DefaultColor), Repeat('#', i))
        invariant Snapshot() == old(Snapshot())
        decreases hashCount - i
      {
        PutAllAppend(SetAttr(old(screen.Snapshot()), DefaultColor), Repeat('#', i), "#");
        assert Repeat('#', i) + "#" == Repeat('#', i + 1);
        screen.Write("#");
        i := i + 1;
      }
      collectingHash := false;
      hashCount := 0;
      lineStart := false;
    }

    /** `handleFormattingMarker(marker)`. */
    method HandleFormattingMarker(marker: char, screen: Screen)
      modifies this, screen
      ensures Out(Snapshot(), screen.Snapshot()) == HandleMarker(old(Snapshot()), old(screen.Snapshot()), marker)
    {
      if !lastMarkerUsed && lastMarkerChar == marker {
        state := state.(inBold := !state.inBold);
        lastMarkerUsed := true;
        lastMarkerChar := '\0';
      } else {
        state := state.(inItalic := !state.inItalic);
        lastMarkerChar := marker;
        lastMarkerUsed := false;
      }
      screen.SetTextAttribute(CurrentColor(state));
    }
  }
}
