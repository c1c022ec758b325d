/** The fenced-code scanner `CodeBlockElement`: one character per call, it
    counts opening backticks, collects the first line of a block (its
    language tag), echoes and buffers the code, counts closing backticks and
    on the third one queues the block when its first line names a known
    language. It deliberately differs from CommonMark fences: a fence need
    not start a line, and a block closes on the third backtick seen inside
    it, whether or not the backticks are adjacent. */
module Scanner {
  import opened Wrappers
  import opened Strings
  import opened Global
  import opened Console
  import opened Pipeline

  /** The scanner's fields. */
  datatype Fence = Fence(
    inCodeBlock: bool,
    codeBuffer: string,
    startTicks: string,
    startCount: int,
    endTicks: string,
    endCount: int,
    collectingFirstLine: bool,
    firstLine: string,
    codeColor: Word)

  /** The field initialisers of a new scanner. */
  const FreshFence := Fence(false, "", "", 0, "", 0, false, "", CodeColor)

  /** What the fields always satisfy between calls. */
  predicate ValidFence(f: Fence) {
    && 0 <= f.startCount < 3 && f.startTicks == Repeat('`', f.startCount)
    && 0 <= f.endCount < 3 && f.endTicks == Repeat('`', f.endCount)
    && (!f.inCodeBlock ==>
          f.endCount == 0 && !f.collectingFirstLine && f.codeBuffer == "" && f.firstLine == "")
    && (f.inCodeBlock ==> f.startCount == 0)
    && (f.collectingFirstLine ==> f.endCount == 0 && f.codeBuffer == "")
  }

  /** The result of one `process` call: the new fields and console, whether
      the character was consumed, and the block queued, if any. */
  datatype Step = Step(fence: Fence, term: Term, handled: bool, block: Option<CodeBlock>)

  /** The language tag of a block whose first line is `firstLine`. */
  function Tag(order: seq<string>, firstLine: string): Option<string> {
    FirstMatch(order, Lower(firstLine))
  }

  /** `CodeBlockElement::process(ch, ...)`. */
  function Scan(f: Fence, t: Term, ch: char, order: seq<string>): Step
    requires IsKeyOrder(order)
  {
    if !f.inCodeBlock then
      if ch == '`' then
        var f1 := f.(startTicks := f.startTicks + "`", startCount := f.startCount + 1);
        if f1.startCount == 3 then
          Step(f1.(collectingFirstLine := true, firstLine := "", codeBuffer := "",
                   startTicks := "", startCount := 0, inCodeBlock := true), t, true, None)
        else Step(f1, t, true, None)
      else if f.startTicks != "" then
        Step(f.(startTicks := "", startCount := 0), PutEach(t, f.startTicks, DefaultColor), false, None)
      else Step(f, t, false, None)
    else if f.collectingFirstLine then
      if ch == '\n' then
        var tag := Tag(order, f.firstLine);
        var color := if tag.Some? then LanguageColorMap[tag.value] else YellowColor;
        Step(f.(collectingFirstLine := false, codeColor := color), t, true, None)
      else Step(f.(firstLine := f.firstLine + [ch]), t, true, None)
    else if ch == '`' then
      var f1 := f.(endTicks := f.endTicks + "`", endCount := f.endCount + 1);
      if f1.endCount == 3 then
        var tag := Tag(order, f.firstLine);
        var block := if tag.Some? then Some(CodeBlock(f.codeBuffer, tag.value)) else None;
        Step(f1.(inCodeBlock := false, endTicks := "", endCount := 0, codeBuffer := "", firstLine := ""),
             SetAttr(t, DefaultColor), true, block)
      else Step(f1, t, true, None)
    else
      Step(f.(codeBuffer := f.codeBuffer + [ch]), PutAll(SetAttr(t, f.codeColor), [ch]), true, None)
  }

  /** `CodeBlockElement::reset()`: every field but the code colour is
      cleared. */
  function ResetFence(f: Fence): (r: Fence)
    ensures !r.inCodeBlock && r.codeBuffer == "" && r.firstLine == ""
    ensures r.startCount == 0 && r.endCount == 0 && !r.collectingFirstLine
    ensures r.codeColor == f.codeColor && ValidFence(r)
  {
    Fence(false, "", "", 0, "", 0, false, "", f.codeColor)
  }

  /** A new scanner is inactive, has every buffer empty and both counts 0,
      and starts in the code colour. */
  lemma FreshScanner()
    ensures ValidFence(FreshFence)
    ensures !FreshFence.inCodeBlock && !FreshFence.collectingFirstLine
    ensures FreshFence.codeBuffer == "" && FreshFence.firstLine == ""
    ensures FreshFence.startTicks == "" && FreshFence.endTicks == ""
    ensures FreshFence.startCount == 0 && FreshFence.endCount == 0
    ensures FreshFence.codeColor == CodeColor
  {
  }

  /** Every call keeps the field invariant. */
  lemma ScanValid(f: Fence, t: Term, ch: char, order: seq<string>)
    requires IsKeyOrder(order) && ValidFence(f)
    ensures ValidFence(Scan(f, t, ch, order).fence)
  {
    if !f.inCodeBlock && ch == '`' {
      assert Repeat('`', f.startCount) + "`" == Repeat('`', f.startCount + 1);
    } else if f.inCodeBlock && !f.collectingFirstLine && ch == '`' {
      assert Repeat('`', f.endCount) + "`" == Repeat('`', f.endCount + 1);
    }
  }

  /** Outside a block a backtick is always consumed and prints nothing; the
      third one in a row opens a block, starting the first line and
      emptying the buffers. */
  lemma ScanOpeningTick(f: Fence, t: Term, order: seq<string>)
    requires IsKeyOrder(order) && ValidFence(f) && !f.inCodeBlock
    ensures var s := Scan(f, t, '`', order);
      s.handled && s.term == t && s.block == None &&
      (f.startCount == 2 ==>
        s.fence.inCodeBlock && s.fence.collectingFirstLine &&
        s.fence.firstLine == "" && s.fence.codeBuffer == "" &&
        s.fence.startTicks == "" && s.fence.startCount == 0) &&
      (f.startCount < 2 ==>
        !s.fence.inCodeBlock && s.fence.startCount == f.startCount + 1 &&
        s.fence.startTicks == Repeat('`', f.startCount + 1))
  {
    assert Repeat('`', f.startCount) + "`" == Repeat('`', f.startCount + 1);
  }

  /** Outside a block, any other character after one or two backticks
      prints those backticks in the default colour, clears the count and is
      declined, so it goes on to the line formatter. */
  lemma ScanDeclines(f: Fence, t: Term, ch: char, order: seq<string>)
    requires IsKeyOrder(order) && ValidFence(f) && !f.inCodeBlock && ch != '`'
    ensures var s := Scan(f, t, ch, order);
      !s.handled && s.block == None &&
      s.term.out == t.out + Paint(Repeat('`', f.startCount), DefaultColor) &&
      s.fence == f.(startTicks := "", startCount := 0) &&
      (f.startCount > 0 ==> s.term.attr == DefaultColor) &&
      (f.startCount == 0 ==> s.term == t)
  {
  }

  /** Inside a block every character is consumed. */
  lemma ScanInBlockHandled(f: Fence, t: Term, ch: char, order: seq<string>)
    requires IsKeyOrder(order) && f.inCodeBlock
    ensures Scan(f, t, ch, order).handled
  {
  }

  /** While the first line is being collected nothing reaches the code
      buffer or the screen; the line ends at '\n', which picks the code
      colour: the table's colour (always the code colour) when a key occurs
      in the lower-cased line, yellow otherwise. */
  lemma ScanFirstLine(f: Fence, t: Term, ch: char, order: seq<string>)
    requires IsKeyOrder(order) && ValidFence(f) && f.inCodeBlock && f.collectingFirstLine
    ensures var s := Scan(f, t, ch, order);
      s.term == t && s.block == None && s.fence.codeBuffer == f.codeBuffer &&
      s.fence.inCodeBlock &&
      (ch != '\n' ==> s.fence.collectingFirstLine && s.fence.firstLine == f.firstLine + [ch]) &&
      (ch == '\n' ==>
        && !s.fence.collectingFirstLine && s.fence.firstLine == f.firstLine
        && s.fence.codeColor ==
             (if exists k :: k in LanguageColorMap && Contains(Lower(f.firstLine), k)
              then CodeColor else YellowColor))
  {
    FirstMatchSpec(order, Lower(f.firstLine));
    LanguageColors();
  }

  /** In the body, a non-backtick character is appended to the code buffer
      and echoed in the block's colour; the closing count is left as it
      was, so backticks need not be adjacent to close the block. */
  lemma ScanCodeChar(f: Fence, t: Term, ch: char, order: seq<string>)
    requires IsKeyOrder(order) && ValidFence(f) && f.inCodeBlock && !f.collectingFirstLine
    requires ch != '`'
    ensures var s := Scan(f, t, ch, order);
      s.fence.codeBuffer == f.codeBuffer + [ch] &&
      s.term.out == t.out + [Event(ch, f.codeColor)] && s.term.attr == f.codeColor &&
      s.fence.endCount == f.endCount && s.fence.inCodeBlock && s.block == None
  {
  }

  /** In the body a backtick is never buffered or echoed: the first two
      only count, the third closes the block. On closing, a block is queued
      exactly when some table key occurs in the lower-cased first line; it
      carries the buffered code and one such key. The scanner is then
      inactive with its buffers empty. */
  lemma ScanClosingTick(f: Fence, t: Term, order: seq<string>)
    requires IsKeyOrder(order) && ValidFence(f) && f.inCodeBlock && !f.collectingFirstLine
    ensures var s := Scan(f, t, '`', order);
      s.handled && s.term.out == t.out &&
      (f.endCount < 2 ==>
        s.fence == f.(endTicks := Repeat('`', f.endCount + 1), endCount := f.endCount + 1) &&
        s.term == t && s.block == None) &&
      (f.endCount == 2 ==>
        !s.fence.inCodeBlock && s.fence.codeBuffer == "" && s.fence.firstLine == "" &&
        s.fence.endCount == 0 && s.fence.endTicks == "" && s.term.attr == DefaultColor &&
        (s.block.Some? <==> exists k :: k in LanguageColorMap && Contains(Lower(f.firstLine), k)) &&
        (s.block.Some? ==>
          s.block.value.code == f.codeBuffer &&
          s.block.value.language in LanguageColorMap &&
          Contains(Lower(f.firstLine), s.block.value.language)))
  {
    FirstMatchSpec(order, Lower(f.firstLine));
    assert Repeat('`', f.endCount) + "`" == Repeat('`', f.endCount + 1);
  }

  /** A block is queued only by the third closing backtick. */
  lemma ScanQueuesOnlyOnClose(f: Fence, t: Term, ch: char, order: seq<string>)
    requires IsKeyOrder(order) && ValidFence(f)
    requires Scan(f, t, ch, order).block.Some?
    ensures f.inCodeBlock && !f.collectingFirstLine && ch == '`' && f.endCount == 2
    ensures !Scan(f, t, ch, order).fence.inCodeBlock
  {
  }

  /** The scanner object. `order` is the iteration order of the language
      table, fixed for the life of the program. */
  class CodeBlockElement {
    var inCodeBlock: bool
    var codeBuffer: string
    var startBackTickBuffer: string
    var startBackTickCount: int
    var endBackTickBuffer: string
    var endBackTickCount: int
    var collectingFirstLine: bool
    var firstLineBuffer: string
    var currentCodeColor: Word
    const order: seq<string>

    function Snapshot(): Fence
      reads this
    {
      Fence(inCodeBlock, codeBuffer, startBackTickBuffer, startBackTickCount,
            endBackTickBuffer, endBackTickCount, collectingFirstLine, firstLineBuffer,
            currentCodeColor)
    }

    ghost predicate Valid()
      reads this
    {
      ValidFence(Snapshot()) && IsKeyOrder(order)
    }

    constructor(order: seq<string>)
      requires IsKeyOrder(order)
      ensures Valid() && Snapshot() == FreshFence && this.order == order
    {
      inCodeBlock := false;
      codeBuffer := "";
      startBackTickBuffer := "";
      startBackTickCount := 0;
      endBackTickBuffer := "";
      endBackTickCount := 0;
      collectingFirstLine := false;
      firstLineBuffer := "";
      currentCodeColor := CodeColor;
      this.order := order;
    }

    /** `process(ch, pos, ...)`: consumes `ch` (advancing `pos`) or declines
        it; a closed block with a known tag is appended to the shared
        queue. */
    method Process(ch: char, pos: nat, screen: Screen, pipe: Pipeline)
      returns (handled: bool, newPos: nat)
      requires Valid()
      modifies this, screen, pipe`pending
      ensures Valid()
      ensures var s := Scan(old(Snapshot()), old(screen.Snapshot()), ch, order);
        Snapshot() == s.fence && screen.Snapshot() == s.term && handled == s.handled &&
        pipe.pending == old(pipe.pending) + ToSeq(s.block)
      ensures newPos == if handled then pos + 1 else pos
    {
      ghost var f0 := Snapshot();
      ScanValid(f0, screen.Snapshot(), ch, order);
      newPos := pos;
      if !inCodeBlock {
        if ch == '`' {
          startBackTickBuffer := startBackTickBuffer + "`";
          startBackTickCount := startBackTickCount + 1;
          newPos := newPos + 1;
          if startBackTickCount == 3 {
            collectingFirstLine := true;
            firstLineBuffer := "";
            codeBuffer := "";
            startBackTickBuffer := "";
            startBackTickCount := 0;
            inCodeBlock := true;
            return true, newPos;
          }
          return true, newPos;
        } else {
          DeclineOutside(ch, screen);
          return false, newPos;
        }
      } else {
        handled := ProcessInBlock(ch, screen, pipe);
        newPos := newPos + 1;
      }
    }

    /** A character other than a backtick outside a block: the backticks
        seen so far are printed in the default colour and forgotten, and
        the character is declined. */
    method DeclineOutside(ch: char, screen: Screen)
      requires Valid() && !inCodeBlock && ch != '`'
      modifies this, screen
      ensures Valid()
      ensures var s := Scan(old(Snapshot()), old(screen.Snapshot()), ch, order);
        Snapshot() == s.fence && screen.Snapshot() == s.term && !s.handled && s.block == None
    {
      ghost var f0 := Snapshot();
      ScanValid(f0, screen.Snapshot(), ch, order);
      if startBackTickBuffer != "" {
        var i := 0;
        while i < |startBackTickBuffer|
          invariant 0 <= i <= |startBackTickBuffer|
          invariant screen.Snapshot() ==
            PutEach(old(screen.Snapshot()), startBackTickBuffer[..i], DefaultColor)
          invariant Snapshot() == f0
          decreases |startBackTickBuffer| - i
        {
          PutEachStep(old(screen.Snapshot()), startBackTickBuffer, i, DefaultColor);
          screen.SetTextAttribute(DefaultColor);
          screen.Write([startBackTickBuffer[i]]);
          i := i + 1;
        }
        assert startBackTickBuffer[..i] == startBackTickBuffer;
        startBackTickBuffer := "";
        startBackTickCount := 0;
      }
    }

    /** A character inside a block: always consumed. */
    method ProcessInBlock(ch: char, screen: Screen, pipe: Pipeline) returns (handled: bool)
      requires Valid() && inCodeBlock
      modifies this, screen, pipe`pending
      ensures Valid()
      ensures var s := Scan(old(Snapshot()), old(screen.Snapshot()), ch, order);
        Snapshot() == s.fence && screen.Snapshot() == s.term && handled == s.handled && handled &&
        pipe.pending == old(pipe.pending) + ToSeq(s.block)
    {
      ScanValid(Snapshot(), screen.Snapshot(), ch, order);
      handled := true;
      if collectingFirstLine {
        FirstLineChar(ch);
      } else if ch == '`' {
        ClosingTick(screen, pipe);
      } else {
        codeBuffer := codeBuffer + [ch];
        screen.SetTextAttribute(currentCodeColor);
        screen.Write([ch]);
      }
    }

    /** A character of the fence's first line: collected, and at its '\n'
        the code colour is chosen from the tag. */
    method FirstLineChar(ch: char)
      requires Valid() && inCodeBlock && collectingFirstLine
      modifies this
      ensures Valid()
      ensures forall t :: Snapshot() == Scan(old(Snapshot()), t, ch, order).fence
    {
      if ch == '\n' {
        collectingFirstLine := false;
        var lowerFirstLine := Lower(firstLineBuffer);
        currentCodeColor := YellowColor;
        var tag := MatchLanguage(order, lowerFirstLine);
        if tag.Some? {
          currentCodeColor := LanguageColorMap[tag.value];
        }
      } else {
        firstLineBuffer := firstLineBuffer + [ch];
      }
    }

    /** A backtick in the body: the third in a row closes the block and
        queues it when its tag is known. */
    method ClosingTick(screen: Screen, pipe: Pipeline)
      requires Valid() && inCodeBlock && !collectingFirstLine
      modifies this, screen, pipe`pending
      ensures Valid()
      ensures var s := Scan(old(Snapshot()), old(screen.Snapshot()), '`', order);
        Snapshot() == s.fence && screen.Snapshot() == s.term &&
        pipe.pending == old(pipe.pending) + ToSeq(s.block)
    {
      endBackTickBuffer := endBackTickBuffer + "`";
      endBackTickCount := endBackTickCount + 1;
      if endBackTickCount == 3 {
        inCodeBlock := false;
        endBackTickBuffer := "";
        endBackTickCount := 0;
        screen.SetTextAttribute(DefaultColor);
        var lowerFirstLine := Lower(firstLineBuffer);
        var tag := MatchLanguage(order, lowerFirstLine);
        if tag.Some? {
          pipe.pending := pipe.pending + [CodeBlock(codeBuffer, tag.value)];
        }
        codeBuffer := "";
        firstLineBuffer := "";
      }
    }

    /** `reset()`. */
    method Reset()
      modifies this
      ensures Valid() == IsKeyOrder(order)
      ensures Snapshot() == ResetFence(old(Snapshot()))
    {
      inCodeBlock := false;
      codeBuffer := "";
      startBackTickBuffer := "";
      startBackTickCount := 0;
      endBackTickBuffer := "";
      endBackTickCount := 0;
      collectingFirstLine := false;
      firstLineBuffer := "";
    }

    /** `isActive()`. */
    method IsActive() returns (r: bool)
      ensures r == Snapshot().inCodeBlock
    {
      return inCodeBlock;
    }
  }

  /** One more character of the backtick loop. */
  lemma PutEachStep(t: Term, s: string, i: nat, w: Word)
    requires i < |s|
    ensures PutEach(t, s[..i + 1], w) == PutAll(SetAttr(PutEach(t, s[..i], w), w), [s[i]])
  {
    assert Paint(s[..i + 1], w) == Paint(s[..i], w) + Paint([s[i]], w);
  }
}
