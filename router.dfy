/** The output reader of the local model: every chunk read from the model
    process goes, character by character, first to the fence scanner and,
    only when the scanner is inactive and declines the character, to the
    line formatter. Both processors keep their state between chunks, so a
    fence or a heading may span chunk boundaries. Two revisions of the
    reader differ in how they treat output before the model has loaded. */
module Router {
  import opened Wrappers
  import opened Strings
  import opened Global
  import opened Console
  import opened Pipeline
  import opened Scanner
  import opened LineFormat

  /** Everything one reader thread touches: the scanner, the line
      formatter, the console and the shared queue. */
  datatype Reader = Reader(fence: Fence, line: LineState, term: Term, pending: seq<CodeBlock>)

  predicate ReaderValid(r: Reader) {
    ValidFence(r.fence) && LineValid(r.line)
  }

  /** One iteration of the `while (pos < chunk.size())` router loop. */
  function RouteChar(r: Reader, ch: char, order: seq<string>): (r': Reader)
    requires IsKeyOrder(order) && ReaderValid(r)
    ensures ReaderValid(r')
  {
    ScanValid(r.fence, r.term, ch, order);
    ProcessValid(r.line, r.term, ch);
    var s := Scan(r.fence, r.term, ch, order);
    var pending := r.pending + ToSeq(s.block);
    if r.fence.inCodeBlock || s.handled then Reader(s.fence, r.line, s.term, pending)
    else
      ProcessValid(r.line, s.term, ch);
      var o := FormatChar(r.line, s.term, ch);
      Reader(s.fence, o.line, o.term, pending)
  }

  /** The router loop over a whole chunk. */
  function RouteChunk(r: Reader, chunk: string, order: seq<string>): (r': Reader)
    requires IsKeyOrder(order) && ReaderValid(r)
    ensures ReaderValid(r')
    decreases |chunk|
  {
    if chunk == [] then r
    else RouteChar(RouteChunk(r, chunk[..|chunk| - 1], order), chunk[|chunk| - 1], order)
  }

  /** A character reaches the line formatter exactly when the scanner is
      inactive and declines it; otherwise the formatter is untouched. The
      queue grows only by the block the scanner reports. */
  lemma RouteCharSplits(r: Reader, ch: char, order: seq<string>)
    requires IsKeyOrder(order) && ReaderValid(r)
    ensures var s := Scan(r.fence, r.term, ch, order);
      var r' := RouteChar(r, ch, order);
      r'.fence == s.fence && r'.pending == r.pending + ToSeq(s.block) &&
      (!r.fence.inCodeBlock && !s.handled ==>
        r'.line == FormatChar(r.line, s.term, ch).line &&
        r'.term == FormatChar(r.line, s.term, ch).term) &&
      (r.fence.inCodeBlock || s.handled ==> r'.line == r.line && r'.term == s.term)
  {
  }

  /** While a fence is open the line formatter sees nothing. */
  lemma ActiveBypassesFormatter(r: Reader, ch: char, order: seq<string>)
    requires IsKeyOrder(order) && ReaderValid(r) && r.fence.inCodeBlock
    ensures RouteChar(r, ch, order).line == r.line
  {
  }

  /** Routing `a + b` is routing `a`, then `b`: splitting the stream into
      chunks anywhere does not change what is printed or queued. */
  lemma {:induction false} RouteChunkAppend(r: Reader, a: string, b: string, order: seq<string>)
    requires IsKeyOrder(order) && ReaderValid(r)
    ensures RouteChunk(r, a + b, order) == RouteChunk(RouteChunk(r, a, order), b, order)
    decreases |b|
  {
    if b == [] {
      assert a + b == a;
    } else {
      var init, last := b[..|b| - 1], b[|b| - 1];
      assert a + b == (a + init) + [last];
      assert b == init + [last];
      RouteChunkAppend(r, a, init, order);
      RouteChunkSnoc(r, a + init, last, order);
      RouteChunkSnoc(RouteChunk(r, a, order), init, last, order);
    }
  }

  lemma RouteChunkSnoc(r: Reader, c: string, x: char, order: seq<string>)
    requires IsKeyOrder(order) && ReaderValid(r)
    ensures RouteChunk(r, c + [x], order) == RouteChar(RouteChunk(r, c, order), x, order)
  {
    assert (c + [x])[..|c|] == c;
  }

  /** The queue only grows at its end, by at most one block per character,
      and every block queued has a table key as its language. */
  lemma {:induction false} RouteChunkQueue(r: Reader, chunk: string, order: seq<string>)
    requires IsKeyOrder(order) && ReaderValid(r)
    ensures var r' := RouteChunk(r, chunk, order);
      |r.pending| <= |r'.pending| <= |r.pending| + |chunk| &&
      r'.pending[..|r.pending|] == r.pending &&
      forall i :: |r.pending| <= i < |r'.pending| ==> r'.pending[i].language in LanguageColorMap
    decreases |chunk|
  {
    if chunk != [] {
      var init := chunk[..|chunk| - 1];
      RouteChunkQueue(r, init, order);
      var m := RouteChunk(r, init, order);
      var s := Scan(m.fence, m.term, chunk[|chunk| - 1], order);
      if s.block.Some? {
        ScanQueuesOnlyOnClose(m.fence, m.term, chunk[|chunk| - 1], order);
        ScanClosingTick(m.fence, m.term, order);
      }
      assert (m.pending + ToSeq(s.block))[..|m.pending|] == m.pending;
    }
  }

  /** A reader with fresh processors, the console in the default colour
      and an empty queue. */
  function FreshReader(): (r: Reader)
    ensures ReaderValid(r) && r.pending == [] && !r.fence.inCodeBlock
  {
    FreshScanner();
    Reader(FreshFence, FreshLine, Term(DefaultColor, []), [])
  }

  /** A `py` block split over two chunks is queued with its code and the
      tag "py", whatever the map's iteration order: "py" is the only key
      occurring in the line "py". */
  lemma SplitFenceQueued(order: seq<string>)
    requires IsKeyOrder(order)
    ensures RouteChunk(RouteChunk(FreshReader(), "``", order), "`py\nx```", order).pending ==
      [CodeBlock("x", "py")]
  {
    FenceSplits();
    var r0 := FreshReader();
    RouteChunkAppend(r0, "``", "`py\nx```", order);
    var r3 := RouteChunk(r0, "```", order);
    RouteChunkAppend(r0, "```", "py\nx```", order);
    RouteThreeTicks(r0, order);
    var r6 := RouteChunk(r3, "py\n", order);
    RouteChunkAppend(r3, "py\n", "x```", order);
    RouteFirstLine(r3, order);
    RouteBody(r6, order);
  }

  lemma FenceSplits()
    ensures "``" + "`py\nx```" == "```py\nx```"
    ensures "```" + "py\nx```" == "```py\nx```"
    ensures "py\n" + "x```" == "py\nx```"
  {
  }

  lemma RouteThreeTicks(r0: Reader, order: seq<string>)
    requires IsKeyOrder(order) && r0 == FreshReader()
    ensures var r := RouteChunk(r0, "```", order);
      r.fence.inCodeBlock && r.fence.collectingFirstLine && r.fence.firstLine == "" &&
      r.fence.codeBuffer == "" && r.pending == [] && r.fence.endCount == 0
  {
    assert "```" == "``" + ['`'] && "``" == "`" + ['`'] && "`" == [] + ['`'];
    RouteChunkSnoc(r0, [], '`', order);
    var r1 := OpeningTick(r0, order);
    assert RouteChunk(r0, "`", order) == r1;
    RouteChunkSnoc(r0, "`", '`', order);
    var r2 := OpeningTick(r1, order);
    assert RouteChunk(r0, "``", order) == r2;
    RouteChunkSnoc(r0, "``", '`', order);
  }

  /** An opening backtick short of the third only counts. */
  lemma OpeningTick(r: Reader, order: seq<string>) returns (r': Reader)
    requires IsKeyOrder(order) && ReaderValid(r)
    requires !r.fence.inCodeBlock && r.fence.startCount < 2
    ensures r' == RouteChar(r, '`', order)
    ensures !r'.fence.inCodeBlock && r'.fence.startCount == r.fence.startCount + 1
    ensures r'.pending == r.pending
  {
    r' := RouteChar(r, '`', order);
  }

  lemma RouteFirstLine(r3: Reader, order: seq<string>)
    requires IsKeyOrder(order) && ReaderValid(r3)
    requires r3.fence.inCodeBlock && r3.fence.collectingFirstLine && r3.fence.firstLine == ""
    requires r3.fence.codeBuffer == "" && r3.pending == []
    ensures var r := RouteChunk(r3, "py\n", order);
      r.fence.inCodeBlock && !r.fence.collectingFirstLine && r.fence.firstLine == "py" &&
      r.fence.codeBuffer == "" && r.pending == [] && r.fence.endCount == 0
  {
    assert "py\n" == "py" + ['\n'] && "py" == "p" + ['y'] && "p" == [] + ['p'];
    RouteChunkSnoc(r3, [], 'p', order);
    RouteChunkSnoc(r3, "p", 'y', order);
    RouteChunkSnoc(r3, "py", '\n', order);
    var r4 := FirstLineStep(r3, 'p', order);
    var r5 := FirstLineStep(r4, 'y', order);
  }

  /** A character of the first line other than '\n' is collected. */
  lemma FirstLineStep(r: Reader, ch: char, order: seq<string>) returns (r': Reader)
    requires IsKeyOrder(order) && ReaderValid(r) && ch != '\n'
    requires r.fence.inCodeBlock && r.fence.collectingFirstLine
    ensures r' == RouteChar(r, ch, order)
    ensures r'.fence == r.fence.(firstLine := r.fence.firstLine + [ch]) && r'.pending == r.pending
  {
    r' := RouteChar(r, ch, order);
  }

  lemma RouteBody(r6: Reader, order: seq<string>)
    requires IsKeyOrder(order) && ReaderValid(r6)
    requires r6.fence.inCodeBlock && !r6.fence.collectingFirstLine && r6.fence.firstLine == "py"
    requires r6.fence.codeBuffer == "" && r6.pending == [] && r6.fence.endCount == 0
    ensures RouteChunk(r6, "x```", order).pending == [CodeBlock("x", "py")]
  {
    assert "x```" == "x``" + ['`'];
    var r9 := RouteBodyTicks(r6, order);
    RouteChunkSnoc(r6, "x``", '`', order);
    OnlyPy(order);
    var r10 := ThirdTick(r9, order);
  }

  /** The body character and the first two closing backticks. */
  lemma RouteBodyTicks(r6: Reader, order: seq<string>) returns (r9: Reader)
    requires IsKeyOrder(order) && ReaderValid(r6)
    requires r6.fence.inCodeBlock && !r6.fence.collectingFirstLine && r6.fence.firstLine == "py"
    requires r6.fence.codeBuffer == "" && r6.pending == [] && r6.fence.endCount == 0
    ensures r9 == RouteChunk(r6, "x``", order) && ReaderValid(r9)
    ensures r9.fence.inCodeBlock && !r9.fence.collectingFirstLine && r9.fence.firstLine == "py"
    ensures r9.fence.codeBuffer == "x" && r9.pending == [] && r9.fence.endCount == 2
  {
    assert "x``" == "x`" + ['`'] && "x`" == "x" + ['`'] && "x" == [] + ['x'];
    RouteChunkSnoc(r6, [], 'x', order);
    var r7 := BodyChar(r6, 'x', order);
    assert RouteChunk(r6, "x", order) == r7;
    RouteChunkSnoc(r6, "x", '`', order);
    var r8 := BodyTick(r7, order);
    assert RouteChunk(r6, "x`", order) == r8;
    RouteChunkSnoc(r6, "x`", '`', order);
    r9 := BodyTick(r8, order);
  }

  /** A body character other than a backtick is buffered. */
  lemma BodyChar(r: Reader, ch: char, order: seq<string>) returns (r': Reader)
    requires IsKeyOrder(order) && ReaderValid(r) && ch != '`'
    requires r.fence.inCodeBlock && !r.fence.collectingFirstLine
    ensures r' == RouteChar(r, ch, order)
    ensures r'.fence.inCodeBlock && !r'.fence.collectingFirstLine
    ensures r'.fence.firstLine == r.fence.firstLine && r'.fence.codeBuffer == r.fence.codeBuffer + [ch]
    ensures r'.fence.endCount == r.fence.endCount && r'.pending == r.pending
  {
    r' := RouteChar(r, ch, order);
  }

  /** The third body backtick queues the buffered code under its tag. */
  lemma ThirdTick(r: Reader, order: seq<string>) returns (r': Reader)
    requires IsKeyOrder(order) && ReaderValid(r)
    requires r.fence.inCodeBlock && !r.fence.collectingFirstLine && r.fence.endCount == 2
    requires Tag(order, r.fence.firstLine).Some?
    ensures r' == RouteChar(r, '`', order)
    ensures r'.pending == r.pending + [CodeBlock(r.fence.codeBuffer, Tag(order, r.fence.firstLine).value)]
  {
    r' := RouteChar(r, '`', order);
  }

  /** A body backtick short of the third only counts. */
  lemma BodyTick(r: Reader, order: seq<string>) returns (r': Reader)
    requires IsKeyOrder(order) && ReaderValid(r)
    requires r.fence.inCodeBlock && !r.fence.collectingFirstLine && r.fence.endCount < 2
    ensures r' == RouteChar(r, '`', order)
    ensures r'.fence.inCodeBlock && !r'.fence.collectingFirstLine
    ensures r'.fence.firstLine == r.fence.firstLine && r'.fence.codeBuffer == r.fence.codeBuffer
    ensures r'.fence.endCount == r.fence.endCount + 1 && r'.pending == r.pending
  {
    r' := RouteChar(r, '`', order);
  }

  /** Only the key "py" occurs in the line "py". */
  lemma OnlyPy(order: seq<string>)
    requires IsKeyOrder(order)
    ensures Tag(order, "py") == Some("py")
  {
    assert Lower("py") == "py";
    FirstMatchSpec(order, "py");
    LanguageKeys();
    var k := Tag(order, "py").value;
    assert Contains("py", "py") by { assert "py"[..2] == "py"; }
    OnlyPyOccurs(k);
  }

  /** The only table key that occurs in "py" is "py" itself. */
  lemma OnlyPyOccurs(k: string)
    requires k in LanguageColorMap && Contains("py", k)
    ensures k == "py"
  {
    InPy(k);
    LanguageColors();
  }

  /** The strings that occur in "py". */
  lemma InPy(k: string)
    requires Contains("py", k)
    ensures k == "" || k == "p" || k == "y" || k == "py"
  {
    if "py"[..|k|] == k {
      assert k == "py"[..|k|];
    } else {
      assert "py"[1..] == "y";
    }
  }

  /** The end of the stream: a final '\n' through the line formatter, then
      the default colour (`processChar('\n')` and `SetConsoleTextAttribute`
      after the read loop). */
  function EndOfStream(r: Reader): (r': Reader)
    requires ReaderValid(r)
    ensures ReaderValid(r')
  {
    var o := FormatChar(r.line, r.term, '\n');
    r.(line := o.line, term := SetAttr(o.term, DefaultColor))
  }

  /** Ending the stream prints one '\n' in the default colour, leaves the
      line formatter fresh and the console in the default colour; the
      scanner and the queue are untouched, so a half-open fence is
      dropped. */
  lemma EndOfStreamSpec(r: Reader)
    requires ReaderValid(r)
    ensures var r' := EndOfStream(r);
      r'.term.out == r.term.out + [Event('\n', DefaultColor)] && r'.term.attr == DefaultColor &&
      r'.line == FreshLine && r'.fence == r.fence && r'.pending == r.pending
  {
  }

  /** The load-complete banner of each revision. */
  const AtlasLoadedBanner := "\n\nModel loading complete!\n"
  const CallerLoadedBanner := "\n\n模型加载完成!\n"

  /** The chunk that completes loading: the banner in the default colour,
      both processors reset, the chunk itself dropped. */
  function LoadChunk(r: Reader, banner: string): (r': Reader)
    ensures ReaderValid(r') && r'.pending == r.pending
  {
    Reader(ResetFence(r.fence), FreshLine,
           SetAttr(PutAll(SetAttr(r.term, DefaultColor), banner), DefaultColor), r.pending)
  }

  /** One chunk in the code-atlas.cpp reader. Before the model is loaded a
      chunk containing the marker completes loading; any other chunk is
      printed raw, unscanned. */
  function AtlasChunk(r: Reader, loaded: bool, marker: string, chunk: string, order: seq<string>)
    : (res: (Reader, bool))
    requires IsKeyOrder(order) && ReaderValid(r)
    ensures ReaderValid(res.0)
  {
    if !loaded && Contains(chunk, marker) then (LoadChunk(r, AtlasLoadedBanner), true)
    else if !loaded then (r.(term := PutAll(r.term, chunk)), false)
    else (RouteChunk(r, chunk, order), true)
  }

  /** One chunk in the model_caller.cpp reader. Before loading, chunks
      without the marker are routed like any other. */
  function CallerChunk(r: Reader, loaded: bool, marker: string, chunk: string, order: seq<string>)
    : (res: (Reader, bool))
    requires IsKeyOrder(order) && ReaderValid(r)
    ensures ReaderValid(res.0)
  {
    if !loaded && Contains(chunk, marker) then (LoadChunk(r, CallerLoadedBanner), true)
    else (RouteChunk(r, chunk, order), loaded)
  }

  /** code-atlas.cpp: before loading, a chunk without the marker is printed
      verbatim in the current colour and nothing is scanned or queued; the
      chunk with the marker prints only the banner, resets both processors
      and loads; after loading every chunk is routed. Loading is never
      undone. */
  lemma AtlasChunkSpec(r: Reader, loaded: bool, marker: string, chunk: string, order: seq<string>)
    requires IsKeyOrder(order) && ReaderValid(r)
    ensures var (r', loaded') := AtlasChunk(r, loaded, marker, chunk, order);
      (loaded ==> loaded') && (loaded' <==> loaded || Contains(chunk, marker)) &&
      (!loaded && !Contains(chunk, marker) ==>
        r'.term.out == r.term.out + Paint(chunk, r.term.attr) &&
        r'.fence == r.fence && r'.line == r.line && r'.pending == r.pending) &&
      (!loaded && Contains(chunk, marker) ==>
        r'.term.out == r.term.out + Paint(AtlasLoadedBanner, DefaultColor) &&
        r'.term.attr == DefaultColor && r'.line == FreshLine &&
        !r'.fence.inCodeBlock && r'.fence.codeBuffer == "" && r'.pending == r.pending) &&
      (loaded ==> r' == RouteChunk(r, chunk, order))
  {
  }

  /** model_caller.cpp: output before loading is routed too, and the first
      chunk with the marker is dropped. */
  lemma CallerChunkSpec(r: Reader, loaded: bool, marker: string, chunk: string, order: seq<string>)
    requires IsKeyOrder(order) && ReaderValid(r)
    ensures var (r', loaded') := CallerChunk(r, loaded, marker, chunk, order);
      (loaded ==> loaded') && (loaded' <==> loaded || Contains(chunk, marker)) &&
      (!loaded && Contains(chunk, marker) ==>
        r'.term.out == r.term.out + Paint(CallerLoadedBanner, DefaultColor) &&
        r'.line == FreshLine && !r'.fence.inCodeBlock && r'.pending == r.pending) &&
      (loaded || !Contains(chunk, marker) ==> r' == RouteChunk(r, chunk, order))
  {
  }

  /** With an empty marker (a prompt without words) the very first chunk
      completes loading and is dropped, whatever it holds. */
  lemma EmptyMarkerDropsFirstChunk(r: Reader, chunk: string, order: seq<string>)
    requires IsKeyOrder(order) && ReaderValid(r)
    ensures CallerChunk(r, false, "", chunk, order) == (LoadChunk(r, CallerLoadedBanner), true)
  {
    ContainsEmpty(chunk);
  }

  /** The reader loop of code-atlas.cpp over a sequence of chunks, in
      order. */
  function AtlasStream(r: Reader, loaded: bool, marker: string, chunks: seq<string>, order: seq<string>)
    : (res: (Reader, bool))
    requires IsKeyOrder(order) && ReaderValid(r)
    ensures ReaderValid(res.0) && (loaded ==> res.1)
    decreases |chunks|
  {
    if chunks == [] then (r, loaded)
    else
      var (r1, l1) := AtlasStream(r, loaded, marker, chunks[..|chunks| - 1], order);
      AtlasChunk(r1, l1, marker, chunks[|chunks| - 1], order)
  }

  /** Once loaded, the atlas reader routes the concatenation of the chunks:
      how the stream was cut into chunks does not matter. */
  lemma {:induction false} LoadedStreamIsRouted(r: Reader, marker: string, chunks: seq<string>, order: seq<string>)
    requires IsKeyOrder(order) && ReaderValid(r)
    ensures AtlasStream(r, true, marker, chunks, order) == (RouteChunk(r, Concat(chunks), order), true)
    decreases |chunks|
  {
    if chunks != [] {
      var init := chunks[..|chunks| - 1];
      LoadedStreamIsRouted(r, marker, init, order);
      RouteChunkAppend(r, Concat(init), chunks[|chunks| - 1], order);
    }
  }

  /** The reader's state as held by its objects. */
  function ReaderOf(scanner: CodeBlockElement, lp: MarkdownLineProcessor, screen: Screen, pipe: Pipeline): Reader
    reads scanner, lp, screen, pipe
  {
    Reader(scanner.Snapshot(), lp.Snapshot(), screen.Snapshot(), pipe.pending)
  }

  /** The router loop of both readers (code-atlas.cpp and model_caller.cpp):
      `pos` moves forward by exactly one character per iteration, through
      the scanner's `process` or, when it declines, through `processChar`. */
  method RouteChunkLoop(chunk: string, scanner: CodeBlockElement, lp: MarkdownLineProcessor,
                        screen: Screen, pipe: Pipeline)
    requires scanner.Valid() && lp.Valid()
    modifies scanner, lp, screen, pipe`pending
    ensures scanner.Valid() && lp.Valid()
    ensures ReaderOf(scanner, lp, screen, pipe) ==
      RouteChunk(old(ReaderOf(scanner, lp, screen, pipe)), chunk, scanner.order)
  {
    ghost var r0 := ReaderOf(scanner, lp, screen, pipe);
    var pos: nat := 0;
    while pos < |chunk|
      invariant pos <= |chunk|
      invariant scanner.Valid() && lp.Valid()
      invariant ReaderOf(scanner, lp, screen, pipe) == RouteChunk(r0, chunk[..pos], scanner.order)
      decreases |chunk| - pos
    {
      var ch := chunk[pos];
      RouteChunkSnoc(r0, chunk[..pos], ch, scanner.order);
      assert chunk[..pos + 1] == chunk[..pos] + [ch];
      pos := RouteOneChar(ch, pos, scanner, lp, screen, pipe);
    }
    assert chunk[..pos] == chunk;
  }

  /** One iteration of the router loop: the character at `pos` goes to
      the scanner and, when the scanner is inactive and declines it, to
      the line formatter; either way `pos` moves on by one. */
  method RouteOneChar(ch: char, pos: nat, scanner: CodeBlockElement, lp: MarkdownLineProcessor,
                      screen: Screen, pipe: Pipeline) returns (newPos: nat)
    requires scanner.Valid() && lp.Valid()
    modifies scanner, lp, screen, pipe`pending
    ensures scanner.Valid() && lp.Valid() && newPos == pos + 1
    ensures ReaderOf(scanner, lp, screen, pipe) ==
      RouteChar(old(ReaderOf(scanner, lp, screen, pipe)), ch, scanner.order)
  {
    ghost var before := ReaderOf(scanner, lp, screen, pipe);
    RouteCharSplits(before, ch, scanner.order);
    var active := scanner.IsActive();
    if active {
      ScanInBlockHandled(before.fence, before.term, ch, scanner.order);
      var handled;
      handled, newPos := scanner.Process(ch, pos, screen, pipe);
    } else {
      var handled;
      handled, newPos := scanner.Process(ch, pos, screen, pipe);
      if !handled {
        lp.ProcessChar(ch, screen);
        newPos := newPos + 1;
      }
    }
  }

  /** One chunk in the code-atlas.cpp reader thread; `nowMs` is the time it
      arrived. */
  method AtlasReadChunk(chunk: string, nowMs: int, marker: string, scanner: CodeBlockElement,
                        lp: MarkdownLineProcessor, screen: Screen, pipe: Pipeline)
    requires scanner.Valid() && lp.Valid()
    modifies scanner, lp, screen, pipe`pending, pipe`modelLoaded, pipe`lastChunkMs
    ensures scanner.Valid() && lp.Valid()
    ensures pipe.lastChunkMs == nowMs
    ensures (ReaderOf(scanner, lp, screen, pipe), pipe.modelLoaded) ==
      AtlasChunk(old(ReaderOf(scanner, lp, screen, pipe)), old(pipe.modelLoaded), marker, chunk, scanner.order)
  {
    pipe.lastChunkMs := nowMs;
    if !pipe.modelLoaded && Contains(chunk, marker) {
      pipe.modelLoaded := true;
      screen.SetTextAttribute(DefaultColor);
      screen.Write(AtlasLoadedBanner);
      screen.SetTextAttribute(DefaultColor);
      scanner.Reset();
      lp.ResetLineState();
      return;
    }
    if !pipe.modelLoaded {
      screen.Write(chunk);
      return;
    }
    RouteChunkLoop(chunk, scanner, lp, screen, pipe);
  }

  /** One chunk in the model_caller.cpp reader thread. */
  method CallerReadChunk(chunk: string, nowMs: int, marker: string, scanner: CodeBlockElement,
                         lp: MarkdownLineProcessor, screen: Screen, pipe: Pipeline)
    requires scanner.Valid() && lp.Valid()
    modifies scanner, lp, screen, pipe`pending, pipe`modelLoaded, pipe`lastChunkMs
    ensures scanner.Valid() && lp.Valid()
    ensures pipe.lastChunkMs == nowMs
    ensures (ReaderOf(scanner, lp, screen, pipe), pipe.modelLoaded) ==
      CallerChunk(old(ReaderOf(scanner, lp, screen, pipe)), old(pipe.modelLoaded), marker, chunk, scanner.order)
  {
    pipe.lastChunkMs := nowMs;
    if !pipe.modelLoaded && Contains(chunk, marker) {
      pipe.modelLoaded := true;
      screen.SetTextAttribute(DefaultColor);
      screen.Write(CallerLoadedBanner);
      screen.SetTextAttribute(DefaultColor);
      scanner.Reset();
      lp.ResetLineState();
      return;
    }
    RouteChunkLoop(chunk, scanner, lp, screen, pipe);
  }

  /** After the last chunk of either reader. */
  method FinishStream(lp: MarkdownLineProcessor, screen: Screen, ghost scanner: CodeBlockElement, ghost pipe: Pipeline)
    requires lp.Valid() && ValidFence(scanner.Snapshot())
    modifies lp, screen
    ensures lp.Valid()
    ensures ReaderOf(scanner, lp, screen, pipe) == EndOfStream(old(ReaderOf(scanner, lp, screen, pipe)))
  {
    lp.ProcessChar('\n', screen);
    screen.SetTextAttribute(DefaultColor);
  }
}
