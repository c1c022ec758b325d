/** `APIModelCaller::processResponse` of model_caller.cpp: the reader of
    the remote model's event stream. Each `data: ` line's content delta is
    routed through the fence scanner and the line formatter exactly as the
    local reader routes its chunks; a `data: [DONE]` line ends the
    response. JSON decoding is an input, as in `ApiStream`. */
module Responses {
  import opened Strings
  import opened Lines
  import opened Global
  import opened Console
  import opened Pipeline
  import opened Scanner
  import opened LineFormat
  import opened Router
  import opened ApiStream

  /** The state `processResponse` reads and writes: the processors, the
      console and the queue; the load flag; the time of the last chunk;
      `isNewResponse`. */
  datatype Caller = Caller(reader: Reader, loaded: bool, lastChunkMs: int, isNewResponse: bool)

  const DoneLine := "data: [DONE]"

  /** `response["choices"][0]["delta"]["content"]` when it is a string. A
      `null` content makes `get<std::string>` throw a `json::exception`,
      which is caught and ignored like a parse error. */
  function ContentOf(d: Decoded): Field {
    if d.Chunk? then d.delta.content else Absent
  }

  /** The end of a response: a '\n' through the line formatter, then
      "\n\n", then the default colour; the next content starts a new
      response. */
  function Finish(c: Caller): (r: Caller)
    requires ReaderValid(c.reader)
    ensures ReaderValid(r.reader)
  {
    ProcessValid(c.reader.line, c.reader.term, '\n');
    var o := FormatChar(c.reader.line, c.reader.term, '\n');
    c.(reader := c.reader.(line := o.line, term := SetAttr(PutAll(o.term, "\n\n"), DefaultColor)),
       isNewResponse := true)
  }

  /** One content delta: the time is recorded, the first non-empty content
      marks the model loaded, a new response starts on a fresh console
      line, and the content goes through the router. */
  function ShowContent(c: Caller, content: string, nowMs: int, order: seq<string>): (r: Caller)
    requires IsKeyOrder(order) && ReaderValid(c.reader)
    ensures ReaderValid(r.reader)
  {
    var term := if c.isNewResponse then PutAll(c.reader.term, "\n") else c.reader.term;
    Caller(RouteChunk(c.reader.(term := term), content, order), c.loaded || content != "", nowMs, false)
  }

  /** A line other than `data: [DONE]`: a `data: ` line whose payload has a
      string content is shown; every other line is ignored. */
  function HandleLine(c: Caller, line: string, nowMs: int, decode: string -> Decoded, order: seq<string>): (r: Caller)
    requires IsKeyOrder(order) && ReaderValid(c.reader)
    ensures ReaderValid(r.reader)
  {
    if StartsWith(line, "data: ") && ContentOf(decode(line[6..])).Str? then
      ShowContent(c, ContentOf(decode(line[6..])).value, nowMs, order)
    else c
  }

  /** The `getline` loop over the lines of a chunk. */
  function ProcessLines(c: Caller, lines: seq<string>, nowMs: int, decode: string -> Decoded, order: seq<string>)
    : (r: Caller)
    requires IsKeyOrder(order) && ReaderValid(c.reader)
    ensures ReaderValid(r.reader)
    decreases |lines|
  {
    if lines == [] then c
    else if lines[0] == DoneLine then Finish(c)
    else ProcessLines(HandleLine(c, lines[0], nowMs, decode, order), lines[1..], nowMs, decode, order)
  }

  /** `processResponse(chunk)`. */
  function ProcessedChunk(c: Caller, chunk: string, nowMs: int, decode: string -> Decoded, order: seq<string>)
    : (r: Caller)
    requires IsKeyOrder(order) && ReaderValid(c.reader)
  {
    ProcessLines(c, GetLines(chunk), nowMs, decode, order)
  }

  /** A `data: [DONE]` line ends the chunk: the lines after it are ignored. */
  lemma {:induction false} StopsAtDone(c: Caller, pre: seq<string>, post: seq<string>, nowMs: int,
                                       decode: string -> Decoded, order: seq<string>)
    requires IsKeyOrder(order) && ReaderValid(c.reader)
    requires DoneLine !in pre
    ensures ProcessLines(c, pre + [DoneLine] + post, nowMs, decode, order) ==
      Finish(ProcessLines(c, pre, nowMs, decode, order))
    decreases |pre|
  {
    if pre == [] {
      assert pre + [DoneLine] + post == [DoneLine] + post;
    } else {
      assert (pre + [DoneLine] + post)[0] == pre[0];
      assert (pre + [DoneLine] + post)[1..] == pre[1..] + [DoneLine] + post;
      StopsAtDone(HandleLine(c, pre[0], nowMs, decode, order), pre[1..], post, nowMs, decode, order);
    }
  }

  /** Finishing a response writes '\n' in the default colour and then
      "\n\n", leaves the console in the default colour and the line
      formatter fresh, and sets `isNewResponse`; the scanner, the queue, the
      load flag and the time are untouched. */
  lemma FinishSpec(c: Caller)
    requires ReaderValid(c.reader)
    ensures var r := Finish(c);
      r.reader.term.out == c.reader.term.out + [Event('\n', DefaultColor)] + Paint("\n\n", DefaultColor) &&
      r.reader.term.attr == DefaultColor && r.reader.line == FreshLine && r.isNewResponse &&
      r.reader.fence == c.reader.fence && r.reader.pending == c.reader.pending &&
      r.loaded == c.loaded && r.lastChunkMs == c.lastChunkMs
  {
    NewlineResets(c.reader.line, c.reader.term);
  }

  /** Only `data: ` lines with a string content have an effect; such a line
      records the time, clears `isNewResponse`, makes the model loaded when
      its content is non-empty (and never unloads it), and routes exactly
      that content, after a '\n' when a new response starts. */
  lemma HandleLineSpec(c: Caller, line: string, nowMs: int, decode: string -> Decoded, order: seq<string>)
    requires IsKeyOrder(order) && ReaderValid(c.reader)
    ensures var r := HandleLine(c, line, nowMs, decode, order);
      (!StartsWith(line, "data: ") ==> r == c) &&
      (c.loaded ==> r.loaded) &&
      (StartsWith(line, "data: ") && ContentOf(decode(line[6..])).Str? ==>
        var content := ContentOf(decode(line[6..])).value;
        r.loaded == (c.loaded || content != "") && r.lastChunkMs == nowMs && !r.isNewResponse &&
        r.reader == RouteChunk(c.reader.(term := if c.isNewResponse then PutAll(c.reader.term, "\n") else c.reader.term),
                               content, order)) &&
      (!(StartsWith(line, "data: ") && ContentOf(decode(line[6..])).Str?) ==> r == c)
  {
  }

  /** Within a chunk, loading is never undone. */
  lemma {:induction false} LoadedStays(c: Caller, lines: seq<string>, nowMs: int, decode: string -> Decoded,
                                       order: seq<string>)
    requires IsKeyOrder(order) && ReaderValid(c.reader)
    ensures c.loaded ==> ProcessLines(c, lines, nowMs, decode, order).loaded
    decreases |lines|
  {
    if lines != [] && lines[0] != DoneLine {
      LoadedStays(HandleLine(c, lines[0], nowMs, decode, order), lines[1..], nowMs, decode, order);
    }
  }

  /** The remote model's caller: only `isNewResponse` is its own; the rest
      of the state is shared with the reader objects. */
  class ApiModelCaller {
    var isNewResponse: bool

    constructor()
      ensures isNewResponse
    {
      isNewResponse := true;
    }

    function CallerOf(scanner: CodeBlockElement, lp: MarkdownLineProcessor, screen: Screen, pipe: Pipeline): Caller
      reads this, scanner, lp, screen, pipe
    {
      Caller(ReaderOf(scanner, lp, screen, pipe), pipe.modelLoaded, pipe.lastChunkMs, isNewResponse)
    }

    /** `processResponse(chunk)`, the chunk having arrived at `nowMs`. */
    method ProcessResponse(chunk: string, nowMs: int, decode: string -> Decoded, scanner: CodeBlockElement,
                           lp: MarkdownLineProcessor, screen: Screen, pipe: Pipeline)
      requires scanner.Valid() && lp.Valid()
      modifies this, scanner, lp, screen, pipe`pending, pipe`modelLoaded, pipe`lastChunkMs
      ensures scanner.Valid() && lp.Valid()
      ensures CallerOf(scanner, lp, screen, pipe) ==
        ProcessedChunk(old(CallerOf(scanner, lp, screen, pipe)), chunk, nowMs, decode, scanner.order)
    {
      ghost var goal := ProcessedChunk(CallerOf(scanner, lp, screen, pipe), chunk, nowMs, decode, scanner.order);
      var rest := chunk;
      while rest != []
        invariant scanner.Valid() && lp.Valid()
        invariant ProcessLines(CallerOf(scanner, lp, screen, pipe), GetLines(rest), nowMs, decode, scanner.order) == goal
        decreases |rest|
      {
        var k := IndexOf(rest, '\n');
        GetLinesStep(rest);
        var line;
        if k == -1 {
          line := rest;
          rest := [];
        } else {
          line := rest[..k];
          rest := rest[k + 1..];
        }
        if line == DoneLine {
          FinishResponse(scanner, lp, screen, pipe);
          return;
        }
        HandleResponseLine(line, nowMs, decode, scanner, lp, screen, pipe);
      }
    }

    /** The `data: [DONE]` branch. */
    method FinishResponse(scanner: CodeBlockElement, lp: MarkdownLineProcessor, screen: Screen, pipe: Pipeline)
      requires scanner.Valid() && lp.Valid()
      modifies this, lp, screen
      ensures scanner.Valid() && lp.Valid()
      ensures CallerOf(scanner, lp, screen, pipe) == Finish(old(CallerOf(scanner, lp, screen, pipe)))
    {
      lp.ProcessChar('\n', screen);
      screen.Write("\n\n");
      screen.SetTextAttribute(DefaultColor);
      isNewResponse := true;
    }

    /** Any other line of the chunk. */
    method HandleResponseLine(line: string, nowMs: int, decode: string -> Decoded, scanner: CodeBlockElement,
                              lp: MarkdownLineProcessor, screen: Screen, pipe: Pipeline)
      requires scanner.Valid() && lp.Valid()
      modifies this, scanner, lp, screen, pipe`pending, pipe`modelLoaded, pipe`lastChunkMs
      ensures scanner.Valid() && lp.Valid()
      ensures CallerOf(scanner, lp, screen, pipe) ==
        HandleLine(old(CallerOf(scanner, lp, screen, pipe)), line, nowMs, decode, scanner.order)
    {
      if StartsWith(line, "data: ") {
        var jsonData := line[6..];
        var content := ContentOf(decode(jsonData));
        if content.Str? {
          ShowMessageContent(content.value, nowMs, scanner, lp, screen, pipe);
        }
      }
    }

    /** The handling of a `data: ` line's string content. */
    method ShowMessageContent(messageContent: string, nowMs: int, scanner: CodeBlockElement,
                              lp: MarkdownLineProcessor, screen: Screen, pipe: Pipeline)
      requires scanner.Valid() && lp.Valid()
      modifies this, scanner, lp, screen, pipe`pending, pipe`modelLoaded, pipe`lastChunkMs
      ensures scanner.Valid() && lp.Valid()
      ensures CallerOf(scanner, lp, screen, pipe) ==
        ShowContent(old(CallerOf(scanner, lp, screen, pipe)), messageContent, nowMs, scanner.order)
    {
      pipe.lastChunkMs := nowMs;
      if !pipe.modelLoaded && messageContent != "" {
        pipe.modelLoaded := true;
      }
      if isNewResponse {
        screen.Write("\n");
        isNewResponse := false;
      }
      RouteChunkLoop(messageContent, scanner, lp, screen, pipe);
    }
  }
}
