/** The streamed response handling of src/ApiClient.cpp: the Server-Sent
    Events line framing of `write_callback` (section 9.2 of the HTML Living
    Standard: an event line is `data: ` followed by its payload), the
    accumulation of content and tool-call fragments, the live printing of a
    tool's `code` argument, the final response classification and the
    parameter whitelist of the constructor. JSON decoding is an input: a
    payload is turned into a `Decoded` value by the `decode` parameter. */
module ApiStream {
  import opened Wrappers
  import opened Strings
  import opened Lines
  import opened Escapes

  /** A JSON member as the code tests it: missing, `null`, or a string. */
  datatype Field = Absent | Null | Str(value: string)

  /** `tool_chunk["function"]`. */
  datatype FunctionChunk = FunctionChunk(name: Field, arguments: Field)

  /** `delta["tool_calls"][0]`. */
  datatype ToolChunk = ToolChunk(index: int, id: Field, func: Option<FunctionChunk>)

  /** The parts of `chunk["choices"][0]` the callback reads. */
  datatype Delta = Delta(content: Field, toolCall: Option<ToolChunk>, finishReason: Field)

  /** A payload after `nlohmann::json::parse`. */
  datatype Decoded = ParseError | Chunk(delta: Delta)

  /** `ToolCall` with its `function` object flattened into `name` and
      `arguments`. */
  datatype ToolCall = ToolCall(id: string, kind: string, name: string, arguments: string)

  /** `PrintingState`. */
  datatype PrintingState = PrintingState(inCodeBlock: bool, codeBuffer: string, pendingEscapeBuffer: string)

  const FreshPrinting := PrintingState(false, "", "")
  const FreshToolCall := ToolCall("", "function", "", "")

  /** The locals of `send_message` that `write_callback` updates; `printed`
      is what it has written to `std::cout`. */
  datatype Session = Session(lineBuffer: string, content: string, finishReason: string, hasTools: bool,
                             toolCalls: map<int, ToolCall>, printing: map<int, PrintingState>, printed: string)

  /** Every tool call has a printing state and the other way round. */
  predicate SessionValid(s: Session) {
    s.toolCalls.Keys == s.printing.Keys
  }

  const StartMarker := "{\"code\":\""

  /** The last index of `c` in `s`, or -1 (`s.rfind(c)`). */
  function LastIndexOf(s: string, c: char): (r: int)
    ensures r == -1 <==> c !in s
    ensures r != -1 ==> 0 <= r < |s| && s[r] == c && c !in s[r + 1..]
  {
    if s == [] then -1
    else if s[|s| - 1] == c then |s| - 1
    else
      var r := LastIndexOf(s[..|s| - 1], c);
      assert r != -1 ==> s[r + 1..] == s[..|s| - 1][r + 1..] + [s[|s| - 1]];
      assert r == -1 ==> s == s[..|s| - 1] + [s[|s| - 1]];
      r
  }

  /** `tool_calls_printing_state[idx]`: `operator[]` yields a fresh state
      for a missing index. */
  function PrintingOf(m: map<int, PrintingState>, idx: int): PrintingState {
    if idx in m then m[idx] else FreshPrinting
  }

  /** The fragment joins the pending buffer; outside a code block, once the
      start marker is in the buffer, the code block starts and the buffer
      keeps only what follows the marker's first occurrence. */
  function EnterCode(ps: PrintingState, argsChunk: string): PrintingState {
    var buf := ps.pendingEscapeBuffer + argsChunk;
    if ps.inCodeBlock then ps.(pendingEscapeBuffer := buf)
    else
      var startPos := Find(buf, StartMarker, 0);
      if startPos == -1 then ps.(pendingEscapeBuffer := buf)
      else ps.(inCodeBlock := true, pendingEscapeBuffer := buf[startPos + |StartMarker|..])
  }

  /** The state after flushing an open code block, the raw text it prints
      (unescaped on output) and whether the block closed. */
  datatype Flushed = Flushed(state: PrintingState, raw: string, closed: bool)

  /** Inside a code block: the pending text moves to the code buffer. If
      the buffer's last '"' is followed directly by its last '}', the code
      before that quote is printed and the block closes; otherwise
      everything but a trailing backslash is printed. */
  function Flush(ps: PrintingState): Flushed {
    var code := ps.codeBuffer + ps.pendingEscapeBuffer;
    var endPos := LastIndexOf(code, '"');
    if endPos != -1 && LastIndexOf(code, '}') == endPos + 1 then
      Flushed(PrintingState(false, code[endPos + 1..], ""), code[..endPos], true)
    else
      var split := SafePrintWithEscapes(code);
      if split.safe != "" then Flushed(PrintingState(true, split.rest, ""), split.safe, false)
      else Flushed(PrintingState(true, code, ""), "", false)
  }

  /** A new printing state and the text printed for one argument fragment. */
  datatype Printed = Printed(state: PrintingState, text: string)

  function PrintFragment(ps: PrintingState, argsChunk: string): Printed {
    var entered := EnterCode(ps, argsChunk);
    if entered.inCodeBlock then
      var f := Flush(entered);
      Printed(f.state, Unescape(f.raw))
    else Printed(entered, "")
  }

  /** The JSON text `std::cout << json` writes for a name. */
  function JsonText(f: Field): string {
    match f
    case Absent => ""
    case Null => "null"
    case Str(v) => "\"" + v + "\""
  }

  /** The banner printed when a tool call's first fragment names it. */
  function Banner(name: Field): string {
    "\n--- Running Tool: " + JsonText(name) + " ---\n"
  }

  /** A chunk for an index not seen before creates its tool call and
      printing state, announcing the tool when the chunk names it. */
  function Register(s: Session, tc: ToolChunk): (r: Session)
    ensures tc.index in r.toolCalls
  {
    if tc.index in s.toolCalls then s
    else
      s.(toolCalls := s.toolCalls[tc.index := FreshToolCall],
         printing := s.printing[tc.index := FreshPrinting],
         printed := s.printed + (if tc.func.Some? && !tc.func.value.name.Absent? then Banner(tc.func.value.name) else ""))
  }

  /** A string `id` or function `name` replaces the recorded one. */
  function SetIdAndName(s: Session, tc: ToolChunk): (r: Session)
    requires tc.index in s.toolCalls
    ensures r.toolCalls.Keys == s.toolCalls.Keys
  {
    var idx := tc.index;
    var s1 := if tc.id.Str? then s.(toolCalls := s.toolCalls[idx := s.toolCalls[idx].(id := tc.id.value)]) else s;
    if tc.func.Some? && tc.func.value.name.Str? then
      s1.(toolCalls := s1.toolCalls[idx := s1.toolCalls[idx].(name := tc.func.value.name.value)])
    else s1
  }

  /** A string `arguments` fragment is appended to the call's arguments and
      goes through the printing state of its index. */
  function AddArguments(s: Session, tc: ToolChunk): (r: Session)
    requires tc.index in s.toolCalls
    ensures r.toolCalls.Keys == s.toolCalls.Keys
  {
    var idx := tc.index;
    if tc.func.Some? && tc.func.value.arguments.Str? then
      var argsChunk := tc.func.value.arguments.value;
      var call := s.toolCalls[idx];
      var p := PrintFragment(PrintingOf(s.printing, idx), argsChunk);
      s.(toolCalls := s.toolCalls[idx := call.(arguments := call.arguments + argsChunk)],
         printing := s.printing[idx := p.state],
         printed := s.printed + p.text)
    else s
  }

  /** The `tool_calls` branch of the callback for one tool chunk. */
  function ToolStep(s: Session, tc: ToolChunk): (r: Session)
    ensures r.lineBuffer == s.lineBuffer && r.content == s.content && r.finishReason == s.finishReason
    ensures r.hasTools == s.hasTools
  {
    AddArguments(SetIdAndName(Register(s, tc), tc), tc)
  }

  /** The body of the callback for one decoded payload. A parse error is
      reported on `std::cerr` only, which is not modelled. */
  function Apply(s: Session, d: Decoded): (r: Session)
    ensures r.lineBuffer == s.lineBuffer && r.hasTools == s.hasTools
  {
    match d
    case ParseError => s
    case Chunk(delta) =>
      var s1 :=
        if delta.content.Str? then s.(content := s.content + delta.content.value, printed := s.printed + delta.content.value)
        else s;
      var s2 := if s.hasTools && delta.toolCall.Some? then ToolStep(s1, delta.toolCall.value) else s1;
      if delta.finishReason.Str? then s2.(finishReason := delta.finishReason.value) else s2
  }

  /** `line.rfind("data: ", 0) == 0`. */
  predicate IsDataLine(line: string) {
    StartsWith(line, "data: ")
  }

  /** A `data: ` line whose payload holds `[DONE]`. */
  predicate IsDonePayload(line: string) {
    IsDataLine(line) && Contains(line[6..], "[DONE]")
  }

  /** The session after the callback's loop, the lines it took out of the
      buffer in order, and whether it stopped at a `[DONE]` payload. */
  datatype Drained = Drained(session: Session, lines: seq<string>, done: bool)

  /** One line taken out of the buffer that is not a `[DONE]` payload:
      a `data: ` line has its payload, the text after the first six
      characters, decoded and applied; any other line is dropped. */
  function AfterLine(s: Session, line: string, decode: string -> Decoded): (r: Session)
    ensures r.lineBuffer == s.lineBuffer
  {
    if IsDataLine(line) then Apply(s, decode(line[6..])) else s
  }

  /** The `while` loop of `write_callback`, from the current buffer. */
  function Drain(s: Session, decode: string -> Decoded): Drained
    decreases |s.lineBuffer|
  {
    var pos := IndexOf(s.lineBuffer, '\n');
    if pos == -1 then Drained(s, [], false)
    else
      var line := s.lineBuffer[..pos];
      var s1 := s.(lineBuffer := s.lineBuffer[pos + 1..]);
      if IsDonePayload(line) then Drained(s1, [line], true)
      else
        var r := Drain(AfterLine(s1, line, decode), decode);
        Drained(r.session, [line] + r.lines, r.done)
  }

  /** `write_callback(data)`: append, then drain. */
  function Callback(s: Session, data: string, decode: string -> Decoded): Drained {
    Drain(s.(lineBuffer := s.lineBuffer + data), decode)
  }

  /** Framing: the lines taken out, each followed by '\n', and then the
      remaining buffer give back the buffer the loop started from; no line
      holds a '\n'; and unless a `[DONE]` payload stopped the loop, the
      remaining buffer holds no '\n'. */
  lemma {:induction false} DrainFraming(s: Session, decode: string -> Decoded)
    ensures var r := Drain(s, decode);
      Unlines(r.lines) + r.session.lineBuffer == s.lineBuffer &&
      (forall i :: 0 <= i < |r.lines| ==> '\n' !in r.lines[i]) &&
      (!r.done ==> '\n' !in r.session.lineBuffer)
  {
    DrainFrames(s, decode);
    FrameRejoins(s.lineBuffer, IsDonePayload);
    FrameLinesPlain(s.lineBuffer, IsDonePayload);
  }

  /** The framing of the callback's loop on the buffer alone: the lines
      taken out, what is left, and whether a line satisfying `stop` ended
      it. */
  datatype Framed = Framed(lines: seq<string>, rest: string, done: bool)

  function Frame(buf: string, stop: string -> bool): Framed
    decreases |buf|
  {
    var pos := IndexOf(buf, '\n');
    if pos == -1 then Framed([], buf, false)
    else
      var line := buf[..pos];
      if stop(line) then Framed([line], buf[pos + 1..], true)
      else
        var r := Frame(buf[pos + 1..], stop);
        Framed([line] + r.lines, r.rest, r.done)
  }

  /** The loop frames the buffer independently of what the lines do to
      the session. */
  lemma {:induction false} DrainFrames(s: Session, decode: string -> Decoded)
    ensures Drain(s, decode).lines == Frame(s.lineBuffer, IsDonePayload).lines
    ensures Drain(s, decode).session.lineBuffer == Frame(s.lineBuffer, IsDonePayload).rest
    ensures Drain(s, decode).done == Frame(s.lineBuffer, IsDonePayload).done
    decreases |s.lineBuffer|
  {
    var pos := IndexOf(s.lineBuffer, '\n');
    if pos != -1 {
      var line := s.lineBuffer[..pos];
      var s1 := s.(lineBuffer := s.lineBuffer[pos + 1..]);
      if !IsDonePayload(line) {
        var next := AfterLine(s1, line, decode);
        assert next.lineBuffer == s.lineBuffer[pos + 1..];
        DrainFrames(next, decode);
        var r := Drain(next, decode);
        assert Drain(s, decode) == Drained(r.session, [line] + r.lines, r.done);
        var f := Frame(next.lineBuffer, IsDonePayload);
        assert Frame(s.lineBuffer, IsDonePayload) == Framed([line] + f.lines, f.rest, f.done);
      }
    }
  }

  lemma {:induction false} FrameRejoins(buf: string, stop: string -> bool)
    ensures Unlines(Frame(buf, stop).lines) + Frame(buf, stop).rest == buf
    decreases |buf|
  {
    var pos := IndexOf(buf, '\n');
    if pos != -1 {
      var line, tail := buf[..pos], buf[pos + 1..];
      assert buf == line + "\n" + tail;
      if stop(line) {
        assert Frame(buf, stop) == Framed([line], tail, true);
        UnlinesCons(line, []);
      } else {
        var f := Frame(tail, stop);
        assert Frame(buf, stop) == Framed([line] + f.lines, f.rest, f.done);
        FrameRejoins(tail, stop);
        UnlinesCons(line, f.lines);
        AppendAssoc(line + "\n", Unlines(f.lines), f.rest);
      }
    }
  }

  lemma {:induction false} FrameLinesPlain(buf: string, stop: string -> bool)
    ensures forall i :: 0 <= i < |Frame(buf, stop).lines| ==> '\n' !in Frame(buf, stop).lines[i]
    ensures !Frame(buf, stop).done ==> '\n' !in Frame(buf, stop).rest
    decreases |buf|
  {
    var pos := IndexOf(buf, '\n');
    if pos != -1 {
      var line := buf[..pos];
      if !stop(line) {
        FrameLinesPlain(buf[pos + 1..], stop);
        var rest := Frame(buf[pos + 1..], stop).lines;
        assert forall i :: 1 <= i < |[line] + rest| ==> ([line] + rest)[i] == rest[i - 1];
      }
    }
  }

  /** A line that is not a `data: ` line is dropped without effect. */
  lemma DrainSkips(s: Session, line: string, rest: string, decode: string -> Decoded)
    requires '\n' !in line && !IsDataLine(line)
    ensures Drain(s.(lineBuffer := line + "\n" + rest), decode).session == Drain(s.(lineBuffer := rest), decode).session
  {
    var b := line + "\n" + rest;
    assert IndexOf(b, '\n') == |line| by {
      assert b[|line|] == '\n' && b[..|line|] == line;
    }
    assert b[..|line|] == line && b[|line| + 1..] == rest;
  }

  /** A `data: ` line whose payload holds `[DONE]` ends the callback: the
      rest of the buffer is left as it is, unprocessed. */
  lemma DrainStopsAtDone(s: Session, line: string, rest: string, decode: string -> Decoded)
    requires '\n' !in line && IsDonePayload(line)
    ensures Drain(s.(lineBuffer := line + "\n" + rest), decode) == Drained(s.(lineBuffer := rest), [line], true)
  {
    var b := line + "\n" + rest;
    assert IndexOf(b, '\n') == |line| by {
      assert b[|line|] == '\n' && b[..|line|] == line;
    }
    assert b[..|line|] == line && b[|line| + 1..] == rest;
  }

  /** Any other `data: ` line has its payload, the text after the first six
      characters, decoded and applied before the loop goes on. */
  lemma DrainDecodes(s: Session, line: string, rest: string, decode: string -> Decoded)
    requires '\n' !in line && IsDataLine(line) && !Contains(line[6..], "[DONE]")
    ensures Drain(s.(lineBuffer := line + "\n" + rest), decode).session ==
      Drain(Apply(s.(lineBuffer := rest), decode(line[6..])), decode).session
  {
    var b := line + "\n" + rest;
    assert IndexOf(b, '\n') == |line| by {
      assert b[|line|] == '\n' && b[..|line|] == line;
    }
    assert b[..|line|] == line && b[|line| + 1..] == rest;
  }

  /** The argument fragment a decoded payload contributes to tool call
      `idx`. */
  function Fragment(hasTools: bool, d: Decoded, idx: int): string {
    if hasTools && d.Chunk? && d.delta.toolCall.Some? && d.delta.toolCall.value.index == idx &&
       d.delta.toolCall.value.func.Some? && d.delta.toolCall.value.func.value.arguments.Str?
    then d.delta.toolCall.value.func.value.arguments.value
    else ""
  }

  /** The arguments collected so far for tool call `idx`. */
  function ArgumentsOf(s: Session, idx: int): string {
    if idx in s.toolCalls then s.toolCalls[idx].arguments else ""
  }

  /** The argument fragment a tool chunk carries for index `idx`. */
  function ChunkFragment(tc: ToolChunk, idx: int): string {
    if tc.index == idx && tc.func.Some? && tc.func.value.arguments.Str? then tc.func.value.arguments.value else ""
  }

  /** A tool chunk registers its index, appends its fragment to that call's
      arguments and leaves every other call's arguments alone. */
  lemma ToolStepSpec(s: Session, tc: ToolChunk, idx: int)
    requires SessionValid(s)
    ensures var r := ToolStep(s, tc);
      SessionValid(r) && r.toolCalls.Keys == s.toolCalls.Keys + {tc.index} &&
      ArgumentsOf(r, idx) == ArgumentsOf(s, idx) + ChunkFragment(tc, idx) &&
      (tc.index !in s.toolCalls ==> r.toolCalls[tc.index].kind == "function")
  {
    var s1 := Register(s, tc);
    RegisterSpec(s, tc, idx);
    var s2 := SetIdAndName(s1, tc);
    SetIdAndNameSpec(s1, tc, idx);
    AddArgumentsSpec(s2, tc, idx);
  }

  lemma RegisterSpec(s: Session, tc: ToolChunk, idx: int)
    requires SessionValid(s)
    ensures var r := Register(s, tc);
      SessionValid(r) && r.toolCalls.Keys == s.toolCalls.Keys + {tc.index} &&
      ArgumentsOf(r, idx) == ArgumentsOf(s, idx) &&
      (tc.index !in s.toolCalls ==> r.toolCalls[tc.index] == FreshToolCall)
  {
  }

  lemma SetIdAndNameSpec(s: Session, tc: ToolChunk, idx: int)
    requires SessionValid(s) && tc.index in s.toolCalls
    ensures var r := SetIdAndName(s, tc);
      SessionValid(r) && r.toolCalls.Keys == s.toolCalls.Keys &&
      ArgumentsOf(r, idx) == ArgumentsOf(s, idx) &&
      r.toolCalls[tc.index].kind == s.toolCalls[tc.index].kind
  {
  }

  lemma AddArgumentsSpec(s: Session, tc: ToolChunk, idx: int)
    requires SessionValid(s) && tc.index in s.toolCalls
    ensures var r := AddArguments(s, tc);
      SessionValid(r) && r.toolCalls.Keys == s.toolCalls.Keys &&
      ArgumentsOf(r, idx) == ArgumentsOf(s, idx) + ChunkFragment(tc, idx) &&
      r.toolCalls[tc.index].kind == s.toolCalls[tc.index].kind
  {
  }

  /** One payload appends its fragment for `idx` to that call's arguments,
      keeps the tool-call and printing maps in step, and appends its
      content delta to the content; without tools no call is recorded. */
  lemma ApplySpec(s: Session, d: Decoded, idx: int)
    requires SessionValid(s)
    ensures var r := Apply(s, d);
      SessionValid(r) &&
      ArgumentsOf(r, idx) == ArgumentsOf(s, idx) + Fragment(s.hasTools, d, idx) &&
      r.content == s.content + (if d.Chunk? && d.delta.content.Str? then d.delta.content.value else "") &&
      s.toolCalls.Keys <= r.toolCalls.Keys &&
      (!s.hasTools ==> r.toolCalls == s.toolCalls)
  {
    if d.Chunk? {
      var delta := d.delta;
      var s1 :=
        if delta.content.Str? then s.(content := s.content + delta.content.value, printed := s.printed + delta.content.value)
        else s;
      assert s1.toolCalls == s.toolCalls && s1.printing == s.printing;
      var s2 := if s.hasTools && delta.toolCall.Some? then ToolStep(s1, delta.toolCall.value) else s1;
      if s.hasTools && delta.toolCall.Some? {
        ToolStepSpec(s1, delta.toolCall.value, idx);
        assert Fragment(s.hasTools, d, idx) == ChunkFragment(delta.toolCall.value, idx);
      } else {
        assert Fragment(s.hasTools, d, idx) == "";
      }
      var r := if delta.finishReason.Str? then s2.(finishReason := delta.finishReason.value) else s2;
      assert Apply(s, d) == r;
    }
  }

  /** The session after the payloads `ds`, in order. */
  function ApplyAll(s: Session, ds: seq<Decoded>): (r: Session)
    ensures r.hasTools == s.hasTools
  {
    if ds == [] then s else Apply(ApplyAll(s, ds[..|ds| - 1]), ds[|ds| - 1])
  }

  /** All fragments for `idx` in `ds`, in order. */
  function Fragments(hasTools: bool, ds: seq<Decoded>, idx: int): seq<string> {
    if ds == [] then [] else Fragments(hasTools, ds[..|ds| - 1], idx) + [Fragment(hasTools, ds[|ds| - 1], idx)]
  }

  /** A tool call's `arguments` is the in-order concatenation of every
      argument fragment sent for its index. */
  lemma {:induction false} ArgumentsAccumulate(s: Session, ds: seq<Decoded>, idx: int)
    requires SessionValid(s)
    ensures SessionValid(ApplyAll(s, ds))
    ensures ArgumentsOf(ApplyAll(s, ds), idx) == ArgumentsOf(s, idx) + Concat(Fragments(s.hasTools, ds, idx))
  {
    if ds != [] {
      var init, last := ds[..|ds| - 1], ds[|ds| - 1];
      var before := ApplyAll(s, init);
      ArgumentsAccumulate(s, init, idx);
      assert ApplyAll(s, ds) == Apply(before, last);
      ApplySpec(before, last, idx);
      var fs := Fragments(s.hasTools, init, idx);
      var f := Fragment(s.hasTools, last, idx);
      assert Fragments(s.hasTools, ds, idx) == fs + [f];
      assert (fs + [f])[..|fs|] == fs;
      assert Concat(fs + [f]) == Concat(fs) + f;
      AppendAssoc(ArgumentsOf(s, idx), Concat(fs), f);
    }
  }

  /** The decoded payloads of the lines a drain took out, in order: one
      for each `data: ` line that is not a `[DONE]` payload. */
  function Payloads(lines: seq<string>, decode: string -> Decoded): seq<Decoded>
    decreases |lines|
  {
    if lines == [] then []
    else
      (if IsDataLine(lines[0]) && !IsDonePayload(lines[0]) then [decode(lines[0][6..])] else []) +
      Payloads(lines[1..], decode)
  }

  /** A payload's effect does not depend on the line buffer. */
  lemma ApplyBuffer(s: Session, d: Decoded, b: string)
    ensures Apply(s.(lineBuffer := b), d) == Apply(s, d).(lineBuffer := b)
  {
    if d.Chunk? {
      var delta := d.delta;
      var s1 :=
        if delta.content.Str? then s.(content := s.content + delta.content.value, printed := s.printed + delta.content.value)
        else s;
      assert (if delta.content.Str? then s.(lineBuffer := b).(content := s.content + delta.content.value, printed := s.printed + delta.content.value)
        else s.(lineBuffer := b)) == s1.(lineBuffer := b);
      if s.hasTools && delta.toolCall.Some? {
        ToolStepBuffer(s1, delta.toolCall.value, b);
      }
    }
  }

  lemma ToolStepBuffer(s: Session, tc: ToolChunk, b: string)
    ensures ToolStep(s.(lineBuffer := b), tc) == ToolStep(s, tc).(lineBuffer := b)
  {
    var s1 := Register(s, tc);
    assert Register(s.(lineBuffer := b), tc) == s1.(lineBuffer := b);
    var s2 := SetIdAndName(s1, tc);
    assert SetIdAndName(s1.(lineBuffer := b), tc) == s2.(lineBuffer := b);
    assert AddArguments(s2.(lineBuffer := b), tc) == AddArguments(s2, tc).(lineBuffer := b);
  }

  /** Applying `a` and then `b` is applying `a + b`. */
  lemma {:induction false} ApplyAllAppend(s: Session, a: seq<Decoded>, b: seq<Decoded>)
    ensures ApplyAll(s, a + b) == ApplyAll(ApplyAll(s, a), b)
    decreases |b|
  {
    if b == [] {
      assert a + b == a;
    } else {
      var init := b[..|b| - 1];
      assert (a + b)[..|a + b| - 1] == a + init && (a + b)[|a + b| - 1] == b[|b| - 1];
      ApplyAllAppend(s, a, init);
    }
  }

  /** Taking out one line and then the lines `lines` applies that line's
      payload, if any, before theirs. */
  lemma PayloadsCons(s: Session, line: string, lines: seq<string>, rest: string, decode: string -> Decoded)
    requires !IsDonePayload(line)
    ensures ApplyAll(s.(lineBuffer := rest), Payloads([line] + lines, decode)) ==
      ApplyAll(AfterLine(s, line, decode).(lineBuffer := rest), Payloads(lines, decode))
  {
    var p := if IsDataLine(line) then [decode(line[6..])] else [];
    assert ([line] + lines)[0] == line && ([line] + lines)[1..] == lines;
    assert Payloads([line] + lines, decode) == p + Payloads(lines, decode);
    ApplyAllAppend(s.(lineBuffer := rest), p, Payloads(lines, decode));
    if p != [] {
      ApplyBuffer(s, decode(line[6..]), rest);
      assert ApplyAll(s.(lineBuffer := rest), p) == Apply(s.(lineBuffer := rest), decode(line[6..]));
    }
  }

  /** Draining the buffer has the effect of applying, in order, the
      decoded payloads of the lines it took out; only the buffer differs. */
  lemma {:induction false} DrainApplies(s: Session, decode: string -> Decoded)
    ensures var r := Drain(s, decode);
      r.session == ApplyAll(s.(lineBuffer := r.session.lineBuffer), Payloads(r.lines, decode))
    decreases |s.lineBuffer|
  {
    var pos := IndexOf(s.lineBuffer, '\n');
    if pos != -1 {
      var line := s.lineBuffer[..pos];
      var s1 := s.(lineBuffer := s.lineBuffer[pos + 1..]);
      if IsDonePayload(line) {
        assert Payloads([line], decode) == [];
      } else {
        var next := AfterLine(s1, line, decode);
        var r := Drain(next, decode);
        assert Drain(s, decode) == Drained(r.session, [line] + r.lines, r.done);
        DrainApplies(next, decode);
        PayloadsCons(s1, line, r.lines, r.session.lineBuffer, decode);
        assert s1.(lineBuffer := r.session.lineBuffer) == s.(lineBuffer := r.session.lineBuffer);
      }
    }
  }

  /** The accumulation property on the byte stream itself: after a drain,
      each tool call's `arguments` is what it held before followed by the
      fragments for its index in the decoded `data: ` payloads of the
      lines taken out, in order. */
  lemma DrainAccumulates(s: Session, decode: string -> Decoded, idx: int)
    requires SessionValid(s)
    ensures var r := Drain(s, decode);
      SessionValid(r.session) &&
      ArgumentsOf(r.session, idx) ==
        ArgumentsOf(s, idx) + Concat(Fragments(s.hasTools, Payloads(r.lines, decode), idx))
  {
    var r := Drain(s, decode);
    DrainApplies(s, decode);
    ArgumentsAccumulate(s.(lineBuffer := r.session.lineBuffer), Payloads(r.lines, decode), idx);
  }

  /** Outside a code block, the first occurrence of the start marker in the
      pending text opens the block, and everything up to and including the
      marker is discarded; without a marker the text waits in the buffer.
      Inside a block the fragment is only queued. */
  lemma EnterCodeSpec(ps: PrintingState, argsChunk: string)
    ensures var buf := ps.pendingEscapeBuffer + argsChunk;
      var r := EnterCode(ps, argsChunk);
      r.codeBuffer == ps.codeBuffer &&
      (r.inCodeBlock <==> ps.inCodeBlock || Contains(buf, StartMarker)) &&
      (!ps.inCodeBlock && Contains(buf, StartMarker) ==>
        exists p :: OccursAt(buf, StartMarker, p) &&
          (forall i :: 0 <= i < p ==> !OccursAt(buf, StartMarker, i)) &&
          r.pendingEscapeBuffer == buf[p + |StartMarker|..]) &&
      (ps.inCodeBlock || !Contains(buf, StartMarker) ==> r.pendingEscapeBuffer == buf)
  {
    var buf := ps.pendingEscapeBuffer + argsChunk;
    ContainsIff(buf, StartMarker);
    var p := Find(buf, StartMarker, 0);
    if p != -1 {
      assert OccursAt(buf, StartMarker, p);
    }
  }

  /** Flushing loses no code text but the closing quote: what is printed
      raw, then the quote if the block closed, then what is kept is the
      whole code buffer. An unfinished block keeps at most a backslash,
      waiting for the character it escapes; a closed one keeps text that
      starts with '}'. */
  lemma FlushSpec(ps: PrintingState)
    ensures var code := ps.codeBuffer + ps.pendingEscapeBuffer;
      var f := Flush(ps);
      f.state.pendingEscapeBuffer == "" &&
      (f.closed <==> !f.state.inCodeBlock) &&
      (f.closed ==> f.raw + "\"" + f.state.codeBuffer == code && StartsWith(f.state.codeBuffer, "}")) &&
      (!f.closed ==> f.raw + f.state.codeBuffer == code && (f.state.codeBuffer == "" || f.state.codeBuffer == "\\"))
  {
    var code := ps.codeBuffer + ps.pendingEscapeBuffer;
    var endPos := LastIndexOf(code, '"');
    if endPos != -1 && LastIndexOf(code, '}') == endPos + 1 {
      assert code == code[..endPos] + "\"" + code[endPos + 1..];
    } else {
      var split := SafePrintWithEscapes(code);
      if split.safe == "" {
        assert code == split.rest;
      }
    }
  }

  /** Response kinds. */
  datatype ResponseType = Message | ToolCallResponse | ApiError

  /** `ApiResponse`. */
  datatype ApiResponse = ApiResponse(kind: ResponseType, content: string, toolCalls: seq<ToolCall>, errorMessage: string)

  /** `m` is the least key of `ks`. */
  predicate IsLeast(m: int, ks: set<int>) {
    m in ks && forall k :: k in ks ==> m <= k
  }

  /** Some key of a non-empty set. */
  lemma Element(ks: set<int>) returns (x: int)
    requires ks != {}
    ensures x in ks
  {
    if forall y :: y !in ks {
      assert false;
    }
    x :| x in ks;
  }

  /** Every non-empty set of keys has a least one. */
  lemma {:induction false} LeastExists(ks: set<int>)
    requires ks != {}
    ensures exists m :: IsLeast(m, ks)
    decreases |ks|
  {
    var x := Element(ks);
    var rest := ks - {x};
    if rest == {} {
      forall k | k in ks ensures x <= k {
        assert k !in rest;
      }
      assert IsLeast(x, ks);
    } else {
      LeastExists(rest);
      var m :| IsLeast(m, rest);
      var least := if x < m then x else m;
      forall k | k in ks ensures least <= k {
        if k != x {
          assert k in rest;
        }
      }
      assert IsLeast(least, ks);
    }
  }

  /** `r` lists every key of `ks` once, in ascending order. */
  predicate ListsAscending(r: seq<int>, ks: set<int>) {
    |r| == |ks| &&
    (forall i :: 0 <= i < |r| ==> r[i] in ks) &&
    (forall k :: k in ks ==> k in r) &&
    (forall i, j :: 0 <= i < j < |r| ==> r[i] < r[j])
  }

  /** The keys in ascending order: the iteration order of `std::map`. */
  function AscendingKeys(ks: set<int>): (r: seq<int>)
    ensures ListsAscending(r, ks)
    decreases |ks|
  {
    if ks == {} then []
    else
      LeastExists(ks);
      var m :| IsLeast(m, ks);
      var rest := AscendingKeys(ks - {m});
      AscendingCons(m, ks, rest);
      [m] + rest
  }

  /** The least key in front of the others in ascending order lists them
      all in ascending order. */
  lemma AscendingCons(m: int, ks: set<int>, rest: seq<int>)
    requires IsLeast(m, ks) && ListsAscending(rest, ks - {m})
    ensures ListsAscending([m] + rest, ks)
  {
    var r := [m] + rest;
    assert |ks - {m}| == |ks| - 1;
    forall i | 0 <= i < |r| ensures r[i] in ks {
      if i > 0 {
        assert r[i] == rest[i - 1];
      }
    }
    forall k | k in ks ensures k in r {
      if k == m {
        assert r[0] == k;
      } else {
        assert k in ks - {m};
        var i :| 0 <= i < |rest| && rest[i] == k;
        assert r[i + 1] == k;
      }
    }
    forall i, j | 0 <= i < j < |r| ensures r[i] < r[j] {
      assert r[j] == rest[j - 1] && rest[j - 1] in ks - {m};
      if i > 0 {
        assert r[i] == rest[i - 1];
      }
    }
  }

  /** The tool calls in ascending index order. */
  function InIndexOrder(m: map<int, ToolCall>): (r: seq<ToolCall>)
    ensures |r| == |m|
  {
    var ks := AscendingKeys(m.Keys);
    seq(|ks|, i requires 0 <= i < |ks| => m[ks[i]])
  }

  /** The response `send_message` returns once the transfer has ended with
      `statusCode`. */
  function Classify(statusCode: int, errorText: string, responseText: string, s: Session): ApiResponse {
    if statusCode >= 400 then
      ApiResponse(ApiError, "", [], "Connection Error: " + errorText + "\nDetails: " + responseText)
    else if s.finishReason == "tool_calls" && s.hasTools then
      ApiResponse(ToolCallResponse, s.content, InIndexOrder(s.toolCalls), "")
    else ApiResponse(Message, s.content, [], "")
  }

  /** A status of 400 or more is an error; otherwise the response is a tool
      call request exactly when the stream finished for tool calls and tools
      are configured, listing the calls in index order (see
      `InIndexOrderSpec`), and a plain message otherwise; both carry the
      streamed content. */
  lemma ClassifySpec(statusCode: int, errorText: string, responseText: string, s: Session)
    ensures var r := Classify(statusCode, errorText, responseText, s);
      (r.kind == ApiError <==> statusCode >= 400) &&
      (r.kind == ToolCallResponse <==> statusCode < 400 && s.finishReason == "tool_calls" && s.hasTools) &&
      (r.kind != ApiError ==> r.content == s.content) &&
      (r.kind == ToolCallResponse ==> r.toolCalls == InIndexOrder(s.toolCalls)) &&
      (r.kind != ToolCallResponse ==> r.toolCalls == [])
  {
  }

  /** Every call is listed once, in ascending index order. */
  lemma InIndexOrderSpec(m: map<int, ToolCall>)
    ensures var r := InIndexOrder(m);
      exists ks: seq<int> ::
        |ks| == |r| &&
        (forall i, j :: 0 <= i < j < |ks| ==> ks[i] < ks[j]) &&
        (forall k :: k in m <==> k in ks) &&
        (forall i :: 0 <= i < |ks| ==> ks[i] in m && r[i] == m[ks[i]])
  {
    var ks := AscendingKeys(m.Keys);
    var r := InIndexOrder(m);
    assert |ks| == |r|;
    assert forall i :: 0 <= i < |ks| ==> ks[i] in m && r[i] == m[ks[i]];
  }

  /** The model parameters copied into the request payload. */
  predicate IsModelParameter(key: string) {
    key == "temperature" || key == "top_p" || key == "max_tokens" || key == "frequency_penalty" || key == "presence_penalty"
  }

  /** The constructor's parameter loop: each whitelisted parameter is set
      on the payload, any other is ignored. */
  method CopyParameters<V>(basePayload: map<string, V>, params: map<string, V>) returns (payload: map<string, V>)
    ensures forall k :: k in payload <==> k in basePayload || (k in params && IsModelParameter(k))
    ensures forall k :: k in params && IsModelParameter(k) ==> payload[k] == params[k]
    ensures forall k :: k in basePayload && !(k in params && IsModelParameter(k)) ==> payload[k] == basePayload[k]
  {
    payload := basePayload;
    var items := params.Keys;
    while items != {}
      invariant items <= params.Keys
      invariant forall k :: k in payload <==> k in basePayload || (k in params && k !in items && IsModelParameter(k))
      invariant forall k :: k in params && k !in items && IsModelParameter(k) ==> payload[k] == params[k]
      invariant forall k :: k in basePayload && !(k in params && k !in items && IsModelParameter(k)) ==>
        payload[k] == basePayload[k]
      decreases |items|
    {
      var key :| key in items;
      if IsModelParameter(key) {
        payload := payload[key := params[key]];
      }
      items := items - {key};
    }
  }

  /** The locals of `send_message` captured by reference in
      `write_callback`. */
  class StreamSession {
    var lineBuffer: string
    var content: string
    var finishReason: string
    const hasTools: bool
    var toolCalls: map<int, ToolCall>
    var printing: map<int, PrintingState>
    var printed: string

    constructor(hasTools: bool)
      ensures Snapshot() == Session("", "", "", hasTools, map[], map[], "")
    {
      this.hasTools := hasTools;
      lineBuffer := "";
      content := "";
      finishReason := "";
      toolCalls := map[];
      printing := map[];
      printed := "";
    }

    function Snapshot(): Session
      reads this
    {
      Session(lineBuffer, content, finishReason, hasTools, toolCalls, printing, printed)
    }

    /** `write_callback`: it always asks the transfer to continue. */
    method WriteCallback(data: string, decode: string -> Decoded) returns (keepGoing: bool)
      modifies this
      ensures Snapshot() == Callback(old(Snapshot()), data, decode).session
      ensures keepGoing
    {
      keepGoing := true;
      lineBuffer := lineBuffer + data;
      ghost var goal := Drain(Snapshot(), decode).session;
      while true
        invariant Drain(Snapshot(), decode).session == goal
        decreases |lineBuffer|
      {
        var pos := IndexOf(lineBuffer, '\n');
        if pos == -1 {
          return;
        }
        var line := lineBuffer[..pos];
        lineBuffer := lineBuffer[pos + 1..];
        if !IsDataLine(line) {
          continue;
        }
        var dataStr := line[6..];
        if Contains(dataStr, "[DONE]") {
          return;
        }
        HandleChunk(decode(dataStr));
      }
    }

    /** The `try` block of the callback for one decoded payload. */
    method HandleChunk(d: Decoded)
      modifies this
      ensures Snapshot() == Apply(old(Snapshot()), d)
    {
      if d.ParseError? {
        return;
      }
      var delta := d.delta;
      if delta.content.Str? {
        content := content + delta.content.value;
        printed := printed + delta.content.value;
      }
      if hasTools && delta.toolCall.Some? {
        HandleToolChunk(delta.toolCall.value);
      }
      if delta.finishReason.Str? {
        finishReason := delta.finishReason.value;
      }
    }

    /** The `tool_calls` branch: register a new index, record the id and
        name, append the argument fragment and print the code as it
        arrives. */
    method HandleToolChunk(tc: ToolChunk)
      modifies this
      ensures Snapshot() == ToolStep(old(Snapshot()), tc)
    {
      var idx := tc.index;
      if idx !in toolCalls {
        toolCalls := toolCalls[idx := FreshToolCall];
        printing := printing[idx := FreshPrinting];
        if tc.func.Some? && !tc.func.value.name.Absent? {
          printed := printed + Banner(tc.func.value.name);
        }
      }
      ghost var registered := Snapshot();
      assert registered == Register(old(Snapshot()), tc);
      if tc.id.Str? {
        toolCalls := toolCalls[idx := toolCalls[idx].(id := tc.id.value)];
      }
      if tc.func.Some? {
        var funcChunk := tc.func.value;
        if funcChunk.name.Str? {
          toolCalls := toolCalls[idx := toolCalls[idx].(name := funcChunk.name.value)];
        }
        assert Snapshot() == SetIdAndName(registered, tc);
        if funcChunk.arguments.Str? {
          var argsChunk := funcChunk.arguments.value;
          toolCalls := toolCalls[idx := toolCalls[idx].(arguments := toolCalls[idx].arguments + argsChunk)];
          var state, text := PrintChunk(PrintingOf(printing, idx), argsChunk);
          printed := printed + text;
          printing := printing[idx := state];
        }
      }
    }
  }

  /** The printing part of the `tool_calls` branch for one argument
      fragment: the new printing state and the text written. */
  method PrintChunk(ps: PrintingState, argsChunk: string) returns (state: PrintingState, text: string)
    ensures Printed(state, text) == PrintFragment(ps, argsChunk)
  {
    state := ps.(pendingEscapeBuffer := ps.pendingEscapeBuffer + argsChunk);
    if !state.inCodeBlock {
      var startPos := Find(state.pendingEscapeBuffer, StartMarker, 0);
      if startPos != -1 {
        state := state.(inCodeBlock := true,
                        pendingEscapeBuffer := state.pendingEscapeBuffer[startPos + |StartMarker|..]);
      }
    }
    assert state == EnterCode(ps, argsChunk);
    text := "";
    if state.inCodeBlock {
      state, text := FlushChunk(state);
    }
  }

  /** Inside a code block: move the pending text to the code buffer and
      print what can be printed. */
  method FlushChunk(ps: PrintingState) returns (state: PrintingState, text: string)
    requires ps.inCodeBlock
    ensures state == Flush(ps).state && text == Unescape(Flush(ps).raw)
  {
    state := ps.(codeBuffer := ps.codeBuffer + ps.pendingEscapeBuffer, pendingEscapeBuffer := "");
    text := "";
    var endPos := LastIndexOf(state.codeBuffer, '"');
    if endPos != -1 && LastIndexOf(state.codeBuffer, '}') == endPos + 1 {
      var codeToPrint := state.codeBuffer[..endPos];
      text := UnescapeString(codeToPrint);
      state := state.(codeBuffer := state.codeBuffer[endPos + 1..], inCodeBlock := false);
    } else {
      var split := SafePrintWithEscapes(state.codeBuffer);
      if split.safe != "" {
        text := UnescapeString(split.safe);
        state := state.(codeBuffer := split.rest);
      } else {
        UnescapeEmpty();
      }
    }
  }

  lemma UnescapeEmpty()
    ensures Unescape("") == ""
  {
  }
}
