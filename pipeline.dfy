/** The state shared between the reader, the scanner and the timer: the
    queue of captured blocks, the load and execution flags and the time of
    the last chunk; the idle tick that hands the queue to an execution
    batch, and the batch runs that report each result on the console and
    compose the message fed back to the model. Threads are not modelled:
    the timer's poll is one call of `Tick`, and an execution thread is one
    call of a batch method. */
module Pipeline {
  import opened Wrappers
  import opened Strings
  import opened Lines
  import opened Global
  import opened Console
  import opened Exec
  import AtlasExec
  import CnExec

  /** A snapshot of the shared state. */
  datatype Queue = Queue(pending: seq<CodeBlock>, isExecuting: bool, modelLoaded: bool, lastChunkMs: int)

  /** Silence, in milliseconds, after which pending blocks are run. */
  const IdleMs := 1000

  /** A timer poll at `nowMs` starts a batch. */
  predicate Fires(q: Queue, nowMs: int) {
    nowMs - q.lastChunkMs >= IdleMs && q.modelLoaded && !q.isExecuting && q.pending != []
  }

  datatype TickResult = TickResult(queue: Queue, batch: seq<CodeBlock>)

  /** One poll of `TimerThread`: the new shared state and the batch handed
      to the execution thread (empty when none is started). */
  function TickStep(q: Queue, nowMs: int): TickResult {
    if nowMs - q.lastChunkMs >= IdleMs && q.modelLoaded && !q.isExecuting then
      if q.pending == [] then TickResult(q, [])
      else TickResult(q.(isExecuting := true, pending := []), q.pending)
    else TickResult(q, [])
  }

  /** A poll starts a batch exactly when the reader has been silent for a
      second, the model is loaded, no batch is running and blocks are
      pending; the batch is then the whole queue in order, the queue is left
      empty, `isExecuting` is set and nothing else changes. Any other poll
      changes nothing. */
  lemma TickSpec(q: Queue, nowMs: int)
    ensures var r := TickStep(q, nowMs);
      (r.batch != [] <==> Fires(q, nowMs)) &&
      (Fires(q, nowMs) ==>
        r.batch == q.pending && r.queue == Queue([], true, q.modelLoaded, q.lastChunkMs)) &&
      (!Fires(q, nowMs) ==> r.queue == q)
  {
  }

  /** At most one batch runs at a time: after a poll that starts one, no
      later poll starts another until the batch has finished, whatever the
      reader queues in the meantime. */
  lemma {:induction false} TickAtMostOneBatch(q: Queue, nowMs: int, more: seq<CodeBlock>, laterMs: int, chunkMs: int)
    requires TickStep(q, nowMs).batch != []
    ensures var q1 := TickStep(q, nowMs).queue;
      q1.isExecuting &&
      TickStep(q1.(pending := q1.pending + more, lastChunkMs := chunkMs), laterMs).batch == []
  {
    TickSpec(q, nowMs);
  }

  /** The messages of the successful results, concatenated in order: the
      `fullOutput` of code-atlas.cpp. */
  function SuccessOutput(rs: seq<ExecResult>): string {
    if rs == [] then ""
    else SuccessOutput(rs[..|rs| - 1]) + (if rs[|rs| - 1].success then rs[|rs| - 1].message else "")
  }

  lemma SuccessOutputSnoc(rs: seq<ExecResult>, i: nat)
    requires i < |rs|
    ensures SuccessOutput(rs[..i + 1]) == SuccessOutput(rs[..i]) + (if rs[i].success then rs[i].message else "")
  {
    assert rs[..i + 1][..i] == rs[..i];
  }

  /** The messages of the successful results, in order. */
  function Successes(rs: seq<ExecResult>): (r: seq<string>)
    ensures |r| <= |rs|
  {
    if rs == [] then []
    else Successes(rs[..|rs| - 1]) + (if rs[|rs| - 1].success then [rs[|rs| - 1].message] else [])
  }

  /** The full output is the concatenation of the successful messages. */
  lemma {:induction false} SuccessOutputSpec(rs: seq<ExecResult>)
    ensures SuccessOutput(rs) == Concat(Successes(rs))
  {
    if rs != [] {
      var init := rs[..|rs| - 1];
      SuccessOutputSpec(init);
      var last := rs[|rs| - 1];
      if last.success {
        ConcatSnoc(Successes(init), last.message);
      } else {
        assert Successes(rs) == Successes(init);
      }
    }
  }

  /** When every block succeeded, the successful messages are all the
      messages, in order. */
  lemma {:induction false} AllSucceeded(rs: seq<ExecResult>)
    requires forall i :: 0 <= i < |rs| ==> rs[i].success
    ensures |Successes(rs)| == |rs| && forall i :: 0 <= i < |rs| ==> Successes(rs)[i] == rs[i].message
  {
    if rs != [] {
      var init := rs[..|rs| - 1];
      assert forall i :: 0 <= i < |init| ==> init[i].success by {
        forall i | 0 <= i < |init| ensures init[i].success {
          assert init[i] == rs[i];
        }
      }
      AllSucceeded(init);
      assert Successes(rs) == Successes(init) + [rs[|rs| - 1].message];
    }
  }

  lemma ConcatSnoc(parts: seq<string>, last: string)
    ensures Concat(parts + [last]) == Concat(parts) + last
  {
    assert (parts + [last])[..|parts|] == parts;
  }

  /** The message code-atlas.cpp feeds back after a batch. */
  function AtlasFeedback(rs: seq<ExecResult>): Option<string> {
    if rs == [] || rs[|rs| - 1].message == "" then None
    else if rs[|rs| - 1].success then Some(SuccessOutput(rs))
    else Some(rs[|rs| - 1].message)
  }

  /** The message timer_thread.cpp and model_caller.cpp feed back after a
      batch. */
  function LastFeedback(rs: seq<ExecResult>): Option<string> {
    if rs == [] || rs[|rs| - 1].message == "" then None
    else Some(rs[|rs| - 1].message)
  }

  /** Nothing is fed back after an empty batch or when the last message is
      empty. Otherwise code-atlas.cpp feeds back the full output of the
      successful blocks, which ends with the last message, when the last
      block succeeded, and the last message alone when it failed; the other
      revisions feed back the last message either way. */
  lemma {:induction false} FeedbackSpec(rs: seq<ExecResult>)
    ensures AtlasFeedback(rs).None? <==> rs == [] || rs[|rs| - 1].message == ""
    ensures LastFeedback(rs).None? <==> rs == [] || rs[|rs| - 1].message == ""
    ensures rs != [] && rs[|rs| - 1].message != "" ==>
      LastFeedback(rs) == Some(rs[|rs| - 1].message) &&
      (!rs[|rs| - 1].success ==> AtlasFeedback(rs) == Some(rs[|rs| - 1].message)) &&
      (rs[|rs| - 1].success ==>
        AtlasFeedback(rs) == Some(Concat(Successes(rs))) &&
        EndsWith(AtlasFeedback(rs).value, rs[|rs| - 1].message))
  {
    SuccessOutputSpec(rs);
    if rs != [] {
      var init := rs[..|rs| - 1];
      var last := rs[|rs| - 1];
      if last.success {
        assert SuccessOutput(rs) == SuccessOutput(init) + last.message;
        assert SuccessOutput(rs)[|SuccessOutput(init)|..] == last.message;
      }
    }
  }

  /** The two feedback rules agree on a batch of one block and on any batch
      whose last block failed. */
  lemma FeedbackAgree(rs: seq<ExecResult>)
    requires |rs| == 1 || (rs != [] && !rs[|rs| - 1].success)
    ensures AtlasFeedback(rs) == LastFeedback(rs)
  {
    if |rs| == 1 {
      assert rs[..0] == [];
      assert SuccessOutput(rs) == if rs[0].success then rs[0].message else "";
    }
  }

  /** The loop variables of a finished code-atlas.cpp batch give its
      feedback. */
  lemma AtlasSent(rs: seq<ExecResult>, fullOutput: string, lastResultMessage: string, lastSuccess: bool)
    requires fullOutput == SuccessOutput(rs)
    requires lastResultMessage == (if rs == [] then "" else rs[|rs| - 1].message)
    requires lastSuccess == (rs != [] && rs[|rs| - 1].success)
    ensures AtlasFeedback(rs) ==
      if lastResultMessage == "" then None
      else Some(if lastSuccess then fullOutput else lastResultMessage)
  {
  }

  /** The same for the rule of the other revisions. */
  lemma LastSent(rs: seq<ExecResult>, lastResultMessage: string)
    requires lastResultMessage == (if rs == [] then "" else rs[|rs| - 1].message)
    ensures LastFeedback(rs) == if lastResultMessage == "" then None else Some(lastResultMessage)
  {
  }

  /** The results of running `batch` with code-atlas.cpp's `ExecuteCode`,
      the child processes behaving as `runs`. */
  function AtlasResults(batch: seq<CodeBlock>, runs: seq<ProcessRun>): (r: seq<ExecResult>)
    requires |runs| == |batch|
    ensures |r| == |batch|
    ensures forall i :: 0 <= i < |batch| ==> r[i] == AtlasExec.ExecuteCode(batch[i], runs[i])
  {
    seq(|batch|, i requires 0 <= i < |batch| => AtlasExec.ExecuteCode(batch[i], runs[i]))
  }

  /** The same with code_executor.cpp's `ExecuteCode`. */
  function CnResults(batch: seq<CodeBlock>, runs: seq<ProcessRun>): (r: seq<ExecResult>)
    requires |runs| == |batch|
    ensures |r| == |batch|
    ensures forall i :: 0 <= i < |batch| ==> r[i] == CnExec.ExecuteCode(batch[i], runs[i])
  {
    seq(|batch|, i requires 0 <= i < |batch| => CnExec.ExecuteCode(batch[i], runs[i]))
  }

  /** Every executor message is non-empty, so every non-empty batch is
      answered: code-atlas.cpp feeds back something, and the other
      revisions feed back the last block's message. */
  lemma BatchAnswered(batch: seq<CodeBlock>, runs: seq<ProcessRun>)
    requires |runs| == |batch| && batch != []
    ensures AtlasFeedback(AtlasResults(batch, runs)).Some?
    ensures LastFeedback(CnResults(batch, runs)) == Some(CnResults(batch, runs)[|batch| - 1].message)
  {
    var n := |batch| - 1;
    AtlasExec.ExecuteCodeNonEmpty(batch[n], runs[n]);
    CnExec.ExecuteCodeNonEmpty(batch[n], runs[n]);
  }

  /** How a batch loop shows one result: followed by `std::endl`, as it is,
      or (code-atlas.cpp's `executePendingCodeBlocks`) only the last
      non-empty line of a success. */
  datatype ReportStyle = WithEndl | Bare | LastLineOnSuccess

  /** The text shown on the console for one result. */
  function Shown(r: ExecResult, style: ReportStyle): string {
    match style
    case WithEndl => r.message + "\n"
    case Bare => r.message
    case LastLineOnSuccess => (if r.success then LastNonEmpty(GetLines(r.message)) else r.message) + "\n"
  }

  /** One result on the console: green for a success, red for a failure,
      then back to the default colour. */
  function ShowOne(t: Term, r: ExecResult, style: ReportStyle): Term {
    SetAttr(PutAll(SetAttr(t, if r.success then GreenColor else RedColor), Shown(r, style)), DefaultColor)
  }

  /** The console after a batch loop has shown `rs` in order. */
  function Report(t: Term, rs: seq<ExecResult>, style: ReportStyle): Term {
    if rs == [] then t else ShowOne(Report(t, rs[..|rs| - 1], style), rs[|rs| - 1], style)
  }

  lemma ReportSnoc(t: Term, rs: seq<ExecResult>, i: nat, style: ReportStyle)
    requires i < |rs|
    ensures Report(t, rs[..i + 1], style) == ShowOne(Report(t, rs[..i], style), rs[i], style)
  {
    assert rs[..i + 1][..i] == rs[..i];
  }

  /** Everything a batch loop shows, in order. */
  function Printed(rs: seq<ExecResult>, style: ReportStyle): string {
    if rs == [] then "" else Printed(rs[..|rs| - 1], style) + Shown(rs[|rs| - 1], style)
  }

  lemma TextAppend(a: seq<Event>, b: seq<Event>)
    ensures Text(a + b) == Text(a) + Text(b)
  {
  }

  /** A batch loop keeps what the console showed before, appends the shown
      text of every result in order, and leaves the console in the default
      colour. */
  lemma {:induction false} ReportSpec(t: Term, rs: seq<ExecResult>, style: ReportStyle)
    ensures var u := Report(t, rs, style);
      |t.out| <= |u.out| && u.out[..|t.out|] == t.out &&
      Text(u.out[|t.out|..]) == Printed(rs, style) &&
      (rs != [] ==> u.attr == DefaultColor) &&
      (rs == [] ==> u == t)
  {
    if rs != [] {
      var init := rs[..|rs| - 1];
      var last := rs[|rs| - 1];
      ReportSpec(t, init, style);
      var v := Report(t, init, style);
      var u := Report(t, rs, style);
      var w := if last.success then GreenColor else RedColor;
      assert u.out == v.out + Paint(Shown(last, style), w);
      assert u.out[|t.out|..] == v.out[|t.out|..] + Paint(Shown(last, style), w);
      TextAppend(v.out[|t.out|..], Paint(Shown(last, style), w));
    }
  }

  /** What every batch loop does to show one result: the colour for its
      success, the shown text, then the default colour again. */
  method ShowResult(screen: Screen, r: ExecResult, style: ReportStyle)
    modifies screen
    ensures screen.Snapshot() == ShowOne(old(screen.Snapshot()), r, style)
  {
    if r.success {
      screen.SetTextAttribute(GreenColor);
    } else {
      screen.SetTextAttribute(RedColor);
    }
    match style {
      case WithEndl =>
        screen.Write(r.message + "\n");
      case Bare =>
        screen.Write(r.message);
      case LastLineOnSuccess =>
        if r.success {
          var lastLine := GetLastNonEmptyLine(r.message);
          screen.Write(lastLine + "\n");
        } else {
          screen.Write(r.message + "\n");
        }
    }
    screen.SetTextAttribute(DefaultColor);
  }

  /** The loop of code-atlas.cpp's two batch runners: the blocks are run in
      order, each result is shown in `style`, and the loop keeps
      `fullOutput`, the last message and whether it reported success. */
  method AtlasLoop(batch: seq<CodeBlock>, runs: seq<ProcessRun>, screen: Screen, style: ReportStyle)
    returns (fullOutput: string, lastResultMessage: string, lastSuccess: bool)
    requires |runs| == |batch|
    modifies screen
    ensures var rs := AtlasResults(batch, runs);
      fullOutput == SuccessOutput(rs) &&
      lastResultMessage == (if rs == [] then "" else rs[|rs| - 1].message) &&
      lastSuccess == (rs != [] && rs[|rs| - 1].success)
    ensures screen.Snapshot() == Report(old(screen.Snapshot()), AtlasResults(batch, runs), style)
  {
    ghost var rs := AtlasResults(batch, runs);
    ghost var t0 := screen.Snapshot();
    fullOutput := "";
    lastResultMessage := "";
    lastSuccess := false;
    var i := 0;
    while i < |batch|
      invariant 0 <= i <= |batch|
      invariant fullOutput == SuccessOutput(rs[..i])
      invariant lastResultMessage == (if i == 0 then "" else rs[i - 1].message)
      invariant lastSuccess == (i > 0 && rs[i - 1].success)
      invariant screen.Snapshot() == Report(t0, rs[..i], style)
    {
      ReportSnoc(t0, rs, i, style);
      SuccessOutputSnoc(rs, i);
      var result := AtlasExec.ExecuteCode(batch[i], runs[i]);
      if result.success {
        fullOutput := fullOutput + result.message;
      }
      ShowResult(screen, result, style);
      lastResultMessage := result.message;
      lastSuccess := result.success;
      i := i + 1;
    }
    assert rs[..i] == rs;
  }

  class Pipeline {
    var pending: seq<CodeBlock>
    var isExecuting: bool
    var modelLoaded: bool
    var lastChunkMs: int

    constructor(nowMs: int)
      ensures Snapshot() == Queue([], false, false, nowMs)
    {
      pending := [];
      isExecuting := false;
      modelLoaded := false;
      lastChunkMs := nowMs;
    }

    function Snapshot(): Queue
      reads this
    {
      Queue(pending, isExecuting, modelLoaded, lastChunkMs)
    }

    /** One poll of `TimerThread` at `nowMs`; `batch` is `blocksToExecute`. */
    method Tick(nowMs: int) returns (batch: seq<CodeBlock>)
      modifies this`pending, this`isExecuting
      ensures TickResult(Snapshot(), batch) == TickStep(old(Snapshot()), nowMs)
    {
      batch := [];
      var duration := nowMs - lastChunkMs;
      if duration >= IdleMs {
        if modelLoaded && !isExecuting {
          if pending == [] {
            return;
          }
          isExecuting := true;
          batch, pending := pending, batch;
        }
      }
    }

    /** The execution thread of code-atlas.cpp's `TimerThread`: runs the
        batch in order, shows every result, feeds back `sent` (to the API
        conversation or the child's stdin) and clears `isExecuting`. */
    method AtlasRunBatch(batch: seq<CodeBlock>, runs: seq<ProcessRun>, screen: Screen)
      returns (sent: Option<string>)
      requires |runs| == |batch|
      modifies this`isExecuting, screen
      ensures sent == AtlasFeedback(AtlasResults(batch, runs))
      ensures screen.Snapshot() == Report(old(screen.Snapshot()), AtlasResults(batch, runs), WithEndl)
      ensures !isExecuting
    {
      var fullOutput, lastResultMessage, lastSuccess := AtlasLoop(batch, runs, screen, WithEndl);
      AtlasSent(AtlasResults(batch, runs), fullOutput, lastResultMessage, lastSuccess);
      sent := None;
      if lastResultMessage != "" {
        var messageToModel := if lastSuccess then fullOutput else lastResultMessage;
        sent := Some(messageToModel);
      }
      isExecuting := false;
    }

    /** The execution thread of timer_thread.cpp: as above, but messages are
        shown without a line break and the last message is fed back
        whether it reports success or not. */
    method RunBatch(batch: seq<CodeBlock>, runs: seq<ProcessRun>, screen: Screen)
      returns (sent: Option<string>)
      requires |runs| == |batch|
      modifies this`isExecuting, screen
      ensures sent == LastFeedback(CnResults(batch, runs))
      ensures screen.Snapshot() == Report(old(screen.Snapshot()), CnResults(batch, runs), Bare)
      ensures !isExecuting
    {
      ghost var rs := CnResults(batch, runs);
      ghost var t0 := screen.Snapshot();
      var lastResultMessage := "";
      var lastSuccess := false;
      var i := 0;
      while i < |batch|
        invariant 0 <= i <= |batch|
        invariant lastResultMessage == (if i == 0 then "" else rs[i - 1].message)
        invariant screen.Snapshot() == Report(t0, rs[..i], Bare)
      {
        ReportSnoc(t0, rs, i, Bare);
        var result := CnExec.ExecuteCode(batch[i], runs[i]);
        ShowResult(screen, result, Bare);
        lastResultMessage := result.message;
        lastSuccess := result.success;
        i := i + 1;
      }
      assert rs[..i] == rs;
      LastSent(rs, lastResultMessage);
      sent := None;
      if lastResultMessage != "" {
        sent := Some(lastResultMessage);
      }
      isExecuting := false;
    }

    /** `APIModelCaller::executePendingCodeBlocks` of model_caller.cpp:
        nothing on an empty queue; otherwise the queue is taken whole, run
        in order, every result shown, and the last message fed back.
        `isExecuting` is not involved. */
    method CallerExecutePending(runs: seq<ProcessRun>, screen: Screen) returns (sent: Option<string>)
      requires |runs| == |pending|
      modifies this`pending, screen
      ensures pending == []
      ensures sent == LastFeedback(CnResults(old(pending), runs))
      ensures screen.Snapshot() == Report(old(screen.Snapshot()), CnResults(old(pending), runs), WithEndl)
    {
      sent := None;
      if pending == [] {
        return;
      }
      var blocksToExecute: seq<CodeBlock> := [];
      blocksToExecute, pending := pending, blocksToExecute;
      ghost var rs := CnResults(blocksToExecute, runs);
      ghost var t0 := screen.Snapshot();
      var lastResultMessage := "";
      var i := 0;
      while i < |blocksToExecute|
        invariant 0 <= i <= |blocksToExecute|
        invariant pending == []
        invariant lastResultMessage == (if i == 0 then "" else rs[i - 1].message)
        invariant screen.Snapshot() == Report(t0, rs[..i], WithEndl)
      {
        ReportSnoc(t0, rs, i, WithEndl);
        var result := CnExec.ExecuteCode(blocksToExecute[i], runs[i]);
        ShowResult(screen, result, WithEndl);
        lastResultMessage := result.message;
        i := i + 1;
      }
      assert rs[..i] == rs;
      LastSent(rs, lastResultMessage);
      if lastResultMessage != "" {
        sent := Some(lastResultMessage);
      }
    }

    /** `APIModelCaller::executePendingCodeBlocks` of code-atlas.cpp: as
        above, but a success shows only its last non-empty line and the
        feedback follows code-atlas.cpp's rule. */
    method AtlasExecutePending(runs: seq<ProcessRun>, screen: Screen) returns (sent: Option<string>)
      requires |runs| == |pending|
      modifies this`pending, screen
      ensures pending == []
      ensures sent == AtlasFeedback(AtlasResults(old(pending), runs))
      ensures screen.Snapshot() ==
        Report(old(screen.Snapshot()), AtlasResults(old(pending), runs), LastLineOnSuccess)
    {
      sent := None;
      if pending == [] {
        return;
      }
      var blocksToExecute: seq<CodeBlock> := [];
      blocksToExecute, pending := pending, blocksToExecute;
      var fullOutput, lastResultMessage, lastSuccess :=
        AtlasLoop(blocksToExecute, runs, screen, LastLineOnSuccess);
      AtlasSent(AtlasResults(blocksToExecute, runs), fullOutput, lastResultMessage, lastSuccess);
      if lastResultMessage != "" {
        sent := Some(if lastSuccess then fullOutput else lastResultMessage);
      }
    }
  }
}
