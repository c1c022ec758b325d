/** The executor of code_executor.cpp: Chinese messages that quote only the
    last non-empty line of the captured output and end in '\n'; shell names
    are run by PowerShell. */
module CnExec {
  import opened Wrappers
  import opened Strings
  import opened Lines
  import opened Global
  import opened Exec

  const FileFailedMessage := "无法创建临时代码文件。"
  const StdoutPipeMessage := "无法创建标准输出管道。"
  const StderrPipeMessage := "无法创建错误输出管道。"
  const SpawnFailedMessage := "无法启动子进程。"
  const FailedPrefix := "代码执行失败: "
  const FailedBare := "代码执行失败\n"
  const SucceededPrefix := "代码执行成功: "
  const SucceededBare := "代码执行成功\n"
  const UnsupportedPrefix := "不支持的语言: "

  /** Return value and `resultMessage` of `ExecuteCodeWithInterpreter` for a
      run of the child. */
  function Outcome(run: ProcessRun): ExecResult {
    match run
    case FileCreateFailed => ExecResult(false, FileFailedMessage)
    case StdoutPipeFailed => ExecResult(false, StdoutPipeMessage)
    case StderrPipeFailed => ExecResult(false, StderrPipeMessage)
    case SpawnFailed => ExecResult(false, SpawnFailedMessage)
    case Exited(_, stdout, stderr) =>
      var lastOutputLine := LastNonEmpty(GetLines(stdout));
      var lastErrorLine := LastNonEmpty(GetLines(stderr));
      if !Succeeded(run) then
        if lastErrorLine != "" then ExecResult(false, FailedPrefix + lastErrorLine + "\n")
        else ExecResult(false, FailedBare)
      else if lastOutputLine != "" then ExecResult(true, SucceededPrefix + lastOutputLine + "\n")
      else ExecResult(true, SucceededBare)
  }

  /** `ExecuteCodeWithInterpreter`, step by step around the process run:
      the temporary file is `tempFileName + fileExt`; `launched` is the
      command line given to `CreateProcessA`, if it was reached. */
  method ExecuteCodeWithInterpreter(block: CodeBlock, fileExt: string, interpreter: string,
                                    interpreterArgs: string, tempFileName: string, run: ProcessRun)
    returns (success: bool, resultMessage: string, launched: Option<string>)
    ensures ExecResult(success, resultMessage) == Outcome(run)
    ensures launched ==
      if BeforeSpawn(run) then None
      else Some(CommandLine(interpreter, interpreterArgs, tempFileName + fileExt))
  {
    success := false;
    launched := None;
    var tempCodeFile := tempFileName + fileExt;
    if run.FileCreateFailed? {
      resultMessage := FileFailedMessage;
      return;
    }
    if run.StdoutPipeFailed? {
      resultMessage := StdoutPipeMessage;
      return;
    }
    if run.StderrPipeFailed? {
      resultMessage := StderrPipeMessage;
      return;
    }
    var cmdLine := BuildCommandLine(interpreter, interpreterArgs, tempCodeFile);
    launched := Some(cmdLine);
    if !run.SpawnFailed? {
      if run.exitCode.Some? {
        success := run.exitCode.value == 0;
      } else {
        success := false;
      }
      var lastOutputLine := GetLastNonEmptyLine(run.stdout);
      var lastErrorLine := GetLastNonEmptyLine(run.stderr);
      if !success {
        if lastErrorLine != "" {
          resultMessage := FailedPrefix + lastErrorLine + "\n";
        } else {
          resultMessage := FailedBare;
        }
      } else {
        if lastOutputLine != "" {
          resultMessage := SucceededPrefix + lastOutputLine + "\n";
        } else {
          resultMessage := SucceededBare;
        }
      }
    } else {
      resultMessage := SpawnFailedMessage;
      success := false;
    }
  }

  /** `ExecuteCode`. */
  function ExecuteCode(block: CodeBlock, run: ProcessRun): ExecResult {
    match CreateExecutorPs(block.language)
    case None => ExecResult(false, UnsupportedPrefix + block.language)
    case Some(_) => Outcome(run)
  }

  /** Success is exactly a read exit code of 0. Every failure before the
      spawn, and the spawn failure itself, is a fixed non-empty message. A
      message for a finished process holds exactly one '\n', its last
      character, and quotes the last non-empty line of stderr (on failure)
      or stdout (on success) when there is one. */
  lemma OutcomeSpec(run: ProcessRun)
    ensures var r := Outcome(run);
      (r.success <==> Succeeded(run)) && r.message != "" &&
      (!run.Exited? ==> '\n' !in r.message) &&
      (run.Exited? ==>
        r.message[|r.message| - 1] == '\n' && '\n' !in r.message[..|r.message| - 1]) &&
      (run.Exited? && !r.success && LastNonEmpty(GetLines(run.stderr)) != "" ==>
        r.message[..|r.message| - 1] == FailedPrefix + LastNonEmpty(GetLines(run.stderr))) &&
      (run.Exited? && r.success && LastNonEmpty(GetLines(run.stdout)) != "" ==>
        r.message[..|r.message| - 1] == SucceededPrefix + LastNonEmpty(GetLines(run.stdout)))
  {
    if run.Exited? {
      ExitedOutcome(run);
    } else {
      SetupMessagesOneLine();
    }
  }

  lemma ExitedOutcome(run: ProcessRun)
    requires run.Exited?
    ensures var r := Outcome(run);
      (r.success <==> Succeeded(run)) && r.message != "" &&
      r.message[|r.message| - 1] == '\n' && '\n' !in r.message[..|r.message| - 1] &&
      (!r.success && LastNonEmpty(GetLines(run.stderr)) != "" ==>
        r.message[..|r.message| - 1] == FailedPrefix + LastNonEmpty(GetLines(run.stderr))) &&
      (r.success && LastNonEmpty(GetLines(run.stdout)) != "" ==>
        r.message[..|r.message| - 1] == SucceededPrefix + LastNonEmpty(GetLines(run.stdout)))
  {
    var lastOutputLine := LastNonEmpty(GetLines(run.stdout));
    var lastErrorLine := LastNonEmpty(GetLines(run.stderr));
    ResultPrefixesOneLine();
    if !Succeeded(run) {
      if lastErrorLine != "" {
        LastNonEmptyLineShape(run.stderr);
        NewlineTerminated(FailedPrefix, lastErrorLine);
      } else {
        NewlineTerminated("代码执行失败", "");
        assert "代码执行失败" + "" + "\n" == FailedBare;
      }
    } else if lastOutputLine != "" {
      LastNonEmptyLineShape(run.stdout);
      NewlineTerminated(SucceededPrefix, lastOutputLine);
    } else {
      NewlineTerminated("代码执行成功", "");
      assert "代码执行成功" + "" + "\n" == SucceededBare;
    }
  }

  /** The messages for a run that stopped before the process finished. */
  lemma SetupMessagesOneLine()
    ensures '\n' !in FileFailedMessage && '\n' !in StdoutPipeMessage
    ensures '\n' !in StderrPipeMessage && '\n' !in SpawnFailedMessage
  {
  }

  /** The prefixes of the messages for a finished process. */
  lemma ResultPrefixesOneLine()
    ensures '\n' !in FailedPrefix && '\n' !in SucceededPrefix
    ensures '\n' !in "代码执行失败" && '\n' !in "代码执行成功"
  {
  }

  /** `prefix + line + "\n"` with neither part holding a '\n' holds exactly
      one, at its end. */
  lemma NewlineTerminated(prefix: string, line: string)
    requires '\n' !in prefix && '\n' !in line
    ensures var m := prefix + line + "\n";
      m[|m| - 1] == '\n' && m[..|m| - 1] == prefix + line && '\n' !in m[..|m| - 1]
  {
    var m := prefix + line + "\n";
    assert m[..|m| - 1] == prefix + line;
  }

  /** An unknown language fails naming it; shell names are routed to the
      PowerShell binding. */
  lemma ExecuteCodeSpec(block: CodeBlock, run: ProcessRun)
    ensures Lower(block.language) !in LanguageColorMap ==>
      ExecuteCode(block, run) == ExecResult(false, UnsupportedPrefix + block.language)
    ensures Lower(block.language) in LanguageColorMap ==> ExecuteCode(block, run) == Outcome(run)
    ensures Named(block.language, ShellNames) ==> CreateExecutorPs(block.language) == Some(PowerShellBinding)
  {
    CreateExecutorKnows(block.language);
    CreateExecutorBindings(block.language);
  }

  /** Every message `ExecuteCode` returns is non-empty. */
  lemma ExecuteCodeNonEmpty(block: CodeBlock, run: ProcessRun)
    ensures ExecuteCode(block, run).message != ""
  {
    OutcomeSpec(run);
  }
}
