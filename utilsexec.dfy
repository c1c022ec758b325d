/** The executor of utils.cpp and codeExecutor.cpp: Chinese messages that
    quote only the last non-empty line of the captured output and carry no
    line break; shell names are run by `bash`. */
module UtilsExec {
  import opened Wrappers
  import opened Strings
  import opened Lines
  import opened Global
  import opened Exec

  const FileFailedMessage := "无法创建临时代码文件。"
  const StdoutPipeMessage := "无法创建标准输出管道。"
  const StderrPipeMessage := "无法创建错误输出管道。"
  const SpawnFailedMessage := "无法启动子进程。"
  const FailedPrefix := "代码执行失败: "
  const FailedBare := "代码执行失败"
  const SucceededPrefix := "代码执行成功: "
  const SucceededBare := "代码执行成功"
  const UnsupportedPrefix := "不支持的语言: "

  /** Return value and `resultMessage` of `ExecuteCodeWithInterpreter` for a
      run of the child. */
  function Outcome(run: ProcessRun): ExecResult {
    match run
    case FileCreateFailed => ExecResult(false, FileFailedMessage)
    case StdoutPipeFailed => ExecResult(false, StdoutPipeMessage)
    case StderrPipeFailed => ExecResult(false, StderrPipeMessage)
    case SpawnFailed => ExecResult(false, SpawnFailedMessage)
    case Exited(_, stdout, stderr) =>
      var lastOutputLine := LastNonEmpty(GetLines(stdout));
      var lastErrorLine := LastNonEmpty(GetLines(stderr));
      if !Succeeded(run) then
        if lastErrorLine != "" then ExecResult(false, FailedPrefix + lastErrorLine)
        else ExecResult(false, FailedBare)
      else if lastOutputLine != "" then ExecResult(true, SucceededPrefix + lastOutputLine)
      else ExecResult(true, SucceededBare)
  }

  /** `ExecuteCodeWithInterpreter`, step by step around the process run:
      the temporary file is `tempFileName + fileExt`; `launched` is the
      command line given to `CreateProcessA`, if it was reached. */
  method ExecuteCodeWithInterpreter(block: CodeBlock, fileExt: string, interpreter: string,
                                    interpreterArgs: string, tempFileName: string, run: ProcessRun)
    returns (success: bool, resultMessage: string, launched: Option<string>)
    ensures ExecResult(success, resultMessage) == Outcome(run)
    ensures launched ==
      if BeforeSpawn(run) then None
      else Some(CommandLine(interpreter, interpreterArgs, tempFileName + fileExt))
  {
    success := false;
    launched := None;
    var tempCodeFile := tempFileName + fileExt;
    if run.FileCreateFailed? {
      resultMessage := FileFailedMessage;
      return;
    }
    if run.StdoutPipeFailed? {
      resultMessage := StdoutPipeMessage;
      return;
    }
    if run.StderrPipeFailed? {
      resultMessage := StderrPipeMessage;
      return;
    }
    var cmdLine := BuildCommandLine(interpreter, interpreterArgs, tempCodeFile);
    launched := Some(cmdLine);
    if !run.SpawnFailed? {
      if run.exitCode.Some? {
        success := run.exitCode.value == 0;
      } else {
        success := false;
      }
      var lastOutputLine := GetLastNonEmptyLine(run.stdout);
      var lastErrorLine := GetLastNonEmptyLine(run.stderr);
      if !success {
        if lastErrorLine != "" {
          resultMessage := FailedPrefix + lastErrorLine;
        } else {
          resultMessage := FailedBare;
        }
      } else {
        if lastOutputLine != "" {
          resultMessage := SucceededPrefix + lastOutputLine;
        } else {
          resultMessage := SucceededBare;
        }
      }
    } else {
      resultMessage := SpawnFailedMessage;
      success := false;
    }
  }

  /** Each executor of codeExecutor.cpp: its binding's arguments passed on. */
  method Execute(b: Binding, block: CodeBlock, tempFileName: string, run: ProcessRun)
    returns (success: bool, resultMessage: string, launched: Option<string>)
    ensures ExecResult(success, resultMessage) == Outcome(run)
    ensures launched ==
      if BeforeSpawn(run) then None
      else Some(CommandLine(b.interpreter, b.interpreterArgs, tempFileName + b.fileExt))
  {
    success, resultMessage, launched :=
      ExecuteCodeWithInterpreter(block, b.fileExt, b.interpreter, b.interpreterArgs, tempFileName, run);
  }

  /** `ExecuteCode` of codeExecutor.cpp. */
  function ExecuteCode(block: CodeBlock, run: ProcessRun): ExecResult {
    match CreateExecutorSh(block.language)
    case None => ExecResult(false, UnsupportedPrefix + block.language)
    case Some(_) => Outcome(run)
  }

  /** Success is exactly a read exit code of 0; no message holds a line
      break, so a fed-back message is a single line; a message for a
      finished process quotes the last non-empty line of stderr (on failure)
      or stdout (on success) when there is one. */
  lemma OutcomeSpec(run: ProcessRun)
    ensures var r := Outcome(run);
      (r.success <==> Succeeded(run)) && r.message != "" && '\n' !in r.message &&
      (run.Exited? && !r.success && LastNonEmpty(GetLines(run.stderr)) != "" ==>
        r.message == FailedPrefix + LastNonEmpty(GetLines(run.stderr))) &&
      (run.Exited? && r.success && LastNonEmpty(GetLines(run.stdout)) != "" ==>
        r.message == SucceededPrefix + LastNonEmpty(GetLines(run.stdout)))
  {
    if run.Exited? {
      ExitedOutcome(run);
    } else {
      SetupMessagesOneLine();
    }
  }

  lemma ExitedOutcome(run: ProcessRun)
    requires run.Exited?
    ensures var r := Outcome(run);
      (r.success <==> Succeeded(run)) && r.message != "" && '\n' !in r.message &&
      (!r.success && LastNonEmpty(GetLines(run.stderr)) != "" ==>
        r.message == FailedPrefix + LastNonEmpty(GetLines(run.stderr))) &&
      (r.success && LastNonEmpty(GetLines(run.stdout)) != "" ==>
        r.message == SucceededPrefix + LastNonEmpty(GetLines(run.stdout)))
  {
    ResultMessagesOneLine();
    var lastOutputLine := LastNonEmpty(GetLines(run.stdout));
    var lastErrorLine := LastNonEmpty(GetLines(run.stderr));
    if !Succeeded(run) && lastErrorLine != "" {
      LastNonEmptyLineShape(run.stderr);
      NoNewlineJoin(FailedPrefix, lastErrorLine);
    } else if Succeeded(run) && lastOutputLine != "" {
      LastNonEmptyLineShape(run.stdout);
      NoNewlineJoin(SucceededPrefix, lastOutputLine);
    }
  }

  /** The messages for a run that stopped before the process finished. */
  lemma SetupMessagesOneLine()
    ensures '\n' !in FileFailedMessage && '\n' !in StdoutPipeMessage
    ensures '\n' !in StderrPipeMessage && '\n' !in SpawnFailedMessage
  {
  }

  /** The prefixes and bare messages for a finished process. */
  lemma ResultMessagesOneLine()
    ensures '\n' !in FailedPrefix && '\n' !in FailedBare
    ensures '\n' !in SucceededPrefix && '\n' !in SucceededBare
  {
  }

  lemma NoNewlineJoin(prefix: string, line: string)
    requires '\n' !in prefix && '\n' !in line
    ensures '\n' !in prefix + line
  {
  }

  /** An unknown language fails naming it; shell names are routed to the
      `bash` binding, whose command line is `bash "<file>.sh"`. */
  lemma ExecuteCodeSpec(block: CodeBlock, run: ProcessRun, file: string)
    ensures Lower(block.language) !in LanguageColorMap ==>
      ExecuteCode(block, run) == ExecResult(false, UnsupportedPrefix + block.language)
    ensures Lower(block.language) in LanguageColorMap ==> ExecuteCode(block, run) == Outcome(run)
    ensures Named(block.language, ShellNames) ==>
      CreateExecutorSh(block.language) == Some(ShellBinding) &&
      CommandLine(ShellBinding.interpreter, ShellBinding.interpreterArgs, file) == "bash \"" + file + "\""
  {
    CreateExecutorKnows(block.language);
    CreateExecutorBindings(block.language);
    BindingCommandLines(file);
  }
}
