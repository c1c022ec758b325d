/** The executor of code-atlas.cpp: English messages that quote the whole
    captured output, and shell names run by PowerShell. */
module AtlasExec {
  import opened Wrappers
  import opened Strings
  import opened Global
  import opened Exec

  const FileFailedMessage := "Failed to create temporary code file."
  const StdoutPipeMessage := "Failed to create stdout pipe."
  const StderrPipeMessage := "Failed to create stderr pipe."
  const SpawnFailedMessage := "Unable to start the child process."
  const FailedPrefix := "Execution failed: "
  const FailedBare := "Execution failed.\n"
  const SucceededPrefix := "Execution succeeded:\n"
  const SucceededBare := "Execution succeeded.\n"
  const UnsupportedPrefix := "Unsupported language: "

  /** `ExecuteCodeWithInterpreter`: return value and `resultMessage` for a
      run of the child. */
  function Outcome(run: ProcessRun): ExecResult {
    match run
    case FileCreateFailed => ExecResult(false, FileFailedMessage)
    case StdoutPipeFailed => ExecResult(false, StdoutPipeMessage)
    case StderrPipeFailed => ExecResult(false, StderrPipeMessage)
    case SpawnFailed => ExecResult(false, SpawnFailedMessage)
    case Exited(_, stdout, stderr) =>
      var success := Succeeded(run);
      if !success then
        if stderr != "" then ExecResult(false, FailedPrefix + stderr + "\n")
        else ExecResult(false, FailedBare)
      else if stdout != "" then ExecResult(true, SucceededPrefix + stdout + "\n")
      else ExecResult(true, SucceededBare)
  }

  /** `ExecuteCode`: an unknown language is refused without running
      anything. */
  function ExecuteCode(block: CodeBlock, run: ProcessRun): ExecResult {
    match CreateExecutorPs(block.language)
    case None => ExecResult(false, UnsupportedPrefix + block.language)
    case Some(_) => Outcome(run)
  }

  /** The command line `ExecuteCode` hands to `CreateProcessA` for a block
      whose temporary file is `tempFileName` (the extension is appended). */
  function Launch(block: CodeBlock, tempFileName: string): Option<string> {
    match CreateExecutorPs(block.language)
    case None => None
    case Some(b) => Some(CommandLine(b.interpreter, b.interpreterArgs, tempFileName + b.fileExt))
  }

  /** The result reports success exactly when the exit code was read and was
      0. A failed result's message never reads as a success, and a
      successful one quotes the whole captured stdout between its prefix
      and a final '\n'; a failure quotes the whole stderr likewise. */
  lemma OutcomeSpec(run: ProcessRun)
    ensures var r := Outcome(run);
      (r.success <==> Succeeded(run)) && r.message != "" &&
      (r.success <==> StartsWith(r.message, "Execution succeeded")) &&
      (run.Exited? && r.success && run.stdout != "" ==>
        r.message[|SucceededPrefix|..|r.message| - 1] == run.stdout && r.message[|r.message| - 1] == '\n') &&
      (run.Exited? && !r.success && run.stderr != "" ==>
        r.message[|FailedPrefix|..|r.message| - 1] == run.stderr && r.message[|r.message| - 1] == '\n')
  {
    var r := Outcome(run);
    if run.Exited? {
      if r.success {
        assert StartsWith(r.message, "Execution succeeded") by {
          assert r.message[..19] == "Execution succeeded";
        }
      } else {
        if |r.message| >= 19 {
          assert r.message[10] != "Execution succeeded"[10];
        }
      }
    } else {
      assert r.message[..|"Execution succeeded"|] != "Execution succeeded" by {
        assert r.message[0] != 'E';
      }
    }
  }

  /** An unknown language fails with a message naming it; a known one
      behaves as its run dictates, the command line being the one for its
      binding. */
  lemma ExecuteCodeSpec(block: CodeBlock, run: ProcessRun, tempFileName: string)
    ensures Lower(block.language) !in LanguageColorMap ==>
      ExecuteCode(block, run) == ExecResult(false, UnsupportedPrefix + block.language) &&
      Launch(block, tempFileName) == None
    ensures Lower(block.language) in LanguageColorMap ==>
      ExecuteCode(block, run) == Outcome(run) && Launch(block, tempFileName).Some?
    ensures Named(block.language, ShellNames) ==>
      Launch(block, tempFileName) ==
        Some(CommandLine("powershell", "-ExecutionPolicy Bypass -File", tempFileName + ".ps1"))
  {
    CreateExecutorKnows(block.language);
    CreateExecutorBindings(block.language);
  }

  /** Every message `ExecuteCode` returns is non-empty. */
  lemma ExecuteCodeNonEmpty(block: CodeBlock, run: ProcessRun)
    ensures ExecuteCode(block, run).message != ""
  {
    OutcomeSpec(run);
  }
}
