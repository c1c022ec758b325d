/** What the three executor revisions share: the outcome of running a child
    process, the language bindings, the command-line builder, the
    success rule and the language lookup. The child process, its temporary
    file and its pipes are not modelled; their observable outcome is an
    input, `ProcessRun`. */
module Exec {
  import opened Wrappers
  import opened Strings
  import opened Global

  /** How an attempt to run a script ended. `exitCode` is `None` when
      `GetExitCodeProcess` failed; `stdout`/`stderr` are the captured pipe
      contents. */
  datatype ProcessRun =
    | FileCreateFailed
    | StdoutPipeFailed
    | StderrPipeFailed
    | SpawnFailed
    | Exited(exitCode: Option<nat>, stdout: string, stderr: string)

  /** The run stopped before `CreateProcessA` was called. */
  predicate BeforeSpawn(run: ProcessRun) {
    run.FileCreateFailed? || run.StdoutPipeFailed? || run.StderrPipeFailed?
  }

  /** The result of `ExecuteCode`: its return value and `resultMessage`. */
  datatype ExecResult = ExecResult(success: bool, message: string)

  /** The arguments an executor passes to `ExecuteCodeWithInterpreter`. */
  datatype Binding = Binding(fileExt: string, interpreter: string, interpreterArgs: string)

  const PythonBinding := Binding(".py", "python", "")
  const BatchBinding := Binding(".bat", "cmd.exe", "/C")
  const PowerShellBinding := Binding(".ps1", "powershell", "-ExecutionPolicy Bypass -File")
  const ShellBinding := Binding(".sh", "bash", "")

  /** `"\"" + path + "\""`. */
  function Quote(path: string): string {
    "\"" + path + "\""
  }

  /** The command line for running `file`: interpreter, then its arguments
      when present, each followed by a space, then the quoted file; with no
      interpreter, the quoted file alone. */
  function CommandLine(interpreter: string, interpreterArgs: string, file: string): string {
    if interpreter == "" then Quote(file)
    else interpreter + " " + (if interpreterArgs == "" then "" else interpreterArgs + " ") + Quote(file)
  }

  /** The `cmdLine` construction of `ExecuteCodeWithInterpreter`, appending
      piece by piece. */
  method BuildCommandLine(interpreter: string, interpreterArgs: string, tempCodeFile: string)
    returns (cmdLine: string)
    ensures cmdLine == CommandLine(interpreter, interpreterArgs, tempCodeFile)
  {
    if interpreter != "" {
      cmdLine := interpreter + " ";
      if interpreterArgs != "" {
        cmdLine := cmdLine + interpreterArgs + " ";
      }
      cmdLine := cmdLine + ("\"" + tempCodeFile + "\"");
    } else {
      cmdLine := "\"" + tempCodeFile + "\"";
    }
  }

  /** The command line always ends with the quoted file; what comes before
      is empty exactly when there is no interpreter, and otherwise starts
      with the interpreter and a space. */
  lemma CommandLineShape(interpreter: string, interpreterArgs: string, file: string)
    ensures var c := CommandLine(interpreter, interpreterArgs, file);
      var n := |c| - |Quote(file)|;
      0 <= n && c[n..] == Quote(file) &&
      (n == 0 <==> interpreter == "") &&
      (interpreter != "" ==> StartsWith(c, interpreter + " ")) &&
      (interpreter != "" && interpreterArgs != "" ==> c[|interpreter| + 1..n] == interpreterArgs + " ") &&
      (interpreter != "" && interpreterArgs == "" ==> n == |interpreter| + 1)
  {
    var c := CommandLine(interpreter, interpreterArgs, file);
    if interpreter != "" {
      var mid := if interpreterArgs == "" then "" else interpreterArgs + " ";
      assert c == (interpreter + " ") + mid + Quote(file);
      assert c[..|interpreter| + 1] == interpreter + " ";
    }
  }

  /** The command lines of the Python, batch and shell bindings. */
  lemma BindingCommandLines(file: string)
    ensures CommandLine(PythonBinding.interpreter, PythonBinding.interpreterArgs, file) ==
      "python \"" + file + "\""
    ensures CommandLine(BatchBinding.interpreter, BatchBinding.interpreterArgs, file) ==
      "cmd.exe /C \"" + file + "\""
    ensures CommandLine(ShellBinding.interpreter, ShellBinding.interpreterArgs, file) ==
      "bash \"" + file + "\""
  {
  }

  /** `success = GetExitCodeProcess(...) && exitCode == 0`. */
  predicate Succeeded(run: ProcessRun) {
    run.Exited? && run.exitCode == Some(0)
  }

  /** A run succeeds exactly when the process was started, its exit code
      could be read, and that code is 0. */
  lemma SucceededIff(run: ProcessRun)
    ensures Succeeded(run) <==>
      !(run.FileCreateFailed? || run.StdoutPipeFailed? || run.StderrPipeFailed? || run.SpawnFailed?) &&
      run.exitCode.Some? && run.exitCode.value == 0
  {
  }

  /** A language's lower-cased name is one of `names`. */
  predicate Named(lang: string, names: set<string>) {
    Lower(lang) in names
  }

  const PythonNames := {"python", "py"}
  const BatchNames := {"batch", "bat", "cmd"}
  const PowerShellNames := {"powershell", "ps1"}
  const ShellNames := {"shell", "bash", "sh"}

  /** `ExecutorFactory::CreateExecutor` of code-atlas.cpp and
      code_executor.cpp: shell names also get the PowerShell executor.
      `None` stands for `nullptr`. */
  function CreateExecutorPs(language: string): Option<Binding> {
    var lang := Lower(language);
    if lang == "python" || lang == "py" then Some(PythonBinding)
    else if lang == "batch" || lang == "bat" || lang == "cmd" then Some(BatchBinding)
    else if lang == "powershell" || lang == "ps1" then Some(PowerShellBinding)
    else if lang == "shell" || lang == "bash" || lang == "sh" then Some(PowerShellBinding)
    else None
  }

  /** `ExecutorFactory::CreateExecutor` of codeExecutor.cpp: shell names get
      the `bash` executor. */
  function CreateExecutorSh(language: string): Option<Binding> {
    var lang := Lower(language);
    if lang == "python" || lang == "py" then Some(PythonBinding)
    else if lang == "batch" || lang == "bat" || lang == "cmd" then Some(BatchBinding)
    else if lang == "powershell" || lang == "ps1" then Some(PowerShellBinding)
    else if lang == "shell" || lang == "bash" || lang == "sh" then Some(ShellBinding)
    else None
  }

  /** Both factories depend only on the lower-cased name. */
  lemma CreateExecutorCaseInsensitive(language: string, other: string)
    requires Lower(language) == Lower(other)
    ensures CreateExecutorPs(language) == CreateExecutorPs(other)
    ensures CreateExecutorSh(language) == CreateExecutorSh(other)
  {
  }

  /** Both factories know exactly the ten names of the fence scanner's
      language table, compared after lower-casing. */
  lemma CreateExecutorKnows(language: string)
    ensures CreateExecutorPs(language).Some? <==> Lower(language) in LanguageColorMap
    ensures CreateExecutorSh(language).Some? <==> Lower(language) in LanguageColorMap
  {
    LanguageKeys();
    var lang := Lower(language);
    assert lang in LanguageColorMap <==>
      lang in {"python", "py", "batch", "bat", "sh", "shell", "bash", "cmd", "powershell", "ps1"};
  }

  /** The binding each group of names gets; the factories differ only on
      the shell names. */
  lemma CreateExecutorBindings(language: string)
    ensures Named(language, PythonNames) ==>
      CreateExecutorPs(language) == CreateExecutorSh(language) == Some(PythonBinding)
    ensures Named(language, BatchNames) ==>
      CreateExecutorPs(language) == CreateExecutorSh(language) == Some(BatchBinding)
    ensures Named(language, PowerShellNames) ==>
      CreateExecutorPs(language) == CreateExecutorSh(language) == Some(PowerShellBinding)
    ensures Named(language, ShellNames) ==>
      CreateExecutorPs(language) == Some(PowerShellBinding) &&
      CreateExecutorSh(language) == Some(ShellBinding)
  {
  }

  /** A string of lower-case letters and digits is its own lower-casing. */
  lemma LowerOfLowerCase(s: string)
    requires forall i :: 0 <= i < |s| ==> 'a' <= s[i] <= 'z' || '0' <= s[i] <= '9'
    ensures Lower(s) == s
  {
  }

  /** The table keys are already lower case. */
  lemma KeysAreLowerCase()
    ensures forall k :: k in LanguageColorMap ==> Lower(k) == k
  {
    LanguageKeys();
    SomeKeysLowerCase();
    OtherKeysLowerCase();
  }

  lemma SomeKeysLowerCase()
    ensures Lower("python") == "python" && Lower("py") == "py" && Lower("batch") == "batch"
    ensures Lower("bat") == "bat" && Lower("sh") == "sh"
  {
    LowerOfLowerCase("python");
    LowerOfLowerCase("py");
    LowerOfLowerCase("batch");
    LowerOfLowerCase("bat");
    LowerOfLowerCase("sh");
  }

  lemma OtherKeysLowerCase()
    ensures Lower("shell") == "shell" && Lower("bash") == "bash" && Lower("cmd") == "cmd"
    ensures Lower("powershell") == "powershell" && Lower("ps1") == "ps1"
  {
    LowerOfLowerCase("shell");
    LowerOfLowerCase("bash");
    LowerOfLowerCase("cmd");
    LowerOfLowerCase("powershell");
    LowerOfLowerCase("ps1");
  }

  /** Every block the scanner queues carries a table key, and so has an
      executor in every revision. */
  lemma QueuedBlocksHaveExecutors(block: CodeBlock)
    requires block.language in LanguageColorMap
    ensures CreateExecutorPs(block.language).Some? && CreateExecutorSh(block.language).Some?
  {
    KeysAreLowerCase();
    CreateExecutorKnows(block.language);
  }
}
