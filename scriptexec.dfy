/** The output-composition rules of src/CodeExecutor.cpp: what the embedded
    Python executor and the Windows shell executor return to the model,
    which extension and prelude a shell script gets, and the command line
    that runs it. The interpreter, the pipes and the files are not
    modelled; what they produced is an input. A Dafny `char` stands for one
    byte. */
module ScriptExec {
  import opened Wrappers
  import opened Strings

  const NoOutput := "[No output]"

  /** The non-empty parts, in order, with "\n" between consecutive ones:
      the shape every `if (!x.empty()) { if (!r.empty()) r += "\n"; r += x; }`
      sequence builds. */
  function JoinNonEmpty(parts: seq<string>): string {
    if parts == [] then ""
    else
      var init := JoinNonEmpty(parts[..|parts| - 1]);
      var last := parts[|parts| - 1];
      if last == "" then init else if init == "" then last else init + "\n" + last
  }

  /** Joining one more part: it is added after a "\n" when both it and
      what came before are non-empty. */
  lemma JoinNonEmptySnoc(parts: seq<string>, p: string)
    ensures JoinNonEmpty(parts + [p]) ==
      if p == "" then JoinNonEmpty(parts)
      else if JoinNonEmpty(parts) == "" then p
      else JoinNonEmpty(parts) + "\n" + p
  {
    assert (parts + [p])[..|parts|] == parts;
  }

  /** The join of one part is that part. */
  lemma JoinNonEmptySingle(p: string)
    ensures JoinNonEmpty([p]) == p
  {
    assert [p][..0] == [];
  }

  /** The join is empty exactly when every part is. */
  lemma {:induction false} JoinNonEmptyEmpty(parts: seq<string>)
    ensures JoinNonEmpty(parts) == "" <==> forall i :: 0 <= i < |parts| ==> parts[i] == ""
  {
    if parts != [] {
      var init := parts[..|parts| - 1];
      JoinNonEmptyEmpty(init);
      assert forall i :: 0 <= i < |init| ==> init[i] == parts[i];
    }
  }

  /** `"" ` becomes the placeholder; anything else is returned as is. */
  function OrNoOutput(s: string): (r: string)
    ensures r != ""
    ensures s != "" ==> r == s
  {
    if s == "" then NoOutput else s
  }

  /** What the embedded interpreter did. `RedirectFailed` carries the error
      text of the failed stdio redirection; otherwise `errorText` is what
      `check_python_error` reported for the user code ("" when it ran
      cleanly) and `capturedOut`/`capturedErr` are the captured streams,
      `None` when they could not be read back. */
  datatype PythonRun =
    | RedirectFailed(redirectError: string)
    | Ran(errorText: string, capturedOut: Option<string>, capturedErr: Option<string>)

  /** The text `PythonExecutor::execute` reports as error output: the
      error of the user code followed by its captured stderr. */
  function PythonErrorOutput(errorText: string, capturedErr: Option<string>): string {
    if capturedErr.Some? then errorText + capturedErr.value else errorText
  }

  /** The result of `PythonExecutor::execute`. */
  function PythonResult(run: PythonRun): string {
    match run
    case RedirectFailed(e) => "Failed to redirect stdio:\n" + e
    case Ran(errorText, capturedOut, capturedErr) =>
      var stdOutput := if capturedOut.Some? then capturedOut.value else "";
      OrNoOutput(JoinNonEmpty([stdOutput, PythonErrorOutput(errorText, capturedErr)]))
  }

  /** `PythonExecutor::execute` after the interpreter calls: `error_output`
      and `final_output` built by appending. */
  method PythonExecute(run: PythonRun) returns (result: string)
    ensures result == PythonResult(run)
  {
    if run.RedirectFailed? {
      return "Failed to redirect stdio:\n" + run.redirectError;
    }
    var errorOutput := run.errorText;
    var stdOutput := "";
    if run.capturedOut.Some? {
      stdOutput := run.capturedOut.value;
    }
    if run.capturedErr.Some? {
      errorOutput := errorOutput + run.capturedErr.value;
    }
    var finalOutput := "";
    if stdOutput != "" {
      finalOutput := finalOutput + stdOutput;
    }
    if errorOutput != "" {
      if finalOutput != "" {
        finalOutput := finalOutput + "\n";
      }
      finalOutput := finalOutput + errorOutput;
    }
    JoinNonEmptySingle(stdOutput);
    JoinNonEmptySnoc([stdOutput], errorOutput);
    assert [stdOutput] + [errorOutput] == [stdOutput, errorOutput];
    result := if finalOutput == "" then NoOutput else finalOutput;
  }

  /** The Python result is never empty: it is the captured stdout, then a
      "\n" only when both parts are present, then the error output, or the
      placeholder when both are empty. */
  lemma PythonResultSpec(run: PythonRun)
    requires run.Ran?
    ensures var out := if run.capturedOut.Some? then run.capturedOut.value else "";
      var err := PythonErrorOutput(run.errorText, run.capturedErr);
      var r := PythonResult(run);
      r != "" &&
      (out != "" && err != "" ==> r == out + "\n" + err) &&
      (out != "" && err == "" ==> r == out) &&
      (out == "" && err != "" ==> r == err) &&
      (out == "" && err == "" ==> r == NoOutput)
  {
    var out := if run.capturedOut.Some? then run.capturedOut.value else "";
    var err := PythonErrorOutput(run.errorText, run.capturedErr);
    JoinNonEmptySingle(out);
    JoinNonEmptySnoc([out], err);
    assert [out] + [err] == [out, err];
  }

  /** `std::to_string` of an unsigned value: its decimal digits. */
  function NatToString(n: nat): (r: string)
    ensures r != []
    ensures forall i :: 0 <= i < |r| ==> '0' <= r[i] <= '9'
  {
    if n < 10 then [Digit(n)] else NatToString(n / 10) + [Digit(n % 10)]
  }

  function Digit(d: nat): (c: char)
    requires d < 10
    ensures '0' <= c <= '9' && c as int - '0' as int == d
  {
    ('0' as int + d) as char
  }

  /** The value of a string of decimal digits. */
  function DecimalValue(s: string): nat
    requires forall i :: 0 <= i < |s| ==> '0' <= s[i] <= '9'
  {
    if s == [] then 0
    else 10 * DecimalValue(s[..|s| - 1]) + (s[|s| - 1] as int - '0' as int)
  }

  /** The digits read back as the number: `NatToString` is injective. */
  lemma {:induction false} NatToStringRoundTrip(n: nat)
    ensures DecimalValue(NatToString(n)) == n
  {
    if n >= 10 {
      NatToStringRoundTrip(n / 10);
      var s := NatToString(n);
      assert s[..|s| - 1] == NatToString(n / 10);
    }
  }

  /** How a script run ended: the captured streams and the exit code. */
  datatype ShellRun = ShellRun(stdout: string, stderr: string, exitCode: nat)

  /** The parts `execute_shell_code` reports, in order. */
  function ShellParts(run: ShellRun): seq<string> {
    [run.stdout,
     if run.stderr != "" then "Error: " + run.stderr else "",
     if run.exitCode != 0 && run.stderr == "" then "Process exited with code: " + NatToString(run.exitCode) else ""]
  }

  /** The result `execute_shell_code` returns for a run. */
  function ShellResult(run: ShellRun): string {
    OrNoOutput(JoinNonEmpty(ShellParts(run)))
  }

  /** The composition of `result_str` at the end of `execute_shell_code`. */
  method ComposeShellResult(run: ShellRun) returns (result: string)
    ensures result == ShellResult(run)
  {
    var ps := ShellParts(run);
    ShellPartsJoin(run);
    var resultStr := "";
    if run.stdout != "" {
      resultStr := resultStr + run.stdout;
    }
    assert resultStr == JoinNonEmpty(ps[..1]);
    if run.stderr != "" {
      if resultStr != "" {
        resultStr := resultStr + "\n";
      }
      resultStr := resultStr + ("Error: " + run.stderr);
    }
    assert resultStr == JoinNonEmpty(ps[..2]);
    if run.exitCode != 0 && run.stderr == "" {
      if resultStr != "" {
        resultStr := resultStr + "\n";
      }
      resultStr := resultStr + ("Process exited with code: " + NatToString(run.exitCode));
    }
    result := if resultStr == "" then NoOutput else resultStr;
  }

  /** The joins of the first one, two and three shell parts. */
  lemma ShellPartsJoin(run: ShellRun)
    ensures var ps := ShellParts(run);
      JoinNonEmpty(ps[..1]) == ps[0] &&
      JoinNonEmpty(ps[..2]) ==
        (if ps[1] == "" then ps[0] else if ps[0] == "" then ps[1] else ps[0] + "\n" + ps[1]) &&
      JoinNonEmpty(ps) ==
        (if ps[2] == "" then JoinNonEmpty(ps[..2])
         else if JoinNonEmpty(ps[..2]) == "" then ps[2]
         else JoinNonEmpty(ps[..2]) + "\n" + ps[2])
  {
    var ps := ShellParts(run);
    assert ps[..1] == [ps[0]] && ps[..2] == ps[..1] + [ps[1]] && ps == ps[..2] + [ps[2]];
    JoinNonEmptySingle(ps[0]);
    JoinNonEmptySnoc(ps[..1], ps[1]);
    JoinNonEmptySnoc(ps[..2], ps[2]);
  }

  /** The shell result is never empty; it starts with stdout, ends with the
      stderr report when stderr is non-empty and with the exit code when
      the script failed silently, and the placeholder stands in exactly when
      there was no output, no error and a zero exit code. */
  lemma ShellResultSpec(run: ShellRun)
    ensures var r := ShellResult(run);
      r != "" &&
      (run.stdout != "" ==> StartsWith(r, run.stdout)) &&
      (run.stderr != "" ==> EndsWith(r, "Error: " + run.stderr)) &&
      (run.exitCode != 0 && run.stderr == "" ==>
        EndsWith(r, "Process exited with code: " + NatToString(run.exitCode))) &&
      (JoinNonEmpty(ShellParts(run)) == "" <==> run.stdout == "" && run.stderr == "" && run.exitCode == 0)
  {
    var ps := ShellParts(run);
    ShellPartsJoin(run);
    var j2 := JoinNonEmpty(ps[..2]);
    var j := JoinNonEmpty(ps);
    if run.stdout != "" {
      assert j2[..|run.stdout|] == run.stdout;
      assert j[..|j2|] == j2;
      assert j[..|run.stdout|] == j2[..|run.stdout|];
    }
    if run.stderr != "" {
      assert j[|j| - |ps[1]|..] == ps[1];
    }
    if run.exitCode != 0 && run.stderr == "" {
      assert j[|j| - |ps[2]|..] == ps[2];
    }
  }

  /** The temporary script's extension. */
  function ScriptExtension(shellName: string): (r: string)
    ensures r == ".ps1" <==> shellName == "powershell"
    ensures r == ".ps1" || r == ".bat"
  {
    if shellName == "powershell" then ".ps1" else ".bat"
  }

  /** The UTF-8 byte order mark. */
  const Bom: string := [0xEF as char, 0xBB as char, 0xBF as char]

  const BatchPrelude := "@echo off\n" + "chcp 65001 >nul 2>&1\n"

  /** The bytes written to the temporary script. */
  function ScriptBytes(shellName: string, code: string): string {
    Bom + (if shellName == "batch" then BatchPrelude else "") + code
  }

  /** Every script starts with the byte order mark and ends with the code;
      only a batch script has the prelude between them. */
  lemma ScriptBytesSpec(shellName: string, code: string)
    ensures var b := ScriptBytes(shellName, code);
      StartsWith(b, Bom) && EndsWith(b, code) &&
      (shellName == "batch" ==> b == Bom + BatchPrelude + code) &&
      (shellName != "batch" ==> b == Bom + code)
  {
    var b := ScriptBytes(shellName, code);
    assert b[..3] == Bom;
    assert b[|b| - |code|..] == code;
  }

  /** The command line `execute_shell_code` starts. */
  function ShellCommandLine(shellName: string, path: string): string {
    if shellName == "powershell" then "powershell.exe -ExecutionPolicy Bypass -File \"" + path + "\""
    else "cmd.exe /c \"" + path + "\""
  }

  /** The command line quotes the script path at its end, and the
      interpreter agrees with the extension chosen for the script. */
  lemma ShellCommandLineSpec(shellName: string, path: string)
    ensures var c := ShellCommandLine(shellName, path);
      EndsWith(c, "\"" + path + "\"") &&
      (ScriptExtension(shellName) == ".ps1" ==> StartsWith(c, "powershell.exe ")) &&
      (ScriptExtension(shellName) == ".bat" ==> StartsWith(c, "cmd.exe /c "))
  {
    var c := ShellCommandLine(shellName, path);
    var q := "\"" + path + "\"";
    if shellName == "powershell" {
      assert c == "powershell.exe -ExecutionPolicy Bypass -File " + q;
      assert c[..15] == "powershell.exe ";
    } else {
      assert c == "cmd.exe /c " + q;
      assert c[..11] == "cmd.exe /c ";
    }
  }
}
