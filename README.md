# Code-Atlas streaming core in Dafny

Code-Atlas is a console front end for a language model that runs the code
the model writes. This project models the core of that program and proves
properties of it:

- **Fence scanner.** `CodeBlockElement` reads the model's output one
  character at a time. It recognises fenced code blocks and colours their
  body. The third closing backtick ends a block. That block is queued for
  execution when a table key occurs in its lower-cased first line.
- **Line formatter.** `MarkdownLineProcessor` handles the characters the
  scanner declines: `#` headings (level clamped at 4), `*`/`_` italic and
  bold toggles, and a full reset at every newline.
- **Char router.** It routes each chunk character by character, first to
  the scanner and then, only when the scanner is inactive and declines the
  character, to the formatter. The two readers differ before the model has
  loaded, and the load marker is computed in two ways.
- **Idle tick and batch runs.** The idle tick hands pending blocks to an
  execution batch. The batch runs show each result and compose the message
  fed back to the model. Three revisions (code-atlas.cpp, timer_thread.cpp
  and model_caller.cpp) are modelled side by side.
- **Executors.** There are three executor revisions (code-atlas.cpp,
  code_executor.cpp, and utils.cpp with codeExecutor.cpp). Each has its own
  language factory, command line and result messages.
- **String utilities** of src/Utils.cpp: unescaping, holding back a
  trailing backslash, and the one-line display form.
- **Server-Sent Events framing** in `data: ` lines: the client of
  src/ApiClient.cpp, with tool-call accumulation, live printing of the
  `code` argument, response classification and the parameter whitelist.
  The remote reader of model_caller.cpp frames differently: it splits each
  raw write into lines on its own, keeps no partial line across writes,
  and recognises the end marker only as the whole line `data: [DONE]`.
- **Output composition** of src/CodeExecutor.cpp.

State that the C++ updates in place is modelled as classes whose fields
have the same names: `Scanner.CodeBlockElement`,
`LineFormat.MarkdownLineProcessor`, `Pipeline.Pipeline`, `Console.Screen`,
`ApiStream.StreamSession` and `Responses.ApiModelCaller`. Each method is
proved equal to a pure step function over a snapshot datatype: `Scan`,
`FormatChar`, `TickStep`, `Callback`, `ProcessedChunk` and so on. The
lemmas then state the source's promises about those functions. Loops stay
loops:

- the router loop,
- the `getline` loops,
- the `find`/`replace` passes,
- the truncation count,
- the word-splitting loop,
- the batch loops,
- the `write_callback` drain loop.

Each of these carries the invariant that ties it to its function.

Modelling conventions:

- **Bytes.** A Dafny `char` stands for one byte of a C++ `std::string`. A
  Chinese message literal is written as its characters, so its length
  differs from the byte count.
- **Console.** Console output is a `Term`: the current attribute and the
  sequence of (character, colour) events written so far.
- **Duplicated copies.** The scanner and the formatter appear twice, in
  markdown_processor.cpp and in code-atlas.cpp, with the same logic. They
  are modelled once. The same holds for `GetLastNonEmptyLine`, which also
  appears in code-atlas.cpp:88-97 and utils.cpp:6-15.
- **Language table order.** The table is an `unordered_map`, so its
  iteration order is a parameter `order`: any listing of the ten keys. The
  tag found is proved to be some matching key for every order.
- **Outside inputs.** The child process, the clock and JSON decoding are
  inputs:
  - a `ProcessRun` or `ShellRun` stands for the process;
  - `nowMs` stands for the clock;
  - a `decode` function gives the decoded delta of a payload.

## Model

| member | source | states |
|---|---|---|
| Global.LanguageKeys | global.cpp:33-44 | the language table has exactly the keys python, py, batch, bat, sh, shell, bash, cmd, powershell, ps1 |
| Global.LanguageKeyCount | global.cpp:33-44 | those ten keys are distinct: the table has ten entries |
| Global.LanguageColors | global.cpp:33-44 | every key maps to the code colour and no key is empty |
| Global.HeadingTable | global.cpp:30 | four heading colours, level k using entry k-1 |
| Global.MatchLanguage | markdown_processor.cpp:104-110 | the search loop over the map returns the first key, in iteration order, that occurs in the line |
| Global.FirstMatchSpec | markdown_processor.cpp:104-110 | for every iteration order a key is found exactly when some table key occurs in the line, and the key found is one of them |
| Global.OverlapMakesTagUnspecified | global.cpp:33-44 | on the first line "python" two iteration orders pick "python" and "py": the tag is unspecified |
| LineFormat.CurrentColor | markdown_processor.h:59-63 | bold colour whenever bold; italic colour when italic and not bold; the base colour otherwise |
| LineFormat.NewlineResets | markdown_processor.cpp:166-176 | '\n' is printed in the default colour and resets bold, italic, heading, base colour, line start and the marker |
| LineFormat.Heading | markdown_processor.cpp:179-203 | n `#`s and a space at line start give heading level min(n, 4) and print nothing; the console attribute becomes the current colour, which is that level's heading colour unless bold or italic is on |
| LineFormat.HashesNotHeading | markdown_processor.cpp:204-217 | n `#`s followed by an ordinary character print exactly n `#`s in the default colour, then the character |
| LineFormat.MarkerToggles | markdown_processor.cpp:227-238 | a marker is never printed; a repeat of the unused marker toggles bold and uses it up, any other toggles italic and becomes the unused marker |
| LineFormat.FirstMarkerItalic | markdown_processor.h:70-74 | on a fresh line the first marker turns italic on |
| LineFormat.StarPairAcrossText | markdown_processor.cpp:227-238 | in "*a*" the second `*` toggles bold, italic stays on, and "a" is printed in the italic colour |
| LineFormat.MarkdownLineProcessor.ProcessChar | markdown_processor.cpp:166-225 | `processChar` changes the fields and the console exactly as `FormatChar` says and keeps the field invariant |
| LineFormat.MarkdownLineProcessor.ResetLineState | markdown_processor.cpp:153-164 | `resetLineState` restores the initial field values |
| Scanner.FreshScanner | markdown_processor.h:29-37 | a new scanner is inactive, with its buffers empty, both counts 0 and the code colour |
| Scanner.ScanValid | markdown_processor.cpp:46-131 | every call keeps the counters below 3 and matching their backtick buffers, and the buffers of an inactive scanner empty |
| Scanner.ScanOpeningTick | markdown_processor.cpp:48-59 | outside a block a backtick is consumed silently; the third opens a block, starts the first line and empties the buffers and count |
| Scanner.ScanDeclines | markdown_processor.cpp:62-71 | outside a block, another character after 1-2 backticks prints them in the default colour, clears the count and is declined |
| Scanner.ScanFirstLine | markdown_processor.cpp:74-92 | while the first line is collected nothing is buffered or printed; its '\n' picks the code colour when a key matches and yellow otherwise |
| Scanner.ScanCodeChar | markdown_processor.cpp:122-128 | a body character is appended to the code buffer and echoed in the block colour; the closing count is not reset |
| Scanner.ScanClosingTick | markdown_processor.cpp:93-121 | body backticks are never buffered; the third closes the block, queuing it exactly when a key occurs in the lower-cased first line, with the buffered code and a matching key |
| Scanner.ScanQueuesOnlyOnClose | markdown_processor.cpp:97-120 | a block is queued only by the third closing backtick |
| Scanner.CodeBlockElement.Process | markdown_processor.cpp:46-131 | `process` updates the fields, the console and the shared queue as `Scan` says and advances `pos` exactly when it consumes the character |
| Scanner.CodeBlockElement.Reset | markdown_processor.cpp:133-142 | `reset` clears every field but the code colour |
| Scanner.CodeBlockElement.IsActive | markdown_processor.cpp:144-146 | `isActive` is `inCodeBlock` |
| Router.RouteCharSplits | code-atlas.cpp:883-897 | a character reaches the formatter exactly when the scanner is inactive and declines it; the queue grows only by the scanner's block |
| Router.ActiveBypassesFormatter | code-atlas.cpp:886-887 | while a fence is open the formatter sees nothing |
| Router.RouteChunkAppend | code-atlas.cpp:883-897 | routing a + b is routing a then b: chunk boundaries do not matter |
| Router.RouteChunkQueue | code-atlas.cpp:883-897 | the queue only grows at its end, by at most one block per character, each with a table key as language |
| Router.SplitFenceQueued | model_caller.cpp:125-139 | a `py` fence split across two chunks is queued as the block ("x", "py") for every iteration order |
| Router.RouteChunkLoop | code-atlas.cpp:883-897 | the `pos` loop moves one character per iteration and equals `RouteChunk` |
| Router.AtlasChunkSpec | code-atlas.cpp:866-880 | before loading a chunk without the marker is printed raw and unscanned; the marker chunk prints the banner, resets both processors and is dropped; loading is never undone |
| Router.CallerChunkSpec | model_caller.cpp:115-123 | the marker chunk prints the banner, resets both processors and is dropped; every other chunk is routed |
| Router.EmptyMarkerDropsFirstChunk | model_caller.cpp:115-123 | with an empty marker the first chunk completes loading and is dropped |
| Router.LoadedStreamIsRouted | code-atlas.cpp:877-897 | once loaded, the reader routes the concatenation of its chunks |
| Router.AtlasReadChunk | code-atlas.cpp:858-898 | one reader iteration records the time and does what `AtlasChunk` says |
| Router.CallerReadChunk | model_caller.cpp:110-140 | one reader iteration records the time and does what `CallerChunk` says |
| Router.EndOfStreamSpec | code-atlas.cpp:900-901 | the end of the stream prints '\n' in the default colour and leaves the formatter fresh; scanner and queue untouched |
| Markers.CallerMarker | model_caller.cpp:27-41 | the marker is the last min(5, n) words of the prompt joined by single spaces |
| Markers.CallerMarkerWords | model_caller.cpp:27-41 | the marker splits back into those words and is "" exactly when the prompt has no words |
| Markers.SplitWords | model_caller.cpp:30-33 | the `iss >> word` loop yields the white-space separated words in order |
| Markers.AtlasMarker | code-atlas.cpp:770-772 | the marker is the last 20 bytes of the prompt, or the whole prompt when shorter |
| Lines.GetLastNonEmptyLine | markdown_processor.cpp:6-15 | the `getline` loop returns the last non-empty line |
| Lines.LastNonEmptyLineShape | markdown_processor.cpp:6-15 | the result has no '\n' and is "" exactly when every line is empty |
| Lines.GetLinesRoundTrip | markdown_processor.cpp:9-13 | re-joining the extracted lines gives back the input, plus a '\n' when it lacked a final one |
| Exec.BuildCommandLine | code-atlas.cpp:212-222 | the command line is the interpreter, its arguments when present, each followed by a space, then the quoted file; the quoted file alone without an interpreter |
| Exec.CommandLineShape | code_executor.cpp:46-55 | the command line ends with the quoted file and starts with the interpreter and a space exactly when there is an interpreter |
| Exec.SucceededIff | code-atlas.cpp:253-257 | success is a started process whose exit code was read and is 0 |
| Exec.CreateExecutorBindings | code-atlas.cpp:361-378 | python/py, batch/bat/cmd and powershell/ps1 get their bindings; shell names get PowerShell in code-atlas.cpp and code_executor.cpp and bash in codeExecutor.cpp |
| Exec.CreateExecutorCaseInsensitive | codeExecutor.cpp:24-25 | both factories depend only on the lower-cased name |
| Exec.CreateExecutorKnows | code_executor.cpp:133-147 | both factories know exactly the ten table keys |
| Exec.QueuedBlocksHaveExecutors | code_executor.cpp:133-147 | every queued block has an executor in every revision |
| Exec.BindingCommandLines | codeExecutor.cpp:6-20 | the command lines of the Python, batch and shell bindings |
| AtlasExec.OutcomeSpec | code-atlas.cpp:270-282 | success iff exit code 0; a success quotes the whole stdout and a failure the whole stderr before a final '\n'; only successes read as success |
| AtlasExec.ExecuteCodeSpec | code-atlas.cpp:385-393 | an unknown language fails naming it without launching; shell names launch PowerShell on a .ps1 file |
| AtlasExec.ExecuteCodeNonEmpty | code-atlas.cpp:385-393 | every result message, for a known or an unknown language, is non-empty |
| CnExec.ExecuteCodeWithInterpreter | code_executor.cpp:14-112 | the step-by-step run yields `Outcome(run)` and launches the built command line unless a file or pipe failed first |
| CnExec.OutcomeSpec | code_executor.cpp:87-102 | success iff exit code 0; failures before the spawn are fixed messages without '\n'; a finished run's message ends in its only '\n' and quotes the last non-empty line of stderr or stdout |
| CnExec.ExecuteCodeSpec | code_executor.cpp:149-157 | an unknown language fails with the unsupported-language message; shell names go to PowerShell |
| CnExec.ExecuteCodeNonEmpty | code_executor.cpp:149-157 | every result message, for a known or an unknown language, is non-empty |
| UtilsExec.ExecuteCodeWithInterpreter | utils.cpp:49-163 | the step-by-step run yields `Outcome(run)` and launches the built command line unless a file or pipe failed first |
| UtilsExec.OutcomeSpec | utils.cpp:137-152 | success iff exit code 0; no message holds a '\n'; the quoted text is the last non-empty line |
| UtilsExec.Execute | codeExecutor.cpp:6-20 | each executor passes its binding to `ExecuteCodeWithInterpreter` |
| UtilsExec.ExecuteCodeSpec | codeExecutor.cpp:44-53 | an unknown language fails naming it; shell names run `bash` on a .sh file |
| Pipeline.TickSpec | timer_thread.cpp:14-26 | a poll starts a batch exactly after 1000 ms of silence with the model loaded, no batch running and blocks pending; the batch is the whole queue in order and only the queue and the flag change |
| Pipeline.TickAtMostOneBatch | code-atlas.cpp:1101-1111 | after a poll starts a batch, no later poll starts another until it has finished |
| Pipeline.Pipeline.Tick | code-atlas.cpp:1098-1112 | the poll with its `swap` is `TickStep` |
| Pipeline.SuccessOutputSpec | code-atlas.cpp:1125-1140 | the aggregated output is the in-order concatenation of the successful messages |
| Pipeline.AllSucceeded | code-atlas.cpp:1125-1140 | when every block succeeds the successful messages are all messages in order |
| Pipeline.FeedbackSpec | code-atlas.cpp:1143-1172 | nothing is sent after an empty batch or an empty last message; otherwise code-atlas.cpp sends the successes' concatenation, ending with the last message, after a success and the last message after a failure, and the other revisions the last message |
| Pipeline.FeedbackAgree | timer_thread.cpp:55-69 | both feedback rules agree on one-block batches and on batches whose last block failed |
| Pipeline.BatchAnswered | timer_thread.cpp:39-69 | every non-empty batch is answered, since no executor message is empty |
| Pipeline.ReportSpec | timer_thread.cpp:45-52 | a batch loop keeps earlier output, appends each shown result in order and ends in the default colour |
| Pipeline.Pipeline.AtlasRunBatch | code-atlas.cpp:1121-1175 | the code-atlas.cpp batch shows each result with a newline, sends `AtlasFeedback` and then clears `isExecuting` |
| Pipeline.Pipeline.RunBatch | timer_thread.cpp:39-71 | the timer_thread.cpp batch shows each result bare, sends the last message and then clears `isExecuting` |
| Pipeline.Pipeline.CallerExecutePending | model_caller.cpp:349-387 | a no-op on an empty queue; otherwise the queue is emptied, each result is shown and the last message is sent whatever its success |
| Pipeline.Pipeline.AtlasExecutePending | code-atlas.cpp:1347-1391 | as above with the last non-empty line of a success shown and `AtlasFeedback` sent |
| Escapes.UnescapeString | src/Utils.cpp:5-17 | the five `find`/`replace` passes compute `Unescape` |
| Escapes.UnescapeNoBackslash | src/Utils.cpp:5-17 | a string without a backslash is unchanged |
| Escapes.UnescapeNeverLonger | src/Utils.cpp:7-15 | unescaping never lengthens a string |
| Escapes.UnescapeBackslashN | src/Utils.cpp:7-9 | the pass order turns backslash, backslash, n into a newline |
| Escapes.SafePrintWithEscapes | src/Utils.cpp:19-30 | safe + rest is the buffer; rest is "\\" exactly when the buffer ends with a backslash, "" otherwise |
| Escapes.FormatOutputForDisplay | src/Utils.cpp:32-63 | the replacement loops and the counting loop compute `FormatOutput` |
| Escapes.FormatOutputOneLine | src/Utils.cpp:33-44 | the display text holds no '\n' and no tab |
| Escapes.FormatOutputLength | src/Utils.cpp:45-61 | an escaped form of at most 200 bytes, or of at most 200 UTF-8 sequences as judged by their first bytes, is shown whole; one of more than 200 sequences is cut after exactly its first 200 sequences (200 to 800 bytes) and followed by "..." |
| Escapes.FormatOutputKeepsCharacters | src/Utils.cpp:47-59 | when the escaped text is a run of whole UTF-8 sequences, a cut falls on a sequence boundary: the first byte cut off is not a continuation byte |
| Escapes.CutPointCounts | src/Utils.cpp:50-59 | with `count` characters already counted, the counting loop stops before the end exactly when more than 200 − `count` sequences remain, and the bytes it steps over then hold exactly that many sequences |
| Escapes.CutPointOnBoundary | src/Utils.cpp:50-56 | over whole UTF-8 sequences the counting loop only stops on a sequence boundary |
| Escapes.CutPointBounds | src/Utils.cpp:48-58 | counting n more characters advances between n and 4n bytes unless the end comes first |
| ScriptExec.PythonExecute | src/CodeExecutor.cpp:125-165 | the appending steps compute `PythonResult` |
| ScriptExec.PythonResultSpec | src/CodeExecutor.cpp:156-165 | the result is stdout, a "\n" only when both parts are present, then the error text; the placeholder when both are empty |
| ScriptExec.ComposeShellResult | src/CodeExecutor.cpp:290-300 | the appending steps compute `ShellResult` |
| ScriptExec.ShellResultSpec | src/CodeExecutor.cpp:290-300 | the result is never empty, starts with stdout, ends with the stderr report or the exit-code report, and is the placeholder exactly when there is no output, no error and exit code 0 |
| ScriptExec.NatToStringRoundTrip | src/CodeExecutor.cpp:298 | the exit-code digits read back as the exit code |
| ScriptExec.ScriptExtension | src/CodeExecutor.cpp:181 | .ps1 exactly for "powershell", .bat otherwise |
| ScriptExec.ScriptBytesSpec | src/CodeExecutor.cpp:197-205 | every script starts with the UTF-8 byte order mark and ends with the code; only batch scripts carry the prelude |
| ScriptExec.ShellCommandLineSpec | src/CodeExecutor.cpp:232-237 | the command line ends with the quoted path and its interpreter agrees with the script's extension |
| ApiStream.DrainFraming | src/ApiClient.cpp:66-71 | the extracted lines, each followed by '\n', and the remaining buffer give back the old buffer plus the data; no line holds '\n'; without `[DONE]` no '\n' is left |
| ApiStream.DrainSkips | src/ApiClient.cpp:72-74 | a line not starting with "data: " is dropped without effect |
| ApiStream.DrainStopsAtDone | src/ApiClient.cpp:75-78 | a payload containing "[DONE]" ends the callback and leaves the rest of the buffer unprocessed |
| ApiStream.DrainDecodes | src/ApiClient.cpp:75-82 | any other data line has the text after its first six characters decoded and applied |
| ApiStream.StreamSession.WriteCallback | src/ApiClient.cpp:65-159 | the callback's loop computes `Callback` and always returns true |
| ApiStream.StreamSession.HandleToolChunk | src/ApiClient.cpp:91-146 | the tool-call branch computes `ToolStep` |
| ApiStream.PrintChunk | src/ApiClient.cpp:115-144 | the live printing of one fragment computes `PrintFragment` |
| ApiStream.ToolStepSpec | src/ApiClient.cpp:94-112 | a chunk registers its index as a "function" call with a printing state and appends its fragment to that call's arguments only |
| ApiStream.ApplySpec | src/ApiClient.cpp:84-151 | one payload appends its content delta and its fragment for each index, and keeps calls and printing states in step; without tools no call is recorded |
| ApiStream.ArgumentsAccumulate | src/ApiClient.cpp:110-112 | a call's arguments are the in-order concatenation of every fragment sent for its index |
| ApiStream.DrainApplies | src/ApiClient.cpp:67-82 | draining the buffer has the effect of applying, in order, the decoded payloads of the `data: ` lines it took out before any `[DONE]` payload |
| ApiStream.DrainAccumulates | src/ApiClient.cpp:65-112 | after a drain, each call's arguments are its earlier arguments followed by the in-order fragments for its index in the decoded payloads of the lines taken out |
| ApiStream.ApplyAllAppend | src/ApiClient.cpp:67-82 | applying two runs of payloads one after the other is applying their concatenation |
| ApiStream.EnterCodeSpec | src/ApiClient.cpp:118-125 | once the start marker is in the pending text the block opens and everything up to and including its first occurrence is dropped |
| ApiStream.FlushSpec | src/ApiClient.cpp:127-144 | flushing loses only the closing quote; an open block keeps at most a backslash, a closed one keeps text starting with '}' |
| ApiStream.ClassifySpec | src/ApiClient.cpp:167-181 | an error at status 400 or more; otherwise a tool-call response exactly when the finish reason is "tool_calls" and tools are configured, carrying the calls in index order; a message with no calls otherwise; both carry the content |
| ApiStream.InIndexOrderSpec | src/ApiClient.cpp:175-177 | the calls of a tool-call response are every recorded call once, in ascending index order |
| ApiStream.CopyParameters | src/ApiClient.cpp:33-40 | exactly the five whitelisted parameters are copied into the payload; everything else is left as it was |
| Responses.ApiModelCaller.ProcessResponse | model_caller.cpp:292-343 | the `getline` loop over a chunk computes `ProcessedChunk` |
| Responses.StopsAtDone | model_caller.cpp:299-305 | a "data: [DONE]" line ends the chunk; later lines are ignored |
| Responses.FinishSpec | model_caller.cpp:299-305 | the end of a response feeds '\n' to the formatter, prints "\n\n", restores the default colour and sets `isNewResponse` |
| Responses.HandleLineSpec | model_caller.cpp:306-339 | only "data: " lines with a string content act; they record the time, clear `isNewResponse`, mark the model loaded on non-empty content and route exactly that content |
| Responses.LoadedStays | model_caller.cpp:318-320 | loading is never undone within a chunk |

## Left out

- Win32 plumbing is not modelled: processes, pipes, temporary files and their names, `WaitForSingleObject`, the `ReadPipeOutput` and `Utf8ToWstring` code-page conversions, and the UTF-16 file writing for PowerShell. A run's observable outcome is an input.
- Console colouring is an event sequence, not real console calls.
- Threads, mutexes, atomics and `sleep_for` are left out. The timer poll is one `Tick` call and an execution thread is one batch call. The clock is an integer millisecond parameter.
- Networking and JSON are left out: curl, cpr, `doOneRequest` and nlohmann parsing. A payload's decoded delta is an input. The nlohmann type errors that src/ApiClient.cpp does not catch are not modelled: a non-string `content` or `id`, a missing or null `index` (line 92), a non-string `arguments` (line 111) and a non-string `finish_reason` (line 150).
- ApiStream.Banner: the tool name is written as `"` + name + `"`, without JSON escaping of special characters.
- Parse errors in src/ApiClient.cpp are written to `std::cerr`. That output is not modelled; the session is unchanged.
- The constructor of src/ApiClient.cpp reads `base_url`, the API key header, `tools` and the model name from the configuration. Only its parameter whitelist is modelled.
- The embedded Python interpreter is left out: `PythonExecutor` construction, `check_python_error` and the `PyRun_String` calls. Their outcome is the `PythonRun` input.
- The non-Windows `popen` branch of src/CodeExecutor.cpp is not modelled.
- Configuration loading, `main`, the tool loop, console input and line editing, and the 30-second load-wait loop are left out.
- The llama-cli command construction in the local model's `initialize` is not modelled.
- code-atlas.cpp's `APIModelCaller::processResponse` is not modelled separately. It also keeps the assistant reply for the conversation history.
- `::tolower` is modelled for ASCII letters only, as in the "C" locale.
- Pipeline.Pipeline.Tick: the poll is a single step.
- LineFormat.MarkdownLineProcessor.ProcessChar: the formatter's `hashCount` is an unbounded integer, so its overflow is not modelled.
- Headers and duplicate tables are not modelled: code_executor.h, codeExecutor.h, model_caller.h, global.h, include/*.h and constants.cpp.
