# AI coding agent: tool sandbox and conversation loop

A Dafny model of the core of a small command-line coding agent. The agent
hands a language model four tools that act on a sandbox directory,
"./calculator":

- `get_files_info` lists a directory.
- `get_file_content` reads a file, capped at 10,000 characters.
- `run_python_file` runs a Python script and reports its output.
- `write_file` writes a file.

`main.py` dispatches the model's function calls to these tools and runs a
bounded conversation loop. The model covers the three tool files in
`functions/`, and from `main.py` the `call_function` dispatcher and the
`while attempts >= 0` loop.

Modules, one per file:

- `Text` (`text.dfy`): the Python string built-ins the tools rely on.
  - `str.startswith` and `str.endswith`.
  - `str.strip()`, with Python's notion of whitespace.
  - `str()` of integers and booleans.
  - Splitting a text into newline-terminated lines.
- `PosixPath` (`posix_path.dfy`): Python's lexical `posixpath` functions.
  - `join`.
  - `normpath`, including its rule of keeping exactly two leading slashes.
  - `abspath`, with the process's current directory as a parameter.
  - `commonpath`.
- `Containment` (`containment.dfy`): the two sandbox tests.
  - The string-prefix test of `get_file_content` and `get_files_info`.
  - The `commonpath` test of `run_python_file`.
  - For each test, exactly which targets it accepts, for paths whose
    abspath keeps a single leading slash.
  - The two ways the tests disagree: a sibling whose name extends the
    working directory's, and a target with two leading slashes.
- `FileSystem` (`filesystem.dfy`): the file system the tools observe.
  - A map from absolute normalised paths to regular files, directories (with
    their listings) and other nodes.
  - An unreadable file or directory carries the text of the exception it
    raises.
- `FileContent`, `FilesInfo` and `RunPython` (`get_file_content.dfy`,
  `get_files_info.dfy`, `run_python_file.dfy`): the three tools.
  - Each tool has its guard chain, its result text and its
    exception-to-text rule.
  - The loop of `get_files_info` is a method proved equal to a listing
    function.
  - The conditional appends and strip of `run_python_file` are a method
    proved equal to a case table.
- `Dispatch` (`dispatch.dfy`): `call_function`.
  - The four-name lookup and the unknown-name reply.
  - The forced working directory and the keyword binding of the model's
    arguments.
  - The one-key response dict.
- `Session` (`session.dfy`): the conversation loop.
  - The model is an oracle from the history so far to a response (candidate
    contents and function calls).
  - `RunSession` is the loop, proved equal to the round-by-round function
    `Session`.
  - The rounds take the dispatcher as a function from a call to its outcome;
    a session uses `call_function`, and the loop's lemmas hold for any
    dispatcher.

Points where the code's behaviour is easy to misread:

- **Sandbox test.** Each tool schema promises a tool "constrained to the
  working directory" (main.py:46, 60, 74, 88). The system prompt
  (main.py:40) says paths are relative to that directory. However,
  `get_file_content` and `get_files_info` test a raw string prefix, not a
  path-component boundary.
  - With working directory "./calculator", a sibling such as
    `../calculatorX/f` passes that test (`Containment.SiblingExample`,
    `FileContent.SiblingFileRead`).
  - Only `run_python_file`'s `commonpath` test refuses it
    (`RunPython.SiblingRefused`).
  - In the other direction, normpath keeps two leading slashes. Under the
    current directory "/home", the target "//home/x" passes the
    `commonpath` test but fails the string-prefix test
    (`Containment.DoubleSlashExample`).
- **Round count.** The loop starts `attempts` at 20 (main.py:159) and runs
  while `attempts >= 0`. It therefore consults the model up to 21 times
  (`Session.SessionConsultations`, `Session.SessionExhausts`).
- **Exhaustion.** When the attempts run out, the loop simply ends without a
  final response and reports nothing. The model's `Exhausted` status names
  that exit.
- **Guard order.** `get_files_info` checks that the target is a directory
  before it checks containment. A non-directory outside the sandbox
  therefore gets the "is not a directory" message
  (`FilesInfo.NotADirectoryFirst`).

## Model

| member | source | states |
|---|---|---|
| Text.LStrip | functions/run_python_file.py:32 | the result is a suffix of the input; what was removed is all whitespace; the result does not start with whitespace |
| Text.RStrip | functions/run_python_file.py:32 | the result is a prefix of the input; what was removed is all whitespace; the result does not end with whitespace |
| Text.LStripBlank | functions/run_python_file.py:25-28 | left-stripping empties a text exactly when it is all whitespace |
| Text.RStripBlank | functions/run_python_file.py:32 | right-stripping empties a text exactly when it is all whitespace |
| Text.IsSpace | functions/run_python_file.py:25-32 | no digit and no '-' counts as whitespace, so stripping never removes a digit or the sign of an exit code |
| Text.Strip | functions/run_python_file.py:32 | `s.strip()` is empty exactly when every character of `s` is whitespace; otherwise it neither starts nor ends with whitespace |
| Text.StripBlank | functions/run_python_file.py:25-28 | stripping left then right empties a text exactly when it is all whitespace, which is the truth test `if s.strip():` |
| Text.StripEnds | functions/run_python_file.py:32 | stripping left then right leaves a text that is empty or has no whitespace at either end |
| Text.NatToString | functions/get_files_info.py:24 | `str()` of a size is a non-empty run of digits with no leading zero unless the size is 0 |
| Text.NatToStringRoundTrip | functions/get_files_info.py:24 | the decimal rendering of a size reads back to the same number |
| Text.IntToString | functions/run_python_file.py:30 | `str()` of an exit code ends in a digit, is all digits apart from a leading '-', has the '-' exactly when the code is negative, and its digits read back to the code's absolute value |
| Text.SignedDigits | functions/run_python_file.py:30 | "-" followed by the decimal digits of n is all digits after its sign, and those digits read back to n |
| Text.LinesAppend | functions/get_files_info.py:24 | appending a line whose only newline is its last character adds exactly that line to the split |
| PosixPath.Split | functions/run_python_file.py:7 | `str.split('/')` yields at least one part, and no part contains '/' |
| PosixPath.JoinSplit | functions/run_python_file.py:7 | '/'.join undoes `str.split('/')`: splitting loses and reorders nothing |
| PosixPath.Join | functions/get_file_content.py:6 | an absolute second argument replaces the first; otherwise the result starts with the first argument and ends with the second |
| PosixPath.JoinInserts | functions/get_file_content.py:6 | join of a non-empty head not ending in '/' and a relative tail inserts exactly one '/' between them |
| PosixPath.Step | functions/get_file_content.py:8 | in normpath's component loop "" and "." leave the stack alone and a proper name is pushed; a '/'-free component keeps the stack made of non-empty '/'-free parts, and, under a root, of proper names only |
| PosixPath.Fold | functions/get_file_content.py:8 | over '/'-free components normpath's loop keeps its stack made of non-empty '/'-free parts, and, under a root, of proper names only (".." never survives) |
| PosixPath.Normalize | functions/get_file_content.py:8 | an absolute path normalises to one or two leading slashes followed by proper names; a relative one to no leading slash and non-empty '/'-free parts |
| PosixPath.NormPath | functions/get_file_content.py:8 | normpath never returns "" and its result is absolute exactly when its input is |
| PosixPath.AbsPath | functions/get_file_content.py:8 | abspath never returns "", and returns an absolute path when the current directory or the path is absolute |
| PosixPath.CommonPath | functions/run_python_file.py:7 | commonpath raises exactly when one path is absolute and the other relative; otherwise its result is absolute exactly when the inputs are |
| PosixPath.KeptPlain | functions/run_python_file.py:7 | commonpath's filter dropping "" and "." leaves only non-empty '/'-free components |
| PosixPath.PlainJoinHead | functions/get_file_content.py:8 | '/'-joining non-empty '/'-free parts gives a non-empty text that does not start with '/', so a relative path stays relative through normpath |
| PosixPath.SplitJoinWith | functions/run_python_file.py:7 | splitting at '/' undoes '/'.join on slash-free parts |
| PosixPath.CommonPrefixWhole | functions/run_python_file.py:7 | the common prefix of two component lists is a prefix of both, and equals the second exactly when the second is a prefix of the first |
| PosixPath.JoinWithInjective | functions/get_file_content.py:8 | '/'.join is one-to-one on lists of path names |
| PosixPath.NormPathRender | functions/get_file_content.py:8 | normpath's early return for "" agrees with its general case |
| PosixPath.ComponentsOfRender | functions/run_python_file.py:7 | commonpath's component filter recovers exactly the names of a normalised absolute path |
| PosixPath.FoldAppend | functions/get_file_content.py:8 | normpath's component loop over a concatenation runs over each half in turn |
| PosixPath.FoldNames | functions/get_file_content.py:8 | proper names are pushed onto normpath's stack unchanged |
| PosixPath.UpCancelsName | functions/get_file_content.py:8 | in normpath a proper name followed by ".." cancels out ("A/foo/../B" becomes "A/B"), whatever lies below it |
| PosixPath.RootUpDropped | functions/get_file_content.py:8 | at the root of an absolute path ".." is dropped ("/../x" becomes "/x") |
| PosixPath.RelativeUpKept | functions/get_file_content.py:8 | in a relative path a ".." with no name to cancel is kept ("../x" stays "../x") |
| PosixPath.RootedNames | functions/get_file_content.py:8 | "/" followed by '/'-joined names is already in normal form |
| PosixPath.DoubleRootedNames | functions/run_python_file.py:7 | "//" followed by '/'-joined names is already in normal form: normpath keeps exactly the two leading slashes |
| Containment.AbsPathShape | functions/get_file_content.py:8 | under an absolute current directory, abspath yields one or two leading slashes followed by proper names |
| Containment.PrefixGuard | functions/get_file_content.py:8 | for an absolute target, the test is exactly that normpath of the target string-starts-with abspath of the working directory |
| Containment.CommonGuard | functions/run_python_file.py:7 | under an absolute current directory, the commonpath test never raises |
| Containment.HeadFromPrefix | functions/get_file_content.py:8 | a '/'-joined list of names that string-starts-with "<a>/" has a as its first name and at least one name after it |
| Containment.PrefixIsWithin | functions/run_python_file.py:7 | a target whose components extend the working directory's also meets the component-wise description of the string-prefix test |
| Containment.JoinWithStartsWith | functions/get_file_content.py:8 | one '/'-joined path string-starts-with another exactly when the components match up to the last one, which need only be a string prefix |
| Containment.CommonGuardExact | functions/run_python_file.py:7 | the commonpath test never raises under an absolute current directory, and accepts exactly the targets whose components extend the working directory's (when that has a single leading slash) |
| Containment.PrefixGuardExact | functions/get_file_content.py:8 | for single-slash paths, the string-prefix test accepts exactly the targets described component-wise by `WithinByPrefix` |
| Containment.SingleRootedInputs | functions/get_file_content.py:8 | inputs without a leading double slash resolve to single-slash paths |
| Containment.CommonGuardImpliesPrefixGuard | functions/run_python_file.py:7 | for a target whose abspath keeps a single leading slash, every target the commonpath test accepts is also accepted by the string-prefix test |
| Containment.SiblingSplitsTheGuards | functions/get_file_content.py:8 | a target whose component at the working directory's depth only string-extends the last name passes the prefix test and fails the commonpath test |
| Containment.AbsolutePathIgnoresWd | functions/get_file_content.py:6 | an absolute path makes join discard the working directory, so the checked path is the path itself |
| Containment.ResolvedUnder | functions/get_file_content.py:8 | abspath of a relative path under an absolute current directory is the current directory's names folded with the path's components |
| Containment.SandboxResolved | main.py:145 | the working directory "./<d>" resolves to the current directory extended by the name d |
| Containment.SiblingFolds | functions/get_file_content.py:8 | "./<d>/../<n>/<f>" resolves under the current directory to its names followed by n and f: the ".." cancels d |
| Containment.SiblingExample | functions/get_file_content.py:8 | with working directory "./<d>", the target "../<d><x>/<f>" passes the prefix test, fails the commonpath test, and names the file <d><x>/<f> beside the sandbox |
| Containment.DoubleSlashSplitsTheGuards | functions/run_python_file.py:7 | under a current directory made of names and working directory ".", the target "//<cwd>/<more names>" passes the commonpath test and fails the string-prefix test, so the single-slash condition above cannot be dropped |
| Containment.DoubleSlashExample | functions/get_file_content.py:8 | under "/home" with working directory ".", the target "//home/x" is accepted by run_python_file's test and refused by get_file_content's |
| Containment.ForeignRootRejected | functions/get_file_content.py:8 | an absolute path whose first name differs from the current directory's is refused by both tests |
| Containment.NamesInsideAccepted | functions/get_file_content.py:8 | a relative path made of proper names is accepted by both tests |
| FileSystem.Lookup | functions/get_file_content.py:11 | the empty path names nothing; a non-empty path whose abspath is stored names exactly that node, and any node found is the one stored at the path's abspath |
| FileSystem.ErrorText | functions/get_file_content.py:22 | every error text starts with "Error: " |
| FileContent.Read | functions/get_file_content.py:16-17 | `f.read(n)` at a position returns the next min(n, remaining) characters of the file, in order, and "" at the end of the file |
| FileContent.ReadCapped | functions/get_file_content.py:14-19 | a file of at most 10,000 characters is returned verbatim; a longer one gives exactly its first 10,000 characters followed by the marker naming the path |
| FileContent.GetFileContent | functions/get_file_content.py:3-22 | a result that is not an error text comes from a target that passed the prefix test and is a regular file |
| FileContent.OutsideRefused | functions/get_file_content.py:6-9 | a target failing the prefix test gets the "Cannot read ... outside the permitted working directory" error, whatever the file system holds |
| FileContent.NotRegularRefused | functions/get_file_content.py:11-12 | an admitted target that is not a regular file gets the "File not found or is not a regular file" error |
| FileContent.ReadsAdmittedFile | functions/get_file_content.py:14-19 | an admitted, readable regular file is returned through the 10,000-character cap |
| FileContent.ContentOrError | functions/get_file_content.py:4-22 | every result is either the capped text of an admitted readable regular file or a text starting "Error: " |
| FileContent.SiblingFileRead | functions/get_file_content.py:8 | with working directory "./<d>", the sibling file "../<d><x>/<f>" is read and returned |
| FileContent.ForeignFileRefused | functions/get_file_content.py:6-9 | an absolute path outside the current directory's first name is refused as outside |
| FilesInfo.Tail | functions/get_files_info.py:24 | the text after the size is " bytes, is_dir=" then `str()` of the flag, then a newline |
| FilesInfo.EntryLine | functions/get_files_info.py:24 | each line opens with "- <name>: file_size=" and ends with a newline |
| FilesInfo.Listing | functions/get_files_info.py:19-24 | a successful listing is the empty text exactly when the directory has no entries |
| FilesInfo.Admitted | functions/get_files_info.py:5-20 | the guards admit exactly a directory that passes the prefix test and whose listing can be read, and hand on that listing; every refusal is a text starting "Error: " |
| FilesInfo.FilesInfo | functions/get_files_info.py:3-29 | a result that is not an error text comes from a target that is a directory and passed the prefix test |
| FilesInfo.ListingErrPrefix | functions/get_files_info.py:20-24 | a getsize failure within a prefix of the entries ends the whole listing with that failure |
| FilesInfo.GetFilesInfo | functions/get_files_info.py:3-29 | the guards followed by the listing loop return exactly the tool's result function, error cases included |
| FilesInfo.ListEntries | functions/get_files_info.py:19-24 | the loop that appends one line per entry returns exactly the listing function's result, and the first unreadable size ends it with that error |
| FilesInfo.TrailingDigits | functions/get_files_info.py:24 | the trailing digits of a text are a suffix made only of digits |
| FilesInfo.ParseEntryLineRoundTrip | functions/get_files_info.py:24 | each listing line parses back to the entry's name, size and is_dir flag |
| FilesInfo.EntryLineEnds | functions/get_files_info.py:24 | for a name without a newline, a listing line's only newline is its last character |
| FilesInfo.EntryLineNewlines | functions/get_files_info.py:24 | a listing line for a name without a newline holds exactly one newline |
| FilesInfo.ListingNewlines | functions/get_files_info.py:19-24 | a successful listing of names without newlines has exactly one newline per entry |
| FilesInfo.EntryTexts | functions/get_files_info.py:20-24 | one line per entry, in listing order |
| FilesInfo.ListingLines | functions/get_files_info.py:19-24 | a successful listing ends in a newline (or is empty) and splits into exactly the entries' lines, in order |
| FilesInfo.ListingReadsBack | functions/get_files_info.py:19-24 | read back line by line, a successful listing gives one line per entry, in order, each with that entry's name, size and is_dir flag |
| FilesInfo.ListingOkIff | functions/get_files_info.py:22 | the listing succeeds exactly when every entry's size can be read |
| FilesInfo.ListingFirstError | functions/get_files_info.py:20-29 | a failing listing reports the first entry whose size cannot be read, all earlier ones being readable |
| FilesInfo.EmptyDirectory | functions/get_files_info.py:19-26 | an admitted empty directory lists as the empty text |
| FilesInfo.DefaultIsWorkingDirectory | functions/get_files_info.py:5-6 | an omitted directory behaves exactly like "." |
| FilesInfo.NotADirectoryFirst | functions/get_files_info.py:12-17 | a target that is not a directory gets the "is not a directory" error, even when it lies outside the sandbox |
| FilesInfo.OutsideDirectoryRefused | functions/get_files_info.py:16-17 | a directory failing the prefix test gets the "Cannot list ... outside the permitted working directory" error |
| FilesInfo.ListingOrError | functions/get_files_info.py:3-29 | every result is the listing of an admitted directory or a text starting "Error: " |
| RunPython.RStripAfterBlock | functions/run_python_file.py:26-32 | right-stripping a block that ends in a newline strips only the block's body |
| RunPython.RawStartsPlain | functions/run_python_file.py:24-30 | the accumulated output never starts with whitespace, so left-stripping leaves it alone |
| RunPython.StripWithExit | functions/run_python_file.py:29-32 | with a non-zero exit code, stripping changes nothing |
| RunPython.StripWithStderr | functions/run_python_file.py:27-32 | with exit code 0 and something on stderr, stripping trims only the stderr body |
| RunPython.StripWithStdout | functions/run_python_file.py:25-32 | with exit code 0 and only stdout, stripping trims only the stdout body |
| RunPython.StripRawOutput | functions/run_python_file.py:24-32 | stripping the accumulated text, with the "No output produced." fallback, gives the case table `OutputText` |
| RunPython.RawByStrip | functions/run_python_file.py:24-30 | the three appends, each guarded by `strip()`, build the stdout block, the stderr block and the exit line in that order |
| RunPython.FormatOutput | functions/run_python_file.py:24-32 | the conditional appends followed by the strip and fallback compute `OutputText` |
| RunPython.OutputText | functions/run_python_file.py:24-32 | the report of a completed run is never empty, and with a non-zero exit code it ends with "Process exited with code <n>" |
| RunPython.FallbackEnds | functions/run_python_file.py:32 | the `or "No output produced."` fallback turns a stripped text into a non-empty one with no whitespace at either end |
| RunPython.TagLetters | functions/run_python_file.py:26-32 | the four fixed texts start with distinct letters and the fallback has no surrounding whitespace |
| RunPython.OutputStripped | functions/run_python_file.py:32 | the reported text is never empty and has no whitespace at either end |
| RunPython.StdoutBlockOpens | functions/run_python_file.py:25-26 | a non-blank stdout gives a block opening with "STDOUT:" |
| RunPython.StderrBlockOpens | functions/run_python_file.py:27-28 | a non-blank stderr gives a block opening with "STDERR:" |
| RunPython.OpensWithStdout | functions/run_python_file.py:25-26 | a non-blank stdout puts its block first |
| RunPython.OpensWithStderr | functions/run_python_file.py:27-28 | a blank stdout and a non-blank stderr put the stderr block first |
| RunPython.OutputOpening | functions/run_python_file.py:24-32 | the text opens with STDOUT, else STDERR, else the exit line, else it is the fallback, according to which streams are blank |
| RunPython.StdoutLeadsIff | functions/run_python_file.py:25-26 | the text opens with "STDOUT:" exactly when stdout has a non-space character |
| RunPython.StderrFollowsStdout | functions/run_python_file.py:25-28 | a non-blank stderr's block comes right after the stdout block (or first, when that is absent) |
| RunPython.BlankStreamsIgnored | functions/run_python_file.py:25-28 | a stream of only whitespace contributes nothing: the text equals that for an empty stream |
| RunPython.ExitCodeLast | functions/run_python_file.py:29-32 | with a non-zero exit code stripping changes nothing: the report is the accumulated text itself |
| RunPython.NoOutputIff | functions/run_python_file.py:32 | "No output produced." is the result exactly when both streams are blank and the exit code is 0 |
| RunPython.GuardOrder | functions/run_python_file.py:7-14 | the checks run in order (containment, then existence, then the .py suffix), each with its own error text |
| RunPython.RunPythonFile | functions/run_python_file.py:3-35 | a result that is not an error text comes from a target that passed the commonpath test, exists and ends in ".py", and whose run completed |
| RunPython.NotExecError | functions/run_python_file.py:34-35 | guard errors never read as "Error: executing ..." |
| RunPython.OutputNotExecError | functions/run_python_file.py:24-35 | the report of a completed run never reads as an execution exception |
| RunPython.CommonPathNeverRaises | functions/run_python_file.py:7-35 | under an absolute current directory commonpath does not raise, so an "Error: executing" result means the process itself failed |
| RunPython.SiblingRefused | functions/run_python_file.py:5-8 | the sibling "../<d><x>/<f>" of "./<d>" is refused as outside before anything else is looked at |
| RunPython.FailedRunReported | functions/run_python_file.py:16-35 | a run that raises (a timeout among them) after the guards pass is reported as "Error: executing Python file: <e>" |
| Dispatch.ToolNamed | main.py:124-131 | each of the four names maps to its own tool, and every other name to none |
| Dispatch.Binds | main.py:147 | the arguments bind only when they hold working_directory, and, for every tool but get_files_info, file_path |
| Dispatch.Invoke | main.py:143-147 | a non-error result of get_file_content or get_files_info means the target passed the prefix test under the working directory passed in; of run_python_file, the commonpath test |
| Dispatch.CallFunction | main.py:114-157 | a returned outcome is a tool turn named after the call with a one-key response; only a call to a known tool can raise |
| Dispatch.UnknownNameAnswered | main.py:131-141 | an unknown name gets the tool turn {"error": "Unknown function: <name>"}, and the result does not depend on the environment, so no tool runs |
| Dispatch.WorkingDirectoryForced | main.py:143-147 | any working_directory the model supplies is overwritten: the outcome is the same as with none |
| Dispatch.ResponseHasOneKey | main.py:131-157 | the one key of a returned response is "result" for a known tool and "error" for an unknown name |
| Dispatch.RaisesIffUnbound | main.py:147 | a known tool raises exactly when the model's arguments, with the working directory forced, do not bind to its parameters |
| Dispatch.ReadsUnderSandbox | main.py:143-157 | a get_file_content call reads the model's file_path relative to "./calculator" |
| Dispatch.ListsSandboxByDefault | main.py:143-157 | a get_files_info call without a directory lists "./calculator" itself |
| Session.ModelTurns | main.py:167-168 | one turn per candidate, holding its content, in order |
| Session.ToolTurns | main.py:170-178 | without a crash there is one tool turn per call; a crash leaves fewer turns than calls |
| Session.ToolTurnsAnswerCalls | main.py:171-174 | for any dispatcher, the i-th tool turn is its answer to the i-th call, and a crash means the call after the last turn raised |
| Session.Rounds | main.py:160-187 | `messages` is append-only: the history passed in stays in place |
| Session.Session | main.py:110-187 | the history always starts with the user's prompt |
| Session.CrashPersists | main.py:170-174 | once a call raises, later calls of the same response add nothing |
| Session.AppendCandidates | main.py:167-168 | the candidate loop appends each candidate's content, in order |
| Session.CallEach | main.py:170-178 | the call loop appends the calls' tool turns in order and stops at the first call that raises |
| Session.RunSession | main.py:159-187 | the loop that updates `messages` and `attempts` ends with the history, status and consultation count of `Session` |
| Session.DispatcherAnswersOneTurn | main.py:149-157 | `call_function` answers every call it returns from with one tool turn, named after the call, holding a one-key dict |
| Session.ToolTurnsMatchCalls | main.py:170-178 | for any dispatcher answering each call with a tool turn named after it, the i-th tool turn is its answer to the i-th call, named after that call, with a one-key response |
| Session.SessionToolTurns | main.py:170-178 | the tool turns of one response are `call_function`'s answers to its calls, in order, each named after its call with a one-key dict |
| Session.RoundsConsultations | main.py:159-185 | each round consults the model once, at most once per value of `attempts` down to zero |
| Session.SessionConsultations | main.py:159-187 | the model is consulted at least once and at most 21 times |
| Session.FirstAnswerEnds | main.py:185-187 | a first response without function calls ends the session after one consultation, with its candidates appended |
| Session.AnswerEndsRounds | main.py:160-187 | in any round with attempts left, a response without function calls ends the rounds: its candidates are appended, the status is Answered with that response, and one more consultation is counted |
| Session.AnsweredHasNoCalls | main.py:185-187 | the final response is one without function calls |
| Session.ExhaustedUsesAll | main.py:159-187 | the rounds end exhausted only after one consultation per attempt left |
| Session.SessionExhaustedUsesAll | main.py:159-187 | a session ends exhausted only after 21 consultations |
| Session.AlwaysCallingExhausts | main.py:159-187 | a model that always asks for calls that return is cut off, without a final response, after one consultation per remaining attempt |
| Session.SessionExhausts | main.py:159-187 | such a model is cut off after exactly 21 consultations |

## Left out

- Printing, the command line, `--verbose`, the `.env` file and the API key (main.py:12-27 and the `print` calls): these are I/O.
- The Gemini client, the tool schemas and the system prompt. The model is an oracle from the conversation so far to its candidate contents and function calls. A candidate's content is opaque text.
- `subprocess.run`: the process outcome is a parameter. It carries stdout, stderr and the exit code, or the text of the exception raised, a timeout among them. The 30-second limit, `cwd` and killing the child are not modelled.
- The real file system. It is a map from abspath to node, fixed for the whole session.
  - Files written by `write_file` or by executed scripts are not seen by later calls.
  - Symbolic links are not modelled. `abspath` does not resolve them, but `os.path.isfile`, `os.path.isdir`, `os.path.exists`, `os.listdir` and `open` do follow them.
  - Lookup is lexical: a path is looked up at its abspath. The operating system resolves the path instead, component by component. Two cases where the answers differ:
    - "main.py/" fails with ENOTDIR in the operating system. The model finds the file main.py.
    - "missing/../main.py" fails with ENOENT when the directory "missing" does not exist. The model finds main.py.
  - The same gap applies to the `isfile` test (functions/get_file_content.py:11), the `isdir` test (functions/get_files_info.py:12) and the `exists` test (functions/run_python_file.py:10).
  - Permissions and races are not modelled.
- `write_file`: its source is not part of this model. Its result is an opaque function of the working directory, path and content.
- `write_file`'s signature is inferred from its schema (main.py:86-101): working_directory, file_path and content, with no defaults. Dispatch binds its arguments against that signature.
- The text of the TypeError raised by a bad keyword binding is not modelled. Such a call ends the session as `Crashed`, since nothing in main.py catches it.
- Non-string and null argument values from the model are not modelled. Arguments are a map from names to strings.
- Text encoding and decode errors are not modelled beyond an unreadable file carrying its error text. Characters are Unicode code points.
- Windows path rules are not modelled. Only `posixpath` is.
- Dispatch.CallFunction: builds a fresh argument map with working_directory forced. The source's `args` (main.py:116) is the call object's own dict, and main.py:145 writes working_directory into it in place. The injected key can therefore appear in the model turn already appended at main.py:168. The model's history keeps the model's own arguments.
- Session.SessionExhausts: stated for a model whose every response has calls that all return. A crash ends the session early, as `Session.CallEach` states.
- FileContent.ContentOrError: does not model exceptions raised by `os.path.abspath` or `os.path.join` themselves. Both are total on strings here.
- RunPython.CommonPathNeverRaises: assumes an absolute current directory, as `os.getcwd()` returns. With a relative one, commonpath's mixed-path ValueError is modelled as `Err` but not characterised.
