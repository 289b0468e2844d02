/** functions/run_python_file.py: run a Python file under the working
    directory and report what it printed and how it exited. */
module RunPython {
  import opened Text
  import opened PosixPath
  import opened Containment
  import opened FileSystem

  /** What subprocess.run(['python3', file_path], cwd=working_directory,
      timeout=30) came back with: the captured text and exit status, or the
      text of the exception it raised (a timeout, a missing interpreter). */
  datatype Process =
    | Completed(stdout: string, stderr: string, returnCode: int)
    | Failed(message: string)

  const STDOUT_TAG := "STDOUT:\n"
  const STDERR_TAG := "STDERR:\n"
  const EXIT_TAG := "Process exited with code "
  const NO_OUTPUT := "No output produced."

  function StdoutBlock(stdout: string): string {
    if Blank(stdout) then "" else STDOUT_TAG + stdout + "\n"
  }

  function StderrBlock(stderr: string): string {
    if Blank(stderr) then "" else STDERR_TAG + stderr + "\n"
  }

  function ExitLine(returnCode: int): string {
    if returnCode == 0 then "" else EXIT_TAG + IntToString(returnCode)
  }

  /** The reported text, case by case: a non-zero exit keeps every block
      intact and ends with the exit line; otherwise the last block present
      loses its trailing whitespace; with nothing to report, a fixed
      sentence. The text is never empty, and a failed run's ends with its
      exit status. */
  function OutputText(stdout: string, stderr: string, returnCode: int): (r: string)
    ensures r != ""
    ensures returnCode != 0 ==> EndsWith(r, EXIT_TAG + IntToString(returnCode))
  {
    if returnCode != 0 then
      var r := StdoutBlock(stdout) + StderrBlock(stderr) + ExitLine(returnCode);
      assert r[|r| - |ExitLine(returnCode)|..] == ExitLine(returnCode);
      r
    else if !Blank(stderr) then StdoutBlock(stdout) + STDERR_TAG + RStrip(stderr)
    else if !Blank(stdout) then STDOUT_TAG + RStrip(stdout)
    else NO_OUTPUT
  }

  lemma RStripAfterBlock(head: string, body: string)
    requires !Blank(body)
    ensures RStrip(head + body + "\n") == head + RStrip(body)
  {
    assert !Blank(body + "\n") by {
      var i :| 0 <= i < |body| && !IsSpace(body[i]);
      assert (body + "\n")[i] == body[i];
    }
    assert head + body + "\n" == head + (body + "\n");
    RStripKeepsPrefix(head, body + "\n");
    assert (body + "\n")[..|body + "\n"| - 1] == body;
  }

  /** What lines 24-30 accumulate before the strip. */
  function RawOutput(stdout: string, stderr: string, returnCode: int): string {
    StdoutBlock(stdout) + StderrBlock(stderr) + ExitLine(returnCode)
  }

  lemma RawStartsPlain(stdout: string, stderr: string, returnCode: int)
    requires RawOutput(stdout, stderr, returnCode) != ""
    ensures LStrip(RawOutput(stdout, stderr, returnCode)) == RawOutput(stdout, stderr, returnCode)
  {
    var raw := RawOutput(stdout, stderr, returnCode);
    if !Blank(stdout) {
      assert raw[0] == 'S';
    } else if !Blank(stderr) {
      assert raw[0] == 'S';
    } else {
      assert raw[0] == 'P';
    }
    LStripNoop(raw);
  }

  lemma StripWithExit(stdout: string, stderr: string, returnCode: int)
    requires returnCode != 0
    ensures Strip(RawOutput(stdout, stderr, returnCode)) == RawOutput(stdout, stderr, returnCode) != ""
  {
    var raw := RawOutput(stdout, stderr, returnCode);
    var digits := IntToString(returnCode);
    var head := StdoutBlock(stdout) + StderrBlock(stderr);
    ConcatAssoc(head, EXIT_TAG, digits);
    assert raw == (head + EXIT_TAG) + digits;
    assert raw[|raw| - 1] == digits[|digits| - 1];
    RawStartsPlain(stdout, stderr, returnCode);
    RStripNoop(raw);
  }

  lemma StripWithStderr(stdout: string, stderr: string)
    requires !Blank(stderr)
    ensures Strip(RawOutput(stdout, stderr, 0)) == StdoutBlock(stdout) + STDERR_TAG + RStrip(stderr) != ""
  {
    var b, e := StdoutBlock(stdout), StderrBlock(stderr);
    assert RawOutput(stdout, stderr, 0) == b + e;
    assert e == (STDERR_TAG + stderr) + "\n";
    ConcatAssoc(b, STDERR_TAG + stderr, "\n");
    ConcatAssoc(b, STDERR_TAG, stderr);
    RawStartsPlain(stdout, stderr, 0);
    RStripAfterBlock(b + STDERR_TAG, stderr);
  }

  lemma StripWithStdout(stdout: string, stderr: string)
    requires Blank(stderr) && !Blank(stdout)
    ensures Strip(RawOutput(stdout, stderr, 0)) == STDOUT_TAG + RStrip(stdout) != ""
  {
    assert RawOutput(stdout, stderr, 0) == STDOUT_TAG + stdout + "\n";
    RawStartsPlain(stdout, stderr, 0);
    RStripAfterBlock(STDOUT_TAG, stdout);
  }

  /** Stripping the accumulated text, with the fallback, gives the case
      table. */
  lemma StripRawOutput(stdout: string, stderr: string, returnCode: int)
    ensures var s := Strip(RawOutput(stdout, stderr, returnCode));
      (if s != "" then s else NO_OUTPUT) == OutputText(stdout, stderr, returnCode)
  {
    if returnCode != 0 {
      StripWithExit(stdout, stderr, returnCode);
    } else if !Blank(stderr) {
      StripWithStderr(stdout, stderr);
    } else if !Blank(stdout) {
      StripWithStdout(stdout, stderr);
    } else {
      assert RawOutput(stdout, stderr, returnCode) == "";
    }
  }

  /** Lines 24-32 as the source writes them: conditional appends to
      `output`, then strip() with a fallback. */
  method FormatOutput(stdout: string, stderr: string, returnCode: int) returns (r: string)
    ensures r == OutputText(stdout, stderr, returnCode)
  {
    var output := "";
    if Strip(stdout) != "" {
      output := output + (STDOUT_TAG + stdout + "\n");
    }
    if Strip(stderr) != "" {
      output := output + (STDERR_TAG + stderr + "\n");
    }
    if returnCode != 0 {
      output := output + (EXIT_TAG + IntToString(returnCode));
    }
    RawByStrip(stdout, stderr, returnCode);
    StripRawOutput(stdout, stderr, returnCode);
    var stripped := Strip(output);
    if stripped != "" {
      r := stripped;
    } else {
      r := NO_OUTPUT;
    }
  }

  /** The three conditional appends, guarded by strip(), build RawOutput. */
  lemma RawByStrip(stdout: string, stderr: string, returnCode: int)
    ensures var o := if Strip(stdout) != "" then "" + (STDOUT_TAG + stdout + "\n") else "";
      var e := if Strip(stderr) != "" then o + (STDERR_TAG + stderr + "\n") else o;
      (if returnCode != 0 then e + (EXIT_TAG + IntToString(returnCode)) else e) == RawOutput(stdout, stderr, returnCode)
  {
    Appends(Strip(stdout) != "", STDOUT_TAG + stdout + "\n", Strip(stderr) != "", STDERR_TAG + stderr + "\n",
            returnCode != 0, EXIT_TAG + IntToString(returnCode));
  }

  /** Three conditional appends to an empty text. */
  lemma Appends(p: bool, a: string, q: bool, b: string, r: bool, c: string)
    ensures var o := if p then "" + a else "";
      var e := if q then o + b else o;
      (if r then e + c else e) == (if p then a else "") + (if q then b else "") + (if r then c else "")
  {
    var o := if p then "" + a else "";
    assert o == (if p then a else "");
    var e := if q then o + b else o;
    assert e == o + (if q then b else "");
    assert (if r then e + c else e) == e + (if r then c else "");
  }

  // ---- properties of the reported text ----

  lemma TagLetters()
    ensures STDOUT_TAG[0] == 'S' && STDERR_TAG[0] == 'S' && EXIT_TAG[0] == 'P' && NO_OUTPUT[0] == 'N'
    ensures STDOUT_TAG[3] == 'O' && STDERR_TAG[3] == 'E'
    ensures !IsSpace(NO_OUTPUT[0]) && !IsSpace(NO_OUTPUT[|NO_OUTPUT| - 1])
  {
  }

  /** The text is never empty and carries no whitespace at either end. */
  lemma OutputStripped(stdout: string, stderr: string, returnCode: int)
    ensures var r := OutputText(stdout, stderr, returnCode);
      r != "" && !IsSpace(r[0]) && !IsSpace(r[|r| - 1])
  {
    var s := Strip(RawOutput(stdout, stderr, returnCode));
    StripRawOutput(stdout, stderr, returnCode);
    FallbackEnds(s, OutputText(stdout, stderr, returnCode));
  }

  /** A stripped text, or the fallback sentence when it is empty, has no
      whitespace at either end. */
  lemma FallbackEnds(s: string, r: string)
    requires r == (if s != "" then s else NO_OUTPUT)
    requires s == "" || (!IsSpace(s[0]) && !IsSpace(s[|s| - 1]))
    ensures r != "" && !IsSpace(r[0]) && !IsSpace(r[|r| - 1])
  {
    TagLetters();
  }

  lemma StdoutBlockOpens(stdout: string)
    requires !Blank(stdout)
    ensures StartsWith(StdoutBlock(stdout), STDOUT_TAG)
  {
    StartsWithConcat(STDOUT_TAG, stdout);
    StartsWithAppend(STDOUT_TAG + stdout, STDOUT_TAG, "\n");
  }

  lemma StderrBlockOpens(stderr: string)
    requires !Blank(stderr)
    ensures StartsWith(StderrBlock(stderr), STDERR_TAG)
  {
    StartsWithConcat(STDERR_TAG, stderr);
    StartsWithAppend(STDERR_TAG + stderr, STDERR_TAG, "\n");
  }

  lemma OpensWithStdout(stdout: string, stderr: string, returnCode: int)
    requires !Blank(stdout)
    ensures StartsWith(OutputText(stdout, stderr, returnCode), STDOUT_TAG)
  {
    var b := StdoutBlock(stdout);
    StdoutBlockOpens(stdout);
    if returnCode != 0 {
      StartsWithAppend(b, STDOUT_TAG, StderrBlock(stderr));
      StartsWithAppend(b + StderrBlock(stderr), STDOUT_TAG, ExitLine(returnCode));
    } else if !Blank(stderr) {
      StartsWithAppend(b, STDOUT_TAG, STDERR_TAG);
      StartsWithAppend(b + STDERR_TAG, STDOUT_TAG, RStrip(stderr));
    } else {
      StartsWithConcat(STDOUT_TAG, RStrip(stdout));
    }
  }

  lemma OpensWithStderr(stdout: string, stderr: string, returnCode: int)
    requires Blank(stdout) && !Blank(stderr)
    ensures StartsWith(OutputText(stdout, stderr, returnCode), STDERR_TAG)
  {
    var b := StdoutBlock(stdout);
    assert b == "";
    if returnCode != 0 {
      var x := StderrBlock(stderr) + ExitLine(returnCode);
      StderrBlockOpens(stderr);
      StartsWithAppend(StderrBlock(stderr), STDERR_TAG, ExitLine(returnCode));
      ConcatAssoc(b, StderrBlock(stderr), ExitLine(returnCode));
      assert b + x == x;
    } else {
      var x := STDERR_TAG + RStrip(stderr);
      StartsWithConcat(STDERR_TAG, RStrip(stderr));
      ConcatAssoc(b, STDERR_TAG, RStrip(stderr));
      assert b + x == x;
    }
  }

  /** Which tag the text opens with, when it is not the fallback. */
  lemma OutputOpening(stdout: string, stderr: string, returnCode: int)
    ensures var r := OutputText(stdout, stderr, returnCode);
      && (!Blank(stdout) ==> StartsWith(r, STDOUT_TAG))
      && (Blank(stdout) && !Blank(stderr) ==> StartsWith(r, STDERR_TAG))
      && (Blank(stdout) && Blank(stderr) && returnCode != 0 ==> StartsWith(r, EXIT_TAG))
      && (Blank(stdout) && Blank(stderr) && returnCode == 0 ==> r == NO_OUTPUT)
  {
    if !Blank(stdout) {
      OpensWithStdout(stdout, stderr, returnCode);
    } else if !Blank(stderr) {
      OpensWithStderr(stdout, stderr, returnCode);
    } else if returnCode != 0 {
      assert OutputText(stdout, stderr, returnCode) == EXIT_TAG + IntToString(returnCode);
      StartsWithConcat(EXIT_TAG, IntToString(returnCode));
    }
  }

  /** The STDOUT block leads exactly when stdout has a non-space character. */
  lemma StdoutLeadsIff(stdout: string, stderr: string, returnCode: int)
    ensures StartsWith(OutputText(stdout, stderr, returnCode), STDOUT_TAG) <==> !Blank(stdout)
  {
    var r := OutputText(stdout, stderr, returnCode);
    OutputOpening(stdout, stderr, returnCode);
    TagLetters();
    if Blank(stdout) {
      if !Blank(stderr) {
        StartsWithDiffers(r, STDOUT_TAG, STDERR_TAG, 3);
      } else if returnCode != 0 {
        StartsWithDiffers(r, STDOUT_TAG, EXIT_TAG, 0);
      } else {
        StartsWithDiffers(r, STDOUT_TAG, NO_OUTPUT, 0);
      }
    }
  }

  /** With something written to stderr, its block follows the STDOUT block
      (or leads when stdout was blank). */
  lemma StderrFollowsStdout(stdout: string, stderr: string, returnCode: int)
    requires !Blank(stderr)
    ensures StartsWith(OutputText(stdout, stderr, returnCode), StdoutBlock(stdout) + STDERR_TAG)
  {
    var b := StdoutBlock(stdout);
    if returnCode != 0 {
      StderrBlockOpens(stderr);
      StartsWithAppend(StderrBlock(stderr), STDERR_TAG, ExitLine(returnCode));
      StartsWithPrepend(b, StderrBlock(stderr) + ExitLine(returnCode), STDERR_TAG);
      ConcatAssoc(b, StderrBlock(stderr), ExitLine(returnCode));
    } else {
      StartsWithConcat(b + STDERR_TAG, RStrip(stderr));
    }
  }

  /** A stream holding only whitespace contributes no block: the text is
      the one an empty stream would give. */
  lemma BlankStreamsIgnored(stdout: string, stderr: string, returnCode: int)
    ensures Blank(stdout) ==> OutputText(stdout, stderr, returnCode) == OutputText("", stderr, returnCode)
    ensures Blank(stderr) ==> OutputText(stdout, stderr, returnCode) == OutputText(stdout, "", returnCode)
  {
  }

  /** With a non-zero exit status nothing is stripped: the accumulated text
      is reported as it stands. */
  lemma ExitCodeLast(stdout: string, stderr: string, returnCode: int)
    requires returnCode != 0
    ensures OutputText(stdout, stderr, returnCode) == RawOutput(stdout, stderr, returnCode)
  {
  }

  /** The fallback sentence appears exactly when there was nothing to
      report. */
  lemma NoOutputIff(stdout: string, stderr: string, returnCode: int)
    ensures OutputText(stdout, stderr, returnCode) == NO_OUTPUT
        <==> Blank(stdout) && Blank(stderr) && returnCode == 0
  {
    OutputOpening(stdout, stderr, returnCode);
    TagLetters();
  }

  // ---- the tool ----

  function ExecError(message: string): string {
    ErrorText("executing Python file: " + message)
  }

  function OutsideError(filePath: string): string {
    ErrorText("Cannot execute \"" + filePath + "\" as it is outside the permitted working directory")
  }

  function NotFoundError(filePath: string): string {
    ErrorText("File \"" + filePath + "\" not found.")
  }

  function NotPythonError(filePath: string): string {
    ErrorText("File \"" + filePath + "\" is not a Python file.")
  }

  /** run_python_file(working_directory, file_path), with os.getcwd() as
      `cwd` and `process` standing for what subprocess.run would do. The
      ValueError commonpath raises on mixed paths is caught at lines 34-35.
      Any text that is not an error comes from a completed run of a file
      that passed all three guards. */
  function RunPythonFile(fs: Fs, cwd: string, wd: string, filePath: string, process: Process): (r: string)
    ensures !StartsWith(r, "Error: ") ==>
      && CommonGuard(cwd, wd, filePath) == Ok(true)
      && Exists(fs, cwd, Join(wd, filePath)) && EndsWith(Join(wd, filePath), ".py")
      && process.Completed?
  {
    var full := Join(wd, filePath);
    match CommonGuard(cwd, wd, filePath)
    case Err(m) => ExecError(m)
    case Ok(inside) =>
      if !inside then OutsideError(filePath)
      else if !Exists(fs, cwd, full) then NotFoundError(filePath)
      else if !EndsWith(full, ".py") then NotPythonError(filePath)
      else match process
        case Failed(m) => ExecError(m)
        case Completed(out, err, code) => OutputText(out, err, code)
  }

  /** The guards run in order: containment, existence, suffix; the process
      is consulted only after all three pass. */
  lemma GuardOrder(fs: Fs, cwd: string, wd: string, filePath: string, process: Process)
    ensures var r := RunPythonFile(fs, cwd, wd, filePath, process);
      var full := Join(wd, filePath);
      && (CommonGuard(cwd, wd, filePath) == Ok(false) ==> r == OutsideError(filePath))
      && (CommonGuard(cwd, wd, filePath) == Ok(true) && !Exists(fs, cwd, full) ==> r == NotFoundError(filePath))
      && (CommonGuard(cwd, wd, filePath) == Ok(true) && Exists(fs, cwd, full) && !EndsWith(full, ".py")
          ==> r == NotPythonError(filePath))
  {
  }

  lemma NotExecError(message: string)
    requires message != [] && message[0] != 'e'
    ensures !StartsWith(ErrorText(message), "Error: executing")
  {
    StartsWithDiffers(ErrorText(message), "Error: executing", ErrorText(message), 7);
  }

  /** The reported text of a completed run never reads as an exception. */
  lemma OutputNotExecError(stdout: string, stderr: string, returnCode: int)
    ensures !StartsWith(OutputText(stdout, stderr, returnCode), "Error: executing")
  {
    var r := OutputText(stdout, stderr, returnCode);
    var tag := "Error: executing";
    OutputOpening(stdout, stderr, returnCode);
    TagLetters();
    if !Blank(stdout) {
      StartsWithDiffers(r, tag, STDOUT_TAG, 0);
    } else if !Blank(stderr) {
      StartsWithDiffers(r, tag, STDERR_TAG, 0);
    } else if returnCode != 0 {
      StartsWithDiffers(r, tag, EXIT_TAG, 0);
    } else {
      StartsWithDiffers(r, tag, NO_OUTPUT, 0);
    }
  }

  /** Under an absolute current directory commonpath never raises, so the
      only "executing Python file" errors come from the process itself. */
  lemma CommonPathNeverRaises(fs: Fs, cwd: string, wd: string, filePath: string, process: Process)
    requires IsAbs(cwd)
    ensures CommonGuard(cwd, wd, filePath).Ok?
    ensures StartsWith(RunPythonFile(fs, cwd, wd, filePath, process), "Error: executing") ==> process.Failed?
  {
    CommonGuardExact(cwd, wd, filePath);
    if !process.Failed? {
      var full := Join(wd, filePath);
      if CommonGuard(cwd, wd, filePath) == Ok(false) {
        NotExecError("Cannot execute \"" + filePath + "\" as it is outside the permitted working directory");
      } else if !Exists(fs, cwd, full) {
        NotExecError("File \"" + filePath + "\" not found.");
      } else if !EndsWith(full, ".py") {
        NotExecError("File \"" + filePath + "\" is not a Python file.");
      } else {
        OutputNotExecError(process.stdout, process.stderr, process.returnCode);
      }
    }
  }

  /** Unlike the string test of get_file_content, commonpath refuses the
      sibling "../<d><x>/<f>" of "./<d>" before anything else is looked at. */
  lemma SiblingRefused(fs: Fs, home: seq<string>, d: string, x: string, f: string, process: Process)
    requires home != [] && AllNames(home) && IsName(d) && IsName(f)
    requires x != [] && '/' !in x
    ensures RunPythonFile(fs, "/" + JoinWith(home), "./" + d, "../" + d + x + "/" + f, process)
         == OutsideError("../" + d + x + "/" + f)
  {
    SiblingExample(home, d, x, f);
  }

  /** A failed run, a timeout among them, is reported as an error. */
  lemma FailedRunReported(fs: Fs, cwd: string, wd: string, filePath: string, message: string)
    requires CommonGuard(cwd, wd, filePath) == Ok(true)
    requires Exists(fs, cwd, Join(wd, filePath)) && EndsWith(Join(wd, filePath), ".py")
    ensures RunPythonFile(fs, cwd, wd, filePath, Failed(message)) == ExecError(message)
  {
  }
}
