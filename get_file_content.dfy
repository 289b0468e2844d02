/** functions/get_file_content.py: read a file under the working directory,
    capped at MAX_CHARS characters. */
module FileContent {
  import opened Text
  import opened PosixPath
  import opened Containment
  import opened FileSystem

  const MAX_CHARS: nat := 10000

  /** f.read(n) on a text file positioned at character `pos`: the next
      min(n, |data| - pos) characters, and nothing at or past the end. */
  function Read(data: string, pos: nat, n: nat): (r: string)
    ensures |r| <= n
    ensures pos >= |data| ==> r == ""
    ensures pos < |data| ==> |r| == (if n <= |data| - pos then n else |data| - pos)
    ensures pos < |data| ==> StartsWith(data[pos..], r)
  {
    var from := if pos <= |data| then pos else |data|;
    var to := if from + n <= |data| then from + n else |data|;
    assert from < |data| ==> data[from..][..to - from] == data[from..to];
    data[from..to]
  }

  /** The f-string renders MAX_CHARS as "10000". */
  function TruncationMarker(filePath: string): string {
    "[...File \"" + filePath + "\" truncated at 10000 characters...]"
  }

  /** The read at lines 14-19: MAX_CHARS characters, then a probe of one more
      character to decide whether to append the marker. A file of at most
      MAX_CHARS characters comes back verbatim; a longer one as exactly its
      first MAX_CHARS characters and the marker. */
  function ReadCapped(data: string, filePath: string): (r: string)
    ensures |data| <= MAX_CHARS ==> r == data
    ensures |data| > MAX_CHARS ==> r == data[..MAX_CHARS] + TruncationMarker(filePath)
  {
    var content := Read(data, 0, MAX_CHARS);
    assert |data| <= MAX_CHARS ==> content == data;
    if Read(data, |content|, 1) != "" then content + TruncationMarker(filePath) else content
  }

  function OutsideError(filePath: string): string {
    ErrorText("Cannot read \"" + filePath + "\" as it is outside the permitted working directory")
  }

  function NotRegularFileError(filePath: string): string {
    ErrorText("File not found or is not a regular file: \"" + filePath + "\"")
  }

  /** get_file_content(working_directory, file_path), with os.getcwd() as
      `cwd`. A read that raises (a decode or permission error) becomes
      "Error: " and the exception's text. */
  function GetFileContent(fs: Fs, cwd: string, wd: string, filePath: string): (r: string)
    ensures !StartsWith(r, "Error: ") ==> PrefixGuard(cwd, wd, filePath) && IsFile(fs, cwd, Join(wd, filePath))
  {
    var full := Join(wd, filePath);
    if !PrefixGuard(cwd, wd, filePath) then OutsideError(filePath)
    else if !IsFile(fs, cwd, full) then NotRegularFileError(filePath)
    else match Lookup(fs, cwd, full).value.content
      case Err(message) => ErrorText(message)
      case Ok(data) => ReadCapped(data, filePath)
  }

  // ---- properties ----

  /** A path outside the working directory is refused before the file
      system is consulted at all. */
  lemma OutsideRefused(fs: Fs, cwd: string, wd: string, filePath: string)
    requires !PrefixGuard(cwd, wd, filePath)
    ensures GetFileContent(fs, cwd, wd, filePath) == OutsideError(filePath)
  {
  }

  /** Inside the working directory, anything but a regular file is refused. */
  lemma NotRegularRefused(fs: Fs, cwd: string, wd: string, filePath: string)
    requires PrefixGuard(cwd, wd, filePath) && !IsFile(fs, cwd, Join(wd, filePath))
    ensures GetFileContent(fs, cwd, wd, filePath) == NotRegularFileError(filePath)
  {
  }

  /** Every outcome is either the (possibly truncated) text of a readable
      regular file the guard admitted, or a message starting "Error: ". */
  lemma ContentOrError(fs: Fs, cwd: string, wd: string, filePath: string)
    ensures var r := GetFileContent(fs, cwd, wd, filePath);
      StartsWith(r, "Error: ")
      || (PrefixGuard(cwd, wd, filePath)
          && Lookup(fs, cwd, Join(wd, filePath)) == Some(File(Ok(ReadFrom(fs, cwd, wd, filePath))))
          && r == ReadCapped(ReadFrom(fs, cwd, wd, filePath), filePath))
  {
    var full := Join(wd, filePath);
    if PrefixGuard(cwd, wd, filePath) && IsFile(fs, cwd, full) {
      var n := Lookup(fs, cwd, full).value;
      if n.content.Ok? {
        assert n == File(Ok(ReadFrom(fs, cwd, wd, filePath)));
      }
    }
  }

  /** The text of the regular file a path names, or "" when there is none. */
  function ReadFrom(fs: Fs, cwd: string, wd: string, filePath: string): string {
    var n := Lookup(fs, cwd, Join(wd, filePath));
    if n.Some? && n.value.File? && n.value.content.Ok? then n.value.content.value else ""
  }

  /** A readable regular file the guard admits is returned, capped. */
  lemma ReadsAdmittedFile(fs: Fs, cwd: string, wd: string, filePath: string, data: string)
    requires PrefixGuard(cwd, wd, filePath)
    requires Lookup(fs, cwd, Join(wd, filePath)) == Some(File(Ok(data)))
    ensures GetFileContent(fs, cwd, wd, filePath) == ReadCapped(data, filePath)
  {
  }

  /** The string test lets a sibling of the working directory through:
      "../<d><x>/<f>" from "./<d>" reads the sibling's file. */
  lemma SiblingFileRead(fs: Fs, home: seq<string>, d: string, x: string, f: string, data: string)
    requires home != [] && AllNames(home) && IsName(d) && IsName(f)
    requires x != [] && '/' !in x
    requires "/" + JoinWith(home + [d + x, f]) in fs
    requires fs["/" + JoinWith(home + [d + x, f])] == File(Ok(data))
    ensures GetFileContent(fs, "/" + JoinWith(home), "./" + d, "../" + d + x + "/" + f)
         == ReadCapped(data, "../" + d + x + "/" + f)
  {
    var cwd, wd, path := "/" + JoinWith(home), "./" + d, "../" + d + x + "/" + f;
    var full := Join(wd, path);
    SiblingExample(home, d, x, f);
    AbsPathShape(cwd, full);
    assert Slashes(1) == "/";
    assert AbsPath(cwd, full) == "/" + JoinWith(home + [d + x, f]);
    assert full != "" by {
      assert !IsAbs(path) by {
        assert path[..1][0] == '.';
      }
    }
    ReadsAdmittedFile(fs, cwd, wd, path, data);
  }

  /** An absolute path whose first name differs from the current
      directory's, such as /etc/passwd, is refused as outside. */
  lemma ForeignFileRefused(fs: Fs, home: seq<string>, d: string, other: seq<string>)
    requires home != [] && AllNames(home) && IsName(d)
    requires other != [] && AllNames(other) && other[0] != home[0]
    ensures GetFileContent(fs, "/" + JoinWith(home), "./" + d, "/" + JoinWith(other))
         == OutsideError("/" + JoinWith(other))
  {
    ForeignRootRejected(home, d, other);
  }
}
