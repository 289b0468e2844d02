/** functions/get_files_info.py: list a directory under the working
    directory, one line per entry. */
module FilesInfo {
  import opened Text
  import opened PosixPath
  import opened Containment
  import opened FileSystem

  const SIZE_LABEL := ": file_size="
  const TRUE_TAIL := " bytes, is_dir=True\n"
  const FALSE_TAIL := " bytes, is_dir=False\n"

  /** The text after the size: str() of the is_dir flag and the newline. */
  function Tail(isDir: bool): (r: string)
    ensures r == " bytes, is_dir=" + BoolToString(isDir) + "\n"
  {
    if isDir then TRUE_TAIL else FALSE_TAIL
  }

  /** `- <name>: file_size=<size> bytes, is_dir=<True|False>` and a newline. */
  function EntryLine(name: string, size: nat, isDir: bool): (r: string)
    ensures StartsWith(r, "- " + name + SIZE_LABEL)
    ensures r[|r| - 1] == '\n'
  {
    var head := "- " + name + SIZE_LABEL;
    var r := head + NatToString(size) + Tail(isDir);
    assert r[..|head|] == head;
    r
  }

  /** The loop at lines 19-24 as a value: the concatenated lines, or the
      text of the first os.path.getsize failure, which leaves the loop. A
      listing is empty exactly when the directory is. */
  function Listing(entries: seq<Entry>): (r: Result<string>)
    ensures r.Ok? ==> (r.value == "" <==> entries == [])
    decreases |entries|
  {
    if entries == [] then Ok("")
    else
      var last := entries[|entries| - 1];
      match Listing(entries[..|entries| - 1])
      case Err(m) => Err(m)
      case Ok(s) =>
        match last.size
        case Err(m) => Err(m)
        case Ok(n) => Ok(s + EntryLine(last.name, n, last.isDir))
  }

  function NotADirectoryError(directory: string): string {
    ErrorText("\"" + directory + "\" is not a directory")
  }

  function OutsideError(directory: string): string {
    ErrorText("Cannot list \"" + directory + "\" as it is outside the permitted working directory")
  }

  /** The directory argument after the default at lines 5-6. */
  function DirectoryOrDot(directory: Option<string>): string {
    if directory.None? then "." else directory.value
  }

  /** Lines 5-20 up to the loop: the entries of a directory both tests
      admit, or the text the tool returns instead (Err holds that text). */
  function Admitted(fs: Fs, cwd: string, wd: string, directory: Option<string>): (r: Result<seq<Entry>>)
    ensures r.Err? ==> StartsWith(r.message, "Error: ")
    ensures var dir := DirectoryOrDot(directory); var full := Join(wd, dir);
      r.Ok? <==> IsDir(fs, cwd, full) && PrefixGuard(cwd, wd, dir) && Lookup(fs, cwd, full).value.listing.Ok?
    ensures r.Ok? ==> Lookup(fs, cwd, Join(wd, DirectoryOrDot(directory))).value.listing == Ok(r.value)
  {
    var dir := DirectoryOrDot(directory);
    var full := Join(wd, dir);
    if !IsDir(fs, cwd, full) then Err(NotADirectoryError(dir))
    else if !PrefixGuard(cwd, wd, dir) then Err(OutsideError(dir))
    else match Lookup(fs, cwd, full).value.listing
      case Err(m) => Err(ErrorText(m))
      case Ok(entries) => Ok(entries)
  }

  /** get_files_info(working_directory, directory), with os.getcwd() as
      `cwd`; `None` stands for an omitted directory. Any text that is not an
      error lists a directory that passed both tests. */
  function FilesInfo(fs: Fs, cwd: string, wd: string, directory: Option<string>): (r: string)
    ensures !StartsWith(r, "Error: ") ==>
      IsDir(fs, cwd, Join(wd, DirectoryOrDot(directory))) && PrefixGuard(cwd, wd, DirectoryOrDot(directory))
  {
    match Admitted(fs, cwd, wd, directory)
    case Err(text) => text
    case Ok(entries) =>
      match Listing(entries)
      case Err(m) => ErrorText(m)
      case Ok(s) => s
  }

  /** A failure within a prefix of the listing is the listing's failure. */
  lemma {:induction false} ListingErrPrefix(entries: seq<Entry>, k: nat, m: string)
    requires k <= |entries| && Listing(entries[..k]) == Err(m)
    ensures Listing(entries) == Err(m)
    decreases |entries| - k
  {
    if k < |entries| {
      assert entries[..k + 1][..k] == entries[..k];
      ListingErrPrefix(entries, k + 1, m);
    } else {
      assert entries[..k] == entries;
    }
  }

  /** The tool as the source runs it: the tests, then the loop. */
  method GetFilesInfo(fs: Fs, cwd: string, wd: string, directory: Option<string>) returns (r: string)
    ensures r == FilesInfo(fs, cwd, wd, directory)
  {
    match Admitted(fs, cwd, wd, directory) {
      case Err(text) =>
        return text;
      case Ok(entries) =>
        var listed := ListEntries(entries);
        match listed {
          case Err(m) => return ErrorText(m);
          case Ok(s) => return s;
        }
    }
  }

  /** Lines 19-24: one line appended per entry; the first size that cannot
      be read leaves the loop with its error. */
  method ListEntries(entries: seq<Entry>) returns (r: Result<string>)
    ensures r == Listing(entries)
  {
    var contents := "";
    for i := 0 to |entries|
      invariant Listing(entries[..i]) == Ok(contents)
    {
      assert entries[..i + 1][..i] == entries[..i];
      match entries[i].size {
        case Err(m) =>
          ListingErrPrefix(entries, i + 1, m);
          return Err(m);
        case Ok(n) =>
          contents := contents + EntryLine(entries[i].name, n, entries[i].isDir);
      }
    }
    assert entries[..|entries|] == entries;
    return Ok(contents);
  }

  // ---- reading a listing line back ----

  datatype ParsedLine = ParsedLine(name: string, size: nat, isDir: bool)

  /** The longest run of digits at the end of `s`. */
  function TrailingDigits(s: string): (r: string)
    ensures |r| <= |s| && r == s[|s| - |r|..]
    ensures forall i | 0 <= i < |r| :: IsDigit(r[i])
    decreases |s|
  {
    if s != [] && IsDigit(s[|s| - 1]) then
      var r := TrailingDigits(s[..|s| - 1]);
      assert s[..|s| - 1][|s| - 1 - |r|..] + [s[|s| - 1]] == s[|s| - |r| - 1..];
      r + [s[|s| - 1]]
    else []
  }

  /** Takes the is_dir tail off a line. */
  function SplitTail(line: string): Option<(string, bool)> {
    if EndsWith(line, TRUE_TAIL) then Some((line[..|line| - |TRUE_TAIL|], true))
    else if EndsWith(line, FALSE_TAIL) then Some((line[..|line| - |FALSE_TAIL|], false))
    else None
  }

  /** Takes the decimal size off what precedes the tail, and the name out
      from between "- " and ": file_size=". */
  function SplitSize(rest: string): Option<(string, nat)> {
    var digits := TrailingDigits(rest);
    var head := rest[..|rest| - |digits|];
    if digits == [] || |head| < 2 + |SIZE_LABEL| || !StartsWith(head, "- ") || !EndsWith(head, SIZE_LABEL) then None
    else Some((head[2..|head| - |SIZE_LABEL|], DecimalValue(digits)))
  }

  /** Reads a listing line from the right: the is_dir tail, the decimal
      size, and the name. */
  function ParseEntryLine(line: string): Option<ParsedLine> {
    match SplitTail(line)
    case None => None
    case Some((rest, isDir)) =>
      match SplitSize(rest)
      case None => None
      case Some((name, size)) => Some(ParsedLine(name, size, isDir))
  }

  lemma {:induction false} TrailingDigitsAfter(a: string, digits: string)
    requires a != [] && !IsDigit(a[|a| - 1])
    requires forall i | 0 <= i < |digits| :: IsDigit(digits[i])
    ensures TrailingDigits(a + digits) == digits
    decreases |digits|
  {
    if digits == [] {
      assert a + digits == a;
    } else {
      var s := a + digits;
      assert s[..|s| - 1] == a + digits[..|digits| - 1];
      TrailingDigitsAfter(a, digits[..|digits| - 1]);
      assert digits[..|digits| - 1] + [digits[|digits| - 1]] == digits;
    }
  }

  lemma EndsWithOwnTail(rest: string, tail: string)
    ensures EndsWith(rest + tail, tail) && (rest + tail)[..|rest + tail| - |tail|] == rest
  {
    assert (rest + tail)[|rest + tail| - |tail|..] == tail;
  }

  lemma FalseTailIsNotTrue(rest: string)
    ensures !EndsWith(rest + FALSE_TAIL, TRUE_TAIL)
  {
    var line := rest + FALSE_TAIL;
    var n := |line|;
    assert line[n - |TRUE_TAIL|] == FALSE_TAIL[1];
    assert FALSE_TAIL[1] != TRUE_TAIL[0];
    assert line[n - |TRUE_TAIL|..][0] != TRUE_TAIL[0];
  }

  lemma SplitTailOf(rest: string, isDir: bool)
    ensures SplitTail(rest + Tail(isDir)) == Some((rest, isDir))
  {
    EndsWithOwnTail(rest, Tail(isDir));
    if !isDir {
      FalseTailIsNotTrue(rest);
    }
  }

  lemma SplitSizeOf(name: string, size: nat)
    ensures SplitSize("- " + name + SIZE_LABEL + NatToString(size)) == Some((name, size))
  {
    var head := "- " + name + SIZE_LABEL;
    var digits := NatToString(size);
    var rest := head + digits;
    assert head[|head| - 1] == '=';
    TrailingDigitsAfter(head, digits);
    assert rest[..|rest| - |digits|] == head;
    assert head[..2] == "- ";
    assert head[|head| - |SIZE_LABEL|..] == SIZE_LABEL;
    assert head[2..|head| - |SIZE_LABEL|] == name;
    NatToStringRoundTrip(size);
  }

  /** Each listing line reads back to the entry's name, size and kind. */
  lemma ParseEntryLineRoundTrip(name: string, size: nat, isDir: bool)
    ensures ParseEntryLine(EntryLine(name, size, isDir)) == Some(ParsedLine(name, size, isDir))
  {
    var rest := "- " + name + SIZE_LABEL + NatToString(size);
    SplitTailOf(rest, isDir);
    SplitSizeOf(name, size);
  }

  // ---- the listing ----

  /** Each line of a listing has one newline, so a listing of names
      without newlines has exactly one line per entry. */
  lemma EntryLineNewlines(name: string, size: nat, isDir: bool)
    requires '\n' !in name
    ensures Count(EntryLine(name, size, isDir), '\n') == 1
  {
    var line := EntryLine(name, size, isDir);
    EntryLineEnds(name, size, isDir);
    CountAbsent(line[..|line| - 1], '\n');
    CountAppend(line[..|line| - 1], "\n", '\n');
  }

  lemma {:induction false} ListingNewlines(entries: seq<Entry>, s: string)
    requires Listing(entries) == Ok(s)
    requires forall i | 0 <= i < |entries| :: '\n' !in entries[i].name
    ensures Count(s, '\n') == |entries|
    decreases |entries|
  {
    if entries != [] {
      var init, last := entries[..|entries| - 1], entries[|entries| - 1];
      var s' := Listing(init).value;
      ListingNewlines(init, s');
      EntryLineNewlines(last.name, last.size.value, last.isDir);
      CountAppend(s', EntryLine(last.name, last.size.value, last.isDir), '\n');
    }
  }

  /** The line of an entry, or None when its size cannot be read. */
  function LineOf(e: Entry): Option<ParsedLine> {
    match e.size
    case Ok(n) => Some(ParsedLine(e.name, n, e.isDir))
    case Err(_) => None
  }

  /** The line of an entry whose size was read parses back to it. */
  lemma EntryReadsBack(e: Entry)
    requires e.size.Ok?
    ensures ParseEntryLine(EntryLine(e.name, e.size.value, e.isDir)) == LineOf(e)
  {
    ParseEntryLineRoundTrip(e.name, e.size.value, e.isDir);
  }

  /** A listing line's only newline is its last character. */
  lemma EntryLineEnds(name: string, size: nat, isDir: bool)
    requires '\n' !in name
    ensures var line := EntryLine(name, size, isDir);
      line != [] && line == line[..|line| - 1] + "\n" && '\n' !in line[..|line| - 1]
  {
    var digits := NatToString(size);
    assert forall i | 0 <= i < |digits| :: digits[i] != '\n';
    assert '\n' !in "- " && '\n' !in SIZE_LABEL;
    TailEnds(isDir);
    EndsLine("- " + name + SIZE_LABEL + digits, Tail(isDir));
  }

  lemma TailEnds(isDir: bool)
    ensures var t := Tail(isDir); t != [] && t == t[..|t| - 1] + "\n" && '\n' !in t[..|t| - 1]
  {
    var t, b := Tail(isDir), " bytes, is_dir=" + BoolToString(isDir);
    assert t == b + "\n";
    assert t[..|t| - 1] == b;
  }

  /** A text without newlines followed by a line end is one line. */
  lemma EndsLine(h: string, t: string)
    requires '\n' !in h
    requires t != [] && t == t[..|t| - 1] + "\n" && '\n' !in t[..|t| - 1]
    ensures var line := h + t;
      line != [] && line == line[..|line| - 1] + "\n" && '\n' !in line[..|line| - 1]
  {
    var line := h + t;
    assert line[..|line| - 1] == h + t[..|t| - 1];
    assert line == (h + t[..|t| - 1]) + "\n";
  }

  /** Each entry's listing line, "" for an entry whose size is unreadable. */
  function EntryText(e: Entry): string {
    match e.size
    case Ok(n) => EntryLine(e.name, n, e.isDir)
    case Err(_) => ""
  }

  function EntryTexts(entries: seq<Entry>): (r: seq<string>)
    ensures |r| == |entries|
    ensures forall i | 0 <= i < |entries| :: r[i] == EntryText(entries[i])
    decreases |entries|
  {
    if entries == [] then []
    else EntryTexts(entries[..|entries| - 1]) + [EntryText(entries[|entries| - 1])]
  }

  /** A successful listing of names without newlines splits into the
      entries' lines, one per entry, in listing order. */
  lemma {:induction false} ListingLines(entries: seq<Entry>, s: string)
    requires Listing(entries) == Ok(s)
    requires forall i | 0 <= i < |entries| :: '\n' !in entries[i].name
    ensures s == [] || s[|s| - 1] == '\n'
    ensures Lines(s) == EntryTexts(entries)
    decreases |entries|
  {
    if entries != [] {
      var init, last := entries[..|entries| - 1], entries[|entries| - 1];
      var s' := Listing(init).value;
      var line := EntryLine(last.name, last.size.value, last.isDir);
      ListingLines(init, s');
      EntryLineEnds(last.name, last.size.value, last.isDir);
      assert s == s' + line;
      assert EntryTexts(entries) == EntryTexts(init) + [line];
      LinesStep(s', line, EntryTexts(init));
    }
  }

  /** One more whole line after a text of whole lines. */
  lemma LinesStep(s: string, line: string, texts: seq<string>)
    requires s == [] || s[|s| - 1] == '\n'
    requires Lines(s) == texts
    requires line != [] && line == line[..|line| - 1] + "\n" && '\n' !in line[..|line| - 1]
    ensures (s + line)[|s + line| - 1] == '\n'
    ensures Lines(s + line) == texts + [line]
  {
    LinesAppend(s, line[..|line| - 1]);
  }

  /** Read back line by line, a successful listing of names without
      newlines gives each entry's name, size and kind, in listing order. */
  lemma ListingReadsBack(entries: seq<Entry>, s: string)
    requires Listing(entries) == Ok(s)
    requires forall i | 0 <= i < |entries| :: '\n' !in entries[i].name
    ensures |Lines(s)| == |entries|
    ensures forall i | 0 <= i < |entries| :: ParseEntryLine(Lines(s)[i]) == LineOf(entries[i])
  {
    ListingLines(entries, s);
    ListingOkIff(entries);
    forall i | 0 <= i < |entries|
      ensures ParseEntryLine(Lines(s)[i]) == LineOf(entries[i])
    {
      EntryReadsBack(entries[i]);
    }
  }

  lemma {:induction false} ListingOkAt(entries: seq<Entry>, i: nat)
    requires Listing(entries).Ok? && i < |entries|
    ensures entries[i].size.Ok?
    decreases |entries|
  {
    var init := entries[..|entries| - 1];
    if i < |init| {
      assert init[i] == entries[i];
      ListingOkAt(init, i);
    }
  }

  lemma {:induction false} SizesListingOk(entries: seq<Entry>)
    requires forall i | 0 <= i < |entries| :: entries[i].size.Ok?
    ensures Listing(entries).Ok?
    decreases |entries|
  {
    if entries != [] {
      var init := entries[..|entries| - 1];
      assert forall i | 0 <= i < |init| :: init[i] == entries[i];
      SizesListingOk(init);
    }
  }

  /** The listing succeeds exactly when every entry's size can be read. */
  lemma ListingOkIff(entries: seq<Entry>)
    ensures Listing(entries).Ok? <==> forall i | 0 <= i < |entries| :: entries[i].size.Ok?
  {
    if Listing(entries).Ok? {
      forall i | 0 <= i < |entries|
        ensures entries[i].size.Ok?
      {
        ListingOkAt(entries, i);
      }
    }
    if forall i | 0 <= i < |entries| :: entries[i].size.Ok? {
      SizesListingOk(entries);
    }
  }

  /** A failing listing reports the first entry whose size cannot be read. */
  lemma {:induction false} ListingFirstError(entries: seq<Entry>, m: string)
    requires Listing(entries) == Err(m)
    ensures exists k | 0 <= k < |entries| ::
      entries[k].size == Err(m) && forall j | 0 <= j < k :: entries[j].size.Ok?
    decreases |entries|
  {
    var init, last := entries[..|entries| - 1], entries[|entries| - 1];
    if Listing(init).Err? {
      ListingFirstError(init, m);
      var k :| 0 <= k < |init| && init[k].size == Err(m) && forall j | 0 <= j < k :: init[j].size.Ok?;
      assert entries[k] == init[k];
      assert forall j | 0 <= j < k :: entries[j] == init[j];
    } else {
      ListingOkIff(init);
      var k := |entries| - 1;
      assert forall j | 0 <= j < k :: entries[j] == init[j];
      assert entries[k].size == Err(m);
    }
  }

  /** An empty directory lists as the empty text. */
  lemma EmptyDirectory(fs: Fs, cwd: string, wd: string, directory: Option<string>)
    requires var full := Join(wd, DirectoryOrDot(directory));
      IsDir(fs, cwd, full) && PrefixGuard(cwd, wd, DirectoryOrDot(directory))
      && Lookup(fs, cwd, full).value.listing == Ok([])
    ensures FilesInfo(fs, cwd, wd, directory) == ""
  {
  }

  // ---- the guards ----

  /** An omitted directory lists the working directory itself. */
  lemma DefaultIsWorkingDirectory(fs: Fs, cwd: string, wd: string)
    ensures FilesInfo(fs, cwd, wd, None) == FilesInfo(fs, cwd, wd, Some("."))
  {
  }

  /** The directory test comes first: a target that is not a directory gets
      that message whether or not it lies inside the working directory. */
  lemma NotADirectoryFirst(fs: Fs, cwd: string, wd: string, directory: Option<string>)
    requires !IsDir(fs, cwd, Join(wd, DirectoryOrDot(directory)))
    ensures FilesInfo(fs, cwd, wd, directory) == NotADirectoryError(DirectoryOrDot(directory))
  {
  }

  /** A directory outside the working directory is refused. */
  lemma OutsideDirectoryRefused(fs: Fs, cwd: string, wd: string, directory: Option<string>)
    requires IsDir(fs, cwd, Join(wd, DirectoryOrDot(directory)))
    requires !PrefixGuard(cwd, wd, DirectoryOrDot(directory))
    ensures FilesInfo(fs, cwd, wd, directory) == OutsideError(DirectoryOrDot(directory))
  {
  }

  /** Every outcome is the listing of an admitted directory or a message
      starting "Error: ". */
  lemma ListingOrError(fs: Fs, cwd: string, wd: string, directory: Option<string>)
    ensures var r := FilesInfo(fs, cwd, wd, directory);
      var dir := DirectoryOrDot(directory);
      StartsWith(r, "Error: ")
      || (IsDir(fs, cwd, Join(wd, dir)) && PrefixGuard(cwd, wd, dir)
          && Lookup(fs, cwd, Join(wd, dir)).value.listing.Ok?
          && Listing(Lookup(fs, cwd, Join(wd, dir)).value.listing.value) == Ok(r))
  {
  }
}
