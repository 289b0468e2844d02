/** The part of the file system the tools observe, as a value. Paths are
    looked up by their abspath under the process's current directory, so
    "./calculator/x" and "/home/user/calculator/x" name the same node. */
module FileSystem {
  import opened Text
  import opened PosixPath

  /** One os.listdir entry with what os.path.getsize and os.path.isdir report
      for it; getsize may raise (the entry vanished, a dangling link). */
  datatype Entry = Entry(name: string, size: Result<nat>, isDir: bool)

  /** A regular file whose text either decodes or raises on read, a
      directory whose listing either succeeds or raises, or anything else
      that exists (a device, a socket). */
  datatype Node =
    | File(content: Result<string>)
    | Dir(listing: Result<seq<Entry>>)
    | Special

  type Fs = map<string, Node>

  /** The node a path names: the one stored under its abspath. os.stat("")
      fails, so the empty path names nothing. */
  function Lookup(fs: Fs, cwd: string, p: string): (r: Option<Node>)
    ensures p == "" ==> r == None
    ensures p != "" && AbsPath(cwd, p) in fs ==> r == Some(fs[AbsPath(cwd, p)])
    ensures r.Some? ==> AbsPath(cwd, p) in fs && r.value == fs[AbsPath(cwd, p)]
  {
    if p == "" then None
    else
      var key := AbsPath(cwd, p);
      if key in fs then Some(fs[key]) else None
  }

  /** os.path.isfile */
  predicate IsFile(fs: Fs, cwd: string, p: string) {
    Lookup(fs, cwd, p).Some? && Lookup(fs, cwd, p).value.File?
  }

  /** os.path.isdir */
  predicate IsDir(fs: Fs, cwd: string, p: string) {
    Lookup(fs, cwd, p).Some? && Lookup(fs, cwd, p).value.Dir?
  }

  /** os.path.exists */
  predicate Exists(fs: Fs, cwd: string, p: string) {
    Lookup(fs, cwd, p).Some?
  }

  /** The "Error: ..." text a tool returns instead of raising. */
  function ErrorText(message: string): (r: string)
    ensures StartsWith(r, "Error: ")
  {
    "Error: " + message
  }
}
