/** main.py's call_function (lines 114-157): look the requested name up
    among the four tools, force the working directory, call the tool with
    the model's arguments as keywords, and wrap its text in a tool turn. */
module Dispatch {
  import opened Text
  import opened FileSystem
  import opened Containment
  import FilesInfo
  import FileContent
  import RunPython

  /** A function call the model asked for: a name and string arguments. */
  datatype FunctionCall = FunctionCall(name: string, args: map<string, string>)

  /** One entry of `messages`: the user's prompt, a candidate's content
      (opaque here), or a tool turn carrying a name and a response dict. */
  datatype Turn =
    | UserTurn(text: string)
    | ModelTurn(content: string)
    | ToolTurn(name: string, response: map<string, string>)

  datatype Tool = GetFilesInfo | GetFileContent | RunPythonFile | WriteFile

  const SANDBOX := "./calculator"
  const WORKING_DIRECTORY := "working_directory"

  /** The process's surroundings: its current directory, the files the
      tools see, what running a Python file yields, and what write_file
      returns (its source is not part of this model). */
  datatype Env = Env(
    cwd: string,
    fs: Fs,
    run: (string, string) -> RunPython.Process,
    write: (string, string, string) -> string)

  /** The function_map lookup at lines 124-131. */
  function ToolNamed(name: string): (r: Option<Tool>)
    ensures r == Some(GetFilesInfo) <==> name == "get_files_info"
    ensures r == Some(GetFileContent) <==> name == "get_file_content"
    ensures r == Some(RunPythonFile) <==> name == "run_python_file"
    ensures r == Some(WriteFile) <==> name == "write_file"
  {
    if name == "get_files_info" then Some(GetFilesInfo)
    else if name == "get_file_content" then Some(GetFileContent)
    else if name == "run_python_file" then Some(RunPythonFile)
    else if name == "write_file" then Some(WriteFile)
    else None
  }

  /** The keyword parameters each tool function declares. */
  function Parameters(t: Tool): set<string> {
    match t
    case GetFilesInfo => {WORKING_DIRECTORY, "directory"}
    case GetFileContent => {WORKING_DIRECTORY, "file_path"}
    case RunPythonFile => {WORKING_DIRECTORY, "file_path"}
    case WriteFile => {WORKING_DIRECTORY, "file_path", "content"}
  }

  /** The parameters without a default (get_files_info's `directory`
      defaults to None). */
  function Required(t: Tool): set<string> {
    match t
    case GetFilesInfo => {WORKING_DIRECTORY}
    case _ => Parameters(t)
  }

  /** `f(**args)` binds without a TypeError: no unknown keyword and no
      missing required one. A binding call always carries the working
      directory, and a file_path for every tool but get_files_info. */
  predicate Binds(t: Tool, args: map<string, string>)
    ensures Binds(t, args) ==> WORKING_DIRECTORY in args
    ensures Binds(t, args) && t != GetFilesInfo ==> "file_path" in args
  {
    args.Keys <= Parameters(t) && Required(t) <= args.Keys
  }

  /** The tool's returned text for arguments that bind. Whatever a reading
      tool returns that is not an error passed its containment test against
      the working directory in `args`. */
  function Invoke(env: Env, t: Tool, args: map<string, string>): (r: string)
    requires Binds(t, args)
    ensures t == GetFileContent && !StartsWith(r, "Error: ") ==>
      PrefixGuard(env.cwd, args[WORKING_DIRECTORY], args["file_path"])
    ensures t == GetFilesInfo && !StartsWith(r, "Error: ") ==>
      PrefixGuard(env.cwd, args[WORKING_DIRECTORY], if "directory" in args then args["directory"] else ".")
    ensures t == RunPythonFile && !StartsWith(r, "Error: ") ==>
      CommonGuard(env.cwd, args[WORKING_DIRECTORY], args["file_path"]) == Ok(true)
  {
    var wd := args[WORKING_DIRECTORY];
    match t
    case GetFilesInfo =>
      FilesInfo.FilesInfo(env.fs, env.cwd, wd, if "directory" in args then Some(args["directory"]) else None)
    case GetFileContent =>
      FileContent.GetFileContent(env.fs, env.cwd, wd, args["file_path"])
    case RunPythonFile =>
      RunPython.RunPythonFile(env.fs, env.cwd, wd, args["file_path"], env.run(wd, args["file_path"]))
    case WriteFile =>
      env.write(wd, args["file_path"], args["content"])
  }

  /** A call either returns a tool turn or raises the TypeError of a bad
      keyword binding, which nothing in main.py catches. */
  datatype CallOutcome = Returned(turn: Turn) | Raised

  function UnknownFunction(name: string): map<string, string> {
    map["error" := "Unknown function: " + name]
  }

  /** call_function: every returned turn is a tool turn named after the
      call with a one-key response, and only a known tool can raise. */
  function CallFunction(env: Env, call: FunctionCall): (r: CallOutcome)
    ensures r.Returned? ==> r.turn.ToolTurn? && r.turn.name == call.name && |r.turn.response| == 1
    ensures r.Raised? ==> ToolNamed(call.name).Some?
  {
    match ToolNamed(call.name)
    case None => Returned(ToolTurn(call.name, UnknownFunction(call.name)))
    case Some(t) =>
      var args := call.args[WORKING_DIRECTORY := SANDBOX];
      if !Binds(t, args) then Raised
      else Returned(ToolTurn(call.name, map["result" := Invoke(env, t, args)]))
  }

  // ---- properties ----

  /** An unknown name yields the error dict and runs no tool: the outcome
      does not depend on the surroundings at all. */
  lemma UnknownNameAnswered(env: Env, other: Env, call: FunctionCall)
    requires ToolNamed(call.name) == None
    ensures CallFunction(env, call) == Returned(ToolTurn(call.name, map["error" := "Unknown function: " + call.name]))
    ensures CallFunction(env, call) == CallFunction(other, call)
  {
  }

  /** Whatever working directory the model supplies, the tool runs under
      "./calculator": the outcome is the same as if it had supplied none. */
  lemma WorkingDirectoryForced(env: Env, name: string, args: map<string, string>, wd: string)
    ensures CallFunction(env, FunctionCall(name, args[WORKING_DIRECTORY := wd]))
         == CallFunction(env, FunctionCall(name, args))
  {
    assert args[WORKING_DIRECTORY := wd][WORKING_DIRECTORY := SANDBOX] == args[WORKING_DIRECTORY := SANDBOX];
  }

  /** The one key of a returned response is "result" for a known tool and
      "error" for an unknown name, so the check at lines 177-178 never
      raises. */
  lemma ResponseHasOneKey(env: Env, call: FunctionCall)
    requires CallFunction(env, call).Returned?
    ensures ToolNamed(call.name).Some? ==> CallFunction(env, call).turn.response.Keys == {"result"}
    ensures ToolNamed(call.name).None? ==> CallFunction(env, call).turn.response.Keys == {"error"}
  {
    var r := CallFunction(env, call).turn.response;
    if ToolNamed(call.name).Some? {
      assert r.Keys == {"result"};
    } else {
      assert r.Keys == {"error"};
    }
  }

  /** A known tool raises exactly when the model's arguments, with the
      working directory forced, do not bind to its parameters. */
  lemma RaisesIffUnbound(env: Env, call: FunctionCall, t: Tool)
    requires ToolNamed(call.name) == Some(t)
    ensures CallFunction(env, call).Raised? <==> !Binds(t, call.args[WORKING_DIRECTORY := SANDBOX])
  {
  }

  /** A get_file_content call reads relative to "./calculator" with the
      model's file_path, whatever else it asked for. */
  lemma ReadsUnderSandbox(env: Env, args: map<string, string>)
    requires args.Keys <= {WORKING_DIRECTORY, "file_path"} && "file_path" in args
    ensures CallFunction(env, FunctionCall("get_file_content", args))
         == Returned(ToolTurn("get_file_content",
              map["result" := FileContent.GetFileContent(env.fs, env.cwd, SANDBOX, args["file_path"])]))
  {
    var a := args[WORKING_DIRECTORY := SANDBOX];
    assert a.Keys == args.Keys + {WORKING_DIRECTORY};
    assert Binds(GetFileContent, a);
  }

  /** get_files_info without a directory lists the sandbox itself. */
  lemma ListsSandboxByDefault(env: Env, args: map<string, string>)
    requires args.Keys <= {WORKING_DIRECTORY}
    ensures CallFunction(env, FunctionCall("get_files_info", args))
         == Returned(ToolTurn("get_files_info",
              map["result" := FilesInfo.FilesInfo(env.fs, env.cwd, SANDBOX, Some("."))]))
  {
    var a := args[WORKING_DIRECTORY := SANDBOX];
    assert a.Keys == {WORKING_DIRECTORY};
    assert Binds(GetFilesInfo, a);
    FilesInfo.DefaultIsWorkingDirectory(env.fs, env.cwd, SANDBOX);
  }
}
