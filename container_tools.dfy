/** The three tools of the Run Commands MCP server, `run_in_container`,
    `create_file_in_container` and `list_running_containers`, with their helpers.

    Every docker process is an outcome given as input: an exit code with its output,
    a timeout, or a failure to start. The processes the tools start, the temporary
    file they write and its removal are recorded, in order, as effects. A tool's
    result is the value it would serialise with `json.dumps`, or the exception it lets
    escape. Process output is taken as already decoded text. */
module ContainerTools {
  import opened PyDict
  import opened PyText
  import opened PyValue
  import PurePath

  type Byte = b: int | 0 <= b < 256

  /** What a tool does outside the model, in order. */
  datatype Effect =
    | Run(argv: seq<string>, timeout: Option<real>)   // a process started (or attempted)
    | Kill                                             // `proc.kill()` after a timeout
    | WriteTemp(name: string, data: seq<Byte>)         // the temporary file written
    | RemoveTemp(name: string)                         // `os.remove` of that file

  /** How a `subprocess.run` call ends. */
  datatype RunOutcome =
    | Completed(returncode: int, stdout: string, stderr: string)
    | FailedToStart(error: string)

  /** How the `docker exec` of `run_in_container` ends. */
  datatype ExecOutcome =
    | Exited(returncode: int, stdout: string, stderr: string)
    | TimedOut(stdout: string, stderr: string)   // killed, then its output collected
    | SpawnFailed(error: string)

  /** The result of a tool: a value, or the message of an exception that escapes. */
  datatype ToolResult = Returned(value: Value) | Raised(error: string)

  datatype Call = Call(result: ToolResult, effects: seq<Effect>)

  function ErrorResult(message: string): Value {
    PDict([(SStr("error"), PStr(message))])
  }

  // ---------------------------------------------------------------------------
  // _clean_text

  const CRLF: string := "\r\n"

  /** `text.replace("\r\n", "\n")`, scanning from the left. */
  function ReplaceCrlf(s: string): (r: string)
    ensures |r| <= |s|
  {
    if |s| >= 2 && s[0] == '\r' && s[1] == '\n' then "\n" + ReplaceCrlf(s[2..])
    else if s == [] then s
    else [s[0]] + ReplaceCrlf(s[1..])
  }

  /** `_clean_text`: `None` stays `None`; text has its CRLFs replaced. */
  function CleanText(text: Option<string>): (r: Option<string>)
    ensures r.None? <==> text.None?
    ensures r.Some? ==> |r.value| <= |text.value|
  {
    if text.None? then None else Some(ReplaceCrlf(text.value))
  }

  /** A text without CRLF is kept as it is. */
  lemma {:induction false} ReplaceCrlfKeeps(s: string)
    requires !Contains(s, CRLF)
    ensures ReplaceCrlf(s) == s
  {
    if s != [] {
      assert !OccursAt(s, CRLF, 0);
      forall i | 0 <= i <= |s[1..]| - 2 ensures !OccursAt(s[1..], CRLF, i) {
        assert !OccursAt(s, CRLF, i + 1);
        assert s[1..][i..i + 2] == s[i + 1..i + 3];
      }
      ReplaceCrlfKeeps(s[1..]);
      if |s| >= 2 {
        assert s[0..2] == [s[0], s[1]];
      }
    }
  }

  /** A text with a CRLF gets shorter. */
  lemma {:induction false} ReplaceCrlfShortens(s: string, i: int)
    requires OccursAt(s, CRLF, i)
    ensures |ReplaceCrlf(s)| < |s|
  {
    assert s[i] == '\r' && s[i + 1] == '\n' by {
      assert s[i..i + 2][0] == s[i] && s[i..i + 2][1] == s[i + 1];
    }
    if !(s[0] == '\r' && s[1] == '\n') {
      assert i > 0;
      assert s[1..][i - 1..i + 1] == s[i..i + 2];
      ReplaceCrlfShortens(s[1..], i - 1);
    }
  }

  /** `_clean_text` changes a text exactly when the text holds a CRLF. */
  lemma ReplaceCrlfUnchanged(s: string)
    ensures ReplaceCrlf(s) == s <==> !Contains(s, CRLF)
  {
    if Contains(s, CRLF) {
      var i :| OccursAt(s, CRLF, i);
      ReplaceCrlfShortens(s, i);
    } else {
      ReplaceCrlfKeeps(s);
    }
  }

  /** The first CRLF after a CRLF-free text is the one replaced. */
  lemma {:induction false} ReplaceCrlfAfter(a: string, b: string)
    requires !Contains(a, CRLF)
    ensures ReplaceCrlf(a + CRLF + b) == a + "\n" + ReplaceCrlf(b)
  {
    var s := a + CRLF + b;
    if a == [] {
      assert s == CRLF + b && s[2..] == b;
    } else {
      assert !OccursAt(a, CRLF, 0);
      if |a| >= 2 {
        assert a[0..2] == [a[0], a[1]];
      }
      assert s[1..] == a[1..] + CRLF + b;
      forall i | 0 <= i <= |a[1..]| - 2 ensures !OccursAt(a[1..], CRLF, i) {
        assert !OccursAt(a, CRLF, i + 1);
        assert a[1..][i..i + 2] == a[i + 1..i + 3];
      }
      ReplaceCrlfAfter(a[1..], b);
      assert [a[0]] + (a[1..] + "\n" + ReplaceCrlf(b)) == a + "\n" + ReplaceCrlf(b);
    }
  }

  /** Pieces free of CRLF, joined with CRLF, come out joined with LF: what
      `replace` promises, independently of how it scans. */
  lemma {:induction false} ReplaceCrlfJoin(parts: seq<string>)
    requires forall i :: 0 <= i < |parts| ==> !Contains(parts[i], CRLF)
    ensures ReplaceCrlf(Join(CRLF, parts)) == Join("\n", parts)
  {
    if |parts| == 1 {
      ReplaceCrlfKeeps(parts[0]);
    } else if |parts| > 1 {
      ReplaceCrlfJoin(parts[1..]);
      ReplaceCrlfAfter(parts[0], Join(CRLF, parts[1..]));
    }
  }

  /** The result need not be CRLF-free: `"\r\r\n"` becomes `"\r\n"`. */
  lemma CleanTextKeepsNewCrlf()
    ensures CleanText(Some("\r\r\n")) == Some(CRLF)
  {
    var s := "\r\r\n";
    assert s[1..] == CRLF && s[1] != '\n';
    assert ReplaceCrlf(CRLF) == "\n" by {
      assert CRLF[2..] == "";
    }
    assert ReplaceCrlf(s) == "\r" + "\n" == CRLF;
  }

  // ---------------------------------------------------------------------------
  // _docker_exec and run_in_container

  function ExecArgv(containerId: string, command: string): seq<string> {
    ["docker", "exec", containerId, "bash", "-c", command]
  }

  /** The four fields of the dict `_docker_exec` returns, in order. */
  function ExecFields(stdout: string, stderr: string, returncode: Value, timedOut: bool): Dict<Scalar, Value> {
    [(SStr("stdout"), PStr(stdout)), (SStr("stderr"), PStr(stderr)),
     (SStr("returncode"), returncode), (SStr("timed_out"), PBool(timedOut))]
  }

  /** Each of the four keys finds its own field. */
  lemma ExecFieldStdout(stdout: string, stderr: string, returncode: Value, timedOut: bool)
    ensures Get(ExecFields(stdout, stderr, returncode, timedOut), SStr("stdout")) == Some(PStr(stdout))
  {
    GetFirst(ExecFields(stdout, stderr, returncode, timedOut), 0);
  }

  lemma ExecFieldStderr(stdout: string, stderr: string, returncode: Value, timedOut: bool)
    ensures Get(ExecFields(stdout, stderr, returncode, timedOut), SStr("stderr")) == Some(PStr(stderr))
  {
    GetFirst(ExecFields(stdout, stderr, returncode, timedOut), 1);
  }

  lemma ExecFieldReturncode(stdout: string, stderr: string, returncode: Value, timedOut: bool)
    ensures Get(ExecFields(stdout, stderr, returncode, timedOut), SStr("returncode")) == Some(returncode)
  {
    GetFirst(ExecFields(stdout, stderr, returncode, timedOut), 2);
  }

  lemma ExecFieldTimedOut(stdout: string, stderr: string, returncode: Value, timedOut: bool)
    ensures Get(ExecFields(stdout, stderr, returncode, timedOut), SStr("timed_out")) == Some(PBool(timedOut))
  {
    GetFirst(ExecFields(stdout, stderr, returncode, timedOut), 3);
  }

  lemma ExecFieldsNoError(stdout: string, stderr: string, returncode: Value, timedOut: bool)
    ensures Get(ExecFields(stdout, stderr, returncode, timedOut), SStr("error")) == None
  {
    var d := ExecFields(stdout, stderr, returncode, timedOut);
    assert SStr("error") !in Keys(d);
  }

  /** The dict `_docker_exec` returns for a process that was started. */
  function ExecResult(o: ExecOutcome): (r: Value)
    requires !o.SpawnFailed?
    ensures Field(r, "returncode").Some? && Field(r, "timed_out").Some?
    ensures Field(r, "returncode") == Some(PNone) <==> Field(r, "timed_out") == Some(PBool(true))
    ensures Field(r, "timed_out") == Some(PBool(o.TimedOut?))
    ensures o.Exited? ==> Field(r, "returncode") == Some(PInt(o.returncode))
    ensures Field(r, "stdout") == Some(PStr(ReplaceCrlf(o.stdout)))
    ensures Field(r, "stderr") == Some(PStr(ReplaceCrlf(o.stderr)))
    ensures Field(r, "error") == None
  {
    var rc := if o.Exited? then PInt(o.returncode) else PNone;
    var out, err := CleanText(Some(o.stdout)).value, CleanText(Some(o.stderr)).value;
    ExecFieldStdout(out, err, rc, o.TimedOut?);
    ExecFieldStderr(out, err, rc, o.TimedOut?);
    ExecFieldReturncode(out, err, rc, o.TimedOut?);
    ExecFieldTimedOut(out, err, rc, o.TimedOut?);
    ExecFieldsNoError(out, err, rc, o.TimedOut?);
    PDict(ExecFields(out, err, rc, o.TimedOut?))
  }

  /** `_docker_exec`: runs `bash -c command` in the container with the timeout; a
      process that times out is killed and its output still collected. */
  function DockerExec(containerId: string, command: string, timeout: real, o: ExecOutcome): (c: Call)
    ensures |c.effects| >= 1 && c.effects[0] == Run(ExecArgv(containerId, command), Some(timeout))
    ensures Kill in c.effects <==> o.TimedOut?
    ensures o.SpawnFailed? <==> c.result.Raised?
    ensures !o.SpawnFailed? ==> c.result == Returned(ExecResult(o))
  {
    var start := Run(ExecArgv(containerId, command), Some(timeout));
    match o
    case SpawnFailed(e) => Call(Raised(e), [start])
    case Exited(_, _, _) => Call(Returned(ExecResult(o)), [start])
    case TimedOut(_, _) => Call(Returned(ExecResult(o)), [start, Kill])
  }

  /** `not x` for a `str` argument that may be `None`. */
  predicate Blank(x: Option<string>) {
    x.None? || x.value == ""
  }

  /** `run_in_container`: a blank container id, then a missing command, are refused
      before anything runs; otherwise the command runs and its result is returned. */
  function RunInContainer(containerId: Option<string>, command: Option<string>, timeout: real, o: ExecOutcome): (c: Call)
    ensures Blank(containerId) ==> c == Call(Returned(ErrorResult("container_id is required")), [])
    ensures !Blank(containerId) && command.None? ==> c == Call(Returned(ErrorResult("command is required")), [])
    ensures !Blank(containerId) && command.Some? ==>
      |c.effects| >= 1 && c.effects[0] == Run(ExecArgv(containerId.value, command.value), Some(timeout))
      && (o.SpawnFailed? <==> c.result.Raised?)
      && (!o.SpawnFailed? ==> c.result == Returned(ExecResult(o)))
  {
    if Blank(containerId) then Call(Returned(ErrorResult("container_id is required")), [])
    else if command.None? then Call(Returned(ErrorResult("command is required")), [])
    else DockerExec(containerId.value, command.value, timeout, o)
  }

  /** Whatever the outcome, a result that `run_in_container` returns either is an
      error, or has a null `returncode` exactly when it timed out. */
  lemma RunInContainerReturncode(containerId: Option<string>, command: Option<string>, timeout: real, o: ExecOutcome)
    ensures var c := RunInContainer(containerId, command, timeout, o);
      c.result.Returned? ==>
        HasField(c.result.value, "error")
        || (Field(c.result.value, "returncode") == Some(PNone)
            <==> Field(c.result.value, "timed_out") == Some(PBool(true)))
    ensures var c := RunInContainer(containerId, command, timeout, o);
      c.result.Returned? && HasField(c.result.value, "error") ==> c.effects == []
  {
  }

  // ---------------------------------------------------------------------------
  // _expand_user_path

  /** The text `_expand_user_path` hands to `Path`: a leading `~` becomes the home
      directory; any later `~` is kept. */
  function ExpandUserText(pathStr: string, home: string): (r: string)
    ensures !StartsWith(pathStr, "~") ==> r == pathStr
    ensures StartsWith(pathStr, "~") ==> r == home + pathStr[1..]
  {
    if StartsWith(pathStr, "~") then
      ReplaceFirstAtStart(pathStr, "~", home);
      ReplaceFirst(pathStr, "~", home)
    else pathStr
  }

  /** `_expand_user_path(path_str, home)` */
  function ExpandUserPath(pathStr: string, home: PurePath.Path): (r: PurePath.Path)
    ensures !StartsWith(pathStr, "~") ==> r == PurePath.Parse(pathStr)
    ensures StartsWith(pathStr, "~") ==> r == PurePath.Parse(PurePath.Text(home) + pathStr[1..])
    ensures StartsWith(pathStr, "~") && home.absolute ==> r.absolute
  {
    var text := PurePath.Text(home);
    var expanded := ExpandUserText(pathStr, text);
    if StartsWith(pathStr, "~") && home.absolute then
      assert expanded[..1] == text[..1] == "/";
      PurePath.Parse(expanded)
    else
      PurePath.Parse(expanded)
  }

  /** Only the first `~` is replaced, and `~user` is not another user's home: it is
      appended to this home without a separator. */
  lemma ExpandUserExamples()
    ensures ExpandUserText("~/a~b", "/h") == "/h/a~b"
    ensures ExpandUserText("~u", "/h") == "/hu"
    ensures ExpandUserText("a/~", "/h") == "a/~"
  {
    assert StartsWith("~/a~b", "~") && "~/a~b"[1..] == "/a~b";
    assert StartsWith("~u", "~") && "~u"[1..] == "u";
    assert "a/~"[..1] != "~" by {
      assert "a/~"[..1][0] == 'a';
    }
  }

  // ---------------------------------------------------------------------------
  // _copy_bytes_into_container

  function MkdirArgv(containerId: string, dest: PurePath.Path): seq<string> {
    ["docker", "exec", containerId, "mkdir", "-p", PurePath.Text(PurePath.Parent(dest))]
  }

  function CpArgv(containerId: string, tmpName: string, dest: PurePath.Path): seq<string> {
    ["docker", "cp", "-aq", tmpName, containerId + ":" + PurePath.Text(dest)]
  }

  function SuccessResult(dest: PurePath.Path): Value {
    PDict([(SStr("success"), PBool(true)), (SStr("path"), PStr(PurePath.Text(dest)))])
  }

  function CpFailedResult(returncode: int, stdout: string, stderr: string): Value {
    PDict([
      (SStr("error"), PStr("docker cp failed")),
      (SStr("stderr"), PStr(stderr)),
      (SStr("stdout"), PStr(stdout)),
      (SStr("returncode"), PInt(returncode))])
  }

  /** `_copy_bytes_into_container`: creates the parent directory in the container
      (its exit code is not looked at), writes the data to a temporary file, copies it
      in with `docker cp` and removes the temporary file however the copy ends. */
  function CopyBytes(containerId: string, data: seq<Byte>, dest: PurePath.Path, tmpName: string,
                     mkdir: RunOutcome, cp: RunOutcome): (c: Call)
    ensures |c.effects| >= 1 && c.effects[0] == Run(MkdirArgv(containerId, dest), None)
    ensures mkdir.FailedToStart? ==>
      c == Call(Returned(ErrorResult("mkdir in container failed: " + mkdir.error)), c.effects[..1])
    ensures mkdir.Completed? ==>
      c.effects[1..] == [WriteTemp(tmpName, data), Run(CpArgv(containerId, tmpName, dest), None), RemoveTemp(tmpName)]
    ensures mkdir.Completed? && cp.FailedToStart? ==> c.result == Raised(cp.error)
    ensures mkdir.Completed? && cp.Completed? && cp.returncode != 0 ==>
      c.result == Returned(CpFailedResult(cp.returncode, cp.stdout, cp.stderr))
    ensures mkdir.Completed? && cp.Completed? && cp.returncode == 0 ==> c.result == Returned(SuccessResult(dest))
    ensures c.result.Returned? ==> (HasField(c.result.value, "success") <==> !HasField(c.result.value, "error"))
  {
    var mk := Run(MkdirArgv(containerId, dest), None);
    if mkdir.FailedToStart? then
      var r := ErrorResult("mkdir in container failed: " + mkdir.error);
      assert Field(r, "success") == None;
      Call(Returned(r), [mk])
    else
      var effects := [mk, WriteTemp(tmpName, data), Run(CpArgv(containerId, tmpName, dest), None), RemoveTemp(tmpName)];
      if cp.FailedToStart? then Call(Raised(cp.error), effects)
      else if cp.returncode != 0 then
        var r := CpFailedResult(cp.returncode, cp.stdout, cp.stderr);
        assert Field(r, "success") == None;
        Call(Returned(r), effects)
      else
        var r := SuccessResult(dest);
        assert Field(r, "error") == None;
        Call(Returned(r), effects)
  }

  /** The exit code of `mkdir -p` makes no difference to the copy. */
  lemma MkdirExitIgnored(containerId: string, data: seq<Byte>, dest: PurePath.Path, tmpName: string,
                         m1: RunOutcome, m2: RunOutcome, cp: RunOutcome)
    requires m1.Completed? && m2.Completed?
    ensures CopyBytes(containerId, data, dest, tmpName, m1, cp) == CopyBytes(containerId, data, dest, tmpName, m2, cp)
  {
  }

  /** Once the temporary file is written, removing it is the last thing the copy does. */
  lemma CopyRemovesTemp(containerId: string, data: seq<Byte>, dest: PurePath.Path, tmpName: string,
                        mkdir: RunOutcome, cp: RunOutcome)
    ensures var c := CopyBytes(containerId, data, dest, tmpName, mkdir, cp);
      WriteTemp(tmpName, data) in c.effects ==> c.effects[|c.effects| - 1] == RemoveTemp(tmpName)
  {
  }

  // ---------------------------------------------------------------------------
  // create_file_in_container

  const DefaultContainerHome: string := "/home/ctfplayer"

  /** How encoding the contents ends: bytes, or the message of the exception. */
  datatype Encoding = Encoded(data: seq<Byte>) | EncodingFailed(error: string)

  /** Where the file goes: an absolute `path` as it is, a relative one under `home`. */
  function Destination(path: string, home: string): (dest: PurePath.Path)
    ensures StartsWith(path, "/") ==> dest == PurePath.Parse(path)
    ensures !StartsWith(path, "/") ==>
      dest.absolute == PurePath.Parse(home).absolute
      && dest.parts == PurePath.Parse(home).parts + PurePath.Parse(path).parts
  {
    var p := PurePath.Parse(path);
    if !p.absolute then PurePath.Div(PurePath.Parse(home), p) else p
  }

  /** `create_file_in_container`: checks the container id, then the path, then that
      contents were given (empty contents are fine); encodes the contents (`encode`
      stands for `str.encode`, or the escape-decoding route when `decode_escapes`);
      and copies the bytes to the destination. */
  function CreateFileInContainer(containerId: Option<string>, path: Option<string>, contents: Option<string>,
                                 decodeEscapes: bool, containerHome: string,
                                 encode: (string, bool) -> Encoding,
                                 tmpName: string, mkdir: RunOutcome, cp: RunOutcome): (c: Call)
    ensures Blank(containerId) ==> c == Call(Returned(ErrorResult("container_id is required")), [])
    ensures !Blank(containerId) && Blank(path) ==> c == Call(Returned(ErrorResult("path is required")), [])
    ensures !Blank(containerId) && !Blank(path) && contents.None? ==>
      c == Call(Returned(ErrorResult("contents is required")), [])
    ensures !Blank(containerId) && !Blank(path) && contents.Some? && encode(contents.value, decodeEscapes).EncodingFailed? ==>
      c == Call(Returned(ErrorResult("invalid contents encoding: " + encode(contents.value, decodeEscapes).error)), [])
    ensures !Blank(containerId) && !Blank(path) && contents.Some? && encode(contents.value, decodeEscapes).Encoded? ==>
      c == CopyBytes(containerId.value, encode(contents.value, decodeEscapes).data,
                     Destination(path.value, containerHome), tmpName, mkdir, cp)
  {
    if Blank(containerId) then Call(Returned(ErrorResult("container_id is required")), [])
    else if Blank(path) then Call(Returned(ErrorResult("path is required")), [])
    else if contents.None? then Call(Returned(ErrorResult("contents is required")), [])
    else
      match encode(contents.value, decodeEscapes)
      case EncodingFailed(e) => Call(Returned(ErrorResult("invalid contents encoding: " + e)), [])
      case Encoded(data) =>
        CopyBytes(containerId.value, data, Destination(path.value, containerHome), tmpName, mkdir, cp)
  }

  /** Empty contents are written like any other: the refusal is only for `None`. */
  lemma EmptyContentsAccepted(containerId: string, path: string, containerHome: string,
                              encode: (string, bool) -> Encoding, tmpName: string, mkdir: RunOutcome, cp: RunOutcome)
    requires containerId != "" && path != "" && encode("", false) == Encoded([])
    requires mkdir.Completed? && cp.Completed? && cp.returncode == 0
    ensures CreateFileInContainer(Some(containerId), Some(path), Some(""), false, containerHome, encode, tmpName, mkdir, cp)
         == Call(Returned(SuccessResult(Destination(path, containerHome))),
                 [Run(MkdirArgv(containerId, Destination(path, containerHome)), None), WriteTemp(tmpName, []),
                  Run(CpArgv(containerId, tmpName, Destination(path, containerHome)), None), RemoveTemp(tmpName)])
  {
  }

  /** The default home parses to the components `home` and `ctfplayer`. */
  lemma ParseDefaultHome()
    ensures PurePath.Parse(DefaultContainerHome) == PurePath.Path(true, ["home", "ctfplayer"])
  {
    var p := PurePath.Path(true, ["home", "ctfplayer"]);
    assert '/' !in "home" && '/' !in "ctfplayer";
    PurePath.ParseText(p);
    assert PurePath.Text(p) == DefaultContainerHome by {
      assert Join("/", ["ctfplayer"]) == "ctfplayer";
    }
  }

  /** With the default home, a relative path lands under `/home/ctfplayer`. */
  lemma RelativeUnderDefaultHome(path: string)
    requires !StartsWith(path, "/")
    ensures Destination(path, DefaultContainerHome)
         == PurePath.Path(true, ["home", "ctfplayer"] + PurePath.Parse(path).parts)
  {
    ParseDefaultHome();
  }

  // ---------------------------------------------------------------------------
  // list_running_containers

  const PsArgv: seq<string> := ["docker", "ps", "--format", "{{.ID}}\t{{.Names}}"]

  /** The entry of one line of `docker ps`: the text before the first tab and the
      rest, if the line holds a tab. */
  function LineEntry(line: string): (r: seq<(string, string)>)
    ensures |r| <= 1
    ensures r != [] <==> '\t' in line
  {
    var parts := SplitFirst(line, '\t');
    if |parts| == 2 then [(parts[0], parts[1])] else []
  }

  /** A line without a tab gives no entry; a line with one gives an id free of tabs,
      the tab, and the names. */
  lemma LineEntryShape(line: string)
    ensures '\t' !in line ==> LineEntry(line) == []
    ensures '\t' in line ==>
      |LineEntry(line)| == 1 && line == LineEntry(line)[0].0 + "\t" + LineEntry(line)[0].1
      && '\t' !in LineEntry(line)[0].0
  {
  }

  /** A line is split at its first tab, however many tabs follow. */
  lemma LineEntryAt(id: string, names: string)
    requires '\t' !in id
    ensures LineEntry(id + "\t" + names) == [(id, names)]
  {
    var line := id + "\t" + names;
    assert line[|id|] == '\t';
    LineEntryShape(line);
    var e := LineEntry(line);
    var x := e[0].0;
    assert forall k :: 0 <= k < |id| ==> line[k] == id[k] != '\t';
    assert forall k :: 0 <= k < |x| ==> line[k] == x[k] != '\t';
    assert line[|id|] == '\t' && line[|x|] == '\t';
    assert |x| == |id|;
    assert x == line[..|x|] && id == line[..|id|];
    assert names == line[|id| + 1..] == e[0].1;
  }

  /** `f` applied to each element, the results concatenated in order. */
  function ConcatMap<T, U>(f: T -> seq<U>, xs: seq<T>): seq<U> {
    if xs == [] then [] else ConcatMap(f, xs[..|xs| - 1]) + f(xs[|xs| - 1])
  }

  lemma {:induction false} ConcatMapAppend<T, U>(f: T -> seq<U>, a: seq<T>, b: seq<T>)
    ensures ConcatMap(f, a + b) == ConcatMap(f, a) + ConcatMap(f, b)
  {
    if b == [] {
      assert a + b == a;
    } else {
      var n := |b| - 1;
      ConcatMapAppend(f, a, b[..n]);
      var ab := a + b;
      assert ab[..|ab| - 1] == a + b[..n];
      assert ab[|ab| - 1] == b[n];
      assert ConcatMap(f, ab) == ConcatMap(f, a + b[..n]) + f(b[n]);
      assert ConcatMap(f, b) == ConcatMap(f, b[..n]) + f(b[n]);
    }
  }

  /** There are never more entries than lines. */
  lemma {:induction false} LineEntriesBound(lines: seq<string>)
    ensures |ConcatMap(LineEntry, lines)| <= |lines|
  {
    if lines != [] {
      LineEntriesBound(lines[..|lines| - 1]);
    }
  }

  /** The containers that the lines of `docker ps` describe, in order; never more
      than there are lines. */
  function Entries(lines: seq<string>): (r: seq<(string, string)>)
    ensures |r| <= |lines|
  {
    LineEntriesBound(lines);
    ConcatMap(LineEntry, lines)
  }

  /** Lines are read in order: the entries of consecutive lines are consecutive. */
  lemma EntriesAppend(a: seq<string>, b: seq<string>)
    ensures Entries(a + b) == Entries(a) + Entries(b)
  {
    ConcatMapAppend(LineEntry, a, b);
  }

  /** Every line yields an entry exactly when every line holds a tab. */
  lemma {:induction false} EntriesAllTabbed(lines: seq<string>)
    ensures |Entries(lines)| == |lines| <==> forall i :: 0 <= i < |lines| ==> '\t' in lines[i]
  {
    if lines != [] {
      var init := lines[..|lines| - 1];
      EntriesAllTabbed(init);
      LineEntryShape(lines[|lines| - 1]);
      if forall i :: 0 <= i < |lines| ==> '\t' in lines[i] {
        forall i | 0 <= i < |init| ensures '\t' in init[i] {
          assert init[i] == lines[i];
        }
      } else {
        var j :| 0 <= j < |lines| && '\t' !in lines[j];
        if j < |lines| - 1 {
          assert init[j] == lines[j];
        }
      }
    }
  }

  /** The text `docker ps` prints for these containers: one `id\tnames` line each. */
  function PsOutput(containers: seq<(string, string)>): string {
    if containers == [] then "" else PsLine(containers[0]) + "\n" + PsOutput(containers[1..])
  }

  /** One line of `docker ps`: the id, a tab, the names. */
  function PsLine(container: (string, string)): string {
    container.0 + "\t" + container.1
  }

  predicate NoBoundary(s: string) {
    forall j :: 0 <= j < |s| ==> !IsLineBoundary(s[j])
  }

  /** What `docker ps` prints for containers whose ids hold no tab, and whose ids and
      names hold no line break, parses back to exactly those containers. */
  lemma {:induction false} EntriesOfPsOutput(containers: seq<(string, string)>)
    requires forall i :: 0 <= i < |containers| ==>
      '\t' !in containers[i].0 && NoBoundary(containers[i].0) && NoBoundary(containers[i].1)
    ensures Entries(SplitLines(PsOutput(containers))) == containers
  {
    var lines := PsLines(containers);
    forall k | 0 <= k < |lines|
      ensures forall j :: 0 <= j < |lines[k]| ==> !IsLineBoundary(lines[k][j])
    {
      var l := lines[k];
      assert l == PsLine(containers[k]);
      forall j | 0 <= j < |l| ensures !IsLineBoundary(l[j]) {
        if j < |containers[k].0| {
          assert l[j] == containers[k].0[j];
        } else if j > |containers[k].0| {
          assert l[j] == containers[k].1[j - |containers[k].0| - 1];
        }
      }
    }
    PsOutputLines(containers);
    SplitLinesTerminated(lines);
    EntriesOfLines(containers);
  }

  function PsLines(containers: seq<(string, string)>): (lines: seq<string>) {
    seq(|containers|, k requires 0 <= k < |containers| => PsLine(containers[k]))
  }

  lemma {:induction false} PsOutputLines(containers: seq<(string, string)>)
    ensures PsOutput(containers) == Terminated(PsLines(containers))
  {
    if containers != [] {
      assert PsLines(containers)[1..] == PsLines(containers[1..]);
      PsOutputLines(containers[1..]);
    }
  }

  lemma {:induction false} EntriesOfLines(containers: seq<(string, string)>)
    requires forall i :: 0 <= i < |containers| ==> '\t' !in containers[i].0
    ensures Entries(PsLines(containers)) == containers
  {
    if containers != [] {
      var n := |containers| - 1;
      var init, last := containers[..n], containers[n];
      assert PsLines(containers) == PsLines(init) + [PsLine(last)];
      EntriesSnoc(PsLines(init), PsLine(last));
      forall i | 0 <= i < |init| ensures '\t' !in init[i].0 {
        assert init[i] == containers[i];
      }
      EntriesOfLines(init);
      LineEntryAt(last.0, last.1);
      assert containers == init + [last];
    }
  }

  lemma EntriesSnoc(lines: seq<string>, line: string)
    ensures Entries(lines + [line]) == Entries(lines) + LineEntry(line)
  {
    assert (lines + [line])[..|lines|] == lines;
  }

  function EntryValue(e: (string, string)): Value {
    PDict([(SStr("id"), PStr(e.0)), (SStr("names"), PStr(e.1))])
  }

  function EntryValues(es: seq<(string, string)>): (vs: seq<Value>)
    ensures |vs| == |es|
  {
    if es == [] then [] else EntryValues(es[..|es| - 1]) + [EntryValue(es[|es| - 1])]
  }

  lemma {:induction false} EntryValuesAppend(a: seq<(string, string)>, b: seq<(string, string)>)
    ensures EntryValues(a + b) == EntryValues(a) + EntryValues(b)
  {
    if b == [] {
      assert a + b == a;
    } else {
      var n := |b| - 1;
      EntryValuesAppend(a, b[..n]);
      assert (a + b)[..|a + b| - 1] == a + b[..n];
      assert (a + b)[|a + b| - 1] == b[n];
    }
  }

  /** The list holds one value per entry, in order. */
  lemma {:induction false} EntryValuesAt(es: seq<(string, string)>, k: nat)
    requires k < |es|
    ensures EntryValues(es)[k] == EntryValue(es[k])
  {
    if k < |es| - 1 {
      EntryValuesAt(es[..|es| - 1], k);
    }
  }

  /** Reading one more line appends the value of its entry, if it has one. */
  lemma EntryValuesPrefixStep(lines: seq<string>, i: nat)
    requires i < |lines|
    ensures EntryValues(Entries(lines[..i + 1]))
         == EntryValues(Entries(lines[..i])) + EntryValues(LineEntry(lines[i]))
  {
    assert lines[..i + 1] == lines[..i] + [lines[i]];
    EntriesSnoc(lines[..i], lines[i]);
    EntryValuesAppend(Entries(lines[..i]), LineEntry(lines[i]));
  }

  function PsFailedResult(returncode: int, stderr: string): Value {
    PDict([(SStr("error"), PStr(Strip(stderr))), (SStr("returncode"), PInt(returncode))])
  }

  /** The loop of `list_running_containers`: one `{id, names}` per line that holds a tab. */
  method ParseEntries(lines: seq<string>) returns (items: seq<Value>)
    ensures items == EntryValues(Entries(lines))
  {
    items := [];
    var i := 0;
    while i < |lines|
      invariant 0 <= i <= |lines|
      invariant items == EntryValues(Entries(lines[..i]))
    {
      var parts := SplitFirst(lines[i], '\t');
      EntryValuesPrefixStep(lines, i);
      if |parts| == 2 {
        assert LineEntry(lines[i]) == [(parts[0], parts[1])];
        assert EntryValues([(parts[0], parts[1])]) == [EntryValue((parts[0], parts[1]))];
        items := items + [EntryValue((parts[0], parts[1]))];
      } else {
        assert LineEntry(lines[i]) == [];
      }
      i := i + 1;
    }
    assert lines[..i] == lines;
  }

  /** `list_running_containers`: a failing `docker ps` gives its stripped error output
      and exit code; otherwise one `{id, names}` per line that holds a tab, in order. */
  method ListRunningContainers(ps: RunOutcome) returns (c: Call)
    ensures c.effects == [Run(PsArgv, None)]
    ensures ps.FailedToStart? ==> c.result == Raised(ps.error)
    ensures ps.Completed? && ps.returncode != 0 ==>
      c.result == Returned(PsFailedResult(ps.returncode, ps.stderr))
    ensures ps.Completed? && ps.returncode == 0 ==>
      c.result == Returned(PList(EntryValues(Entries(SplitLines(ps.stdout)))))
  {
    var start := Run(PsArgv, None);
    if ps.FailedToStart? {
      return Call(Raised(ps.error), [start]);
    }
    if ps.returncode != 0 {
      return Call(Returned(PsFailedResult(ps.returncode, ps.stderr)), [start]);
    }
    var items := ParseEntries(SplitLines(ps.stdout));
    c := Call(Returned(PList(items)), [start]);
  }
}
