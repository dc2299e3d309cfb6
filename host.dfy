/** What the addon asks of its surroundings: Blender (`bpy`), the Python interpreter
    (`compile`/`exec` with captured streams), `urllib`, `tempfile` and `os`.

    Each collaborator is an oracle: a function of the history of host operations
    performed so far. That history (a `Log`) stands for the state of the host, so
    the oracles may answer differently as the scene and the file system change, and
    the order in which operations happen is visible in the history. */
module HostModel {
  import opened Values

  /** One operation performed on the host. */
  datatype Effect =
    | RunCode(code: string)            // compile + exec of submitted text
    | MakeTempDir(prefix: string)      // tempfile.mkdtemp(prefix=...)
    | Download(url: Json, path: string) // download_file(url, path)
    | MakeDirs(path: string)           // os.makedirs(path, exist_ok=True)
    | LoadLibrary(path: string)        // bpy.data.libraries.load(path)
    | LinkObject(name: string)         // bpy.context.collection.objects.link(obj)

  type Log = seq<Effect>

  /** What running submitted code yields. `Ran` carries the captured standard output
      and standard error; `Raised` is an `Exception` raised by the code, which the
      inner handler reports; `Broke` is an `Exception` raised outside the inner
      handler's reach (reading a capture the code closed, or the inner handler's own
      `print` or `str(e)`), which the outer handler reports with the text of its
      traceback; `Exited` is a `BaseException` outside `Exception` (`SystemExit`,
      `KeyboardInterrupt`), which no handler of the addon catches. */
  datatype RunOutcome =
    | Ran(stdout: string, stderr: string)
    | Raised(error: string)
    | Broke(error: string, traceback: string)
    | Exited(error: string)

  /** A host call that either returns a value or raises an exception with a message. */
  datatype Attempt<+T> = Done(value: T) | Failed(error: string)

  datatype Host = Host(
    run: (Log, string) -> RunOutcome,
    mkdtemp: (Log, string) -> Attempt<string>,
    download: (Log, Json, string) -> bool,
    makedirs: (Log, string) -> Attempt<()>,
    /** the objects a library yields: `None` for a null entry, else the object's name */
    load: (Log, string) -> Attempt<seq<Option<string>>>,
    link: (Log, string) -> Attempt<()>,
    sceneInfo: Log -> Json,
    /** Python's `str()` of a value that is not a string */
    display: Json -> string)

  /** The result of one unit of host work: a response, or an exception that escapes
      every handler; in both cases the history as it stands afterwards. */
  datatype Step = Completed(response: Json, log: Log) | Escaped(error: string, log: Log)

  /** `f"{v}"` of a decoded JSON value. */
  function Format(host: Host, v: Json): string
  {
    if v.Str? then v.s else host.display(v)
  }

  /** `os.path.join(dir, name)` on POSIX. */
  function Join(dir: string, name: string): string
  {
    if name != [] && name[0] == '/' then name
    else if dir == [] || dir[|dir| - 1] == '/' then dir + name
    else dir + "/" + name
  }

  /** `os.path.basename(p)` on POSIX. */
  function Basename(p: string): string
  {
    if p == [] || p[|p| - 1] == '/' then []
    else Basename(p[..|p| - 1]) + [p[|p| - 1]]
  }

  /** The joined path ends with `name`; a relative `name` is put under `dir`, an
      absolute one replaces it. */
  lemma JoinPlacesName(dir: string, name: string)
    ensures var r := Join(dir, name);
            |name| <= |r| && r[|r| - |name|..] == name &&
            (name != [] && name[0] == '/' ==> r == name) &&
            ((name == [] || name[0] != '/') ==> |dir| <= |r| && r[..|dir|] == dir)
  {
  }

  /** The base name is the part of `p` after its last `/`: a suffix of `p` without
      `/`, preceded in `p` by a `/` unless it is all of `p`. */
  lemma {:induction false} BasenameIsLastComponent(p: string)
    ensures var r := Basename(p);
            '/' !in r && |r| <= |p| && r == p[|p| - |r|..] &&
            (|r| < |p| ==> p[|p| - |r| - 1] == '/')
  {
    if p != [] && p[|p| - 1] != '/' {
      var q, c := p[..|p| - 1], p[|p| - 1];
      BasenameIsLastComponent(q);
      var r, rq := Basename(p), Basename(q);
      assert r == rq + [c];
      assert p == q + [c];
      assert p[|p| - |r|..] == q[|q| - |rq|..] + [c];
      assert |r| < |p| ==> p[|p| - |r| - 1] == q[|q| - |rq| - 1];
    }
  }
}
