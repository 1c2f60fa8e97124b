/** Values shared by every part of the model of the tor-static build
    orchestrator: the host facts it reads, the side effects it performs, the
    errors it returns, and the way one step's outcome is chained to the next. */
module Types {

  datatype Option<T> = None | Some(value: T)

  /** `runtime.GOOS`, as far as the program tells operating systems apart. */
  datatype Os = Windows | Linux | OtherOs

  /** What `os.Stat` reports for a path: it does not exist, it could not be
      examined for another reason, or it is a file or a directory. */
  datatype StatResult = Missing | StatError | RegularFile | Directory

  /** One external process started through `runCmd`: the folder it runs in
      (empty for the program's own directory), the environment overrides that
      are appended to the inherited environment, the program and its arguments. */
  datatype Invocation = Invocation(dir: string, env: seq<string>, prog: string, args: seq<string>)

  /** The observable side effects, in the order they happen. */
  datatype Event =
    | Probed(prog: string, args: seq<string>)  // a diagnostic `uname` or `pacman` query
    | Ran(inv: Invocation)                      // a process started by `runCmd`
    | Removed(path: string)                     // an `os.RemoveAll`

  /** One constructor per distinct error the program can return. */
  datatype Error =
    | NotADir(folder: string)                  // validation: required folder absent
    | NoMsysShell                               // Windows: `uname -a` could not run
    | NotMingw64Shell                           // Windows: `uname -a` lacks the MINGW64 signature
    | PacmanFailed(pkg: string)                 // Windows: `pacman -Q` could not run
    | PackageMismatch(pkg: string, version: string, got: string)
    | UnameFailed                               // Linux: `uname -a` could not run
    | MingwOnLinux                              // Linux binary started from a MinGW shell
    | InvalidCommand(cmd: string)
    | UnrecognizedFolder(folder: string)        // build of an unknown folder
    | NotADirectory(folder: string)             // clean of a folder that is not a directory
    | RemoveFailed(path: string)
    | SymlinkFailed(cause: Error)
    | CommandFailed(inv: Invocation)

  /** Everything the program learns from its host.  `cwd` is the value of the
      `absCurrDir` global (see `Paths.AbsCurrDir`); `fs` maps paths relative to
      the working directory to what `os.Stat` says of them (an absent path is
      `Missing`); `uname` is the output of `uname -a` (`None` when it could not
      run); `pacman` maps a package name to the output of `pacman -Q` (absent
      when the query failed); `failing` is the oracle that says which processes
      exit unsuccessfully; `removeFails` says whether `os.RemoveAll` errs. */
  datatype World = World(
    os: Os,
    cwd: string,
    fs: map<string, StatResult>,
    uname: Option<string>,
    pacman: map<string, string>,
    failing: set<Invocation>,
    removeFails: bool)

  /** `os.Stat(path)`; the empty path never exists. */
  function StatOf(w: World, path: string): StatResult {
    if path == "" || path !in w.fs then Missing else w.fs[path]
  }

  /** The dependency folders, in the order every check and every `all` loop uses. */
  const Folders: seq<string> := ["openssl", "libevent", "zlib", "xz", "tor"]

  /** What one step did: its error, if any, and the events it caused. */
  datatype Outcome = Outcome(err: Option<Error>, trace: seq<Event>)

  const Done := Outcome(None, [])

  /** Run `a`, and `b` only when `a` succeeded (Go's `if err != nil { return err }`). */
  function Then(a: Outcome, b: Outcome): Outcome {
    if a.err.Some? then a else Outcome(b.err, a.trace + b.trace)
  }

  lemma ThenAssociative(a: Outcome, b: Outcome, c: Outcome)
    ensures Then(Then(a, b), c) == Then(a, Then(b, c))
  {
  }
}
