/** The dispatcher: `run` validates the environment and then hands a
    `build-<folder>` or `clean-<folder>` command to `build` or `clean`, which
    look the folder up in the recipe table and run its commands in order,
    stopping at the first failure. */
module Orchestrator {
  import opened Types
  import opened Text
  import opened Runner
  import opened Recipes
  import opened Validate

  /** The folder's absolute path, `absCurrDir + "/" + folder`. */
  function Pwd(w: World, folder: string): string {
    w.cwd + "/" + folder
  }

  /** The link `build` makes from zlib's `libz.a` into openssl's library
      directory before building tor. */
  function LinkLibz(pwd: string): Invocation {
    Invocation("", [], "ln", ["-s", pwd + "/../zlib/dist/lib/libz.a", pwd + "/../openssl/dist/lib/libz.a"])
  }

  /** The step before the tor build: the link is made only when
      `openssl/dist/lib/libz.a` does not exist, and a failure is reported as
      a failure to make the link. */
  function LinkStep(w: World, pwd: string): Outcome {
    if StatOf(w, "openssl/dist/lib/libz.a") != Missing then Done
    else
      var inv := LinkLibz(pwd);
      Outcome(if inv in w.failing then Some(SymlinkFailed(CommandFailed(inv))) else None, [Ran(inv)])
  }

  /** What `clean` does for one folder name other than `all`. */
  function CleanFolderSpec(w: World, folder: string): Outcome {
    var removal :=
      if folder == "openssl" then
        Outcome(if w.removeFails then Some(RemoveFailed(OpensslLib)) else None, [Removed(OpensslLib)])
      else Done;
    var make :=
      if StatOf(w, folder) != Directory then Outcome(Some(NotADirectory(folder)), [])
      else if StatOf(w, folder + "/" + CleanMakefile(w.os, folder)) == Missing then Done
      else RunCmd(w, Invocation(folder, CleanEnv(w.cwd, folder), "make", CleanArgs(w.os, folder)));
    Then(removal, make)
  }

  /** Cleaning the folders of `fs` in order, stopping at the first failure. */
  function CleanEach(w: World, fs: seq<string>): Outcome {
    if fs == [] then Done else Then(CleanFolderSpec(w, fs[0]), CleanEach(w, fs[1..]))
  }

  /** The traces of cleaning each folder of `fs` on its own, in list order. */
  function CleanTraces(w: World, fs: seq<string>): seq<seq<Event>> {
    seq(|fs|, i requires 0 <= i < |fs| => CleanFolderSpec(w, fs[i]).trace)
  }

  /** The traces of `ts`, one after another. */
  function Concat(ts: seq<seq<Event>>): seq<Event> {
    if ts == [] then [] else ts[0] + Concat(ts[1..])
  }

  /** What `clean` does. */
  function CleanSpec(w: World, folder: string): Outcome {
    if folder == "all" then CleanEach(w, Folders) else CleanFolderSpec(w, folder)
  }

  /** What `build` does: `all` cleans every folder (it does not build them). */
  function BuildSpec(w: World, folder: string): Outcome {
    if folder == "all" then CleanEach(w, Folders)
    else
      match BuildTable(w.os, Pwd(w, folder), folder)
      case None => Outcome(Some(UnrecognizedFolder(folder)), [])
      case Some(r) =>
        Then(if folder == "tor" then LinkStep(w, Pwd(w, folder)) else Done,
             Exec(w, At(folder, r.env, r.cmds)))
  }

  /** The prefix dispatch of `run`. */
  function Dispatch(w: World, cmd: string): Outcome {
    if HasPrefix(cmd, "build-") then BuildSpec(w, cmd[6..])
    else if HasPrefix(cmd, "clean-") then CleanSpec(w, cmd[6..])
    else Outcome(Some(InvalidCommand(cmd)), [])
  }

  /** What `run` does: validate, then dispatch. */
  function RunSpec(w: World, cmd: string): Outcome {
    Then(ValidateSpec(w), Dispatch(w, cmd))
  }

  // ---------------------------------------------------------------------
  // The program's operations

  /** `run`. */
  method Run(w: World, cmd: string) returns (o: Outcome)
    ensures o == RunSpec(w, cmd)
  {
    var v := ValidateEnvironment(w);
    if v.err.Some? {
      return v;
    }
    var d: Outcome;
    if HasPrefix(cmd, "build-") {
      d := Build(w, cmd[6..]);
    } else if HasPrefix(cmd, "clean-") {
      d := Clean(w, cmd[6..]);
    } else {
      d := Outcome(Some(InvalidCommand(cmd)), []);
    }
    o := Outcome(d.err, v.trace + d.trace);
  }

  /** `build`. */
  method Build(w: World, folder: string) returns (o: Outcome)
    ensures o == BuildSpec(w, folder)
  {
    var pwd := w.cwd + "/" + folder;
    if folder == "all" {
      var trace: seq<Event> := [];
      var i := 0;
      while i < |Folders|
        invariant 0 <= i <= |Folders|
        invariant CleanEach(w, Folders[..i]) == Outcome(None, trace)
      {
        var c := Clean(w, Folders[i]);
        CleanEachStep(w, Folders, i);
        if c.err.Some? {
          return Outcome(c.err, trace + c.trace);
        }
        trace := trace + c.trace;
        i := i + 1;
      }
      assert Folders[..i] == Folders;
      o := Outcome(None, trace);
    } else if folder == "openssl" {
      o := BuildOpenssl(w);
    } else if folder == "libevent" {
      o := BuildLibevent(w);
    } else if folder == "zlib" {
      o := BuildZlib(w);
    } else if folder == "xz" {
      o := BuildXz(w);
    } else if folder == "tor" {
      o := BuildTor(w);
    } else {
      o := Outcome(Some(UnrecognizedFolder(folder)), []);
    }
  }

  // The five methods below write each folder's command list out the way the
  // Go code does; `Recipes.BuildTable` is the one definition of the recipes,
  // and each method is proved to run exactly what the table gives.

  /** The openssl case of `build`: the configure command is edited in place
      for Windows. */
  method BuildOpenssl(w: World) returns (o: Outcome)
    ensures o == BuildSpec(w, "openssl")
  {
    var folder := "openssl";
    var pwd := w.cwd + "/" + folder;
    var cmds := [
      ["sh", "./config", "--prefix=" + pwd + "/dist", "no-shared", "no-dso", "no-zlib"],
      ["make", "depend"],
      ["make"],
      ["make", "install"]
    ];
    if w.os == Windows {
      cmds := cmds[0 := cmds[0] + ["mingw64"]];
      cmds := cmds[0 := cmds[0][1 := "./Configure"]];
    }
    assert cmds[0] == BuildTable(w.os, pwd, folder).value.cmds[0];
    assert cmds == BuildTable(w.os, pwd, folder).value.cmds;
    o := RunCmds(w, folder, [], cmds);
    assert [] + o.trace == o.trace;
  }

  /** The libevent case of `build`. */
  method BuildLibevent(w: World) returns (o: Outcome)
    ensures o == BuildSpec(w, "libevent")
  {
    var folder := "libevent";
    var pwd := w.cwd + "/" + folder;
    o := RunCmds(w, folder, [], [
      ["sh", "-l", "./autogen.sh"],
      ["sh", "./configure", "--prefix=" + pwd + "/dist",
       "--disable-shared", "--enable-static", "--with-pic"],
      ["make"],
      ["make", "install"]
    ]);
    assert [] + o.trace == o.trace;
  }

  /** The zlib case of `build`: on Windows the environment and the commands
      are replaced. */
  method BuildZlib(w: World) returns (o: Outcome)
    ensures o == BuildSpec(w, "zlib")
  {
    var folder := "zlib";
    var pwd := w.cwd + "/" + folder;
    var env: seq<string> := [];
    var cmds := [["sh", "./configure", "--prefix=" + pwd + "/dist"], ["make"], ["make", "install"]];
    if w.os == Windows {
      env := ["PREFIX=" + pwd + "/dist", "BINARY_PATH=" + pwd + "/dist/bin",
              "INCLUDE_PATH=" + pwd + "/dist/include", "LIBRARY_PATH=" + pwd + "/dist/lib"];
      cmds := [["make", "-fwin32/Makefile.gcc"], ["make", "install", "-fwin32/Makefile.gcc"]];
    }
    o := RunCmds(w, folder, env, cmds);
    assert [] + o.trace == o.trace;
  }

  /** The xz case of `build`. */
  method BuildXz(w: World) returns (o: Outcome)
    ensures o == BuildSpec(w, "xz")
  {
    var folder := "xz";
    var pwd := w.cwd + "/" + folder;
    o := RunCmds(w, folder, [], [
      ["sh", "-l", "./autogen.sh"],
      ["sh", "./configure", "--prefix=" + pwd + "/dist", "--disable-shared", "--enable-static",
       "--disable-doc", "--disable-scripts", "--disable-xz", "--disable-xzdec", "--disable-lzmadec",
       "--disable-lzmainfo", "--disable-lzma-links"],
      ["make"],
      ["make", "install"]
    ]);
    assert [] + o.trace == o.trace;
  }

  /** The tor case of `build`: link zlib's library into openssl's when it is
      missing there, then build with the Windows link override if needed. */
  method BuildTor(w: World) returns (o: Outcome)
    ensures o == BuildSpec(w, "tor")
  {
    var folder := "tor";
    var pwd := w.cwd + "/" + folder;
    var trace: seq<Event> := [];
    if StatOf(w, "openssl/dist/lib/libz.a") == Missing {
      var link := Invocation("", [], "ln", ["-s", pwd + "/../zlib/dist/lib/libz.a", pwd + "/../openssl/dist/lib/libz.a"]);
      trace := [Ran(link)];
      if link in w.failing {
        return Outcome(Some(SymlinkFailed(CommandFailed(link))), trace);
      }
    }
    var env: seq<string> := [];
    if w.os == Windows {
      env := ["LIBS=-lcrypt32"];
    }
    var r := RunCmds(w, folder, env, [
      ["sh", "-l", "./autogen.sh"],
      ["sh", "./configure", "--prefix=" + pwd + "/dist", "--disable-gcc-hardening", "--enable-static-tor",
       "--enable-static-libevent", "--with-libevent-dir=" + pwd + "/../libevent/dist", "--enable-static-openssl",
       "--with-openssl-dir=" + pwd + "/../openssl/dist", "--enable-static-zlib",
       "--with-zlib-dir=" + pwd + "/../openssl/dist", "--disable-system-torrc", "--disable-asciidoc"],
      ["make"],
      ["make", "install"]
    ]);
    o := Outcome(r.err, trace + r.trace);
  }

  /** `clean`. */
  method Clean(w: World, folder: string) returns (o: Outcome)
    ensures o == CleanSpec(w, folder)
    decreases if folder == "all" then 1 else 0
  {
    if folder == "all" {
      var trace: seq<Event> := [];
      var i := 0;
      while i < |Folders|
        invariant 0 <= i <= |Folders|
        invariant CleanEach(w, Folders[..i]) == Outcome(None, trace)
      {
        assert Folders[i] != "all";
        var c := Clean(w, Folders[i]);
        CleanEachStep(w, Folders, i);
        if c.err.Some? {
          return Outcome(c.err, trace + c.trace);
        }
        trace := trace + c.trace;
        i := i + 1;
      }
      assert Folders[..i] == Folders;
      return Outcome(None, trace);
    }
    var args := ["clean"];
    var env: seq<string> := [];
    var makefile := "Makefile";
    var trace: seq<Event> := [];
    if folder == "openssl" {
      // OpenSSL needs to have its installed libraries removed first.
      trace := [Removed("openssl/dist/lib")];
      if w.removeFails {
        return Outcome(Some(RemoveFailed("openssl/dist/lib")), trace);
      }
    } else if folder == "zlib" {
      // zlib needs a prefix and, on Windows, its own makefile.
      env := env + ["PREFIX=" + w.cwd + "/zlib/dist"];
      if w.os == Windows {
        makefile := "win32/Makefile.gcc";
        args := args + ["-fwin32/Makefile.gcc"];
      }
    }
    if StatOf(w, folder) != Directory {
      return Outcome(Some(NotADirectory(folder)), trace);
    } else if StatOf(w, folder + "/" + makefile) == Missing {
      // No makefile: there is nothing for `make clean` to do.
      return Outcome(None, trace);
    }
    var inv := Invocation(folder, env, "make", args);
    assert inv == Invocation(folder, CleanEnv(w.cwd, folder), "make", CleanArgs(w.os, folder));
    var r := RunCmd(w, inv);
    o := Outcome(r.err, trace + r.trace);
  }

  /** Helper for the `all` loops: after `i` folders cleaned without error,
      the next folder's outcome decides the cumulative one, and a failure
      there is the outcome of the whole list. */
  lemma CleanEachStep(w: World, fs: seq<string>, i: nat)
    requires i < |fs| && CleanEach(w, fs[..i]).err.None?
    ensures CleanEach(w, fs[..i + 1]) == Then(CleanEach(w, fs[..i]), CleanFolderSpec(w, fs[i]))
    ensures CleanFolderSpec(w, fs[i]).err.Some? ==> CleanEach(w, fs) == CleanEach(w, fs[..i + 1])
  {
    var c := CleanFolderSpec(w, fs[i]);
    assert fs[..i + 1] == fs[..i] + [fs[i]];
    CleanEachAppend(w, fs[..i], [fs[i]]);
    assert CleanEach(w, [fs[i]]) == Then(c, Done);
    if c.err.None? {
      assert c.trace + [] == c.trace;
    }
    assert fs == fs[..i + 1] + fs[i + 1..];
    CleanEachAppend(w, fs[..i + 1], fs[i + 1..]);
  }

  /** Cleaning two lists back to back is cleaning the first and, if that
      succeeded, the second. */
  lemma {:induction false} CleanEachAppend(w: World, a: seq<string>, b: seq<string>)
    ensures CleanEach(w, a + b) == Then(CleanEach(w, a), CleanEach(w, b))
  {
    if a == [] {
      assert a + b == b;
      assert [] + CleanEach(w, b).trace == CleanEach(w, b).trace;
    } else {
      assert (a + b)[1..] == a[1..] + b;
      CleanEachAppend(w, a[1..], b);
      ThenAssociative(CleanFolderSpec(w, a[0]), CleanEach(w, a[1..]), CleanEach(w, b));
    }
  }

  // ---------------------------------------------------------------------
  // Properties of the dispatcher

  /** Validation comes first: when it fails, its error is the result and
      nothing but its own queries has happened — no build or clean step. */
  lemma RunValidatesFirst(w: World, cmd: string)
    requires ValidateSpec(w).err.Some?
    ensures RunSpec(w, cmd) == ValidateSpec(w)
    ensures forall i :: 0 <= i < |RunSpec(w, cmd).trace| ==> RunSpec(w, cmd).trace[i].Probed?
  {
    ValidateOnlyProbes(w);
  }

  /** After a successful validation, `build-<f>` runs `build(f)`, `clean-<f>`
      runs `clean(f)`, and any other command is refused without running
      anything. */
  lemma RunDispatchesOnPrefix(w: World, cmd: string)
    requires ValidateSpec(w).err.None?
    ensures HasPrefix(cmd, "build-") ==>
      RunSpec(w, cmd) == Outcome(BuildSpec(w, cmd[6..]).err, ValidateSpec(w).trace + BuildSpec(w, cmd[6..]).trace)
    ensures HasPrefix(cmd, "clean-") ==>
      RunSpec(w, cmd) == Outcome(CleanSpec(w, cmd[6..]).err, ValidateSpec(w).trace + CleanSpec(w, cmd[6..]).trace)
    ensures !HasPrefix(cmd, "build-") && !HasPrefix(cmd, "clean-") ==>
      && RunSpec(w, cmd).err == Some(InvalidCommand(cmd))
      && forall i :: 0 <= i < |RunSpec(w, cmd).trace| ==> RunSpec(w, cmd).trace[i].Probed?
  {
    ValidateOnlyProbes(w);
    if HasPrefix(cmd, "build-") {
      assert cmd[..6] == "build-";
      assert !HasPrefix(cmd, "clean-") by { assert cmd[0] != 'c'; }
    }
    if !HasPrefix(cmd, "build-") && !HasPrefix(cmd, "clean-") {
      assert RunSpec(w, cmd).trace == ValidateSpec(w).trace + [];
    }
  }

  /** `build all` cleans the folders instead of building them. */
  lemma BuildAllCleans(w: World)
    ensures BuildSpec(w, "all") == CleanSpec(w, "all")
  {
  }

  /** `build` of a name that is not a dependency folder fails with an
      unrecognized-folder error and runs nothing. */
  lemma BuildUnknownFolder(w: World, folder: string)
    requires folder != "all" && folder !in Folders
    ensures BuildSpec(w, folder) == Outcome(Some(UnrecognizedFolder(folder)), [])
  {
  }

  /** `clean` of a name that is not a dependency folder is not refused as
      unrecognized: it fails as "not a directory" when no such directory
      exists, having run nothing. */
  lemma CleanUnknownFolder(w: World, folder: string)
    requires folder != "all" && folder !in Folders && StatOf(w, folder) != Directory
    ensures CleanSpec(w, folder) == Outcome(Some(NotADirectory(folder)), [])
  {
  }

  /** A folder without its makefile is cleaned successfully without running
      `make`; only openssl's library removal, if any, happens. */
  lemma CleanSkipsWithoutMakefile(w: World, folder: string)
    requires folder != "all" && StatOf(w, folder) == Directory
    requires StatOf(w, folder + "/" + CleanMakefile(w.os, folder)) == Missing
    requires folder == "openssl" ==> !w.removeFails
    ensures CleanSpec(w, folder).err.None?
    ensures CleanSpec(w, folder).trace == if folder == "openssl" then [Removed(OpensslLib)] else []
  {
    if folder == "openssl" {
      assert [Removed(OpensslLib)] + [] == [Removed(OpensslLib)];
    }
  }

  /** The clean of zlib on Windows checks for and names the alternate
      makefile, and passes the install prefix in the environment. */
  lemma CleanZlibOnWindows(w: World)
    requires w.os == Windows && StatOf(w, "zlib") == Directory
    requires StatOf(w, "zlib/win32/Makefile.gcc") != Missing
    ensures CleanSpec(w, "zlib") ==
      RunCmd(w, Invocation("zlib", ["PREFIX=" + w.cwd + "/zlib/dist"], "make", ["clean", "-fwin32/Makefile.gcc"]))
  {
    assert "zlib" + "/" + "win32/Makefile.gcc" == "zlib/win32/Makefile.gcc";
    assert [] + RunCmd(w, Invocation("zlib", ["PREFIX=" + w.cwd + "/zlib/dist"], "make", ["clean", "-fwin32/Makefile.gcc"])).trace
      == RunCmd(w, Invocation("zlib", ["PREFIX=" + w.cwd + "/zlib/dist"], "make", ["clean", "-fwin32/Makefile.gcc"])).trace;
  }

  /** Cleaning a list succeeds exactly when every folder's clean succeeds,
      and then its trace is theirs, in list order. */
  lemma {:induction false} CleanEachSucceedsIff(w: World, fs: seq<string>)
    ensures CleanEach(w, fs).err.None? <==> forall i :: 0 <= i < |fs| ==> CleanFolderSpec(w, fs[i]).err.None?
    ensures CleanEach(w, fs).err.None? ==> CleanEach(w, fs).trace == Concat(CleanTraces(w, fs))
  {
    if fs != [] {
      CleanEachSucceedsIff(w, fs[1..]);
      assert CleanTraces(w, fs)[1..] == CleanTraces(w, fs[1..]);
      assert forall i :: 1 <= i < |fs| ==> fs[i] == fs[1..][i - 1];
    }
  }

  /** The `all` loops stop at the first folder whose clean fails: its error
      is the result, and no later folder is touched. */
  lemma CleanEachStopsAtFirstFailure(w: World, fs: seq<string>, k: nat)
    requires k < |fs| && CleanFolderSpec(w, fs[k]).err.Some?
    requires forall i :: 0 <= i < k ==> CleanFolderSpec(w, fs[i]).err.None?
    ensures CleanEach(w, fs[..k]).err.None?
    ensures CleanEach(w, fs) ==
      Outcome(CleanFolderSpec(w, fs[k]).err, CleanEach(w, fs[..k]).trace + CleanFolderSpec(w, fs[k]).trace)
  {
    CleanEachSucceedsIff(w, fs[..k]);
    CleanEachStep(w, fs, k);
  }

  /** Outside Windows, a successful `build openssl` runs exactly four
      commands in the openssl folder: configure with the install prefix and
      no shared objects, DSO or zlib, then `make depend`, `make`, `make install`. */
  lemma BuildOpensslSequence(w: World)
    requires w.os != Windows && BuildSpec(w, "openssl").err.None?
    ensures var pwd := Pwd(w, "openssl");
      BuildSpec(w, "openssl").trace == [
        Ran(Invocation("openssl", [], "sh", ["./config", "--prefix=" + pwd + "/dist", "no-shared", "no-dso", "no-zlib"])),
        Ran(Invocation("openssl", [], "make", ["depend"])),
        Ran(Invocation("openssl", [], "make", [])),
        Ran(Invocation("openssl", [], "make", ["install"]))]
  {
    var r := BuildTable(w.os, Pwd(w, "openssl"), "openssl").value;
    var invs := At("openssl", r.env, r.cmds);
    assert BuildSpec(w, "openssl") == Then(Done, Exec(w, invs));
    assert BuildSpec(w, "openssl").trace == Runs(invs);
    assert r.cmds[0][1..] == ["./config", "--prefix=" + Pwd(w, "openssl") + "/dist", "no-shared", "no-dso", "no-zlib"];
    assert r.cmds[1][1..] == ["depend"];
    assert r.cmds[2][1..] == [];
    assert r.cmds[3][1..] == ["install"];
  }

  /** A known folder other than tor is built by running its recipe and
      nothing else, so the runner's guarantees carry over: commands in recipe
      order, stopping at the first failure. */
  lemma BuildKnownFolderRunsRecipe(w: World, folder: string)
    requires folder in Folders && folder != "tor"
    ensures var r := BuildTable(w.os, Pwd(w, folder), folder).value;
      BuildSpec(w, folder) == Exec(w, At(folder, r.env, r.cmds))
  {
    var r := BuildTable(w.os, Pwd(w, folder), folder).value;
    assert [] + Exec(w, At(folder, r.env, r.cmds)).trace == Exec(w, At(folder, r.env, r.cmds)).trace;
  }

  /** The tor build makes the zlib link only when openssl's `libz.a` is
      missing; if making it fails, no tor command runs, and otherwise tor's
      recipe runs after it. */
  lemma BuildTorLinksFirst(w: World)
    ensures var r := BuildTable(w.os, Pwd(w, "tor"), "tor").value;
      StatOf(w, "openssl/dist/lib/libz.a") != Missing ==>
        BuildSpec(w, "tor") == Exec(w, At("tor", r.env, r.cmds))
    ensures var link := LinkLibz(Pwd(w, "tor"));
      StatOf(w, "openssl/dist/lib/libz.a") == Missing && link in w.failing ==>
        BuildSpec(w, "tor") == Outcome(Some(SymlinkFailed(CommandFailed(link))), [Ran(link)])
    ensures var r := BuildTable(w.os, Pwd(w, "tor"), "tor").value;
      var e := Exec(w, At("tor", r.env, r.cmds));
      var link := LinkLibz(Pwd(w, "tor"));
      StatOf(w, "openssl/dist/lib/libz.a") == Missing && link !in w.failing ==>
        BuildSpec(w, "tor") == Outcome(e.err, [Ran(link)] + e.trace)
  {
    var r := BuildTable(w.os, Pwd(w, "tor"), "tor").value;
    assert [] + Exec(w, At("tor", r.env, r.cmds)).trace == Exec(w, At("tor", r.env, r.cmds)).trace;
  }

  /** Nothing `clean` later looks at lies under the directory the openssl
      clean removes, neither openssl's own folder and makefile nor those of
      the later folders, so treating the file system as fixed for one run
      loses nothing. */
  lemma RemovalUnseenByLaterStats(goos: Os)
    ensures !HasPrefix("openssl", OpensslLib)
    ensures !HasPrefix("openssl/" + CleanMakefile(goos, "openssl"), OpensslLib)
    ensures forall k :: 1 <= k < |Folders| ==>
      && !HasPrefix(Folders[k], OpensslLib)
      && !HasPrefix(Folders[k] + "/" + CleanMakefile(goos, Folders[k]), OpensslLib)
  {
    assert ("openssl/" + CleanMakefile(goos, "openssl"))[8] != OpensslLib[8];
    forall k | 1 <= k < |Folders|
      ensures !HasPrefix(Folders[k], OpensslLib)
      ensures !HasPrefix(Folders[k] + "/" + CleanMakefile(goos, Folders[k]), OpensslLib)
    {
      var f := Folders[k];
      assert f[0] != OpensslLib[0];
      assert (f + "/" + CleanMakefile(goos, f))[0] == f[0];
    }
  }
}
