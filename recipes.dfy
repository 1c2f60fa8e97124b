/** The recipe table: for each dependency folder, on each operating system,
    the commands `build` runs and the environment overrides it runs them with,
    and the choices `clean` makes. `pwd` is `absCurrDir + "/" + folder`. */
module Recipes {
  import opened Types
  import opened Text
  import Runner

  datatype Recipe = Recipe(env: seq<string>, cmds: seq<seq<string>>)

  /** The build recipe of `folder`; `None` for a name that is not one of the
      five dependency folders. */
  function BuildTable(goos: Os, pwd: string, folder: string): (r: Option<Recipe>)
    ensures r.Some? <==> folder in Folders
    ensures r.Some? ==> Runner.WellFormed(r.value.cmds)
  {
    if folder == "openssl" then
      Some(Recipe([],
        [ ["sh", if goos == Windows then "./Configure" else "./config",
           "--prefix=" + pwd + "/dist", "no-shared", "no-dso", "no-zlib"]
          + (if goos == Windows then ["mingw64"] else []),
          ["make", "depend"],
          ["make"],
          ["make", "install"] ]))
    else if folder == "libevent" then
      Some(Recipe([],
        [ ["sh", "-l", "./autogen.sh"],
          ["sh", "./configure", "--prefix=" + pwd + "/dist",
           "--disable-shared", "--enable-static", "--with-pic"],
          ["make"],
          ["make", "install"] ]))
    else if folder == "zlib" then
      if goos == Windows then
        Some(Recipe(
          [ "PREFIX=" + pwd + "/dist", "BINARY_PATH=" + pwd + "/dist/bin",
            "INCLUDE_PATH=" + pwd + "/dist/include", "LIBRARY_PATH=" + pwd + "/dist/lib" ],
          [ ["make", "-fwin32/Makefile.gcc"],
            ["make", "install", "-fwin32/Makefile.gcc"] ]))
      else
        Some(Recipe([],
          [ ["sh", "./configure", "--prefix=" + pwd + "/dist"],
            ["make"],
            ["make", "install"] ]))
    else if folder == "xz" then
      Some(Recipe([],
        [ ["sh", "-l", "./autogen.sh"],
          ["sh", "./configure", "--prefix=" + pwd + "/dist", "--disable-shared", "--enable-static",
           "--disable-doc", "--disable-scripts", "--disable-xz", "--disable-xzdec", "--disable-lzmadec",
           "--disable-lzmainfo", "--disable-lzma-links"],
          ["make"],
          ["make", "install"] ]))
    else if folder == "tor" then
      Some(Recipe(if goos == Windows then ["LIBS=-lcrypt32"] else [],
        [ ["sh", "-l", "./autogen.sh"],
          ["sh", "./configure", "--prefix=" + pwd + "/dist", "--disable-gcc-hardening", "--enable-static-tor",
           "--enable-static-libevent", "--with-libevent-dir=" + pwd + "/../libevent/dist", "--enable-static-openssl",
           "--with-openssl-dir=" + pwd + "/../openssl/dist", "--enable-static-zlib",
           "--with-zlib-dir=" + pwd + "/../openssl/dist", "--disable-system-torrc", "--disable-asciidoc"],
          ["make"],
          ["make", "install"] ]))
    else
      None
  }

  /** The openssl recipe is four commands: configure with an install prefix
      and no shared objects, no DSO and no zlib, then `make depend`, `make`
      and `make install`; on Windows only the first command differs, by its
      script name and a trailing `mingw64` target. */
  lemma OpensslRecipe(goos: Os, pwd: string)
    ensures var r := BuildTable(goos, pwd, "openssl");
      && r.Some? && r.value.env == [] && |r.value.cmds| == 4
      && r.value.cmds[1..] == [["make", "depend"], ["make"], ["make", "install"]]
      && r.value.cmds[0][..1] == ["sh"]
      && r.value.cmds[0][2..6] == ["--prefix=" + pwd + "/dist", "no-shared", "no-dso", "no-zlib"]
    ensures var win := BuildTable(Windows, pwd, "openssl").value.cmds;
      var other := BuildTable(goos, pwd, "openssl").value.cmds;
      goos != Windows ==>
        && |other[0]| == 6 && other[0][1] == "./config"
        && win == other[0 := other[0][1 := "./Configure"] + ["mingw64"]]
  {
    if goos != Windows {
      var win := BuildTable(Windows, pwd, "openssl").value.cmds;
      var other := BuildTable(goos, pwd, "openssl").value.cmds;
      assert win[0] == other[0][1 := "./Configure"] + ["mingw64"];
    }
  }

  /** zlib on Windows skips `configure` and runs `make` with the alternate
      makefile, with four path overrides under `pwd/dist`. */
  lemma ZlibWindowsRecipe(pwd: string)
    ensures var r := BuildTable(Windows, pwd, "zlib").value;
      && r.env == [ "PREFIX=" + pwd + "/dist", "BINARY_PATH=" + pwd + "/dist/bin",
                    "INCLUDE_PATH=" + pwd + "/dist/include", "LIBRARY_PATH=" + pwd + "/dist/lib" ]
      && r.cmds == [["make", "-fwin32/Makefile.gcc"], ["make", "install", "-fwin32/Makefile.gcc"]]
      && (forall i :: 0 <= i < |r.cmds| ==> r.cmds[i][0] == "make" && r.cmds[i][|r.cmds[i]| - 1] == "-fwin32/Makefile.gcc")
      && (forall i :: 0 <= i < |r.cmds| ==> "./configure" !in r.cmds[i])
  {
  }

  /** tor's `--with-zlib-dir` names the very directory `--with-openssl-dir`
      names, openssl's install, not zlib's: the symbolic link `build` makes
      puts `libz.a` there. */
  lemma TorZlibDirIsOpensslDist(goos: Os, pwd: string)
    ensures var c := BuildTable(goos, pwd, "tor").value.cmds[1];
      && HasPrefix(c[8], "--with-openssl-dir=") && HasPrefix(c[10], "--with-zlib-dir=")
      && c[10][|"--with-zlib-dir="|..] == c[8][|"--with-openssl-dir="|..] == pwd + "/../openssl/dist"
  {
    var c := BuildTable(goos, pwd, "tor").value.cmds[1];
    assert c[10][|"--with-zlib-dir="|..] == pwd + "/../openssl/dist";
    assert c[8][|"--with-openssl-dir="|..] == pwd + "/../openssl/dist";
  }

  /** The path of the library directory that the openssl clean removes. */
  const OpensslLib := "openssl/dist/lib"

  /** `clean`'s environment overrides: zlib is told its install prefix. */
  function CleanEnv(cwd: string, folder: string): seq<string> {
    if folder == "zlib" then ["PREFIX=" + cwd + "/zlib/dist"] else []
  }

  /** `clean`'s makefile: zlib on Windows uses its alternate one. */
  function CleanMakefile(goos: Os, folder: string): string {
    if folder == "zlib" && goos == Windows then "win32/Makefile.gcc" else "Makefile"
  }

  /** `clean`'s arguments to `make`. */
  function CleanArgs(goos: Os, folder: string): seq<string> {
    if folder == "zlib" && goos == Windows then ["clean", "-fwin32/Makefile.gcc"] else ["clean"]
  }

  /** Every folder but zlib is cleaned by `make clean` with its `Makefile`
      and no overrides; zlib on Windows names the alternate makefile both in
      the presence check and on the command line. */
  lemma CleanPlanTable(goos: Os, cwd: string, folder: string)
    ensures folder != "zlib" ==>
      CleanEnv(cwd, folder) == [] && CleanMakefile(goos, folder) == "Makefile" && CleanArgs(goos, folder) == ["clean"]
    ensures folder == "zlib" ==> CleanEnv(cwd, folder) == ["PREFIX=" + cwd + "/zlib/dist"]
    ensures folder == "zlib" && goos == Windows ==>
      CleanMakefile(goos, folder) == "win32/Makefile.gcc"
      && CleanArgs(goos, folder) == ["clean", "-f" + CleanMakefile(goos, folder)]
    ensures folder == "zlib" && goos != Windows ==>
      CleanMakefile(goos, folder) == "Makefile" && CleanArgs(goos, folder) == ["clean"]
  {
    assert "-f" + "win32/Makefile.gcc" == "-fwin32/Makefile.gcc";
  }
}
