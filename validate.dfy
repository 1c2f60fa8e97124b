/** `validateEnvironment`: every dependency folder must be a directory; on
    Windows the shell must be MinGW64 and four MinGW packages must be at
    exact versions; on Linux the shell must not be MinGW. */
module Validate {
  import opened Types
  import opened Text

  datatype Package = Package(name: string, version: string)

  /** The packages checked, in the order they are checked. */
  const Packages: seq<Package> := [
    Package("mingw-w64-x86_64-crt-git", "5.0.0.4745.d2384c2-1"),
    Package("mingw-w64-x86_64-headers-git", "5.0.0.4747.0f8f626-1"),
    Package("mingw-w64-x86_64-winpthreads-git", "5.0.0.4741.2c8939a-1"),
    Package("mingw-w64-x86_64-libwinpthread-git", "5.0.0.4741.2c8939a-1")
  ]

  const UnameProbe: Event := Probed("uname", ["-a"])

  function PacmanProbe(p: Package): Event {
    Probed("pacman", ["-Q", p.name])
  }

  /** The line `pacman -Q` prints for a package at the expected version. */
  function Expected(p: Package): string {
    p.name + " " + p.version
  }

  /** `confirmPackage`: the query must run, and its output, with surrounding
      white space removed, must be exactly the expected line. */
  function ConfirmPackage(w: World, p: Package): (r: Option<Error>)
    ensures p.name !in w.pacman ==> r == Some(PacmanFailed(p.name))
    ensures r.Some? && p.name in w.pacman ==>
      r.value.PackageMismatch? && r.value.pkg == p.name && r.value.version == p.version
  {
    if p.name !in w.pacman then Some(PacmanFailed(p.name))
    else if TrimSpace(w.pacman[p.name]) != Expected(p) then
      Some(PackageMismatch(p.name, p.version, TrimSpace(w.pacman[p.name])))
    else None
  }

  /** A package check passes exactly when the query ran and printed the
      expected line with nothing but white space around it; when the query
      could not run the error names the package, and on any other output it
      carries what was printed instead. */
  lemma ConfirmPackageIffPadded(w: World, k: nat)
    requires k < |Packages|
    ensures ConfirmPackage(w, Packages[k]).None? <==>
      Packages[k].name in w.pacman && exists i, j :: PaddedAt(w.pacman[Packages[k].name], Expected(Packages[k]), i, j)
    ensures Packages[k].name !in w.pacman ==> ConfirmPackage(w, Packages[k]) == Some(PacmanFailed(Packages[k].name))
    ensures Packages[k].name in w.pacman && ConfirmPackage(w, Packages[k]).Some? ==>
      ConfirmPackage(w, Packages[k]) ==
        Some(PackageMismatch(Packages[k].name, Packages[k].version, TrimSpace(w.pacman[Packages[k].name])))
  {
    var p := Packages[k];
    var e := Expected(p);
    assert !IsSpace(e[0]) && !IsSpace(e[|e| - 1]);
    if p.name in w.pacman {
      TrimSpaceIsUnpadding(w.pacman[p.name], e);
    }
  }

  /** The index of the first folder of `fs` that is not a directory. */
  function FirstNonDir(w: World, fs: seq<string>): (r: Option<nat>)
    ensures r.None? <==> forall i :: 0 <= i < |fs| ==> StatOf(w, fs[i]) == Directory
    ensures r.Some? ==>
      && r.value < |fs|
      && StatOf(w, fs[r.value]) != Directory
      && forall i :: 0 <= i < r.value ==> StatOf(w, fs[i]) == Directory
  {
    if fs == [] then None
    else if StatOf(w, fs[0]) != Directory then Some(0)
    else
      var rest := FirstNonDir(w, fs[1..]);
      assert forall i :: 1 <= i < |fs| ==> fs[i] == fs[1..][i - 1];
      if rest.None? then None else Some(rest.value + 1)
  }

  /** The four package checks chained through one error: each runs only when
      the ones before it passed. */
  function PackageChecks(w: World, ps: seq<Package>): Outcome {
    if ps == [] then Done
    else
      var c := ConfirmPackage(w, ps[0]);
      if c.Some? then Outcome(c, [PacmanProbe(ps[0])])
      else
        var rest := PackageChecks(w, ps[1..]);
        Outcome(rest.err, [PacmanProbe(ps[0])] + rest.trace)
  }

  /** The packages queried are a prefix of the list, in list order; the
      checks fail exactly when one package does not match, and then the
      error is that of the first mismatching package, the last one queried. */
  lemma {:induction false} PackageChecksShortCircuit(w: World, ps: seq<Package>)
    ensures var r := PackageChecks(w, ps);
      && |r.trace| <= |ps|
      && (forall i :: 0 <= i < |r.trace| ==> r.trace[i] == PacmanProbe(ps[i]))
      && (r.err.None? <==> forall i :: 0 <= i < |ps| ==> ConfirmPackage(w, ps[i]).None?)
      && (r.err.None? ==> |r.trace| == |ps|)
      && (r.err.Some? ==>
            && |r.trace| > 0
            && r.err == ConfirmPackage(w, ps[|r.trace| - 1])
            && forall i :: 0 <= i < |r.trace| - 1 ==> ConfirmPackage(w, ps[i]).None?)
  {
    if ps != [] && ConfirmPackage(w, ps[0]).None? {
      PackageChecksShortCircuit(w, ps[1..]);
      assert forall i :: 1 <= i < |ps| ==> ps[i] == ps[1..][i - 1];
    }
  }

  /** What `validateEnvironment` returns and which probes it starts. */
  function ValidateSpec(w: World): Outcome {
    match FirstNonDir(w, Folders)
    case Some(k) => Outcome(Some(NotADir(Folders[k])), [])
    case None =>
      match w.os
      case Windows =>
        if w.uname.None? then Outcome(Some(NoMsysShell), [UnameProbe])
        else if !HasPrefix(w.uname.value, "MINGW64") then Outcome(Some(NotMingw64Shell), [UnameProbe])
        else Then(Outcome(None, [UnameProbe]), PackageChecks(w, Packages))
      case Linux =>
        if w.uname.None? then Outcome(Some(UnameFailed), [UnameProbe])
        else if HasPrefix(w.uname.value, "MINGW") then Outcome(Some(MingwOnLinux), [UnameProbe])
        else Outcome(None, [UnameProbe])
      case OtherOs => Done
  }

  /** `validateEnvironment`. */
  method ValidateEnvironment(w: World) returns (o: Outcome)
    ensures o == ValidateSpec(w)
  {
    // Every dependency folder must exist as a directory.
    var i := 0;
    while i < |Folders|
      invariant 0 <= i <= |Folders|
      invariant forall k :: 0 <= k < i ==> StatOf(w, Folders[k]) == Directory
    {
      if StatOf(w, Folders[i]) != Directory {
        return Outcome(Some(NotADir(Folders[i])), []);
      }
      i := i + 1;
    }
    assert FirstNonDir(w, Folders).None?;
    match w.os {
      case Windows =>
        if w.uname.None? {
          return Outcome(Some(NoMsysShell), [UnameProbe]);
        } else if !HasPrefix(w.uname.value, "MINGW64") {
          return Outcome(Some(NotMingw64Shell), [UnameProbe]);
        }
        var p := ConfirmPackages(w);
        o := Outcome(p.err, [UnameProbe] + p.trace);
      case Linux =>
        if w.uname.None? {
          o := Outcome(Some(UnameFailed), [UnameProbe]);
        } else if HasPrefix(w.uname.value, "MINGW") {
          o := Outcome(Some(MingwOnLinux), [UnameProbe]);
        } else {
          o := Outcome(None, [UnameProbe]);
        }
      case OtherOs =>
        o := Done;
    }
  }

  /** The four package checks of `validateEnvironment`, each run only while
      no error has been found. */
  method ConfirmPackages(w: World) returns (o: Outcome)
    ensures o == PackageChecks(w, Packages)
  {
    var trace := [PacmanProbe(Packages[0])];
    var err := ConfirmPackage(w, Packages[0]);
    if err.None? {
      err := ConfirmPackage(w, Packages[1]);
      trace := trace + [PacmanProbe(Packages[1])];
    }
    if err.None? {
      err := ConfirmPackage(w, Packages[2]);
      trace := trace + [PacmanProbe(Packages[2])];
    }
    if err.None? {
      err := ConfirmPackage(w, Packages[3]);
      trace := trace + [PacmanProbe(Packages[3])];
    }
    PackageChecksUnrolled(w);
    o := Outcome(err, trace);
  }

  /** Helper: the chained package checks, written out for the four packages. */
  lemma PackageChecksUnrolled(w: World)
    ensures PackageChecks(w, Packages) ==
      var c := ConfirmPackage(w, Packages[0]);
      if c.Some? then Outcome(c, [PacmanProbe(Packages[0])]) else
      var c := ConfirmPackage(w, Packages[1]);
      if c.Some? then Outcome(c, [PacmanProbe(Packages[0]), PacmanProbe(Packages[1])]) else
      var c := ConfirmPackage(w, Packages[2]);
      if c.Some? then Outcome(c, [PacmanProbe(Packages[0]), PacmanProbe(Packages[1]), PacmanProbe(Packages[2])]) else
      Outcome(ConfirmPackage(w, Packages[3]), Seq4(Packages))
  {
    var p := Packages;
    var t1, t2, t3 := p[1..], p[1..][1..], p[1..][1..][1..];
    assert t1[0] == p[1] && t2[0] == p[2] && t3[0] == p[3] && t3[1..] == [];
    var r3 := PackageChecks(w, t3);
    assert PackageChecks(w, t3[1..]) == Done;
    assert [PacmanProbe(p[3])] + [] == [PacmanProbe(p[3])];
    assert r3 == Outcome(ConfirmPackage(w, p[3]), [PacmanProbe(p[3])]);
    var r2 := PackageChecks(w, t2);
    assert ConfirmPackage(w, p[2]).None? ==> r2 == Outcome(r3.err, [PacmanProbe(p[2])] + r3.trace);
    var r1 := PackageChecks(w, t1);
    assert ConfirmPackage(w, p[1]).None? ==> r1 == Outcome(r2.err, [PacmanProbe(p[1])] + r2.trace);
  }

  function Seq4(p: seq<Package>): seq<Event>
    requires |p| == 4
  {
    [PacmanProbe(p[0]), PacmanProbe(p[1]), PacmanProbe(p[2]), PacmanProbe(p[3])]
  }

  predicate AllFoldersAreDirs(w: World) {
    forall k :: 0 <= k < |Folders| ==> StatOf(w, Folders[k]) == Directory
  }

  /** The folders are checked first and in declared order: validation fails
      naming the first one that is not a directory, before any `uname` or
      `pacman` query is made. */
  lemma ValidateNamesFirstMissingFolder(w: World, k: nat)
    requires k < |Folders| && StatOf(w, Folders[k]) != Directory
    requires forall i :: 0 <= i < k ==> StatOf(w, Folders[i]) == Directory
    ensures ValidateSpec(w) == Outcome(Some(NotADir(Folders[k])), [])
  {
    assert FirstNonDir(w, Folders) == Some(k);
  }

  /** Validation succeeds exactly when every folder is a directory and, on
      Windows, `uname -a` reports MINGW64 and all four packages are at their
      expected versions, or, on Linux, `uname -a` runs and does not report
      MINGW. */
  lemma ValidateSucceedsIff(w: World)
    ensures ValidateSpec(w).err.None? <==>
      && AllFoldersAreDirs(w)
      && (w.os == Windows ==>
            && w.uname.Some? && HasPrefix(w.uname.value, "MINGW64")
            && forall k :: 0 <= k < |Packages| ==> ConfirmPackage(w, Packages[k]).None?)
      && (w.os == Linux ==> w.uname.Some? && !HasPrefix(w.uname.value, "MINGW"))
  {
    PackageChecksShortCircuit(w, Packages);
    if !AllFoldersAreDirs(w) {
      var k :| 0 <= k < |Folders| && StatOf(w, Folders[k]) != Directory;
      assert FirstNonDir(w, Folders).Some?;
    }
  }

  /** On Windows a shell that does not report MINGW64 is refused after the
      `uname` query alone: no package is queried. */
  lemma WindowsRequiresMingw64(w: World)
    requires AllFoldersAreDirs(w) && w.os == Windows
    requires w.uname.None? || !HasPrefix(w.uname.value, "MINGW64")
    ensures ValidateSpec(w).err.Some?
    ensures ValidateSpec(w).trace == [UnameProbe]
    ensures ValidateSpec(w).err == Some(if w.uname.None? then NoMsysShell else NotMingw64Shell)
  {
    assert FirstNonDir(w, Folders).None?;
  }

  /** On Linux a shell that reports MINGW is refused. */
  lemma LinuxRefusesMingw(w: World)
    requires AllFoldersAreDirs(w) && w.os == Linux
    requires w.uname.Some? && HasPrefix(w.uname.value, "MINGW")
    ensures ValidateSpec(w) == Outcome(Some(MingwOnLinux), [UnameProbe])
  {
    assert FirstNonDir(w, Folders).None?;
  }

  /** The package checks run in the fixed order and the first failing one
      decides the error: the packages after it are never queried. */
  lemma PackageChecksStopAtFirstFailure(w: World, k: nat)
    requires AllFoldersAreDirs(w) && w.os == Windows
    requires w.uname.Some? && HasPrefix(w.uname.value, "MINGW64")
    requires k < |Packages| && ConfirmPackage(w, Packages[k]).Some?
    requires forall i :: 0 <= i < k ==> ConfirmPackage(w, Packages[i]).None?
    ensures ValidateSpec(w).err == ConfirmPackage(w, Packages[k])
    ensures ValidateSpec(w).trace == [UnameProbe] + seq(k + 1, i requires 0 <= i <= k => PacmanProbe(Packages[i]))
  {
    assert FirstNonDir(w, Folders).None?;
    var r := PackageChecks(w, Packages);
    PackageChecksShortCircuit(w, Packages);
    assert |r.trace| == k + 1;
  }

  /** Validation only queries; it never runs a recipe command or removes
      anything. */
  lemma ValidateOnlyProbes(w: World)
    ensures forall i :: 0 <= i < |ValidateSpec(w).trace| ==> ValidateSpec(w).trace[i].Probed?
  {
    if FirstNonDir(w, Folders).None? && w.os == Windows && w.uname.Some? && HasPrefix(w.uname.value, "MINGW64") {
      var r := PackageChecks(w, Packages);
      PackageChecksShortCircuit(w, Packages);
      assert ValidateSpec(w).trace == [UnameProbe] + r.trace;
    }
  }
}
