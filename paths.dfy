/** The path rewrite that computes the `absCurrDir` global at start-up: on
    Windows an absolute path such as `C:\src\tor-static` is turned into the
    MSYS form `/C/src/tor-static` that the MinGW shell tools understand. */
module Paths {
  import opened Types
  import opened Text

  /** `getAbsCurrDir`, given what `filepath.Abs(".")` and
      `filepath.VolumeName` return (`abs` and `volume`).  The character right
      after the volume, the separator, is dropped and replaced by `/`; the Go
      code would panic on an `abs` no longer than its volume, which
      `filepath.Abs` never returns. */
  function AbsCurrDir(goos: Os, abs: string, volume: string): (r: string)
    requires goos == Windows ==> |volume| < |abs|
    ensures goos != Windows ==> r == abs
    ensures goos == Windows ==> HasPrefix(r, "/")
    ensures goos == Windows ==> HasSuffix(r, ToSlash(abs[|volume| + 1..]))
  {
    if goos == Windows then
      "/" + TrimSuffix(volume, ":") + "/" + ToSlash(abs[|volume| + 1..])
    else
      abs
  }

  /** The reverse rewrite, from `/C/rest` back to `C:\rest`. */
  function WindowsPath(msys: string): string
    requires |msys| >= 3
  {
    [msys[1], ':', '\\'] + FromSlash(msys[3..])
  }

  /** On a drive-letter path, the rewrite keeps the drive letter, turns every
      backslash into a slash and loses nothing: the Windows path can be
      recovered from the MSYS one. */
  lemma DrivePathRoundTrip(drive: char, rest: string)
    requires drive != ':' && '/' !in rest
    ensures AbsCurrDir(Windows, [drive, ':', '\\'] + rest, [drive, ':']) == ['/', drive, '/'] + ToSlash(rest)
    ensures WindowsPath(AbsCurrDir(Windows, [drive, ':', '\\'] + rest, [drive, ':'])) == [drive, ':', '\\'] + rest
  {
    var abs := [drive, ':', '\\'] + rest;
    assert abs[3..] == rest;
    assert TrimSuffix([drive, ':'], ":") == [drive];
    var r := AbsCurrDir(Windows, abs, [drive, ':']);
    assert r == ['/', drive, '/'] + ToSlash(rest);
    assert r[3..] == ToSlash(rest);
    FromSlashUndoesToSlash(rest);
  }

  /** A volume without a trailing colon (a UNC share such as `\\host\share`)
      is copied as it is, with a slash before and after it. */
  lemma ShareVolumeIsKept(abs: string, volume: string)
    requires |volume| < |abs| && !HasSuffix(volume, ":")
    ensures AbsCurrDir(Windows, abs, volume) == "/" + volume + "/" + ToSlash(abs[|volume| + 1..])
  {
  }
}
