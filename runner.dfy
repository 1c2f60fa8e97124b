/** The command runner: `runCmd` starts one process, `runCmds` starts a
    recipe's processes one after another and stops at the first that fails.
    Process execution itself is the oracle `World.failing`. */
module Runner {
  import opened Types

  /** Every command of a recipe names a program (`cmdAndArgs[0]` exists). */
  predicate WellFormed(cmds: seq<seq<string>>) {
    forall i :: 0 <= i < |cmds| ==> |cmds[i]| > 0
  }

  /** The processes a recipe asks for when run in `folder` with overrides `env`. */
  function At(folder: string, env: seq<string>, cmds: seq<seq<string>>): seq<Invocation>
    requires WellFormed(cmds)
  {
    seq(|cmds|, i requires 0 <= i < |cmds| => Invocation(folder, env, cmds[i][0], cmds[i][1..]))
  }

  /** The trace of starting each of `invs`. */
  function Runs(invs: seq<Invocation>): seq<Event> {
    seq(|invs|, i requires 0 <= i < |invs| => Ran(invs[i]))
  }

  /** `runCmd`: the process is started, and fails exactly when the oracle says so. */
  function RunCmd(w: World, inv: Invocation): (r: Outcome)
    ensures r.trace == Runs([inv])
    ensures r.err.Some? <==> inv in w.failing
    ensures r.err.Some? ==> r.err == Some(CommandFailed(inv))
  {
    Outcome(if inv in w.failing then Some(CommandFailed(inv)) else None, [Ran(inv)])
  }

  /** The meaning of `runCmds`: the processes attempted are a prefix of the
      list, in list order; the run succeeds exactly when no process of the list
      fails, and then each was attempted once; otherwise the last one attempted
      is the first failing one, and its error is the result. */
  function Exec(w: World, invs: seq<Invocation>): (r: Outcome)
    ensures |r.trace| <= |invs| && r.trace == Runs(invs[..|r.trace|])
    ensures r.err.None? <==> forall i :: 0 <= i < |invs| ==> invs[i] !in w.failing
    ensures r.err.None? ==> r.trace == Runs(invs)
    ensures r.err.Some? ==>
      && |r.trace| > 0
      && invs[|r.trace| - 1] in w.failing
      && r.err == Some(CommandFailed(invs[|r.trace| - 1]))
      && forall i :: 0 <= i < |r.trace| - 1 ==> invs[i] !in w.failing
  {
    if invs == [] then Done
    else
      var rest := Exec(w, invs[1..]);
      assert invs[1..][..|rest.trace|] == invs[1..|rest.trace| + 1];
      assert forall i :: 1 <= i < |invs| ==> invs[i] == invs[1..][i - 1];
      Then(RunCmd(w, invs[0]), rest)
  }

  /** Running two lists back to back is running the first and, if it
      succeeded, the second. */
  lemma {:induction false} ExecAppend(w: World, a: seq<Invocation>, b: seq<Invocation>)
    ensures Exec(w, a + b) == Then(Exec(w, a), Exec(w, b))
  {
    if a != [] {
      assert (a + b)[1..] == a[1..] + b;
      ExecAppend(w, a[1..], b);
      ThenAssociative(RunCmd(w, a[0]), Exec(w, a[1..]), Exec(w, b));
    } else {
      assert a + b == b;
      assert [] + Exec(w, b).trace == Exec(w, b).trace;
    }
  }

  /** `runCmds`. */
  method RunCmds(w: World, folder: string, env: seq<string>, cmds: seq<seq<string>>) returns (o: Outcome)
    requires WellFormed(cmds)
    ensures o == Exec(w, At(folder, env, cmds))
  {
    ghost var invs := At(folder, env, cmds);
    var trace: seq<Event> := [];
    var i := 0;
    while i < |cmds|
      invariant 0 <= i <= |cmds|
      invariant Exec(w, invs[..i]) == Outcome(None, trace)
    {
      var inv := Invocation(folder, env, cmds[i][0], cmds[i][1..]);
      assert invs[..i + 1] == invs[..i] + [inv];
      ExecAppend(w, invs[..i], [inv]);
      if inv in w.failing {
        assert invs == invs[..i + 1] + invs[i + 1..];
        ExecAppend(w, invs[..i + 1], invs[i + 1..]);
        return Outcome(Some(CommandFailed(inv)), trace + [Ran(inv)]);
      }
      trace := trace + [Ran(inv)];
      i := i + 1;
    }
    assert invs[..i] == invs;
    o := Outcome(None, trace);
  }
}
