/** The orchestrator's collaborators as seen from the orchestrator: every
    call it makes is an Effect, a call may raise, and the archive directory
    tree is abstracted to the set of paths present on disk. */
module Archive {
  import opened Wrappers
  import opened Paths
  import opened Components

  /** One call into a collaborator. */
  datatype Effect =
    | Hook(name: string)                                      // run_hook(name)
    | InitArchive(destdir: Path, configPath: Path)            // deploy.create.create_update_archive
    | Dump(comp: Component, path: Path, symlink: Option<bool>) // deploy.<comp>.dump; None: no symlink argument
    | Remove(path: Path)                                      // rmtree_silent(path)
    | Restore(comp: Component, path: Path)                    // deploy.<comp>.restore
    | ApacheRestore                                           // deploy.apache.restore
    | Exit(code: int)                                         // sys.exit(code)

  /** How one invocation ends: rejected by the option parser, run to its
      `sys.exit(0)`, or ended by the exception a collaborator raised. */
  datatype Outcome = UsageError(msg: string) | Completed | Aborted(failed: Effect)

  /** An outcome and the calls made, in order. */
  datatype Run = Run(outcome: Outcome, effects: seq<Effect>)

  /** The calls whose exceptions end an invocation. That hooks and
      rmtree_silent never raise is an assumption about collaborators whose
      code is not modelled (rmtree_silent is known to ignore a missing
      directory); sys.exit ends the invocation itself. */
  predicate Fallible(e: Effect) {
    e.InitArchive? || e.Dump? || e.Restore? || e.ApacheRestore?
  }

  /** `failing` holds the calls a collaborator would answer with an
      exception; only fallible calls can raise. */
  predicate Raises(e: Effect, failing: set<Effect>) {
    Fallible(e) && e in failing
  }

  /** Makes the calls `es` in order, with no handler around them: the first
      call that raises is the last one made, and it ends the run. */
  function Execute(es: seq<Effect>, failing: set<Effect>): (r: Run)
    decreases |es|
  {
    if es == [] then Run(Completed, [])
    else if Raises(es[0], failing) then Run(Aborted(es[0]), [es[0]])
    else
      var rest := Execute(es[1..], failing);
      Run(rest.outcome, [es[0]] + rest.effects)
  }

  /** The calls made are a prefix of those attempted, none but the last
      raised, and a run that is cut short ends with the call that raised. */
  lemma {:induction false} ExecutePrefix(es: seq<Effect>, failing: set<Effect>)
    ensures var r := Execute(es, failing);
            (r.outcome.Completed? || r.outcome.Aborted?) &&
            |r.effects| <= |es| && r.effects == es[..|r.effects|] &&
            (forall i :: 0 <= i < |r.effects| - 1 ==> !Raises(r.effects[i], failing)) &&
            (r.outcome.Aborted? ==>
               |r.effects| > 0 && r.outcome.failed == r.effects[|r.effects| - 1] &&
               Raises(r.outcome.failed, failing))
    decreases |es|
  {
    if es != [] && !Raises(es[0], failing) {
      ExecutePrefix(es[1..], failing);
      var rest := Execute(es[1..], failing);
      assert [es[0]] + es[1..][..|rest.effects|] == es[..1 + |rest.effects|];
    }
  }

  /** A run completes exactly when no attempted call raises, and then every
      call was made. */
  lemma {:induction false} ExecuteCompletedIff(es: seq<Effect>, failing: set<Effect>)
    ensures var r := Execute(es, failing);
            (r.outcome.Completed? <==> (forall i :: 0 <= i < |es| ==> !Raises(es[i], failing))) &&
            (r.outcome.Completed? ==> r.effects == es)
    decreases |es|
  {
    if es != [] && !Raises(es[0], failing) {
      ExecuteCompletedIff(es[1..], failing);
      assert forall i :: 1 <= i < |es| ==> es[i] == es[1..][i - 1];
    }
  }

  /** Everything `ExecutePrefix` and `ExecuteCompletedIff` say, together. */
  lemma ExecuteSpec(es: seq<Effect>, failing: set<Effect>)
    ensures var r := Execute(es, failing);
            (r.outcome.Completed? || r.outcome.Aborted?) &&
            |r.effects| <= |es| && r.effects == es[..|r.effects|] &&
            (forall i :: 0 <= i < |r.effects| - 1 ==> !Raises(r.effects[i], failing)) &&
            (r.outcome.Completed? <==> (forall i :: 0 <= i < |es| ==> !Raises(es[i], failing))) &&
            (r.outcome.Completed? ==> r.effects == es) &&
            (r.outcome.Aborted? ==>
               |r.effects| > 0 && r.outcome.failed == r.effects[|r.effects| - 1] &&
               Raises(r.outcome.failed, failing))
  {
    ExecutePrefix(es, failing);
    ExecuteCompletedIff(es, failing);
  }

  /** When the call at position k is the first to raise, the run stops
      right after it. */
  lemma ExecuteStopsAt(es: seq<Effect>, failing: set<Effect>, k: nat)
    requires k < |es| && Raises(es[k], failing)
    requires forall j :: 0 <= j < k ==> !Raises(es[j], failing)
    ensures Execute(es, failing) == Run(Aborted(es[k]), es[..k + 1])
  {
    ExecuteSpec(es, failing);
    var r := Execute(es, failing);
    var n := |r.effects|;
    assert !r.outcome.Completed?;
    assert r.effects[n - 1] == es[n - 1];
    assert n - 1 == k;
  }

  /** When no call raises, all of them are made and the run completes. */
  lemma ExecuteCompletes(es: seq<Effect>, failing: set<Effect>)
    requires forall j :: 0 <= j < |es| ==> !Raises(es[j], failing)
    ensures Execute(es, failing) == Run(Completed, es)
  {
    ExecuteSpec(es, failing);
  }

  /** Whether a call writes or removes the directory `p`. */
  predicate Touches(e: Effect, p: Path) {
    (e.Dump? || e.Remove?) && e.path == p
  }

  /** The directories present after one call, assuming that a dump leaves
      its directory present, that rmtree_silent leaves its directory absent,
      and that no other collaborator writes a component directory. */
  function Apply(archive: set<Path>, e: Effect): (a: set<Path>)
    ensures forall p :: !Touches(e, p) ==> (p in a <==> p in archive)
    ensures e.Dump? ==> e.path in a
    ensures e.Remove? ==> e.path !in a
  {
    match e
    case Dump(_, p, _) => archive + {p}
    case Remove(p) => archive - {p}
    case _ => archive
  }

  /** The directories present after the calls `es`, in order. */
  function ApplyAll(archive: set<Path>, es: seq<Effect>): set<Path>
    decreases |es|
  {
    if es == [] then archive
    else Apply(ApplyAll(archive, es[..|es| - 1]), es[|es| - 1])
  }

  lemma {:induction false} ApplyAllAppend(archive: set<Path>, xs: seq<Effect>, ys: seq<Effect>)
    ensures ApplyAll(archive, xs + ys) == ApplyAll(ApplyAll(archive, xs), ys)
    decreases |ys|
  {
    if ys == [] {
      assert xs + ys == xs;
    } else {
      assert (xs + ys)[..|xs + ys| - 1] == xs + ys[..|ys| - 1];
      ApplyAllAppend(archive, xs, ys[..|ys| - 1]);
    }
  }

  /** A directory that no call touches is present afterwards exactly when
      it was present before. */
  lemma {:induction false} ApplyAllUntouched(archive: set<Path>, es: seq<Effect>, p: Path)
    requires forall i :: 0 <= i < |es| ==> !Touches(es[i], p)
    ensures p in ApplyAll(archive, es) <==> p in archive
    decreases |es|
  {
    if es != [] {
      ApplyAllUntouched(archive, es[..|es| - 1], p);
    }
  }

  /** A directory that exactly one call touches is present afterwards
      exactly when that call is a dump, whatever was there before. */
  lemma {:induction false} ApplyAllTouchedOnce(archive: set<Path>, es: seq<Effect>, p: Path, k: nat)
    requires k < |es| && Touches(es[k], p)
    requires forall i :: 0 <= i < |es| && i != k ==> !Touches(es[i], p)
    ensures p in ApplyAll(archive, es) <==> es[k].Dump?
    decreases |es|
  {
    if k < |es| - 1 {
      ApplyAllTouchedOnce(archive, es[..|es| - 1], p, k);
    }
  }

  /** When only the `k`-th of the calls `es` touches `p`, a run of them
      that went past that call, or completed, leaves `p` as the call says,
      and a run that stopped before it leaves `p` as it was; a run aborted
      by that very call says nothing, as the call raised part-way. */
  lemma RunTouchedOnce(archive: set<Path>, es: seq<Effect>, failing: set<Effect>, p: Path, k: nat)
    requires k < |es| && Touches(es[k], p)
    requires forall i :: 0 <= i < |es| && i != k ==> !Touches(es[i], p)
    ensures var done := Execute(es, failing).effects;
            (k < |done| - 1 || (k < |done| && Execute(es, failing).outcome.Completed?) ==>
               (p in ApplyAll(archive, done) <==> es[k].Dump?)) &&
            (|done| <= k ==> (p in ApplyAll(archive, done) <==> p in archive))
  {
    ExecuteSpec(es, failing);
    var done := Execute(es, failing).effects;
    if k < |done| {
      ApplyAllTouchedOnce(archive, es[..|done|], p, k);
    } else {
      ApplyAllUntouched(archive, es[..|done|], p);
    }
  }
}
