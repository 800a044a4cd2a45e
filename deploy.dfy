/** The `__main__` block of deploy.py as the step-by-step program it is:
    each collaborator call is appended to the trace of the invocation, and
    the archive's component directories change as the calls say. */
module DeployScript {
  import opened Wrappers
  import opened Paths
  import opened Components
  import opened Archive
  import opened Orchestrator

  class Script {
    /** The collaborator calls made so far, in order. */
    var trace: seq<Effect>
    /** The component directories present on disk before the first call. */
    ghost const initial: set<Path>

    /** The component directories present on disk now. */
    ghost function Archive(): set<Path>
      reads this
    {
      ApplyAll(initial, trace)
    }

    constructor (present: set<Path>)
      ensures trace == [] && Archive() == present
    {
      trace := [];
      initial := present;
    }

    /** Calls a collaborator; `raised` says whether it raised. The archive
        changes as the call says even when it raised: a dump that raised
        counts as having left its directory present. */
    method Call(e: Effect, failing: set<Effect>) returns (raised: bool)
      modifies this
      ensures trace == old(trace) + [e]
      ensures Archive() == Apply(old(Archive()), e)
      ensures raised == Raises(e, failing)
    {
      trace := trace + [e];
      raised := Raises(e, failing);
      assert trace[..|trace| - 1] == old(trace);
    }

    /** Since the trace was `start`, the first `k` of the calls `es` were
        made and none of them raised. */
    ghost predicate Reached(start: seq<Effect>, es: seq<Effect>, k: nat, failing: set<Effect>)
      reads this
    {
      k <= |es| && trace == start + es[..k] &&
      forall j :: 0 <= j < k ==> !Raises(es[j], failing)
    }

    /** Makes the call `e`, the one at position `k` of the calls `es`, once
        the calls before it were made. When it raises, or when it is the
        last, the trace since `start` is what `Execute` says of `es`. */
    method Step(e: Effect, failing: set<Effect>, ghost start: seq<Effect>, ghost es: seq<Effect>, ghost k: nat)
      returns (raised: bool)
      requires k < |es| && e == es[k]
      requires Reached(start, es, k, failing)
      modifies this
      ensures raised == Raises(e, failing)
      ensures !raised ==> Reached(start, es, k + 1, failing)
      ensures raised ==> Execute(es, failing).outcome == Aborted(e)
      ensures raised || k + 1 == |es| ==> trace == start + Execute(es, failing).effects
      ensures !raised && k + 1 == |es| ==> Execute(es, failing).outcome == Completed
    {
      raised := Call(e, failing);
      assert es[..k] + [e] == es[..k + 1];
      if raised {
        ExecuteStopsAt(es, failing, k);
      } else if k + 1 == |es| {
        ExecuteCompletes(es, failing);
      }
    }

    /** deploy.py:67-143 for the parsed options `opts`. The project name of
        a configuration file, the directory an archive resolves to and the
        collaborators that raise are given as `projectOf`, `archiveDirOf`
        and `failing`. */
    method Dispatch(opts: Options, projectOf: string -> string, archiveDirOf: string -> Path,
                    failing: set<Effect>)
      returns (outcome: Outcome)
      modifies this
      ensures outcome == Expected(opts, projectOf, archiveDirOf, failing).outcome
      ensures trace == old(trace) + Expected(opts, projectOf, archiveDirOf, failing).effects
      ensures Archive() == ApplyAll(old(Archive()), Expected(opts, projectOf, archiveDirOf, failing).effects)
    {
      ApplyAllAppend(initial, trace, Expected(opts, projectOf, archiveDirOf, failing).effects);
      if opts.create && opts.extract {
        return UsageError(MutuallyExclusive);
      }
      var components := Text(opts.components);
      if opts.components == "all" {
        components := List(Names);
      }
      if !opts.create && !opts.extract {
        return UsageError(MissingAction);
      }
      if opts.create {
        if |opts.args| < 2 {
          return UsageError(MissingConfigOrDestination);
        }
        // config = parse_config(args[0]); its project name names the archive
        var destdir := Join(opts.args[1], projectOf(opts.args[0]));
        outcome := Create(opts.args[0], destdir, components, opts.components, opts.symlink, failing);
      } else {
        if |opts.args| < 1 {
          return UsageError(MissingArchivePath);
        }
        // config = parse_config(args[0]); srcdir = get_archive_dir(args[0])
        var srcdir := archiveDirOf(opts.args[0]);
        outcome := Extract(srcdir, failing);
      }
    }

    /** deploy.py:83-115: `create` once the archive directory is known;
        `components` is the value of `options.components` for the option
        text `raw`. */
    method Create(configPath: Path, destdir: Path, components: ComponentsValue, ghost raw: string,
                  symlink: bool, failing: set<Effect>)
      returns (outcome: Outcome)
      requires components == Expand(raw)
      modifies this
      ensures outcome == Execute(CreateEffects(configPath, destdir, raw, symlink), failing).outcome
      ensures trace == old(trace) + Execute(CreateEffects(configPath, destdir, raw, symlink), failing).effects
    {
      var destpath := DestPaths(destdir);
      ghost var start := trace;
      ghost var es := CreateEffects(configPath, destdir, raw, symlink);
      assert Reached(start, es, 0, failing);
      var raised: bool;
      var call: Effect;

      raised := Step(Hook("pre-create"), failing, start, es, 0);
      call := InitArchive(destdir, configPath);
      raised := Step(call, failing, start, es, 1);
      if raised {
        return Aborted(call);
      }

      var failed := Reconcile(destpath, components, symlink, failing, start, es);
      if failed.Some? {
        return Aborted(failed.value);
      }

      Finish("post-create", failing, start, es);
      return Completed;
    }

    /** deploy.py:89-110: dumps each component `options.components` names
        and removes the directory of every other one, in the order
        databases, files, code, after the calls `es[..2]` were made; these
        three calls are `es[2..5]`. `failed` is the first of them that
        raised, if any. */
    method Reconcile(destpath: map<Component, Path>, components: ComponentsValue, symlink: bool,
                     failing: set<Effect>, ghost start: seq<Effect>, ghost es: seq<Effect>)
      returns (failed: Option<Effect>)
      requires forall c :: c in destpath
      requires 5 <= |es|
      requires es[2] == ComponentCall(destpath, components, symlink, Databases)
      requires es[3] == ComponentCall(destpath, components, symlink, Files)
      requires es[4] == ComponentCall(destpath, components, symlink, Code)
      requires Reached(start, es, 2, failing)
      modifies this
      ensures failed.Some? ==> Execute(es, failing).outcome == Aborted(failed.value)
      ensures failed.Some? ==> trace == start + Execute(es, failing).effects
      ensures failed.None? ==> Reached(start, es, 5, failing)
    {
      var call := ComponentCall(destpath, components, symlink, Databases);
      var raised := Step(call, failing, start, es, 2);
      if raised {
        return Some(call);
      }

      call := ComponentCall(destpath, components, symlink, Files);
      raised := Step(call, failing, start, es, 3);
      if raised {
        return Some(call);
      }

      call := ComponentCall(destpath, components, symlink, Code);
      raised := Step(call, failing, start, es, 4);
      if raised {
        return Some(call);
      }
      return None;
    }

    /** deploy.py:127-143: `extract` from the directory `srcdir` the archive
        resolves to. */
    method Extract(srcdir: Path, failing: set<Effect>) returns (outcome: Outcome)
      modifies this
      ensures outcome == Execute(ExtractEffects(srcdir), failing).outcome
      ensures trace == old(trace) + Execute(ExtractEffects(srcdir), failing).effects
    {
      ghost var start := trace;
      ghost var es := ExtractEffects(srcdir);
      assert Reached(start, es, 0, failing);
      var raised: bool;
      var call: Effect;

      raised := Step(Hook("pre-restore"), failing, start, es, 0);
      var failed := RestoreComponents(srcdir, failing, start, es);
      if failed.Some? {
        return Aborted(failed.value);
      }
      call := ApacheRestore;
      raised := Step(call, failing, start, es, 4);
      if raised {
        return Aborted(call);
      }
      Finish("post-restore", failing, start, es);
      return Completed;
    }

    /** deploy.py:129-136: restores databases, files and code, in that
        order, each from its subdirectory of `srcdir`, after the calls
        `es[..1]` were made; these three calls are `es[1..4]`. `failed` is
        the first of them that raised, if any. */
    method RestoreComponents(srcdir: Path, failing: set<Effect>, ghost start: seq<Effect>, ghost es: seq<Effect>)
      returns (failed: Option<Effect>)
      requires 4 <= |es|
      requires es[1] == Restore(Databases, Join(srcdir, "databases"))
      requires es[2] == Restore(Files, Join(srcdir, "files"))
      requires es[3] == Restore(Code, Join(srcdir, "code"))
      requires Reached(start, es, 1, failing)
      modifies this
      ensures failed.Some? ==> Execute(es, failing).outcome == Aborted(failed.value)
      ensures failed.Some? ==> trace == start + Execute(es, failing).effects
      ensures failed.None? ==> Reached(start, es, 4, failing)
    {
      var call := Restore(Databases, Join(srcdir, "databases"));
      var raised := Step(call, failing, start, es, 1);
      if raised {
        return Some(call);
      }

      call := Restore(Files, Join(srcdir, "files"));
      raised := Step(call, failing, start, es, 2);
      if raised {
        return Some(call);
      }

      call := Restore(Code, Join(srcdir, "code"));
      raised := Step(call, failing, start, es, 3);
      if raised {
        return Some(call);
      }
      return None;
    }

    /** deploy.py:112-115 and 140-143: the post-action hook `hook`, then
        `sys.exit(0)`, the last two of the seven calls `es`; neither
        raises, so the run completes. */
    method Finish(hook: string, failing: set<Effect>, ghost start: seq<Effect>, ghost es: seq<Effect>)
      requires |es| == 7 && es[5] == Hook(hook) && es[6] == Exit(0)
      requires Reached(start, es, 5, failing)
      modifies this
      ensures Execute(es, failing).outcome == Completed
      ensures trace == start + Execute(es, failing).effects
    {
      var raised := Step(Hook(hook), failing, start, es, 5);
      raised := Step(Exit(0), failing, start, es, 6);
    }
  }
}
