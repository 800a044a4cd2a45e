/** What the `__main__` block of deploy.py does for one invocation: the
    usage checks, the destination paths, and the calls `create` and
    `extract` make, together with the properties these guarantee. */
module Orchestrator {
  import opened Wrappers
  import opened Paths
  import opened Components
  import opened Archive

  /** The options and positional arguments the option parser returns
      (deploy.py:65). */
  datatype Options = Options(
    create: bool,
    extract: bool,
    components: string,
    symlink: bool,
    args: seq<string>)

  /** The option values when none is given on the command line
      (deploy.py:35-52): no action, all components, copy rather than
      symlink. */
  function Defaults(args: seq<string>): Options {
    Options(false, false, "all", false, args)
  }

  const MutuallyExclusive: string := "options -c and -x are mutually exclusive"
  const MissingAction: string := "missing action"
  const MissingConfigOrDestination: string := "missing config and/or archive destination"
  const MissingArchivePath: string := "missing archive path"

  /** The usage error the parser reports, checked in the order of
      deploy.py:67-78 and 118-120, or None when the invocation goes ahead. */
  function UsageCheck(opts: Options): Option<string> {
    if opts.create && opts.extract then Some(MutuallyExclusive)
    else if !opts.create && !opts.extract then Some(MissingAction)
    else if opts.create && |opts.args| < 2 then Some(MissingConfigOrDestination)
    else if opts.extract && |opts.args| < 1 then Some(MissingArchivePath)
    else None
  }

  predicate Accepted(opts: Options) {
    UsageCheck(opts) == None
  }

  /** The archive directory `join(DIRECTORY, project)`, where the project
      name is what the configuration file FILE declares (deploy.py:80-81). */
  function DestDir(opts: Options, projectOf: string -> string): Path
    requires opts.create && |opts.args| >= 2
  {
    Join(opts.args[1], projectOf(opts.args[0]))
  }

  /** deploy.py:83: the subdirectory of each component below `destdir`. */
  function DestPaths(destdir: Path): (m: map<Component, Path>)
    ensures forall c :: c in m && m[c] == Join(destdir, Name(c))
  {
    AllComponentsComplete();
    map c | c in AllComponents :: Join(destdir, Name(c))
  }

  /** The three component subdirectories are distinct paths, so that the
      calls for one component never touch another's directory. */
  lemma DestPathsDistinct(destdir: Path, c1: Component, c2: Component)
    ensures DestPaths(destdir)[c1] == DestPaths(destdir)[c2] <==> c1 == c2
  {
    JoinInjective(destdir, Name(c1), Name(c2));
    NameInjective(c1, c2);
  }

  /** deploy.py:89-110, for one component: the dump when `name in
      options.components` holds, with the symlink policy for `files` and
      `code` only; the removal of its directory otherwise. */
  function ComponentCall(destpath: map<Component, Path>, components: ComponentsValue, symlink: bool,
                         c: Component): Effect
    requires c in destpath
  {
    if Contains(components, Name(c)) then
      Dump(c, destpath[c], if c == Databases then None else Some(symlink))
    else
      Remove(destpath[c])
  }

  /** The call for component `c` under the option text `raw`. */
  function ComponentEffect(destpath: map<Component, Path>, raw: string, symlink: bool, c: Component): Effect
    requires c in destpath
  {
    ComponentCall(destpath, Expand(raw), symlink, c)
  }

  /** deploy.py:85-115: the calls `create` makes. */
  function CreateEffects(configPath: Path, destdir: Path, raw: string, symlink: bool): seq<Effect> {
    var destpath := DestPaths(destdir);
    [Hook("pre-create"),
     InitArchive(destdir, configPath),
     ComponentEffect(destpath, raw, symlink, Databases),
     ComponentEffect(destpath, raw, symlink, Files),
     ComponentEffect(destpath, raw, symlink, Code),
     Hook("post-create"),
     Exit(0)]
  }

  /** deploy.py:127-143: the calls `extract` makes, from the directory
      `srcdir` the archive resolves to. */
  function ExtractEffects(srcdir: Path): seq<Effect> {
    [Hook("pre-restore"),
     Restore(Databases, Join(srcdir, Name(Databases))),
     Restore(Files, Join(srcdir, Name(Files))),
     Restore(Code, Join(srcdir, Name(Code))),
     ApacheRestore,
     Hook("post-restore"),
     Exit(0)]
  }

  /** The calls an accepted invocation attempts. `projectOf` gives the
      project name of a configuration file and `archiveDirOf` the directory
      an archive path resolves to (deploy.extract.get_archive_dir). */
  function Attempted(opts: Options, projectOf: string -> string, archiveDirOf: string -> Path): seq<Effect>
    requires Accepted(opts)
  {
    if opts.create then
      CreateEffects(opts.args[0], DestDir(opts, projectOf), opts.components, opts.symlink)
    else
      ExtractEffects(archiveDirOf(opts.args[0]))
  }

  /** One invocation of deploy.py: a usage error makes no call at all;
      otherwise the attempted calls run until one raises. */
  function Expected(opts: Options, projectOf: string -> string, archiveDirOf: string -> Path,
                    failing: set<Effect>): Run
  {
    match UsageCheck(opts)
    case Some(msg) => Run(UsageError(msg), [])
    case None => Execute(Attempted(opts, projectOf, archiveDirOf), failing)
  }

  // ---------------------------------------------------------------------
  // Usage errors

  /** An invocation goes ahead exactly when one action is chosen and it has
      its positional arguments; otherwise the outcome is a usage error and
      no collaborator is called. */
  lemma UsageErrors(opts: Options, projectOf: string -> string, archiveDirOf: string -> Path,
                    failing: set<Effect>)
    ensures Accepted(opts) <==>
              opts.create != opts.extract &&
              (opts.create ==> |opts.args| >= 2) &&
              (opts.extract ==> |opts.args| >= 1)
    ensures Expected(opts, projectOf, archiveDirOf, failing).outcome.UsageError? <==> !Accepted(opts)
    ensures !Accepted(opts) ==> Expected(opts, projectOf, archiveDirOf, failing).effects == []
  {
    if Accepted(opts) {
      ExecuteSpec(Attempted(opts, projectOf, archiveDirOf), failing);
    }
  }

  /** Both actions: the mutual-exclusion error, reported before any other. */
  lemma BothActionsRejected(opts: Options, projectOf: string -> string, archiveDirOf: string -> Path,
                            failing: set<Effect>)
    requires opts.create && opts.extract
    ensures Expected(opts, projectOf, archiveDirOf, failing) == Run(UsageError(MutuallyExclusive), [])
  {
  }

  lemma NoActionRejected(opts: Options, projectOf: string -> string, archiveDirOf: string -> Path,
                         failing: set<Effect>)
    requires !opts.create && !opts.extract
    ensures Expected(opts, projectOf, archiveDirOf, failing) == Run(UsageError(MissingAction), [])
  {
  }

  lemma TooFewArgumentsRejected(opts: Options, projectOf: string -> string, archiveDirOf: string -> Path,
                                failing: set<Effect>)
    requires opts.create != opts.extract
    requires (opts.create && |opts.args| < 2) || (opts.extract && |opts.args| < 1)
    ensures Expected(opts, projectOf, archiveDirOf, failing) ==
              Run(UsageError(if opts.create then MissingConfigOrDestination else MissingArchivePath), [])
  {
  }

  // ---------------------------------------------------------------------
  // Collaborator failures

  /** The calls made are a prefix of those attempted; a run completes
      exactly when no attempted call raises, and then ends in `Exit(0)`;
      a run that is cut short ends with the call that raised, which is
      never a hook, a removal or the exit. */
  lemma FailuresCutShort(opts: Options, projectOf: string -> string, archiveDirOf: string -> Path,
                         failing: set<Effect>)
    requires Accepted(opts)
    ensures var es := Attempted(opts, projectOf, archiveDirOf);
            var r := Expected(opts, projectOf, archiveDirOf, failing);
            r.effects <= es &&
            (r.outcome == Completed <==> forall i :: 0 <= i < |es| ==> !Raises(es[i], failing)) &&
            (r.outcome == Completed ==> r.effects == es && r.effects[|r.effects| - 1] == Exit(0)) &&
            (r.outcome.Aborted? ==>
               r.effects != [] && r.effects[|r.effects| - 1] == r.outcome.failed &&
               Raises(r.outcome.failed, failing) &&
               (forall i :: 0 <= i < |r.effects| - 1 ==> !Raises(r.effects[i], failing)) &&
               !r.outcome.failed.Hook? && !r.outcome.failed.Remove? && !r.outcome.failed.Exit?)
  {
    ExecuteSpec(Attempted(opts, projectOf, archiveDirOf), failing);
  }

  /** When no collaborator raises, every attempted call is made. */
  lemma NoFailureCompletes(opts: Options, projectOf: string -> string, archiveDirOf: string -> Path,
                           failing: set<Effect>)
    requires Accepted(opts)
    requires failing == {}
    ensures Expected(opts, projectOf, archiveDirOf, failing) ==
              Run(Completed, Attempted(opts, projectOf, archiveDirOf))
  {
    ExecuteCompletes(Attempted(opts, projectOf, archiveDirOf), failing);
  }

  // ---------------------------------------------------------------------
  // create

  /** The order of `create`: the pre-create hook, the archive
      initialisation with the configuration file, one call per component
      in the order databases, files, code, the post-create hook, the exit. */
  lemma CreateOrder(opts: Options, projectOf: string -> string, archiveDirOf: string -> Path, c: Component)
    requires Accepted(opts) && opts.create
    ensures var es := Attempted(opts, projectOf, archiveDirOf);
            var destdir := DestDir(opts, projectOf);
            |es| == 7 &&
            es[0] == Hook("pre-create") &&
            es[1] == InitArchive(destdir, opts.args[0]) &&
            es[5] == Hook("post-create") &&
            es[6] == Exit(0) &&
            (es[2 + Index(c)].Dump? <==> Selected(opts.components, c)) &&
            (es[2 + Index(c)].Dump? ==> es[2 + Index(c)].comp == c) &&
            Touches(es[2 + Index(c)], Join(destdir, Name(c)))
  {
    EffectsOrder(opts.args[0], DestDir(opts, projectOf), opts.components, opts.symlink, c);
  }

  /** `CreateOrder`, stated of the calls `create` makes for a configuration
      file, an archive directory, an option text and a symlink policy. */
  lemma EffectsOrder(configPath: Path, destdir: Path, raw: string, symlink: bool, c: Component)
    ensures var es := CreateEffects(configPath, destdir, raw, symlink);
            |es| == 7 &&
            es[0] == Hook("pre-create") &&
            es[1] == InitArchive(destdir, configPath) &&
            es[5] == Hook("post-create") &&
            es[6] == Exit(0) &&
            (es[2 + Index(c)].Dump? <==> Selected(raw, c)) &&
            (es[2 + Index(c)].Dump? ==> es[2 + Index(c)].comp == c) &&
            Touches(es[2 + Index(c)], Join(destdir, Name(c)))
  {
  }

  /** Each component directory is written or removed by exactly one call,
      never both and never neither: the call for that component. */
  lemma CreateTouchesEachOnce(opts: Options, projectOf: string -> string, archiveDirOf: string -> Path,
                              c: Component)
    requires Accepted(opts) && opts.create
    ensures var es := Attempted(opts, projectOf, archiveDirOf);
            var p := DestPaths(DestDir(opts, projectOf))[c];
            forall i :: 0 <= i < |es| ==> (Touches(es[i], p) <==> i == 2 + Index(c))
  {
    EffectsTouchEachOnce(opts.args[0], DestDir(opts, projectOf), opts.components, opts.symlink, c);
  }

  /** `CreateTouchesEachOnce`, stated of the calls `create` makes for a configuration
      file, an archive directory, an option text and a symlink policy. */
  lemma EffectsTouchEachOnce(configPath: Path, destdir: Path, raw: string, symlink: bool, c: Component)
    ensures var es := CreateEffects(configPath, destdir, raw, symlink);
            forall i :: 0 <= i < |es| ==> (Touches(es[i], DestPaths(destdir)[c]) <==> i == 2 + Index(c))
  {
    var m := DestPaths(destdir);
    var es := CreateEffects(configPath, destdir, raw, symlink);
    forall i | 0 <= i < |es| ensures Touches(es[i], m[c]) <==> i == 2 + Index(c) {
      if 2 <= i <= 4 {
        var c' := if i == 2 then Databases else if i == 3 then Files else Code;
        assert es[i] == ComponentEffect(m, raw, symlink, c');
        assert i == 2 + Index(c');
        DestPathsDistinct(destdir, c, c');
      }
    }
  }

  /** The symlink policy reaches the `files` and `code` dumps only; the
      `databases` dump never receives it. */
  lemma SymlinkPolicy(opts: Options, projectOf: string -> string, archiveDirOf: string -> Path)
    requires Accepted(opts) && opts.create
    ensures var es := Attempted(opts, projectOf, archiveDirOf);
            forall i :: 0 <= i < |es| && es[i].Dump? ==>
              es[i].symlink == (if es[i].comp == Databases then None else Some(opts.symlink))
  {
  }

  /** With the default options and `-c FILE DIRECTORY`, every component is
      dumped and `files` and `code` are copied, not symlinked. */
  lemma DefaultCreateCopiesAll(args: seq<string>, projectOf: string -> string, archiveDirOf: string -> Path)
    requires |args| >= 2
    ensures var opts := Defaults(args).(create := true);
            var es := Attempted(opts, projectOf, archiveDirOf);
            Accepted(opts) &&
            es[2] == Dump(Databases, Join(DestDir(opts, projectOf), "databases"), None) &&
            es[3] == Dump(Files, Join(DestDir(opts, projectOf), "files"), Some(false)) &&
            es[4] == Dump(Code, Join(DestDir(opts, projectOf), "code"), Some(false))
  {
    AllSelectsEverything();
  }

  /** Reconciliation: after `create` each component directory is present
      exactly when the component is selected, whatever the archive held
      before, and no other directory changes. */
  lemma CreateReconciles(opts: Options, projectOf: string -> string, archiveDirOf: string -> Path,
                         archive: set<Path>)
    requires Accepted(opts) && opts.create
    ensures var after := ApplyAll(archive, Attempted(opts, projectOf, archiveDirOf));
            var m := DestPaths(DestDir(opts, projectOf));
            (forall c :: m[c] in after <==> c in Selection(opts.components)) &&
            (forall p :: p !in m.Values ==> (p in after <==> p in archive))
  {
    EffectsReconcile(opts.args[0], DestDir(opts, projectOf), opts.components, opts.symlink, archive);
  }

  /** `CreateReconciles`, stated of the calls `create` makes for a configuration
      file, an archive directory, an option text and a symlink policy. */
  lemma EffectsReconcile(configPath: Path, destdir: Path, raw: string, symlink: bool, archive: set<Path>)
    ensures var after := ApplyAll(archive, CreateEffects(configPath, destdir, raw, symlink));
            var m := DestPaths(destdir);
            (forall c :: m[c] in after <==> c in Selection(raw)) &&
            (forall p :: p !in m.Values ==> (p in after <==> p in archive))
  {
    var es := CreateEffects(configPath, destdir, raw, symlink);
    var m := DestPaths(destdir);
    forall c ensures m[c] in ApplyAll(archive, es) <==> c in Selection(raw) {
      EffectsTouchEachOnce(configPath, destdir, raw, symlink, c);
      EffectsOrder(configPath, destdir, raw, symlink, c);
      ApplyAllTouchedOnce(archive, es, m[c], 2 + Index(c));
    }
    forall p | p !in m.Values ensures p in ApplyAll(archive, es) <==> p in archive {
      assert forall c :: m[c] in m.Values;
      ApplyAllUntouched(archive, es, p);
    }
  }

  /** Running `create` twice with the same options leaves the same
      directories as running it once. */
  lemma CreateIdempotent(opts: Options, projectOf: string -> string, archiveDirOf: string -> Path,
                         archive: set<Path>)
    requires Accepted(opts) && opts.create
    ensures var es := Attempted(opts, projectOf, archiveDirOf);
            ApplyAll(ApplyAll(archive, es), es) == ApplyAll(archive, es)
  {
    var es := Attempted(opts, projectOf, archiveDirOf);
    var once := ApplyAll(archive, es);
    var m := DestPaths(DestDir(opts, projectOf));
    CreateReconciles(opts, projectOf, archiveDirOf, archive);
    CreateReconciles(opts, projectOf, archiveDirOf, once);
    forall p ensures p in ApplyAll(once, es) <==> p in once {
      if p in m.Values {
        var c :| c in m && m[c] == p;
      }
    }
  }

  /** An exception from a collaborator rolls nothing back: the components
      handled before the failing call are reconciled, those after it are
      left as they were. */
  lemma CreateAbortKeepsEarlierWork(opts: Options, projectOf: string -> string, archiveDirOf: string -> Path,
                                    failing: set<Effect>, archive: set<Path>, c: Component)
    requires Accepted(opts) && opts.create
    ensures var r := Expected(opts, projectOf, archiveDirOf, failing);
            var p := DestPaths(DestDir(opts, projectOf))[c];
            var after := ApplyAll(archive, r.effects);
            (2 + Index(c) < |r.effects| - 1 ==> (p in after <==> c in Selection(opts.components))) &&
            (2 + Index(c) >= |r.effects| ==> (p in after <==> p in archive))
  {
    CreateTouchesEachOnce(opts, projectOf, archiveDirOf, c);
    CreateOrder(opts, projectOf, archiveDirOf, c);
    RunTouchedOnce(archive, Attempted(opts, projectOf, archiveDirOf), failing,
                   DestPaths(DestDir(opts, projectOf))[c], 2 + Index(c));
  }

  // ---------------------------------------------------------------------
  // extract

  /** The order of `extract`: the pre-restore hook, every component
      restored from its subdirectory of the archive in the order databases,
      files, code, the web-server configuration, the post-restore hook, the
      exit. No call depends on which subdirectories exist. */
  lemma ExtractOrder(opts: Options, projectOf: string -> string, archiveDirOf: string -> Path, c: Component)
    requires Accepted(opts) && opts.extract
    ensures var es := Attempted(opts, projectOf, archiveDirOf);
            var srcdir := archiveDirOf(opts.args[0]);
            |es| == 7 &&
            es[0] == Hook("pre-restore") &&
            es[1 + Index(c)] == Restore(c, Join(srcdir, Name(c))) &&
            es[4] == ApacheRestore &&
            es[5] == Hook("post-restore") &&
            es[6] == Exit(0)
  {
  }

  /** `extract` restores the full component set whatever `--components`
      and the symlink policy say. */
  lemma ExtractIgnoresSelection(o1: Options, o2: Options, projectOf: string -> string,
                                archiveDirOf: string -> Path, failing: set<Effect>)
    requires o1.extract && !o1.create && o2.extract && !o2.create && o1.args == o2.args
    ensures Expected(o1, projectOf, archiveDirOf, failing) == Expected(o2, projectOf, archiveDirOf, failing)
  {
  }

  /** `extract` reads the archive and never writes or removes a component
      directory. */
  lemma ExtractLeavesArchive(opts: Options, projectOf: string -> string, archiveDirOf: string -> Path,
                             failing: set<Effect>, archive: set<Path>)
    requires Accepted(opts) && opts.extract
    ensures ApplyAll(archive, Expected(opts, projectOf, archiveDirOf, failing).effects) == archive
  {
    var effects := Expected(opts, projectOf, archiveDirOf, failing).effects;
    ExecuteSpec(Attempted(opts, projectOf, archiveDirOf), failing);
    forall p ensures p in ApplyAll(archive, effects) <==> p in archive {
      ApplyAllUntouched(archive, effects, p);
    }
  }

  // ---------------------------------------------------------------------
  // A worked invocation

  /** `deploy -c --components=files,code --no-symlink demo.cfg /tmp/out`. */
  const DemoOptions: Options := Options(true, false, "files,code", false, ["demo.cfg", "/tmp/out"])

  /** A configuration that declares the project "demo". */
  function DemoProject(configPath: string): string {
    "demo"
  }

  lemma DemoPaths()
    ensures DestDir(DemoOptions, DemoProject) == "/tmp/out/demo"
    ensures DestPaths("/tmp/out/demo")[Databases] == "/tmp/out/demo/databases"
    ensures DestPaths("/tmp/out/demo")[Files] == "/tmp/out/demo/files"
    ensures DestPaths("/tmp/out/demo")[Code] == "/tmp/out/demo/code"
  {
    assert Join("/tmp/out", "demo") == "/tmp/out" + "/" + "demo";
    assert Join("/tmp/out/demo", "databases") == "/tmp/out/demo" + "/" + "databases";
    assert Join("/tmp/out/demo", "files") == "/tmp/out/demo" + "/" + "files";
    assert Join("/tmp/out/demo", "code") == "/tmp/out/demo" + "/" + "code";
  }

  /** The calls of the worked invocation: the unselected `databases`
      directory is removed, `files` and `code` are dumped by copy, each hook
      runs once, and the run completes. */
  lemma FilesAndCodeScenario(archiveDirOf: string -> Path)
    ensures Expected(DemoOptions, DemoProject, archiveDirOf, {}) ==
              Run(Completed,
                  [Hook("pre-create"),
                   InitArchive("/tmp/out/demo", "demo.cfg"),
                   Remove("/tmp/out/demo/databases"),
                   Dump(Files, "/tmp/out/demo/files", Some(false)),
                   Dump(Code, "/tmp/out/demo/code", Some(false)),
                   Hook("post-create"),
                   Exit(0)])
  {
    ListedSelection();
    DemoPaths();
    NoFailureCompletes(DemoOptions, DemoProject, archiveDirOf, {});
  }

  /** After the worked invocation, whatever the archive held before:
      `databases` is absent, `files` and `code` are present. */
  lemma FilesAndCodeArchive(archiveDirOf: string -> Path, archive: set<Path>)
    ensures var after := ApplyAll(archive, Expected(DemoOptions, DemoProject, archiveDirOf, {}).effects);
            "/tmp/out/demo/databases" !in after &&
            "/tmp/out/demo/files" in after &&
            "/tmp/out/demo/code" in after
  {
    ListedSelection();
    DemoPaths();
    NoFailureCompletes(DemoOptions, DemoProject, archiveDirOf, {});
    CreateReconciles(DemoOptions, DemoProject, archiveDirOf, archive);
  }
}
