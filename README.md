# deploy: the archive orchestrator, modelled in Dafny

`deploy.py` is the command-line front end of a small deployment tool. It
either creates an archive of a project (databases, files and code, each
copied into a subdirectory of the archive) or extracts one. Everything
that actually dumps, copies or restores is a collaborator module. What the
script itself decides is:

- which usage errors the option parser reports, and in which order;
- which components `--components` selects ("all" or Python's `in` on the
  option text);
- which destination directories are computed with `os.path.join`;
- the fixed order of calls into the collaborators.

This project models that script:

- `paths.dfy` (module `Paths`): `os.path.join` with two arguments on POSIX.
  An absolute second argument replaces the first. A '/' is inserted only
  when the first argument is non-empty and does not already end in one.
- `components.dfy` (module `Components`):
  - the three components and the module-level list `components`;
  - the replacement of the literal "all" by that list;
  - the membership test `name in options.components`. On the option text
    this is a substring search; on the list it is list membership.
- `archive.dfy` (module `Archive`):
  - every collaborator call is an `Effect`;
  - `Execute` makes a sequence of calls with no exception handler, so the
    first call that raises is the last one made;
  - the archive on disk is abstracted to the set of component directories
    present, which `Dump` adds to and `Remove` (`rmtree_silent`) removes from.
- `orchestrator.dfy` (module `Orchestrator`):
  - the parsed options;
  - the usage checks;
  - the destination paths;
  - the calls `create` and `extract` make (`CreateEffects`, `ExtractEffects`);
  - `Expected`, the outcome and trace of one invocation;
  - the lemmas about them: usage errors, the order of the calls, the
    selection, the symlink policy, reconciliation of the archive,
    idempotence, what a failure leaves behind, and `extract` never writing.
- `deploy.dfy` (module `DeployScript`): the `__main__` block as the
  step-by-step program it is. The class `Script`:
  - appends each call to its `trace` field, and the archive follows from
    the trace;
  - in `Dispatch`, runs the source's checks and assignments in the source's
    order, then runs `Create` or `Extract`, which make the calls one at a
    time and return as soon as one raises;
  - proves that the trace and the outcome are exactly `Expected` for
    every invocation.

Each collaborator's behaviour is a parameter:

- `projectOf` gives `config.get('DEFAULT', 'project')` for a configuration
  file;
- `archiveDirOf` gives `deploy.extract.get_archive_dir`;
- `failing` is the set of calls a collaborator would answer with an
  exception.

Only the archive initialisation, the dumps, the restores and the apache
restore are modelled as able to raise. The hooks, `rmtree_silent` and
`sys.exit` are assumed never to raise; see "## Left out".

A call to `parser.error` becomes the outcome `UsageError(msg)` with no call
made. `sys.exit(0)` is the last call, `Exit(0)`, of a completed run.

## Model

| member | source | states |
|---|---|---|
| Paths.JoinShape | deploy.py:81 | `os.path.join(a, b)` ends with `b`. For an absolute `b` it is `b`. Otherwise it starts with `a`, and `b` follows a '/' when `a` is non-empty. Exactly one separator is added when `a` is non-empty and lacks a trailing '/'. |
| Paths.JoinInjective | deploy.py:83 | Below one directory, two relative names give the same path only when they are the same name. |
| Components.AllComponentsComplete | deploy.py:10 | The three components databases, files and code are all there are. |
| Components.Name | deploy.py:10 | Each component's name is its entry in the list `components`, non-empty and relative. |
| Components.NameInjective | deploy.py:10 | Distinct components have distinct names. |
| Components.OccursIff | deploy.py:89 | Python's `name in text` on strings holds exactly when `name` occurs at some position of `text`. |
| Components.MissingCharacter | deploy.py:89 | A name with a letter the text lacks is not `in` the text. |
| Components.SelectedIff | deploy.py:89 | A component is selected exactly when the option text is "all" or its name occurs anywhere in the text. |
| Components.Selection | deploy.py:70-71 | The selected set holds only the three components, and holds each one exactly when it is selected; "all" is replaced by the full list before the tests. |
| Components.AllSelectsEverything | deploy.py:70-71 | "all" selects every component. |
| Components.ListedSelection | deploy.py:89-104 | "files,code" selects exactly files and code. |
| Components.UnknownNameSelectsNothing | deploy.py:89-104 | "database", an unknown name, selects nothing, so an empty selection is possible. |
| Components.EmbeddedNameSelects | deploy.py:104 | "sourcecode" selects code, because the test is a substring test and not a parsed list. |
| Archive.Apply | deploy.py:89-110 | After a dump its directory is present; after a removal its directory is absent; no other directory changes. |
| Archive.ExecutePrefix | deploy.py:85-115 | With no exception handler, the calls made are a prefix of those attempted and none but the last one raised. A run ends either completed or aborted by the last call, which raised. |
| Archive.ExecuteCompletedIff | deploy.py:85-115 | A run completes exactly when no attempted call raises, and then every call was made. |
| Archive.ExecuteSpec | deploy.py:85-143 | The two properties above together, for any sequence of calls. |
| Archive.ExecuteStopsAt | deploy.py:85-115 | When call k is the first that raises, the run is aborted by it and exactly the calls up to k were made. |
| Archive.ExecuteCompletes | deploy.py:85-143 | When no call raises, every call is made and the run completes. |
| Archive.ApplyAllAppend | deploy.py:85-115 | Running two call sequences one after the other has the same effect on the archive as running their concatenation. |
| Archive.ApplyAllUntouched | deploy.py:89-110 | A directory that no call writes or removes keeps its presence. |
| Archive.ApplyAllTouchedOnce | deploy.py:89-110 | A directory touched by exactly one call is present afterwards exactly when that call is a dump, whatever was there before. |
| Archive.RunTouchedOnce | deploy.py:89-110 | The same for a run that may be cut short. The directory is as the call says if the run went past that call or completed, and unchanged if the run stopped before it. |
| Orchestrator.UsageErrors | deploy.py:67-120 | An invocation goes ahead exactly when one action is chosen and it has its positional arguments: two for `-c`, one for `-x`. Otherwise the outcome is a usage error and no call is made. |
| Orchestrator.BothActionsRejected | deploy.py:67-68 | `-c` with `-x` gives "options -c and -x are mutually exclusive" and no call, before any other check. |
| Orchestrator.NoActionRejected | deploy.py:73-74 | Neither action gives "missing action" and no call. |
| Orchestrator.TooFewArgumentsRejected | deploy.py:76-120 | `-c` with fewer than two positional arguments gives "missing config and/or archive destination"; `-x` with none gives "missing archive path". In both cases no call is made. |
| Orchestrator.DestPaths | deploy.py:83 | Every component has a destination path, `join(destdir, name)`. |
| Orchestrator.DestPathsDistinct | deploy.py:83 | Two components' destination paths are equal only when the components are. |
| Orchestrator.FailuresCutShort | deploy.py:85-143 | For an accepted invocation, the calls made are a prefix of those attempted. A completed run made all of them and ends in `Exit(0)`. An aborted run ends with the call that raised, no earlier call raised, and the call that raised is never a hook, a removal or the exit. |
| Orchestrator.NoFailureCompletes | deploy.py:85-143 | When no collaborator raises, every attempted call is made and the run completes. |
| Orchestrator.CreateOrder | deploy.py:85-115 | `create` runs the pre-create hook, then `create_update_archive(destdir, FILE)`, then one call per component in the order databases, files, code, then the post-create hook, then `sys.exit(0)`. Each component's call is a dump of that component exactly when it is selected, otherwise a removal, and always on `join(destdir, name)`. |
| Orchestrator.EffectsOrder | deploy.py:85-115 | The same, for any configuration file, archive directory, option text and symlink policy. |
| Orchestrator.CreateTouchesEachOnce | deploy.py:89-110 | Each component directory is written or removed by exactly one call of `create`, never both and never neither. |
| Orchestrator.EffectsTouchEachOnce | deploy.py:89-110 | The same, for any arguments. |
| Orchestrator.SymlinkPolicy | deploy.py:89-107 | The `--symlink` flag reaches the files and code dumps; the databases dump never receives it. |
| Orchestrator.DefaultCreateCopiesAll | deploy.py:37-48 | With the default options, `-c FILE DIRECTORY` is accepted and dumps all three components, copying files and code rather than symlinking them. |
| Orchestrator.CreateReconciles | deploy.py:81-110 | After `create`, each component directory is present exactly when the component is selected, whatever the archive held before, and no other directory changes. |
| Orchestrator.EffectsReconcile | deploy.py:89-110 | The same, for any arguments. |
| Orchestrator.CreateIdempotent | deploy.py:83-110 | Running `create` twice with the same options leaves the same directories as running it once. |
| Orchestrator.CreateAbortKeepsEarlierWork | deploy.py:89-110 | Nothing is rolled back when a call raises. Components handled before the failing call are reconciled; those after it are left as they were. |
| Orchestrator.ExtractOrder | deploy.py:127-143 | `extract` runs the pre-restore hook, then restores databases, files and code in that order from `join(srcdir, name)`, then the apache restore, the post-restore hook and `sys.exit(0)`. Nothing checks whether a subdirectory exists. |
| Orchestrator.ExtractIgnoresSelection | deploy.py:116-143 | Two `-x` invocations with the same positional arguments make the same calls with the same outcome, whatever `--components` and the symlink policy say. |
| Orchestrator.ExtractLeavesArchive | deploy.py:127-143 | `extract`, completed or not, never writes or removes a component directory of the archive. |
| Orchestrator.DemoPaths | deploy.py:80-83 | For `demo.cfg /tmp/out` with project "demo", the archive is /tmp/out/demo and the component directories are /tmp/out/demo/databases, /files and /code. |
| Orchestrator.FilesAndCodeScenario | deploy.py:76-115 | `-c --components=files,code demo.cfg /tmp/out` with no failure makes exactly seven calls: removing databases and dumping files and code by copy between the hooks. |
| Orchestrator.FilesAndCodeArchive | deploy.py:85-110 | After that invocation, databases is absent and files and code are present, whatever the archive held before. |
| DeployScript.Script.constructor | deploy.py:65 | The invocation starts with no call made and the archive as given. |
| DeployScript.Script.Call | deploy.py:85-143 | One call is appended to the trace, the archive changes as that call says, and the result says whether it raised. |
| DeployScript.Script.Step | deploy.py:85-143 | Makes the next call of a sequence. If it raises, or if it is the last call, the trace since the start is the one `Execute` gives. |
| DeployScript.Script.Dispatch | deploy.py:67-143 | The script: outcome and trace are those of `Expected`, and the archive is the old archive after the calls made. |
| DeployScript.Script.Create | deploy.py:80-115 | `create`: the outcome and the calls appended are those `Execute` gives for `CreateEffects`. |
| DeployScript.Script.Reconcile | deploy.py:89-110 | The three dump-or-remove blocks: the first call that raised, or all three calls made without a raise. |
| DeployScript.Script.Extract | deploy.py:122-143 | `extract`: the outcome and the calls appended are those `Execute` gives for `ExtractEffects`. |
| DeployScript.Script.RestoreComponents | deploy.py:129-136 | The three restores in order: the first call that raised, or all three calls made without a raise. |
| DeployScript.Script.Finish | deploy.py:112-143 | The post-action hook and `sys.exit(0)` that end both `create` and `extract`: neither raises, so the run completes. |

## Left out

- Logging (deploy.py:13-26 and the `logger` calls): output only, with no effect on control flow.
- Option parsing (deploy.py:28-65): the model starts from the parsed options. The `-v`/`-q` option is not modelled, since nothing reads it.
- `parser.error`'s message text on standard error and its exit status: a usage error is the outcome `UsageError(msg)`, not an `Exit` call.
- The internals of `deploy.config.parse_config`, `create_update_archive`, the dump and restore functions, `get_archive_dir`, `rmtree_silent` and `run_hook`: their source is not part of this model, so each is an opaque `Effect`.
- Errors raised by `parse_config`, `config.get('DEFAULT', 'project')`, `config.items(...)` or `get_archive_dir`: `projectOf` and `archiveDirOf` are total functions of the configuration path.
- The section contents passed to each dump and restore (`dict(config.items(...))`): an `Effect` records the component, not the configuration it was given.
- Archive.Apply: assumes a dump leaves its directory present, and that no other collaborator adds or removes a component directory. The collaborators covered by the second assumption are `run_hook` (the pre- and post-create and pre- and post-restore hooks are operator scripts), `create_update_archive`, the three restores and `apache.restore`. Their source is not part of this model, so both are assumptions about them. Relying on them: `Orchestrator.CreateReconciles`, `Orchestrator.EffectsReconcile` (including their clause that no other directory changes), `Orchestrator.CreateIdempotent`, `Orchestrator.CreateAbortKeepsEarlierWork`, `Orchestrator.FilesAndCodeArchive` and `Orchestrator.ExtractLeavesArchive`, which is this assumption applied to the calls of `extract`. The post-create hook (deploy.py:112) runs after the dumps, so a hook that changed the archive would break reconciliation.
- DeployScript.Script.Dispatch: counts the directory of a dump that raised as present afterwards, because `Call` applies every call to the archive whether or not it raised. This is a modelling choice, not a fact about the collaborator, which may leave the directory absent, partly written or complete. `Orchestrator.CreateAbortKeepsEarlierWork` does not depend on the choice and says nothing about the component whose call raised.
- Hooks, removals and the exit never raising: `run_hook` and `rmtree_silent` are not part of this model. `Fallible` assumes they never raise; all that is known of `rmtree_silent` is that it ignores a missing directory. The clause of `Orchestrator.FailuresCutShort` that an aborting call is never a hook, a removal or the exit follows from this assumption alone.
- The one-argument `os.path.join(args[0])` at deploy.py:122 only feeds `parse_config`, which the model does not represent for `extract`. `archiveDirOf(opts.args[0])` models deploy.py:123, which has no join. Joins of more than two arguments do not occur.
- `Create` receives the archive directory already joined. The model's `components` value is a local variable, not a field of `options`; the source overwrites `options.components` in place.
- deploy/remote.py: network stubs that always return `True` and that deploy.py does not call.
