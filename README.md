# projwizard in Dafny

projwizard is a command-line scaffolder. It lists the templates under a
`templates` directory, where each template is a subdirectory with a
`config.json` manifest and a `files` tree. It asks for a project name, a
template and the template's declared options. It then copies the template's
files into a new project directory and, depending on the script, initialises
a git repository, installs the template's runtime dependencies, runs the
template's own `index.js` entry and runs its post-install commands. This
project models the library classes under `lib/` and the two scripts under
`bin/`. It proves what each of them issues, in which order, what it returns,
and which failures end a run.

## How the world is modelled

Everything outside the program is an `Effects.Oracles` value. It holds plain
functions of the history of actions issued so far:

- whether an action succeeds;
- what a prompt answers;
- whether a path exists;
- what importing a module gives;
- what a directory lists;
- which manifest a `config.json` parses to.

An `Effects.Env` object holds this oracle and a `trace`. The trace is the
sequence of `Domain.Action`s issued: prompts asked, warnings, shell commands
with their working directory, copies, moves, removals, and calls into a
template's logic. Each imperative method is proved against a function of the
oracle and the history before the call. The function gives the actions the
call appends to the trace and the result it returns. The properties are then
proved as lemmas about those functions.

A sequence of awaited operations stops at the first one that rejects. This
is `Effects.RunAll`, described by `AllSucceed` and `FailsAt`. A rejection
caught by a `try` around a single operation is modelled by ignoring that
operation's success.

Modules follow the source files:

- `Paths` holds `path.join`, `path.basename` and `join(" ")`.
- `Catalog` is `TemplateManager.js`.
- `Configuration` is `ProjectConfig.js`.
- `Creator` is `ProjectCreator.js`.
- `GitHelper` is `GitHelper.js`.
- `Utilities` is `Utilities.js`.
- `Scripts` is the interactive part the two scripts share.
- `ProjectWizard` is `bin/project-wizard.js`.
- `MakeProject` is `bin/make-project.js`.

### Where the scripts and the library differ

The scripts do not reuse the library's creator, and they behave differently
from it in several places. The model follows each piece of code as written.

- The library's `installDeps` and `postInstall` never report a failing
  command (`Creator.CreatorSwallowsCommandFailures`), so a broken install
  does not stop project creation. In `bin/project-wizard.js` the equivalent
  steps are not caught: a failing dependency install, template logic or
  post-install command ends the run with exit status 1
  (`ProjectWizard.DepsFailureIsFatal`, `ProjectWizard.MaterializeStopsAtFailure`).
- The wizard installs dependencies in the script's own directory. The library
  installs them in the project directory.
- The wizard asks the git question after the copy, not before it.
- No script calls `GitHelper.gitClone`. A template's `templateRepoLink` is
  read but never used, so no script creates a project by cloning a template
  repository. `GitHelper.GitClone` is modelled on its own.
- Both scripts call `Object.entries(chosen.options)` without a fallback. A
  template without `options` therefore throws in the scripts
  (`Scripts.PrepareShape`). The library uses `options || {}` and walks
  nothing.

## Model

| member | source | states |
|---|---|---|
| Catalog.TemplateManager.constructor | lib/TemplateManager.js:6-9 | the manager keeps its directory and starts with an empty catalog |
| Catalog.TemplateManager.LoadTemplates | lib/TemplateManager.js:11-23 | a load that completes replaces `templates` with the loaded catalog; a listing or manifest failure rejects and leaves `templates` unchanged |
| Catalog.BuildTemplates | lib/TemplateManager.js:13-22 | succeeds exactly when every directory's manifest can be read; then it gives one record per directory, in listing order, built from the name and the manifest; otherwise the error names a manifest that could not be read |
| Catalog.DirNamesSkipsFile | lib/TemplateManager.js:14 | an entry that is not a directory yields no template |
| Catalog.DirNamesKeepsDirectory | lib/TemplateManager.js:14 | a directory entry yields its name in its listing position |
| Catalog.DirNamesDistinct | lib/TemplateManager.js:12-14 | names listed from one directory stay distinct after the filter |
| Catalog.LoadDerivesIdAndPath | lib/TemplateManager.js:17-21 | a record's id and path are the directory name and path unless the manifest sets them, since the manifest is spread last |
| Catalog.FindById | lib/TemplateManager.js:30 | no result exactly when no record has the id; otherwise the first record with that id |
| Catalog.TemplateManager.GetTemplateById | lib/TemplateManager.js:29-31 | absent exactly when no loaded record has the id; otherwise the first record carrying it |
| Catalog.LookupRoundTrip | lib/TemplateManager.js:29-31 | looking up the id of record `i` finds a record with that id at or before `i` |
| Catalog.LookupRoundTripDistinct | lib/TemplateManager.js:29-31 | with distinct ids, looking up record `i`'s id returns record `i` |
| Catalog.LoadRoundTrip | lib/TemplateManager.js:11-31 | in a catalog loaded from one directory whose manifests set no `id`, looking up any record's id returns that record |
| Configuration.ProjectConfig.constructor | lib/ProjectConfig.js:4-6 | the collector keeps its template manager |
| Configuration.ProjectConfig.Collect | lib/ProjectConfig.js:8-29 | asks for the name, asks for the template, then walks the chosen template's options; the trace and the result match `CollectRun`; with a prompt library that keeps its validators, a returned name is never empty |
| Configuration.CollectOutcome | lib/ProjectConfig.js:8-29 | the two prompts come first; collection rejects exactly when the selected id is offered by no template; otherwise the name is the typed answer, the template is the first whose id was selected, and, when its option keys are distinct, the options object has one key per recognised option in declaration order |
| Configuration.CollectSucceeds | lib/ProjectConfig.js:8-29 | with a non-empty catalog and a prompt library whose answers pass its validators (a satisfiable condition), collection succeeds: the name is non-empty, the template is the first with the selected id, and the options are its walk |
| Configuration.ProjectConfig.ConfirmGitInit | lib/ProjectConfig.js:31-36 | asks one yes/no question whose default is yes and returns its answer |
| Configuration.ProjectConfig.PromptOptions | lib/ProjectConfig.js:38-56 | an undefined template rejects without asking anything; otherwise the options (none when absent) are walked in order and the built object is returned |
| Configuration.CollectOptions | lib/ProjectConfig.js:42-53 | the loop issues exactly the option walk's actions and returns the walk's object |
| Configuration.WalkVisitsInOrder | lib/ProjectConfig.js:42-47 | every option is visited once, in declaration order: a prompt for `boolean`, `number` and `string`, a warning for any other type |
| Configuration.WalkKeys | lib/ProjectConfig.js:42-53 | a key is in the result exactly when it was already there or belongs to an option of a known type |
| Configuration.WalkKeyOrder | lib/ProjectConfig.js:42-53 | with distinct option keys, the result's keys are the known-type keys in declaration order |
| Configuration.WalkValues | lib/ProjectConfig.js:49-52 | with distinct keys, a known-type option's value is the answer to its own prompt, asked after the options before it |
| Configuration.WalkKeepsOtherKeys | lib/ProjectConfig.js:49-52 | a key no remaining option mentions keeps its value |
| Configuration.PutKeys | lib/ProjectConfig.js:49 | assigning a property keeps an existing key in place and appends a new key last |
| Configuration.PutLookup | lib/ProjectConfig.js:49 | after the assignment the key reads the new value and every other key reads its old one |
| Creator.ProjectCreator.constructor | lib/ProjectCreator.js:9-14 | keeps the name, template and options; the project directory is the name joined to the working directory |
| Creator.ProjectCreator.CopyTemplateFiles | lib/ProjectCreator.js:16-19 | one copy of the template's `files` tree into the project directory; its failure rejects |
| Creator.LogicStep | lib/ProjectCreator.js:21-30 | issues at most one logic call, and exactly one when `index.js` exists and exports a function; the step fails exactly when the import rejects or the call throws |
| Creator.ProjectCreator.RunLogic | lib/ProjectCreator.js:21-30 | the trace and outcome are those of `LogicStep` |
| Creator.InvokeEntry | lib/ProjectCreator.js:21-30 | checks existence, imports, checks the type and calls, with the trace and outcome given by `LogicStep` |
| Creator.LogicStepStopsAtFailure | lib/ProjectCreator.js:27 | a failing logic call is the last action of the step |
| Creator.ProjectCreator.InstallDeps | lib/ProjectCreator.js:32-40 | an absent `templateDeps` throws before anything runs; otherwise one `npm install` with the dependencies joined by spaces, in the project directory, and its failure is swallowed |
| Creator.ProjectCreator.PostInstall | lib/ProjectCreator.js:42-51 | an absent list throws; otherwise every command runs in order in the project directory regardless of earlier failures, and the step passes |
| Creator.PostActsAt | lib/ProjectCreator.js:43-46 | the `i`-th action is the `i`-th command in the project directory |
| Creator.CreatorSwallowsCommandFailures | lib/ProjectCreator.js:32-51 | a declared dependency list or command list (including an empty one) never makes the step fail; the install issues the one `npm install` command, and the post-install step issues exactly the declared commands, one per entry, in order, in the project directory |
| GitHelper.InitRepo | lib/GitHelper.js:10-19 | one combined init, add and commit command in the given directory; its failure is swallowed |
| GitHelper.CloneRemovesOnlyAfterClone | lib/GitHelper.js:21-29 | the shallow clone is always tried first; the `.git` removal follows exactly when the clone succeeded; nothing else is issued |
| GitHelper.GitClone | lib/GitHelper.js:21-29 | the trace gains exactly the clone steps up to the first failure, and nothing is reported |
| Paths.Basename | lib/Utilities.js:20 | a base name contains no separator |
| Paths.BasenameOfJoin | lib/Utilities.js:20 | the base name of a name joined to a directory is that name |
| Utilities.Copy | lib/Utilities.js:16-26 | copies the files one by one in order, stopping at the first failure, which rejects with that copy; a completed run returns one record per file with its source and target |
| Utilities.Move | lib/Utilities.js:35-45 | the same loop and result with moves |
| Utilities.Remove | lib/Utilities.js:53-62 | removes in order and stops at the first failure; a completed run returns one removed record per file |
| Utilities.Exec | lib/Utilities.js:71-74 | one command in the given directory; its failure rejects |
| Utilities.TransfersAt | lib/Utilities.js:19-23 | record `i` names file `i` and its target in the destination |
| Utilities.TransferKeepsName | lib/Utilities.js:20 | a transferred file keeps its base name in the destination |
| Utilities.TransferFailsAt | lib/Utilities.js:19-23 | when file `k` is the first to fail, files `0..k` were tried, none after, and the error names file `k` |
| Utilities.RemovalsAt | lib/Utilities.js:56-59 | record `i` names file `i` as removed |
| Utilities.RemoveFailsAt | lib/Utilities.js:56-59 | when file `k` is the first removal to fail, removals `0..k` were tried and the error names file `k` |
| Effects.RunAllSpec | lib/Utilities.js:19-23 | a sequence of awaited actions succeeds exactly when each action succeeds after the ones before it; a failure stops right after the first failing action |
| Effects.RunAllFailsAt | lib/Utilities.js:19-23 | when action `k` is the first to fail, exactly actions `0..k` are issued |
| Effects.SoundSatisfiable | lib/ProjectConfig.js:11-23 | there is a prompt library that resolves every select prompt with an offered value and every non-empty-validated input with a non-empty string, so the assumption the collection lemmas make can be met |
| Scripts.PrepareShape | bin/project-wizard.js:43-70 | a catalog failure aborts before any prompt; otherwise the name and template prompts come first; an unknown id or a template without `options` throws; a success carries the first template with the selected id |
| Scripts.PrepareCollectsRecognized | bin/project-wizard.js:62-80 | with distinct keys, the options object has a key for exactly the known-type options, in declaration order |
| Scripts.PrepareRun | bin/project-wizard.js:44-80 | loading, prompts and option walk, with the trace and answers given by `Prepare` |
| Scripts.ChooseRun | bin/make-project.js:43-81 | name and template prompts and the option loop, with the trace and answers given by `Choose` |
| Scripts.ExitCode | bin/project-wizard.js:118-123 | status 0 exactly when the run passed, 1 otherwise |
| ProjectWizard.GitActs | bin/project-wizard.js:85-91 | the git question is asked; the init command follows exactly when the answer is yes |
| ProjectWizard.AskGit | bin/project-wizard.js:85-91 | the question and, on yes, the init command in the project directory |
| ProjectWizard.InstallTemplateDeps | bin/project-wizard.js:95-99 | nothing for absent or empty `templateDeps`; otherwise one `npm install` in the script's directory whose failure is fatal |
| ProjectWizard.RunCommands | bin/project-wizard.js:109-112 | the commands in order in the project directory; the first failure ends the loop and is reported |
| ProjectWizard.RunPostInstall | bin/project-wizard.js:108-113 | an absent list is skipped; otherwise the trace and outcome are those of the command loop |
| ProjectWizard.PostStepPass | bin/project-wizard.js:108-113 | a post-install step that passed issued every command and each one succeeded |
| ProjectWizard.MaterializeRun | bin/project-wizard.js:82-113 | copy, git question, dependencies, logic, post-install, with the trace and outcome given by `Materialize` |
| ProjectWizard.MaterializeSteps | bin/project-wizard.js:82-113 | after a successful copy, each later step runs only when every step before it passed, and the run ends with the first failure |
| ProjectWizard.CopyComesFirst | bin/project-wizard.js:82-91 | the copy is the first action; a failing copy ends the run there; a successful one is followed by the git question |
| ProjectWizard.GitFailureSwallowed | bin/project-wizard.js:31-41 | however the git init turns out, the rest of the run issues the same actions and ends the same way |
| ProjectWizard.DepsFailureIsFatal | bin/project-wizard.js:95-99 | a failing dependency install is the last action and fails the run: no logic and no post-install command runs |
| ProjectWizard.PassRanEveryPostInstall | bin/project-wizard.js:108-116 | a run that passed ends with every post-install command, in order, each one succeeding |
| ProjectWizard.MaterializeStopsAtFailure | bin/project-wizard.js:82-116 | a run that fails on an action ends with that action, which failed where it was issued |
| ProjectWizard.RunWizard | bin/project-wizard.js:43-123 | the whole script: the trace is that of `Wizard`; the exit status is 0 exactly when every step passed |
| MakeProject.GitStepsIssued | bin/make-project.js:28-38 | the three git commands run in order and stop at the first one that fails |
| MakeProject.InitGitRepo | bin/make-project.js:28-38 | the trace gains the git commands up to the first failure; nothing is reported |
| MakeProject.GitFollowsCopy | bin/make-project.js:87-89 | after a successful copy, `git init` comes next; between one and three git commands are issued, in order; the run passes |
| MakeProject.GitStopsAtFirstFailure | bin/make-project.js:28-38 | a failing git command is the last action, and the run still passes |
| MakeProject.PassIffCopied | bin/make-project.js:85-95 | the exit status is 0 exactly when the interactive part produced answers and the copy succeeded |
| MakeProject.MaterializeRun | bin/make-project.js:85-89 | the copy, then git, with the trace and outcome given by `Materialize` |
| MakeProject.RunMake | bin/make-project.js:40-95 | the whole script: the trace is that of `Make`; the exit status is that of its outcome |

## Left out

- Prompt rendering, validation messages and re-prompting are not modelled. A prompt is one `Asked` action whose answer comes from the oracle. `Effects.Sound` states only what a validated answer always meets: a select prompt with offered choices answers one of them, and any other prompt with a non-empty validator answers a non-empty string (`Effects.SoundSatisfiable` exhibits such a prompt library).
- The number prompt can return `undefined` or a fraction; the model's answer is an integer.
- Filesystem semantics behind `fs.copy`, `fs.move` and `fs.remove` are not modelled: merging, overwriting, missing sources. Each operation is one action with an oracle outcome.
- JSON parsing is not modelled. A manifest is read and parsed by one oracle call, and a parse error is a failed read.
- `Object.entries` lists integer-like keys first in ascending order. The model keeps declaration order for every key.
- The wizard's `opt.type in optionsTypes` and the library's `types[opt.type]` also accept keys such as `toString` or `constructor` through the prototype chain. The model accepts exactly `boolean`, `number` and `string`.
- The wizard runs `initGitRepo` without awaiting it, so git runs concurrently with the later steps. The model issues the init right after the answer. `ProjectWizard.GitFailureSwallowed` shows that its outcome cannot affect the rest of the run.
- Console output is not modelled: progress lines, warnings' text, the printed options object in `make-project.js:83`, and the error printed before exit.
- Utilities.Exec: the default working directory `process.cwd()` is not modelled; every caller in the core passes the directory explicitly.
- The standard output and error that `Utilities.exec` returns are not modelled. `Utilities.Exec` reports only success or failure.
- Path normalisation (`..`, repeated separators, absolute second arguments) is not modelled. `Paths.Join` is plain concatenation with one separator, and `path.resolve` of the script directory is that directory.
- `gitClone` runs from the helper module's own directory. That directory is a parameter of `GitHelper.GitClone`.
- The template choices' titles and descriptions are not modelled; only the offered ids are.
- Catalog.TemplateManager.GetTemplates: returns the `templates` field and has no contract beyond that.
- Non-array truthy values of `postInstall` or `templateDeps` are not modelled; the manifest's types admit only lists.
