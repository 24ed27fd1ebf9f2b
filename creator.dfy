/** The project creator: copies a template's `files` tree into the project
    directory, runs the template's own logic entry, installs its declared
    dependencies and runs its post-install commands. */
module Creator {
  import opened Domain
  import opened Paths
  import opened Effects

  /** `join(template.path, "files")`: the tree that is copied. */
  function FilesDir(templatePath: string): string {
    Join(templatePath, "files")
  }

  /** `join(template.path, "index.js")`: the template's logic entry. */
  function LogicPath(templatePath: string): string {
    Join(templatePath, "index.js")
  }

  /** `npm install <deps joined by spaces>`. */
  function InstallCommand(deps: seq<string>): string {
    "npm install " + SpaceJoin(deps)
  }

  /** The logic step: nothing unless `index.js` exists; an import that
      rejects throws; a default export that is not a function is ignored;
      a function is called once with the project directory and the options,
      and a throw from it propagates. */
  function LogicStep(o: Oracles, h: seq<Action>, templatePath: string, projectDir: string, config: Config): (r: Run)
    ensures var entry := LogicPath(templatePath);
            && (r.acts == [] || r.acts == [InvokeLogic(entry, projectDir, config)])
            && (r.acts != [] <==> o.pathExists(h, entry) && o.load(h, entry) == Callable)
            && (r.outcome.Fail? <==>
                  o.pathExists(h, entry)
                  && (o.load(h, entry) == ImportFails
                      || (o.load(h, entry) == Callable && !o.succeeds(h, InvokeLogic(entry, projectDir, config)))))
            && (r.outcome == Fail(ImportFailed(entry)) <==> o.pathExists(h, entry) && o.load(h, entry) == ImportFails)
  {
    var entry := LogicPath(templatePath);
    if !o.pathExists(h, entry) then Run([], Pass)
    else
      match o.load(h, entry)
      case ImportFails => Run([], Fail(ImportFailed(entry)))
      case NotCallable => Run([], Pass)
      case Callable =>
        var call := InvokeLogic(entry, projectDir, config);
        Run([call], if o.succeeds(h, call) then Pass else Fail(Failed(call)))
  }

  lemma LogicStepStopsAtFailure(o: Oracles, h: seq<Action>, templatePath: string, projectDir: string, config: Config)
    ensures StopsAtFailure(o, h, LogicStep(o, h, templatePath, projectDir, config))
  {
    assert h + LogicStep(o, h, templatePath, projectDir, config).acts[..0] == h;
  }

  /** `installDeps`: joining an absent `templateDeps` throws before anything
      runs; otherwise one install command runs in the project directory and
      its failure is only logged. */
  function InstallRun(deps: Option<seq<string>>, projectDir: string): Run {
    match deps
    case None => Run([], Fail(MissingField("templateDeps")))
    case Some(d) => Run([Exec(InstallCommand(d), projectDir)], Pass)
  }

  /** One command action per post-install command, in list order. */
  function PostActs(cmds: seq<string>, cwd: string): (acts: seq<Action>)
    ensures |acts| == |cmds|
    decreases |cmds|
  {
    if cmds == [] then [] else [Exec(cmds[0], cwd)] + PostActs(cmds[1..], cwd)
  }

  lemma {:induction false} PostActsAt(cmds: seq<string>, cwd: string, i: nat)
    requires i < |cmds|
    ensures PostActs(cmds, cwd)[i] == Exec(cmds[i], cwd)
    decreases i
  {
    if i > 0 {
      PostActsAt(cmds[1..], cwd, i - 1);
    }
  }

  /** `postInstall`: iterating an absent list throws; otherwise every command
      is attempted in order, whatever the earlier ones did. */
  function PostInstallRun(cmds: Option<seq<string>>, projectDir: string): Run {
    match cmds
    case None => Run([], Fail(MissingField("postInstall")))
    case Some(c) => Run(PostActs(c, projectDir), Pass)
  }

  /** Neither `installDeps` nor `postInstall` reports a failing command: a
      declared list always ends in success, with the install command or one
      action per command, in order, in the project directory. */
  lemma CreatorSwallowsCommandFailures(deps: seq<string>, cmds: seq<string>, projectDir: string)
    ensures InstallRun(Some(deps), projectDir) == Run([Exec("npm install " + SpaceJoin(deps), projectDir)], Pass)
    ensures PostInstallRun(Some(cmds), projectDir).outcome == Pass
    ensures |PostInstallRun(Some(cmds), projectDir).acts| == |cmds|
    ensures forall i :: 0 <= i < |cmds| ==> PostInstallRun(Some(cmds), projectDir).acts[i] == Exec(cmds[i], projectDir)
  {
    forall i | 0 <= i < |cmds|
      ensures PostInstallRun(Some(cmds), projectDir).acts[i] == Exec(cmds[i], projectDir)
    {
      PostActsAt(cmds, projectDir, i);
    }
  }

  /** The logic step as the program runs it: existence check, import, type
      check, call. */
  method InvokeEntry(env: Env, templatePath: string, projectDir: string, config: Config) returns (r: Outcome)
    modifies env
    ensures env.trace == old(env.trace) + LogicStep(env.o, old(env.trace), templatePath, projectDir, config).acts
    ensures r == LogicStep(env.o, old(env.trace), templatePath, projectDir, config).outcome
  {
    var entry := LogicPath(templatePath);
    if !env.o.pathExists(env.trace, entry) {
      return Pass;
    }
    var run := env.o.load(env.trace, entry);
    match run
    case ImportFails =>
      r := Fail(ImportFailed(entry));
    case NotCallable =>
      r := Pass;
    case Callable =>
      var call := InvokeLogic(entry, projectDir, config);
      var ok := env.Perform(call);
      r := if ok then Pass else Fail(Failed(call));
  }

  class ProjectCreator {
    const projectName: string
    const chosenTemplate: Template
    const configOptions: Config
    const projectDir: string

    /** The project directory is the project name inside the working directory. */
    constructor (projectName: string, chosenTemplate: Template, configOptions: Config, cwd: string)
      ensures this.projectName == projectName && this.chosenTemplate == chosenTemplate
      ensures this.configOptions == configOptions
      ensures projectDir == Join(cwd, projectName)
    {
      this.projectName := projectName;
      this.chosenTemplate := chosenTemplate;
      this.configOptions := configOptions;
      projectDir := Join(cwd, projectName);
    }

    /** `copyTemplateFiles`: one copy; its failure propagates. */
    method CopyTemplateFiles(env: Env) returns (r: Outcome)
      modifies env
      ensures env.trace == old(env.trace) + [CopyPath(FilesDir(chosenTemplate.path), projectDir)]
      ensures r == if env.o.succeeds(old(env.trace), CopyPath(FilesDir(chosenTemplate.path), projectDir))
                   then Pass else Fail(Failed(CopyPath(FilesDir(chosenTemplate.path), projectDir)))
    {
      var copy := CopyPath(Join(chosenTemplate.path, "files"), projectDir);
      var ok := env.Perform(copy);
      r := if ok then Pass else Fail(Failed(copy));
    }

    /** `runLogic`. */
    method RunLogic(env: Env) returns (r: Outcome)
      modifies env
      ensures env.trace == old(env.trace) + LogicStep(env.o, old(env.trace), chosenTemplate.path, projectDir, configOptions).acts
      ensures r == LogicStep(env.o, old(env.trace), chosenTemplate.path, projectDir, configOptions).outcome
    {
      r := InvokeEntry(env, chosenTemplate.path, projectDir, configOptions);
    }

    /** `installDeps`. */
    method InstallDeps(env: Env) returns (r: Outcome)
      modifies env
      ensures env.trace == old(env.trace) + InstallRun(chosenTemplate.templateDeps, projectDir).acts
      ensures r == InstallRun(chosenTemplate.templateDeps, projectDir).outcome
    {
      if chosenTemplate.templateDeps.None? {
        return Fail(MissingField("templateDeps"));
      }
      var deps := SpaceJoin(chosenTemplate.templateDeps.value);
      var _ := env.Perform(Exec("npm install " + deps, projectDir));
      r := Pass;
    }

    /** `postInstall`: each command in its own `try`, so a failure does not
        stop the loop. */
    method PostInstall(env: Env) returns (r: Outcome)
      modifies env
      ensures env.trace == old(env.trace) + PostInstallRun(chosenTemplate.postInstall, projectDir).acts
      ensures r == PostInstallRun(chosenTemplate.postInstall, projectDir).outcome
    {
      if chosenTemplate.postInstall.None? {
        return Fail(MissingField("postInstall"));
      }
      var cmds := chosenTemplate.postInstall.value;
      ghost var h0 := env.trace;
      ghost var acts := PostActs(cmds, projectDir);
      assert acts[..0] == [];
      var i := 0;
      while i < |cmds|
        invariant 0 <= i <= |cmds|
        invariant env.trace == h0 + acts[..i]
      {
        PostActsAt(cmds, projectDir, i);
        var _ := env.Perform(Exec(cmds[i], projectDir));
        assert acts[..i + 1] == acts[..i] + [Exec(cmds[i], projectDir)];
        Regroup(h0, acts[..i], [Exec(cmds[i], projectDir)]);
        i := i + 1;
      }
      assert acts[..i] == acts;
      r := Pass;
    }
  }
}
