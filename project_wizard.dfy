/** The `project-wizard` script: after the interactive part, copy the
    template's files, ask about git, install the template's runtime
    dependencies next to the script, run its logic entry and then its
    post-install commands. Only the git step swallows its failure; any other
    error ends the run with exit status 1. */
module ProjectWizard {
  import opened Domain
  import opened Paths
  import opened Effects
  import opened Configuration
  import opened GitHelper
  import opened Creator
  import opened Scripts

  /** The git question (asked after the history `h`) and, on yes, the
      init command in the project directory. */
  function GitActs(o: Oracles, h: seq<Action>, dest: string): (acts: seq<Action>)
    ensures 1 <= |acts| <= 2 && acts[0] == Asked(GitPrompt)
    ensures |acts| == 2 <==> o.confirm(h, GitPrompt)
    ensures |acts| == 2 ==> acts[1] == Exec(InitCommand, dest)
  {
    [Asked(GitPrompt)] + (if o.confirm(h, GitPrompt) then [Exec(InitCommand, dest)] else [])
  }

  /** `templateDeps?.length`: nothing for an absent or empty list; otherwise
      one install command in the script's directory, whose failure throws. */
  function DepsStep(o: Oracles, h: seq<Action>, deps: Option<seq<string>>, rootDir: string): Run {
    if deps.Some? && deps.value != [] then
      var install := Exec(InstallCommand(deps.value), rootDir);
      Run([install], if o.succeeds(h, install) then Pass else Fail(Failed(install)))
    else Run([], Pass)
  }

  /** The post-install loop: every command in order in the project
      directory, the first failure throwing out of the loop. */
  function PostStep(o: Oracles, h: seq<Action>, cmds: Option<seq<string>>, dest: string): Run {
    match cmds
    case None => Run([], Pass)
    case Some(c) => Finish(RunAll(o, h, PostActs(c, dest)))
  }

  /** Everything after the interactive part, from history `h`. */
  function Materialize(o: Oracles, h: seq<Action>, rootDir: string, cwd: string, a: Answers): Run {
    var t := a.chosenTemplate;
    var dest := Join(cwd, a.projectName);
    var copy := CopyPath(FilesDir(t.path), dest);
    if !o.succeeds(h, copy) then Run([copy], Fail(Failed(copy)))
    else
      var pre := [copy] + GitActs(o, h + [copy], dest);
      var deps := DepsStep(o, h + pre, t.templateDeps, rootDir);
      var logic := LogicStep(o, h + pre + deps.acts, t.path, dest, a.configOptions);
      var post := PostStep(o, h + pre + deps.acts + logic.acts, t.postInstall, dest);
      Then(Run(pre, Pass), Then(deps, Then(logic, post)))
  }

  /** The whole run: the interactive part, then the pipeline; `rootDir` is
      the script's own directory. */
  function Wizard(o: Oracles, h: seq<Action>, scriptDir: string, cwd: string): Run {
    var c := Prepare(o, h, scriptDir);
    match c.result
    case Err(e) => Run(c.acts, Fail(e))
    case Ok(a) =>
      var m := Materialize(o, h + c.acts, scriptDir, cwd, a);
      Run(c.acts + m.acts, m.outcome)
  }

  /** The template files are copied before anything else is issued; a copy
      that fails ends the run right there, and one that succeeds is followed
      by the git question. */
  lemma CopyComesFirst(o: Oracles, h: seq<Action>, rootDir: string, cwd: string, a: Answers)
    ensures var m := Materialize(o, h, rootDir, cwd, a);
            var copy := CopyPath(FilesDir(a.chosenTemplate.path), Join(cwd, a.projectName));
            && |m.acts| >= 1 && m.acts[0] == copy
            && (!o.succeeds(h, copy) ==> m == Run([copy], Fail(Failed(copy))))
            && (o.succeeds(h, copy) ==> |m.acts| >= 2 && m.acts[1] == Asked(GitPrompt))
  {
  }

  lemma DepsStepIgnoresEarlier(o: Oracles, at: seq<Action>, x: Action, b: bool, h: seq<Action>, deps: Option<seq<string>>, rootDir: string)
    requires |at| < |h|
    ensures DepsStep(WithOutcome(o, at, x, b), h, deps, rootDir) == DepsStep(o, h, deps, rootDir)
  {
  }

  lemma PostStepIgnoresEarlier(o: Oracles, at: seq<Action>, x: Action, b: bool, h: seq<Action>, cmds: Option<seq<string>>, dest: string)
    requires |at| < |h|
    ensures PostStep(WithOutcome(o, at, x, b), h, cmds, dest) == PostStep(o, h, cmds, dest)
  {
    if cmds.Some? {
      RunAllIgnoresEarlier(o, at, x, b, h, PostActs(cmds.value, dest));
    }
  }

  /** The git init is not awaited and its failure is only logged: whatever
      its outcome, the rest of the run issues the same actions and ends the
      same way. */
  lemma GitFailureSwallowed(o: Oracles, h: seq<Action>, rootDir: string, cwd: string, a: Answers, b: bool)
    requires var copy := CopyPath(FilesDir(a.chosenTemplate.path), Join(cwd, a.projectName));
             o.succeeds(h, copy) && o.confirm(h + [copy], GitPrompt)
    ensures var dest := Join(cwd, a.projectName);
            var copy := CopyPath(FilesDir(a.chosenTemplate.path), dest);
            var o' := WithOutcome(o, h + [copy, Asked(GitPrompt)], Exec(InitCommand, dest), b);
            Materialize(o', h, rootDir, cwd, a) == Materialize(o, h, rootDir, cwd, a)
  {
    var t := a.chosenTemplate;
    var dest := Join(cwd, a.projectName);
    var copy := CopyPath(FilesDir(t.path), dest);
    var at := h + [copy, Asked(GitPrompt)];
    var o' := WithOutcome(o, at, Exec(InitCommand, dest), b);
    assert o'.succeeds(h, copy) == o.succeeds(h, copy);
    var pre := [copy] + GitActs(o, h + [copy], dest);
    assert GitActs(o', h + [copy], dest) == GitActs(o, h + [copy], dest);
    DepsStepIgnoresEarlier(o, at, Exec(InitCommand, dest), b, h + pre, t.templateDeps, rootDir);
    var deps := DepsStep(o, h + pre, t.templateDeps, rootDir);
    var h2 := h + pre + deps.acts;
    assert LogicStep(o', h2, t.path, dest, a.configOptions) == LogicStep(o, h2, t.path, dest, a.configOptions) by {
      var entry := LogicPath(t.path);
      assert o'.succeeds(h2, InvokeLogic(entry, dest, a.configOptions)) == o.succeeds(h2, InvokeLogic(entry, dest, a.configOptions));
    }
    var logic := LogicStep(o, h2, t.path, dest, a.configOptions);
    PostStepIgnoresEarlier(o, at, Exec(InitCommand, dest), b, h2 + logic.acts, t.postInstall, dest);
  }

  lemma DepsStepStopsAtFailure(o: Oracles, h: seq<Action>, deps: Option<seq<string>>, rootDir: string)
    ensures StopsAtFailure(o, h, DepsStep(o, h, deps, rootDir))
  {
    assert h + DepsStep(o, h, deps, rootDir).acts[..0] == h;
  }

  lemma PostStepStopsAtFailure(o: Oracles, h: seq<Action>, cmds: Option<seq<string>>, dest: string)
    ensures StopsAtFailure(o, h, PostStep(o, h, cmds, dest))
  {
    if cmds.Some? {
      RunAllStopsAtFailure(o, h, PostActs(cmds.value, dest));
    }
  }

  /** A run that fails because an action failed ends with that action, and
      it failed at the point it was issued: no step runs after a fatal one. */
  lemma MaterializeStopsAtFailure(o: Oracles, h: seq<Action>, rootDir: string, cwd: string, a: Answers)
    ensures StopsAtFailure(o, h, Materialize(o, h, rootDir, cwd, a))
  {
    var t := a.chosenTemplate;
    var dest := Join(cwd, a.projectName);
    var copy := CopyPath(FilesDir(t.path), dest);
    if !o.succeeds(h, copy) {
      assert h + [copy][..0] == h;
    } else {
      var pre := [copy] + GitActs(o, h + [copy], dest);
      var deps := DepsStep(o, h + pre, t.templateDeps, rootDir);
      var logic := LogicStep(o, h + pre + deps.acts, t.path, dest, a.configOptions);
      var post := PostStep(o, h + pre + deps.acts + logic.acts, t.postInstall, dest);
      DepsStepStopsAtFailure(o, h + pre, t.templateDeps, rootDir);
      LogicStepStopsAtFailure(o, h + pre + deps.acts, t.path, dest, a.configOptions);
      PostStepStopsAtFailure(o, h + pre + deps.acts + logic.acts, t.postInstall, dest);
      ThenStopsAtFailure(o, h + pre + deps.acts, logic, post);
      assert h + pre + deps.acts + logic.acts == (h + pre + deps.acts) + logic.acts;
      ThenStopsAtFailure(o, h + pre, deps, Then(logic, post));
      ThenStopsAtFailure(o, h, Run(pre, Pass), Then(deps, Then(logic, post)));
    }
  }

  /** The pipeline after a successful copy, step by step: each step runs
      only when the ones before it passed. */
  lemma MaterializeSteps(o: Oracles, h: seq<Action>, rootDir: string, cwd: string, a: Answers)
    requires o.succeeds(h, CopyPath(FilesDir(a.chosenTemplate.path), Join(cwd, a.projectName)))
    ensures var t := a.chosenTemplate;
            var dest := Join(cwd, a.projectName);
            var copy := CopyPath(FilesDir(t.path), dest);
            var pre := [copy] + GitActs(o, h + [copy], dest);
            var deps := DepsStep(o, h + pre, t.templateDeps, rootDir);
            var logic := LogicStep(o, h + pre + deps.acts, t.path, dest, a.configOptions);
            var post := PostStep(o, h + pre + deps.acts + logic.acts, t.postInstall, dest);
            Materialize(o, h, rootDir, cwd, a)
            == if deps.outcome.Fail? then Run(pre + deps.acts, deps.outcome)
               else if logic.outcome.Fail? then Run(pre + deps.acts + logic.acts, logic.outcome)
               else Run(pre + deps.acts + logic.acts + post.acts, post.outcome)
  {
    var t := a.chosenTemplate;
    var dest := Join(cwd, a.projectName);
    var copy := CopyPath(FilesDir(t.path), dest);
    var pre := [copy] + GitActs(o, h + [copy], dest);
    var deps := DepsStep(o, h + pre, t.templateDeps, rootDir);
    var logic := LogicStep(o, h + pre + deps.acts, t.path, dest, a.configOptions);
    var post := PostStep(o, h + pre + deps.acts + logic.acts, t.postInstall, dest);
    assert pre + (deps.acts + logic.acts) == pre + deps.acts + logic.acts;
    assert pre + (deps.acts + (logic.acts + post.acts)) == pre + deps.acts + logic.acts + post.acts;
  }

  /** Unlike the library's `installDeps`, a failing dependency install is
      fatal here: the run ends with that command, and neither the logic
      entry nor any post-install command runs. */
  lemma DepsFailureIsFatal(o: Oracles, h: seq<Action>, rootDir: string, cwd: string, a: Answers)
    requires var t := a.chosenTemplate;
             var dest := Join(cwd, a.projectName);
             var copy := CopyPath(FilesDir(t.path), dest);
             var pre := [copy] + GitActs(o, h + [copy], dest);
             && o.succeeds(h, copy)
             && t.templateDeps.Some? && t.templateDeps.value != []
             && !o.succeeds(h + pre, Exec(InstallCommand(t.templateDeps.value), rootDir))
    ensures var t := a.chosenTemplate;
            var dest := Join(cwd, a.projectName);
            var copy := CopyPath(FilesDir(t.path), dest);
            var install := Exec(InstallCommand(t.templateDeps.value), rootDir);
            Materialize(o, h, rootDir, cwd, a)
            == Run([copy] + GitActs(o, h + [copy], dest) + [install], Fail(Failed(install)))
  {
    MaterializeSteps(o, h, rootDir, cwd, a);
  }

  /** A post-install step that passed issued every command, each after the
      ones before it succeeded. */
  lemma PostStepPass(o: Oracles, h: seq<Action>, cmds: seq<string>, dest: string)
    requires PostStep(o, h, Some(cmds), dest).outcome.Pass?
    ensures PostStep(o, h, Some(cmds), dest).acts == PostActs(cmds, dest)
    ensures AllSucceed(o, h, PostActs(cmds, dest))
  {
    RunAllSpec(o, h, PostActs(cmds, dest));
  }

  /** A run that passed has issued every post-install command, in order, at
      the end of its trace, and each of them succeeded. */
  lemma PassRanEveryPostInstall(o: Oracles, h: seq<Action>, rootDir: string, cwd: string, a: Answers)
    requires Materialize(o, h, rootDir, cwd, a).outcome.Pass?
    requires a.chosenTemplate.postInstall.Some?
    ensures var m := Materialize(o, h, rootDir, cwd, a);
            var post := PostActs(a.chosenTemplate.postInstall.value, Join(cwd, a.projectName));
            && |post| <= |m.acts|
            && m.acts[|m.acts| - |post|..] == post
            && AllSucceed(o, h + m.acts[..|m.acts| - |post|], post)
  {
    var t := a.chosenTemplate;
    var dest := Join(cwd, a.projectName);
    var copy := CopyPath(FilesDir(t.path), dest);
    MaterializeSteps(o, h, rootDir, cwd, a);
    var pre := [copy] + GitActs(o, h + [copy], dest);
    var deps := DepsStep(o, h + pre, t.templateDeps, rootDir);
    var logic := LogicStep(o, h + pre + deps.acts, t.path, dest, a.configOptions);
    var front := pre + deps.acts + logic.acts;
    assert h + front == h + pre + deps.acts + logic.acts;
    var post := PostActs(t.postInstall.value, dest);
    var m := Materialize(o, h, rootDir, cwd, a);
    assert m == Run(front + PostStep(o, h + front, t.postInstall, dest).acts, PostStep(o, h + front, t.postInstall, dest).outcome);
    PostStepPass(o, h + front, t.postInstall.value, dest);
    assert m.acts == front + post;
    assert m.acts[|m.acts| - |post|..] == post;
    assert m.acts[..|m.acts| - |post|] == front;
  }

  /** The git question and, on yes, the init; its outcome is not awaited. */
  method AskGit(env: Env, dest: string)
    modifies env
    ensures env.trace == old(env.trace) + GitActs(env.o, old(env.trace), dest)
  {
    var yes := env.Ask(GitPrompt);
    if yes.b {
      InitRepo(env, dest);
    }
  }

  method InstallTemplateDeps(env: Env, deps: Option<seq<string>>, rootDir: string) returns (r: Outcome)
    modifies env
    ensures env.trace == old(env.trace) + DepsStep(env.o, old(env.trace), deps, rootDir).acts
    ensures r == DepsStep(env.o, old(env.trace), deps, rootDir).outcome
  {
    if deps.Some? && |deps.value| > 0 {
      var install := Exec("npm install " + SpaceJoin(deps.value), rootDir);
      var ok := env.Perform(install);
      r := if ok then Pass else Fail(Failed(install));
    } else {
      r := Pass;
    }
  }

  /** The post-install loop: each command in turn, the first failure
      ending the loop. */
  method RunCommands(env: Env, cmds: seq<string>, dest: string) returns (r: Outcome)
    modifies env
    ensures var att := RunAll(env.o, old(env.trace), PostActs(cmds, dest));
            && env.trace == old(env.trace) + att.issued
            && (att.ok ==> r == Pass)
            && (!att.ok ==> r == Fail(Failed(att.issued[|att.issued| - 1])))
  {
    ghost var h0 := env.trace;
    ghost var acts := PostActs(cmds, dest);
    assert acts[..0] == [];
    var i := 0;
    while i < |cmds|
      invariant 0 <= i <= |cmds|
      invariant env.trace == h0 + acts[..i]
      invariant AllSucceed(env.o, h0, acts[..i])
    {
      PostActsAt(cmds, dest, i);
      var ok := env.Perform(Exec(cmds[i], dest));
      assert acts[..i + 1] == acts[..i] + [Exec(cmds[i], dest)];
      Regroup(h0, acts[..i], [Exec(cmds[i], dest)]);
      if !ok {
        RunAllFailsAt(env.o, h0, acts, i);
        r := Fail(Failed(Exec(cmds[i], dest)));
        return;
      }
      AllSucceedSnoc(env.o, h0, acts, i);
      i := i + 1;
    }
    assert acts[..i] == acts;
    RunAllCompletes(env.o, h0, acts);
    r := Pass;
  }

  /** An absent `postInstall` list is skipped. */
  method RunPostInstall(env: Env, cmds: Option<seq<string>>, dest: string) returns (r: Outcome)
    modifies env
    ensures env.trace == old(env.trace) + PostStep(env.o, old(env.trace), cmds, dest).acts
    ensures r == PostStep(env.o, old(env.trace), cmds, dest).outcome
  {
    if cmds.None? {
      return Pass;
    }
    ghost var h0 := env.trace;
    r := RunCommands(env, cmds.value, dest);
    ghost var att := RunAll(env.o, h0, PostActs(cmds.value, dest));
    RunAllSpec(env.o, h0, PostActs(cmds.value, dest));
    assert PostStep(env.o, h0, cmds, dest) == Finish(att);
  }

  /** Everything after the interactive part, as the program runs it. */
  method MaterializeRun(env: Env, rootDir: string, cwd: string, a: Answers) returns (r: Outcome)
    modifies env
    ensures env.trace == old(env.trace) + Materialize(env.o, old(env.trace), rootDir, cwd, a).acts
    ensures r == Materialize(env.o, old(env.trace), rootDir, cwd, a).outcome
  {
    ghost var h0 := env.trace;
    var t := a.chosenTemplate;
    var dest := Join(cwd, a.projectName);
    var copy := CopyPath(Join(t.path, "files"), dest);
    var copied := env.Perform(copy);
    if !copied {
      return Fail(Failed(copy));
    }
    MaterializeSteps(env.o, h0, rootDir, cwd, a);
    AskGit(env, dest);
    ghost var pre := [copy] + GitActs(env.o, h0 + [copy], dest);
    Regroup(h0, [copy], GitActs(env.o, h0 + [copy], dest));
    var installed := InstallTemplateDeps(env, t.templateDeps, rootDir);
    ghost var deps := DepsStep(env.o, h0 + pre, t.templateDeps, rootDir);
    if installed.Fail? {
      return installed;
    }
    var ran := InvokeEntry(env, t.path, dest, a.configOptions);
    ghost var logic := LogicStep(env.o, h0 + pre + deps.acts, t.path, dest, a.configOptions);
    Regroup(h0, pre, deps.acts);
    Regroup(h0, pre + deps.acts, logic.acts);
    if ran.Fail? {
      return ran;
    }
    r := RunPostInstall(env, t.postInstall, dest);
    ghost var post := PostStep(env.o, h0 + pre + deps.acts + logic.acts, t.postInstall, dest);
    Regroup(h0, pre + deps.acts + logic.acts, post.acts);
  }

  /** The script: exit status 0 when every step passed, 1 otherwise. */
  method RunWizard(env: Env, scriptDir: string, cwd: string) returns (exit: int)
    modifies env
    ensures env.trace == old(env.trace) + Wizard(env.o, old(env.trace), scriptDir, cwd).acts
    ensures exit == ExitCode(Wizard(env.o, old(env.trace), scriptDir, cwd).outcome)
  {
    ghost var h0 := env.trace;
    var answers := PrepareRun(env, scriptDir);
    ghost var c := Prepare(env.o, h0, scriptDir);
    assert env.trace == h0 + c.acts;
    if answers.Err? {
      return 1;
    }
    var outcome := MaterializeRun(env, scriptDir, cwd, answers.value);
    ghost var m := Materialize(env.o, h0 + c.acts, scriptDir, cwd, answers.value);
    assert env.trace == h0 + c.acts + m.acts;
    Regroup(h0, c.acts, m.acts);
    assert Wizard(env.o, h0, scriptDir, cwd) == Run(c.acts + m.acts, m.outcome);
    exit := ExitCode(outcome);
  }
}
