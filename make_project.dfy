/** The `make-project` script: after the interactive part, copy the
    template's files into the project directory, then initialise a git
    repository with three separate commands. A failing copy ends the run
    with exit status 1; a failing git command only stops the git steps. */
module MakeProject {
  import opened Domain
  import opened Paths
  import opened Effects
  import opened Configuration
  import opened Creator
  import opened Scripts

  /** `git init`, `git add .` and the initial commit, each awaited in turn
      in the project directory. */
  function GitSteps(dest: string): seq<Action> {
    [Exec("git init", dest), Exec("git add .", dest), Exec("git commit -m \"Initial commit\"", dest)]
  }

  /** The git steps issued from history `h`: they stop at the first command
      that fails, and nothing runs after it. */
  lemma GitStepsIssued(o: Oracles, h: seq<Action>, dest: string)
    ensures var s := GitSteps(dest);
            RunAll(o, h, s).issued
            == if !o.succeeds(h, s[0]) then [s[0]]
               else if !o.succeeds(h + [s[0]], s[1]) then [s[0], s[1]]
               else s
  {
    var s := GitSteps(dest);
    assert s[1..][1..] == [s[2]];
    assert [s[2]][1..] == [];
    assert h + [s[0]] + [s[1]] == h + [s[0], s[1]];
    assert |RunAll(o, h + [s[0], s[1]], [s[2]]).issued| == 1;
  }

  /** Everything after the interactive part, from history `h`: the copy,
      then the git steps, whose failure never reaches the outcome. */
  function Materialize(o: Oracles, h: seq<Action>, cwd: string, a: Answers): Run {
    var dest := Join(cwd, a.projectName);
    var copy := CopyPath(FilesDir(a.chosenTemplate.path), dest);
    if !o.succeeds(h, copy) then Run([copy], Fail(Failed(copy)))
    else Run([copy] + RunAll(o, h + [copy], GitSteps(dest)).issued, Pass)
  }

  /** The whole run: the interactive part, then the copy and git. */
  function Make(o: Oracles, h: seq<Action>, scriptDir: string, cwd: string): Run {
    var c := Prepare(o, h, scriptDir);
    match c.result
    case Err(e) => Run(c.acts, Fail(e))
    case Ok(a) =>
      var m := Materialize(o, h + c.acts, cwd, a);
      Run(c.acts + m.acts, m.outcome)
  }

  /** The script exits with status 0 exactly when the interactive part
      produced answers and the copy succeeded: git never changes it. */
  lemma PassIffCopied(o: Oracles, h: seq<Action>, scriptDir: string, cwd: string)
    ensures var c := Prepare(o, h, scriptDir);
            ExitCode(Make(o, h, scriptDir, cwd).outcome) == 0
            <==> c.result.Ok?
                 && o.succeeds(h + c.acts, CopyPath(FilesDir(c.result.value.chosenTemplate.path),
                                                    Join(cwd, c.result.value.projectName)))
  {
  }

  /** After a successful copy the first git command comes right after it,
      and between one and all three git commands are issued, in order. */
  lemma GitFollowsCopy(o: Oracles, h: seq<Action>, cwd: string, a: Answers)
    requires o.succeeds(h, CopyPath(FilesDir(a.chosenTemplate.path), Join(cwd, a.projectName)))
    ensures var dest := Join(cwd, a.projectName);
            var m := Materialize(o, h, cwd, a);
            && 2 <= |m.acts| <= 4
            && m.acts[..2] == [CopyPath(FilesDir(a.chosenTemplate.path), dest), Exec("git init", dest)]
            && m.acts[1..] == GitSteps(dest)[..|m.acts| - 1]
            && m.outcome == Pass
  {
    var dest := Join(cwd, a.projectName);
    var copy := CopyPath(FilesDir(a.chosenTemplate.path), dest);
    GitStepsIssued(o, h + [copy], dest);
    var s := GitSteps(dest);
    assert s[..1] == [s[0]] && s[..2] == [s[0], s[1]] && s[..3] == s;
  }

  /** A git command that fails stops the git steps right there: the run
      ends with it and still passes. */
  lemma GitStopsAtFirstFailure(o: Oracles, h: seq<Action>, cwd: string, a: Answers, k: nat)
    requires var dest := Join(cwd, a.projectName);
             var copy := CopyPath(FilesDir(a.chosenTemplate.path), dest);
             o.succeeds(h, copy) && FailsAt(o, h + [copy], GitSteps(dest), k)
    ensures var dest := Join(cwd, a.projectName);
            var copy := CopyPath(FilesDir(a.chosenTemplate.path), dest);
            Materialize(o, h, cwd, a) == Run([copy] + GitSteps(dest)[..k + 1], Pass)
  {
    var dest := Join(cwd, a.projectName);
    var copy := CopyPath(FilesDir(a.chosenTemplate.path), dest);
    RunAllFailsAt(o, h + [copy], GitSteps(dest), k);
  }

  /** `initGitRepo(destDir)`: the first command that fails is logged and
      the remaining ones are skipped. */
  method InitGitRepo(env: Env, dest: string)
    modifies env
    ensures env.trace == old(env.trace) + RunAll(env.o, old(env.trace), GitSteps(dest)).issued
  {
    ghost var h0 := env.trace;
    GitStepsIssued(env.o, h0, dest);
    var ok := env.Perform(Exec("git init", dest));
    if !ok {
      return;
    }
    ok := env.Perform(Exec("git add .", dest));
    if !ok {
      return;
    }
    ok := env.Perform(Exec("git commit -m \"Initial commit\"", dest));
  }

  /** The copy and git as the program runs them. */
  method MaterializeRun(env: Env, cwd: string, a: Answers) returns (r: Outcome)
    modifies env
    ensures env.trace == old(env.trace) + Materialize(env.o, old(env.trace), cwd, a).acts
    ensures r == Materialize(env.o, old(env.trace), cwd, a).outcome
  {
    ghost var h0 := env.trace;
    var dest := Join(cwd, a.projectName);
    var copy := CopyPath(Join(a.chosenTemplate.path, "files"), dest);
    var copied := env.Perform(copy);
    if !copied {
      return Fail(Failed(copy));
    }
    InitGitRepo(env, dest);
    Regroup(h0, [copy], RunAll(env.o, h0 + [copy], GitSteps(dest)).issued);
    r := Pass;
  }

  /** The script: exit status 0 unless the catalog, the prompts or the copy
      failed. */
  method RunMake(env: Env, scriptDir: string, cwd: string) returns (exit: int)
    modifies env
    ensures env.trace == old(env.trace) + Make(env.o, old(env.trace), scriptDir, cwd).acts
    ensures exit == ExitCode(Make(env.o, old(env.trace), scriptDir, cwd).outcome)
  {
    ghost var h0 := env.trace;
    var answers := PrepareRun(env, scriptDir);
    ghost var c := Prepare(env.o, h0, scriptDir);
    assert env.trace == h0 + c.acts;
    if answers.Err? {
      return 1;
    }
    var outcome := MaterializeRun(env, cwd, answers.value);
    ghost var m := Materialize(env.o, h0 + c.acts, cwd, answers.value);
    Regroup(h0, c.acts, m.acts);
    assert Make(env.o, h0, scriptDir, cwd) == Run(c.acts + m.acts, m.outcome);
    exit := ExitCode(outcome);
  }
}
