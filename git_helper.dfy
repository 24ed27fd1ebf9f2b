/** The version-control helper: initialise a repository in one shell
    invocation, and shallow-clone a repository then strip its `.git`
    directory. Neither operation ever reports a failure to its caller. */
module GitHelper {
  import opened Domain
  import opened Paths
  import opened Effects

  /** Init, stage and commit as a single shell command. */
  const InitCommand: string := "git init && git add . && git commit -m 'Initial commit'"

  /** `git clone <link> <dest> --depth 1`. */
  function CloneCommand(link: string, dest: string): string {
    "git clone " + link + " " + dest + " --depth 1"
  }

  /** What `gitClone` tries, in order: the clone (run from the helper's own
      directory), then removal of the clone's metadata directory. */
  function CloneSteps(link: string, dest: string, moduleDir: string): seq<Action> {
    [Exec(CloneCommand(link, dest), moduleDir), RemovePath(Join(dest, ".git"))]
  }

  /** The clone is always attempted first, and the metadata directory is
      removed exactly when the clone succeeded; nothing else is issued. */
  lemma CloneRemovesOnlyAfterClone(o: Oracles, h: seq<Action>, link: string, dest: string, moduleDir: string)
    ensures var issued := RunAll(o, h, CloneSteps(link, dest, moduleDir)).issued;
            var clone := Exec(CloneCommand(link, dest), moduleDir);
            && 1 <= |issued| <= 2
            && issued[0] == clone
            && (|issued| == 2 <==> o.succeeds(h, clone))
            && (|issued| == 2 ==> issued[1] == RemovePath(Join(dest, ".git")))
  {
    var steps := CloneSteps(link, dest, moduleDir);
    var h1 := h + [steps[0]];
    assert steps[1..] == [steps[1]];
    assert [steps[1]][1..] == [];
    assert |RunAll(o, h1, [steps[1]]).issued| == 1;
  }

  /** `initRepo(path)`: one command in `path`; a failure is logged and swallowed. */
  method InitRepo(env: Env, path: string)
    modifies env
    ensures env.trace == old(env.trace) + [Exec(InitCommand, path)]
  {
    var _ := env.Perform(Exec(InitCommand, path));
  }

  /** `gitClone(link, dest)`: the removal runs only after a clone that
      succeeded; either failure is logged and swallowed. */
  method GitClone(env: Env, link: string, dest: string, moduleDir: string)
    modifies env
    ensures env.trace == old(env.trace) + RunAll(env.o, old(env.trace), CloneSteps(link, dest, moduleDir)).issued
  {
    ghost var h0 := env.trace;
    CloneRemovesOnlyAfterClone(env.o, h0, link, dest, moduleDir);
    var cloned := env.Perform(Exec(CloneCommand(link, dest), moduleDir));
    if cloned {
      var _ := env.Perform(RemovePath(Join(dest, ".git")));
    }
  }
}
