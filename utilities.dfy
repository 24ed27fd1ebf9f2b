/** The file helpers: copy or move several paths into one directory, remove
    several paths, and run one shell command. Each helper issues one action
    per input in input order and stops at the first that fails. */
module Utilities {
  import opened Domain
  import opened Paths
  import opened Effects

  /** A `{ source, destination }` record of `copy` and `move`. */
  datatype Transfer = Transfer(source: string, destination: string)

  /** A `{ file, removed }` record of `remove`. */
  datatype Removal = Removal(file: string, removed: bool)

  /** Where a file lands: `join(dest, basename(file))`. */
  function Target(dest: string, file: string): string {
    Join(dest, Basename(file))
  }

  /** The action for one file: `fs.move` when `move` is set, `fs.copy` otherwise. */
  function TransferAction(move: bool, source: string, target: string): Action {
    if move then MovePath(source, target) else CopyPath(source, target)
  }

  /** The actions of a transfer, one per file in order. */
  function TransferActs(move: bool, dest: string, files: seq<string>): (acts: seq<Action>)
    ensures |acts| == |files|
    decreases |files|
  {
    if files == [] then []
    else [TransferAction(move, files[0], Target(dest, files[0]))] + TransferActs(move, dest, files[1..])
  }

  /** The records of a transfer that completed, one per file in order. */
  function Transfers(dest: string, files: seq<string>): (rs: seq<Transfer>)
    ensures |rs| == |files|
    decreases |files|
  {
    if files == [] then [] else [Transfer(files[0], Target(dest, files[0]))] + Transfers(dest, files[1..])
  }

  function RemoveActs(files: seq<string>): (acts: seq<Action>)
    ensures |acts| == |files|
    decreases |files|
  {
    if files == [] then [] else [RemovePath(files[0])] + RemoveActs(files[1..])
  }

  function Removals(files: seq<string>): (rs: seq<Removal>)
    ensures |rs| == |files|
    decreases |files|
  {
    if files == [] then [] else [Removal(files[0], true)] + Removals(files[1..])
  }

  /** The `i`-th action of a transfer is the action for the `i`-th file. */
  lemma {:induction false} TransferActsAt(move: bool, dest: string, files: seq<string>, i: nat)
    requires i < |files|
    ensures TransferActs(move, dest, files)[i] == TransferAction(move, files[i], Target(dest, files[i]))
    decreases i
  {
    if i > 0 {
      TransferActsAt(move, dest, files[1..], i - 1);
    }
  }

  /** The `i`-th record of a transfer names the `i`-th file and where it landed. */
  lemma {:induction false} TransfersAt(dest: string, files: seq<string>, i: nat)
    requires i < |files|
    ensures Transfers(dest, files)[i] == Transfer(files[i], Target(dest, files[i]))
    decreases i
  {
    if i > 0 {
      TransfersAt(dest, files[1..], i - 1);
    }
  }

  lemma {:induction false} RemoveActsAt(files: seq<string>, i: nat)
    requires i < |files|
    ensures RemoveActs(files)[i] == RemovePath(files[i])
    decreases i
  {
    if i > 0 {
      RemoveActsAt(files[1..], i - 1);
    }
  }

  lemma {:induction false} RemovalsAt(files: seq<string>, i: nat)
    requires i < |files|
    ensures Removals(files)[i] == Removal(files[i], true)
    decreases i
  {
    if i > 0 {
      RemovalsAt(files[1..], i - 1);
    }
  }

  /** A transferred file keeps its name in the destination directory. */
  lemma TransferKeepsName(dest: string, files: seq<string>, i: nat)
    requires i < |files| && Basename(files[i]) != []
    ensures Basename(Transfers(dest, files)[i].destination) == Basename(files[i])
  {
    TransfersAt(dest, files, i);
    BasenameOfJoin(dest, Basename(files[i]));
  }

  /** When the action for file `k` is the first to fail, the actions for
      files `0..k` have been issued, none after, and the error names file `k`. */
  lemma TransferFailsAt(o: Oracles, h: seq<Action>, move: bool, dest: string, files: seq<string>, k: nat)
    requires FailsAt(o, h, TransferActs(move, dest, files), k)
    ensures var att := RunAll(o, h, TransferActs(move, dest, files));
            && att.issued == TransferActs(move, dest, files)[..k + 1]
            && Finish(att) == Run(att.issued, Fail(Failed(TransferAction(move, files[k], Target(dest, files[k])))))
  {
    RunAllFailsAt(o, h, TransferActs(move, dest, files), k);
    TransferActsAt(move, dest, files, k);
  }

  lemma RemoveFailsAt(o: Oracles, h: seq<Action>, files: seq<string>, k: nat)
    requires FailsAt(o, h, RemoveActs(files), k)
    ensures var att := RunAll(o, h, RemoveActs(files));
            && att.issued == RemoveActs(files)[..k + 1]
            && Finish(att) == Run(att.issued, Fail(Failed(RemovePath(files[k]))))
  {
    RunAllFailsAt(o, h, RemoveActs(files), k);
    RemoveActsAt(files, k);
  }

  /** `copy(dest, ...files)`: one `fs.copy` per file in order, a record pushed
      after each that completes; the first failure propagates. */
  method Copy(env: Env, dest: string, files: seq<string>) returns (r: Result<seq<Transfer>>)
    modifies env
    ensures var att := RunAll(env.o, old(env.trace), TransferActs(false, dest, files));
            && env.trace == old(env.trace) + att.issued
            && (att.ok ==> r == Ok(Transfers(dest, files)))
            && (!att.ok ==> r == Err(Failed(att.issued[|att.issued| - 1])))
  {
    ghost var h0 := env.trace;
    ghost var acts := TransferActs(false, dest, files);
    ghost var records := Transfers(dest, files);
    var results: seq<Transfer> := [];
    var i := 0;
    assert acts[..0] == [];
    while i < |files|
      invariant 0 <= i <= |files|
      invariant env.trace == h0 + acts[..i]
      invariant AllSucceed(env.o, h0, acts[..i])
      invariant results == records[..i]
    {
      var file := files[i];
      var target := Target(dest, file);
      TransferActsAt(false, dest, files, i);
      var ok := env.Perform(CopyPath(file, target));
      assert acts[..i + 1] == acts[..i] + [CopyPath(file, target)];
      if !ok {
        RunAllFailsAt(env.o, h0, acts, i);
        r := Err(Failed(CopyPath(file, target)));
        return;
      }
      AllSucceedSnoc(env.o, h0, acts, i);
      TransfersAt(dest, files, i);
      results := results + [Transfer(file, target)];
      i := i + 1;
    }
    assert acts[..i] == acts && records[..i] == records;
    RunAllCompletes(env.o, h0, acts);
    r := Ok(results);
  }

  /** `move(dest, ...files)`: the same loop with `fs.move`. */
  method Move(env: Env, dest: string, files: seq<string>) returns (r: Result<seq<Transfer>>)
    modifies env
    ensures var att := RunAll(env.o, old(env.trace), TransferActs(true, dest, files));
            && env.trace == old(env.trace) + att.issued
            && (att.ok ==> r == Ok(Transfers(dest, files)))
            && (!att.ok ==> r == Err(Failed(att.issued[|att.issued| - 1])))
  {
    ghost var h0 := env.trace;
    ghost var acts := TransferActs(true, dest, files);
    ghost var records := Transfers(dest, files);
    var results: seq<Transfer> := [];
    var i := 0;
    assert acts[..0] == [];
    while i < |files|
      invariant 0 <= i <= |files|
      invariant env.trace == h0 + acts[..i]
      invariant AllSucceed(env.o, h0, acts[..i])
      invariant results == records[..i]
    {
      var file := files[i];
      var target := Target(dest, file);
      TransferActsAt(true, dest, files, i);
      var ok := env.Perform(MovePath(file, target));
      assert acts[..i + 1] == acts[..i] + [MovePath(file, target)];
      if !ok {
        RunAllFailsAt(env.o, h0, acts, i);
        r := Err(Failed(MovePath(file, target)));
        return;
      }
      AllSucceedSnoc(env.o, h0, acts, i);
      TransfersAt(dest, files, i);
      results := results + [Transfer(file, target)];
      i := i + 1;
    }
    assert acts[..i] == acts && records[..i] == records;
    RunAllCompletes(env.o, h0, acts);
    r := Ok(results);
  }

  /** `remove(...files)`. */
  method Remove(env: Env, files: seq<string>) returns (r: Result<seq<Removal>>)
    modifies env
    ensures var att := RunAll(env.o, old(env.trace), RemoveActs(files));
            && env.trace == old(env.trace) + att.issued
            && (att.ok ==> r == Ok(Removals(files)))
            && (!att.ok ==> r == Err(Failed(att.issued[|att.issued| - 1])))
  {
    ghost var h0 := env.trace;
    ghost var acts := RemoveActs(files);
    ghost var records := Removals(files);
    var results: seq<Removal> := [];
    var i := 0;
    assert acts[..0] == [];
    while i < |files|
      invariant 0 <= i <= |files|
      invariant env.trace == h0 + acts[..i]
      invariant AllSucceed(env.o, h0, acts[..i])
      invariant results == records[..i]
    {
      var file := files[i];
      RemoveActsAt(files, i);
      var ok := env.Perform(RemovePath(file));
      assert acts[..i + 1] == acts[..i] + [RemovePath(file)];
      if !ok {
        RunAllFailsAt(env.o, h0, acts, i);
        r := Err(Failed(RemovePath(file)));
        return;
      }
      AllSucceedSnoc(env.o, h0, acts, i);
      RemovalsAt(files, i);
      results := results + [Removal(file, true)];
      i := i + 1;
    }
    assert acts[..i] == acts && records[..i] == records;
    RunAllCompletes(env.o, h0, acts);
    r := Ok(results);
  }

  /** `exec(cmd, cwd)`: one command; a failure propagates. */
  method Exec(env: Env, cmd: string, cwd: string) returns (r: Outcome)
    modifies env
    ensures env.trace == old(env.trace) + [Domain.Exec(cmd, cwd)]
    ensures r == if env.o.succeeds(old(env.trace), Domain.Exec(cmd, cwd)) then Pass else Fail(Failed(Domain.Exec(cmd, cwd)))
  {
    var ok := env.Perform(Domain.Exec(cmd, cwd));
    r := if ok then Pass else Fail(Failed(Domain.Exec(cmd, cwd)));
  }
}
