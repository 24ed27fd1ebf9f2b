/** The environment a run talks to. Every prompt, warning, shell command,
    file operation and template-logic call is an action appended to a trace;
    whether an action succeeds, what the user answers and what the disk holds
    are oracles that may depend on everything issued so far. */
module Effects {
  import opened Domain

  /** Everything outside the program, as functions of the history of actions. */
  datatype Oracles = Oracles(
    succeeds: (seq<Action>, Action) -> bool,          // the action completes without throwing
    confirm: (seq<Action>, Prompt) -> bool,           // answer to a `confirm` prompt
    number: (seq<Action>, Prompt) -> int,             // answer to a `number` prompt
    text: (seq<Action>, Prompt) -> string,            // answer to an `input` or `select` prompt
    pathExists: (seq<Action>, string) -> bool,        // `fs.existsSync`
    load: (seq<Action>, string) -> Entry,             // `(await import(path)).default`
    readDir: (seq<Action>, string) -> Option<seq<DirEntry>>,     // `readdir`, None when it rejects
    readManifest: (seq<Action>, string) -> Option<Manifest>)    // read and parse, None when either throws

  /** The value a prompt resolves with; its type is the prompt's. */
  function Answer(o: Oracles, h: seq<Action>, p: Prompt): (v: Value)
    ensures p.kind.Confirm? <==> v.VBool?
    ensures p.kind.Number? <==> v.VNum?
    ensures p.kind.Input? || p.kind.Select? <==> v.VStr?
  {
    match p.kind
    case Confirm => VBool(o.confirm(h, p))
    case Number => VNum(o.number(h, p))
    case Input => VStr(o.text(h, p))
    case Select(_) => VStr(o.text(h, p))
  }

  /** What the prompt library guarantees about a text answer: a selection
      over offered values resolves with one of them, and an input whose
      validator rejects the empty string never resolves with it. */
  predicate Accepted(p: Prompt, s: string) {
    if p.kind.Select? && p.kind.choices != [] then s in p.kind.choices
    else p.nonEmpty ==> s != []
  }

  /** The prompt library keeps its promises on every prompt. */
  ghost predicate Sound(o: Oracles) {
    forall h: seq<Action>, p: Prompt :: Accepted(p, o.text(h, p))
  }

  /** `Sound` can be met: a user who always picks the first offered value
      and otherwise types `x` is one such oracle. */
  lemma SoundSatisfiable()
    ensures exists o: Oracles :: Sound(o)
  {
    var o := Oracles(
      (h: seq<Action>, a: Action) => true,
      (h: seq<Action>, p: Prompt) => false,
      (h: seq<Action>, p: Prompt) => 0,
      (h: seq<Action>, p: Prompt) => if p.kind.Select? && p.kind.choices != [] then p.kind.choices[0] else "x",
      (h: seq<Action>, path: string) => false,
      (h: seq<Action>, path: string) => NotCallable,
      (h: seq<Action>, path: string) => None,
      (h: seq<Action>, path: string) => None);
    forall h: seq<Action>, p: Prompt ensures Accepted(p, o.text(h, p)) {
      if p.kind.Select? && p.kind.choices != [] {
        assert o.text(h, p) == p.kind.choices[0];
      }
    }
    assert Sound(o);
  }

  /** The world as the program sees it: a fixed set of oracles and the trace so far. */
  class Env {
    var trace: seq<Action>
    const o: Oracles

    constructor (o: Oracles)
      ensures this.o == o && trace == []
    {
      this.o := o;
      trace := [];
    }

    /** Issue an external action; `ok` is false when it throws. */
    method Perform(a: Action) returns (ok: bool)
      modifies this
      ensures trace == old(trace) + [a]
      ensures ok == o.succeeds(old(trace), a)
    {
      ok := o.succeeds(trace, a);
      trace := trace + [a];
    }

    /** Show a prompt and wait for its answer. */
    method Ask(p: Prompt) returns (v: Value)
      modifies this
      ensures trace == old(trace) + [Asked(p)]
      ensures v == Answer(o, old(trace), p)
    {
      v := Answer(o, trace, p);
      trace := trace + [Asked(p)];
    }

    /** `console.warn` about an option key. */
    method Warn(key: string)
      modifies this
      ensures trace == old(trace) + [Warned(key)]
    {
      trace := trace + [Warned(key)];
    }
  }

  /** Issuing a list of actions one after another, stopping at the first that fails. */
  datatype Attempt = Attempt(issued: seq<Action>, ok: bool)

  function RunAll(o: Oracles, h: seq<Action>, acts: seq<Action>): Attempt
    decreases |acts|
  {
    if acts == [] then Attempt([], true)
    else if !o.succeeds(h, acts[0]) then Attempt([acts[0]], false)
    else
      var rest := RunAll(o, h + [acts[0]], acts[1..]);
      Attempt([acts[0]] + rest.issued, rest.ok)
  }

  /** Every action succeeds when issued after the ones before it. */
  ghost predicate AllSucceed(o: Oracles, h: seq<Action>, acts: seq<Action>) {
    forall i :: 0 <= i < |acts| ==> o.succeeds(h + acts[..i], acts[i])
  }

  /** `acts[k]` is the first action that fails. */
  ghost predicate FailsAt(o: Oracles, h: seq<Action>, acts: seq<Action>, k: int) {
    0 <= k < |acts| && AllSucceed(o, h, acts[..k]) && !o.succeeds(h + acts[..k], acts[k])
  }

  lemma AllSucceedCons(o: Oracles, h: seq<Action>, acts: seq<Action>)
    requires acts != []
    ensures AllSucceed(o, h, acts) <==> o.succeeds(h, acts[0]) && AllSucceed(o, h + [acts[0]], acts[1..])
  {
    var rest := acts[1..];
    assert h + acts[..0] == h;
    forall i | 0 <= i < |rest|
      ensures h + acts[..i + 1] == (h + [acts[0]]) + rest[..i] && acts[i + 1] == rest[i]
    {
      assert acts[..i + 1] == [acts[0]] + rest[..i];
    }
    if o.succeeds(h, acts[0]) && AllSucceed(o, h + [acts[0]], rest) {
      forall i | 0 <= i < |acts| ensures o.succeeds(h + acts[..i], acts[i]) {
        if i > 0 {
          assert o.succeeds((h + [acts[0]]) + rest[..i - 1], rest[i - 1]);
        }
      }
    }
    if AllSucceed(o, h, acts) {
      forall i | 0 <= i < |rest| ensures o.succeeds((h + [acts[0]]) + rest[..i], rest[i]) {
        assert o.succeeds(h + acts[..i + 1], acts[i + 1]);
      }
    }
  }

  /** A first failure at `k` after a successful first action is a first
      failure at `k + 1` of the whole sequence. */
  lemma FailsAtCons(o: Oracles, h: seq<Action>, acts: seq<Action>, k: nat)
    requires acts != [] && o.succeeds(h, acts[0])
    requires FailsAt(o, h + [acts[0]], acts[1..], k)
    ensures FailsAt(o, h, acts, k + 1)
    ensures acts[..k + 2] == [acts[0]] + acts[1..][..k + 1]
  {
    var rest := acts[1..];
    var pre := acts[..k + 1];
    assert pre[0] == acts[0] && pre[1..] == rest[..k];
    AllSucceedCons(o, h, pre);
    assert h + acts[..k + 1] == (h + [acts[0]]) + rest[..k];
    assert acts[k + 1] == rest[k];
    assert acts[..k + 2] == [acts[0]] + rest[..k + 1];
  }

  /** `RunAll` issues the actions in order up to and including the first
      failure and nothing after it; it reports success exactly when every
      action succeeded, and then it has issued all of them. */
  lemma {:induction false} RunAllSpec(o: Oracles, h: seq<Action>, acts: seq<Action>)
    ensures RunAll(o, h, acts).ok == AllSucceed(o, h, acts)
    ensures RunAll(o, h, acts).ok ==> RunAll(o, h, acts).issued == acts
    ensures !RunAll(o, h, acts).ok ==>
              var k := |RunAll(o, h, acts).issued| - 1;
              FailsAt(o, h, acts, k) && RunAll(o, h, acts).issued == acts[..k + 1]
    decreases |acts|
  {
    if acts == [] {
    } else if !o.succeeds(h, acts[0]) {
      assert h + acts[..0] == h;
      assert acts[..1] == [acts[0]];
      AllSucceedCons(o, h, acts);
    } else {
      var rest := acts[1..];
      RunAllSpec(o, h + [acts[0]], rest);
      AllSucceedCons(o, h, acts);
      var r := RunAll(o, h + [acts[0]], rest);
      assert RunAll(o, h, acts) == Attempt([acts[0]] + r.issued, r.ok);
      if r.ok {
        assert acts == [acts[0]] + rest;
      } else {
        FailsAtCons(o, h, acts, |r.issued| - 1);
      }
    }
  }

  /** Composition of best-effort-free steps: the second runs only if the first passed. */
  function Then(first: Run, next: Run): Run {
    if first.outcome.Fail? then first else Run(first.acts + next.acts, next.outcome)
  }

  /** An attempt as a step: a failure is reported as the failing action. */
  function Finish(att: Attempt): Run {
    if att.ok || att.issued == [] then Run(att.issued, Pass)
    else Run(att.issued, Fail(Failed(att.issued[|att.issued| - 1])))
  }

  /** A step that failed because an action failed stopped right at that action. */
  ghost predicate StopsAtFailure(o: Oracles, h: seq<Action>, r: Run) {
    r.outcome.Fail? && r.outcome.error.Failed? ==>
      && r.acts != []
      && r.outcome.error.action == r.acts[|r.acts| - 1]
      && !o.succeeds(h + r.acts[..|r.acts| - 1], r.acts[|r.acts| - 1])
  }

  lemma ThenStopsAtFailure(o: Oracles, h: seq<Action>, first: Run, next: Run)
    requires StopsAtFailure(o, h, first)
    requires StopsAtFailure(o, h + first.acts, next)
    ensures StopsAtFailure(o, h, Then(first, next))
  {
    if first.outcome.Pass? && next.outcome.Fail? && next.outcome.error.Failed? {
      var a := first.acts + next.acts;
      assert a[..|a| - 1] == first.acts + next.acts[..|next.acts| - 1];
      assert h + a[..|a| - 1] == (h + first.acts) + next.acts[..|next.acts| - 1];
    }
  }

  /** A run of actions that fails stops at the action that failed. */
  lemma RunAllStopsAtFailure(o: Oracles, h: seq<Action>, acts: seq<Action>)
    ensures StopsAtFailure(o, h, Finish(RunAll(o, h, acts)))
  {
    RunAllSpec(o, h, acts);
    var r := RunAll(o, h, acts);
    if !r.ok {
      var k := |r.issued| - 1;
      assert r.issued[..k] == acts[..k] && r.issued[k] == acts[k];
    }
  }

  /** The same world, except that `a` issued right after history `at` has outcome `b`. */
  function WithOutcome(o: Oracles, at: seq<Action>, a: Action, b: bool): Oracles {
    o.(succeeds := (h: seq<Action>, x: Action) => if h == at && x == a then b else o.succeeds(h, x))
  }

  /** Changing an outcome in the past does not change what a later run of actions does. */
  lemma {:induction false} RunAllIgnoresEarlier(o: Oracles, at: seq<Action>, a: Action, b: bool, h: seq<Action>, acts: seq<Action>)
    requires |at| < |h|
    ensures RunAll(WithOutcome(o, at, a, b), h, acts) == RunAll(o, h, acts)
    decreases |acts|
  {
    if acts != [] {
      assert WithOutcome(o, at, a, b).succeeds(h, acts[0]) == o.succeeds(h, acts[0]);
      RunAllIgnoresEarlier(o, at, a, b, h + [acts[0]], acts[1..]);
    }
  }

  /** When `acts[k]` is the first action to fail, `RunAll` issues exactly
      `acts[..k + 1]` and reports failure. */
  lemma {:induction false} RunAllFailsAt(o: Oracles, h: seq<Action>, acts: seq<Action>, k: nat)
    requires FailsAt(o, h, acts, k)
    ensures RunAll(o, h, acts) == Attempt(acts[..k + 1], false)
    decreases k
  {
    if k == 0 {
      assert h + acts[..0] == h;
      assert acts[..1] == [acts[0]];
    } else {
      var pre := acts[..k];
      assert pre[0] == acts[0] && pre[1..] == acts[1..][..k - 1];
      AllSucceedCons(o, h, pre);
      assert h + acts[..k] == (h + [acts[0]]) + acts[1..][..k - 1];
      assert acts[1..][k - 1] == acts[k];
      RunAllFailsAt(o, h + [acts[0]], acts[1..], k - 1);
      assert acts[..k + 1] == [acts[0]] + acts[1..][..k];
    }
  }

  /** A prefix that succeeded, extended by one more action that succeeds. */
  lemma AllSucceedSnoc(o: Oracles, h: seq<Action>, acts: seq<Action>, i: nat)
    requires i < |acts| && AllSucceed(o, h, acts[..i]) && o.succeeds(h + acts[..i], acts[i])
    ensures AllSucceed(o, h, acts[..i + 1])
  {
    var p := acts[..i + 1];
    forall j | 0 <= j < |p| ensures o.succeeds(h + p[..j], p[j]) {
      if j < i {
        assert p[..j] == acts[..i][..j];
      } else {
        assert p[..j] == acts[..i];
      }
    }
  }

  /** When every action succeeds, `RunAll` issues all of them and reports success. */
  lemma RunAllCompletes(o: Oracles, h: seq<Action>, acts: seq<Action>)
    requires AllSucceed(o, h, acts)
    ensures RunAll(o, h, acts) == Attempt(acts, true)
  {
    RunAllSpec(o, h, acts);
  }

  /** `a + b + c` regrouped, proved apart from any large context: a
      caller that needs the regrouping inside a big proof calls this
      instead of leaving it to the solver there. */
  lemma Regroup<T>(a: seq<T>, b: seq<T>, c: seq<T>)
    ensures a + b + c == a + (b + c)
  {
  }
}
