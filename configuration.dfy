/** The configuration collector: the project-name and template prompts, the
    walk over a template's option schema, and the git-init question. */
module Configuration {
  import opened Domain
  import opened Effects
  import opened Catalog

  /** The project-name prompt; its validator rejects the empty string. */
  const NamePrompt: Prompt := Prompt(Input, "What should the project be called?", None, true)

  /** The git question; its default answer is yes. */
  const GitPrompt: Prompt := Prompt(Confirm, "Initialize a git repository?", Some(VBool(true)), false)

  const ChooseMessage: string := "Which template do you want to use?"

  /** The template selection: one choice per template, valued by its id. */
  function TemplatePrompt(message: string, templates: seq<Template>): Prompt {
    Prompt(Select(Ids(templates)), message, None, false)
  }

  /** The prompt function an option type dispatches to; None for any other type. */
  function KindOf(typeName: Option<string>): Option<PromptKind> {
    if typeName == Some("boolean") then Some(Confirm)
    else if typeName == Some("number") then Some(Number)
    else if typeName == Some("string") then Some(Input)
    else None
  }

  /** `opt.description || key`: an absent or empty description falls back to the key. */
  function Message(key: string, opt: OptionSpec): string {
    if opt.description.Some? && opt.description.value != [] then opt.description.value else key
  }

  function OptionPrompt(kind: PromptKind, key: string, opt: OptionSpec): Prompt {
    Prompt(kind, Message(key, opt), opt.default, false)
  }

  /** What visiting one option issues: its prompt, or a warning for an unknown type. */
  function Visit(key: string, opt: OptionSpec): Action {
    match KindOf(opt.typeName)
    case Some(kind) => Asked(OptionPrompt(kind, key, opt))
    case None => Warned(key)
  }

  function KeyList(c: Config): seq<string> {
    if c == [] then [] else [c[0].0] + KeyList(c[1..])
  }

  function Lookup(c: Config, k: string): Option<Value> {
    if c == [] then None else if c[0].0 == k then Some(c[0].1) else Lookup(c[1..], k)
  }

  /** `options[key] = value`: an existing key keeps its place and takes the
      new value; a new key goes last. */
  function Put(c: Config, k: string, v: Value): Config {
    if c == [] then [(k, v)]
    else if c[0].0 == k then [(k, v)] + c[1..]
    else [c[0]] + Put(c[1..], k, v)
  }

  lemma {:induction false} PutKeys(c: Config, k: string, v: Value)
    ensures KeyList(Put(c, k, v)) == if k in KeyList(c) then KeyList(c) else KeyList(c) + [k]
    decreases |c|
  {
    if c != [] && c[0].0 != k {
      PutKeys(c[1..], k, v);
      assert [c[0]] + Put(c[1..], k, v) == Put(c, k, v);
      assert ([c[0]] + Put(c[1..], k, v))[1..] == Put(c[1..], k, v);
    } else if c != [] {
      assert ([(k, v)] + c[1..])[1..] == c[1..];
    }
  }

  lemma {:induction false} PutLookup(c: Config, k: string, v: Value, k': string)
    ensures Lookup(Put(c, k, v), k') == if k' == k then Some(v) else Lookup(c, k')
    decreases |c|
  {
    if c != [] && c[0].0 != k {
      PutLookup(c[1..], k, v, k');
      assert ([c[0]] + Put(c[1..], k, v))[1..] == Put(c[1..], k, v);
    } else if c != [] {
      assert ([(k, v)] + c[1..])[1..] == c[1..];
    }
  }

  function SchemaKeys(schema: Schema): seq<string> {
    if schema == [] then [] else [schema[0].0] + SchemaKeys(schema[1..])
  }

  /** The keys of the options whose type has a prompt, in declaration order. */
  function RecognizedKeys(schema: Schema): seq<string> {
    if schema == [] then []
    else (if KindOf(schema[0].1.typeName).Some? then [schema[0].0] else []) + RecognizedKeys(schema[1..])
  }

  datatype Walked = Walked(acts: seq<Action>, config: Config)

  /** The object after visiting one option: a recognised option stores the
      answer to its prompt under its key; any other leaves it unchanged. */
  function Store(o: Oracles, h: seq<Action>, key: string, opt: OptionSpec, acc: Config): Config {
    match KindOf(opt.typeName)
    case Some(kind) => Put(acc, key, Answer(o, h, OptionPrompt(kind, key, opt)))
    case None => acc
  }

  /** The option loop: each entry in order either prompts and stores the
      answer under its key, or warns and contributes nothing; `acc` is the
      object built so far. */
  function Walk(o: Oracles, h: seq<Action>, schema: Schema, acc: Config): Walked
    decreases |schema|
  {
    if schema == [] then Walked([], acc)
    else
      var a := Visit(schema[0].0, schema[0].1);
      var rest := Walk(o, h + [a], schema[1..], Store(o, h, schema[0].0, schema[0].1, acc));
      Walked([a] + rest.acts, rest.config)
  }

  /** Every option is visited, in declaration order, whatever the answers:
      an unknown type produces its warning and the walk goes on. */
  lemma {:induction false} WalkVisitsInOrder(o: Oracles, h: seq<Action>, schema: Schema, acc: Config)
    ensures |Walk(o, h, schema, acc).acts| == |schema|
    ensures forall i :: 0 <= i < |schema| ==> Walk(o, h, schema, acc).acts[i] == Visit(schema[i].0, schema[i].1)
    decreases |schema|
  {
    if schema != [] {
      var (key, opt) := schema[0];
      WalkVisitsInOrder(o, h + [Visit(key, opt)], schema[1..], Store(o, h, key, opt, acc));
    }
  }

  /** The result has a key exactly for the keys already present and the
      options whose type is `boolean`, `number` or `string`. */
  lemma {:induction false} WalkKeys(o: Oracles, h: seq<Action>, schema: Schema, acc: Config, k: string)
    ensures k in KeyList(Walk(o, h, schema, acc).config) <==> k in KeyList(acc) || k in RecognizedKeys(schema)
    decreases |schema|
  {
    if schema != [] {
      var (key, opt) := schema[0];
      WalkKeys(o, h + [Visit(key, opt)], schema[1..], Store(o, h, key, opt, acc), k);
      if KindOf(opt.typeName).Some? {
        PutKeys(acc, key, Answer(o, h, OptionPrompt(KindOf(opt.typeName).value, key, opt)));
      }
    }
  }

  /** Distinct keys: the first is not repeated and the rest are distinct. */
  lemma SchemaKeysDistinctTail(schema: Schema)
    requires schema != [] && Distinct(SchemaKeys(schema))
    ensures Distinct(SchemaKeys(schema[1..]))
    ensures schema[0].0 !in SchemaKeys(schema[1..])
    ensures forall k :: k in SchemaKeys(schema[1..]) ==> k in SchemaKeys(schema)
  {
    var keys := SchemaKeys(schema);
    var tail := SchemaKeys(schema[1..]);
    assert keys == [schema[0].0] + tail;
    forall i, j | 0 <= i < j < |tail| ensures tail[i] != tail[j] {
      assert keys[i + 1] != keys[j + 1];
    }
    forall j | 0 <= j < |tail| ensures tail[j] != schema[0].0 {
      assert keys[j + 1] != keys[0];
    }
  }

  /** Storing under a key not yet present appends it exactly when the
      option is recognised. */
  lemma StoreKeys(o: Oracles, h: seq<Action>, key: string, opt: OptionSpec, acc: Config)
    requires key !in KeyList(acc)
    ensures KeyList(Store(o, h, key, opt, acc)) == KeyList(acc) + (if KindOf(opt.typeName).Some? then [key] else [])
  {
    if KindOf(opt.typeName).Some? {
      PutKeys(acc, key, Answer(o, h, OptionPrompt(KindOf(opt.typeName).value, key, opt)));
    } else {
      assert KeyList(acc) + [] == KeyList(acc);
    }
  }

  /** Starting from an object without any of the schema's keys, the keys come
      out in declaration order after the ones already there. */
  lemma {:induction false} WalkKeyOrder(o: Oracles, h: seq<Action>, schema: Schema, acc: Config)
    requires Distinct(SchemaKeys(schema))
    requires forall k :: k in SchemaKeys(schema) ==> k !in KeyList(acc)
    ensures KeyList(Walk(o, h, schema, acc).config) == KeyList(acc) + RecognizedKeys(schema)
    decreases |schema|
  {
    if schema == [] {
      assert KeyList(acc) + [] == KeyList(acc);
    } else {
      var key := schema[0].0;
      var opt := schema[0].1;
      SchemaKeysDistinctTail(schema);
      var acc' := Store(o, h, key, opt, acc);
      var mine: seq<string> := if KindOf(opt.typeName).Some? then [key] else [];
      assert key in SchemaKeys(schema);
      StoreKeys(o, h, key, opt, acc);
      forall k | k in SchemaKeys(schema[1..]) ensures k !in KeyList(acc') {
        assert k in SchemaKeys(schema) && k != key;
      }
      WalkUnfold(o, h, schema, acc);
      WalkKeyOrder(o, h + [Visit(key, opt)], schema[1..], acc');
      assert RecognizedKeys(schema) == mine + RecognizedKeys(schema[1..]);
      Regroup(KeyList(acc), mine, RecognizedKeys(schema[1..]));
    }
  }

  /** A key the remaining options do not mention keeps its value. */
  lemma {:induction false} WalkKeepsOtherKeys(o: Oracles, h: seq<Action>, schema: Schema, acc: Config, k: string)
    requires k !in SchemaKeys(schema)
    ensures Lookup(Walk(o, h, schema, acc).config, k) == Lookup(acc, k)
    decreases |schema|
  {
    if schema != [] {
      var (key, opt) := schema[0];
      WalkKeepsOtherKeys(o, h + [Visit(key, opt)], schema[1..], Store(o, h, key, opt, acc), k);
      if KindOf(opt.typeName).Some? {
        PutLookup(acc, key, Answer(o, h, OptionPrompt(KindOf(opt.typeName).value, key, opt)), k);
      }
    }
  }

  /** The first step of a non-empty walk. */
  lemma WalkUnfold(o: Oracles, h: seq<Action>, schema: Schema, acc: Config)
    requires schema != []
    ensures var a := Visit(schema[0].0, schema[0].1);
            var rest := Walk(o, h + [a], schema[1..], Store(o, h, schema[0].0, schema[0].1, acc));
            && Walk(o, h, schema, acc).acts == [a] + rest.acts
            && Walk(o, h, schema, acc).config == rest.config
  {
  }

  /** The first option's value survives the rest of the walk when its key is not repeated. */
  lemma WalkValueHead(o: Oracles, h: seq<Action>, schema: Schema, acc: Config)
    requires schema != [] && schema[0].0 !in SchemaKeys(schema[1..])
    requires KindOf(schema[0].1.typeName).Some?
    ensures Lookup(Walk(o, h, schema, acc).config, schema[0].0)
            == Some(Answer(o, h, OptionPrompt(KindOf(schema[0].1.typeName).value, schema[0].0, schema[0].1)))
  {
    var key := schema[0].0;
    var opt := schema[0].1;
    var acc' := Store(o, h, key, opt, acc);
    WalkUnfold(o, h, schema, acc);
    WalkKeepsOtherKeys(o, h + [Visit(key, opt)], schema[1..], acc', key);
    PutLookup(acc, key, Answer(o, h, OptionPrompt(KindOf(opt.typeName).value, key, opt)), key);
  }

  /** The walk issues one action per option. */
  lemma {:induction false} WalkLength(o: Oracles, h: seq<Action>, schema: Schema, acc: Config)
    ensures |Walk(o, h, schema, acc).acts| == |schema|
    decreases |schema|
  {
    if schema != [] {
      WalkLength(o, h + [Visit(schema[0].0, schema[0].1)], schema[1..], Store(o, h, schema[0].0, schema[0].1, acc));
    }
  }

  /** With distinct keys, a recognised option's value is the answer to its
      own prompt, asked after the options declared before it. */
  lemma {:induction false} WalkValues(o: Oracles, h: seq<Action>, schema: Schema, acc: Config, i: nat)
    requires Distinct(SchemaKeys(schema))
    requires i < |schema| && KindOf(schema[i].1.typeName).Some?
    ensures |Walk(o, h, schema, acc).acts| == |schema|
    ensures Lookup(Walk(o, h, schema, acc).config, schema[i].0)
            == Some(Answer(o, h + Walk(o, h, schema, acc).acts[..i],
                           OptionPrompt(KindOf(schema[i].1.typeName).value, schema[i].0, schema[i].1)))
    decreases |schema|
  {
    WalkLength(o, h, schema, acc);
    SchemaKeysDistinctTail(schema);
    var w := Walk(o, h, schema, acc);
    if i == 0 {
      WalkValueHead(o, h, schema, acc);
      assert h + w.acts[..0] == h;
    } else {
      var a := Visit(schema[0].0, schema[0].1);
      var acc' := Store(o, h, schema[0].0, schema[0].1, acc);
      var rest := Walk(o, h + [a], schema[1..], acc');
      WalkUnfold(o, h, schema, acc);
      assert schema[1..][i - 1] == schema[i];
      WalkValues(o, h + [a], schema[1..], acc', i - 1);
      assert w.acts[..i] == [a] + rest.acts[..i - 1];
      Regroup(h, [a], rest.acts[..i - 1]);
    }
  }

  /** One step of the walk from position `i`, after the actions `done`: the
      remaining walk is the visit of option `i` followed by the walk from `i + 1`. */
  lemma WalkAdvance(o: Oracles, h: seq<Action>, done: seq<Action>, schema: Schema, i: nat, acc: Config)
    requires i < |schema|
    ensures var a := Visit(schema[i].0, schema[i].1);
            var acc' := Store(o, h + done, schema[i].0, schema[i].1, acc);
            && done + Walk(o, h + done, schema[i..], acc).acts
               == (done + [a]) + Walk(o, h + (done + [a]), schema[i + 1..], acc').acts
            && Walk(o, h + done, schema[i..], acc).config
               == Walk(o, h + (done + [a]), schema[i + 1..], acc').config
  {
    assert schema[i..][0] == schema[i];
    assert schema[i..][1..] == schema[i + 1..];
    var a := Visit(schema[i].0, schema[i].1);
    assert (h + done) + [a] == h + (done + [a]);
  }

  /** The option loop as the program runs it, building `options` in place. */
  method CollectOptions(env: Env, schema: Schema) returns (config: Config)
    modifies env
    ensures env.trace == old(env.trace) + Walk(env.o, old(env.trace), schema, []).acts
    ensures config == Walk(env.o, old(env.trace), schema, []).config
  {
    ghost var h0 := env.trace;
    ghost var o := env.o;
    ghost var whole := Walk(o, h0, schema, []);
    ghost var done: seq<Action> := [];
    config := [];
    var i := 0;
    assert schema[0..] == schema;
    while i < |schema|
      invariant 0 <= i <= |schema|
      invariant env.trace == h0 + done
      invariant whole.acts == done + Walk(o, h0 + done, schema[i..], config).acts
      invariant whole.config == Walk(o, h0 + done, schema[i..], config).config
    {
      WalkAdvance(o, h0, done, schema, i, config);
      var key := schema[i].0;
      var opt := schema[i].1;
      var kind := KindOf(opt.typeName);
      if kind.None? {
        env.Warn(key);
        Regroup(h0, done, [Warned(key)]);
        done := done + [Warned(key)];
        i := i + 1;
        continue;
      }
      var value := env.Ask(OptionPrompt(kind.value, key, opt));
      Regroup(h0, done, [Asked(OptionPrompt(kind.value, key, opt))]);
      done := done + [Asked(OptionPrompt(kind.value, key, opt))];
      config := Put(config, key, value);
      i := i + 1;
    }
  }

  /** What `collect` returns. */
  datatype Answers = Answers(projectName: string, chosenTemplate: Template, configOptions: Config)

  datatype Collection = Collection(acts: seq<Action>, result: Result<Answers>)

  /** `collect`: the name, then the template, then that template's options
      (`template.options || {}`); an id that matches no template leaves the
      template undefined, and reading its options throws. */
  function CollectRun(o: Oracles, h: seq<Action>, templates: seq<Template>): Collection {
    var name := o.text(h, NamePrompt);
    var h1 := h + [Asked(NamePrompt)];
    var select := TemplatePrompt(ChooseMessage, templates);
    var id := o.text(h1, select);
    var h2 := h1 + [Asked(select)];
    match FindById(templates, id)
    case None => Collection([Asked(NamePrompt), Asked(select)], Err(NoTemplate))
    case Some(t) =>
      var w := Walk(o, h2, t.options.GetOr([]), []);
      Collection([Asked(NamePrompt), Asked(select)] + w.acts, Ok(Answers(name, t, w.config)))
  }

  /** `CollectRun` unfolded after its two prompts, as a proof step for `Collect`. */
  lemma CollectRunUnfold(o: Oracles, h: seq<Action>, templates: seq<Template>)
    ensures var select := TemplatePrompt(ChooseMessage, templates);
            var h2 := h + [Asked(NamePrompt), Asked(select)];
            var c := CollectRun(o, h, templates);
            var t := FindById(templates, o.text(h + [Asked(NamePrompt)], select));
            && (t.None? ==> c.acts == [Asked(NamePrompt), Asked(select)] && c.result == Err(NoTemplate))
            && (t.Some? ==>
                  var w := Walk(o, h2, t.value.options.GetOr([]), []);
                  c.acts == [Asked(NamePrompt), Asked(select)] + w.acts
                  && c.result == Ok(Answers(o.text(h, NamePrompt), t.value, w.config)))
  {
    var select := TemplatePrompt(ChooseMessage, templates);
    assert h + [Asked(NamePrompt)] + [Asked(select)] == h + [Asked(NamePrompt), Asked(select)];
  }

  /** What `collect` gives, in terms of the catalog alone: it rejects exactly
      when the selected id is not offered by any template; otherwise the
      answers carry the typed name and the first template with that id, and
      with distinct option keys the options object has a key for exactly the
      recognised options, in declaration order. The two prompts always come
      first. */
  lemma CollectOutcome(o: Oracles, h: seq<Action>, templates: seq<Template>)
    ensures var c := CollectRun(o, h, templates);
            var select := TemplatePrompt(ChooseMessage, templates);
            var id := o.text(h + [Asked(NamePrompt)], select);
            && |c.acts| >= 2 && c.acts[..2] == [Asked(NamePrompt), Asked(select)]
            && (c.result.Err? <==> id !in Ids(templates))
            && (c.result.Err? ==> c.result.error == NoTemplate)
            && (c.result.Ok? ==>
                  && c.result.value.projectName == o.text(h, NamePrompt)
                  && c.result.value.chosenTemplate == templates[FirstIndex(templates, id)]
                  && c.result.value.chosenTemplate.id == id)
            && (c.result.Ok? && Distinct(SchemaKeys(c.result.value.chosenTemplate.options.GetOr([]))) ==>
                  KeyList(c.result.value.configOptions) == RecognizedKeys(c.result.value.chosenTemplate.options.GetOr([])))
  {
    var select := TemplatePrompt(ChooseMessage, templates);
    var h2 := h + [Asked(NamePrompt), Asked(select)];
    var id := o.text(h + [Asked(NamePrompt)], select);
    var c := CollectRun(o, h, templates);
    CollectRunUnfold(o, h, templates);
    var ids := Ids(templates);
    var t := FindById(templates, id);
    if t.None? {
      forall j | 0 <= j < |ids| ensures ids[j] != id {
        assert templates[j] in templates;
      }
    } else {
      var k := FirstIndex(templates, id);
      assert ids[k] == id;
      var schema := t.value.options.GetOr([]);
      var w := Walk(o, h2, schema, []);
      assert c.acts[..2] == [Asked(NamePrompt), Asked(select)] by {
        assert c.acts == [Asked(NamePrompt), Asked(select)] + w.acts;
      }
      if Distinct(SchemaKeys(schema)) {
        WalkKeyOrder(o, h2, schema, []);
        assert KeyList([]) + RecognizedKeys(schema) == RecognizedKeys(schema);
      }
    }
  }

  /** With a non-empty catalog and a prompt library that keeps its promises,
      `collect` succeeds with a non-empty name, the first template carrying
      the selected id, and that template's options. */
  lemma CollectSucceeds(o: Oracles, h: seq<Action>, templates: seq<Template>)
    requires Sound(o) && templates != []
    ensures var c := CollectRun(o, h, templates);
            var select := TemplatePrompt(ChooseMessage, templates);
            var id := o.text(h + [Asked(NamePrompt)], select);
            && c.result.Ok?
            && c.result.value.projectName != []
            && c.result.value.chosenTemplate == templates[FirstIndex(templates, id)]
            && c.result.value.chosenTemplate.id == id
            && c.acts[..2] == [Asked(NamePrompt), Asked(select)]
            && c.result.value.configOptions
               == Walk(o, h + [Asked(NamePrompt), Asked(select)], c.result.value.chosenTemplate.options.GetOr([]), []).config
  {
    var select := TemplatePrompt(ChooseMessage, templates);
    var h1 := h + [Asked(NamePrompt)];
    var id := o.text(h1, select);
    assert Accepted(NamePrompt, o.text(h, NamePrompt));
    assert Accepted(select, id);
    assert Ids(templates) != [] by { assert |Ids(templates)| == |templates|; }
    var j :| 0 <= j < |Ids(templates)| && Ids(templates)[j] == id;
    assert templates[j] in templates;
    assert h1 + [Asked(select)] == h + [Asked(NamePrompt), Asked(select)];
  }

  /** The collector object; it reads the catalog of its template manager. */
  class ProjectConfig {
    const templateManager: TemplateManager

    constructor (templateManager: TemplateManager)
      ensures this.templateManager == templateManager
    {
      this.templateManager := templateManager;
    }

    method Collect(env: Env) returns (r: Result<Answers>)
      modifies env
      ensures env.trace == old(env.trace) + CollectRun(env.o, old(env.trace), templateManager.templates).acts
      ensures r == CollectRun(env.o, old(env.trace), templateManager.templates).result
      ensures Sound(env.o) && r.Ok? ==> r.value.projectName != []
    {
      ghost var h0 := env.trace;
      var templates := templateManager.GetTemplates();
      var select := TemplatePrompt(ChooseMessage, templates);
      var name := env.Ask(NamePrompt);
      var id := env.Ask(select);
      var chosenTemplate := templateManager.GetTemplateById(id.s);
      ghost var h2 := env.trace;
      assert h2 == h0 + [Asked(NamePrompt), Asked(select)];
      assert chosenTemplate == FindById(templates, id.s);
      var configOptions := PromptOptions(env, chosenTemplate);
      CollectRunUnfold(env.o, h0, templates);
      if configOptions.Err? {
        r := Err(configOptions.error);
        return;
      }
      ghost var w := Walk(env.o, h2, chosenTemplate.value.options.GetOr([]), []);
      Regroup(h0, [Asked(NamePrompt), Asked(select)], w.acts);
      r := Ok(Answers(name.s, chosenTemplate.value, configOptions.value));
      if Sound(env.o) {
        assert Accepted(NamePrompt, env.o.text(h0, NamePrompt));
      }
    }

    /** `confirmGitInit`: one yes/no prompt whose default is yes. */
    method ConfirmGitInit(env: Env) returns (yes: bool)
      modifies env
      ensures env.trace == old(env.trace) + [Asked(GitPrompt)]
      ensures yes == env.o.confirm(old(env.trace), GitPrompt)
    {
      var v := env.Ask(GitPrompt);
      yes := v.b;
    }

    /** `_promptOptions`: an undefined template throws; a template without
        `options` yields an empty object and issues nothing. */
    method PromptOptions(env: Env, template: Option<Template>) returns (r: Result<Config>)
      modifies env
      ensures template.None? ==> env.trace == old(env.trace) && r == Err(NoTemplate)
      ensures template.Some? ==>
                var w := Walk(env.o, old(env.trace), template.value.options.GetOr([]), []);
                env.trace == old(env.trace) + w.acts && r == Ok(w.config)
    {
      if template.None? {
        r := Err(NoTemplate);
        return;
      }
      var options := CollectOptions(env, template.value.options.GetOr([]));
      r := Ok(options);
    }
  }
}
