/** What the two command-line scripts share before they write anything: the
    catalog under `../templates` next to the script, the name and template
    prompts, and the option walk over the chosen template's `options`. */
module Scripts {
  import opened Domain
  import opened Paths
  import opened Effects
  import opened Catalog
  import opened Configuration

  /** `join(__dirname, "../templates")`. */
  function TemplatesDir(scriptDir: string): string {
    Join(scriptDir, "../templates")
  }

  const ScaffoldMessage: string := "Which template do you want to scaffold?"

  /** The prompts after a catalog was built: the name, the template, then
      the walk over the chosen template's options. An id that matches no
      template, or a template without `options` (`Object.entries` of
      undefined), throws after the two prompts. */
  function Choose(o: Oracles, h: seq<Action>, templates: seq<Template>): Collection {
    var name := o.text(h, NamePrompt);
    var select := TemplatePrompt(ScaffoldMessage, templates);
    var id := o.text(h + [Asked(NamePrompt)], select);
    var asked := [Asked(NamePrompt), Asked(select)];
    match FindById(templates, id)
    case None => Collection(asked, Err(NoTemplate))
    case Some(t) =>
      if t.options.None? then Collection(asked, Err(MissingField("options")))
      else
        var w := Walk(o, h + asked, t.options.value, []);
        Collection(asked + w.acts, Ok(Answers(name, t, w.config)))
  }

  /** The scripts' interactive part: a catalog that cannot be built aborts
      before any prompt. */
  function Prepare(o: Oracles, h: seq<Action>, scriptDir: string): Collection {
    match Load(o, h, TemplatesDir(scriptDir))
    case Err(e) => Collection([], Err(e))
    case Ok(templates) => Choose(o, h, templates)
  }

  /** A catalog error is reported before anything is asked; otherwise the
      name and template prompts come first, a missing template or a missing
      `options` field is an error, and a success carries the first template
      with the selected id. */
  lemma PrepareShape(o: Oracles, h: seq<Action>, scriptDir: string)
    ensures var c := Prepare(o, h, scriptDir);
            var loaded := Load(o, h, TemplatesDir(scriptDir));
            && (loaded.Err? ==> c == Collection([], Err(loaded.error)))
            && (loaded.Ok? ==>
                  var select := TemplatePrompt(ScaffoldMessage, loaded.value);
                  var id := o.text(h + [Asked(NamePrompt)], select);
                  var t := FindById(loaded.value, id);
                  && |c.acts| >= 2 && c.acts[..2] == [Asked(NamePrompt), Asked(select)]
                  && (t.None? ==> c.result == Err(NoTemplate))
                  && (t.Some? && t.value.options.None? ==> c.result == Err(MissingField("options")))
                  && (c.result.Ok? ==>
                        && c.result.value.chosenTemplate == loaded.value[FirstIndex(loaded.value, id)]
                        && c.result.value.chosenTemplate.id == id))
  {
    var loaded := Load(o, h, TemplatesDir(scriptDir));
    if loaded.Ok? {
      var c := Choose(o, h, loaded.value);
      var select := TemplatePrompt(ScaffoldMessage, loaded.value);
      var t := FindById(loaded.value, o.text(h + [Asked(NamePrompt)], select));
      if t.Some? && t.value.options.Some? {
        var w := Walk(o, h + [Asked(NamePrompt), Asked(select)], t.value.options.value, []);
        assert c.acts == [Asked(NamePrompt), Asked(select)] + w.acts;
        assert c.acts[..2] == [Asked(NamePrompt), Asked(select)];
      }
    }
  }

  /** A successful preparation has a key for exactly the recognised options,
      in declaration order. */
  lemma PrepareCollectsRecognized(o: Oracles, h: seq<Action>, scriptDir: string)
    requires Prepare(o, h, scriptDir).result.Ok?
    requires var t := Prepare(o, h, scriptDir).result.value.chosenTemplate;
             t.options.Some? && Distinct(SchemaKeys(t.options.value))
    ensures var a := Prepare(o, h, scriptDir).result.value;
            KeyList(a.configOptions) == RecognizedKeys(a.chosenTemplate.options.value)
  {
    var c := Prepare(o, h, scriptDir);
    var templates := Load(o, h, TemplatesDir(scriptDir)).value;
    var asked := [Asked(NamePrompt), Asked(TemplatePrompt(ScaffoldMessage, templates))];
    var schema := c.result.value.chosenTemplate.options.value;
    WalkKeyOrder(o, h + asked, schema, []);
  }

  /** The exit status: 1 for any error that reaches the top level. */
  function ExitCode(outcome: Outcome): (code: int)
    ensures code == 0 <==> outcome.Pass?
    ensures code == 0 || code == 1
  {
    if outcome.Pass? then 0 else 1
  }

  /** The prompts and the option walk as the program runs them. */
  method ChooseRun(env: Env, templates: seq<Template>) returns (r: Result<Answers>)
    modifies env
    ensures env.trace == old(env.trace) + Choose(env.o, old(env.trace), templates).acts
    ensures r == Choose(env.o, old(env.trace), templates).result
  {
    ghost var h0 := env.trace;
    var select := TemplatePrompt(ScaffoldMessage, templates);
    var name := env.Ask(NamePrompt);
    var id := env.Ask(select);
    assert env.trace == h0 + [Asked(NamePrompt), Asked(select)];
    var chosen := FindById(templates, id.s);
    if chosen.None? {
      return Err(NoTemplate);
    }
    if chosen.value.options.None? {
      return Err(MissingField("options"));
    }
    var config := CollectOptions(env, chosen.value.options.value);
    Regroup(h0, [Asked(NamePrompt), Asked(select)], Walk(env.o, h0 + [Asked(NamePrompt), Asked(select)], chosen.value.options.value, []).acts);
    r := Ok(Answers(name.s, chosen.value, config));
  }

  /** The scripts' interactive part as the program runs it. */
  method PrepareRun(env: Env, scriptDir: string) returns (r: Result<Answers>)
    modifies env
    ensures env.trace == old(env.trace) + Prepare(env.o, old(env.trace), scriptDir).acts
    ensures r == Prepare(env.o, old(env.trace), scriptDir).result
  {
    var loaded := Load(env.o, env.trace, TemplatesDir(scriptDir));
    if loaded.Err? {
      return Err(loaded.error);
    }
    r := ChooseRun(env, loaded.value);
  }
}
