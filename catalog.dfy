/** The template catalog: the subdirectories of a templates root, each turned
    into a record from its directory name and its `config.json` manifest, and
    lookup of a record by id. */
module Catalog {
  import opened Domain
  import opened Paths
  import opened Effects

  function ManifestPath(base: string, name: string): string {
    Join(Join(base, name), "config.json")
  }

  /** `{ id: name, path: join(base, name), ...manifest }`: the manifest is
      spread last, so an `id` or `path` it defines replaces the derived one. */
  function MakeTemplate(base: string, name: string, m: Manifest): Template {
    Template(m.id.GetOr(name), m.path.GetOr(Join(base, name)), m.name, m.description, m.tags,
             m.options, m.templateDeps, m.postInstall, m.templateRepoLink)
  }

  /** `dirs.filter(d => d.isDirectory())`, keeping the names. */
  function DirNames(entries: seq<DirEntry>): (names: seq<string>)
    ensures |names| <= |entries|
  {
    if entries == [] then []
    else (if entries[0].isDirectory then [entries[0].name] else []) + DirNames(entries[1..])
  }

  lemma {:induction false} DirNamesAppend(a: seq<DirEntry>, b: seq<DirEntry>)
    ensures DirNames(a + b) == DirNames(a) + DirNames(b)
    decreases |a|
  {
    if a != [] {
      assert (a + b)[1..] == a[1..] + b;
      DirNamesAppend(a[1..], b);
    } else {
      assert a + b == b;
    }
  }

  /** An entry that is not a directory contributes nothing. */
  lemma DirNamesSkipsFile(a: seq<DirEntry>, e: DirEntry, b: seq<DirEntry>)
    requires !e.isDirectory
    ensures DirNames(a + [e] + b) == DirNames(a + b)
  {
    DirNamesAppend(a + [e], b);
    DirNamesAppend(a, [e]);
    DirNamesAppend(a, b);
    assert DirNames([e]) == [] by { assert [e][1..] == []; }
  }

  /** A directory contributes exactly its name, in its listing position. */
  lemma DirNamesKeepsDirectory(a: seq<DirEntry>, e: DirEntry, b: seq<DirEntry>)
    requires e.isDirectory
    ensures DirNames(a + [e] + b) == DirNames(a) + [e.name] + DirNames(b)
  {
    DirNamesAppend(a + [e], b);
    DirNamesAppend(a, [e]);
    assert DirNames([e]) == [e.name] by { assert [e][1..] == []; }
  }

  /** Every name that survives the filter is the name of a directory entry. */
  lemma {:induction false} DirNamesFromDirectories(entries: seq<DirEntry>, n: string)
    requires n in DirNames(entries)
    ensures exists e :: e in entries && e.isDirectory && e.name == n
    decreases |entries|
  {
    if !(entries[0].isDirectory && entries[0].name == n) {
      DirNamesFromDirectories(entries[1..], n);
      var e :| e in entries[1..] && e.isDirectory && e.name == n;
      assert e in entries;
    }
  }

  ghost predicate DistinctNames(entries: seq<DirEntry>) {
    forall i, j :: 0 <= i < j < |entries| ==> entries[i].name != entries[j].name
  }

  ghost predicate Distinct(xs: seq<string>) {
    forall i, j :: 0 <= i < j < |xs| ==> xs[i] != xs[j]
  }

  /** Entries of one directory have distinct names, so the catalog's names are distinct. */
  lemma {:induction false} DirNamesDistinct(entries: seq<DirEntry>)
    requires DistinctNames(entries)
    ensures Distinct(DirNames(entries))
    decreases |entries|
  {
    if entries != [] {
      DirNamesDistinct(entries[1..]);
      if entries[0].isDirectory {
        forall n | n in DirNames(entries[1..]) ensures n != entries[0].name {
          DirNamesFromDirectories(entries[1..], n);
          var e :| e in entries[1..] && e.isDirectory && e.name == n;
          var j :| 0 <= j < |entries[1..]| && entries[1..][j] == e;
          assert entries[j + 1] == e;
        }
        var names := DirNames(entries);
        assert names == [entries[0].name] + DirNames(entries[1..]);
        forall j | 0 < j < |names| ensures names[0] != names[j] {
          assert names[j] == DirNames(entries[1..])[j - 1];
          assert names[j] in DirNames(entries[1..]);
        }
      }
    }
  }

  ghost predicate ManifestsReadable(o: Oracles, h: seq<Action>, base: string, names: seq<string>) {
    forall i :: 0 <= i < |names| ==> o.readManifest(h, ManifestPath(base, names[i])).Some?
  }

  /** A failure found in `names[1..]` is, after a readable `names[0]`, the first failure of `names`. */
  lemma FirstFailureShifts(o: Oracles, h: seq<Action>, base: string, names: seq<string>, e: Error)
    requires names != [] && o.readManifest(h, ManifestPath(base, names[0])).Some?
    requires exists k :: 0 <= k < |names[1..]| && e == ManifestFailed(ManifestPath(base, names[1..][k]))
                         && o.readManifest(h, ManifestPath(base, names[1..][k])).None?
                         && ManifestsReadable(o, h, base, names[1..][..k])
    ensures exists k :: 0 <= k < |names| && e == ManifestFailed(ManifestPath(base, names[k]))
                        && o.readManifest(h, ManifestPath(base, names[k])).None?
                        && ManifestsReadable(o, h, base, names[..k])
  {
    var k :| 0 <= k < |names[1..]| && e == ManifestFailed(ManifestPath(base, names[1..][k]))
             && o.readManifest(h, ManifestPath(base, names[1..][k])).None?
             && ManifestsReadable(o, h, base, names[1..][..k]);
    assert names[1..][..k] == names[1..k + 1];
    assert forall i :: 0 <= i < k ==> names[1..][..k][i] == names[..k + 1][i + 1];
    assert ManifestsReadable(o, h, base, names[..k + 1]);
    assert names[1..][k] == names[k + 1];
  }

  /** The `map` step: one record per name, in order; the first manifest that
      cannot be read or parsed aborts the whole catalog. */
  function BuildTemplates(o: Oracles, h: seq<Action>, base: string, names: seq<string>): (r: Result<seq<Template>>)
    ensures r.Ok? <==> ManifestsReadable(o, h, base, names)
    ensures r.Ok? ==>
              && |r.value| == |names|
              && forall i :: 0 <= i < |names| ==>
                   r.value[i] == MakeTemplate(base, names[i], o.readManifest(h, ManifestPath(base, names[i])).value)
    ensures r.Err? ==>
              exists k :: 0 <= k < |names| && r.error == ManifestFailed(ManifestPath(base, names[k]))
                          && o.readManifest(h, ManifestPath(base, names[k])).None?
                          && ManifestsReadable(o, h, base, names[..k])
    decreases |names|
  {
    if names == [] then Ok([])
    else
      var path := ManifestPath(base, names[0]);
      match o.readManifest(h, path)
      case None =>
        assert ManifestsReadable(o, h, base, names[..0]);
        Err(ManifestFailed(path))
      case Some(m) =>
        var rest := BuildTemplates(o, h, base, names[1..]);
        if rest.Err? then
          FirstFailureShifts(o, h, base, names, rest.error);
          Err(rest.error)
        else
          Ok([MakeTemplate(base, names[0], m)] + rest.value)
  }

  /** `loadTemplates`: list `base`, keep the directories, build a record for each. */
  function Load(o: Oracles, h: seq<Action>, base: string): Result<seq<Template>> {
    match o.readDir(h, base)
    case None => Err(ListingFailed(base))
    case Some(entries) => BuildTemplates(o, h, base, DirNames(entries))
  }

  ghost predicate NoIdOverride(o: Oracles, h: seq<Action>, base: string, names: seq<string>) {
    forall i :: 0 <= i < |names| ==> o.readManifest(h, ManifestPath(base, names[i])).Some? ==>
                                       o.readManifest(h, ManifestPath(base, names[i])).value.id.None?
  }

  /** Without manifest overrides every record's id is its directory name and
      its path is the directory's path. */
  lemma LoadDerivesIdAndPath(o: Oracles, h: seq<Action>, base: string, i: nat)
    requires o.readDir(h, base).Some?
    requires Load(o, h, base).Ok?
    requires i < |DirNames(o.readDir(h, base).value)|
    ensures var names := DirNames(o.readDir(h, base).value);
            var m := o.readManifest(h, ManifestPath(base, names[i])).value;
            && i < |Load(o, h, base).value|
            && Load(o, h, base).value[i].id == (if m.id.Some? then m.id.value else names[i])
            && Load(o, h, base).value[i].path == (if m.path.Some? then m.path.value else Join(base, names[i]))
  {
  }

  /** The index of the first record with the given id, `|ts|` when there is none. */
  function FirstIndex(ts: seq<Template>, id: string): (k: nat)
    ensures k <= |ts|
    ensures k < |ts| ==> ts[k].id == id
    ensures forall j :: 0 <= j < k ==> ts[j].id != id
    decreases |ts|
  {
    if ts == [] then 0 else if ts[0].id == id then 0 else 1 + FirstIndex(ts[1..], id)
  }

  /** `templates.find(t => t.id === id)`. */
  function FindById(ts: seq<Template>, id: string): (r: Option<Template>)
    ensures r.None? <==> forall t :: t in ts ==> t.id != id
    ensures r.Some? ==> r.value.id == id && r.value == ts[FirstIndex(ts, id)]
  {
    var k := FirstIndex(ts, id);
    if k < |ts| then Some(ts[k]) else None
  }

  function Ids(ts: seq<Template>): (ids: seq<string>)
    ensures |ids| == |ts| && forall i :: 0 <= i < |ts| ==> ids[i] == ts[i].id
  {
    seq(|ts|, i requires 0 <= i < |ts| => ts[i].id)
  }

  /** Looking up the id of record `i` finds a record with that id at or before `i`. */
  lemma LookupRoundTrip(ts: seq<Template>, i: nat)
    requires i < |ts|
    ensures FindById(ts, ts[i].id).Some?
    ensures FirstIndex(ts, ts[i].id) <= i
    ensures FindById(ts, ts[i].id).value.id == ts[i].id
  {
    assert ts[i] in ts;
  }

  /** With distinct ids, looking up the id of record `i` gives record `i` itself. */
  lemma LookupRoundTripDistinct(ts: seq<Template>, i: nat)
    requires i < |ts|
    requires Distinct(Ids(ts))
    ensures FindById(ts, ts[i].id) == Some(ts[i])
  {
    LookupRoundTrip(ts, i);
    var k := FirstIndex(ts, ts[i].id);
    assert Ids(ts)[k] == Ids(ts)[i];
  }

  /** A catalog loaded from one directory, whose manifests do not set `id`,
      satisfies the round trip `byId(list()[i].id) == list()[i]`. */
  lemma LoadRoundTrip(o: Oracles, h: seq<Action>, base: string, i: nat)
    requires o.readDir(h, base).Some? && DistinctNames(o.readDir(h, base).value)
    requires NoIdOverride(o, h, base, DirNames(o.readDir(h, base).value))
    requires Load(o, h, base).Ok? && i < |Load(o, h, base).value|
    ensures FindById(Load(o, h, base).value, Load(o, h, base).value[i].id) == Some(Load(o, h, base).value[i])
  {
    var names := DirNames(o.readDir(h, base).value);
    var ts := Load(o, h, base).value;
    DirNamesDistinct(o.readDir(h, base).value);
    forall j | 0 <= j < |ts| ensures Ids(ts)[j] == names[j] {
      assert o.readManifest(h, ManifestPath(base, names[j])).Some?;
    }
    assert Ids(ts) == names;
    LookupRoundTripDistinct(ts, i);
  }

  /** The catalog object: `templates` starts empty and is replaced only by a
      load that completes. */
  class TemplateManager {
    const templateDir: string
    var templates: seq<Template>

    constructor (templateDir: string)
      ensures this.templateDir == templateDir && templates == []
    {
      this.templateDir := templateDir;
      templates := [];
    }

    method LoadTemplates(env: Env) returns (r: Outcome)
      modifies this
      ensures Load(env.o, env.trace, templateDir).Ok? ==>
                templates == Load(env.o, env.trace, templateDir).value && r == Pass
      ensures Load(env.o, env.trace, templateDir).Err? ==>
                templates == old(templates) && r == Fail(Load(env.o, env.trace, templateDir).error)
    {
      var loaded := Load(env.o, env.trace, templateDir);
      if loaded.Ok? {
        templates := loaded.value;
        r := Pass;
      } else {
        r := Fail(loaded.error);
      }
    }

    function GetTemplates(): seq<Template>
      reads this
    {
      templates
    }

    function GetTemplateById(id: string): (r: Option<Template>)
      reads this
      ensures r.None? <==> forall t :: t in templates ==> t.id != id
      ensures r.Some? ==> r.value.id == id && r.value == templates[FirstIndex(templates, id)]
    {
      FindById(templates, id)
    }
  }
}
