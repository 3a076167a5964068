/**
 The producer of catalog indexes, manifests and identities (scripts/generate-racing-catalog.py):
 what it writes satisfies the independent validator, and checking right after writing finds nothing stale.
 */
module CatalogGenerator {
  import opened Binary
  import opened CatalogFormat
  import opened CatalogSite
  import opened Counting
  import opened Ordering
  import opened Results

  // ----- Resource files and their ids -----

  predicate JsonFile(name: string) { |name| >= 5 && name[|name| - 5..] == ".json" && '/' !in name }

  /** The paths simulation/<category>/<file>.json. */
  predicate IsResourcePath(path: string) {
    && |path| > 11 && path[..11] == "simulation/"
    && Before(path[11..], '/') != ""
    && After(path[11..], '/').Some? && JsonFile(After(path[11..], '/').value)
  }

  function Stem(file: string): string
    requires JsonFile(file)
  {
    if |file| == 5 then file else file[..|file| - 5]
  }

  function CanonicalId(relative: string): Option<string> {
    if relative == "driver-instructions/profile-v1.json" then Some("pitgun.racing.driver-instructions")
    else if relative == "driver-control/profile-v1.json" then Some("pitgun.racing.driver-control")
    else if relative == "fuel-contract/profile-v1.json" then Some("pitgun.racing.fuel-contract")
    else None
  }

  function ResourceId(path: string): string
    requires IsResourcePath(path)
  {
    var relative := path[11..];
    var category, stem := Before(relative, '/'), Stem(After(relative, '/').value);
    if category == "drivers-v2" then "pitgun.racing.driver-v2." + stem
    else if CanonicalId(relative).Some? then CanonicalId(relative).value
    else "pitgun.racing." + category + "." + stem
  }

  /** The id of every resource file, from the parts of its path. */
  lemma ResourceIdOf(category: string, stem: string)
    requires category != "" && stem != "" && '/' !in category && '/' !in stem
    ensures var path := "simulation/" + category + "/" + stem + ".json";
      && IsResourcePath(path)
      && ResourceId(path) ==
         if category == "drivers-v2" then "pitgun.racing.driver-v2." + stem
         else if stem == "profile-v1" && category in {"driver-instructions", "driver-control", "fuel-contract"}
         then "pitgun.racing." + category
         else "pitgun.racing." + category + "." + stem
  {
    hide Before, After;
    var path, file := "simulation/" + category + "/" + stem + ".json", stem + ".json";
    assert path[..11] == "simulation/" && path[11..] == category + ['/'] + file;
    SplitAtMark(category, '/', file);
    FileOf(stem);
    CanonicalIs(category, stem);
  }

  lemma FileOf(stem: string)
    requires stem != "" && '/' !in stem
    ensures JsonFile(stem + ".json") && Stem(stem + ".json") == stem
  {
    var file := stem + ".json";
    assert file[|file| - 5..] == ".json" && file[..|file| - 5] == stem;
    assert '/' !in ".json";
  }

  lemma CanonicalIs(category: string, stem: string)
    requires '/' !in category
    ensures CanonicalId(category + ['/'] + (stem + ".json")) ==
      if stem == "profile-v1" && category in {"driver-instructions", "driver-control", "fuel-contract"}
      then Some("pitgun.racing." + category) else None
  {
    var relative := category + ['/'] + (stem + ".json");
    InstructionsIff(category, stem);
    ControlIff(category, stem);
    FuelIff(category, stem);
  }

  lemma InstructionsIff(category: string, stem: string)
    requires '/' !in category
    ensures category + ['/'] + (stem + ".json") == "driver-instructions/profile-v1.json" <==>
      category == "driver-instructions" && stem == "profile-v1"
    ensures "pitgun.racing." + "driver-instructions" == "pitgun.racing.driver-instructions"
  {
    SameParts(category, stem, "driver-instructions", "profile-v1");
    assert "driver-instructions" + ['/'] + ("profile-v1" + ".json") == "driver-instructions/profile-v1.json";
  }

  lemma ControlIff(category: string, stem: string)
    requires '/' !in category
    ensures category + ['/'] + (stem + ".json") == "driver-control/profile-v1.json" <==>
      category == "driver-control" && stem == "profile-v1"
    ensures "pitgun.racing." + "driver-control" == "pitgun.racing.driver-control"
  {
    SameParts(category, stem, "driver-control", "profile-v1");
    assert "driver-control" + ['/'] + ("profile-v1" + ".json") == "driver-control/profile-v1.json";
  }

  lemma FuelIff(category: string, stem: string)
    requires '/' !in category
    ensures category + ['/'] + (stem + ".json") == "fuel-contract/profile-v1.json" <==>
      category == "fuel-contract" && stem == "profile-v1"
    ensures "pitgun.racing." + "fuel-contract" == "pitgun.racing.fuel-contract"
  {
    SameParts(category, stem, "fuel-contract", "profile-v1");
    assert "fuel-contract" + ['/'] + ("profile-v1" + ".json") == "fuel-contract/profile-v1.json";
  }

  lemma SameParts(category: string, stem: string, category': string, stem': string)
    requires '/' !in category && '/' !in category'
    ensures category + ['/'] + (stem + ".json") == category' + ['/'] + (stem' + ".json") <==>
      category == category' && stem == stem'
  {
    hide Before, After;
    SplitAtMark(category, '/', stem + ".json");
    SplitAtMark(category', '/', stem' + ".json");
    if stem + ".json" == stem' + ".json" {
      assert stem == (stem + ".json")[..|stem + ".json"| - 5] == stem';
    }
  }

  /** And every resource file has such a path; only a file named ".json" has no stem. */
  lemma ResourcePathParts(path: string) returns (category: string, file: string)
    requires IsResourcePath(path)
    ensures category != "" && '/' !in category && JsonFile(file) && path == "simulation/" + category + "/" + file
  {
    hide Before, After;
    var relative := path[11..];
    category, file := Before(relative, '/'), After(relative, '/').value;
    JoinAtMark(relative, '/');
    assert path == path[..11] + relative;
    assert path == "simulation/" + category + "/" + file;
  }

  datatype Resource = Resource(id: string, path: string, digest: string)

  function ResourceFor(c: Codec, path: string, bytes: Bytes): Resource
    requires IsResourcePath(path)
  {
    Resource(ResourceId(path), path, c.digest(bytes))
  }

  /** The files of a release the generator reads. */
  function Inputs(tree: Tree): Tree {
    map path | path in tree && (IsResourcePath(path) || path == "presentation/index.json") :: tree[path]
  }

  /** One record per resource file, in id order, with different ids. */
  ghost predicate Indexed(c: Codec, inputs: Tree, list: seq<Resource>) {
    && list != []
    && (forall i :: 0 <= i < |list| ==>
          && IsResourcePath(list[i].path) && list[i].path in inputs
          && list[i] == ResourceFor(c, list[i].path, inputs[list[i].path]))
    && (forall path :: path in inputs && IsResourcePath(path) ==> ResourceFor(c, path, inputs[path]) in list)
    && (forall i, j :: 0 <= i < j < |list| ==> list[i].id != list[j].id && StringLe(list[i].id, list[j].id))
  }

  predicate ResourceLe(a: Resource, b: Resource) {
    if a.id == b.id then StringLe(a.path, b.path) else StringLe(a.id, b.id)
  }

  lemma ResourceOrder()
    ensures TotalPreorder(ResourceLe)
  {
    hide StringLe;
    forall a, b ensures ResourceLe(a, b) || ResourceLe(b, a) {
      StringLeTotal(a.id, b.id);
      StringLeTotal(a.path, b.path);
    }
    forall a, b, c | ResourceLe(a, b) && ResourceLe(b, c) ensures ResourceLe(a, c) {
      StringLeTotal(a.id, b.id);
      StringLeTotal(b.id, c.id);
      if a.id == b.id == c.id {
        StringLeTransitive(a.path, b.path, c.path);
      } else if a.id != b.id && b.id != c.id {
        StringLeTransitive(a.id, b.id, c.id);
      }
    }
  }

  /** The index is a function of the input files: listing order plays no part. */
  lemma IndexedUnique(c: Codec, inputs: Tree, list: seq<Resource>, list': seq<Resource>)
    requires Indexed(c, inputs, list) && Indexed(c, inputs, list')
    ensures list == list'
  {
    SameRecords(c, inputs, list, list');
    SameRecords(c, inputs, list', list);
    SameSortedResources(list, list');
  }

  lemma SameRecords(c: Codec, inputs: Tree, list: seq<Resource>, list': seq<Resource>)
    requires Indexed(c, inputs, list) && Indexed(c, inputs, list')
    ensures forall x :: x in list ==> x in list'
  {
    hide StringLe, IsResourcePath, ResourceId;
    forall x | x in list ensures x in list' {
      var i :| 0 <= i < |list| && list[i] == x;
      assert ResourceFor(c, list[i].path, inputs[list[i].path]) in list';
    }
  }

  ghost predicate StrictlyOrdered(list: seq<Resource>) {
    forall i, j :: 0 <= i < j < |list| ==> list[i].id != list[j].id && StringLe(list[i].id, list[j].id)
  }

  lemma OrderedTail(a: seq<Resource>)
    requires StrictlyOrdered(a) && a != []
    ensures StrictlyOrdered(a[1..]) && forall x :: x in a[1..] <==> x in a && x != a[0]
  {
    hide StringLe;
    assert a == [a[0]] + a[1..];
    forall i | 0 <= i < |a[1..]| ensures a[1..][i] == a[i + 1] && a[i + 1] != a[0] {
    }
  }

  lemma {:induction false} SameSortedResources(a: seq<Resource>, b: seq<Resource>)
    requires StrictlyOrdered(a) && StrictlyOrdered(b) && forall x :: x in a <==> x in b
    ensures a == b
  {
    hide StringLe;
    assert b == [] || b[0] in b;
    if a != [] {
      assert a[0] in b && b != [];
      assert b[0] in a;
      StringLeTotal(a[0].id, b[0].id);
      assert a[0] == b[0];
      OrderedTail(a);
      OrderedTail(b);
      SameSortedResources(a[1..], b[1..]);
      assert a == [a[0]] + a[1..] && b == [b[0]] + b[1..];
    }
  }

  /** The records of a set of resource paths, each path once. */
  ghost predicate Collected(c: Codec, inputs: Tree, found: seq<Resource>, paths: set<string>) {
    && (forall path :: path in paths ==>
          path in inputs && IsResourcePath(path) && ResourceFor(c, path, inputs[path]) in found)
    && (forall x :: x in found ==>
          x.path in paths && IsResourcePath(x.path) && x.path in inputs && x == ResourceFor(c, x.path, inputs[x.path]))
    && (forall i, j :: 0 <= i < j < |found| ==> found[i] != found[j])
  }

  /** Reads the resource files in any order. */
  method CollectResources(c: Codec, inputs: Tree) returns (found: seq<Resource>)
    ensures Collected(c, inputs, found, set path | path in inputs && IsResourcePath(path))
  {
    hide IsResourcePath, ResourceId, Collected;
    found := [];
    var pending := set path | path in inputs && IsResourcePath(path);
    ghost var all := pending;
    assert Collected(c, inputs, found, all - pending) by { NothingCollected(c, inputs, all); }
    while pending != {}
      invariant pending <= all
      invariant Collected(c, inputs, found, all - pending)
      decreases |pending|
    {
      var path :| path in pending;
      var record := ResourceFor(c, path, inputs[path]);
      CollectedNext(c, inputs, found, all - pending, path);
      assert all - (pending - {path}) == all - pending + {path};
      found := found + [record];
      pending := pending - {path};
    }
    assert all - pending == all;
  }

  lemma NothingCollected(c: Codec, inputs: Tree, all: set<string>)
    ensures Collected(c, inputs, [], all - all)
  {
  }

  lemma CollectedNext(c: Codec, inputs: Tree, found: seq<Resource>, paths: set<string>, path: string)
    requires Collected(c, inputs, found, paths) && path !in paths && path in inputs && IsResourcePath(path)
    ensures Collected(c, inputs, found + [ResourceFor(c, path, inputs[path])], paths + {path})
  {
    hide IsResourcePath, ResourceId;
    var record := ResourceFor(c, path, inputs[path]);
    assert record.path == path && record !in found;
  }

  /** Collects and sorts the records, and refuses an empty or ambiguous index. */
  method SimulationResources(c: Codec, inputs: Tree) returns (r: Result<seq<Resource>>)
    ensures r.Ok? <==> exists list :: Indexed(c, inputs, list)
    ensures r.Ok? ==> Indexed(c, inputs, r.value)
  {
    hide IsResourcePath, ResourceLe, Indexed, Collected, Sort, Sorted;
    var found := CollectResources(c, inputs);
    ResourceOrder();
    SortCorrect(found, ResourceLe);
    var list := Sort(found, ResourceLe);
    PermutedCollected(c, inputs, found, list, set path | path in inputs && IsResourcePath(path));
    var ids := seq(|list|, i requires 0 <= i < |list| => list[i].id);
    var paths := seq(|list|, i requires 0 <= i < |list| => list[i].path);
    CollectedIndex(c, inputs, list, ids, paths);
    if list == [] {
      return Err("no simulation resources");
    }
    if |set id | id in ids| != |ids| || |set path | path in paths| != |paths| {
      return Err("duplicate resource ID or path");
    }
    r := Ok(list);
  }

  lemma PermutedCollected(c: Codec, inputs: Tree, found: seq<Resource>, list: seq<Resource>, paths: set<string>)
    requires Collected(c, inputs, found, paths) && multiset(found) == multiset(list)
    ensures Collected(c, inputs, list, paths)
  {
    hide ResourceFor, IsResourcePath;
    assert |multiset(found)| == |multiset(list)|;
    forall x ensures x in found <==> x in list {
      assert x in multiset(found) <==> x in multiset(list);
    }
    DistinctCount(found);
    DistinctCount(list);
    assert (set x | x in found) == (set x | x in list);
  }

  /** A complete sorted collection is the index exactly when it passes the emptiness and duplicate tests. */
  lemma CollectedIndex(c: Codec, inputs: Tree, list: seq<Resource>, ids: seq<string>, paths: seq<string>)
    requires Collected(c, inputs, list, set path | path in inputs && IsResourcePath(path)) && Sorted(ResourceLe, list)
    requires |ids| == |paths| == |list|
    requires forall i :: 0 <= i < |list| ==> ids[i] == list[i].id && paths[i] == list[i].path
    ensures var accepted := list != [] && |set id | id in ids| == |ids| && |set path | path in paths| == |paths|;
      && (accepted ==> Indexed(c, inputs, list))
      && (!accepted ==> forall other :: !Indexed(c, inputs, other))
  {
    hide StringLe, ResourceFor, IsResourcePath;
    DistinctCount(ids);
    DistinctCount(paths);
    forall i, j | 0 <= i < j < |list| ensures paths[i] != paths[j] {
      assert list[i] in list && list[j] in list && list[i] != list[j];
    }
    if list != [] && |set id | id in ids| == |ids| {
      OrderedIndex(c, inputs, list, ids);
    } else {
      forall other ensures !Indexed(c, inputs, other) {
        if Indexed(c, inputs, other) {
          AmbiguousRefused(c, inputs, list, ids, other);
        }
      }
    }
  }

  lemma OrderedIndex(c: Codec, inputs: Tree, list: seq<Resource>, ids: seq<string>)
    requires Collected(c, inputs, list, set path | path in inputs && IsResourcePath(path)) && Sorted(ResourceLe, list)
    requires list != [] && |ids| == |list| && forall i :: 0 <= i < |list| ==> ids[i] == list[i].id
    requires forall i, j :: 0 <= i < j < |ids| ==> ids[i] != ids[j]
    ensures Indexed(c, inputs, list)
  {
    hide StringLe, ResourceFor, IsResourcePath;
    forall i, j | 0 <= i < j < |list| ensures list[i].id != list[j].id && StringLe(list[i].id, list[j].id) {
      assert ids[i] != ids[j] && ResourceLe(list[i], list[j]);
    }
    assert forall i :: 0 <= i < |list| ==> list[i] in list;
  }

  lemma AmbiguousRefused(c: Codec, inputs: Tree, list: seq<Resource>, ids: seq<string>, other: seq<Resource>)
    requires Collected(c, inputs, list, set path | path in inputs && IsResourcePath(path)) && Indexed(c, inputs, other)
    requires |ids| == |list| && forall i :: 0 <= i < |list| ==> ids[i] == list[i].id
    ensures list != [] && forall i, j :: 0 <= i < j < |ids| ==> ids[i] != ids[j]
  {
    hide StringLe, ResourceFor, IsResourcePath;
    assert other[0].path in inputs;
    forall i, j | 0 <= i < j < |ids| ensures ids[i] != ids[j] {
      assert list[i] in list && list[j] in list;
      assert list[i] in other && list[j] in other;
      var a :| 0 <= a < |other| && other[a] == list[i];
      var b :| 0 <= b < |other| && other[b] == list[j];
      assert a < b || b < a;
    }
  }

  ghost function ResourceList(c: Codec, inputs: Tree): Option<seq<Resource>> {
    if exists list :: Indexed(c, inputs, list) then
      var list :| Indexed(c, inputs, list);
      Some(list)
    else None
  }

  // ----- One release -----

  /** Models each release is governed for. */
  function Compatibility(version: string): Option<(string, seq<string>)> {
    if version == "1.0.0" || version == "1.1.0" then Some(("pitgun.racing", ["1.0.0"]))
    else if version == "1.2.0" || version == "1.3.0" || version == "1.4.0" then Some(("pitgun.racing", ["2.0.0"]))
    else if version == "1.5.0" then Some(("pitgun.racing-v3-candidate", ["0.10.0"]))
    else if version == "1.6.0" || version == "1.7.0" then Some(("pitgun.racing-v3-candidate", ["0.11.0"]))
    else if version == "1.8.0" then Some(("pitgun.racing-v3-candidate", ["0.14.0"]))
    else if version == "1.9.0" then Some(("pitgun.racing-v3-candidate", ["0.15.0"]))
    else None
  }

  /** Ten governed releases: two lines of models, then the candidates. */
  lemma GovernedReleases()
    ensures Compatibility("1.0.0") == Compatibility("1.1.0") == Some(("pitgun.racing", ["1.0.0"]))
    ensures Compatibility("1.2.0") == Compatibility("1.3.0") == Compatibility("1.4.0") == Some(("pitgun.racing", ["2.0.0"]))
    ensures Compatibility("1.5.0") == Some(("pitgun.racing-v3-candidate", ["0.10.0"]))
    ensures Compatibility("1.6.0") == Compatibility("1.7.0") == Some(("pitgun.racing-v3-candidate", ["0.11.0"]))
    ensures Compatibility("1.8.0") == Some(("pitgun.racing-v3-candidate", ["0.14.0"]))
    ensures Compatibility("1.9.0") == Some(("pitgun.racing-v3-candidate", ["0.15.0"]))
  {
  }

  function ResourceJson(r: Resource): Json {
    Obj(map["id" := Str(r.id), "path" := Str(r.path), "media_type" := Str("application/json"), "digest" := Str(r.digest)])
  }

  function IndexJson(list: seq<Resource>): Json {
    Obj(map["schema_version" := Str("pitgun.racing-simulation-index/v1"),
            "resources" := Arr(seq(|list|, i requires 0 <= i < |list| => ResourceJson(list[i])))])
  }

  function PackJson(id: string, version: string, path: string, digest: string): Json {
    Obj(map["identity" := Obj(map["id" := Str(id), "version" := Str(version), "digest" := Str(digest)]),
            "index" := Obj(map["path" := Str(path), "media_type" := Str("application/json"), "digest" := Str(digest)])])
  }

  function CompatibilityJson(model: (string, seq<string>)): Json {
    Obj(map["schema_version" := Str("pitgun.catalog-compatibility/v1"),
            "contract_versions" := Arr([Str("pitgun.deterministic-run/v1")]),
            "models" := Arr([Obj(map["id" := Str(model.0),
              "versions" := Arr(Texts(model.1))])])])
  }

  function Texts(s: seq<string>): seq<Json> { seq(|s|, i requires 0 <= i < |s| => Str(s[i])) }

  function ManifestJson(version: string, model: (string, seq<string>), simulation: string, presentation: string): Json {
    Obj(map["schema_version" := Str("pitgun.resource-catalog/v1"),
            "catalog" := Obj(map["id" := Str("pitgun.racing"), "version" := Str(version)]),
            "simulation_pack" := PackJson("pitgun.racing.simulation", version, "simulation/index.json", simulation),
            "presentation_pack" := PackJson("pitgun.racing.presentation", version, "presentation/index.json", presentation),
            "compatibility" := CompatibilityJson(model)])
  }

  function IdentityJson(version: string, manifestDigest: string): Json {
    Obj(map["schema_version" := Str("pitgun.catalog-release-identity/v1"), "id" := Str("pitgun.racing"),
            "version" := Str(version), "manifest_digest" := Str(manifestDigest)])
  }

  /** Libraries, and the content rules for packs and policies as any test of the files read. */
  datatype Tools = Tools(
    codec: Codec, accepts: (Tree, Json) -> bool, utf8: string -> Bytes, strip: Bytes -> Option<string>)

  function Written(c: Codec, version: string, model: (string, seq<string>), list: seq<Resource>, presentation: Json): Tree {
    var manifest := ManifestJson(version, model, JsonDigest(c, IndexJson(list)), JsonDigest(c, presentation));
    map["simulation/index.json" := c.pretty(IndexJson(list)),
        "catalog.json" := c.pretty(manifest),
        "release.json" := c.pretty(IdentityJson(version, JsonDigest(c, manifest)))]
  }

  ghost predicate Releasable(tools: Tools, name: string, inputs: Tree) {
    var presentation := Load(tools.codec, inputs, "presentation/index.json");
    && name != "" && Compatibility(name[1..]).Some? && ResourceList(tools.codec, inputs).Some?
    && Field(presentation, "schema_version") == Some(Str("pitgun.racing-presentation-index/v1"))
    && tools.accepts(inputs, presentation.value)
  }

  ghost function ReleaseOutput(tools: Tools, name: string, inputs: Tree): Tree
    requires Releasable(tools, name, inputs)
  {
    Written(tools.codec, name[1..], Compatibility(name[1..]).value, ResourceList(tools.codec, inputs).value,
            Load(tools.codec, inputs, "presentation/index.json").value)
  }

  method GenerateRelease(tools: Tools, name: string, tree: Tree) returns (r: Result<Tree>)
    requires ParseVersion(name).Some?
    ensures r.Ok? <==> Releasable(tools, name, Inputs(tree))
    ensures r.Ok? ==> r.value == ReleaseOutput(tools, name, Inputs(tree))
  {
    hide Indexed, Inputs, ParseVersion, Written;
    VersionStartsWithV(name);
    var c, inputs := tools.codec, Inputs(tree);
    var model := Compatibility(name[1..]);
    if model.None? {
      return Err("model compatibility is not governed");
    }
    var list := SimulationResources(c, inputs);
    if list.Err? {
      return Err(list.error);
    }
    ResourceListIs(c, inputs, list.value);
    var presentation := Load(c, inputs, "presentation/index.json");
    if Field(presentation, "schema_version") != Some(Str("pitgun.racing-presentation-index/v1")) {
      return Err("unsupported presentation index");
    }
    if !tools.accepts(inputs, presentation.value) {
      return Err("pack boundary or opponent policy");
    }
    r := Ok(Written(c, name[1..], model.value, list.value, presentation.value));
  }

  lemma ResourceListIs(c: Codec, inputs: Tree, list: seq<Resource>)
    requires Indexed(c, inputs, list)
    ensures ResourceList(c, inputs) == Some(list)
  {
    hide Indexed;
    IndexedUnique(c, inputs, list, ResourceList(c, inputs).value);
  }

  // ----- The output files are never inputs -----

  const OUTPUTS: set<string> := {"simulation/index.json", "catalog.json", "release.json"}

  lemma {:induction false} NoMark(s: string, mark: char)
    requires mark !in s
    ensures After(s, mark).None?
  {
    if s != "" {
      assert s[0] != mark;
      NoMark(s[1..], mark);
    }
  }

  lemma OutputsAreNotInputs(path: string)
    requires path in OUTPUTS
    ensures !IsResourcePath(path) && path != "presentation/index.json"
  {
    if path == "simulation/index.json" {
      assert path[11..] == "index.json";
      NoMark("index.json", '/');
    } else if path == "catalog.json" {
      assert path[0] == 'c';
    } else {
      assert path[0] == 'r';
    }
  }

  /** Rewriting output files leaves the inputs as they were. */
  lemma InputsKept(tree: Tree, tree': Tree)
    requires forall path :: path !in OUTPUTS ==> (path in tree <==> path in tree') && (path in tree ==> tree'[path] == tree[path])
    ensures Inputs(tree) == Inputs(tree')
  {
    hide IsResourcePath;
    forall path | IsResourcePath(path) || path == "presentation/index.json" ensures path !in OUTPUTS {
      if path in OUTPUTS {
        OutputsAreNotInputs(path);
      }
    }
  }

  // ----- The producer meets the checker -----

  ghost predicate Carries(tree: Tree, written: Tree) { forall path :: path in written ==> path in tree && tree[path] == written[path] }

  lemma WrittenLoads(
    c: Codec, tree: Tree, version: string, model: (string, seq<string>), list: seq<Resource>, presentation: Json)
    requires PrettyParses(c) && Carries(tree, Written(c, version, model, list, presentation))
    requires Load(c, tree, "presentation/index.json") == Some(presentation)
    ensures
      var manifest := ManifestJson(version, model, JsonDigest(c, IndexJson(list)), JsonDigest(c, presentation));
      && ManifestOf(c, tree) == Some(manifest)
      && Load(c, tree, "release.json") == Some(IdentityJson(version, JsonDigest(c, manifest)))
    ensures Load(c, tree, "simulation/index.json") == Some(IndexJson(list))
  {
    hide ManifestJson, IdentityJson, IndexJson;
    var written := Written(c, version, model, list, presentation);
    assert "simulation/index.json" in written && "catalog.json" in written && "release.json" in written;
  }

  lemma ManifestFields(version: string, model: (string, seq<string>), simulation: string, presentation: string)
    ensures
      var m := Some(ManifestJson(version, model, simulation, presentation));
      && Field(Field(m, "catalog"), "id") == Some(Str("pitgun.racing"))
      && Field(Field(m, "catalog"), "version") == Some(Str(version))
      && Field(m, "simulation_pack") == Some(PackJson("pitgun.racing.simulation", version, "simulation/index.json", simulation))
      && Field(m, "presentation_pack") ==
         Some(PackJson("pitgun.racing.presentation", version, "presentation/index.json", presentation))
  {
    hide PackJson, CompatibilityJson;
  }

  /** What the manifest says beyond what the validator reads. */
  lemma ManifestContents(version: string, id: string, modelVersion: string, simulation: string, presentation: string)
    ensures
      var m := Some(ManifestJson(version, (id, [modelVersion]), simulation, presentation));
      && Field(m, "schema_version") == Some(Str("pitgun.resource-catalog/v1"))
      && Field(Field(Field(m, "simulation_pack"), "identity"), "id") == Some(Str("pitgun.racing.simulation"))
      && Field(Field(Field(m, "simulation_pack"), "identity"), "version") == Some(Str(version))
      && Field(Field(Field(m, "presentation_pack"), "identity"), "id") == Some(Str("pitgun.racing.presentation"))
      && Field(Field(Field(m, "presentation_pack"), "identity"), "version") == Some(Str(version))
      && Field(Field(m, "compatibility"), "schema_version") == Some(Str("pitgun.catalog-compatibility/v1"))
      && Field(Field(m, "compatibility"), "contract_versions") == Some(Arr([Str("pitgun.deterministic-run/v1")]))
      && Field(Field(m, "compatibility"), "models") ==
         Some(Arr([Obj(map["id" := Str(id), "versions" := Arr([Str(modelVersion)])])]))
  {
    ManifestFields(version, (id, [modelVersion]), simulation, presentation);
    CompatibilityContents(version, id, modelVersion, simulation, presentation);
  }

  lemma CompatibilityContents(version: string, id: string, modelVersion: string, simulation: string, presentation: string)
    ensures var c := CompatibilityJson((id, [modelVersion]));
      && Field(Some(ManifestJson(version, (id, [modelVersion]), simulation, presentation)), "compatibility") == Some(c)
      && Field(Some(c), "schema_version") == Some(Str("pitgun.catalog-compatibility/v1"))
      && Field(Some(c), "contract_versions") == Some(Arr([Str("pitgun.deterministic-run/v1")]))
      && Field(Some(c), "models") == Some(Arr([Obj(map["id" := Str(id), "versions" := Arr([Str(modelVersion)])])]))
  {
    assert Texts([modelVersion]) == [Str(modelVersion)];
  }

  lemma PackFields(id: string, version: string, path: string, digest: string)
    ensures
      var p := Some(PackJson(id, version, path, digest));
      && Field(Field(p, "identity"), "digest") == Some(Str(digest))
      && Field(Field(p, "index"), "digest") == Some(Str(digest))
      && Field(Field(p, "index"), "path") == Some(Str(path))
  {
  }

  lemma IdentityFields(version: string, digest: string)
    ensures
      var i := Some(IdentityJson(version, digest));
      && Field(i, "id") == Some(Str("pitgun.racing")) && Field(i, "version") == Some(Str(version))
      && Field(i, "manifest_digest") == Some(Str(digest))
      && Field(i, "schema_version") == Some(Str("pitgun.catalog-release-identity/v1"))
  {
  }

  lemma ResourceFields(r: Resource)
    ensures Field(Some(ResourceJson(r)), "path") == Some(Str(r.path))
    ensures Field(Some(ResourceJson(r)), "digest") == Some(Str(r.digest))
    ensures Field(Some(ResourceJson(r)), "id") == Some(Str(r.id))
    ensures Field(Some(ResourceJson(r)), "media_type") == Some(Str("application/json"))
  {
  }

  lemma IndexFields(list: seq<Resource>)
    ensures var items := Field(Some(IndexJson(list)), "resources");
      items.Some? && items.value.Arr? && |items.value.items| == |list| &&
      forall i :: 0 <= i < |list| ==> items.value.items[i] == ResourceJson(list[i])
    ensures Field(Some(IndexJson(list)), "schema_version") == Some(Str("pitgun.racing-simulation-index/v1"))
  {
    hide ResourceJson;
  }

  /** Every resource listed by the generator has the bytes its record is the digest of. */
  lemma ListedValid(c: Codec, tree: Tree, list: seq<Resource>)
    requires Indexed(c, Inputs(tree), list)
    ensures forall i :: 0 <= i < |list| ==> ResourceValid(c, tree, ResourceJson(list[i]))
  {
    hide IsResourcePath, ResourceId, ResourceJson, StringLe;
    forall i | 0 <= i < |list| ensures ResourceValid(c, tree, ResourceJson(list[i])) {
      ResourceFields(list[i]);
      assert list[i].path in Inputs(tree);
      assert list[i].digest == c.digest(tree[list[i].path]);
      ResourcePathNonempty(list[i].path);
    }
  }

  /** The index of a release misses no resource file and adds none. */
  lemma IndexComplete(c: Codec, tree: Tree, list: seq<Resource>, path: string)
    requires Indexed(c, Inputs(tree), list)
    ensures path in tree && IsResourcePath(path) <==> exists i :: 0 <= i < |list| && list[i].path == path
    ensures path in tree && IsResourcePath(path) ==> Resource(ResourceId(path), path, c.digest(tree[path])) in list
  {
    hide IsResourcePath, ResourceId, StringLe;
    if path in tree && IsResourcePath(path) {
      var r := ResourceFor(c, path, Inputs(tree)[path]);
      var i :| 0 <= i < |list| && list[i] == r;
    }
  }

  lemma ResourcePathNonempty(path: string)
    requires IsResourcePath(path)
    ensures path != ""
  {
  }

  lemma GeneratedPack(c: Codec, tree: Tree, manifest: Json, pack: string, id: string, version: string, path: string, index: Json)
    requires ManifestOf(c, tree) == Some(manifest)
    requires Field(Some(manifest), pack) == Some(PackJson(id, version, path, JsonDigest(c, index)))
    requires Load(c, tree, path) == Some(index)
    ensures PackValid(c, tree, pack) && PackIndex(c, tree, pack) == Some(index)
    ensures Field(IndexEntry(Some(manifest), pack), "path") == Some(Str(path))
  {
    hide PackJson;
    PackFields(id, version, path, JsonDigest(c, index));
  }

  lemma GeneratedMetadata(
    c: Codec, name: string, model: (string, seq<string>), simulation: string, presentation: string)
    requires name != ""
    ensures var manifest := ManifestJson(name[1..], model, simulation, presentation);
      MetadataValid(c, "racing", name, Some(manifest), Some(IdentityJson(name[1..], JsonDigest(c, manifest))))
  {
    hide ManifestJson, IdentityJson, JsonDigest;
    var manifest := ManifestJson(name[1..], model, simulation, presentation);
    ManifestFields(name[1..], model, simulation, presentation);
    IdentityFields(name[1..], JsonDigest(c, manifest));
    assert "pitgun." + "racing" == "pitgun.racing";
  }

  /** A tree with the generated files in place passes the independent validator. */
  lemma GeneratedReleaseValid(tools: Tools, name: string, tree: Tree)
    requires ParseVersion(name).Some? && PrettyParses(tools.codec)
    requires Releasable(tools, name, Inputs(tree)) && Carries(tree, ReleaseOutput(tools, name, Inputs(tree)))
    ensures ReleaseValid(tools.codec, "racing", name, tree)
  {
    hide Indexed, ParseVersion, Written, Compatibility, ManifestJson, IdentityJson, IndexJson, PackJson, ResourceJson,
         IsResourcePath, PackValid, ResourceValid, MetadataValid, JsonDigest;
    VersionStartsWithV(name);
    var c, inputs, version := tools.codec, Inputs(tree), name[1..];
    var list, presentation := ResourceList(c, inputs).value, Load(c, inputs, "presentation/index.json").value;
    assert Load(c, tree, "presentation/index.json") == Some(presentation);
    var model := Compatibility(version).value;
    WrittenLoads(c, tree, version, model, list, presentation);
    var simulationDigest, presentationDigest := JsonDigest(c, IndexJson(list)), JsonDigest(c, presentation);
    var manifest := ManifestJson(version, model, simulationDigest, presentationDigest);
    ManifestFields(version, model, simulationDigest, presentationDigest);
    GeneratedMetadata(c, name, model, simulationDigest, presentationDigest);
    GeneratedPack(c, tree, manifest, "simulation_pack", "pitgun.racing.simulation", version, "simulation/index.json", IndexJson(list));
    GeneratedPack(c, tree, manifest, "presentation_pack", "pitgun.racing.presentation", version, "presentation/index.json", presentation);
    IndexFields(list);
    IndexedNonempty(c, inputs, list);
    ListedValid(c, tree, list);
  }

  lemma IndexedNonempty(c: Codec, inputs: Tree, list: seq<Resource>)
    requires Indexed(c, inputs, list)
    ensures list != []
  {
  }

  // ----- All releases and the embedded tables -----

  datatype File = InRelease(name: string, relative: string) | Embedded(fileName: string) | Latest

  function TreeOf(files: map<File, Bytes>, name: string): Tree {
    map f | f in files && f.InRelease? && f.name == name :: f.relative := files[f]
  }

  function Releases(dirs: set<string>): set<string> { set name | name in dirs && ParseVersion(name).Some? }

  /** Lines with a line feed between them. */
  function Joined(lines: seq<string>): string {
    if lines == [] then "" else if |lines| == 1 then lines[0] else lines[0] + "\n" + Joined(lines[1..])
  }

  function RemovePrefix(path: string): string {
    if |path| >= 11 && path[..11] == "simulation/" then path[11..] else path
  }

  function EntryLines(path: string, name: string): seq<string> {
    ["    (",
     "        \"" + path + "\",",
     "        include_bytes!(concat!(",
     "            env!(\"CARGO_MANIFEST_DIR\"),",
     "            \"/../../catalogs/racing/" + name + "/simulation/" + path + "\"",
     "        )),",
     "    ),"]
  }

  function AllEntries(list: seq<Resource>, name: string): seq<string> {
    if list == [] then [] else EntryLines(RemovePrefix(list[0].path), name) + AllEntries(list[1..], name)
  }

  function EmbeddedText(list: seq<Resource>, name: string, constant: string): string {
    Joined(["// Generated by scripts/generate-racing-catalog.py; do not edit.",
            "const " + constant + ": &[(&str, &[u8])] = &["] + AllEntries(list, name) + ["];", ""])
  }

  /** Seven lines per resource, in order. */
  lemma {:induction false} EntriesAre(list: seq<Resource>, name: string, i: nat, k: nat)
    requires i < |list| && k < 7
    ensures |AllEntries(list, name)| == 7 * |list|
    ensures AllEntries(list, name)[7 * i + k] == EntryLines(RemovePrefix(list[i].path), name)[k]
  {
    hide EntryLines, RemovePrefix;
    EntriesCount(list, name);
    EntryLength(RemovePrefix(list[0].path), name);
    EntriesCount(list[1..], name);
    if i > 0 {
      EntriesAre(list[1..], name, i - 1, k);
      assert 7 * i + k - 7 == 7 * (i - 1) + k;
    }
  }

  lemma EntryLength(path: string, name: string)
    ensures |EntryLines(path, name)| == 7
  {
  }

  /** The second line names the path below the pack, the fifth the file below the release. */
  lemma EntryNames(path: string, name: string, full: string)
    requires full == "simulation/" + path
    ensures RemovePrefix(full) == path
    ensures EntryLines(path, name)[1] == "        \"" + path + "\","
    ensures EntryLines(path, name)[4] == "            \"/../../catalogs/racing/" + name + "/" + full + "\""
  {
    assert full[..11] == "simulation/" && full[11..] == path;
    PathInside(name, path, full);
  }

  lemma PathInside(name: string, path: string, full: string)
    requires full == "simulation/" + path
    ensures "            \"/../../catalogs/racing/" + name + "/simulation/" + path + "\"" ==
            "            \"/../../catalogs/racing/" + name + "/" + full + "\""
  {
    assert "/simulation/" == "/" + "simulation/";
  }

  lemma {:induction false} EntriesCount(list: seq<Resource>, name: string)
    ensures |AllEntries(list, name)| == 7 * |list|
  {
    hide EntryLines;
    if list != [] {
      EntryLength(RemovePrefix(list[0].path), name);
      EntriesCount(list[1..], name);
    }
  }

  const TABLES: set<string> := {
    "racing_catalog_v1.rs", "racing_catalog_model_v2.rs", "racing_catalog_model_v3_thermal.rs",
    "racing_catalog_model_v3_component.rs", "racing_catalog_model_v3_timeline.rs",
    "racing_catalog_model_v3_fuel_contract.rs"}

  /** The release and constant name behind each embedded table. */
  function EmbeddingOf(table: string, selected: string): (string, string) {
    if table == "racing_catalog_v1.rs" then (selected, "EMBEDDED_FILES")
    else if table == "racing_catalog_model_v2.rs" then ("v1.2.0", "MODEL_V2_EMBEDDED_FILES")
    else if table == "racing_catalog_model_v3_thermal.rs" then ("v1.5.0", "MODEL_V3_THERMAL_EMBEDDED_FILES")
    else if table == "racing_catalog_model_v3_component.rs" then ("v1.6.0", "MODEL_V3_COMPONENT_EMBEDDED_FILES")
    else if table == "racing_catalog_model_v3_timeline.rs" then ("v1.8.0", "MODEL_V3_TIMELINE_EMBEDDED_FILES")
    else ("v1.9.0", "MODEL_V3_FUEL_CONTRACT_EMBEDDED_FILES")
  }

  /** Each table by its release: the selected one, and those of the five model lines. */
  lemma EmbeddingsAre(selected: string)
    ensures EmbeddingOf("racing_catalog_v1.rs", selected) == (selected, "EMBEDDED_FILES")
    ensures EmbeddingOf("racing_catalog_model_v2.rs", selected) == ("v1.2.0", "MODEL_V2_EMBEDDED_FILES")
    ensures EmbeddingOf("racing_catalog_model_v3_thermal.rs", selected) == ("v1.5.0", "MODEL_V3_THERMAL_EMBEDDED_FILES")
    ensures EmbeddingOf("racing_catalog_model_v3_component.rs", selected) == ("v1.6.0", "MODEL_V3_COMPONENT_EMBEDDED_FILES")
    ensures EmbeddingOf("racing_catalog_model_v3_timeline.rs", selected) == ("v1.8.0", "MODEL_V3_TIMELINE_EMBEDDED_FILES")
    ensures EmbeddingOf("racing_catalog_model_v3_fuel_contract.rs", selected) ==
      ("v1.9.0", "MODEL_V3_FUEL_CONTRACT_EMBEDDED_FILES")
  {
  }

  /** The release named by LATEST, when there is one. */
  function Selected(tools: Tools, dirs: set<string>, files: map<File, Bytes>): Option<string> {
    if Latest !in files || tools.strip(files[Latest]).None? then None else
    var name := "v" + tools.strip(files[Latest]).value;
    if name in Releases(dirs) then Some(name) else None
  }

  /** The selected release is the existing one that LATEST names. */
  lemma SelectedMeans(tools: Tools, dirs: set<string>, files: map<File, Bytes>, version: string)
    ensures Selected(tools, dirs, files) == Some("v" + version) <==>
      && Latest in files && tools.strip(files[Latest]) == Some(version)
      && "v" + version in dirs && ParseVersion("v" + version).Some?
  {
    hide ParseVersion;
    if Latest in files && tools.strip(files[Latest]).Some? {
      var other := tools.strip(files[Latest]).value;
      assert ("v" + other)[1..] == other && ("v" + version)[1..] == version;
    }
  }

  ghost predicate ReleasePart(tools: Tools, name: string, files: map<File, Bytes>, artifacts: map<File, Bytes>) {
    var inputs := Inputs(TreeOf(files, name));
    && Releasable(tools, name, inputs)
    && forall path :: path in OUTPUTS ==>
         && InRelease(name, path) in artifacts && path in ReleaseOutput(tools, name, inputs)
         && artifacts[InRelease(name, path)] == ReleaseOutput(tools, name, inputs)[path]
  }

  ghost predicate TablePart(
    tools: Tools, table: string, selected: string, files: map<File, Bytes>, artifacts: map<File, Bytes>)
  {
    var plan := EmbeddingOf(table, selected);
    var list := ResourceList(tools.codec, Inputs(TreeOf(files, plan.0)));
    && list.Some? && Embedded(table) in artifacts
    && artifacts[Embedded(table)] == tools.utf8(EmbeddedText(list.value, plan.0, plan.1))
  }

  function OutputFiles(names: set<string>, tables: set<string>): set<File> {
    (set name, path | name in names && path in OUTPUTS :: InRelease(name, path)) + (set table | table in tables :: Embedded(table))
  }

  /** The artifacts of a repository state: three files per release and the embedded tables, no others. */
  ghost predicate IsArtifacts(tools: Tools, dirs: set<string>, files: map<File, Bytes>, artifacts: map<File, Bytes>) {
    && Releases(dirs) != {} && Selected(tools, dirs, files).Some?
    && artifacts.Keys == OutputFiles(Releases(dirs), TABLES)
    && (forall name :: name in Releases(dirs) ==> ReleasePart(tools, name, files, artifacts))
    && (forall table :: table in TABLES ==> TablePart(tools, table, Selected(tools, dirs, files).value, files, artifacts))
  }

  lemma ReleasePartsAgree(
    tools: Tools, name: string, files: map<File, Bytes>, a: map<File, Bytes>, b: map<File, Bytes>, path: string)
    requires ReleasePart(tools, name, files, a) && ReleasePart(tools, name, files, b) && path in OUTPUTS
    ensures InRelease(name, path) in a && InRelease(name, path) in b && a[InRelease(name, path)] == b[InRelease(name, path)]
  {
    hide Releasable, ReleaseOutput, Inputs, TreeOf;
  }

  lemma TablePartsAgree(
    tools: Tools, table: string, selected: string, files: map<File, Bytes>, a: map<File, Bytes>, b: map<File, Bytes>)
    requires TablePart(tools, table, selected, files, a) && TablePart(tools, table, selected, files, b)
    ensures Embedded(table) in a && Embedded(table) in b && a[Embedded(table)] == b[Embedded(table)]
  {
    hide ResourceList, EmbeddedText, EmbeddingOf, Inputs, TreeOf;
  }

  lemma ArtifactsUnique(
    tools: Tools, dirs: set<string>, files: map<File, Bytes>, a: map<File, Bytes>, b: map<File, Bytes>)
    requires IsArtifacts(tools, dirs, files, a) && IsArtifacts(tools, dirs, files, b)
    ensures a == b
  {
    hide ReleasePart, TablePart, Selected, Releases;
    forall f | f in a ensures f in b && a[f] == b[f] {
      assert f in OutputFiles(Releases(dirs), TABLES);
      if f.InRelease? {
        ReleasePartsAgree(tools, f.name, files, a, b, f.relative);
      } else {
        TablePartsAgree(tools, f.fileName, Selected(tools, dirs, files).value, files, a, b);
      }
    }
  }

  /** Writing artifacts changes no input of any release. */
  lemma WritingKeepsInputs(files: map<File, Bytes>, artifacts: map<File, Bytes>, names: set<string>, name: string)
    requires artifacts.Keys == OutputFiles(names, TABLES)
    ensures Inputs(TreeOf(files + artifacts, name)) == Inputs(TreeOf(files, name))
    ensures Latest !in artifacts
  {
    hide Inputs;
    var before, after := TreeOf(files, name), TreeOf(files + artifacts, name);
    forall path | path !in OUTPUTS
      ensures (path in before <==> path in after) && (path in before ==> after[path] == before[path])
    {
      TreeLookup(files, name, path);
      TreeLookup(files + artifacts, name, path);
      assert InRelease(name, path) !in artifacts;
    }
    InputsKept(before, after);
  }

  lemma TreeLookup(files: map<File, Bytes>, name: string, path: string)
    ensures path in TreeOf(files, name) <==> InRelease(name, path) in files
    ensures path in TreeOf(files, name) ==> TreeOf(files, name)[path] == files[InRelease(name, path)]
  {
    if InRelease(name, path) in files {
      assert InRelease(name, path).relative in TreeOf(files, name);
    }
  }

  /** Generation is a fixpoint: the artifacts of the written state are the artifacts that were written. */
  lemma GenerationFixpoint(tools: Tools, dirs: set<string>, files: map<File, Bytes>, artifacts: map<File, Bytes>)
    requires IsArtifacts(tools, dirs, files, artifacts)
    ensures IsArtifacts(tools, dirs, files + artifacts, artifacts)
  {
    hide Releasable, ReleaseOutput, EmbeddedText, EmbeddingOf, Inputs, TreeOf, Releases, ResourceList;
    var after := files + artifacts;
    forall name ensures Inputs(TreeOf(after, name)) == Inputs(TreeOf(files, name)) && Latest !in artifacts {
      WritingKeepsInputs(files, artifacts, Releases(dirs), name);
    }
    assert Selected(tools, dirs, after) == Selected(tools, dirs, files);
    forall name | name in Releases(dirs) ensures ReleasePart(tools, name, after, artifacts) {
      assert ReleasePart(tools, name, files, artifacts);
    }
    forall table | table in TABLES ensures TablePart(tools, table, Selected(tools, dirs, files).value, after, artifacts) {
      assert TablePart(tools, table, Selected(tools, dirs, files).value, files, artifacts);
    }
  }

  lemma OutputCarried(tools: Tools, name: string, files: map<File, Bytes>, artifacts: map<File, Bytes>)
    requires ReleasePart(tools, name, files, artifacts)
    ensures Carries(TreeOf(files + artifacts, name), ReleaseOutput(tools, name, Inputs(TreeOf(files, name))))
  {
    hide Releasable, Inputs, TreeOf, ResourceList, ManifestJson, IndexJson, IdentityJson;
    var tree, output := TreeOf(files + artifacts, name), ReleaseOutput(tools, name, Inputs(TreeOf(files, name)));
    OutputKeys(tools, name, Inputs(TreeOf(files, name)));
    forall path | path in output ensures path in tree && tree[path] == output[path] {
      TreeLookup(files + artifacts, name, path);
    }
  }

  lemma OutputKeys(tools: Tools, name: string, inputs: Tree)
    requires Releasable(tools, name, inputs)
    ensures ReleaseOutput(tools, name, inputs).Keys == OUTPUTS
  {
    hide ResourceList, ManifestJson, IndexJson, IdentityJson, Compatibility;
  }

  /** After writing, every release passes the independent validator. */
  lemma ProducerMeetsChecker(
    tools: Tools, dirs: set<string>, files: map<File, Bytes>, artifacts: map<File, Bytes>, name: string)
    requires PrettyParses(tools.codec) && IsArtifacts(tools, dirs, files, artifacts) && name in Releases(dirs)
    ensures ReleaseValid(tools.codec, "racing", name, TreeOf(files + artifacts, name))
  {
    hide Releasable, ReleaseOutput, ReleaseValid, Inputs, TreeOf, Selected, ParseVersion, PrettyParses, OutputFiles, Carries;
    assert ReleasePart(tools, name, files, artifacts);
    WritingKeepsInputs(files, artifacts, Releases(dirs), name);
    OutputCarried(tools, name, files, artifacts);
    GeneratedReleaseValid(tools, name, TreeOf(files + artifacts, name));
  }

  /** The files whose content is missing or differs. */
  function Stale(files: map<File, Bytes>, artifacts: map<File, Bytes>): set<File> {
    set f | f in artifacts && (f !in files || files[f] != artifacts[f])
  }

  /** A state with nothing stale is publishable as it is. */
  lemma CheckedStateValid(
    tools: Tools, dirs: set<string>, files: map<File, Bytes>, artifacts: map<File, Bytes>, name: string)
    requires PrettyParses(tools.codec) && IsArtifacts(tools, dirs, files, artifacts) && name in Releases(dirs)
    requires Stale(files, artifacts) == {}
    ensures ReleaseValid(tools.codec, "racing", name, TreeOf(files, name))
  {
    hide IsArtifacts, ReleaseValid, TreeOf;
    forall f | f in artifacts ensures f in files && files[f] == artifacts[f] {
      assert f !in Stale(files, artifacts);
    }
    assert files + artifacts == files;
    ProducerMeetsChecker(tools, dirs, files, artifacts, name);
  }

  // ----- The generator command -----

  /** Repository states the generator accepts. */
  ghost predicate Generable(tools: Tools, dirs: set<string>, files: map<File, Bytes>) {
    && Releases(dirs) != {} && Selected(tools, dirs, files).Some?
    && AllReleasable(tools, files, Releases(dirs)) && AllTables(tools, files, TABLES, Selected(tools, dirs, files).value)
  }

  ghost predicate HasTable(tools: Tools, files: map<File, Bytes>, name: string) {
    ResourceList(tools.codec, Inputs(TreeOf(files, name))).Some?
  }

  function Placed(name: string, output: Tree): map<File, Bytes> {
    map path | path in output :: InRelease(name, path) := output[path]
  }

  /** Releases and tables done so far. */
  ghost predicate Partial(
    tools: Tools, files: map<File, Bytes>, names: set<string>, tables: set<string>, selected: string,
    artifacts: map<File, Bytes>)
  {
    && artifacts.Keys == OutputFiles(names, tables)
    && (forall name :: name in names ==> ReleasePart(tools, name, files, artifacts))
    && (forall table :: table in tables ==> TablePart(tools, table, selected, files, artifacts))
  }

  lemma ReleasePartKept(
    tools: Tools, name: string, files: map<File, Bytes>, a: map<File, Bytes>, b: map<File, Bytes>)
    requires ReleasePart(tools, name, files, a)
    requires forall path :: path in OUTPUTS && InRelease(name, path) in a ==>
      InRelease(name, path) in b && b[InRelease(name, path)] == a[InRelease(name, path)]
    ensures ReleasePart(tools, name, files, b)
  {
    hide Releasable, ReleaseOutput, Inputs, TreeOf;
  }

  lemma PlacedPart(tools: Tools, name: string, files: map<File, Bytes>, before: map<File, Bytes>)
    requires Releasable(tools, name, Inputs(TreeOf(files, name)))
    ensures
      var placed := Placed(name, ReleaseOutput(tools, name, Inputs(TreeOf(files, name))));
      && placed.Keys == (set path | path in OUTPUTS :: InRelease(name, path))
      && ReleasePart(tools, name, files, before + placed)
  {
    hide Releasable, ReleaseOutput, Inputs, TreeOf;
    OutputKeys(tools, name, Inputs(TreeOf(files, name)));
  }

  lemma AddRelease(
    tools: Tools, files: map<File, Bytes>, names: set<string>, selected: string, artifacts: map<File, Bytes>, name: string)
    requires Partial(tools, files, names, {}, selected, artifacts) && name !in names
    requires Releasable(tools, name, Inputs(TreeOf(files, name)))
    ensures Partial(tools, files, names + {name}, {}, selected,
      artifacts + Placed(name, ReleaseOutput(tools, name, Inputs(TreeOf(files, name)))))
  {
    hide Releasable, ReleaseOutput, ReleasePart, Inputs, TreeOf, Placed;
    var placed := Placed(name, ReleaseOutput(tools, name, Inputs(TreeOf(files, name))));
    PlacedPart(tools, name, files, artifacts);
    forall n | n in names ensures ReleasePart(tools, n, files, artifacts + placed) {
      ReleasePartKept(tools, n, files, artifacts, artifacts + placed);
    }
    assert OutputFiles(names + {name}, {}) == OutputFiles(names, {}) + set path | path in OUTPUTS :: InRelease(name, path);
  }

  lemma AddTable(
    tools: Tools, files: map<File, Bytes>, names: set<string>, tables: set<string>, selected: string,
    artifacts: map<File, Bytes>, table: string, bytes: Bytes)
    requires Partial(tools, files, names, tables, selected, artifacts) && table !in tables
    requires TablePart(tools, table, selected, files, map[Embedded(table) := bytes])
    ensures Partial(tools, files, names, tables + {table}, selected, artifacts[Embedded(table) := bytes])
  {
    hide ReleasePart, EmbeddingOf, EmbeddedText, ResourceList, Inputs, TreeOf;
    var artifacts' := artifacts[Embedded(table) := bytes];
    forall n | n in names ensures ReleasePart(tools, n, files, artifacts') {
      ReleasePartKept(tools, n, files, artifacts, artifacts');
    }
    forall t | t in tables + {table} ensures TablePart(tools, t, selected, files, artifacts') {
      if t != table {
        assert TablePart(tools, t, selected, files, artifacts);
      }
    }
  }

  ghost predicate AllReleasable(tools: Tools, files: map<File, Bytes>, names: set<string>) {
    forall name :: name in names ==> Releasable(tools, name, Inputs(TreeOf(files, name)))
  }

  ghost predicate AllTables(tools: Tools, files: map<File, Bytes>, tables: set<string>, selected: string) {
    forall table :: table in tables ==> HasTable(tools, files, EmbeddingOf(table, selected).0)
  }

  method GenerateReleases(tools: Tools, files: map<File, Bytes>, names: set<string>) returns (r: Result<map<File, Bytes>>)
    requires forall name :: name in names ==> ParseVersion(name).Some?
    ensures r.Ok? <==> AllReleasable(tools, files, names)
    ensures r.Ok? ==> Partial(tools, files, names, {}, "", r.value)
  {
    hide Partial, Releasable, ReleaseOutput, ParseVersion, Inputs, TreeOf, Placed;
    var artifacts: map<File, Bytes> := map[];
    NothingYet(tools, files);
    var pending := names;
    assert names - pending == {};
    while pending != {}
      invariant pending <= names
      invariant Partial(tools, files, names - pending, {}, "", artifacts)
      invariant AllReleasable(tools, files, names - pending)
      decreases |pending|
    {
      var name :| name in pending;
      var output := GenerateRelease(tools, name, TreeOf(files, name));
      if output.Err? {
        return Err(output.error);
      }
      AddRelease(tools, files, names - pending, "", artifacts, name);
      assert names - (pending - {name}) == names - pending + {name};
      artifacts := artifacts + Placed(name, output.value);
      pending := pending - {name};
    }
    assert names - pending == names;
    r := Ok(artifacts);
  }

  method GenerateTables(
    tools: Tools, files: map<File, Bytes>, ghost names: set<string>, selected: string, releases: map<File, Bytes>)
    returns (r: Result<map<File, Bytes>>)
    requires Partial(tools, files, names, {}, selected, releases)
    ensures r.Ok? <==> AllTables(tools, files, TABLES, selected)
    ensures r.Ok? ==> Partial(tools, files, names, TABLES, selected, r.value)
  {
    hide Partial, TablePart, EmbeddingOf, EmbeddedText, Inputs, TreeOf, HasTable, Indexed;
    var artifacts, left := releases, TABLES;
    assert TABLES - left == {};
    while left != {}
      invariant left <= TABLES
      invariant Partial(tools, files, names, TABLES - left, selected, artifacts)
      invariant AllTables(tools, files, TABLES - left, selected)
      decreases |left|
    {
      var table :| table in left;
      var plan := EmbeddingOf(table, selected);
      var list := SimulationResources(tools.codec, Inputs(TreeOf(files, plan.0)));
      TableBytes(tools, table, selected, files, list);
      if list.Err? {
        return Err(list.error);
      }
      var bytes := tools.utf8(EmbeddedText(list.value, plan.0, plan.1));
      AddTable(tools, files, names, TABLES - left, selected, artifacts, table, bytes);
      assert TABLES - (left - {table}) == TABLES - left + {table};
      artifacts := artifacts[Embedded(table) := bytes];
      left := left - {table};
    }
    assert TABLES - left == TABLES;
    r := Ok(artifacts);
  }

  /** Computes every artifact before anything is written. */
  method GenerateArtifacts(tools: Tools, dirs: set<string>, files: map<File, Bytes>) returns (r: Result<map<File, Bytes>>)
    ensures r.Ok? <==> Generable(tools, dirs, files)
    ensures r.Ok? ==> IsArtifacts(tools, dirs, files, r.value)
  {
    hide AllReleasable, AllTables, ParseVersion, ReleasePart, TablePart, OutputFiles;
    var names := Releases(dirs);
    if names == {} {
      return Err("no immutable release");
    }
    var releases := GenerateReleases(tools, files, names);
    if releases.Err? {
      return Err(releases.error);
    }
    var selected := Selected(tools, dirs, files);
    if selected.None? {
      return Err("selected release does not exist");
    }
    assert Partial(tools, files, names, {}, selected.value, releases.value);
    r := GenerateTables(tools, files, names, selected.value, releases.value);
  }

  lemma NothingYet(tools: Tools, files: map<File, Bytes>)
    ensures Partial(tools, files, {}, {}, "", map[])
  {
  }

  lemma TableBytes(tools: Tools, table: string, selected: string, files: map<File, Bytes>, list: Result<seq<Resource>>)
    requires var inputs := Inputs(TreeOf(files, EmbeddingOf(table, selected).0));
      && (list.Ok? <==> exists l :: Indexed(tools.codec, inputs, l))
      && (list.Ok? ==> Indexed(tools.codec, inputs, list.value))
    ensures list.Ok? <==> HasTable(tools, files, EmbeddingOf(table, selected).0)
    ensures list.Ok? ==>
      var plan := EmbeddingOf(table, selected);
      TablePart(tools, table, selected, files, map[Embedded(table) := tools.utf8(EmbeddedText(list.value, plan.0, plan.1))])
  {
    hide Indexed, EmbeddedText, EmbeddingOf, Inputs, TreeOf;
    if list.Ok? {
      ResourceListIs(tools.codec, Inputs(TreeOf(files, EmbeddingOf(table, selected).0)), list.value);
    }
  }

  function Without(artifacts: map<File, Bytes>, pending: set<File>): map<File, Bytes> {
    map f | f in artifacts && f !in pending :: artifacts[f]
  }

  lemma HandledNext(files: map<File, Bytes>, artifacts: map<File, Bytes>, pending: set<File>, path: File)
    requires path in pending && path in artifacts
    ensures files + Without(artifacts, pending - {path}) == (files + Without(artifacts, pending))[path := artifacts[path]]
    ensures Stale(files, Without(artifacts, pending - {path})) == Stale(files, Without(artifacts, pending)) +
      (if path !in files || files[path] != artifacts[path] then {path} else {})
  {
  }

  lemma HandledEnds(files: map<File, Bytes>, artifacts: map<File, Bytes>)
    ensures Without(artifacts, {}) == artifacts
    ensures files + Without(artifacts, artifacts.Keys) == files && Stale(files, Without(artifacts, artifacts.Keys)) == {}
  {
    assert Without(artifacts, artifacts.Keys) == map[];
  }

  /** The repository the command works on. */
  class Repository {
    var dirs: set<string>
    var files: map<File, Bytes>

    constructor (dirs: set<string>, files: map<File, Bytes>)
      ensures this.dirs == dirs && this.files == files
    {
      this.dirs, this.files := dirs, files;
    }

    /** Writes every artifact, or in check mode only names the stale ones; a refused state is left alone. */
    method Generate(tools: Tools, check: bool) returns (r: Result<set<File>>, ghost artifacts: map<File, Bytes>)
      modifies this`files
      ensures r.Ok? <==> Generable(tools, dirs, old(files))
      ensures r.Ok? ==> IsArtifacts(tools, dirs, old(files), artifacts)
      ensures r.Ok? && check ==> r.value == Stale(old(files), artifacts)
      ensures r.Ok? && !check ==> r.value == {}
      ensures files == if r.Ok? && !check then old(files) + artifacts else old(files)
    {
      hide Generable, IsArtifacts, Stale, Without;
      var generated := GenerateArtifacts(tools, dirs, files);
      if generated.Err? {
        return Err(generated.error), map[];
      }
      artifacts := generated.value;
      HandledEnds(files, artifacts);
      var stale: set<File> := {};
      var pending := generated.value.Keys;
      while pending != {}
        invariant pending <= artifacts.Keys
        invariant files == if check then old(files) else old(files) + Without(artifacts, pending)
        invariant stale == if check then Stale(old(files), Without(artifacts, pending)) else {}
        decreases |pending|
      {
        var path :| path in pending;
        HandledNext(old(files), artifacts, pending, path);
        if check {
          if path !in files || files[path] != generated.value[path] {
            stale := stale + {path};
          }
        } else {
          files := files[path := generated.value[path]];
        }
        pending := pending - {path};
      }
      r := Ok(stale);
    }

    /** An immediate check after writing reports nothing stale. */
    method GenerateThenCheck(tools: Tools) returns (written: Result<set<File>>, checked: Result<set<File>>)
      modifies this`files
      ensures written.Ok? <==> Generable(tools, dirs, old(files))
      ensures written.Ok? ==> checked == Ok({})
      ensures written.Ok? && PrettyParses(tools.codec) ==>
        forall name :: name in Releases(dirs) ==> ReleaseValid(tools.codec, "racing", name, TreeOf(files, name))
    {
      hide Generable, IsArtifacts, ReleaseValid, TreeOf, Releases, PrettyParses;
      ghost var before := files;
      ghost var a, b;
      written, a := Generate(tools, false);
      if written.Ok? {
        GenerationFixpoint(tools, dirs, before, a);
        ArtifactsGenerable(tools, dirs, files, a);
        if PrettyParses(tools.codec) {
          forall name | name in Releases(dirs) ensures ReleaseValid(tools.codec, "racing", name, TreeOf(before + a, name)) {
            ProducerMeetsChecker(tools, dirs, before, a, name);
          }
        }
      }
      checked, b := Generate(tools, true);
      if written.Ok? {
        ArtifactsUnique(tools, dirs, before + a, a, b);
        assert Stale(before + a, a) == {};
      }
    }
  }

  lemma ArtifactsGenerable(tools: Tools, dirs: set<string>, files: map<File, Bytes>, artifacts: map<File, Bytes>)
    requires IsArtifacts(tools, dirs, files, artifacts)
    ensures Generable(tools, dirs, files)
  {
    hide ReleaseOutput, Inputs, TreeOf, Selected, Releases, ResourceList, EmbeddingOf, EmbeddedText;
    forall name | name in Releases(dirs) ensures Releasable(tools, name, Inputs(TreeOf(files, name))) {
      assert ReleasePart(tools, name, files, artifacts);
    }
    forall table | table in TABLES ensures HasTable(tools, files, EmbeddingOf(table, Selected(tools, dirs, files).value).0) {
      assert TablePart(tools, table, Selected(tools, dirs, files).value, files, artifacts);
    }
  }
}
