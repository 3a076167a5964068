/** JSON values, the library encoders and the release names shared by the catalog tools. */
module CatalogFormat {
  import opened Binary
  import Integers
  import opened Results

  /** A release directory: file contents by path relative to the directory. */
  type Tree = map<string, Bytes>

  datatype Json =
    | Null
    | Bool(truth: bool)
    | Number(numeral: string)
    | Str(text: string)
    | Arr(items: seq<Json>)
    | Obj(fields: map<string, Json>)

  /** JSON text and digests come from libraries: canonical and pretty text, parsing, SHA-256, the str() of a value. */
  datatype Codec = Codec(
    canonical: Json -> Bytes, pretty: Json -> Bytes, parse: Bytes -> Option<Json>, digest: Bytes -> string,
    show: Json -> string)

  ghost predicate CanonicalInjective(c: Codec) { forall a, b :: c.canonical(a) == c.canonical(b) ==> a == b }
  ghost predicate CollisionFree(c: Codec) { forall a, b :: c.digest(a) == c.digest(b) ==> a == b }
  ghost predicate PrettyParses(c: Codec) { forall j :: c.parse(c.pretty(j)) == Some(j) }

  function Field(j: Option<Json>, key: string): Option<Json> {
    if j.Some? && j.value.Obj? && key in j.value.fields then Some(j.value.fields[key]) else None
  }

  function Load(c: Codec, tree: Tree, path: string): Option<Json> {
    if path != "" && path in tree then c.parse(tree[path]) else None
  }

  function JsonDigest(c: Codec, j: Json): string { c.digest(c.canonical(j)) }

  // ----- Release names: v, then three dotted numerals without leading zeros -----

  predicate Numeral(s: string) {
    s != "" && (forall i :: 0 <= i < |s| ==> '0' <= s[i] <= '9') && (s[0] == '0' ==> |s| == 1)
  }

  function NumeralValue(s: string): int {
    if s == "" then 0 else NumeralValue(s[..|s| - 1]) * 10 + (s[|s| - 1] as int - '0' as int)
  }

  /** The text before the first separator, and the text after it when there is one. */
  function Before(s: string, mark: char): string {
    if s == "" || s[0] == mark then "" else [s[0]] + Before(s[1..], mark)
  }

  function After(s: string, mark: char): Option<string> {
    if s == "" then None else if s[0] == mark then Some(s[1..]) else After(s[1..], mark)
  }

  /** The version key of a release directory name; None when the name is not a stable version. */
  function ParseVersion(name: string): Option<(int, int, int)> {
    if name == "" || name[0] != 'v' then None else
    var first, rest := Before(name[1..], '.'), After(name[1..], '.');
    if rest.None? then None else
    var second, third := Before(rest.value, '.'), After(rest.value, '.');
    if third.None? || !Numeral(first) || !Numeral(second) || !Numeral(third.value) then None else
    Some((NumeralValue(first), NumeralValue(second), NumeralValue(third.value)))
  }

  lemma {:induction false} SplitAtMark(a: string, mark: char, b: string)
    requires mark !in a
    ensures Before(a + [mark] + b, mark) == a && After(a + [mark] + b, mark) == Some(b)
  {
    var s := a + [mark] + b;
    if a == "" {
      assert s[0] == mark && s[1..] == b;
    } else {
      assert s[0] == a[0] && s[1..] == a[1..] + [mark] + b;
      SplitAtMark(a[1..], mark, b);
      assert a == [a[0]] + a[1..];
    }
  }

  lemma {:induction false} JoinAtMark(s: string, mark: char)
    ensures mark !in Before(s, mark)
    ensures After(s, mark).Some? ==> s == Before(s, mark) + [mark] + After(s, mark).value
  {
    if s != "" && s[0] != mark {
      JoinAtMark(s[1..], mark);
      assert s == [s[0]] + s[1..];
    } else if s != "" {
      assert s == [mark] + s[1..];
    }
  }

  function Figure(d: nat): char
    requires d < 10
  {
    (d + '0' as int) as char
  }

  /** The usual decimal numeral. */
  function Decimal(n: nat): string { if n < 10 then [Figure(n)] else Decimal(n / 10) + [Figure(n % 10)] }

  lemma {:induction false} DecimalIsNumeral(n: nat)
    ensures Numeral(Decimal(n)) && NumeralValue(Decimal(n)) == n
    ensures n > 0 ==> Decimal(n)[0] != '0'
  {
    var s := Decimal(n);
    if n >= 10 {
      DecimalIsNumeral(n / 10);
      assert s[..|s| - 1] == Decimal(n / 10);
      assert s[0] == Decimal(n / 10)[0];
    } else {
      assert s[..0] == "" && NumeralValue("") == 0;
    }
  }

  lemma DecimalAppend(v: nat, d: nat)
    requires v > 0 && d < 10
    ensures Decimal(v * 10 + d) == Decimal(v) + [Figure(d)]
  {
    Integers.DivUnique(v * 10 + d, 10, v, d);
  }

  lemma FigureOf(c: char)
    requires '0' <= c <= '9'
    ensures 0 <= c as int - '0' as int < 10 && Figure(c as int - '0' as int) == c
  {
  }

  lemma NumeralSplit(s: string)
    requires Numeral(s)
    ensures '0' <= s[|s| - 1] <= '9' && s == s[..|s| - 1] + [s[|s| - 1]]
    ensures |s| > 1 ==> Numeral(s[..|s| - 1]) && s[0] != '0'
  {
  }

  lemma {:induction false} NumeralIsDecimal(s: string)
    requires Numeral(s)
    ensures NumeralValue(s) >= 0 && Decimal(NumeralValue(s)) == s
    ensures NumeralValue(s) == 0 ==> s == "0"
  {
    NumeralSplit(s);
    var front, last := s[..|s| - 1], s[|s| - 1];
    FigureOf(last);
    var d: nat := last as int - '0' as int;
    assert NumeralValue(s) == NumeralValue(front) * 10 + d;
    hide Numeral, Figure;
    if |s| == 1 {
      assert front == "" && NumeralValue("") == 0;
      OneFigure(d, last);
    } else {
      NumeralIsDecimal(front);
      assert front[0] == s[0];
      DecimalAppend(NumeralValue(front), d);
    }
  }

  lemma OneFigure(d: nat, c: char)
    requires d < 10 && Figure(d) == c
    ensures Decimal(d) == [c] && (d == 0 ==> c == '0')
  {
  }

  /** Release names are exactly v and three decimal numerals with dots between them, and give those numbers. */
  lemma VersionNames(name: string, a: nat, b: nat, c: nat)
    ensures ParseVersion(name) == Some((a, b, c)) <==> name == "v" + Decimal(a) + "." + Decimal(b) + "." + Decimal(c)
    ensures ParseVersion(name).Some? ==>
      var k := ParseVersion(name).value; k.0 >= 0 && k.1 >= 0 && k.2 >= 0
  {
    hide ParseVersion, Decimal;
    VersionOfNumbers(a, b, c);
    if ParseVersion(name).Some? {
      VersionParts(name);
    }
  }

  lemma VersionOfNumbers(a: nat, b: nat, c: nat)
    ensures ParseVersion("v" + Decimal(a) + "." + Decimal(b) + "." + Decimal(c)) == Some((a, b, c))
  {
    hide Numeral, NumeralValue, Before, After, Decimal;
    DecimalIsNumeral(a);
    DecimalIsNumeral(b);
    DecimalIsNumeral(c);
    NoDot(Decimal(a));
    NoDot(Decimal(b));
    var tail := Decimal(b) + ['.'] + Decimal(c);
    SplitAtMark(Decimal(a), '.', tail);
    SplitAtMark(Decimal(b), '.', Decimal(c));
    var full := "v" + Decimal(a) + "." + Decimal(b) + "." + Decimal(c);
    assert full[1..] == Decimal(a) + ['.'] + tail;
    assert full[0] == 'v';
  }

  lemma NoDot(s: string)
    requires Numeral(s)
    ensures '.' !in s
  {
  }

  lemma VersionParts(name: string)
    requires ParseVersion(name).Some?
    ensures var k := ParseVersion(name).value;
      && k.0 >= 0 && k.1 >= 0 && k.2 >= 0
      && name == "v" + Decimal(k.0) + "." + Decimal(k.1) + "." + Decimal(k.2)
  {
    hide Numeral, NumeralValue, Before, After, Decimal;
    var first, rest := Before(name[1..], '.'), After(name[1..], '.').value;
    var second, third := Before(rest, '.'), After(rest, '.').value;
    JoinAtMark(name[1..], '.');
    JoinAtMark(rest, '.');
    NumeralIsDecimal(first);
    NumeralIsDecimal(second);
    NumeralIsDecimal(third);
    assert name == "v" + name[1..];
    assert name == "v" + first + "." + second + "." + third;
  }

  lemma VersionStartsWithV(name: string)
    requires ParseVersion(name).Some?
    ensures name != "" && name == "v" + name[1..]
  {
  }
}

/** The independent validator of scripts/build-catalog-site.py and what its acceptance binds. */
module CatalogSite {
  import opened Binary
  import opened CatalogFormat
  import opened Results

  /** The path text a record names: str() of the field, empty when it is missing. */
  function PathText(c: Codec, path: Option<Json>): string {
    match path
    case None => ""
    case Some(Str(text)) => text
    case Some(other) => c.show(other)
  }

  function ManifestOf(c: Codec, tree: Tree): Option<Json> { Load(c, tree, "catalog.json") }

  function IndexEntry(manifest: Option<Json>, pack: string): Option<Json> { Field(Field(manifest, pack), "index") }

  function IndexPath(c: Codec, manifest: Option<Json>, pack: string): string {
    PathText(c, Field(IndexEntry(manifest, pack), "path"))
  }

  /** The index a pack of the release points at. */
  function PackIndex(c: Codec, tree: Tree, pack: string): Option<Json> {
    Load(c, tree, IndexPath(c, ManifestOf(c, tree), pack))
  }

  /** The resource records of the simulation index. */
  function Listed(c: Codec, tree: Tree): seq<Json> {
    match Field(PackIndex(c, tree, "simulation_pack"), "resources")
    case Some(Arr(items)) => items
    case _ => []
  }

  function ResourcePath(c: Codec, item: Json): string { PathText(c, Field(Some(item), "path")) }

  predicate NamesRelease(record: Option<Json>, domain: string, name: string)
    requires name != ""
  {
    Field(record, "id") == Some(Str("pitgun." + domain)) && Field(record, "version") == Some(Str(name[1..]))
  }

  predicate PackValid(c: Codec, tree: Tree, pack: string) {
    var manifest, index := ManifestOf(c, tree), PackIndex(c, tree, pack);
    && index.Some?
    && Field(IndexEntry(manifest, pack), "digest") == Some(Str(JsonDigest(c, index.value)))
    && Field(Field(Field(manifest, pack), "identity"), "digest") == Some(Str(JsonDigest(c, index.value)))
  }

  predicate ResourceValid(c: Codec, tree: Tree, item: Json) {
    var path := ResourcePath(c, item);
    path != "" && path in tree && Field(Some(item), "digest") == Some(Str(c.digest(tree[path])))
  }

  /** Manifest and identity name the release, and the identity carries the manifest's digest. */
  predicate MetadataValid(c: Codec, domain: string, name: string, manifest: Option<Json>, identity: Option<Json>)
    requires name != ""
  {
    && manifest.Some? && identity.Some?
    && NamesRelease(Field(manifest, "catalog"), domain, name) && NamesRelease(identity, domain, name)
    && Field(identity, "manifest_digest") == Some(Str(JsonDigest(c, manifest.value)))
  }

  /** A release whose identity, manifest, pack indexes and resource bytes all agree. */
  ghost predicate ReleaseValid(c: Codec, domain: string, name: string, tree: Tree) {
    var manifest, identity := ManifestOf(c, tree), Load(c, tree, "release.json");
    && ParseVersion(name).Some? && MetadataValid(c, domain, name, manifest, identity)
    && PackValid(c, tree, "simulation_pack") && PackValid(c, tree, "presentation_pack")
    && (exists text :: Field(IndexEntry(manifest, "simulation_pack"), "path") == Some(Str(text)))
    && Listed(c, tree) != []
    && forall i :: 0 <= i < |Listed(c, tree)| ==> ResourceValid(c, tree, Listed(c, tree)[i])
  }

  function PointerFor(domain: string, name: string, manifestDigest: string): Json
    requires name != ""
  {
    Obj(map[
      "schema_version" := Str("pitgun.catalog-pointer/v1"),
      "catalog" := Obj(map["id" := Str("pitgun." + domain), "version" := Str(name[1..])]),
      "manifest" := Obj(map["path" := Str(name + "/catalog.json"), "digest" := Str(manifestDigest)]),
      "release_identity" := Obj(map["path" := Str(name + "/release.json")])])
  }

  function PointerDigest(pointer: Json): Option<Json> { Field(Field(Some(pointer), "manifest"), "digest") }

  lemma PointerFields(domain: string, name: string, manifestDigest: string)
    ensures name != "" ==> PointerDigest(PointerFor(domain, name, manifestDigest)) == Some(Str(manifestDigest))
    ensures name != "" ==> PointerMeans(PointerFor(domain, name, manifestDigest), domain, name, manifestDigest)
  {
  }

  /** The published pointer: id, version, where the manifest is, its digest, and where the identity is. */
  ghost predicate PointerMeans(pointer: Json, domain: string, name: string, digest: string) {
    var p := Some(pointer);
    && name != "" && Field(p, "schema_version") == Some(Str("pitgun.catalog-pointer/v1"))
    && Field(Field(p, "catalog"), "id") == Some(Str("pitgun." + domain))
    && Field(Field(p, "catalog"), "version") == Some(Str(name[1..]))
    && Field(Field(p, "manifest"), "path") == Some(Str(name + "/catalog.json"))
    && Field(Field(p, "manifest"), "digest") == Some(Str(digest))
    && Field(Field(p, "release_identity"), "path") == Some(Str(name + "/release.json"))
  }

  lemma MetadataPresent(c: Codec, domain: string, name: string, manifest: Option<Json>, identity: Option<Json>)
    requires name != "" && MetadataValid(c, domain, name, manifest, identity)
    ensures manifest.Some? && identity.Some?
  {
  }

  method CheckMetadata(c: Codec, domain: string, name: string, manifest: Option<Json>, identity: Option<Json>)
    returns (ok: bool)
    requires name != ""
    ensures ok <==> MetadataValid(c, domain, name, manifest, identity)
  {
    if manifest.None? || identity.None? {
      return false;
    }
    var catalog, id := Field(manifest, "catalog"), Some(Str("pitgun." + domain));
    if Field(catalog, "id") != id || Field(catalog, "version") != Some(Str(name[1..])) {
      return false;
    }
    if Field(identity, "id") != id || Field(identity, "version") != Some(Str(name[1..])) {
      return false;
    }
    var digest := c.digest(c.canonical(manifest.value));
    ok := Field(identity, "manifest_digest") == Some(Str(digest));
  }

  method CheckPack(c: Codec, tree: Tree, pack: string) returns (ok: bool)
    ensures ok <==> PackValid(c, tree, pack)
  {
    var record := Field(ManifestOf(c, tree), pack);
    var identity, index := Field(record, "identity"), Field(record, "index");
    var loaded := Load(c, tree, PathText(c, Field(index, "path")));
    if loaded.None? {
      return false;
    }
    var digest := c.digest(c.canonical(loaded.value));
    if Field(index, "digest") != Some(Str(digest)) {
      return false;
    }
    ok := Field(identity, "digest") == Some(Str(digest));
  }

  method CheckPacks(c: Codec, tree: Tree) returns (ok: bool)
    ensures ok <==> PackValid(c, tree, "simulation_pack") && PackValid(c, tree, "presentation_pack")
  {
    hide PackValid;
    var packs := ["simulation_pack", "presentation_pack"];
    for k := 0 to 2
      invariant forall j :: 0 <= j < k ==> PackValid(c, tree, packs[j])
    {
      var valid := CheckPack(c, tree, packs[k]);
      if !valid {
        assert packs[k] == "simulation_pack" || packs[k] == "presentation_pack";
        return false;
      }
    }
    assert packs[0] == "simulation_pack" && packs[1] == "presentation_pack";
    ok := true;
  }

  method CheckResources(c: Codec, tree: Tree, resources: seq<Json>) returns (ok: bool)
    ensures ok <==> forall i :: 0 <= i < |resources| ==> ResourceValid(c, tree, resources[i])
  {
    for i := 0 to |resources|
      invariant forall j :: 0 <= j < i ==> ResourceValid(c, tree, resources[j])
    {
      var path := PathText(c, Field(Some(resources[i]), "path"));
      if path == "" || path !in tree {
        assert !ResourceValid(c, tree, resources[i]);
        return false;
      }
      if Field(Some(resources[i]), "digest") != Some(Str(c.digest(tree[path]))) {
        assert !ResourceValid(c, tree, resources[i]);
        return false;
      }
    }
    ok := true;
  }

  /** Accepts exactly the valid releases and returns the version key and the pointer to publish. */
  method ValidateRelease(c: Codec, domain: string, name: string, tree: Tree) returns (r: Result<((int, int, int), Json)>)
    ensures r.Ok? <==> ReleaseValid(c, domain, name, tree)
    ensures r.Ok? ==> Some(r.value.0) == ParseVersion(name)
    ensures r.Ok? ==> PointerDigest(r.value.1) == Some(Str(JsonDigest(c, ManifestOf(c, tree).value)))
    ensures r.Ok? ==> PointerMeans(r.value.1, domain, name, JsonDigest(c, ManifestOf(c, tree).value))
  {
    hide PackValid, ResourceValid, MetadataValid, ParseVersion, NamesRelease, PointerMeans, Listed, JsonDigest, Load;
    PointerFields(domain, name, if ManifestOf(c, tree).Some? then JsonDigest(c, ManifestOf(c, tree).value) else "");
    var key := ParseVersion(name);
    if key.None? {
      return Err("invalid release directory");
    }
    VersionStartsWithV(name);
    var manifest, identity := ManifestOf(c, tree), Load(c, tree, "release.json");
    var named := CheckMetadata(c, domain, name, manifest, identity);
    if !named {
      return Err("manifest or identity missing, misnamed or of another digest");
    }
    MetadataPresent(c, domain, name, manifest, identity);
    var manifestDigest := JsonDigest(c, manifest.value);
    var packed := CheckPacks(c, tree);
    if !packed {
      return Err("index digest mismatch");
    }
    var path := Field(IndexEntry(manifest, "simulation_pack"), "path");
    if path.None? || !path.value.Str? {
      return Err("simulation index path is not text");
    }
    assert path == Some(Str(path.value.text));
    var resources := Listed(c, tree);
    if resources == [] {
      return Err("simulation index has no resources");
    }
    var intact := CheckResources(c, tree, resources);
    if !intact {
      return Err("missing catalog resource or exact byte digest mismatch");
    }
    r := Ok((key.value, PointerFor(domain, name, manifestDigest)));
  }

  // ----- What a manifest digest binds -----

  lemma SameRelease(record: Option<Json>, domain: string, name: string, domain': string, name': string)
    requires ParseVersion(name).Some? && ParseVersion(name').Some?
    requires NamesRelease(record, domain, name) && NamesRelease(record, domain', name')
    ensures domain == domain' && name == name'
  {
    VersionStartsWithV(name);
    VersionStartsWithV(name');
    assert ("pitgun." + domain)[7..] == domain && ("pitgun." + domain')[7..] == domain';
  }

  lemma SamePack(c: Codec, tree: Tree, tree': Tree, pack: string)
    requires CanonicalInjective(c) && CollisionFree(c)
    requires ManifestOf(c, tree) == ManifestOf(c, tree') && PackValid(c, tree, pack) && PackValid(c, tree', pack)
    ensures PackIndex(c, tree, pack) == PackIndex(c, tree', pack)
  {
    var a, b := PackIndex(c, tree, pack).value, PackIndex(c, tree', pack).value;
    assert JsonDigest(c, a) == JsonDigest(c, b);
    assert c.canonical(a) == c.canonical(b);
  }

  /**
   One manifest digest fixes the whole release: domain, name, manifest, both indexes, and the bytes
   of every listed resource.
   */
  lemma DigestBinding(
    c: Codec, domain: string, name: string, tree: Tree, domain': string, name': string, tree': Tree)
    requires CanonicalInjective(c) && CollisionFree(c)
    requires ReleaseValid(c, domain, name, tree) && ReleaseValid(c, domain', name', tree')
    requires JsonDigest(c, ManifestOf(c, tree).value) == JsonDigest(c, ManifestOf(c, tree').value)
    ensures domain == domain' && name == name' && ManifestOf(c, tree) == ManifestOf(c, tree')
    ensures PackIndex(c, tree, "simulation_pack") == PackIndex(c, tree', "simulation_pack")
    ensures PackIndex(c, tree, "presentation_pack") == PackIndex(c, tree', "presentation_pack")
    ensures Listed(c, tree) == Listed(c, tree')
    ensures forall i :: 0 <= i < |Listed(c, tree)| ==>
      var path := ResourcePath(c, Listed(c, tree)[i]); path in tree && path in tree' && tree[path] == tree'[path]
  {
    hide PackValid, NamesRelease, ParseVersion;
    var m, m' := ManifestOf(c, tree).value, ManifestOf(c, tree').value;
    assert c.canonical(m) == c.canonical(m');
    assert ManifestOf(c, tree) == ManifestOf(c, tree');
    SameRelease(Field(Some(m), "catalog"), domain, name, domain', name');
    SamePack(c, tree, tree', "simulation_pack");
    SamePack(c, tree, tree', "presentation_pack");
    forall i | 0 <= i < |Listed(c, tree)|
      ensures var path := ResourcePath(c, Listed(c, tree)[i]); path in tree && path in tree' && tree[path] == tree'[path]
    {
      assert ResourceValid(c, tree, Listed(c, tree)[i]) && ResourceValid(c, tree', Listed(c, tree')[i]);
    }
  }

  /** Changing one listed resource in place makes the validator refuse, unless the file also is a metadata file. */
  lemma TamperedResourceRefused(c: Codec, domain: string, name: string, tree: Tree, i: nat, bytes: Bytes)
    requires CollisionFree(c) && ReleaseValid(c, domain, name, tree) && i < |Listed(c, tree)|
    requires var path := ResourcePath(c, Listed(c, tree)[i]);
      && path !in {"catalog.json", IndexPath(c, ManifestOf(c, tree), "simulation_pack")}
      && bytes != tree[path]
    ensures !ReleaseValid(c, domain, name, tree[ResourcePath(c, Listed(c, tree)[i]) := bytes])
  {
    hide PackValid, NamesRelease, ParseVersion;
    var path := ResourcePath(c, Listed(c, tree)[i]);
    var tree' := tree[path := bytes];
    assert ResourceValid(c, tree, Listed(c, tree)[i]);
    assert Listed(c, tree') == Listed(c, tree);
    assert !ResourceValid(c, tree', Listed(c, tree')[i]);
  }
}
