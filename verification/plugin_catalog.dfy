/** The plugin catalog (`PluginsController`) and the installed-plugin
    information (`PluginsInstalledController`). Both scan the plugins
    directory once, keep what they found in `plugin_data`, and answer every
    later request from that cache. The directory listing is given as a
    sequence of entries in the order `sorted` puts them; an entry carries
    the document loaded from its `plugin.yaml` when that file exists. */
module PluginCatalog {
  import opened Values

  /** `os.listdir` never yields an empty name. */
  type EntryName = s: string | |s| > 0 witness "p"

  datatype DirEntry = DirEntry(name: EntryName, descriptor: Option<Json>)

  /** Hidden (`.`) and private (`_`) directories are never plugins. */
  predicate IsPrivate(name: EntryName) {
    name[0] == '.' || name[0] == '_'
  }

  /** What the scan makes of one entry: skipped, a crash (a Python exception
      ends the request), or a plugin with its `plugin` section. */
  datatype Found = Skip | Crash | Plugin(section: Json)

  /** The entry has a `plugin.yaml` whose `plugin` section is present and
      not empty. */
  predicate HasPluginSection(e: DirEntry) {
    && e.descriptor.Some?
    && Subscript(e.descriptor.value, "plugin").Some?
    && Subscript(e.descriptor.value, "plugin").value != JNull
  }

  function Classify(e: DirEntry): (r: Found)
    ensures r.Plugin? <==> !IsPrivate(e.name) && HasPluginSection(e)
    ensures r.Plugin? ==> Some(r.section) == Subscript(e.descriptor.value, "plugin")
    ensures r.Crash? <==> !IsPrivate(e.name) && e.descriptor.Some? && !e.descriptor.value.JObject?
  {
    if IsPrivate(e.name) || e.descriptor.None? then Skip
    else match e.descriptor.value
      case JObject(doc) =>
        var section := GetOr(doc, "plugin", JNull);
        if section == JNull then Skip else Plugin(section)
      case _ => Crash
  }

  /** Which of the two controllers is scanning; the installed view needs
      the server's default language. */
  datatype Kind = Catalog | Installed(language: string)

  /** The catalog value of a plugin: its `type`, `''` when missing. */
  function TypeOf(section: map<string, Json>): Json {
    GetOr(section, "type", JStr(""))
  }

  /** The installed-plugin record of a plugin, or None when selecting the
      description for `language` raises. */
  function InstalledRecord(section: map<string, Json>, language: string): (r: Option<Json>)
    ensures r.Some? <==> Subscript(GetOr(section, "description", EmptyDescription), language).Some?
    ensures r.Some? ==> r.value.JObject? && r.value.fields.Keys
                        == {"type", "description", "version", "documentation", "multi_instance"}
    ensures r.Some? ==> r.value.fields["description"]
                        == Subscript(GetOr(section, "description", EmptyDescription), language).value
    ensures r.Some? ==> r.value.fields["type"] == TypeOf(section)
    ensures r.Some? ==> forall key :: key in {"version", "documentation", "multi_instance"} ==>
                          r.value.fields[key] == GetOr(section, key, JStr(""))
  {
    var description := GetOr(section, "description", EmptyDescription);
    match Subscript(description, language)
    case None => None
    case Some(d) =>
      Some(JObject(map["type" := TypeOf(section),
                       "description" := d,
                       "version" := GetOr(section, "version", JStr("")),
                       "documentation" := GetOr(section, "documentation", JStr("")),
                       "multi_instance" := GetOr(section, "multi_instance", JStr(""))]))
  }

  /** The cache after a scan, and whether an exception ended it. */
  datatype Scan = Scan(data: map<string, Json>, failed: bool)

  /** One iteration of the scanning loop. A crash keeps what was written to
      the cache before it: the installed view first stores `{}` for the
      plugin, then its `type`, and only then reads the description. */
  function Step(kind: Kind, data: map<string, Json>, e: DirEntry): (r: Scan)
    ensures r.data.Keys <= data.Keys + {e.name}
    ensures e.name in r.data && e.name !in data ==> Classify(e).Plugin?
    ensures forall k :: k in data && k != e.name ==> k in r.data && r.data[k] == data[k]
  {
    match Classify(e)
    case Skip => Scan(data, false)
    case Crash => Scan(data, true)
    case Plugin(section) =>
      match kind
      case Catalog =>
        if section.JObject? then Scan(data[e.name := TypeOf(section.fields)], false)
        else Scan(data, true)
      case Installed(language) =>
        if !section.JObject? then Scan(data[e.name := EmptyObject], true)
        else match InstalledRecord(section.fields, language)
          case None => Scan(data[e.name := JObject(map["type" := TypeOf(section.fields)])], true)
          case Some(record) => Scan(data[e.name := record], false)
  }

  /** The scanning loop over the whole listing, starting from an empty
      cache and stopping at the first crash. */
  function ScanAll(kind: Kind, listing: seq<DirEntry>): Scan
    decreases |listing|
  {
    if |listing| == 0 then Scan(map[], false)
    else
      var prev := ScanAll(kind, listing[..|listing| - 1]);
      if prev.failed then prev else Step(kind, prev.data, listing[|listing| - 1])
  }

  /** Once the scan has crashed, the rest of the listing is not looked at. */
  lemma {:induction false} ScanStops(kind: Kind, listing: seq<DirEntry>, j: nat)
    requires j <= |listing| && ScanAll(kind, listing[..j]).failed
    ensures ScanAll(kind, listing) == ScanAll(kind, listing[..j])
    decreases |listing| - j
  {
    if j < |listing| {
      var next := listing[..j + 1];
      assert next[..j] == listing[..j];
      ScanStops(kind, listing, j + 1);
    } else {
      assert listing[..j] == listing;
    }
  }

  /** Every cached name belongs to an entry that is neither hidden nor
      private and whose `plugin.yaml` has a `plugin` section. */
  lemma {:induction false} ScanOnlyPlugins(kind: Kind, listing: seq<DirEntry>)
    ensures forall k :: k in ScanAll(kind, listing).data ==>
      exists i :: 0 <= i < |listing| && listing[i].name == k
                  && !IsPrivate(listing[i].name) && HasPluginSection(listing[i])
    decreases |listing|
  {
    if |listing| > 0 {
      var init := listing[..|listing| - 1];
      ScanOnlyPlugins(kind, init);
      forall k | k in ScanAll(kind, listing).data
        ensures exists i :: 0 <= i < |listing| && listing[i].name == k
                            && !IsPrivate(listing[i].name) && HasPluginSection(listing[i])
      {
        if k in ScanAll(kind, init).data {
          var i :| 0 <= i < |init| && init[i].name == k
                   && !IsPrivate(init[i].name) && HasPluginSection(init[i]);
          assert listing[i] == init[i];
        } else {
          assert listing[|listing| - 1].name == k;
        }
      }
    }
  }

  /** No cached name starts with `.` or `_`. */
  lemma NoHiddenOrPrivateNames(kind: Kind, listing: seq<DirEntry>)
    ensures PublicNames(ScanAll(kind, listing).data)
  {
    ScanOnlyPlugins(kind, listing);
  }

  /** A scan that did not crash cached every plugin of the listing. */
  lemma {:induction false} ScanComplete(kind: Kind, listing: seq<DirEntry>)
    requires !ScanAll(kind, listing).failed
    ensures forall i :: 0 <= i < |listing| && !IsPrivate(listing[i].name) && HasPluginSection(listing[i])
                        ==> listing[i].name in ScanAll(kind, listing).data
    decreases |listing|
  {
    if |listing| > 0 {
      var init := listing[..|listing| - 1];
      assert !ScanAll(kind, init).failed;
      ScanComplete(kind, init);
      forall i | 0 <= i < |listing| && !IsPrivate(listing[i].name) && HasPluginSection(listing[i])
        ensures listing[i].name in ScanAll(kind, listing).data
      {
        if i < |listing| - 1 {
          assert listing[i] == init[i];
        }
      }
    }
  }

  ghost predicate DistinctNames(listing: seq<DirEntry>) {
    forall i, j :: 0 <= i < j < |listing| ==> listing[i].name != listing[j].name
  }

  /** What a scan that did not crash caches for a plugin: its type in the
      catalog, its full record in the installed view. */
  function Cached(kind: Kind, section: map<string, Json>): (r: Json)
    requires kind.Installed? ==> InstalledRecord(section, kind.language).Some?
  {
    match kind
    case Catalog => TypeOf(section)
    case Installed(language) => InstalledRecord(section, language).value
  }

  /** In a scan that did not crash, each plugin's cached value is computed
      from its own `plugin` section. */
  lemma {:induction false} ScanValues(kind: Kind, listing: seq<DirEntry>)
    requires DistinctNames(listing) && !ScanAll(kind, listing).failed
    ensures forall i :: 0 <= i < |listing| && Classify(listing[i]).Plugin? ==>
      && listing[i].name in ScanAll(kind, listing).data
      && Classify(listing[i]).section.JObject?
      && (kind.Installed? ==> InstalledRecord(Classify(listing[i]).section.fields, kind.language).Some?)
      && ScanAll(kind, listing).data[listing[i].name] == Cached(kind, Classify(listing[i]).section.fields)
    decreases |listing|
  {
    if |listing| > 0 {
      var n := |listing| - 1;
      var init := listing[..n];
      assert !ScanAll(kind, init).failed;
      ScanValues(kind, init);
      ScanComplete(kind, listing);
      forall i | 0 <= i < |listing| && Classify(listing[i]).Plugin?
        ensures && listing[i].name in ScanAll(kind, listing).data
                && Classify(listing[i]).section.JObject?
                && (kind.Installed? ==> InstalledRecord(Classify(listing[i]).section.fields, kind.language).Some?)
                && ScanAll(kind, listing).data[listing[i].name] == Cached(kind, Classify(listing[i]).section.fields)
      {
        if i < n {
          assert listing[i] == init[i];
          assert listing[i].name != listing[n].name;
          ScanComplete(kind, init);
        }
      }
    }
  }

  /** `PluginsController`: the catalog `{plugin name: type}`. */
  /** No cached name is hidden or private. */
  ghost predicate PublicNames(data: map<string, Json>) {
    forall k :: k in data ==> |k| > 0 && k[0] != '.' && k[0] != '_'
  }

  class PluginsController {
    var pluginData: map<string, Json>

    ghost predicate Valid()
      reads this
    {
      PublicNames(pluginData)
    }

    constructor ()
      ensures Valid()
      ensures pluginData == map[]
    {
      pluginData := map[];
    }

    /** `index`: scan only while the cache is empty. A scan that crashes
        leaves what it cached so far; one that finds nothing leaves the
        cache empty, so the next request scans again. */
    method Index(listing: seq<DirEntry>) returns (r: Result<map<string, Json>>)
      requires Valid()
      modifies this
      ensures Valid()
      ensures r.Ok? ==> PublicNames(r.value)
      ensures old(pluginData) != map[] ==> pluginData == old(pluginData) && r == Ok(pluginData)
      ensures old(pluginData) == map[] ==> pluginData == ScanAll(Catalog, listing).data
      ensures old(pluginData) == map[] ==>
        r == if ScanAll(Catalog, listing).failed then Err(ServerError) else Ok(pluginData)
    {
      if pluginData == map[] {
        var i := 0;
        while i < |listing|
          invariant 0 <= i <= |listing|
          invariant ScanAll(Catalog, listing[..i]) == Scan(pluginData, false)
        {
          var p := listing[i];
          assert listing[..i + 1][..i] == listing[..i];
          if !(p.name[0] == '.' || p.name[0] == '_') {
            if p.descriptor.Some? {
              if !p.descriptor.value.JObject? {
                ScanStops(Catalog, listing, i + 1);
                NoHiddenOrPrivateNames(Catalog, listing);
                return Err(ServerError);
              }
              var section := GetOr(p.descriptor.value.fields, "plugin", JNull);
              if section != JNull {
                if !section.JObject? {
                  ScanStops(Catalog, listing, i + 1);
                  NoHiddenOrPrivateNames(Catalog, listing);
                  return Err(ServerError);
                }
                pluginData := pluginData[p.name := GetOr(section.fields, "type", JStr(""))];
              }
            }
          }
          i := i + 1;
        }
        assert listing[..i] == listing;
        NoHiddenOrPrivateNames(Catalog, listing);
      }
      r := Ok(pluginData);
    }
  }

  /** `PluginsInstalledController`: per plugin its type, description in the
      default language, version, documentation link and multi-instance
      flag. */
  class PluginsInstalledController {
    var pluginData: map<string, Json>

    ghost predicate Valid()
      reads this
    {
      PublicNames(pluginData)
    }

    constructor ()
      ensures Valid()
      ensures pluginData == map[]
    {
      pluginData := map[];
    }

    /** One iteration of the loop of `index`: the cache updates for one
        directory entry, and whether they ended in an exception. */
    method ScanEntry(p: DirEntry, language: string) returns (failed: bool)
      modifies this
      ensures Scan(pluginData, failed) == Step(Installed(language), old(pluginData), p)
    {
      failed := false;
      if !(p.name[0] == '.' || p.name[0] == '_') {
        if p.descriptor.Some? {
          if !p.descriptor.value.JObject? {
            return true;
          }
          var section := GetOr(p.descriptor.value.fields, "plugin", JNull);
          if section != JNull {
            assert Classify(p) == Plugin(section);
            pluginData := pluginData[p.name := EmptyObject];
            if !section.JObject? {
              return true;
            }
            var typ := GetOr(section.fields, "type", JStr(""));
            pluginData := pluginData[p.name := JObject(map["type" := typ])];
            var description := GetOr(section.fields, "description", EmptyDescription);
            if !(description.JObject? && language in description.fields) {
              assert InstalledRecord(section.fields, language).None?;
              return true;
            }
            pluginData := pluginData[p.name := JObject(map[
              "type" := typ,
              "description" := description.fields[language],
              "version" := GetOr(section.fields, "version", JStr("")),
              "documentation" := GetOr(section.fields, "documentation", JStr("")),
              "multi_instance" := GetOr(section.fields, "multi_instance", JStr(""))])];
          }
        }
      }
    }

    method Index(listing: seq<DirEntry>, language: string) returns (r: Result<map<string, Json>>)
      requires Valid()
      modifies this
      ensures Valid()
      ensures r.Ok? ==> PublicNames(r.value)
      ensures old(pluginData) != map[] ==> pluginData == old(pluginData) && r == Ok(pluginData)
      ensures old(pluginData) == map[] ==> pluginData == ScanAll(Installed(language), listing).data
      ensures old(pluginData) == map[] ==>
        r == if ScanAll(Installed(language), listing).failed then Err(ServerError) else Ok(pluginData)
    {
      if pluginData == map[] {
        var i := 0;
        while i < |listing|
          invariant 0 <= i <= |listing|
          invariant ScanAll(Installed(language), listing[..i]) == Scan(pluginData, false)
        {
          assert listing[..i + 1][..i] == listing[..i];
          var failed := ScanEntry(listing[i], language);
          if failed {
            ScanStops(Installed(language), listing, i + 1);
            NoHiddenOrPrivateNames(Installed(language), listing);
            return Err(ServerError);
          }
          i := i + 1;
        }
        assert listing[..i] == listing;
        NoHiddenOrPrivateNames(Installed(language), listing);
      }
      r := Ok(pluginData);
    }
  }

  /** Without a `description`, the installed view shows an empty one in the
      two default languages; for any other language the request fails. */
  lemma DescriptionDefault(section: map<string, Json>, language: string)
    requires "description" !in section
    ensures language in {"de", "en"} ==>
      InstalledRecord(section, language).Some?
      && InstalledRecord(section, language).value.fields["description"] == JStr("")
    ensures language !in {"de", "en"} ==> InstalledRecord(section, language).None?
  {
  }
}
