/** The single-plugin controller of the admin interface: it reads one
    section of the plugin configuration file, adds a new section, or
    replaces an existing one, refusing to write a configuration that is
    still in the legacy (non-YAML) format. The file on disk is a
    `ConfigFile`: its path, its sections in file order, and the backup copy
    that the first access to a YAML configuration creates. */
module PluginApi {
  import opened Values
  import opened Text

  // ---------------------------------------------------------------------
  // Sections of the configuration file, in file order
  // ---------------------------------------------------------------------

  /** One top-level entry of the configuration file: an instance name and
      its settings. */
  datatype Section = Section(name: string, config: Json)

  ghost predicate UniqueNames(s: seq<Section>) {
    forall i, j :: 0 <= i < j < |s| ==> s[i].name != s[j].name
  }

  /** `plugin_conf.get(name)` in the (ordered) loaded document. */
  function Lookup(s: seq<Section>, name: string): (r: Option<Json>)
    ensures r.Some? <==> exists i :: 0 <= i < |s| && s[i].name == name
    ensures r.Some? ==> exists i :: 0 <= i < |s| && s[i].name == name && s[i].config == r.value
  {
    if |s| == 0 then None
    else if s[0].name == name then Some(s[0].config)
    else
      var r := Lookup(s[1..], name);
      assert r.Some? ==> exists i :: 1 <= i < |s| && s[i].name == name && s[i].config == r.value;
      r
  }

  /** The configuration seen as a map from section name to settings. */
  function ToMap(s: seq<Section>): (m: map<string, Json>)
    ensures m.Keys == set i | 0 <= i < |s| :: s[i].name
  {
    if |s| == 0 then map[] else ToMap(s[1..])[s[0].name := s[0].config]
  }

  /** `plugin_conf[name] = config`: an entry already present keeps its place
      in the file and gets the new settings; a new one is appended. */
  function Put(s: seq<Section>, name: string, config: Json): (r: seq<Section>)
    ensures (exists i :: 0 <= i < |s| && s[i].name == name) ==> |r| == |s|
    ensures (forall i :: 0 <= i < |s| ==> s[i].name != name) ==> r == s + [Section(name, config)]
  {
    if |s| == 0 then [Section(name, config)]
    else if s[0].name == name then [Section(name, config)] + s[1..]
    else [s[0]] + Put(s[1..], name, config)
  }

  /** `plugin_conf.get(name) is not None`: the section exists and is not an
      empty (`null`) YAML entry. */
  predicate HasSection(s: seq<Section>, name: string) {
    Lookup(s, name).Some? && Lookup(s, name).value != JNull
  }

  lemma {:induction false} LookupUnique(s: seq<Section>, i: int)
    requires UniqueNames(s) && 0 <= i < |s|
    ensures Lookup(s, s[i].name) == Some(s[i].config)
  {
    if i > 0 {
      LookupUnique(s[1..], i - 1);
    }
  }

  /** In a configuration without repeated names, the map view and the
      lookup agree. */
  lemma {:induction false} LookupToMap(s: seq<Section>, name: string)
    requires UniqueNames(s)
    ensures Lookup(s, name) == (if name in ToMap(s) then Some(ToMap(s)[name]) else None)
  {
    if |s| > 0 && s[0].name != name {
      LookupToMap(s[1..], name);
    }
  }

  /** Writing a section changes exactly that entry of the map view. */
  lemma {:induction false} PutToMap(s: seq<Section>, name: string, config: Json)
    ensures ToMap(Put(s, name, config)) == ToMap(s)[name := config]
  {
    if |s| > 0 {
      if s[0].name == name {
        assert ToMap([Section(name, config)] + s[1..])
            == ToMap(s[1..])[name := config];
      } else {
        PutToMap(s[1..], name, config);
        assert ([s[0]] + Put(s[1..], name, config))[1..] == Put(s[1..], name, config);
      }
    }
  }

  /** Writing a section keeps the names of the file unique and leaves the
      order of the existing entries as it was. */
  lemma {:induction false} PutKeepsOrder(s: seq<Section>, name: string, config: Json)
    requires UniqueNames(s)
    ensures UniqueNames(Put(s, name, config))
    ensures forall i :: 0 <= i < |s| ==> Put(s, name, config)[i].name == s[i].name
    ensures forall i :: 0 <= i < |s| && s[i].name != name ==> Put(s, name, config)[i] == s[i]
  {
    if |s| > 0 && s[0].name != name {
      PutKeepsOrder(s[1..], name, config);
      var r := Put(s, name, config);
      assert r == [s[0]] + Put(s[1..], name, config);
      forall i | 0 < i < |r| ensures r[i].name != s[0].name {
        if i - 1 < |s| - 1 {
          assert r[i].name == s[i].name;
        } else {
          assert r[i].name == name;
        }
      }
    }
  }

  /** Reading a section back after writing it returns what was written, and
      every other section reads as before. */
  lemma ReadAfterPut(s: seq<Section>, name: string, config: Json, other: string)
    requires UniqueNames(s)
    ensures Lookup(Put(s, name, config), name) == Some(config)
    ensures other != name ==> Lookup(Put(s, name, config), other) == Lookup(s, other)
  {
    PutKeepsOrder(s, name, config);
    PutToMap(s, name, config);
    LookupToMap(Put(s, name, config), name);
    LookupToMap(Put(s, name, config), other);
    LookupToMap(s, other);
  }

  // ---------------------------------------------------------------------
  // Legacy detection and the backup copy
  // ---------------------------------------------------------------------

  /** A configuration is read-only unless its extension, lower-cased, is
      `.yaml`. */
  predicate IsReadOnlyConfig(path: string) {
    Lower(Splitext(path).1) != ".yaml"
  }

  /** Where the file name starts: just after the last `/`. */
  function NameStart(path: string): (k: nat)
    ensures k <= |path|
  {
    LastIndex(path, '/') + 1
  }

  /** A configuration is writable exactly when its path ends in `.yaml` in
      any letter case and the file name has a character other than a dot
      before that ending. */
  lemma WritableIff(path: string)
    ensures !IsReadOnlyConfig(path) <==>
      (|path| >= 5 && Lower(path[|path| - 5..]) == ".yaml"
       && exists k :: NameStart(path) <= k < |path| - 5 && path[k] != '.')
  {
    var sep := LastIndex(path, '/');
    var dot := LastIndex(path, '.');
    var ext := Splitext(path).1;
    if !IsReadOnlyConfig(path) {
      assert Lower(ext) == ".yaml";
      assert ext == path[dot..];
    }
    if |path| >= 5 && Lower(path[|path| - 5..]) == ".yaml"
       && exists k :: NameStart(path) <= k < |path| - 5 && path[k] != '.' {
      var n := |path|;
      assert LowerChar(path[n - 5]) == '.';
      assert path[n - 5] == '.';
      assert forall j :: n - 5 < j < n ==> LowerChar(path[j]) != '.' && LowerChar(path[j]) != '/';
      assert dot == n - 5;
      assert sep < n - 5;
    }
  }

  /** `.yaml` in any letter case is writable. */
  lemma UpperCaseYamlIsWritable()
    ensures !IsReadOnlyConfig("etc/plugin.YAML")
  {
    var p := "etc/plugin.YAML";
    assert p[3] == '/' && p[10] == '.';
    assert forall j :: 3 < j < |p| ==> p[j] != '/';
    assert forall j :: 10 < j < |p| ==> p[j] != '.';
    assert LastIndex(p, '/') == 3;
    assert LastIndex(p, '.') == 10;
    assert p[4] != '.';
    assert Splitext(p).1 == ".YAML";
  }

  /** The legacy `.conf` format is read-only. */
  lemma ConfIsReadOnly()
    ensures IsReadOnlyConfig("etc/plugin.conf")
  {
    var p := "etc/plugin.conf";
    assert p[3] == '/' && p[10] == '.';
    assert forall j :: 3 < j < |p| ==> p[j] != '/';
    assert forall j :: 10 < j < |p| ==> p[j] != '.';
    assert LastIndex(p, '/') == 3;
    assert LastIndex(p, '.') == 10;
    assert p[4] != '.';
    assert Splitext(p).1 == ".conf";
    assert Lower(".conf")[1] == 'c';
  }

  /** A file named just `.yaml` has no extension, so it is read-only. */
  lemma HiddenYamlIsReadOnly()
    ensures IsReadOnlyConfig("etc/.yaml")
  {
    var p := "etc/.yaml";
    assert p[3] == '/' && p[4] == '.';
    assert forall j :: 3 < j < |p| ==> p[j] != '/';
    assert forall j :: 4 < j < |p| ==> p[j] != '.';
    assert LastIndex(p, '/') == 3;
    assert LastIndex(p, '.') == 4;
    assert Splitext(p).1 == "";
  }

  /** The backup after `test_for_old_config`: a writable configuration
      without a backup gets one holding its current sections; otherwise the
      backup stays as it was. */
  function BackupAfterTest(path: string, backup: Option<seq<Section>>, sections: seq<Section>)
    : (r: Option<seq<Section>>)
    ensures r.Some?
       <==> backup.Some? || !IsReadOnlyConfig(path)
    ensures backup.Some? ==> r == backup
    ensures IsReadOnlyConfig(path) ==> r == backup
  {
    if !IsReadOnlyConfig(path) && backup.None? then Some(sections) else backup
  }

  /** Applying the backup rule twice is the same as applying it once. */
  lemma BackupAfterTestIdempotent(path: string, backup: Option<seq<Section>>,
                                  s1: seq<Section>, s2: seq<Section>)
    ensures BackupAfterTest(path, BackupAfterTest(path, backup, s1), s2)
         == BackupAfterTest(path, backup, s1)
  {
  }

  /** The configuration file on disk. */
  class ConfigFile {
    const path: string
    var sections: seq<Section>
    /** The backup file next to it, with the sections it holds. */
    var backup: Option<seq<Section>>
    /** How many backup copies this model has made. */
    ghost var copies: nat

    ghost predicate Valid()
      reads this
    {
      && UniqueNames(sections)
      && copies <= 1
      && (copies == 1 ==> backup.Some?)
      && (IsReadOnlyConfig(path) ==> copies == 0)
    }

    constructor (path: string, sections: seq<Section>, backup: Option<seq<Section>>)
      requires UniqueNames(sections)
      ensures Valid()
      ensures this.path == path && this.sections == sections && this.backup == backup
      ensures copies == 0
    {
      this.path := path;
      this.sections := sections;
      this.backup := backup;
      copies := 0;
    }
  }

  /** `test_for_old_config`: reports whether the configuration is read-only
      and, for a YAML configuration without a backup, copies it. */
  method TestForOldConfig(file: ConfigFile) returns (readonly: bool)
    requires file.Valid()
    modifies file
    ensures file.Valid()
    ensures readonly == IsReadOnlyConfig(file.path)
    ensures file.sections == old(file.sections)
    ensures file.backup == BackupAfterTest(file.path, old(file.backup), old(file.sections))
    ensures file.copies == old(file.copies) + (if file.backup != old(file.backup) then 1 else 0)
  {
    readonly := Lower(Splitext(file.path).1) != ".yaml";
    if !readonly {
      if file.backup.None? {
        file.backup := Some(file.sections);
        file.copies := file.copies + 1;
      }
    }
  }

  // ---------------------------------------------------------------------
  // Request bodies
  // ---------------------------------------------------------------------

  /** What the HTTP layer delivers: whether a Content-Length header was sent
      (header values are strings, so only a missing header equals the
      default `0` of the guard), and the result of decoding the body it
      announces as UTF-8 JSON (None when decoding raised, as it does for an
      empty body). The header's value matters only through `decoded`. */
  datatype Request = Request(lengthHeader: bool, decoded: Option<Json>)

  /** `get_body`: 411 without a Content-Length header; otherwise the decoded
      body, where Python's `None` (`JNull`) stands both for a body that did
      not decode and for the JSON literal `null`. */
  function GetBody(req: Request): (r: Result<Json>)
    ensures r.Err? <==> !req.lengthHeader
    ensures r.Err? ==> r.error == LengthRequired
    ensures r.Ok? ==> (r.value == JNull <==> req.decoded.None? || req.decoded == Some(JNull))
    ensures r.Ok? && req.decoded.Some? ==> r.value == req.decoded.value
  {
    if !req.lengthHeader then Err(LengthRequired)
    else if req.decoded.None? then Ok(JNull)
    else Ok(req.decoded.value)
  }

  /** The parameters `add` and `update` go on with, or None when they raise
      411. */
  function RequestParams(req: Request): (r: Option<Json>)
    ensures r.None? <==> !req.lengthHeader || req.decoded.None? || req.decoded == Some(JNull)
    ensures r.Some? ==> Some(r.value) == req.decoded
  {
    match GetBody(req)
    case Err(_) => None
    case Ok(params) => if params == JNull then None else Some(params)
  }

  // ---------------------------------------------------------------------
  // The REST operations
  // ---------------------------------------------------------------------

  /** The JSON answer of `add` and `update`. */
  datatype Response = Done | Refused(description: string)

  const LegacyMessage: string := "Updateing .CONF files is not supported"

  function ExistsMessage(section: string): string {
    "Configuration section '" + section + "' already exists"
  }

  function MissingMessage(section: string): string {
    "Configuration section '" + section + "' does not exist"
  }

  /** `params.get('config', {})`, defined only when the parameters are a
      dict (anything else raises). */
  function ConfigParam(params: Json): (r: Option<Json>)
    ensures r.Some? <==> params.JObject?
    ensures params.JObject? && "config" !in params.fields ==> r == Some(EmptyObject)
    ensures params.JObject? && "config" in params.fields ==> r == Some(params.fields["config"])
  {
    if params.JObject? then Some(GetOr(params.fields, "config", EmptyObject)) else None
  }

  /** Does this section match the `plugin` argument of `index`? */
  predicate Matches(s: Section, plugin: Option<string>) {
    plugin.None? || s.name == plugin.value
  }

  /** The loop of `index`: every matching section overwrites the answer, so
      the last match wins; `found` is the `plg_found` flag. */
  method FindConfig(sections: seq<Section>, plugin: Option<string>) returns (found: bool, config: Json)
    requires UniqueNames(sections)
    ensures found <==> (if plugin.None? then |sections| > 0 else Lookup(sections, plugin.value).Some?)
    ensures found && plugin.None? ==> config == sections[|sections| - 1].config
    ensures found && plugin.Some? ==> Lookup(sections, plugin.value) == Some(config)
  {
    found, config := false, JNull;
    ghost var last := -1;
    var i := 0;
    while i < |sections|
      invariant 0 <= i <= |sections|
      invariant found <==> exists j :: 0 <= j < i && Matches(sections[j], plugin)
      invariant found ==> 0 <= last < i && Matches(sections[last], plugin)
                          && config == sections[last].config
                          && forall j :: last < j < i ==> !Matches(sections[j], plugin)
    {
      if Matches(sections[i], plugin) {
        config := sections[i].config;
        found := true;
        last := i;
      }
      i := i + 1;
    }
    if found && plugin.Some? {
      LookupUnique(sections, last);
    }
    if plugin.None? && |sections| > 0 {
      assert Matches(sections[0], plugin);
    }
  }

  /** The answer of `index`: the read-only flag and the selected settings. */
  datatype IndexInfo = IndexInfo(readonly: bool, config: Json)

  /** `index(plugin)`: the settings of the section named `plugin`, or of the
      last section when no name is given; NotFound when nothing matches.
      The read-only test, with its backup copy, runs first. */
  method Index(file: ConfigFile, plugin: Option<string>) returns (r: Result<IndexInfo>)
    requires file.Valid()
    modifies file
    ensures file.Valid()
    ensures file.sections == old(file.sections)
    ensures file.backup == BackupAfterTest(file.path, old(file.backup), old(file.sections))
    ensures r.Err? <==> (if plugin.None? then |file.sections| == 0
                         else Lookup(file.sections, plugin.value).None?)
    ensures r.Err? ==> r.error == NotFound
    ensures r.Ok? ==> r.value.readonly == IsReadOnlyConfig(file.path)
    ensures r.Ok? && plugin.None? ==> r.value.config == file.sections[|file.sections| - 1].config
    ensures r.Ok? && plugin.Some? ==> Lookup(file.sections, plugin.value) == Some(r.value.config)
  {
    var readonly := TestForOldConfig(file);
    var found, config := FindConfig(file.sections, plugin);
    if found {
      r := Ok(IndexInfo(readonly, config));
    } else {
      r := Err(NotFound);
    }
  }

  /** `add(section)`: store a new section. 411 when there are no
      parameters (before the file is touched); a refusal, with the file
      unchanged, for a legacy configuration or a section that already
      exists; a server error when the parameters are not a dict; otherwise
      the section is appended with `params['config']` (default `{}`). */
  method Add(file: ConfigFile, section: string, req: Request) returns (r: Result<Response>)
    requires file.Valid()
    modifies file
    ensures file.Valid()
    ensures RequestParams(req).None? ==>
      r == Err(LengthRequired) && file.backup == old(file.backup) && file.sections == old(file.sections)
    ensures RequestParams(req).Some? ==>
      file.backup == BackupAfterTest(file.path, old(file.backup), old(file.sections))
    ensures RequestParams(req).Some? && IsReadOnlyConfig(file.path) ==>
      r == Ok(Refused(LegacyMessage)) && file.sections == old(file.sections)
    ensures RequestParams(req).Some? && !IsReadOnlyConfig(file.path) && HasSection(old(file.sections), section) ==>
      r == Ok(Refused(ExistsMessage(section))) && file.sections == old(file.sections)
    ensures RequestParams(req).Some? && !IsReadOnlyConfig(file.path) && !HasSection(old(file.sections), section)
            && ConfigParam(RequestParams(req).value).None? ==>
      r == Err(ServerError) && file.sections == old(file.sections)
    ensures RequestParams(req).Some? && !IsReadOnlyConfig(file.path) && !HasSection(old(file.sections), section)
            && ConfigParam(RequestParams(req).value).Some? ==>
      r == Ok(Done)
      && file.sections == Put(old(file.sections), section, ConfigParam(RequestParams(req).value).value)
  {
    var body := GetBody(req);
    if body.Err? {
      return Err(body.error);
    }
    var params := body.value;
    if params == JNull {
      return Err(LengthRequired);
    }
    var readonly := TestForOldConfig(file);
    if readonly {
      r := Ok(Refused(LegacyMessage));
    } else {
      if HasSection(file.sections, section) {
        r := Ok(Refused(ExistsMessage(section)));
      } else if !params.JObject? {
        r := Err(ServerError);
      } else {
        PutKeepsOrder(file.sections, section, ConfigParam(params).value);
        file.sections := Put(file.sections, section, ConfigParam(params).value);
        r := Ok(Done);
      }
    }
  }

  /** `update(section)`: replace an existing section; the same guards as
      `add`, except that the section must already exist. */
  method Update(file: ConfigFile, section: string, req: Request) returns (r: Result<Response>)
    requires file.Valid()
    modifies file
    ensures file.Valid()
    ensures RequestParams(req).None? ==>
      r == Err(LengthRequired) && file.backup == old(file.backup) && file.sections == old(file.sections)
    ensures RequestParams(req).Some? ==>
      file.backup == BackupAfterTest(file.path, old(file.backup), old(file.sections))
    ensures RequestParams(req).Some? && IsReadOnlyConfig(file.path) ==>
      r == Ok(Refused(LegacyMessage)) && file.sections == old(file.sections)
    ensures RequestParams(req).Some? && !IsReadOnlyConfig(file.path) && !HasSection(old(file.sections), section) ==>
      r == Ok(Refused(MissingMessage(section))) && file.sections == old(file.sections)
    ensures RequestParams(req).Some? && !IsReadOnlyConfig(file.path) && HasSection(old(file.sections), section)
            && ConfigParam(RequestParams(req).value).None? ==>
      r == Err(ServerError) && file.sections == old(file.sections)
    ensures RequestParams(req).Some? && !IsReadOnlyConfig(file.path) && HasSection(old(file.sections), section)
            && ConfigParam(RequestParams(req).value).Some? ==>
      r == Ok(Done)
      && file.sections == Put(old(file.sections), section, ConfigParam(RequestParams(req).value).value)
  {
    var body := GetBody(req);
    if body.Err? {
      return Err(body.error);
    }
    var params := body.value;
    if params == JNull {
      return Err(LengthRequired);
    }
    var readonly := TestForOldConfig(file);
    if readonly {
      r := Ok(Refused(LegacyMessage));
    } else {
      if !HasSection(file.sections, section) {
        r := Ok(Refused(MissingMessage(section)));
      } else if !params.JObject? {
        r := Err(ServerError);
      } else {
        PutKeepsOrder(file.sections, section, ConfigParam(params).value);
        file.sections := Put(file.sections, section, ConfigParam(params).value);
        r := Ok(Done);
      }
    }
  }

  /** Adding a section to a writable configuration and reading it back with
      `index` returns the settings that were sent. */
  method AddThenIndex(file: ConfigFile, section: string, config: Json) returns (r: Result<IndexInfo>)
    requires file.Valid()
    requires !IsReadOnlyConfig(file.path) && Lookup(file.sections, section).None?
    modifies file
    ensures r == Ok(IndexInfo(false, config))
    ensures file.copies <= 1
  {
    var req := Request(true, Some(JObject(map["config" := config])));
    var added := Add(file, section, req);
    assert added == Ok(Done);
    ReadAfterPut(old(file.sections), section, config, section);
    r := Index(file, Some(section));
  }

  /** `REST_instantiate(id)`: the resource for an id is the id itself; no id
      gives no resource. */
  function RestInstantiate(id: Option<string>): (r: Option<string>)
    ensures id.Some? ==> r == Some(id.value)
    ensures id.None? ==> r == None
  {
    if id.Some? then id else None
  }
}
