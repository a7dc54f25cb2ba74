/** The plugin-config view (`PluginsConfigController.index`): every section
    of the configuration file, each with the metadata of its plugin attached
    as `_meta` and its description as `_description`. The metadata comes
    from the loaded plugin instance when the registry has one, and
    otherwise from the metadata loader, asked for the plugin the section
    names. */
module PluginConfigView {
  import opened Values
  import opened Text
  import opened PluginApi
  import opened PluginNames

  /** A plugin instance held by the registry: the `meta` of its metadata
      object, or None when reading the metadata raises. */
  datatype LoadedPlugin = LoadedPlugin(meta: Option<Json>)

  /** `conf.get(key, '')` for a value the source then treats as a string;
      None when it is not one (the string method called on it raises). */
  function StringSetting(fields: map<string, Json>, key: string): (r: Option<string>)
    ensures key !in fields ==> r == Some("")
    ensures key in fields ==> (r.Some? <==> fields[key].JStr?)
    ensures key in fields && r.Some? ==> r.value == fields[key].s
  {
    if key !in fields then Some("")
    else match fields[key]
      case JStr(v) => Some(v)
      case _ => None
  }

  /** The metadata request for a section of a plugin that is not loaded,
      or None when reading `plugin_name`, `plugin_version` or (only needed
      without a plugin name) `class_path` raises. */
  function RequestFor(fields: map<string, Json>): (r: Option<MetadataRequest>)
    ensures r.Some? <==>
      && StringSetting(fields, "plugin_name").Some?
      && StringSetting(fields, "plugin_version").Some?
      && (Lower(StringSetting(fields, "plugin_name").value) == "" ==> StringSetting(fields, "class_path").Some?)
  {
    var name := StringSetting(fields, "plugin_name");
    var version := StringSetting(fields, "plugin_version");
    if name.None? || version.None? then None
    else
      var classpath := if Lower(name.value) != "" then Some("") else StringSetting(fields, "class_path");
      if classpath.None? then None
      else Some(Resolve(name.value, version.value, classpath.value).request)
  }

  /** One iteration of the loop of `index`: the section with `_meta` and
      `_description` attached, or None when the iteration raises. */
  function Annotate(s: Section, loaded: map<string, LoadedPlugin>,
                    metadataOf: MetadataRequest -> Json): (r: Option<Section>)
    ensures r.None? <==> !s.config.JObject? || (s.name !in loaded && RequestFor(s.config.fields).None?)
    ensures r.Some? ==> r.value.name == s.name && r.value.config.JObject?
    ensures r.Some? ==> forall key :: key in s.config.fields && key != "_meta" && key != "_description"
                          ==> key in r.value.config.fields && r.value.config.fields[key] == s.config.fields[key]
    ensures s.name in loaded && loaded[s.name].meta.None? && s.config.JObject? ==> r == Some(s)
    ensures r.Some? ==> r.value.config.fields.Keys <= s.config.fields.Keys + {"_meta", "_description"}
    ensures s.name in loaded && loaded[s.name].meta.Some? && s.config.JObject? ==>
      var meta := loaded[s.name].meta.value;
      var description := Subscript2(meta, "plugin", "description");
      && r.Some?
      && "_meta" in r.value.config.fields && r.value.config.fields["_meta"] == meta
      && (description.Some? ==>
            "_description" in r.value.config.fields && r.value.config.fields["_description"] == description.value)
      && (description.None? ==>
            ("_description" in r.value.config.fields <==> "_description" in s.config.fields)
            && ("_description" in s.config.fields ==>
                  r.value.config.fields["_description"] == s.config.fields["_description"]))
    ensures s.name !in loaded && r.Some? ==>
      && "_meta" in r.value.config.fields
      && r.value.config.fields["_meta"] == metadataOf(RequestFor(s.config.fields).value)
      && "_description" in r.value.config.fields
      && r.value.config.fields["_description"] ==
           match Subscript2(r.value.config.fields["_meta"], "plugin", "description")
           case Some(d) => d
           case None => EmptyDescription
  {
    if !s.config.JObject? then None
    else
      var fields := s.config.fields;
      if s.name in loaded then
        match loaded[s.name].meta
        case None => Some(s)
        case Some(meta) =>
          var withMeta := fields["_meta" := meta];
          match Subscript2(meta, "plugin", "description")
          case None => Some(Section(s.name, JObject(withMeta)))
          case Some(d) => Some(Section(s.name, JObject(withMeta["_description" := d])))
      else
        match RequestFor(fields)
        case None => None
        case Some(request) =>
          var meta := metadataOf(request);
          var description := match Subscript2(meta, "plugin", "description")
                             case Some(d) => d
                             case None => EmptyDescription;
          Some(Section(s.name, JObject(fields["_meta" := meta]["_description" := description])))
  }

  /** The loop of `index`, which updates each entry of the parsed
      configuration in place; an exception in any iteration ends the
      request. */
  method AnnotateAll(sections: seq<Section>, loaded: map<string, LoadedPlugin>,
                     metadataOf: MetadataRequest -> Json) returns (r: Option<seq<Section>>)
    ensures r.Some? <==> forall i :: 0 <= i < |sections| ==> Annotate(sections[i], loaded, metadataOf).Some?
    ensures r.Some? ==> |r.value| == |sections|
    ensures r.Some? ==> forall i :: 0 <= i < |sections| ==>
                          r.value[i] == Annotate(sections[i], loaded, metadataOf).value
  {
    var conf := sections;
    var i := 0;
    while i < |conf|
      invariant 0 <= i <= |conf| == |sections|
      invariant forall j :: 0 <= j < i ==>
                  Annotate(sections[j], loaded, metadataOf).Some? && conf[j] == Annotate(sections[j], loaded, metadataOf).value
      invariant conf[i..] == sections[i..]
    {
      assert conf[i] == sections[i];
      var annotated := Annotate(conf[i], loaded, metadataOf);
      if annotated.None? {
        return None;
      }
      conf := conf[i := annotated.value];
      i := i + 1;
    }
    r := Some(conf);
  }

  /** The answer of `index`. */
  datatype ConfigInfo = ConfigInfo(readonly: bool, pluginConfig: seq<Section>)

  /** `PluginsConfigController.index`: the read-only test with its one-time
      backup (the same steps as the single-plugin controller's), then every
      section annotated, in file order. */
  method Index(file: ConfigFile, loaded: map<string, LoadedPlugin>,
               metadataOf: MetadataRequest -> Json) returns (r: Result<ConfigInfo>)
    requires file.Valid()
    modifies file
    ensures file.Valid()
    ensures file.sections == old(file.sections)
    ensures file.backup == BackupAfterTest(file.path, old(file.backup), old(file.sections))
    ensures r.Ok? <==> forall i :: 0 <= i < |file.sections| ==> Annotate(file.sections[i], loaded, metadataOf).Some?
    ensures r.Err? ==> r.error == ServerError
    ensures r.Ok? ==> r.value.readonly == IsReadOnlyConfig(file.path)
                      && |r.value.pluginConfig| == |file.sections|
                      && forall i :: 0 <= i < |file.sections| ==>
                           r.value.pluginConfig[i] == Annotate(file.sections[i], loaded, metadataOf).value
  {
    var readonly := TestForOldConfig(file);
    var conf := AnnotateAll(file.sections, loaded, metadataOf);
    if conf.None? {
      r := Err(ServerError);
    } else {
      r := Ok(ConfigInfo(readonly, conf.value));
    }
  }
}
