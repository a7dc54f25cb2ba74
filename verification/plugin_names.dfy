/** How the plugin-config view names a configured plugin that is not
    loaded, and which plugin descriptor it asks the metadata loader for: the
    name part of `PluginsConfigController._get_pluginname_and_metadata`.
    A section names its plugin either by `plugin_name` or by `class_path`;
    an optional `plugin_version` selects a versioned copy of the plugin,
    which lives in a sub-directory `_pv_<version with dots as underscores>`. */
module PluginNames {
  import opened Values
  import opened Text

  /** `'._pv_' + version.replace('.', '_')` of the lower-cased version, or
      nothing when no version is configured. */
  function VersionSuffix(version: string): (r: string)
    ensures r == "" <==> version == ""
    ensures r != "" ==> StartsWith(r, "._pv_") && |r| == |version| + 5
    ensures r != "" ==> forall i :: 0 <= i < |version| ==>
      r[5 + i] == (if version[i] == '.' then '_' else LowerChar(version[i]))
    ensures forall i :: 1 <= i < |r| ==> r[i] != '.'
    ensures IsLowerCase(r)
  {
    var v := Lower(version);
    if v != "" then "._pv_" + ReplaceChar(v, '.', '_') else ""
  }

  /** The plugin name a class path stands for: its last dotted segment,
      lower-cased, or the segment before it when the last one is a version
      directory (`_pv...`). A class path without dots has only one segment,
      and Python's index `len - 2` is then `-1`, which is that segment again. */
  function ClassPathBase(classpath: string): string {
    var segs := Split(classpath, '.');
    var last := Lower(segs[|segs| - 1]);
    if StartsWith(last, "_pv") then
      Lower(segs[if |segs| >= 2 then |segs| - 2 else |segs| - 1])
    else last
  }

  /** The last dotted segment of a class path: what follows its last dot. */
  function LastSegment(classpath: string): string {
    classpath[LastIndex(classpath, '.') + 1..]
  }

  /** The segment before the last one, or the whole class path when it has
      no dot. */
  function PreviousSegment(classpath: string): string {
    var l := LastIndex(classpath, '.');
    if l < 0 then classpath else LastSegment(classpath[..l])
  }

  /** The pieces `split('.')` gives at the end of a class path are the ones
      found by searching for its last two dots. */
  lemma SplitEnds(classpath: string)
    ensures var segs := Split(classpath, '.');
      && segs[|segs| - 1] == LastSegment(classpath)
      && segs[if |segs| >= 2 then |segs| - 2 else |segs| - 1] == PreviousSegment(classpath)
  {
    var segs := Split(classpath, '.');
    var l := LastIndex(classpath, '.');
    SplitLast(classpath, '.');
    if l < 0 {
      SplitWithoutSeparator(classpath, '.');
    } else {
      var h := classpath[..l];
      SplitAtLast(classpath, '.');
      SplitLast(h, '.');
      assert segs[|segs| - 2] == Split(h, '.')[|Split(h, '.')| - 1];
    }
  }

  /** `ClassPathBase` picks the last segment, or the one before it when the
      last is a version directory. */
  lemma ClassPathBaseSpec(classpath: string)
    ensures ClassPathBase(classpath) ==
      if StartsWith(Lower(LastSegment(classpath)), "_pv")
      then Lower(PreviousSegment(classpath))
      else Lower(LastSegment(classpath))
  {
    SplitEnds(classpath);
  }

  /** Lower-casing does not introduce a dot. */
  lemma LowerKeepsNoDot(s: string)
    requires '.' !in s
    ensures '.' !in Lower(s)
  {
    forall i | 0 <= i < |s|
      ensures Lower(s)[i] != '.'
    {
      assert Lower(s)[i] == LowerChar(s[i]);
    }
  }

  /** The name taken from a class path is lower-case and has no dot. */
  lemma ClassPathBaseShape(classpath: string)
    ensures '.' !in ClassPathBase(classpath)
    ensures IsLowerCase(ClassPathBase(classpath))
  {
    var segs := Split(classpath, '.');
    var k := if |segs| >= 2 then |segs| - 2 else |segs| - 1;
    var seg := if StartsWith(Lower(segs[|segs| - 1]), "_pv") then segs[k] else segs[|segs| - 1];
    assert ClassPathBase(classpath) == Lower(seg);
    SplitJoin(classpath, '.');
    assert '.' !in seg;
    LowerKeepsNoDot(seg);
    LowerIsLowerCase(seg);
  }

  /** What the metadata loader is asked for: `Metadata(sh, addonName,
      'plugin', classpath)`, with `.` turned into `/` where the source does. */
  datatype MetadataRequest = MetadataRequest(addonName: string, classpath: Option<string>)

  /** The returned plugin name and the metadata request. */
  datatype Resolution = Resolution(name: string, request: MetadataRequest)

  /** `_get_pluginname_and_metadata` for the values of `plugin_name`,
      `plugin_version` and `class_path` (each `''` when absent). */
  function Resolve(pluginName: string, pluginVersion: string, classpath: string): (r: Resolution)
    ensures IsLowerCase(r.name)
    ensures Lower(pluginName) != "" ==>
      r.name == Lower(pluginName) + VersionSuffix(pluginVersion)
      && r.request == MetadataRequest(ReplaceChar(r.name, '.', '/'), None)
    ensures Lower(pluginName) == "" && classpath != "" ==>
      r.name == ClassPathBase(classpath) + VersionSuffix(pluginVersion)
      && r.request == MetadataRequest(ClassPathBase(classpath),
                                      Some(ReplaceChar(classpath + VersionSuffix(pluginVersion), '.', '/')))
    ensures Lower(pluginName) == "" && classpath == "" ==>
      r.name == VersionSuffix(pluginVersion) && r.request == MetadataRequest("", Some(""))
  {
    var name := Lower(pluginName);
    var suffix := VersionSuffix(pluginVersion);
    if name != "" then
      LowerIsLowerCase(pluginName);
      Resolution(name + suffix, MetadataRequest(ReplaceChar(name + suffix, '.', '/'), None))
    else if classpath != "" then
      var base := ClassPathBase(classpath);
      ClassPathBaseShape(classpath);
      Resolution(base + suffix, MetadataRequest(base, Some(ReplaceChar(classpath + suffix, '.', '/'))))
    else
      Resolution(suffix, MetadataRequest("", Some("")))
  }

  /** A class path that ends in a version directory names the plugin by the
      directory above it: `<prefix>.<b>._pv_<x>` gives `b`. */
  lemma VersionedClassPathBase(prefix: string, b: string, x: string)
    requires '.' !in b && '.' !in x
    ensures ClassPathBase(prefix + "." + b + "._pv_" + x) == Lower(b)
  {
    var head := prefix + "." + b;
    var cp := prefix + "." + b + "._pv_" + x;
    assert cp == head + ['.'] + ("_pv_" + x);
    LastIndexAfter(head, "_pv_" + x, '.');
    assert LastSegment(cp) == "_pv_" + x;
    assert Lower("_pv_" + x)[..3] == "_pv";
    assert cp[..|head|] == head;
    assert head == prefix + ['.'] + b;
    LastIndexAfter(prefix, b, '.');
    assert PreviousSegment(cp) == b;
    ClassPathBaseSpec(cp);
  }

  /** Naming a plugin by `plugin_name` or by the class path `plugins.<b>`
      (with or without a version directory at its end) gives the same
      plugin name. */
  lemma NameAndClassPathAgree(b: string, version: string, x: string)
    requires '.' !in b && b != "" && IsLowerCase(b) && '.' !in x
    requires !StartsWith(b, "_pv")
    ensures Resolve(b, version, "").name == Resolve("", version, "plugins." + b).name
    ensures Resolve(b, version, "").name == Resolve("", version, "plugins." + b + "._pv_" + x).name
  {
    LowerIsLowerCase(b);
    assert Lower(b) == b;
    var cp := "plugins." + b;
    assert cp == "plugins" + ['.'] + b;
    LastIndexAfter("plugins", b, '.');
    assert LastSegment(cp) == b;
    ClassPathBaseSpec(cp);
    VersionedClassPathBase("plugins", b, x);
  }

  /** The version suffix for the concrete version `1.4.2`, and the metadata
      path a name-based section asks for. */
  lemma ResolveExample()
    ensures VersionSuffix("1.4.2") == "._pv_1_4_2"
    ensures Resolve("KNX", "1.4.2", "").name == "knx._pv_1_4_2"
    ensures Resolve("KNX", "1.4.2", "").request.addonName == "knx/_pv_1_4_2"
  {
    assert Lower("1.4.2") == "1.4.2";
    assert ReplaceChar("1.4.2", '.', '_') == "1_4_2";
    assert Lower("KNX") == "knx";
    assert ReplaceChar("knx._pv_1_4_2", '.', '/') == "knx/_pv_1_4_2";
  }
}
