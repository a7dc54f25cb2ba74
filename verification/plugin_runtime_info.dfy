/** The runtime-info list (`PluginsInfoController.index`): one record per
    plugin instance the registry holds, sorted by plugin name followed by
    instance name. SmartPlugins report their version, instance, web
    interface, parameters and item attributes; classic plugins report empty
    values for all of these. */
module PluginRuntimeInfo {
  import opened Values
  import opened Text

  /** A web interface the HTTP module has mounted for a plugin. */
  datatype Webif = Webif(instance: string, mount: string)

  /** A parameter the plugin's metadata declares, with the type and default
      value the metadata reports for it. */
  datatype ParamDef = ParamDef(name: string, typ: string, default: Json)

  /** An item attribute the plugin's metadata declares, with its type. */
  datatype ItemDef = ItemDef(name: string, typ: string)

  /** What the metadata getters report about a plugin. */
  datatype Descriptive = Descriptive(typ: Json, description: Json, descriptionLong: Json, keywords: Json,
                                     documentation: Json, support: Json, maintainer: Json, tester: Json)

  /** The state only a SmartPlugin has: `parameters` holds the configured
      values (already turned into strings) by parameter name. */
  datatype SmartState = SmartState(version: string, multiInstance: bool, instance: string,
                                   parameters: map<string, string>, parameterList: seq<ParamDef>,
                                   itemDefinitions: seq<ItemDef>)

  /** A plugin instance in the registry. `alive` is None when reading the
      attribute raises; `smart` is None for a classic plugin. */
  datatype RegisteredPlugin = RegisteredPlugin(shortname: string, configname: string,
                                               classpath: string, classname: string, triggers: string,
                                               alive: Option<bool>, about: Descriptive,
                                               smart: Option<SmartState>)

  datatype ParamEntry = ParamEntry(name: string, typ: string, value: string, default: Json)

  datatype PluginMeta = PluginMeta(classpath: string, classname: string, about: Descriptive)

  /** One element of the answer. */
  datatype PluginInfo = PluginInfo(pluginname: string, configname: string, version: string,
                                   smartplugin: bool, multiinstance: bool, instancename: string,
                                   webifUrl: string, parameters: seq<ParamEntry>, attributes: seq<ItemDef>,
                                   metadata: PluginMeta, triggers: string, stopped: bool, stoppable: bool)

  /** The mount point of the last web interface of `instance`, if any. */
  function LastMount(webifs: seq<Webif>, instance: string): (r: Option<string>)
    ensures r.None? <==> forall i :: 0 <= i < |webifs| ==> webifs[i].instance != instance
    ensures r.Some? ==> exists i :: 0 <= i < |webifs| && webifs[i].instance == instance && webifs[i].mount == r.value
                                    && forall j :: i < j < |webifs| ==> webifs[j].instance != instance
  {
    if |webifs| == 0 then None
    else if webifs[|webifs| - 1].instance == instance then Some(webifs[|webifs| - 1].mount)
    else LastMount(webifs[..|webifs| - 1], instance)
  }

  function WebifUrl(urlRoot: string, webifs: seq<Webif>, instance: string): string {
    match LastMount(webifs, instance)
    case Some(mount) => urlRoot + mount
    case None => ""
  }

  /** The parameter list, or None when a declared parameter has no
      configured value (the lookup raises `KeyError`). */
  function ParameterEntries(defs: seq<ParamDef>, values: map<string, string>): Option<seq<ParamEntry>> {
    if forall i :: 0 <= i < |defs| ==> defs[i].name in values then
      Some(seq(|defs|, i requires 0 <= i < |defs| =>
                 ParamEntry(defs[i].name, defs[i].typ, values[defs[i].name], defs[i].default)))
    else None
  }

  /** The record built for one registry entry, or None when building it
      raises. */
  function InfoOf(x: RegisteredPlugin, urlRoot: string, webifsOf: string -> seq<Webif>): (r: Option<PluginInfo>)
    ensures r.None? <==>
      && x.smart.Some? && |x.smart.value.parameters| > 0
      && exists i :: 0 <= i < |x.smart.value.parameterList| && x.smart.value.parameterList[i].name !in x.smart.value.parameters
    ensures r.Some? ==> r.value.pluginname == x.shortname && r.value.configname == x.configname
                        && r.value.smartplugin == x.smart.Some? && r.value.triggers == x.triggers
                        && r.value.metadata == PluginMeta(x.classpath, x.classname, x.about)
    ensures r.Some? && x.smart.None? ==>
      && r.value.version == "" && r.value.instancename == "" && r.value.webifUrl == ""
      && !r.value.multiinstance && r.value.parameters == [] && r.value.attributes == []
    ensures r.Some? && x.smart.Some? ==>
      && r.value.version == x.smart.value.version && r.value.instancename == x.smart.value.instance
      && r.value.multiinstance == x.smart.value.multiInstance
      && r.value.webifUrl == WebifUrl(urlRoot, webifsOf(x.shortname), x.smart.value.instance)
      && r.value.attributes == x.smart.value.itemDefinitions
      && (|x.smart.value.parameters| == 0 ==> r.value.parameters == [])
      && (|x.smart.value.parameters| > 0 ==>
            var defs := x.smart.value.parameterList;
            && |r.value.parameters| == |defs|
            && forall i :: 0 <= i < |defs| ==>
                 && defs[i].name in x.smart.value.parameters
                 && r.value.parameters[i] ==
                      ParamEntry(defs[i].name, defs[i].typ, x.smart.value.parameters[defs[i].name], defs[i].default))
    ensures r.Some? ==> (r.value.stopped <==> x.alive == Some(false))
    ensures r.Some? ==> (r.value.stoppable <==> x.alive.Some? && x.shortname != "backend")
  {
    var stopped := x.alive == Some(false);
    var stoppable := x.alive.Some? && x.shortname != "backend";
    var meta := PluginMeta(x.classpath, x.classname, x.about);
    match x.smart
    case None =>
      Some(PluginInfo(x.shortname, x.configname, "", false, false, "", "", [], [], meta, x.triggers, stopped, stoppable))
    case Some(sp) =>
      var parameters := if |sp.parameters| > 0 then ParameterEntries(sp.parameterList, sp.parameters) else Some([]);
      if parameters.None? then None
      else Some(PluginInfo(x.shortname, x.configname, sp.version, true, sp.multiInstance, sp.instance,
                           WebifUrl(urlRoot, webifsOf(x.shortname), sp.instance), parameters.value,
                           sp.itemDefinitions, meta, x.triggers, stopped, stoppable))
  }

  /** The web interface loop: the last interface of the instance wins. */
  method FindWebifUrl(urlRoot: string, webifs: seq<Webif>, instance: string) returns (url: string)
    ensures url == WebifUrl(urlRoot, webifs, instance)
  {
    url := "";
    if webifs != [] {
      for k := 0 to |webifs|
        invariant url == WebifUrl(urlRoot, webifs[..k], instance)
      {
        assert webifs[..k + 1][..k] == webifs[..k];
        if webifs[k].instance == instance {
          url := urlRoot + webifs[k].mount;
        }
      }
    }
    assert webifs[..|webifs|] == webifs;
  }

  /** The parameter loop, which raises at the first declared parameter
      without a configured value. */
  method CollectParameters(defs: seq<ParamDef>, values: map<string, string>) returns (r: Option<seq<ParamEntry>>)
    ensures r == ParameterEntries(defs, values)
  {
    var parameters: seq<ParamEntry> := [];
    for k := 0 to |defs|
      invariant |parameters| == k
      invariant forall j :: 0 <= j < k ==>
                  defs[j].name in values && parameters[j] == ParamEntry(defs[j].name, defs[j].typ, values[defs[j].name], defs[j].default)
    {
      var p := defs[k];
      if p.name !in values {
        return None;
      }
      parameters := parameters + [ParamEntry(p.name, p.typ, values[p.name], p.default)];
    }
    assert forall j :: 0 <= j < |defs| ==> defs[j].name in values;
    assert ParameterEntries(defs, values).value == parameters;
    r := Some(parameters);
  }

  /** The loop body of `index` for one registry entry. */
  method BuildInfo(x: RegisteredPlugin, urlRoot: string, webifsOf: string -> seq<Webif>) returns (r: Option<PluginInfo>)
    ensures r == InfoOf(x, urlRoot, webifsOf)
  {
    var meta := PluginMeta(x.classpath, x.classname, x.about);
    var version, multiinstance, instancename, webifUrl := "", false, "", "";
    var parameters: seq<ParamEntry> := [];
    var attributes: seq<ItemDef> := [];
    if x.smart.Some? {
      var sp := x.smart.value;
      version, multiinstance, instancename := sp.version, sp.multiInstance, sp.instance;
      webifUrl := FindWebifUrl(urlRoot, webifsOf(x.shortname), instancename);
      if |sp.parameters| > 0 {
        var entries := CollectParameters(sp.parameterList, sp.parameters);
        if entries.None? {
          return None;
        }
        parameters := entries.value;
      }
      for k := 0 to |sp.itemDefinitions|
        invariant attributes == sp.itemDefinitions[..k]
      {
        attributes := attributes + [sp.itemDefinitions[k]];
      }
      assert sp.itemDefinitions[..|sp.itemDefinitions|] == sp.itemDefinitions;
    }
    var stopped, stoppable := false, false;
    if x.alive.Some? {
      stopped, stoppable := !x.alive.value, true;
    }
    if x.shortname == "backend" {
      stoppable := false;
    }
    r := Some(PluginInfo(x.shortname, x.configname, version, x.smart.Some?, multiinstance, instancename, webifUrl,
                         parameters, attributes, meta, x.triggers, stopped, stoppable));
  }

  /** The sort key of the answer. */
  function Key(p: PluginInfo): string { p.pluginname + p.instancename }

  predicate Sorted(s: seq<PluginInfo>) {
    forall i, j :: 0 <= i < j < |s| ==> LessEq(Key(s[i]), Key(s[j]))
  }

  /** Places `x` after every element whose key is not greater than its own. */
  function Insert(x: PluginInfo, s: seq<PluginInfo>): seq<PluginInfo> {
    if |s| == 0 then [x]
    else if !LessEq(Key(s[0]), Key(x)) then [x] + s
    else [s[0]] + Insert(x, s[1..])
  }

  /** `sorted(plugin_list, key=...)`, which is stable: insertion of each
      element, in list order, behind the elements it does not precede. */
  function SortByKey(l: seq<PluginInfo>): seq<PluginInfo> {
    if |l| == 0 then [] else Insert(l[|l| - 1], SortByKey(l[..|l| - 1]))
  }

  /** The elements of `s` with key `k`, in order. */
  function WithKey(s: seq<PluginInfo>, k: string): seq<PluginInfo> {
    if |s| == 0 then [] else (if Key(s[0]) == k then [s[0]] else []) + WithKey(s[1..], k)
  }

  /** An element no greater than every element of a sorted list can go in
      front of it. */
  lemma ConsSorted(y: PluginInfo, t: seq<PluginInfo>)
    requires Sorted(t)
    requires forall j :: 0 <= j < |t| ==> LessEq(Key(y), Key(t[j]))
    ensures Sorted([y] + t)
  {
    var u := [y] + t;
    forall i, j | 0 <= i < j < |u|
      ensures LessEq(Key(u[i]), Key(u[j]))
    {
      assert u[j] == t[j - 1];
      if i > 0 {
        assert u[i] == t[i - 1];
      }
    }
  }

  lemma {:induction false} InsertSorted(x: PluginInfo, s: seq<PluginInfo>)
    requires Sorted(s)
    ensures Sorted(Insert(x, s))
    ensures multiset(Insert(x, s)) == multiset(s) + multiset{x}
    decreases |s|
  {
    if |s| == 0 {
    } else if !LessEq(Key(s[0]), Key(x)) {
      LessEqTotal(Key(s[0]), Key(x));
      forall j | 0 <= j < |s|
        ensures LessEq(Key(x), Key(s[j]))
      {
        if j > 0 {
          LessEqTransitive(Key(x), Key(s[0]), Key(s[j]));
        }
      }
      ConsSorted(x, s);
    } else {
      var rest := Insert(x, s[1..]);
      SortedTail(s);
      InsertSorted(x, s[1..]);
      assert s == [s[0]] + s[1..];
      forall j | 0 <= j < |rest|
        ensures LessEq(Key(s[0]), Key(rest[j]))
      {
        assert rest[j] in multiset(rest);
        if rest[j] != x {
          assert rest[j] in multiset(s[1..]);
          var m :| 0 <= m < |s[1..]| && s[1..][m] == rest[j];
          assert s[m + 1] == rest[j];
        }
      }
      ConsSorted(s[0], rest);
    }
  }

  /** The sort orders the list by key and keeps every element. */
  lemma {:induction false} SortByKeyCorrect(l: seq<PluginInfo>)
    ensures Sorted(SortByKey(l))
    ensures multiset(SortByKey(l)) == multiset(l)
    decreases |l|
  {
    if |l| > 0 {
      var init := l[..|l| - 1];
      var x := l[|l| - 1];
      SortByKeyCorrect(init);
      assert SortByKey(l) == Insert(x, SortByKey(init));
      InsertSorted(x, SortByKey(init));
      assert l == init + [x];
      assert multiset(l) == multiset(init) + multiset{x};
    }
  }

  lemma {:induction false} WithKeyAppend(a: seq<PluginInfo>, b: seq<PluginInfo>, k: string)
    ensures WithKey(a + b, k) == WithKey(a, k) + WithKey(b, k)
    decreases |a|
  {
    if |a| > 0 {
      WithKeyAppend(a[1..], b, k);
      assert (a + b)[0] == a[0];
      assert (a + b)[1..] == a[1..] + b;
    } else {
      assert a + b == b;
    }
  }

  lemma WithKeySingle(x: PluginInfo, k: string)
    ensures WithKey([x], k) == (if Key(x) == k then [x] else [])
  {
    assert [x][1..] == [];
  }

  lemma {:induction false} WithKeyAbsent(s: seq<PluginInfo>, k: string)
    requires forall i :: 0 <= i < |s| ==> Key(s[i]) != k
    ensures WithKey(s, k) == []
    decreases |s|
  {
    if |s| > 0 {
      WithKeyAbsent(s[1..], k);
    }
  }

  lemma SortedTail(s: seq<PluginInfo>)
    requires Sorted(s) && |s| > 0
    ensures Sorted(s[1..])
  {
    forall i, j | 0 <= i < j < |s[1..]|
      ensures LessEq(Key(s[1..][i]), Key(s[1..][j]))
    {
      assert s[1..][i] == s[i + 1] && s[1..][j] == s[j + 1];
    }
  }

  /** In a sorted list that starts above `x`, no element shares the key
      of `x`. */
  lemma AllAbove(x: PluginInfo, s: seq<PluginInfo>)
    requires Sorted(s) && |s| > 0 && !LessEq(Key(s[0]), Key(x))
    ensures forall i :: 0 <= i < |s| ==> Key(s[i]) != Key(x)
  {
    forall i | 0 <= i < |s|
      ensures Key(s[i]) != Key(x)
    {
      LessEqReflexive(Key(s[i]));
      if i > 0 {
        assert LessEq(Key(s[0]), Key(s[i]));
      }
    }
  }

  lemma {:induction false} InsertStable(x: PluginInfo, s: seq<PluginInfo>, k: string)
    requires Sorted(s)
    ensures WithKey(Insert(x, s), k) == WithKey(s, k) + (if Key(x) == k then [x] else [])
    decreases |s|
  {
    if |s| == 0 {
      WithKeySingle(x, k);
    } else if !LessEq(Key(s[0]), Key(x)) {
      assert Insert(x, s) == [x] + s;
      WithKeyAppend([x], s, k);
      WithKeySingle(x, k);
      if Key(x) == k {
        AllAbove(x, s);
        WithKeyAbsent(s, k);
      }
    } else {
      var rest := Insert(x, s[1..]);
      assert Insert(x, s) == [s[0]] + rest;
      SortedTail(s);
      InsertStable(x, s[1..], k);
      WithKeyAppend([s[0]], rest, k);
      WithKeyAppend([s[0]], s[1..], k);
      assert [s[0]] + s[1..] == s;
    }
  }

  /** The sort is stable: the elements sharing a key keep their order. */
  lemma {:induction false} SortByKeyStable(l: seq<PluginInfo>, k: string)
    ensures WithKey(SortByKey(l), k) == WithKey(l, k)
    decreases |l|
  {
    if |l| > 0 {
      var init := l[..|l| - 1];
      var x := l[|l| - 1];
      var sortedInit := SortByKey(init);
      assert SortByKey(l) == Insert(x, sortedInit);
      SortByKeyStable(init, k);
      SortByKeyCorrect(init);
      InsertStable(x, sortedInit, k);
      assert l == init + [x];
      WithKeyAppend(init, [x], k);
      WithKeySingle(x, k);
    }
  }

  /** The records of all registry entries, in registry order. */
  function Infos(registry: seq<RegisteredPlugin>, urlRoot: string, webifsOf: string -> seq<Webif>): seq<PluginInfo>
    requires forall i :: 0 <= i < |registry| ==> InfoOf(registry[i], urlRoot, webifsOf).Some?
  {
    seq(|registry|, i requires 0 <= i < |registry| => InfoOf(registry[i], urlRoot, webifsOf).value)
  }

  /** `PluginsInfoController.index`: a record per registry entry, sorted by
      plugin name and instance name; an entry whose record cannot be built
      ends the request. */
  method Index(registry: seq<RegisteredPlugin>, urlRoot: string, webifsOf: string -> seq<Webif>)
    returns (r: Result<seq<PluginInfo>>)
    ensures r.Ok? <==> forall i :: 0 <= i < |registry| ==> InfoOf(registry[i], urlRoot, webifsOf).Some?
    ensures r.Err? ==> r.error == ServerError
    ensures r.Ok? ==> r.value == SortByKey(Infos(registry, urlRoot, webifsOf))
    ensures r.Ok? ==> Sorted(r.value) && multiset(r.value) == multiset(Infos(registry, urlRoot, webifsOf))
    ensures r.Ok? ==> forall p :: p in r.value && p.pluginname == "backend" ==> !p.stoppable
  {
    var pluginList: seq<PluginInfo> := [];
    for i := 0 to |registry|
      invariant |pluginList| == i
      invariant forall j :: 0 <= j < i ==>
                  InfoOf(registry[j], urlRoot, webifsOf).Some? && pluginList[j] == InfoOf(registry[j], urlRoot, webifsOf).value
    {
      var plugin := BuildInfo(registry[i], urlRoot, webifsOf);
      if plugin.None? {
        return Err(ServerError);
      }
      pluginList := pluginList + [plugin.value];
    }
    assert pluginList == Infos(registry, urlRoot, webifsOf);
    var sorted := SortByKey(pluginList);
    SortByKeyCorrect(pluginList);
    forall p | p in sorted && p.pluginname == "backend"
      ensures !p.stoppable
    {
      assert p in multiset(pluginList);
      var j :| 0 <= j < |pluginList| && pluginList[j] == p;
    }
    r := Ok(sorted);
  }
}
