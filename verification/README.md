# SmartHomeNG admin API: plugin configuration and plugin views

This project models the plugin part of SmartHomeNG's admin REST interface in Dafny:

- The single-plugin controller (`PluginController` in `modules/admin/api_plugin.py`) reads one section of the plugin configuration file. It can also add a new section or replace an existing one. It refuses to write a configuration that is still in the legacy `.conf` format. The first access to a YAML configuration makes a backup copy, `plugin_before_admin_config.yaml`.
- The views in `modules/admin/api_plugins.py`:
  - the plugin catalog (`PluginsController`) and the installed-plugin information (`PluginsInstalledController`). Both scan the plugins directory once and keep the result in a cache (`plugin_data`).
  - the configuration view (`PluginsConfigController`). It attaches each configured plugin's metadata and description to its section. For a plugin that is not loaded, it first works out the plugin's name and the metadata to load from `plugin_name`, `plugin_version` or `class_path`.
  - the runtime information (`PluginsInfoController`). It lists every plugin instance, sorted by plugin name and instance name, and says which instances can be stopped.

Layout, one module per file:

| file | module | models |
|---|---|---|
| `values.dfy` | `Values` | `Option`, the HTTP error outcomes, JSON/YAML values, `dict.get` and `d[k]` |
| `text.dfy` | `Text` | the Python string operations used: `lower`, `replace`, `split`, `startswith`, `rfind`, `os.path.splitext`, and `str` ordering |
| `api_plugin.dfy` | `PluginApi` | `PluginController` |
| `plugin_catalog.dfy` | `PluginCatalog` | `PluginsController`, `PluginsInstalledController` |
| `plugin_names.dfy` | `PluginNames` | the name part of `PluginsConfigController._get_pluginname_and_metadata` |
| `plugin_config_view.dfy` | `PluginConfigView` | `PluginsConfigController.index` |
| `plugin_runtime_info.dfy` | `PluginRuntimeInfo` | `PluginsInfoController.index` |

Modelling choices:

- **The configuration file** is a `ConfigFile` object with these parts:
  - its path;
  - its sections, kept as an ordered sequence of `(name, settings)`. The YAML round-trip loader keeps file order: an update replaces an entry in place, and an add appends one.
  - its backup copy, if one exists;
  - a ghost counter of the copies made.

  `ToMap` gives the dictionary view of the sections.
- **Exceptions:**
  - A Python exception that ends a request is an `Err(ServerError)` result.
  - `cherrypy.HTTPError(411)` is `Err(LengthRequired)`.
  - `cherrypy.NotFound` is `Err(NotFound)`.
  - An exception the source catches is modelled by what the `except` branch does.
- **Inputs taken as given:** the directory listing, the loaded descriptors, the plugin registry, the metadata loader and the HTTP module's web interfaces.

## Model

| member | source | states |
|---|---|---|
| PluginApi.GetBody | modules/admin/api_plugin.py:55-73 | a missing Content-Length is 411; otherwise the decoded body, where a body that does not decode gives `None` just like the JSON literal `null` |
| PluginApi.RequestParams | modules/admin/api_plugin.py:132-135 | `add`/`update` go on exactly when a Content-Length was sent and the body decodes to something other than `null`; the parameters are then the decoded body |
| PluginApi.ConfigParam | modules/admin/api_plugin.py:150 | `params.get('config', {})` is defined exactly for dict parameters and gives the `config` entry, or `{}` when it is absent |
| PluginApi.Lookup | modules/admin/api_plugin.py:146 | `plugin_conf.get(name)` finds a value exactly when a section of that name exists, and the value is that section's |
| PluginApi.HasSection | modules/admin/api_plugin.py:146-147 | `plugin_conf.get(name) is not None`: a section of that name exists and its settings are not `null` |
| PluginApi.LookupToMap | modules/admin/api_plugin.py:146 | without repeated names, the lookup agrees with the dictionary view of the file |
| PluginApi.Put | modules/admin/api_plugin.py:150 | assigning a section keeps the number of sections when the name exists and appends the new section otherwise |
| PluginApi.PutToMap | modules/admin/api_plugin.py:150 | assigning a section changes exactly that key of the dictionary view, so every other section is unchanged |
| PluginApi.PutKeepsOrder | modules/admin/api_plugin.py:183 | assigning a section keeps names unique, keeps every existing entry in its place, and leaves every other entry as it was |
| PluginApi.ReadAfterPut | modules/admin/api_plugin.py:150-151 | reading a section after writing it gives the written value, and every other name reads as before |
| PluginApi.WritableIff | modules/admin/api_plugin.py:78 | a configuration is writable exactly when its path ends in `.yaml` in any letter case and the file name has a character other than a dot before that ending (the `os.path.splitext` rule) |
| PluginApi.IsReadOnlyConfig | modules/admin/api_plugin.py:78 | a configuration is read-only when the extension `os.path.splitext` gives its path, lower-cased, is not `.yaml` |
| PluginApi.UpperCaseYamlIsWritable | modules/admin/api_plugin.py:78 | `etc/plugin.YAML` is writable |
| PluginApi.ConfIsReadOnly | modules/admin/api_plugin.py:78 | `etc/plugin.conf` is read-only |
| PluginApi.HiddenYamlIsReadOnly | modules/admin/api_plugin.py:78 | `etc/.yaml` has no extension and is read-only |
| PluginApi.BackupAfterTest | modules/admin/api_plugin.py:80-85 | after the test a backup exists exactly when one existed before or the file is writable; an existing backup is never replaced; a read-only file never gets one |
| PluginApi.BackupAfterTestIdempotent | modules/admin/api_plugin.py:83-84 | repeating the test does not change the backup again |
| PluginApi.TestForOldConfig | modules/admin/api_plugin.py:76-87 | returns the read-only status; leaves the sections alone; makes a copy only for a writable file without a backup; so at most one copy is ever made, and none for a read-only file |
| PluginApi.FindConfig | modules/admin/api_plugin.py:114-120 | a section is found exactly when one has the requested name, or when no name is given and the file is not empty; the answer is that section's settings, and without a name it is the last section's |
| PluginApi.Index | modules/admin/api_plugin.py:99-123 | NotFound exactly when nothing matches; otherwise the read-only flag and the selected settings; the file is unchanged apart from the backup |
| PluginApi.Add | modules/admin/api_plugin.py:128-155 | 411 before anything is touched when there are no parameters; a legacy file or an existing (non-null) section is refused with the source's message and the sections unchanged; a server error for non-dict parameters; otherwise `ok`, and the new section holds `params['config']` or `{}` |
| PluginApi.Update | modules/admin/api_plugin.py:161-188 | as for add, except that the refusal is for a missing (or null) section and the existing section is overwritten in place |
| PluginApi.AddThenIndex | modules/admin/api_plugin.py:150-152 | adding a new section to a writable file and reading it back with `index` returns the settings sent, and the file has made at most one copy |
| PluginApi.RestInstantiate | modules/admin/api_plugin.py:206-208 | the resource for an id is the id; no id gives none |
| PluginCatalog.Classify | modules/admin/api_plugins.py:66-71 | an entry is a plugin exactly when its name does not start with `.` or `_` and its `plugin.yaml` has a non-null `plugin` section; it crashes exactly when a present descriptor is not a mapping |
| PluginCatalog.InstalledRecord | modules/admin/api_plugins.py:117-123 | the record exists exactly when the description (default `{'de': '', 'en': ''}`) has the server language; it holds the five keys; `type`, `version`, `documentation` and `multi_instance` default to `''` |
| PluginCatalog.TypeOf | modules/admin/api_plugins.py:74 | `plg_data.get('type', '')`: the plugin's `type`, or `''` when it has none |
| PluginCatalog.DescriptionDefault | modules/admin/api_plugins.py:119-120 | without a description, `de` and `en` give an empty description and any other language fails |
| PluginCatalog.Step | modules/admin/api_plugins.py:66-76 | one iteration of the scan: a skipped entry leaves the cache alone; a plugin entry writes only its own name (its type, or for the installed view `{}`, then `{type}`, then the full record); an exception ends the scan keeping what was written; every other cached name keeps its value |
| PluginCatalog.ScanAll | modules/admin/api_plugins.py:105-125 | the scanning loop over the sorted listing, from an empty cache, stopping at the first exception |
| PluginCatalog.PublicNames | modules/admin/api_plugins.py:110 | the cache invariant of both controllers: no cached name is empty or starts with `.` or `_` |
| PluginCatalog.ScanStops | modules/admin/api_plugins.py:109-123 | once an entry raises, no later entry is looked at |
| PluginCatalog.ScanOnlyPlugins | modules/admin/api_plugins.py:66-74 | every cached name belongs to a listed entry that is not hidden or private and has a `plugin` section |
| PluginCatalog.NoHiddenOrPrivateNames | modules/admin/api_plugins.py:67 | no cached name starts with `.` or `_` |
| PluginCatalog.ScanComplete | modules/admin/api_plugins.py:66-74 | a scan that did not raise caches every plugin of the listing |
| PluginCatalog.ScanValues | modules/admin/api_plugins.py:109-123 | in a scan that did not raise, each plugin's cached value is its type (catalog) or its full record (installed view) |
| PluginCatalog.PluginsController.constructor | modules/admin/api_plugins.py:42-49 | the cache starts empty, so it holds no hidden or private name |
| PluginCatalog.PluginsController.Index | modules/admin/api_plugins.py:53-78 | with a non-empty cache, it answers the cache unchanged without scanning; with an empty one, the cache becomes the scan's result, kept even when an entry raises, and empty when nothing was found; the cache never holds, and the answer never lists, a name starting with `.` or `_` |
| PluginCatalog.PluginsInstalledController.constructor | modules/admin/api_plugins.py:85-92 | the cache starts empty, so it holds no hidden or private name |
| PluginCatalog.PluginsInstalledController.ScanEntry | modules/admin/api_plugins.py:110-123 | the cache updates for one entry follow the scan's step, including the partial record (`{}`, then `{type}`) left when reading the description raises |
| PluginCatalog.PluginsInstalledController.Index | modules/admin/api_plugins.py:96-127 | the fill-once cache rule of the catalog, for the installed-plugin records; the cache never holds, and the answer never lists, a name starting with `.` or `_` |
| PluginNames.VersionSuffix | modules/admin/api_plugins.py:157-159 | empty exactly for an empty version; otherwise `._pv_` followed by the lower-cased version with dots as underscores, so it has no dot after the first character |
| PluginNames.ClassPathBase | modules/admin/api_plugins.py:165-167 | the plugin name a class path stands for: the last `split('.')` piece lower-cased, or the piece before it (Python's index `len - 2`, which is `-1` for a single piece) when the last starts with `_pv` |
| PluginNames.SplitEnds | modules/admin/api_plugins.py:164-166 | the last and the second-to-last `split('.')` pieces (the last again when there is only one) are what follows the last dot and what lies between the last two dots |
| PluginNames.ClassPathBaseSpec | modules/admin/api_plugins.py:164-166 | the name from a class path is its last segment lower-cased, or the segment before it when the last starts with `_pv` |
| PluginNames.ClassPathBaseShape | modules/admin/api_plugins.py:164-166 | that name is lower-case and has no dot |
| PluginNames.Resolve | modules/admin/api_plugins.py:156-175 | the name is the lower-cased `plugin_name`, otherwise the class-path name, and with neither it is empty; the version suffix follows it; the metadata request is the matching path with dots as `/`; the name is always lower-case |
| PluginNames.VersionedClassPathBase | modules/admin/api_plugins.py:165-166 | `<prefix>.<b>._pv_<x>` names the plugin `b` |
| PluginNames.NameAndClassPathAgree | modules/admin/api_plugins.py:156-175 | `plugin_name: b` and `class_path: plugins.b`, with or without a version directory, give the same plugin name |
| PluginNames.ResolveExample | modules/admin/api_plugins.py:156-161 | `KNX` at version `1.4.2` is `knx._pv_1_4_2`, loaded from `knx/_pv_1_4_2` |
| PluginConfigView.StringSetting | modules/admin/api_plugins.py:156-157 | a setting is `''` when absent, the string when it is one, and raises otherwise |
| PluginConfigView.RequestFor | modules/admin/api_plugins.py:156-171 | resolving the metadata raises exactly when `plugin_name` or `plugin_version` is not a string, or, without a plugin name, `class_path` is not one |
| PluginConfigView.Annotate | modules/admin/api_plugins.py:203-231 | a section keeps its name and its other settings. A loaded plugin gets `_meta`, and `_description` only when its metadata has one; a failure there is swallowed. An unloaded plugin gets the metadata of its resolved request and its description, or `{'de': '', 'en': ''}` when there is none. The request fails exactly for a non-mapping section or an unloaded plugin whose settings cannot be resolved |
| PluginConfigView.AnnotateAll | modules/admin/api_plugins.py:203-231 | every section is annotated in file order, and the request fails exactly when some section's iteration raises |
| PluginConfigView.Index | modules/admin/api_plugins.py:179-236 | the read-only flag, with the same one-time backup; the sections unchanged on disk; and the annotated sections in file order |
| PluginRuntimeInfo.LastMount | modules/admin/api_plugins.py:292-295 | the web interface URL comes from the last web interface of the instance, and none exists exactly when no interface matches |
| PluginRuntimeInfo.WebifUrl | modules/admin/api_plugins.py:291-295 | the URL root followed by the mount point of the instance's last web interface, or `''` when it has none |
| PluginRuntimeInfo.FindWebifUrl | modules/admin/api_plugins.py:291-295 | the web interface loop computes exactly `WebifUrl` |
| PluginRuntimeInfo.ParameterEntries | modules/admin/api_plugins.py:297-306 | one entry (name, type, configured value, default) per declared parameter in declaration order, or a failure when one of them has no configured value |
| PluginRuntimeInfo.CollectParameters | modules/admin/api_plugins.py:297-306 | the parameter loop computes exactly `ParameterEntries`, failing at the first missing value |
| PluginRuntimeInfo.InfoOf | modules/admin/api_plugins.py:276-350 | classic plugins have empty version, instance name, web interface URL, parameters and attributes; `stopped` holds exactly when `alive` is readable and false; `stoppable` holds exactly when `alive` is readable and the plugin is not `backend`; the parameters are listed only for a configured SmartPlugin, and building fails exactly when one declared parameter has no configured value |
| PluginRuntimeInfo.BuildInfo | modules/admin/api_plugins.py:276-350 | the loop body, including the web interface, parameter and attribute loops, builds exactly the record `InfoOf` describes |
| PluginRuntimeInfo.Key | modules/admin/api_plugins.py:352 | the sort key `pluginname + instancename` |
| PluginRuntimeInfo.Insert | modules/admin/api_plugins.py:352 | places an element behind every element whose key is not greater than its own |
| PluginRuntimeInfo.SortByKey | modules/admin/api_plugins.py:352 | `sorted(plugin_list, key=...)` as insertion of each element in list order |
| PluginRuntimeInfo.InsertSorted | modules/admin/api_plugins.py:352 | inserting into a sorted list keeps it sorted and adds exactly that element |
| PluginRuntimeInfo.SortByKeyCorrect | modules/admin/api_plugins.py:352 | the list is sorted by `pluginname + instancename` and is a permutation of the input |
| PluginRuntimeInfo.SortByKeyStable | modules/admin/api_plugins.py:352 | entries with equal keys keep their registry order |
| PluginRuntimeInfo.Index | modules/admin/api_plugins.py:258-354 | the answer is the sorted list of all records; it is sorted and a permutation of the records; no `backend` entry is stoppable; a record that cannot be built ends the request |

## Left out

- HTTP and cherrypy request handling, JSON encoding and decoding, YAML loading and saving, and logging. A request's Content-Length header and its decoded body are inputs, and the answers are values.
- A Content-Length header that is present but not a number: `int(cl)` raises. Reading the body in chunks of that length is also not modelled.
- The `plgsection` argument of `add`/`update` defaulting to `None` is not modelled. A section name is always given.
- A configuration file that does not load as a mapping is not modelled. The sections are always a sequence of named entries.
- Where the configuration comes from: `lib.config.parse_basename` and `get_config_filename` are taken to give the file's sections and path. The unused `lib.config.parse` at lines 267-272 of `api_plugins.py` is not part of this model.
- The file system: `os.listdir`, `os.path.isfile`, `shutil.copy2`. The listing is given already in `sorted` order, which fixes the order of the scan and of its exceptions, and each entry carries its loaded `plugin.yaml`, if one exists. The backup file is a field of the configuration object.
- `Metadata` construction and its getters are not part of this model. Neither are the `Plugins` registry and the HTTP module's web interface lookup. Their results are inputs, and they are taken not to raise.
- The order of keys in dictionaries is not modelled. `plugin_data`, each section's settings and every other JSON object are `map`s, so the order in which `json.dumps` lists the cached plugins (sorted names, as inserted) and the placing of `_meta` and `_description` after a section's own settings are not captured. The order of the configuration's sections, of the runtime-info list and of parameters and attributes is kept.
- `str.lower` is modelled for ASCII letters only.
- Concurrency: the `plugin_data` cache is shared by concurrent requests without a lock.
- The unreachable code after the `return` in `PluginsInfoController.index` (`api_plugins.py` lines 360-413).
