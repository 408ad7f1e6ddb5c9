/** The application configuration store: one JSON file of named sections, read once per
    session and cached in memory, written back whole when a section changes. There are three
    copies in the repository: `components/app_config` (a default path and an optional loader;
    an unreadable file raises), `reflex/core` of the RAG app (a subclass gives the path; an
    unreadable file reads as empty) and `reflex/core` of the apps package (a subclass gives an
    app configuration holding the path, fetched once). The `variant` of the state says which.

    The file system is the field `disk`: a path that is not a key does not exist. A section's
    value is of the type parameter `V`; the `to_json_dict` and `type_(**data)` conversions are
    taken as inverse. */
module AppConfig {
  import opened Wrappers

  datatype Variant = Components | RagCore | AppsCore

  /** What a path holds: a JSON object, or a file that cannot be read or parsed. */
  datatype FileState<V> = JsonFile(content: map<string, V>) | Unreadable

  /** `_config_file_path` of the `components` copy. */
  const DEFAULT_CONFIG_PATH := "/lab/user/bricks/gws_ai_toolkit/src/gws_ai_toolkit/rag/rag_app/_rag_app/app_config.json"

  /** `_load_config_file`: a missing file (or the empty path) reads as `{}`; an unreadable
      one raises a ValueError in the `components` copy and reads as `{}` in the others. */
  function LoadFile<V>(variant: Variant, disk: map<string, FileState<V>>, path: string): (r: Result<map<string, V>>)
    ensures path == "" || path !in disk ==> r == Ok(map[])
    ensures path != "" && path in disk && disk[path].JsonFile? ==> r == Ok(disk[path].content)
    ensures r.Err? <==> path != "" && path in disk && disk[path].Unreadable? && variant == Components
    ensures r.Err? ==> r.kind == ValueError
  {
    if path == "" || path !in disk then Ok(map[])
    else match disk[path]
      case JsonFile(c) => Ok(c)
      case Unreadable => if variant == Components then Err(ValueError) else Ok(map[])
  }

  /** `config.get(key)` converted to the section type; a missing section is the type's
      default instance. */
  function Section<V>(config: map<string, V>, key: string, default: V): (v: V)
    ensures key in config ==> v == config[key]
    ensures key !in config ==> v == default
  {
    if key in config then config[key] else default
  }

  /** A section written to a file reads back from it. */
  lemma SavedSectionReadsBack<V>(variant: Variant, disk: map<string, FileState<V>>, path: string,
                                 config: map<string, V>, key: string, v: V, default: V)
    requires path != ""
    ensures var loaded := LoadFile(variant, disk[path := JsonFile(config[key := v])], path);
            loaded.Ok? && Section(loaded.value, key, default) == v
  {
  }

  /** `get_config_state` / `get_instance`: the `reflex/core` copies find the app's subclass
      of the state, and raise when it is missing; the `components` copy is the state itself. */
  function Instance(variant: Variant, registered: bool): (r: Outcome)
    ensures r.Fail? <==> variant != Components && !registered
    ensures r.Fail? && variant == RagCore ==> r.kind == ValueError
    ensures r.Fail? && variant == AppsCore ==> r.kind == GenericException
  {
    if variant == Components || registered then Pass
    else if variant == RagCore then Fail(ValueError)
    else Fail(GenericException)
  }

  class AppConfigState<V(==)> {
    const variant: Variant
    /** `_config`; the empty map means "not loaded", so an empty file is read again on every
        access. */
    var config: map<string, V>
    /** `_config_file_path` (for the apps copy, the path of the cached `_app_config`). */
    var path: string
    /** Whether the path has been looked up: the apps copy caches the app configuration even
        when its path is empty; the others look again while the path is empty. */
    var pathKnown: bool
    var disk: map<string, FileState<V>>

    predicate Valid()
      reads this
    {
      variant != AppsCore ==> (pathKnown <==> path != "")
    }

    constructor (variant: Variant, disk: map<string, FileState<V>>)
      ensures this.variant == variant && this.disk == disk && config == map[]
      ensures variant == Components ==> path == DEFAULT_CONFIG_PATH && pathKnown
      ensures variant != Components ==> path == "" && !pathKnown
      ensures Valid()
    {
      this.variant := variant;
      this.disk := disk;
      config := map[];
      if variant == Components {
        path := DEFAULT_CONFIG_PATH;
        pathKnown := true;
      } else {
        path := "";
        pathKnown := false;
      }
    }

    /** The path the next file access uses: the cached one, else what the loader (the
        `components` copy) or the subclass gives; the `components` copy raises without a
        loader. */
    function PathOf(loader: Option<string>): (r: Result<string>)
      reads this
      ensures pathKnown ==> r == Ok(path)
      ensures !pathKnown && loader.Some? ==> r == Ok(loader.value)
      ensures r.Err? ==> r.kind == ValueError && !pathKnown && loader.None?
    {
      if pathKnown then Ok(path)
      else if loader.None? then Err(ValueError)
      else Ok(loader.value)
    }

    /** What `config()` returns: the cache when it is not empty, else the file read at the
        path. */
    function Loaded(loader: Option<string>): (r: Result<map<string, V>>)
      reads this
      ensures config != map[] ==> r == Ok(config)
      ensures config == map[] && PathOf(loader).Err? ==> r == Err(PathOf(loader).kind)
      ensures config == map[] && PathOf(loader).Ok? ==> r == LoadFile(variant, disk, PathOf(loader).value)
    {
      if config != map[] then Ok(config)
      else match PathOf(loader)
        case Err(k) => Err(k)
        case Ok(p) => LoadFile(variant, disk, p)
    }

    /** `config_file_path` / `get_config_file_path`: looks the path up once and caches it. */
    method ConfigFilePath(loader: Option<string>) returns (r: Result<string>)
      requires Valid()
      requires variant != Components ==> loader.Some?
      modifies this
      ensures r == old(PathOf(loader))
      ensures Valid() && PathOf(loader) == r
      ensures r.Ok? ==> path == r.value
      ensures r.Ok? && variant == AppsCore ==> pathKnown
      ensures config == old(config) && disk == old(disk)
    {
      if !pathKnown {
        if loader.None? {
          return Err(ValueError);
        }
        path := loader.value;
        pathKnown := variant == AppsCore || path != "";
      }
      r := Ok(path);
    }

    /** `config()`: the cached configuration, or the file read and cached. The `reflex/core`
        copies return `{}` for an empty path without reading. */
    method Config(loader: Option<string>) returns (r: Result<map<string, V>>)
      requires Valid()
      requires variant != Components ==> loader.Some?
      modifies this
      ensures r == old(Loaded(loader))
      ensures r.Ok? ==> config == r.value
      ensures r.Err? ==> config == old(config)
      ensures Valid() && PathOf(loader) == old(PathOf(loader)) && disk == old(disk)
    {
      if config != map[] {
        return Ok(config);
      }
      var p := ConfigFilePath(loader);
      if p.Err? {
        return Err(p.kind);
      }
      if variant != Components && p.value == "" {
        return Ok(map[]);
      }
      var loaded := LoadFile(variant, disk, p.value);
      if loaded.Err? {
        return Err(loaded.kind);
      }
      config := loaded.value;
      r := Ok(config);
    }

    /** `get_config_section`: the section stored under `key`, or the type's default instance. */
    method GetConfigSection(key: string, default: V, loader: Option<string>) returns (r: Result<V>)
      requires Valid()
      requires variant != Components ==> loader.Some?
      modifies this
      ensures old(Loaded(loader)).Ok? ==> r == Ok(Section(old(Loaded(loader)).value, key, default))
      ensures old(Loaded(loader)).Err? ==> r == Err(old(Loaded(loader)).kind)
      ensures Valid() && disk == old(disk)
    {
      var c := Config(loader);
      if c.Err? {
        return Err(c.kind);
      }
      r := Ok(Section(c.value, key, default));
    }

    /** `update_config_section`: the section replaces the one under `key` in the loaded
        configuration, which becomes the cache before the whole configuration is written to
        the path. Writing raises a ValueError when the path is empty or `writable` is false
        (the `open` fails); the cache keeps the new section even then. */
    method UpdateConfigSection(key: string, v: V, loader: Option<string>, writable: bool) returns (r: Outcome)
      requires Valid()
      requires variant != Components ==> loader.Some?
      modifies this
      ensures var before := old(Loaded(loader));
              && (before.Err? ==> r == Fail(before.kind) && config == old(config))
              && (before.Ok? ==> config == before.value[key := v])
              && (before.Ok? ==> (r == Pass <==> old(PathOf(loader)).Ok? && old(PathOf(loader)).value != "" && writable))
      ensures r.Pass? ==> disk == old(disk)[old(PathOf(loader)).value := JsonFile(config)]
      ensures r.Fail? ==> disk == old(disk)
      ensures r.Fail? ==> r.kind == ValueError || old(Loaded(loader)).Err?
      ensures Valid()
    {
      var c := Config(loader);
      if c.Err? {
        return Fail(c.kind);
      }
      var updated := c.value[key := v];
      config := updated;
      var p := ConfigFilePath(loader);
      if p.Err? {
        return Fail(p.kind);
      }
      if p.value == "" || !writable {
        return Fail(ValueError);
      }
      disk := disk[p.value := JsonFile(updated)];
      r := Pass;
    }
  }
}
