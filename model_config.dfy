/**
 * The configuration loader and LLM instance cache (`ModelConfigLoader`).
 *
 * The loader reads `conf.yaml` lazily and keeps the parsed value as a memo; it builds
 * chat-model instances from the `llms` section and caches them by name. The file system
 * is a parameter of every call that may read the file: `None` when the file does not
 * exist, `Some(v)` when it exists and `yaml.safe_load` yields `v` (an empty file yields
 * `VNull`). Constructing the chat model becomes allocating an `Llm` object that records
 * the keyword arguments it was built with.
 */
module ModelConfig {
  import opened Wrappers
  import opened Values
  import Text

  datatype Error =
    | FileNotFound                                         // FileNotFoundError: no configuration file
    | NoLlmsSection                                        // KeyError: the file has no `llms` key
    | LlmNotFound(name: string, available: seq<string>)    // KeyError: no configuration under that name
    | TypeError                                            // `in` or `[...]` on a value that does not support it
    | AttributeError                                       // `.get`, `.keys()` or `.items()` on a non-dict

  /** Python's `key in container` for a string key; `None`, numbers and booleans raise TypeError. */
  function PyContains(container: Value, key: string): (r: Result<bool, Error>)
    ensures container.VDict? ==> r == Success(key in Keys(container.entries))
    ensures r.Failure? <==> !(container.VDict? || container.VList? || container.VStr?)
  {
    match container
    case VDict(d) => Success(key in Keys(d))
    case VList(xs) => Success(VStr(key) in xs)
    case VStr(s) => Success(Text.Occurs(key, s))
    case _ => Failure(TypeError)
  }

  /** The value under `llms` when the configuration is a dict holding that key. */
  function LlmsSection(config: Value): Option<Value>
  {
    if config.VDict? then Get(config.entries, "llms") else None
  }

  /** What `get_llm_config` computes from a loaded configuration. */
  function LlmConfigOf(config: Value, name: string): (r: Result<Value, Error>)
    ensures r.Success? <==>
      LlmsSection(config).Some? && LlmsSection(config).value.VDict? && name in Keys(LlmsSection(config).value.entries)
    ensures r.Success? ==> Some(r.value) == Get(LlmsSection(config).value.entries, name)
    ensures config.VDict? && "llms" !in Keys(config.entries) ==> r == Failure(NoLlmsSection)
    ensures LlmsSection(config).Some? && LlmsSection(config).value.VDict? && name !in Keys(LlmsSection(config).value.entries)
      ==> r == Failure(LlmNotFound(name, Keys(LlmsSection(config).value.entries)))
    ensures config.VNull? ==> r == Failure(TypeError)
    ensures !config.VDict? ==> r == Failure(if PyContains(config, "llms") == Success(false) then NoLlmsSection else TypeError)
    ensures LlmsSection(config).Some? && !LlmsSection(config).value.VDict? ==>
      var section := LlmsSection(config).value;
      r == Failure(if PyContains(section, name) == Success(false) then AttributeError else TypeError)
  {
    match PyContains(config, "llms")
    case Failure(e) => Failure(e)
    case Success(hasSection) =>
      if !hasSection then Failure(NoLlmsSection)
      else if !config.VDict? then Failure(TypeError)    // a list or a string indexed by a string
      else
        var section := Get(config.entries, "llms").value;
        match PyContains(section, name)
        case Failure(e) => Failure(e)
        case Success(found) =>
          if !section.VDict? then
            if found then Failure(TypeError)           // a list or a string indexed by a string
            else Failure(AttributeError)               // `.keys()` on a list or a string
          else if !found then Failure(LlmNotFound(name, Keys(section.entries)))
          else Success(Get(section.entries, name).value)
  }

  /** What `list_available_llms` computes from a loaded configuration: `config.get('llms', {}).keys()`. */
  function AvailableLlms(config: Value): (r: Result<seq<string>, Error>)
    ensures r.Success? <==> config.VDict? && (LlmsSection(config).None? || LlmsSection(config).value.VDict?)
    ensures r.Success? && LlmsSection(config).None? ==> r.value == []
    ensures r.Success? && LlmsSection(config).Some? ==> r.value == Keys(LlmsSection(config).value.entries)
  {
    if !config.VDict? then Failure(AttributeError)
    else
      match Get(config.entries, "llms")
      case None => Success([])
      case Some(section) =>
        if section.VDict? then Success(Keys(section.entries)) else Failure(AttributeError)
  }

  /** Every listed name can be fetched, and every name that can be fetched is listed. */
  lemma ListedIffFetchable(config: Value, names: seq<string>, name: string)
    requires AvailableLlms(config) == Success(names)
    ensures LlmConfigOf(config, name).Success? <==> name in names
  {
  }

  /** `if k not in params: params[k] = v` */
  function SetDefault(d: seq<Entry>, k: string, v: Value): seq<Entry>
  {
    if k in Keys(d) then d else Put(d, k, v)
  }

  /** `[k]` when `k` is not a key of `d`, else nothing. */
  function Missing(d: seq<Entry>, k: string): seq<string>
  {
    if k in Keys(d) then [] else [k]
  }

  lemma {:induction false} SetDefaultSpec(d: seq<Entry>, k: string, v: Value)
    ensures Keys(SetDefault(d, k, v)) == Keys(d) + Missing(d, k)
    ensures Get(SetDefault(d, k, v), k) == if k in Keys(d) then Get(d, k) else Some(v)
    ensures forall k' :: k' != k ==> Get(SetDefault(d, k, v), k') == Get(d, k')
    ensures UniqueKeys(d) ==> UniqueKeys(SetDefault(d, k, v))
  {
    if k !in Keys(d) {
      PutKeys(d, k, v);
      PutGet(d, k, v);
      if UniqueKeys(d) {
        PutUnique(d, k, v);
      }
    }
  }

  /**
   * The keyword arguments `get_llm` builds from a configuration dict: temperature 0.7,
   * max_retries 2 and streaming False, each only where the dict lacks the key.
   */
  function WithDefaults(d: seq<Entry>): seq<Entry>
  {
    SetDefault(SetDefault(SetDefault(d, "temperature", VFloat("0.7")), "max_retries", VInt(2)), "streaming", VBool(false))
  }

  /**
   * Defaults are filled only when absent: every supplied key keeps its value, and each
   * missing default key gets its default.
   */
  lemma WithDefaultsValues(d: seq<Entry>)
    ensures forall k :: k in Keys(d) ==> Get(WithDefaults(d), k) == Get(d, k)
    ensures "temperature" !in Keys(d) ==> Get(WithDefaults(d), "temperature") == Some(VFloat("0.7"))
    ensures "max_retries" !in Keys(d) ==> Get(WithDefaults(d), "max_retries") == Some(VInt(2))
    ensures "streaming" !in Keys(d) ==> Get(WithDefaults(d), "streaming") == Some(VBool(false))
  {
    var d1 := SetDefault(d, "temperature", VFloat("0.7"));
    var d2 := SetDefault(d1, "max_retries", VInt(2));
    SetDefaultSpec(d, "temperature", VFloat("0.7"));
    SetDefaultSpec(d1, "max_retries", VInt(2));
    SetDefaultSpec(d2, "streaming", VBool(false));
  }

  /**
   * Supplied keys keep their places; the missing default keys are appended in the order
   * temperature, max_retries, streaming; nothing else is added and no key is doubled.
   */
  lemma WithDefaultsKeys(d: seq<Entry>)
    ensures Keys(WithDefaults(d)) == Keys(d) + Missing(d, "temperature") + Missing(d, "max_retries") + Missing(d, "streaming")
    ensures UniqueKeys(d) ==> UniqueKeys(WithDefaults(d))
  {
    var d1 := SetDefault(d, "temperature", VFloat("0.7"));
    var d2 := SetDefault(d1, "max_retries", VInt(2));
    SetDefaultSpec(d, "temperature", VFloat("0.7"));
    SetDefaultSpec(d1, "max_retries", VInt(2));
    SetDefaultSpec(d2, "streaming", VBool(false));
    var t, m, st := Missing(d, "temperature"), Missing(d, "max_retries"), Missing(d, "streaming");
    assert "max_retries" in Keys(d1) <==> "max_retries" in Keys(d);
    assert Missing(d1, "max_retries") == m;
    assert "streaming" in Keys(d2) <==> "streaming" in Keys(d);
    assert Missing(d2, "streaming") == st;
  }

  /** Filling defaults twice is the same as filling them once. */
  lemma WithDefaultsIdempotent(d: seq<Entry>)
    ensures WithDefaults(WithDefaults(d)) == WithDefaults(d)
  {
    WithDefaultsKeys(d);
    var w := WithDefaults(d);
    assert "temperature" in Keys(w) && "max_retries" in Keys(w) && "streaming" in Keys(w);
  }

  /** The memo after a load: Python cannot tell a file that parsed to `None` from no memo at all. */
  function MemoOf(v: Value): Option<Value>
  {
    if v == VNull then None else Some(v)
  }

  /** What `load_config` returns, from the memo and the file system at the time of the call. */
  function Loaded(memo: Option<Value>, file: Option<Value>): Result<Value, Error>
  {
    if memo.Some? then Success(memo.value)
    else if file.None? then Failure(FileNotFound)
    else Success(file.value)
  }

  /** The memo after a load: unchanged when present, else what the file yields (nothing when it is missing). */
  function MemoAfter(memo: Option<Value>, file: Option<Value>): Option<Value>
  {
    if memo.Some? || file.None? then memo else MemoOf(file.value)
  }

  /**
   * Once a load has succeeded with a non-empty configuration, every later load returns
   * that same value, whatever the file holds by then.
   */
  lemma LoadIsMemoised(memo: Option<Value>, file: Option<Value>, later: Option<Value>)
    requires memo != Some(VNull)
    requires Loaded(memo, file).Success? && Loaded(memo, file).value != VNull
    ensures Loaded(MemoAfter(memo, file), later) == Loaded(memo, file)
  {
  }

  /** An empty file leaves no memo: the next load reads the file again. */
  lemma EmptyFileIsReread(file: Option<Value>, later: Option<Value>)
    requires file == Some(VNull)
    ensures MemoAfter(None, file) == None
    ensures Loaded(MemoAfter(None, file), later) == Loaded(None, later)
  {
  }

  /** A built chat model; it records the keyword arguments it was constructed with. */
  class Llm {
    const params: seq<Entry>

    constructor (params: seq<Entry>)
      ensures this.params == params
    {
      this.params := params;
    }
  }

  class ModelConfigLoader {
    var config: Option<Value>          // `_config`
    var llmCache: map<string, Llm>     // `_llm_cache`
    ghost var fileReads: nat           // how many times the configuration file was read

    /** A memo holding `None` is the same as no memo. */
    ghost predicate Valid()
      reads this
    {
      config != Some(VNull)
    }

    constructor ()
      ensures Valid() && config == None && llmCache == map[] && fileReads == 0
    {
      config := None;
      llmCache := map[];
      fileReads := 0;
    }

    /** `load_config`: read and memoise the file unless a memo is present. */
    method LoadConfig(file: Option<Value>) returns (r: Result<Value, Error>)
      requires Valid()
      modifies this`config, this`fileReads
      ensures Valid()
      ensures r == Loaded(old(config), file)
      ensures config == MemoAfter(old(config), file)
      ensures fileReads == if old(config).None? && file.Some? then old(fileReads) + 1 else old(fileReads)
    {
      if config.None? {
        if file.None? {
          return Failure(FileNotFound);
        }
        config := MemoOf(file.value);
        fileReads := fileReads + 1;
        return Success(file.value);
      }
      r := Success(config.value);
    }

    /** `get_llm_config`: load, then look the name up in the `llms` section. */
    method GetLlmConfig(file: Option<Value>, name: string) returns (r: Result<Value, Error>)
      requires Valid()
      modifies this`config, this`fileReads
      ensures Valid()
      ensures Loaded(old(config), file).Failure? ==> r == Failure(FileNotFound)
      ensures Loaded(old(config), file).Success? ==> r == LlmConfigOf(Loaded(old(config), file).value, name)
      ensures config == MemoAfter(old(config), file)
      ensures fileReads == if old(config).None? && file.Some? then old(fileReads) + 1 else old(fileReads)
    {
      var loaded := LoadConfig(file);
      match loaded
      case Failure(e) =>
        r := Failure(e);
      case Success(c) =>
        r := LlmConfigOf(c, name);
    }

    /**
     * `get_llm`: a cached instance is returned without consulting the configuration unless
     * `forceReload`; otherwise a new instance is built from the named configuration with
     * defaults filled in and stored under that name.
     */
    method GetLlm(file: Option<Value>, name: string, forceReload: bool) returns (r: Result<Llm, Error>)
      requires Valid()
      modifies this`config, this`fileReads, this`llmCache
      ensures Valid()
      ensures !forceReload && name in old(llmCache) ==>
        r == Success(old(llmCache)[name]) && llmCache == old(llmCache) && config == old(config) && fileReads == old(fileReads)
      ensures forceReload || name !in old(llmCache) ==>
        var lc := if Loaded(old(config), file).Failure? then Failure(FileNotFound)
                  else LlmConfigOf(Loaded(old(config), file).value, name);
        && config == MemoAfter(old(config), file)
        && fileReads == (if old(config).None? && file.Some? then old(fileReads) + 1 else old(fileReads))
        && (lc.Failure? ==> r == Failure(lc.error) && llmCache == old(llmCache))
        && (lc.Success? && !lc.value.VDict? ==> r == Failure(AttributeError) && llmCache == old(llmCache))
        && (lc.Success? && lc.value.VDict? ==>
              && r.Success? && fresh(r.value)
              && r.value.params == WithDefaults(lc.value.entries)
              && llmCache == old(llmCache)[name := r.value])
    {
      if forceReload || name !in llmCache {
        var lc := GetLlmConfig(file, name);
        if lc.Failure? {
          return Failure(lc.error);
        }
        if !lc.value.VDict? {
          return Failure(AttributeError);    // `llm_config.items()` on a non-dict
        }
        var params := lc.value.entries;
        if "temperature" !in Keys(params) {
          params := Put(params, "temperature", VFloat("0.7"));
        }
        if "max_retries" !in Keys(params) {
          params := Put(params, "max_retries", VInt(2));
        }
        if "streaming" !in Keys(params) {
          params := Put(params, "streaming", VBool(false));
        }
        var llm := new Llm(params);
        llmCache := llmCache[name := llm];
      }
      r := Success(llmCache[name]);
    }

    /** `list_available_llms`: load, then list the keys of the `llms` section (none when it is missing). */
    method ListAvailableLlms(file: Option<Value>) returns (r: Result<seq<string>, Error>)
      requires Valid()
      modifies this`config, this`fileReads
      ensures Valid()
      ensures Loaded(old(config), file).Failure? ==> r == Failure(FileNotFound)
      ensures Loaded(old(config), file).Success? ==> r == AvailableLlms(Loaded(old(config), file).value)
      ensures config == MemoAfter(old(config), file)
      ensures fileReads == if old(config).None? && file.Some? then old(fileReads) + 1 else old(fileReads)
    {
      var loaded := LoadConfig(file);
      match loaded
      case Failure(e) =>
        r := Failure(e);
      case Success(c) =>
        r := AvailableLlms(c);
    }

    /** `clear_llm_cache`: drop every instance, or only the named one (nothing when it is absent). */
    method ClearLlmCache(name: Option<string>)
      modifies this`llmCache
      ensures name.None? ==> llmCache == map[]
      ensures name.Some? ==> llmCache == old(llmCache) - {name.value}
      ensures name.Some? && name.value !in old(llmCache) ==> llmCache == old(llmCache)
    {
      if name.None? {
        llmCache := map[];
      } else if name.value in llmCache {
        llmCache := llmCache - {name.value};
      }
    }

    /** `reload_config`: forget the memo and every cached instance. */
    method ReloadConfig()
      modifies this`config, this`llmCache
      ensures Valid() && config == None && llmCache == map[]
    {
      config := None;
      llmCache := map[];
    }
  }
}
