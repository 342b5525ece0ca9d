/**
 * The configuration dictionary of GPXScaler: load_config merges the stored JSON object with the
 * defaults, and save_config overrides the loaded dictionary with every argument that is not None.
 * Reading and writing the file are left to the caller: the stored file is a parameter and
 * save_config returns the dictionary it would write.
 */
module ScalerConfig {

  /** The JSON values a configuration entry can hold; JNull is Python's None. */
  datatype Json = JNull | JBool(b: bool) | JNumber(n: real) | JString(s: string)

  type Config = map<string, Json>

  /** The state of gpx_scaler_config.json: absent, present but not a readable JSON object, or loaded. */
  datatype ConfigFile = Missing | Unreadable | Loaded(contents: Config)

  /** The keys of the default configuration, in the order load_config visits them. */
  const ScaleKey: string := "scale"
  const StartLatKey: string := "start_lat"
  const StartLonKey: string := "start_lon"
  const OutputFormatKey: string := "output_format"
  const BaseNameKey: string := "base_name"
  const AddTimingKey: string := "add_timing"
  const PowerKey: string := "power"
  const WeightKey: string := "weight"
  const MinDistanceKey: string := "min_distance"
  const MaxAscentKey: string := "max_ascent"

  const DefaultKeys: seq<string> :=
    [ScaleKey, StartLatKey, StartLonKey, OutputFormatKey, BaseNameKey, AddTimingKey, PowerKey, WeightKey,
     MinDistanceKey, MaxAscentKey]

  function DefaultConfig(): Config
  {
    map[ScaleKey := JNumber(0.5), StartLatKey := JNumber(52.5), StartLonKey := JNumber(4.0),
        OutputFormatKey := JString("tcx"), BaseNameKey := JString(""), AddTimingKey := JBool(false),
        PowerKey := JNumber(250.0), WeightKey := JNumber(75.0), MinDistanceKey := JNull, MaxAscentKey := JNull]
  }

  lemma DefaultKeysAreTheDefaults()
    ensures forall k :: k in DefaultKeys <==> k in DefaultConfig()
  {
  }

  /** The stored object with every missing default key added; stored values always win. */
  function MergeDefaults(contents: Config): (config: Config)
    ensures config.Keys == contents.Keys + DefaultConfig().Keys
    ensures forall k :: k in contents ==> config[k] == contents[k]
    ensures forall k :: k in config && k !in contents ==> config[k] == DefaultConfig()[k]
  {
    map k | k in contents.Keys + DefaultConfig().Keys :: if k in contents then contents[k] else DefaultConfig()[k]
  }

  /** What load_config returns for a given state of the file. */
  function LoadedConfig(file: ConfigFile): (config: Config)
    ensures DefaultConfig().Keys <= config.Keys
  {
    match file
    case Loaded(contents) => MergeDefaults(contents)
    case _ => DefaultConfig()
  }

  method LoadConfig(file: ConfigFile) returns (config: Config)
    ensures config == LoadedConfig(file)
  {
    var defaults := DefaultConfig();
    if !file.Loaded? {
      return defaults;
    }
    var contents := file.contents;
    config := contents;
    for i := 0 to |DefaultKeys|
      invariant forall k :: k in config <==> k in contents || k in DefaultKeys[..i]
      invariant forall k :: k in contents ==> config[k] == contents[k]
      invariant forall k :: k in config && k !in contents ==> k in defaults && config[k] == defaults[k]
    {
      var key := DefaultKeys[i];
      assert key in defaults;
      if key !in config {
        config := config[key := defaults[key]];
      }
      assert DefaultKeys[..i + 1] == DefaultKeys[..i] + [key];
    }
    DefaultKeysAreTheDefaults();
    assert DefaultKeys[..|DefaultKeys|] == DefaultKeys;
    assert config == MergeDefaults(contents);
  }

  /** Merging is idempotent: a file written from a loaded dictionary loads back unchanged. */
  lemma MergeDefaultsIdempotent(contents: Config)
    ensures MergeDefaults(MergeDefaults(contents)) == MergeDefaults(contents)
  {
  }

  /** A stored object holding every default key is returned as it is. */
  lemma CompleteFileLoadsUnchanged(contents: Config)
    requires DefaultConfig().Keys <= contents.Keys
    ensures LoadedConfig(Loaded(contents)) == contents
  {
  }

  /** The keyword arguments of save_config; JNull stands for an argument left at None. */
  datatype SaveArgs = SaveArgs(scale: Json, startLat: Json, startLon: Json, outputFormat: Json, baseName: Json,
                               addTiming: Json, power: Json, weight: Json, minDistance: Json, maxAscent: Json)

  /** The i-th keyword argument of save_config; the arguments come in the order of DefaultKeys. */
  function ArgAt(args: SaveArgs, i: nat): Json
    requires i < |DefaultKeys|
  {
    match i
    case 0 => args.scale
    case 1 => args.startLat
    case 2 => args.startLon
    case 3 => args.outputFormat
    case 4 => args.baseName
    case 5 => args.addTiming
    case 6 => args.power
    case 7 => args.weight
    case 8 => args.minDistance
    case _ => args.maxAscent
  }

  /** The first n overrides of save_config applied to `config`: each argument that is not None replaces its key. */
  function Overridden(config: Config, args: SaveArgs, n: nat): Config
    requires n <= |DefaultKeys|
  {
    if n == 0 then config
    else
      var before := Overridden(config, args, n - 1);
      if ArgAt(args, n - 1) != JNull then before[DefaultKeys[n - 1] := ArgAt(args, n - 1)] else before
  }

  /** On a dictionary holding every default key the overrides add no key. */
  lemma {:induction false} OverriddenKeys(config: Config, args: SaveArgs, n: nat)
    requires n <= |DefaultKeys|
    requires forall k :: k in DefaultKeys ==> k in config
    ensures Overridden(config, args, n).Keys == config.Keys
    decreases n
  {
    if n > 0 {
      OverriddenKeys(config, args, n - 1);
      assert DefaultKeys[n - 1] in DefaultKeys;
    }
  }

  lemma OverriddenStep(config: Config, args: SaveArgs, n: nat)
    requires n < |DefaultKeys|
    ensures Overridden(config, args, n + 1)
         == if ArgAt(args, n) != JNull then Overridden(config, args, n)[DefaultKeys[n] := ArgAt(args, n)]
            else Overridden(config, args, n)
  {
  }

  /** What save_config writes for a given state of the file. */
  function SavedConfig(file: ConfigFile, args: SaveArgs): Config
  {
    Overridden(LoadedConfig(file), args, |DefaultKeys|)
  }

  /** One line of save_config: the key takes the argument when the argument is not None. */
  method Override(config: Config, key: string, arg: Json) returns (r: Config)
    ensures arg != JNull ==> r == config[key := arg]
    ensures arg == JNull ==> r == config
  {
    r := config;
    if arg != JNull {
      r := r[key := arg];
    }
  }

  method SaveConfig(file: ConfigFile, args: SaveArgs) returns (written: Config)
    ensures written == SavedConfig(file, args)
  {
    var config := LoadConfig(file);
    ghost var loaded := config;
    config := Override(config, ScaleKey, args.scale);
    OverriddenStep(loaded, args, 0);
    config := Override(config, StartLatKey, args.startLat);
    OverriddenStep(loaded, args, 1);
    config := Override(config, StartLonKey, args.startLon);
    OverriddenStep(loaded, args, 2);
    config := Override(config, OutputFormatKey, args.outputFormat);
    OverriddenStep(loaded, args, 3);
    config := Override(config, BaseNameKey, args.baseName);
    OverriddenStep(loaded, args, 4);
    config := Override(config, AddTimingKey, args.addTiming);
    OverriddenStep(loaded, args, 5);
    config := Override(config, PowerKey, args.power);
    OverriddenStep(loaded, args, 6);
    config := Override(config, WeightKey, args.weight);
    OverriddenStep(loaded, args, 7);
    config := Override(config, MinDistanceKey, args.minDistance);
    OverriddenStep(loaded, args, 8);
    config := Override(config, MaxAscentKey, args.maxAscent);
    OverriddenStep(loaded, args, 9);
    written := config;
  }

  lemma DefaultKeysDistinct()
    ensures forall i, j :: 0 <= i < j < |DefaultKeys| ==> DefaultKeys[i] != DefaultKeys[j]
  {
  }

  /** After the first n overrides, a key among them holds its argument if one was given, else its old value. */
  lemma {:induction false} OverriddenValue(config: Config, args: SaveArgs, n: nat, i: nat)
    requires i < n <= |DefaultKeys|
    requires forall k :: k in DefaultKeys ==> k in config
    ensures DefaultKeys[i] in Overridden(config, args, n)
    ensures Overridden(config, args, n)[DefaultKeys[i]]
         == if ArgAt(args, i) != JNull then ArgAt(args, i) else config[DefaultKeys[i]]
    decreases n
  {
    assert DefaultKeys[i] in DefaultKeys;
    DefaultKeysDistinct();
    if i < n - 1 {
      OverriddenValue(config, args, n - 1, i);
    } else {
      OverriddenUntouched(config, args, n - 1, DefaultKeys[i]);
    }
  }

  /** A key none of the first n overrides names keeps its value; in particular every key save_config has no argument for. */
  lemma {:induction false} OverriddenUntouched(config: Config, args: SaveArgs, n: nat, key: string)
    requires n <= |DefaultKeys|
    requires key in config && forall j :: 0 <= j < n ==> DefaultKeys[j] != key
    ensures key in Overridden(config, args, n) && Overridden(config, args, n)[key] == config[key]
    decreases n
  {
    if n > 0 {
      OverriddenUntouched(config, args, n - 1, key);
    }
  }

  /** Saving never drops or adds a key: the written dictionary has exactly the keys that were loaded. */
  lemma SavedConfigKeepsKeys(file: ConfigFile, args: SaveArgs)
    ensures SavedConfig(file, args).Keys == LoadedConfig(file).Keys
  {
    DefaultKeysAreTheDefaults();
    OverriddenKeys(LoadedConfig(file), args, |DefaultKeys|);
  }

  /** Loading what save_config wrote gives back every argument that was passed, and the old value of the rest. */
  lemma SaveThenLoad(file: ConfigFile, args: SaveArgs, i: nat)
    requires i < |DefaultKeys|
    ensures var reloaded := LoadedConfig(Loaded(SavedConfig(file, args)));
      DefaultKeys[i] in reloaded &&
      reloaded[DefaultKeys[i]] == if ArgAt(args, i) != JNull then ArgAt(args, i) else LoadedConfig(file)[DefaultKeys[i]]
  {
    SavedConfigKeepsKeys(file, args);
    CompleteFileLoadsUnchanged(SavedConfig(file, args));
    DefaultKeysAreTheDefaults();
    OverriddenValue(LoadedConfig(file), args, |DefaultKeys|, i);
  }

  /** A save with every argument None rewrites the loaded dictionary unchanged. */
  lemma {:induction false} SaveWithoutArgumentsIsIdentity(config: Config, n: nat)
    requires n <= |DefaultKeys|
    ensures Overridden(config, SaveArgs(JNull, JNull, JNull, JNull, JNull, JNull, JNull, JNull, JNull, JNull), n) == config
    decreases n
  {
    if n > 0 {
      SaveWithoutArgumentsIsIdentity(config, n - 1);
    }
  }
}
