/**
 * The application's configuration (Settings.java): a key/value map built
 * lazily from two layers, the properties bundled with the application and the
 * user's `config/config.properties`, cached until `reload()`, and read through
 * typed accessors that share one lookup rule and differ in how they convert
 * the text they find.
 *
 * The layers are given as the entries `Properties.load` would read from them,
 * in file order; the bundled layer is `None` when the application carries no
 * such resource. The disk is a value describing the override file and the
 * `config` folder, and `Get` returns the disk as it leaves it.
 */
module Settings {
  import opened Wrappers
  import opened JavaLang

  /** One `key=value` line of a properties file. */
  datatype Entry = Entry(key: string, value: string)

  /** The resolved configuration: what `Properties.getProperty` looks keys up in. */
  type Snapshot = map<string, string>

  /** The exceptions the settings code lets escape. */
  datatype SettingsError =
    | LoadFailed                   // the RuntimeException wrapping an IOException while loading
    | MissingProperty(key: string) // "Cannot find property '<key>' in config"
    | NumberFormat(text: string)   // the NumberFormatException of a numeric conversion

  /** An RGBA colour, as `new Color(r, g, b, a)` is given it. */
  datatype Color = Color(red: Int32, green: Int32, blue: Int32, alpha: Int32)

  const WHITE := Color(255, 255, 255, 255)
  const BLACK := Color(0, 0, 0, 255)

  // ---------------------------------------------------------------------------
  // Layers

  /** The map that putting the entries one after another leaves: the last entry for a key wins. */
  function AsMap(es: seq<Entry>): (m: Snapshot)
    ensures es != [] ==> es[|es| - 1].key in m && m[es[|es| - 1].key] == es[|es| - 1].value
  {
    if es == [] then map[]
    else AsMap(es[..|es| - 1])[es[|es| - 1].key := es[|es| - 1].value]
  }

  /** A key is in the map exactly when some entry names it, and it holds the value of the last such entry. */
  lemma {:induction false} AsMapLastEntryWins(es: seq<Entry>, k: string)
    ensures k in AsMap(es) <==> exists i :: 0 <= i < |es| && es[i].key == k
    ensures k in AsMap(es) ==>
      exists i :: 0 <= i < |es| && es[i].key == k && AsMap(es)[k] == es[i].value &&
        forall j :: i < j < |es| ==> es[j].key != k
  {
    if es != [] {
      var n := |es| - 1;
      var front := es[..n];
      AsMapLastEntryWins(front, k);
      if es[n].key == k {
        assert AsMap(es)[k] == es[n].value;
      } else if k in AsMap(es) {
        var i :| 0 <= i < |front| && front[i].key == k && AsMap(front)[k] == front[i].value &&
          forall j :: i < j < |front| ==> front[j].key != k;
        assert es[i] == front[i];
      } else {
        forall i | 0 <= i < |es| ensures es[i].key != k {
          if i < n { assert es[i] == front[i]; }
        }
      }
    }
  }

  /** The user's `config/config.properties` in the working directory. */
  datatype OverrideFile =
    | Absent
    | Readable(entries: seq<Entry>)
    | Unreadable                   // present, but reading its bytes fails

  /** What loading finds on disk: the override file and the `config` folder, and whether creating either works. */
  datatype Disk = Disk(file: OverrideFile, folderExists: bool, mkdirSucceeds: bool, copySucceeds: bool)

  /** What one call of `get()` with an empty cache leaves: the cached map, what the call returns or throws, and the disk. */
  datatype LoadOutcome = LoadOutcome(properties: Snapshot, result: Result<Snapshot, SettingsError>, disk: Disk)

  /** The bundled layer as a map; empty when the application carries no bundled properties. */
  function BundledMap(bundle: Option<seq<Entry>>): Snapshot
  {
    if bundle.Some? then AsMap(bundle.value) else map[]
  }

  /**
   * Loading with an empty cache: the bundled layer first, then, when the
   * override file exists, the override layer into the same map. Without an
   * override file the `config` folder is created if need be and the bundled
   * file copied there. Whatever happens, the map built so far is what stays cached.
   */
  function Load(bundle: Option<seq<Entry>>, disk: Disk): (o: LoadOutcome)
    ensures o.result.Ok? ==> o.result.value == o.properties
    ensures o.result.Err? ==> o.result.error == LoadFailed
    ensures o.disk.file != disk.file ==> disk.file == Absent && bundle.Some? && o.disk.file == Readable(bundle.value)
  {
    var base := BundledMap(bundle);
    match disk.file
    case Readable(es) => LoadOutcome(base + AsMap(es), Ok(base + AsMap(es)), disk)
    case Unreadable => LoadOutcome(base, Err(LoadFailed), disk)
    case Absent =>
      if !disk.folderExists && !disk.mkdirSucceeds then LoadOutcome(base, Ok(base), disk)
      else
        var made := disk.(folderExists := true);
        if bundle.None? then LoadOutcome(base, Ok(base), made)
        else if disk.copySucceeds then LoadOutcome(base, Ok(base), made.(file := Readable(bundle.value)))
        else LoadOutcome(base, Err(LoadFailed), made)
  }

  /** Layering: a key of the override file takes the override's value; a key only the bundle has keeps the bundle's. */
  lemma LoadOverrideWins(bundle: Option<seq<Entry>>, es: seq<Entry>, disk: Disk, k: string)
    requires disk.file == Readable(es)
    ensures Load(bundle, disk).result == Ok(Load(bundle, disk).properties)
    ensures k in AsMap(es) ==> k in Load(bundle, disk).properties && Load(bundle, disk).properties[k] == AsMap(es)[k]
    ensures k !in AsMap(es) && k in BundledMap(bundle) ==>
      k in Load(bundle, disk).properties && Load(bundle, disk).properties[k] == BundledMap(bundle)[k]
    ensures k in Load(bundle, disk).properties ==> k in AsMap(es) || k in BundledMap(bundle)
  {
  }

  /** Without an override file the configuration is the bundle alone, or empty when there is no bundle. */
  lemma LoadWithoutOverride(bundle: Option<seq<Entry>>, disk: Disk)
    requires disk.file == Absent
    ensures Load(bundle, disk).properties == BundledMap(bundle)
    ensures bundle.None? ==> Load(bundle, disk).properties == map[] && Load(bundle, disk).result == Ok(map[])
    ensures Load(bundle, disk).result.Err? <==> bundle.Some? && (disk.folderExists || disk.mkdirSucceeds) && !disk.copySucceeds
  {
  }

  /** An override file that cannot be read is an error, and what stays cached is the bundled layer already loaded. */
  lemma LoadFailureKeepsBundle(bundle: Option<seq<Entry>>, disk: Disk)
    requires disk.file == Unreadable
    ensures Load(bundle, disk).result == Err(LoadFailed)
    ensures Load(bundle, disk).properties == BundledMap(bundle)
  {
  }

  /**
   * The first run writes the bundled file out as the override file, and a
   * later load from that disk yields the same configuration.
   */
  lemma BootstrapCopyIsStable(bundle: seq<Entry>, disk: Disk)
    requires disk.file == Absent && (disk.folderExists || disk.mkdirSucceeds) && disk.copySucceeds
    ensures Load(Some(bundle), disk).disk.file == Readable(bundle)
    ensures Load(Some(bundle), Load(Some(bundle), disk).disk).result == Load(Some(bundle), disk).result
  {
    var m := AsMap(bundle);
    assert m + m == m;
  }

  // ---------------------------------------------------------------------------
  // The cache

  /** The static state of Settings.java: the cached `Properties`, `null` until first use. */
  class Settings {
    var properties: Option<Snapshot>

    constructor ()
      ensures properties == None
    {
      properties := None;
    }

    /** `Properties.load` into the cached map: every entry is put in turn. */
    method LoadEntries(es: seq<Entry>)
      requires properties.Some?
      modifies this
      ensures properties == Some(old(properties.value) + AsMap(es))
    {
      var i := 0;
      assert es[..0] == [];
      assert properties.value + map[] == properties.value;
      while i < |es|
        invariant 0 <= i <= |es|
        invariant properties == Some(old(properties.value) + AsMap(es[..i]))
      {
        assert es[..i + 1][..i] == es[..i];
        assert AsMap(es[..i + 1]) == AsMap(es[..i])[es[i].key := es[i].value];
        assert (old(properties.value) + AsMap(es[..i]))[es[i].key := es[i].value]
            == old(properties.value) + AsMap(es[..i])[es[i].key := es[i].value];
        properties := Some(properties.value[es[i].key := es[i].value]);
        i := i + 1;
      }
      assert es[..|es|] == es;
    }

    /**
     * `get()`: the cached map when there is one, without touching the disk;
     * otherwise a fresh load, whose map is cached even when the load then fails.
     */
    method Get(bundle: Option<seq<Entry>>, disk: Disk) returns (r: Result<Snapshot, SettingsError>, disk': Disk)
      modifies this
      ensures old(properties).Some? ==> properties == old(properties) && r == Ok(old(properties).value) && disk' == disk
      ensures old(properties).None? ==>
        properties == Some(Load(bundle, disk).properties) && r == Load(bundle, disk).result && disk' == Load(bundle, disk).disk
    {
      if properties.Some? {
        return Ok(properties.value), disk;
      }
      properties := Some(map[]);
      if bundle.Some? {
        LoadEntries(bundle.value);
        assert map[] + AsMap(bundle.value) == AsMap(bundle.value);
      }
      match disk.file {
        case Readable(es) =>
          LoadEntries(es);
          return Ok(properties.value), disk;
        case Unreadable =>
          return Err(LoadFailed), disk;
        case Absent =>
      }
      if !disk.folderExists && !disk.mkdirSucceeds {
        return Ok(properties.value), disk;
      }
      disk' := disk.(folderExists := true);
      if bundle.Some? {
        if !disk.copySucceeds {
          return Err(LoadFailed), disk';
        }
        disk' := disk'.(file := Readable(bundle.value));
      }
      r := Ok(properties.value);
    }

    /** `reload()`: drops the cache, so that the next lookup loads again. */
    method Reload()
      modifies this
      ensures properties == None
    {
      properties := None;
    }

    /** `getProperty` as the accessors call it: `get()` first, then the lookup rule on the map it yields. */
    method Lookup<T>(bundle: Option<seq<Entry>>, disk: Disk, key: string, default: Option<T>,
                     convert: string -> Result<Option<T>, SettingsError>)
      returns (r: Result<Option<T>, SettingsError>, disk': Disk)
      modifies this
      ensures properties.Some?
      ensures old(properties).Some? ==> properties == old(properties) && disk' == disk
      ensures old(properties).None? ==> properties == Some(Load(bundle, disk).properties) && disk' == Load(bundle, disk).disk
      ensures old(properties).None? && Load(bundle, disk).result.Err? ==> r == Err(LoadFailed)
      ensures old(properties).Some? || Load(bundle, disk).result.Ok? ==>
        r == GetProperty(properties.value, key, default, convert)
    {
      var loaded;
      loaded, disk' := Get(bundle, disk);
      match loaded {
        case Err(e) => r := Err(e);
        case Ok(p) => r := GetProperty(p, key, default, convert);
      }
    }
  }

  // ---------------------------------------------------------------------------
  // The lookup rule

  /**
   * `getProperty`: an absent key gives the default, or the missing-property
   * error when the default is null; a present value goes through the converter,
   * whose exception escapes and whose null gives the default.
   */
  function GetProperty<T>(p: Snapshot, key: string, default: Option<T>,
                          convert: string -> Result<Option<T>, SettingsError>): (r: Result<Option<T>, SettingsError>)
    ensures key !in p && default.None? ==> r == Err(MissingProperty(key))
    ensures key !in p && default.Some? ==> r == Ok(default)
    ensures key in p && convert(p[key]).Err? ==> r == convert(p[key])
    ensures key in p && convert(p[key]) == Ok(None) ==> r == Ok(default)
    ensures key in p && convert(p[key]).Ok? && convert(p[key]).value.Some? ==> r == convert(p[key])
  {
    if key !in p then
      if default.None? then Err(MissingProperty(key)) else Ok(default)
    else
      match convert(p[key])
      case Err(e) => Err(e)
      case Ok(None) => Ok(default)
      case Ok(Some(v)) => Ok(Some(v))
  }

  // ---------------------------------------------------------------------------
  // Converters

  /** Parses every string with `Integer.parseInt` in order; the first that fails is the exception. */
  function ParseAll(parts: seq<string>): (r: Result<seq<Int32>, SettingsError>)
    ensures r.Ok? <==> forall i :: 0 <= i < |parts| ==> ParseInt(parts[i]).Some?
    ensures r.Ok? ==> |r.value| == |parts| && forall i :: 0 <= i < |parts| ==> ParseInt(parts[i]) == Some(r.value[i])
    ensures r.Err? ==> exists i :: (0 <= i < |parts| && ParseInt(parts[i]).None? && r.error == NumberFormat(parts[i]) &&
      forall j :: 0 <= j < i ==> ParseInt(parts[j]).Some?)
  {
    if parts == [] then Ok([])
    else match ParseInt(parts[0])
      case None => Err(NumberFormat(parts[0]))
      case Some(v) =>
        match ParseAll(parts[1..])
        case Err(e) =>
          assert forall i :: 1 <= i < |parts| ==> parts[i] == parts[1..][i - 1];
          Err(e)
        case Ok(vs) =>
          assert forall i :: 1 <= i < |parts| ==> parts[i] == parts[1..][i - 1];
          Ok([v] + vs)
  }

  /** Every element trimmed. */
  function TrimAll(parts: seq<string>): (r: seq<string>)
    ensures |r| == |parts| && forall i :: 0 <= i < |parts| ==> r[i] == Trim(parts[i])
  {
    seq(|parts|, i requires 0 <= i < |parts| => Trim(parts[i]))
  }

  /** Four parts, each trimmed and parsed, make a colour; any other count is null. */
  function ColorOfParts(parts: seq<string>): (r: Result<Option<Color>, SettingsError>)
    ensures |parts| != 4 <==> r == Ok(None)
    ensures |parts| == 4 ==>
      (r.Ok? <==> ParseInt(Trim(parts[0])).Some? && ParseInt(Trim(parts[1])).Some? &&
                  ParseInt(Trim(parts[2])).Some? && ParseInt(Trim(parts[3])).Some?)
    ensures r.Ok? && r.value.Some? ==>
      ParseInt(Trim(parts[0])) == Some(r.value.value.red) && ParseInt(Trim(parts[1])) == Some(r.value.value.green) &&
      ParseInt(Trim(parts[2])) == Some(r.value.value.blue) && ParseInt(Trim(parts[3])) == Some(r.value.value.alpha)
    ensures r.Err? ==> r.error.NumberFormat?
  {
    if |parts| != 4 then Ok(None)
    else
      match ParseInt(Trim(parts[0]))
      case None => Err(NumberFormat(Trim(parts[0])))
      case Some(red) =>
        match ParseInt(Trim(parts[1]))
        case None => Err(NumberFormat(Trim(parts[1])))
        case Some(green) =>
          match ParseInt(Trim(parts[2]))
          case None => Err(NumberFormat(Trim(parts[2])))
          case Some(blue) =>
            match ParseInt(Trim(parts[3]))
            case None => Err(NumberFormat(Trim(parts[3])))
            case Some(alpha) => Ok(Some(Color(red, green, blue, alpha)))
  }

  /** The colour converter: the value split on commas, four parts making a colour. */
  function ColorConverter(data: string): (r: Result<Option<Color>, SettingsError>)
    ensures |Split(data, ',')| != 4 <==> r == Ok(None)
    ensures |Split(data, ',')| == 4 ==>
      (r.Ok? <==> ParseInt(Trim(Split(data, ',')[0])).Some? && ParseInt(Trim(Split(data, ',')[1])).Some? &&
                  ParseInt(Trim(Split(data, ',')[2])).Some? && ParseInt(Trim(Split(data, ',')[3])).Some?)
    ensures r.Ok? && r.value.Some? ==>
      var c := r.value.value;
      ParseInt(Trim(Split(data, ',')[0])) == Some(c.red) && ParseInt(Trim(Split(data, ',')[1])) == Some(c.green) &&
      ParseInt(Trim(Split(data, ',')[2])) == Some(c.blue) && ParseInt(Trim(Split(data, ',')[3])) == Some(c.alpha)
    ensures r.Err? ==> r.error.NumberFormat?
  {
    ColorOfParts(Split(data, ','))
  }

  /** `Integer::parseInt` as a converter: the value parsed, or its NumberFormatException. */
  function IntConverter(data: string): (r: Result<Option<Int32>, SettingsError>)
    ensures r.Ok? <==> ParseInt(data).Some?
    ensures r.Ok? ==> r.value == ParseInt(data)
    ensures r.Err? ==> r.error == NumberFormat(data)
  {
    match ParseInt(data)
    case None => Err(NumberFormat(data))
    case Some(v) => Ok(Some(v))
  }

  /** `Long::parseLong` as a converter. */
  function LongConverter(data: string): (r: Result<Option<Int64>, SettingsError>)
    ensures r.Ok? <==> ParseLong(data).Some?
    ensures r.Ok? ==> r.value == ParseLong(data)
    ensures r.Err? ==> r.error == NumberFormat(data)
  {
    match ParseLong(data)
    case None => Err(NumberFormat(data))
    case Some(v) => Ok(Some(v))
  }

  /** `Boolean::parseBoolean` as a converter: never null, never an exception. */
  function BooleanConverter(data: string): (r: Result<Option<bool>, SettingsError>)
    ensures r.Ok? && r.value.Some?
    ensures r.value.value <==> EqualsIgnoreCase("true", data)
  {
    Ok(Some(ParseBoolean(data)))
  }

  /** The identity converter of the `String` accessor: the text as written, never null. */
  function StringConverter(data: string): (r: Result<Option<string>, SettingsError>)
    ensures r.Ok? && r.value.Some? && r.value.value == data
  {
    Ok(Some(data))
  }

  /** The string-list converter: the value split on the divider, every element trimmed; it never fails. */
  function StringListConverter(divider: char, data: string): (r: Result<Option<seq<string>>, SettingsError>)
    ensures r.Ok? && r.value.Some? && |r.value.value| == |Split(data, divider)|
    ensures forall i :: 0 <= i < |r.value.value| ==> r.value.value[i] == Trim(Split(data, divider)[i])
  {
    Ok(Some(TrimAll(Split(data, divider))))
  }

  /** The `int`-list converter: the value split on the divider, every element parsed untrimmed, the first failure escaping. */
  function IntListConverter(divider: char, data: string): (r: Result<Option<seq<Int32>>, SettingsError>)
    ensures r.Ok? <==> forall i :: 0 <= i < |Split(data, divider)| ==> ParseInt(Split(data, divider)[i]).Some?
    ensures r.Ok? ==> (r.value.Some? && |r.value.value| == |Split(data, divider)| &&
      forall i :: 0 <= i < |r.value.value| ==> ParseInt(Split(data, divider)[i]) == Some(r.value.value[i]))
    ensures r.Err? ==> exists i :: (0 <= i < |Split(data, divider)| && ParseInt(Split(data, divider)[i]).None? &&
      r.error == NumberFormat(Split(data, divider)[i]) && forall j :: 0 <= j < i ==> ParseInt(Split(data, divider)[j]).Some?)
  {
    match ParseAll(Split(data, divider))
    case Err(e) => Err(e)
    case Ok(vs) => Ok(Some(vs))
  }

  /** Four parts whose trimmed texts all parse as `int`. */
  predicate ChannelsParse(parts: seq<string>) {
    |parts| == 4 && ParseInt(Trim(parts[0])).Some? && ParseInt(Trim(parts[1])).Some? &&
    ParseInt(Trim(parts[2])).Some? && ParseInt(Trim(parts[3])).Some?
  }

  /** `c` is the colour whose red, green, blue and alpha are the four parts, trimmed and parsed. */
  predicate IsColorOf(parts: seq<string>, c: Color) {
    |parts| == 4 && ParseInt(Trim(parts[0])) == Some(c.red) && ParseInt(Trim(parts[1])) == Some(c.green) &&
    ParseInt(Trim(parts[2])) == Some(c.blue) && ParseInt(Trim(parts[3])) == Some(c.alpha)
  }

  // ---------------------------------------------------------------------------
  // Typed accessors (the private `get(property, defVal)` overloads)

  /** `get(String, Color)`: a badly shaped colour falls back on the default; a bad channel is an error. */
  function GetColor(p: Snapshot, key: string, default: Option<Color>): (r: Result<Option<Color>, SettingsError>)
    ensures key !in p ==> r == if default.Some? then Ok(default) else Err(MissingProperty(key))
    ensures key in p && |Split(p[key], ',')| != 4 ==> r == Ok(default)
    ensures key in p && |Split(p[key], ',')| == 4 ==> (r.Ok? <==> ChannelsParse(Split(p[key], ',')))
    ensures key in p && |Split(p[key], ',')| == 4 && r.Ok? ==> r.value.Some? && IsColorOf(Split(p[key], ','), r.value.value)
    ensures default.Some? && r.Ok? ==> r.value.Some?
    ensures r.Err? ==> (key !in p && default.None?) || (key in p && |Split(p[key], ',')| == 4 && r.error.NumberFormat?)
  {
    GetProperty(p, key, default, ColorConverter)
  }

  /** `get(String, int)`: a present value must parse; it never falls back on the default. */
  function GetInt(p: Snapshot, key: string, default: Int32): (r: Result<Int32, SettingsError>)
    ensures key !in p ==> r == Ok(default)
    ensures key in p ==> (r.Ok? <==> ParseInt(p[key]).Some?)
    ensures key in p && r.Ok? ==> ParseInt(p[key]) == Some(r.value)
    ensures key in p && r.Err? ==> r.error == NumberFormat(p[key])
  {
    var r := GetProperty<Int32>(p, key, Some(default), IntConverter);
    assert key in p ==> IntConverter(p[key]) != Ok(None);
    match r
    case Err(e) => Err(e)
    case Ok(v) =>
      var x: Int32 := if v.Some? then v.value else default;
      Ok(x)
  }

  /** `get(String, long)`: as for `int`, over the 64-bit range. */
  function GetLong(p: Snapshot, key: string, default: Int64): (r: Result<Int64, SettingsError>)
    ensures key !in p ==> r == Ok(default)
    ensures key in p ==> (r.Ok? <==> ParseLong(p[key]).Some?)
    ensures key in p && r.Ok? ==> ParseLong(p[key]) == Some(r.value)
    ensures key in p && r.Err? ==> r.error == NumberFormat(p[key])
  {
    var r := GetProperty<Int64>(p, key, Some(default), LongConverter);
    assert key in p ==> LongConverter(p[key]) != Ok(None);
    match r
    case Err(e) => Err(e)
    case Ok(v) =>
      var x: Int64 := if v.Some? then v.value else default;
      Ok(x)
  }

  /** `get(String, boolean)`: never fails; a present value is true exactly when it reads "true" in any case. */
  function GetBool(p: Snapshot, key: string, default: bool): (r: Result<bool, SettingsError>)
    ensures r.Ok?
    ensures key !in p ==> r.value == default
    ensures key in p ==> (r.value <==> EqualsIgnoreCase("true", p[key]))
  {
    var r := GetProperty<bool>(p, key, Some(default), BooleanConverter);
    assert key in p ==> BooleanConverter(p[key]) != Ok(None);
    match r
    case Err(e) => Err(e)
    case Ok(v) =>
      var x: bool := if v.Some? then v.value else default;
      Ok(x)
  }

  /** `get(String, String)`: a present value is returned as written. */
  function GetString(p: Snapshot, key: string, default: Option<string>): (r: Result<Option<string>, SettingsError>)
    ensures key !in p ==> r == if default.Some? then Ok(default) else Err(MissingProperty(key))
    ensures key in p ==> r == Ok(Some(p[key]))
  {
    GetProperty(p, key, default, StringConverter)
  }

  /** `get(String, String[], String)`: the value split on the divider, each element trimmed. */
  function GetStringList(p: Snapshot, key: string, default: Option<seq<string>>, divider: char)
    : (r: Result<Option<seq<string>>, SettingsError>)
    ensures key !in p ==> r == if default.Some? then Ok(default) else Err(MissingProperty(key))
    ensures key in p ==> r.Ok? && r.value.Some? && |r.value.value| == |Split(p[key], divider)|
    ensures key in p ==> forall i :: 0 <= i < |r.value.value| ==> r.value.value[i] == Trim(Split(p[key], divider)[i])
  {
    GetProperty(p, key, default, data => StringListConverter(divider, data))
  }

  /** `get(String, int[], String)`: the value split on the divider, each element parsed as it stands, untrimmed. */
  function GetIntList(p: Snapshot, key: string, default: Option<seq<Int32>>, divider: char)
    : (r: Result<Option<seq<Int32>>, SettingsError>)
    ensures key !in p ==> r == if default.Some? then Ok(default) else Err(MissingProperty(key))
    ensures key in p ==> (r.Ok? <==> forall i :: 0 <= i < |Split(p[key], divider)| ==> ParseInt(Split(p[key], divider)[i]).Some?)
    ensures key in p && r.Ok? ==> (r.value.Some? && |r.value.value| == |Split(p[key], divider)| &&
      forall i :: 0 <= i < |r.value.value| ==> ParseInt(Split(p[key], divider)[i]) == Some(r.value.value[i]))
    ensures key in p && r.Err? ==> exists i :: (0 <= i < |Split(p[key], divider)| && ParseInt(Split(p[key], divider)[i]).None? &&
      r.error == NumberFormat(Split(p[key], divider)[i]) && forall j :: 0 <= j < i ==> ParseInt(Split(p[key], divider)[j]).Some?)
  {
    GetProperty(p, key, default, data => IntListConverter(divider, data))
  }

  // ---------------------------------------------------------------------------
  // Properties of the colour conversion

  /** Four parts whose trimmed texts parse make the colour of those channels. */
  lemma PartsMakeColor(parts: seq<string>, c: Color)
    requires |parts| == 4
    requires ParseInt(Trim(parts[0])) == Some(c.red) && ParseInt(Trim(parts[1])) == Some(c.green)
    requires ParseInt(Trim(parts[2])) == Some(c.blue) && ParseInt(Trim(parts[3])) == Some(c.alpha)
    ensures ColorOfParts(parts) == Ok(Some(c))
  {
  }

  /** Four channels that all parse give the colour made of them. */
  lemma ColorOfFourChannels(p: Snapshot, key: string, d: Option<Color>, c: Color)
    requires key in p && |Split(p[key], ',')| == 4
    requires ParseInt(Trim(Split(p[key], ',')[0])) == Some(c.red)
    requires ParseInt(Trim(Split(p[key], ',')[1])) == Some(c.green)
    requires ParseInt(Trim(Split(p[key], ',')[2])) == Some(c.blue)
    requires ParseInt(Trim(Split(p[key], ',')[3])) == Some(c.alpha)
    ensures GetColor(p, key, d) == Ok(Some(c))
  {
    PartsMakeColor(Split(p[key], ','), c);
  }

  /** Four parts of which one does not parse make the number format error. */
  lemma PartsWithBadChannel(parts: seq<string>, i: nat)
    requires |parts| == 4 && i < 4 && ParseInt(Trim(parts[i])).None?
    ensures ColorOfParts(parts).Err? && ColorOfParts(parts).error.NumberFormat?
  {
    if i == 0 {
      assert ParseInt(Trim(parts[0])).None?;
    } else if i == 1 {
      assert ParseInt(Trim(parts[1])).None?;
    } else if i == 2 {
      assert ParseInt(Trim(parts[2])).None?;
    } else {
      assert ParseInt(Trim(parts[3])).None?;
    }
  }

  /** Four channels of which one does not parse: the exception escapes instead of the default being used. */
  lemma ColorBadChannelThrows(p: Snapshot, key: string, default: Option<Color>, i: nat)
    requires key in p && |Split(p[key], ',')| == 4
    requires i < 4 && ParseInt(Trim(Split(p[key], ',')[i])).None?
    ensures GetColor(p, key, default).Err?
    ensures GetColor(p, key, default).error.NumberFormat?
  {
    PartsWithBadChannel(Split(p[key], ','), i);
  }

  /** Trailing empty fields are dropped before the channels are counted: "1,2,,," falls back on the default. */
  lemma ColorTrailingCommasDropped(p: Snapshot, key: string, d: Option<Color>)
    requires key in p && p[key] == "1,2,,,"
    ensures GetColor(p, key, d) == Ok(d)
  {
    SplitDropsTrailingEmpty(p[key]);
  }

  /** "10,20,30,255" is the colour (10, 20, 30, 255). */
  lemma ColorOfFourNumbers(p: Snapshot, key: string, d: Option<Color>)
    requires key in p && p[key] == "10,20,30,255"
    ensures GetColor(p, key, d) == Ok(Some(Color(10, 20, 30, 255)))
  {
    SplitFourParts(p[key]);
    ChannelTexts();
    var parts := Split(p[key], ',');
    assert parts == ["10", "20", "30", "255"];
    assert parts[0] == "10" && parts[1] == "20" && parts[2] == "30" && parts[3] == "255";
    ColorOfFourChannels(p, key, d, Color(10, 20, 30, 255));
  }

  /** "10,20,30" has three channels and falls back on the default, even a null one, without an error. */
  lemma ColorOfThreeNumbers(p: Snapshot, key: string, d: Option<Color>)
    requires key in p && p[key] == "10,20,30"
    ensures GetColor(p, key, d) == Ok(d)
  {
    SplitThreeParts(p[key]);
  }

  // ---------------------------------------------------------------------------
  // Properties of the other conversions

  /** Non-numeric text in an int setting is an error, not the default. */
  lemma IntRejectsText(p: Snapshot, key: string, default: Int32)
    requires key in p && !IsDecimal(p[key])
    ensures GetInt(p, key, default) == Err(NumberFormat(p[key]))
  {
  }

  /** A value with a leading space is an int error, though the string list accessor trims it away. */
  lemma IntKeepsSpaces(p: Snapshot, key: string, default: Int32)
    requires key in p && p[key] == " 5"
    ensures GetInt(p, key, default) == Err(NumberFormat(" 5"))
    ensures GetIntList(p, key, None, ',') == Err(NumberFormat(" 5"))
    ensures GetStringList(p, key, None, ',') == Ok(Some(["5"]))
  {
    var s := p[key];
    assert s == [' ', '5'];
    ParseRejectsUntrimmed(s);
    assert Split(s, ',') == [s];
    var t := s[1..];
    assert t == ['5'] && !IsTrimmable(t[0]);
    assert TrimStart(s) == TrimStart(t) == t;
    assert Trim(s) == TrimEnd(t) == "5";
    assert GetStringList(p, key, None, ',').value.value == ["5"];
  }

  /** An empty value splits into one empty element, not into none. */
  lemma EmptyValueIsOneElement(p: Snapshot, key: string, default: Option<seq<string>>, divider: char)
    requires key in p && p[key] == ""
    ensures GetStringList(p, key, default, divider) == Ok(Some([""]))
    ensures GetIntList(p, key, None, divider) == Err(NumberFormat(""))
  {
    assert Split("", divider) == [""];
    assert Trim("") == "";
    var r := GetStringList(p, key, default, divider);
    assert r.value.value == [""];
  }

  /** The boolean conversion accepts "true" in any case and nothing else. */
  lemma BooleanExamples()
    ensures GetBool(map["b" := "TRUE"], "b", false) == Ok(true)
    ensures GetBool(map["b" := "tRuE"], "b", false) == Ok(true)
    ensures GetBool(map["b" := "yes"], "b", true) == Ok(false)
    ensures GetBool(map["b" := " true"], "b", true) == Ok(false)
    ensures GetBool(map["b" := ""], "b", true) == Ok(false)
  {
  }

  // ---------------------------------------------------------------------------
  // The public accessors

  // Settings.get
  function GetHighQualityString(p: Snapshot, default: Option<string>): (r: Result<Option<string>, SettingsError>)
    ensures "baloon.highQuality" !in p ==> r == if default.Some? then Ok(default) else Err(MissingProperty("baloon.highQuality"))
    ensures "baloon.highQuality" in p ==> r == Ok(Some(p["baloon.highQuality"]))
  {
    GetString(p, "baloon.highQuality", default)
  }

  // Settings.getAdapter
  function GetAdapter(p: Snapshot): (r: Result<Option<string>, SettingsError>)
    ensures "adapter" !in p ==> r == Ok(Some("Ship"))
    ensures "adapter" in p ==> r == Ok(Some(p["adapter"]))
  {
    GetString(p, "adapter", Some("Ship"))
  }

  // Settings.getWaifuName
  function GetWaifuName(p: Snapshot): (r: Result<Option<string>, SettingsError>)
    ensures "waifu.name" !in p ==> r == Err(MissingProperty("waifu.name"))
    ensures "waifu.name" in p ==> r == Ok(Some(p["waifu.name"]))
  {
    GetString(p, "waifu.name", None)
  }

  // Settings.isBaloonHighQualityText
  function IsBaloonHighQualityText(p: Snapshot): (r: Result<bool, SettingsError>)
    ensures r.Ok?
    ensures "baloon.highQualityText" !in p ==> r.value == true
    ensures "baloon.highQualityText" in p ==> (r.value <==> ParseBoolean(p["baloon.highQualityText"]))
  {
    GetBool(p, "baloon.highQualityText", true)
  }

  // Settings.getBaloonYOffset
  function GetBaloonYOffset(p: Snapshot): (r: Result<Int32, SettingsError>)
    ensures "baloon.yOffset" !in p ==> r == Ok(300)
    ensures "baloon.yOffset" in p ==> (r.Ok? <==> ParseInt(p["baloon.yOffset"]).Some?)
    ensures "baloon.yOffset" in p && r.Ok? ==> ParseInt(p["baloon.yOffset"]) == Some(r.value)
    ensures "baloon.yOffset" in p && r.Err? ==> r.error == NumberFormat(p["baloon.yOffset"])
  {
    GetInt(p, "baloon.yOffset", 300)
  }

  // Settings.getBaloonXOffset
  function GetBaloonXOffset(p: Snapshot): (r: Result<Int32, SettingsError>)
    ensures "baloon.xOffset" !in p ==> r == Ok(0)
    ensures "baloon.xOffset" in p ==> (r.Ok? <==> ParseInt(p["baloon.xOffset"]).Some?)
    ensures "baloon.xOffset" in p && r.Ok? ==> ParseInt(p["baloon.xOffset"]) == Some(r.value)
    ensures "baloon.xOffset" in p && r.Err? ==> r.error == NumberFormat(p["baloon.xOffset"])
  {
    GetInt(p, "baloon.xOffset", 0)
  }

  // Settings.getBaloonWidth
  function GetBaloonWidth(p: Snapshot): (r: Result<Int32, SettingsError>)
    ensures "baloon.width" !in p ==> r == Ok(400)
    ensures "baloon.width" in p ==> (r.Ok? <==> ParseInt(p["baloon.width"]).Some?)
    ensures "baloon.width" in p && r.Ok? ==> ParseInt(p["baloon.width"]) == Some(r.value)
    ensures "baloon.width" in p && r.Err? ==> r.error == NumberFormat(p["baloon.width"])
  {
    GetInt(p, "baloon.width", 400)
  }

  // Settings.getBaloonHeight
  function GetBaloonHeight(p: Snapshot): (r: Result<Int32, SettingsError>)
    ensures "baloon.height" !in p ==> r == Ok(100)
    ensures "baloon.height" in p ==> (r.Ok? <==> ParseInt(p["baloon.height"]).Some?)
    ensures "baloon.height" in p && r.Ok? ==> ParseInt(p["baloon.height"]) == Some(r.value)
    ensures "baloon.height" in p && r.Err? ==> r.error == NumberFormat(p["baloon.height"])
  {
    GetInt(p, "baloon.height", 100)
  }

  // Settings.getBaloonFontSize
  function GetBaloonFontSize(p: Snapshot): (r: Result<Int32, SettingsError>)
    ensures "baloon.fontSize" !in p ==> r == Ok(15)
    ensures "baloon.fontSize" in p ==> (r.Ok? <==> ParseInt(p["baloon.fontSize"]).Some?)
    ensures "baloon.fontSize" in p && r.Ok? ==> ParseInt(p["baloon.fontSize"]) == Some(r.value)
    ensures "baloon.fontSize" in p && r.Err? ==> r.error == NumberFormat(p["baloon.fontSize"])
  {
    GetInt(p, "baloon.fontSize", 15)
  }

  // Settings.getBaloonFont
  function GetBaloonFont(p: Snapshot, default: Option<string>): (r: Result<Option<string>, SettingsError>)
    ensures "baloon.font" !in p ==> r == if default.Some? then Ok(default) else Err(MissingProperty("baloon.font"))
    ensures "baloon.font" in p ==> r == Ok(Some(p["baloon.font"]))
  {
    GetString(p, "baloon.font", default)
  }

  // Settings.getBaloonBackground
  function GetBaloonBackground(p: Snapshot, default: Option<Color>): (r: Result<Option<Color>, SettingsError>)
    ensures "baloon.background" !in p ==> r == if default.Some? then Ok(default) else Err(MissingProperty("baloon.background"))
    ensures "baloon.background" in p && |Split(p["baloon.background"], ',')| != 4 ==> r == Ok(default)
    ensures "baloon.background" in p && |Split(p["baloon.background"], ',')| == 4 ==>
      (r.Ok? <==> ChannelsParse(Split(p["baloon.background"], ',')))
    ensures "baloon.background" in p && |Split(p["baloon.background"], ',')| == 4 && r.Ok? ==>
      r.value.Some? && IsColorOf(Split(p["baloon.background"], ','), r.value.value)
    ensures r.Err? && "baloon.background" in p ==> r.error.NumberFormat?
  {
    GetColor(p, "baloon.background", default)
  }

  // Settings.getBaloonForeground
  function GetBaloonForeground(p: Snapshot): (r: Result<Option<Color>, SettingsError>)
    ensures "baloon.foreground" !in p ==> r == Ok(Some(WHITE))
    ensures "baloon.foreground" in p && |Split(p["baloon.foreground"], ',')| != 4 ==> r == Ok(Some(WHITE))
    ensures "baloon.foreground" in p && |Split(p["baloon.foreground"], ',')| == 4 ==>
      (r.Ok? <==> ChannelsParse(Split(p["baloon.foreground"], ',')))
    ensures "baloon.foreground" in p && |Split(p["baloon.foreground"], ',')| == 4 && r.Ok? ==>
      r.value.Some? && IsColorOf(Split(p["baloon.foreground"], ','), r.value.value)
    ensures r.Ok? ==> r.value.Some?
    ensures r.Err? ==> r.error.NumberFormat?
  {
    GetColor(p, "baloon.foreground", Some(WHITE))
  }

  // Settings.getWaifuHeight
  function GetWaifuHeight(p: Snapshot): (r: Result<Int32, SettingsError>)
    ensures "waifu.height" !in p ==> r == Ok(800)
    ensures "waifu.height" in p ==> (r.Ok? <==> ParseInt(p["waifu.height"]).Some?)
    ensures "waifu.height" in p && r.Ok? ==> ParseInt(p["waifu.height"]) == Some(r.value)
    ensures "waifu.height" in p && r.Err? ==> r.error == NumberFormat(p["waifu.height"])
  {
    GetInt(p, "waifu.height", 800)
  }

  // Settings.isWaifuMirrored
  function IsWaifuMirrored(p: Snapshot): (r: Result<bool, SettingsError>)
    ensures r.Ok?
    ensures "waifu.mirrored" !in p ==> r.value == false
    ensures "waifu.mirrored" in p ==> (r.value <==> ParseBoolean(p["waifu.mirrored"]))
  {
    GetBool(p, "waifu.mirrored", false)
  }

  // Settings.isWaifuWelcomeEnabled
  function IsWaifuWelcomeEnabled(p: Snapshot): (r: Result<bool, SettingsError>)
    ensures r.Ok?
    ensures "waifu.welcome.enabled" !in p ==> r.value == true
    ensures "waifu.welcome.enabled" in p ==> (r.value <==> ParseBoolean(p["waifu.welcome.enabled"]))
  {
    GetBool(p, "waifu.welcome.enabled", true)
  }

  // Settings.getWaifuWelcomeDelay
  function GetWaifuWelcomeDelay(p: Snapshot): (r: Result<Int32, SettingsError>)
    ensures "waifu.welcome.delay" !in p ==> r == Ok(5000)
    ensures "waifu.welcome.delay" in p ==> (r.Ok? <==> ParseInt(p["waifu.welcome.delay"]).Some?)
    ensures "waifu.welcome.delay" in p && r.Ok? ==> ParseInt(p["waifu.welcome.delay"]) == Some(r.value)
    ensures "waifu.welcome.delay" in p && r.Err? ==> r.error == NumberFormat(p["waifu.welcome.delay"])
  {
    GetInt(p, "waifu.welcome.delay", 5000)
  }

  // Settings.isVoiceEnabled
  function IsVoiceEnabled(p: Snapshot): (r: Result<bool, SettingsError>)
    ensures r.Ok?
    ensures "voice.enabled" !in p ==> r.value == true
    ensures "voice.enabled" in p ==> (r.value <==> ParseBoolean(p["voice.enabled"]))
  {
    GetBool(p, "voice.enabled", true)
  }

  // Settings.getVoiceVolume
  function GetVoiceVolume(p: Snapshot): (r: Result<Int32, SettingsError>)
    ensures "voice.volume" !in p ==> r == Ok(50)
    ensures "voice.volume" in p ==> (r.Ok? <==> ParseInt(p["voice.volume"]).Some?)
    ensures "voice.volume" in p && r.Ok? ==> ParseInt(p["voice.volume"]) == Some(r.value)
    ensures "voice.volume" in p && r.Err? ==> r.error == NumberFormat(p["voice.volume"])
  {
    GetInt(p, "voice.volume", 50)
  }

  // Settings.isDialogsEnabled
  function IsDialogsEnabled(p: Snapshot): (r: Result<bool, SettingsError>)
    ensures r.Ok?
    ensures "dialogs.enabled" !in p ==> r.value == true
    ensures "dialogs.enabled" in p ==> (r.value <==> ParseBoolean(p["dialogs.enabled"]))
  {
    GetBool(p, "dialogs.enabled", true)
  }

  // Settings.isDialogsOnClick
  function IsDialogsOnClick(p: Snapshot): (r: Result<bool, SettingsError>)
    ensures r.Ok?
    ensures "dialogs.onClick" !in p ==> r.value == true
    ensures "dialogs.onClick" in p ==> (r.value <==> ParseBoolean(p["dialogs.onClick"]))
  {
    GetBool(p, "dialogs.onClick", true)
  }

  // Settings.isDialogsOnIdle
  function IsDialogsOnIdle(p: Snapshot): (r: Result<bool, SettingsError>)
    ensures r.Ok?
    ensures "dialogs.onIdle" !in p ==> r.value == true
    ensures "dialogs.onIdle" in p ==> (r.value <==> ParseBoolean(p["dialogs.onIdle"]))
  {
    GetBool(p, "dialogs.onIdle", true)
  }

  // Settings.getDialogsBaloonNoVoiceDuration
  function GetDialogsBaloonNoVoiceDuration(p: Snapshot): (r: Result<Int32, SettingsError>)
    ensures "dialogs.baloon.noVoiceDuration" !in p ==> r == Ok(3)
    ensures "dialogs.baloon.noVoiceDuration" in p ==> (r.Ok? <==> ParseInt(p["dialogs.baloon.noVoiceDuration"]).Some?)
    ensures "dialogs.baloon.noVoiceDuration" in p && r.Ok? ==> ParseInt(p["dialogs.baloon.noVoiceDuration"]) == Some(r.value)
    ensures "dialogs.baloon.noVoiceDuration" in p && r.Err? ==> r.error == NumberFormat(p["dialogs.baloon.noVoiceDuration"])
  {
    GetInt(p, "dialogs.baloon.noVoiceDuration", 3)
  }

  // Settings.isWaifuAlwaysOnTop
  function IsWaifuAlwaysOnTop(p: Snapshot): (r: Result<bool, SettingsError>)
    ensures r.Ok?
    ensures "waifu.alwaysOnTop" !in p ==> r.value == true
    ensures "waifu.alwaysOnTop" in p ==> (r.value <==> ParseBoolean(p["waifu.alwaysOnTop"]))
  {
    GetBool(p, "waifu.alwaysOnTop", true)
  }

  // Settings.getBaloonFormatString
  function GetBaloonFormatString(p: Snapshot): (r: Result<Option<string>, SettingsError>)
    ensures "baloon.formatString" !in p ==> r == Ok(Some("[[text]]"))
    ensures "baloon.formatString" in p ==> r == Ok(Some(p["baloon.formatString"]))
  {
    GetString(p, "baloon.formatString", Some("[[text]]"))
  }

  // Settings.getWaifuStartY
  function GetWaifuStartY(p: Snapshot): (r: Result<Option<string>, SettingsError>)
    ensures "waifu.startY" !in p ==> r == Ok(Some("auto"))
    ensures "waifu.startY" in p ==> r == Ok(Some(p["waifu.startY"]))
  {
    GetString(p, "waifu.startY", Some("auto"))
  }

  // Settings.getWaifuSkinIndex
  function GetWaifuSkinIndex(p: Snapshot): (r: Result<Int32, SettingsError>)
    ensures "waifu.skinIndex" !in p ==> r == Ok(0)
    ensures "waifu.skinIndex" in p ==> (r.Ok? <==> ParseInt(p["waifu.skinIndex"]).Some?)
    ensures "waifu.skinIndex" in p && r.Ok? ==> ParseInt(p["waifu.skinIndex"]) == Some(r.value)
    ensures "waifu.skinIndex" in p && r.Err? ==> r.error == NumberFormat(p["waifu.skinIndex"])
  {
    GetInt(p, "waifu.skinIndex", 0)
  }

  // Settings.isWaifuHighQuality
  function IsWaifuHighQuality(p: Snapshot): (r: Result<Option<string>, SettingsError>)
    ensures "waifu.highQuality" !in p ==> r == Ok(Some(""))
    ensures "waifu.highQuality" in p ==> r == Ok(Some(p["waifu.highQuality"]))
  {
    GetString(p, "waifu.highQuality", Some(""))
  }

  // Settings.isFloatingEnabled
  function IsFloatingEnabled(p: Snapshot): (r: Result<bool, SettingsError>)
    ensures r.Ok?
    ensures "floating.enabled" !in p ==> r.value == true
    ensures "floating.enabled" in p ==> (r.value <==> ParseBoolean(p["floating.enabled"]))
  {
    GetBool(p, "floating.enabled", true)
  }

  // Settings.getFloatingPixelPerStep
  function GetFloatingPixelPerStep(p: Snapshot): (r: Result<Int32, SettingsError>)
    ensures "floating.pixelPerStep" !in p ==> r == Ok(1)
    ensures "floating.pixelPerStep" in p ==> (r.Ok? <==> ParseInt(p["floating.pixelPerStep"]).Some?)
    ensures "floating.pixelPerStep" in p && r.Ok? ==> ParseInt(p["floating.pixelPerStep"]) == Some(r.value)
    ensures "floating.pixelPerStep" in p && r.Err? ==> r.error == NumberFormat(p["floating.pixelPerStep"])
  {
    GetInt(p, "floating.pixelPerStep", 1)
  }

  // Settings.getFloatingPixelRange
  function GetFloatingPixelRange(p: Snapshot): (r: Result<Int32, SettingsError>)
    ensures "floating.pixelRange" !in p ==> r == Ok(300)
    ensures "floating.pixelRange" in p ==> (r.Ok? <==> ParseInt(p["floating.pixelRange"]).Some?)
    ensures "floating.pixelRange" in p && r.Ok? ==> ParseInt(p["floating.pixelRange"]) == Some(r.value)
    ensures "floating.pixelRange" in p && r.Err? ==> r.error == NumberFormat(p["floating.pixelRange"])
  {
    GetInt(p, "floating.pixelRange", 300)
  }

  // Settings.getFloatingStepSleep
  function GetFloatingStepSleep(p: Snapshot): (r: Result<Int32, SettingsError>)
    ensures "floating.stepSleep" !in p ==> r == Ok(16)
    ensures "floating.stepSleep" in p ==> (r.Ok? <==> ParseInt(p["floating.stepSleep"]).Some?)
    ensures "floating.stepSleep" in p && r.Ok? ==> ParseInt(p["floating.stepSleep"]) == Some(r.value)
    ensures "floating.stepSleep" in p && r.Err? ==> r.error == NumberFormat(p["floating.stepSleep"])
  {
    GetInt(p, "floating.stepSleep", 16)
  }

  // Settings.getFloatingSwapSleep
  function GetFloatingSwapSleep(p: Snapshot): (r: Result<Int32, SettingsError>)
    ensures "floating.swapSleep" !in p ==> r == Ok(100)
    ensures "floating.swapSleep" in p ==> (r.Ok? <==> ParseInt(p["floating.swapSleep"]).Some?)
    ensures "floating.swapSleep" in p && r.Ok? ==> ParseInt(p["floating.swapSleep"]) == Some(r.value)
    ensures "floating.swapSleep" in p && r.Err? ==> r.error == NumberFormat(p["floating.swapSleep"])
  {
    GetInt(p, "floating.swapSleep", 100)
  }

  // Settings.getDialogsIdleFrequency
  function GetDialogsIdleFrequency(p: Snapshot): (r: Result<Int32, SettingsError>)
    ensures "dialogs.idle.frequency" !in p ==> r == Ok(60)
    ensures "dialogs.idle.frequency" in p ==> (r.Ok? <==> ParseInt(p["dialogs.idle.frequency"]).Some?)
    ensures "dialogs.idle.frequency" in p && r.Ok? ==> ParseInt(p["dialogs.idle.frequency"]) == Some(r.value)
    ensures "dialogs.idle.frequency" in p && r.Err? ==> r.error == NumberFormat(p["dialogs.idle.frequency"])
  {
    GetInt(p, "dialogs.idle.frequency", 60)
  }

  // Settings.isJumpOnClick
  function IsJumpOnClick(p: Snapshot): (r: Result<bool, SettingsError>)
    ensures r.Ok?
    ensures "jump.onClick" !in p ==> r.value == true
    ensures "jump.onClick" in p ==> (r.value <==> ParseBoolean(p["jump.onClick"]))
  {
    GetBool(p, "jump.onClick", true)
  }

  // Settings.getJumpCount
  function GetJumpCount(p: Snapshot): (r: Result<Int32, SettingsError>)
    ensures "jump.count" !in p ==> r == Ok(2)
    ensures "jump.count" in p ==> (r.Ok? <==> ParseInt(p["jump.count"]).Some?)
    ensures "jump.count" in p && r.Ok? ==> ParseInt(p["jump.count"]) == Some(r.value)
    ensures "jump.count" in p && r.Err? ==> r.error == NumberFormat(p["jump.count"])
  {
    GetInt(p, "jump.count", 2)
  }

  // Settings.getJumpPixelPerStep
  function GetJumpPixelPerStep(p: Snapshot): (r: Result<Int32, SettingsError>)
    ensures "jump.pixelPerStep" !in p ==> r == Ok(5)
    ensures "jump.pixelPerStep" in p ==> (r.Ok? <==> ParseInt(p["jump.pixelPerStep"]).Some?)
    ensures "jump.pixelPerStep" in p && r.Ok? ==> ParseInt(p["jump.pixelPerStep"]) == Some(r.value)
    ensures "jump.pixelPerStep" in p && r.Err? ==> r.error == NumberFormat(p["jump.pixelPerStep"])
  {
    GetInt(p, "jump.pixelPerStep", 5)
  }

  // Settings.getJumpSleep
  function GetJumpSleep(p: Snapshot): (r: Result<Int32, SettingsError>)
    ensures "jump.stepSleep" !in p ==> r == Ok(15)
    ensures "jump.stepSleep" in p ==> (r.Ok? <==> ParseInt(p["jump.stepSleep"]).Some?)
    ensures "jump.stepSleep" in p && r.Ok? ==> ParseInt(p["jump.stepSleep"]) == Some(r.value)
    ensures "jump.stepSleep" in p && r.Err? ==> r.error == NumberFormat(p["jump.stepSleep"])
  {
    GetInt(p, "jump.stepSleep", 15)
  }

  // Settings.getJumpPixelRange
  function GetJumpPixelRange(p: Snapshot): (r: Result<Int32, SettingsError>)
    ensures "jump.pixelRange" !in p ==> r == Ok(40)
    ensures "jump.pixelRange" in p ==> (r.Ok? <==> ParseInt(p["jump.pixelRange"]).Some?)
    ensures "jump.pixelRange" in p && r.Ok? ==> ParseInt(p["jump.pixelRange"]) == Some(r.value)
    ensures "jump.pixelRange" in p && r.Err? ==> r.error == NumberFormat(p["jump.pixelRange"])
  {
    GetInt(p, "jump.pixelRange", 40)
  }

  // Settings.getFloatingSwitchSleep
  function GetFloatingSwitchSleep(p: Snapshot): (r: Result<Int32, SettingsError>)
    ensures "floating.switchSleep" !in p ==> r == Ok(10)
    ensures "floating.switchSleep" in p ==> (r.Ok? <==> ParseInt(p["floating.switchSleep"]).Some?)
    ensures "floating.switchSleep" in p && r.Ok? ==> ParseInt(p["floating.switchSleep"]) == Some(r.value)
    ensures "floating.switchSleep" in p && r.Err? ==> r.error == NumberFormat(p["floating.switchSleep"])
  {
    GetInt(p, "floating.switchSleep", 10)
  }

  // Settings.getWaifuLanguage
  function GetWaifuLanguage(p: Snapshot): (r: Result<Option<string>, SettingsError>)
    ensures "waifu.language" !in p ==> r == Ok(Some("Chinese"))
    ensures "waifu.language" in p ==> r == Ok(Some(p["waifu.language"]))
  {
    GetString(p, "waifu.language", Some("Chinese"))
  }

  // Settings.useWaifuNativeLanguage
  function UseWaifuNativeLanguage(p: Snapshot): (r: Result<bool, SettingsError>)
    ensures r.Ok?
    ensures "waifu.language.useNative" !in p ==> r.value == false
    ensures "waifu.language.useNative" in p ==> (r.value <==> ParseBoolean(p["waifu.language.useNative"]))
  {
    GetBool(p, "waifu.language.useNative", false)
  }
}
