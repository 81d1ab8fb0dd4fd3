/** `ConfigLoader`: named YAML documents read from a configuration directory, cached by name,
    with dotted-path lookup and the browser-profile and browser-matrix queries built on it.
    The disk is outside the model: it maps a file path to its text, and `parse` says what
    `yaml.safe_load` makes of a text. */
module Config {
  import opened Wrappers
  import opened Text
  import opened Values

  datatype YamlDoc = Document(value: Value) | Malformed(message: string)

  datatype Disk = Disk(files: map<string, string>, parse: string -> YamlDoc)

  /** `ConfigLoader._load_yaml_file`: a missing file raises, an empty document reads as `{}`. */
  function ReadYamlFile(configDir: string, filename: string, disk: Disk): (r: Result<Value, Exception>)
    ensures configDir + "/" + filename !in disk.files ==> r.Err? && r.error.FileNotFoundError?
    ensures r.Ok? ==> r.value != Null
    ensures var path := configDir + "/" + filename;
            path in disk.files ==>
              match disk.parse(disk.files[path])
              case Document(v) => r == Ok(if v == Null then Dict([]) else v)
              case Malformed(m) => r == Err(Foreign(m))
  {
    var path := configDir + "/" + filename;
    if path !in disk.files then Err(FileNotFoundError("Configuration file not found: " + path))
    else
      match disk.parse(disk.files[path])
      case Malformed(m) => Err(Foreign(m))
      case Document(Null) => Ok(Dict([]))
      case Document(v) => Ok(v)
  }

  /** What `load_config(name)` returns given the cache it starts from. */
  function Fetch(cache: map<string, Value>, configDir: string, name: string, disk: Disk): Result<Value, Exception> {
    if name in cache then Ok(cache[name]) else ReadYamlFile(configDir, name + ".yaml", disk)
  }

  /** The cache `load_config(name)` leaves behind: a miss that loads stores the document under `name`. */
  function CacheAfter(cache: map<string, Value>, configDir: string, name: string, disk: Disk): map<string, Value> {
    if name in cache then cache
    else
      match ReadYamlFile(configDir, name + ".yaml", disk)
      case Ok(doc) => cache[name := doc]
      case Err(_) => cache
  }

  /** The document reached by following `keys` one mapping at a time; None once a key is missing
      or the current value is not a mapping. */
  function Descend(v: Value, keys: seq<string>): Option<Value>
    decreases |keys|
  {
    if keys == [] then Some(v)
    else if v.Dict? && HasKey(v.entries, keys[0]) then Descend(Get(v.entries, keys[0]).value, keys[1..])
    else None
  }

  /** The body of `ConfigLoader.get` once the document is loaded. */
  function LookupKey(doc: Value, key: string, default: Value): Value {
    if '.' in key then Descend(doc, Split(key, '.')).GetOr(default)
    else if doc.Dict? then GetOr(doc.entries, key, default)
    else default   // `.get` on a non-mapping raises AttributeError, which `get` turns into the default
  }

  /** Walking a path is walking its first part, then the rest from where that ended. */
  lemma {:induction false} DescendConcat(v: Value, a: seq<string>, b: seq<string>)
    ensures Descend(v, a + b) == match Descend(v, a) case Some(w) => Descend(w, b) case None => None
    decreases |a|
  {
    if a != [] {
      assert (a + b)[0] == a[0] && (a + b)[1..] == a[1..] + b;
      if v.Dict? && HasKey(v.entries, a[0]) {
        DescendConcat(Get(v.entries, a[0]).value, a[1..], b);
      }
    } else {
      assert a + b == b;
    }
  }

  /** The dotted lookup gives the default as soon as a segment is missing or the value reached is
      not a mapping, whatever the later segments say. */
  lemma DottedLookupStops(doc: Value, key: string, default: Value, i: nat)
    requires '.' in key
    requires i < |Split(key, '.')|
    requires Descend(doc, Split(key, '.')[..i]).Some?
    requires var w := Descend(doc, Split(key, '.')[..i]).value;
             !(w.Dict? && HasKey(w.entries, Split(key, '.')[i]))
    ensures LookupKey(doc, key, default) == default
  {
    var keys := Split(key, '.');
    assert keys == keys[..i] + keys[i..];
    DescendConcat(doc, keys[..i], keys[i..]);
  }

  /** A dotted lookup peels off its first segment: `a.rest` looks up `rest` in what `a` holds,
      and gives the default when `a` is missing; by repeating it, a dotted key finds the value
      nested under each of its segments in turn. */
  lemma DottedLookupPeels(doc: Value, a: string, rest: string, default: Value)
    requires '.' !in a && doc.Dict?
    ensures LookupKey(doc, a + "." + rest, default) ==
            match Get(doc.entries, a)
            case Some(w) => LookupKey(w, rest, default)
            case None => default
  {
    var key := a + "." + rest;
    assert key == a + ['.'] + rest;
    assert '.' in key by { assert key[|a|] == '.'; }
    SplitPeel(a, rest);
    var keys := Split(rest, '.');
    assert Split(key, '.') == [a] + keys && ([a] + keys)[1..] == keys;
    assert LookupKey(doc, key, default) == Descend(doc, [a] + keys).GetOr(default);
    match Get(doc.entries, a)
    case None =>
    case Some(w) =>
      assert Descend(doc, [a] + keys) == Descend(w, keys);
      if '.' !in rest {
        SplitNoSep(rest);
        assert [rest][1..] == [];
        if w.Dict? && HasKey(w.entries, rest) {
          assert Descend(w, [rest]) == Descend(Get(w.entries, rest).value, []);
        }
      }
  }

  /** "a.b" yields the value under `b` inside the mapping under `a`. */
  lemma DottedLookupFinds(doc: Value, a: string, b: string, inner: Entries, v: Value, default: Value)
    requires '.' !in a && '.' !in b
    requires doc.Dict? && Get(doc.entries, a) == Some(Dict(inner)) && Get(inner, b) == Some(v)
    ensures LookupKey(doc, a + "." + b, default) == v
  {
    DottedLookupPeels(doc, a, b, default);
  }

  lemma {:induction false} SplitPeel(a: string, rest: string)
    requires '.' !in a
    ensures Split(a + ['.'] + rest, '.') == [a] + Split(rest, '.')
    decreases |a|
  {
    if |a| == 0 {
      assert a + ['.'] + rest == ['.'] + rest;
      assert (['.'] + rest)[1..] == rest;
    } else {
      var s := a + ['.'] + rest;
      assert s[0] == a[0] && s[1..] == a[1..] + ['.'] + rest;
      SplitPeel(a[1..], rest);
      assert [a[0]] + a[1..] == a;
    }
  }

  lemma {:induction false} SplitNoSep(s: string)
    requires '.' !in s
    ensures Split(s, '.') == [s]
  {
    if |s| > 0 {
      SplitNoSep(s[1..]);
      assert [s[0]] + s[1..] == s;
    }
  }

  /** `get_browser_config` once `browsers.yaml` is loaded. */
  function BrowserProfile(doc: Value, name: string): (r: Result<Value, Exception>)
    ensures r.Ok? ==> doc.Dict? && HasKey(doc.entries, "browsers") &&
                      var profiles := Get(doc.entries, "browsers").value;
                      profiles.Dict? && Get(profiles.entries, name) == Some(r.value)
    ensures doc.Dict? && !HasKey(doc.entries, "browsers") ==> r.Err? && r.error.ValueError?
  {
    match In("browsers", doc)
    case Err(e) => Err(e)
    case Ok(false) => Err(ValueError("Invalid browsers configuration structure"))
    case Ok(true) =>
      match GetItem(doc, "browsers")
      case Err(e) => Err(e)
      case Ok(profiles) =>
        match In(name, profiles)
        case Err(e) => Err(e)
        case Ok(false) =>
          if profiles.Dict? then
            var available := JoinWith(Keys(profiles.entries), ", ");
            Err(ValueError("Browser profile '" + name + "' not found. Available: " + available))
          else Err(TypeError("object has no attribute 'keys'"))  // `browser_profiles.keys()`
        case Ok(true) => GetItem(profiles, name)
  }

  /** Wherever `browsers` sits in the document, a profile that is present is returned as stored and
      one that is absent raises ValueError listing the available profiles; a document without
      `browsers` raises ValueError. */
  lemma BrowserProfileLookup(entries: Entries, profiles: Entries, name: string)
    ensures !HasKey(entries, "browsers") ==>
              BrowserProfile(Dict(entries), name) == Err(ValueError("Invalid browsers configuration structure"))
    ensures Get(entries, "browsers") == Some(Dict(profiles)) ==>
              match Get(profiles, name)
              case Some(p) => BrowserProfile(Dict(entries), name) == Ok(p)
              case None => BrowserProfile(Dict(entries), name) ==
                             Err(ValueError("Browser profile '" + name + "' not found. Available: " +
                                            JoinWith(Keys(profiles), ", ")))
  {
  }

  /** The error `dict.update` raises for an element of the wrong length. */
  function WrongLength(index: nat, len: nat): Exception {
    ValueError("dictionary update sequence element #" + NatToString(index) + " has length " +
               NatToString(len) + "; 2 is required")
  }

  /** Element `index` of the sequence given to `dict.update`, read as a key/value pair: it must
      itself be a sequence of two items, whose first becomes the key. */
  function PairOf(item: Value, index: nat): Result<(string, Value), Exception> {
    match item
    case Str(s) => if |s| == 2 then Ok(([s[0]], Str([s[1]]))) else Err(WrongLength(index, |s|))
    case Dict(es) => if |es| == 2 then Ok((es[0].0, Str(es[1].0))) else Err(WrongLength(index, |es|))
    case List(xs) =>
      if |xs| != 2 then Err(WrongLength(index, |xs|))
      else
        (match xs[0]
         case Str(k) => Ok((k, xs[1]))
         case List(_) => Err(TypeError("unhashable type: 'list'"))
         case Dict(_) => Err(TypeError("unhashable type: 'dict'"))
         case k => Err(TypeError("'" + TypeName(k) + "' key in a string-keyed dictionary")))
    case _ => Err(TypeError("cannot convert dictionary update sequence element #" + NatToString(index) + " to a sequence"))
  }

  /** `d.update(items)` for a sequence that is not a mapping: each element in turn is a pair. */
  function PairsUpdate(d: Entries, items: seq<Value>, index: nat): Result<Entries, Exception>
    decreases |items|
  {
    if items == [] then Ok(d)
    else
      match PairOf(items[0], index)
      case Err(e) => Err(e)
      case Ok(pair) => PairsUpdate(Put(d, pair.0, pair.1), items[1..], index + 1)
  }

  /** The one-character strings a string iterates over. */
  function Chars(s: string): seq<Value> {
    seq(|s|, i requires 0 <= i < |s| => Str([s[i]]))
  }

  /** One entry of the legacy matrix: `{"name": profile_name}` overlaid by `update(profile_config)`.
      A mapping contributes its entries; a list or a string is read as a sequence of pairs;
      anything else is not iterable. */
  function LegacyEntry(profileName: string, profile: Value): Result<Value, Exception> {
    var base := [("name", Str(profileName))];
    match profile
    case Dict(fields) => Ok(Dict(Update(base, fields)))
    case List(items) =>
      (match PairsUpdate(base, items, 0)
       case Ok(d) => Ok(Dict(d))
       case Err(e) => Err(e))
    case Str(s) =>
      (match PairsUpdate(base, Chars(s), 0)
       case Ok(d) => Ok(Dict(d))
       case Err(e) => Err(e))
    case _ => Err(TypeError("'" + TypeName(profile) + "' object is not iterable"))
  }

  /** A profile that is not a mapping: an empty string or list leaves only the name, a scalar is
      not iterable, and a list of `[key, value]` pairs assigns each pair in turn. */
  lemma LegacyEntryNonMapping(profileName: string, k: string, v: Value, x: Value)
    ensures LegacyEntry(profileName, Str("")) == Ok(Dict([("name", Str(profileName))]))
    ensures LegacyEntry(profileName, List([])) == Ok(Dict([("name", Str(profileName))]))
    ensures x.Null? || x.Bool? || x.Int? ==>
              LegacyEntry(profileName, x) == Err(TypeError("'" + TypeName(x) + "' object is not iterable"))
    ensures LegacyEntry(profileName, List([List([Str(k), v])])) == Ok(Dict(Put([("name", Str(profileName))], k, v)))
  {
    var base := [("name", Str(profileName))];
    assert Chars("") == [];
    var items := [List([Str(k), v])];
    assert PairOf(items[0], 0) == Ok((k, v));
    assert items[1..] == [];
    assert PairsUpdate(base, items, 0) == PairsUpdate(Put(base, k, v), [], 1);
  }

  /** A non-empty string profile fails on its first element, a one-character string: element #0
      has length 1 where 2 is required. */
  lemma LegacyEntryString(profileName: string, s: string)
    requires s != ""
    ensures LegacyEntry(profileName, Str(s)) == Err(WrongLength(0, 1))
  {
    var base := [("name", Str(profileName))];
    assert Chars(s)[0] == Str([s[0]]);
    assert PairsUpdate(base, Chars(s), 0) == Err(WrongLength(0, 1));
  }

  /** The entries for a run of profiles, in dictionary order; the first failing profile stops it. */
  function LegacyEntries(profiles: Entries): Result<seq<Value>, Exception> {
    if profiles == [] then Ok([])
    else
      match LegacyEntries(profiles[..|profiles| - 1])
      case Err(e) => Err(e)
      case Ok(done) =>
        match LegacyEntry(profiles[|profiles| - 1].0, profiles[|profiles| - 1].1)
        case Err(e) => Err(e)
        case Ok(entry) => Ok(done + [entry])
  }

  /** `_get_legacy_browser_matrix` */
  function LegacyMatrix(doc: Value): Result<seq<Value>, Exception> {
    match In("browsers", doc)
    case Err(e) => Err(e)
    case Ok(false) => Err(ValueError("Invalid browsers configuration: missing both 'matrix' and 'browsers'"))
    case Ok(true) =>
      match GetItem(doc, "browsers")
      case Err(e) => Err(e)
      case Ok(profiles) =>
        if !profiles.Dict? || profiles.entries == [] then Err(ValueError("Invalid legacy browsers configuration"))
        else LegacyEntries(profiles.entries)
  }

  /** The converted matrix has one entry per profile, in dictionary order. In entry i, `name` is the
      profile's own `name` field when it has one and the profile's key otherwise; every other field
      is the profile's. */
  lemma {:induction false} LegacyEntriesShape(profiles: Entries)
    requires forall i :: 0 <= i < |profiles| ==> profiles[i].1.Dict? && DistinctKeys(profiles[i].1.entries)
    ensures LegacyEntries(profiles).Ok?
    ensures |LegacyEntries(profiles).value| == |profiles|
    ensures forall i :: 0 <= i < |profiles| ==>
              var entry := LegacyEntries(profiles).value[i];
              var fields := profiles[i].1.entries;
              entry.Dict? &&
              (Get(entry.entries, "name") == if HasKey(fields, "name") then Get(fields, "name") else Some(Str(profiles[i].0))) &&
              forall k :: k != "name" ==> Get(entry.entries, k) == Get(fields, k)
  {
    if profiles != [] {
      var init := profiles[..|profiles| - 1];
      LegacyEntriesShape(init);
      var last := profiles[|profiles| - 1];
      var fields := last.1.entries;
      var entry := Update([("name", Str(last.0))], fields);
      forall k ensures Get(entry, k) == if HasKey(fields, k) then Get(fields, k) else Get([("name", Str(last.0))], k)
      {
        GetUpdate([("name", Str(last.0))], fields, k);
        GetLastDistinct(fields, k);
      }
      var all := LegacyEntries(profiles).value;
      assert all == LegacyEntries(init).value + [Dict(entry)];
      forall i | 0 <= i < |profiles|
        ensures var e := all[i];
                var fs := profiles[i].1.entries;
                e.Dict? &&
                (Get(e.entries, "name") == if HasKey(fs, "name") then Get(fs, "name") else Some(Str(profiles[i].0))) &&
                forall k :: k != "name" ==> Get(e.entries, k) == Get(fs, k)
      {
        if i < |init| {
          assert all[i] == LegacyEntries(init).value[i] && profiles[i] == init[i];
        } else {
          forall k | k != "name" ensures Get([("name", Str(last.0))], k) == None {
            assert [("name", Str(last.0))][1..] == [];
          }
        }
      }
    }
  }

  /** `get_browser_matrix` once `browsers.yaml` is loaded. */
  function BrowserMatrix(doc: Value): (r: Result<seq<Value>, Exception>)
    ensures doc.Dict? && HasKey(doc.entries, "matrix") ==>
              match Get(doc.entries, "matrix").value
              case List(items) => if items == [] then r.Err? && r.error.ValueError? else r == Ok(items)
              case _ => r.Err? && r.error.ValueError?
    ensures doc.Dict? && !HasKey(doc.entries, "matrix") ==> r == LegacyMatrix(doc)
  {
    match In("matrix", doc)
    case Err(e) => Err(e)
    case Ok(false) => LegacyMatrix(doc)
    case Ok(true) =>
      match GetItem(doc, "matrix")
      case Err(e) => Err(e)
      case Ok(List(items)) =>
        if items == [] then Err(ValueError("Browser matrix must be a non-empty list")) else Ok(items)
      case Ok(_) => Err(ValueError("Browser matrix must be a non-empty list"))
  }

  /** Without `matrix`, a `browsers` section that is missing, not a mapping or empty raises
      ValueError, wherever the keys sit in the document. */
  lemma LegacyMatrixNeedsProfiles(entries: Entries)
    requires !HasKey(entries, "matrix")
    ensures !HasKey(entries, "browsers") ==>
              BrowserMatrix(Dict(entries)) ==
              Err(ValueError("Invalid browsers configuration: missing both 'matrix' and 'browsers'"))
    ensures HasKey(entries, "browsers") && (!Get(entries, "browsers").value.Dict? ||
                                            Get(entries, "browsers").value.entries == []) ==>
              BrowserMatrix(Dict(entries)) == Err(ValueError("Invalid legacy browsers configuration"))
  {
  }

  /** Once a document is cached, later loads return it whatever the disk holds by then. */
  lemma CacheHitIgnoresDisk(cache: map<string, Value>, configDir: string, name: string, before: Disk, after: Disk)
    requires Fetch(cache, configDir, name, before).Ok?
    ensures Fetch(CacheAfter(cache, configDir, name, before), configDir, name, after) == Fetch(cache, configDir, name, before)
    ensures forall other :: other != name && other in cache ==>
              other in CacheAfter(cache, configDir, name, before) &&
              CacheAfter(cache, configDir, name, before)[other] == cache[other]
  {
  }

  class ConfigLoader {
    const configDir: string
    /** `_config_cache`: documents loaded so far, by configuration name. */
    var cache: map<string, Value>

    constructor (configDir: string)
      ensures this.configDir == configDir && cache == map[]
    {
      this.configDir := configDir;
      cache := map[];
    }

    /** `load_config`: a hit returns the cached document without reading; a miss reads and caches. */
    method LoadConfig(name: string, disk: Disk) returns (r: Result<Value, Exception>)
      modifies this
      ensures r == Fetch(old(cache), configDir, name, disk)
      ensures cache == CacheAfter(old(cache), configDir, name, disk)
      ensures name in old(cache) ==> r == Ok(old(cache)[name]) && cache == old(cache)
      ensures name !in old(cache) && r.Ok? ==> cache == old(cache)[name := r.value]
    {
      if name in cache {
        r := Ok(cache[name]);
        return;
      }
      r := ReadYamlFile(configDir, name + ".yaml", disk);
      if r.Ok? {
        cache := cache[name := r.value];
      }
    }

    /** The lookup of `get` on a loaded document; the dotted case is the source's loop. */
    method Resolve(doc: Value, key: string, default: Value) returns (v: Value)
      ensures v == LookupKey(doc, key, default)
    {
      if '.' in key {
        var keys := Split(key, '.');
        var value := doc;
        var i := 0;
        while i < |keys|
          invariant 0 <= i <= |keys|
          invariant Descend(doc, keys) == Descend(value, keys[i..])
        {
          assert keys[i..][0] == keys[i] && keys[i..][1..] == keys[i + 1..];
          if value.Dict? && HasKey(value.entries, keys[i]) {
            value := Values.Get(value.entries, keys[i]).value;
          } else {
            return default;
          }
          i := i + 1;
        }
        return value;
      } else {
        match doc {
          case Dict(d) => v := GetOr(d, key, default);
          case _ => v := default;
        }
      }
    }

    /** `get`: any failure to load yields the default. */
    method Get(key: string, name: string, default: Value, disk: Disk) returns (v: Value)
      modifies this
      ensures cache == CacheAfter(old(cache), configDir, name, disk)
      ensures v == match Fetch(old(cache), configDir, name, disk)
                   case Ok(doc) => LookupKey(doc, key, default)
                   case Err(_) => default
    {
      var loaded := LoadConfig(name, disk);
      match loaded {
        case Err(_) => v := default;
        case Ok(doc) => v := Resolve(doc, key, default);
      }
    }

    /** `reload_config`: forgets `name` only, then loads it again. */
    method ReloadConfig(name: string, disk: Disk) returns (r: Result<Value, Exception>)
      modifies this
      ensures r == ReadYamlFile(configDir, name + ".yaml", disk)
      ensures cache == if r.Ok? then (old(cache) - {name})[name := r.value] else old(cache) - {name}
      ensures forall other :: other != name ==> (other in cache <==> other in old(cache)) &&
                                                (other in cache ==> cache[other] == old(cache)[other])
    {
      if name in cache {
        cache := cache - {name};
      }
      r := LoadConfig(name, disk);
    }

    /** `clear_cache` */
    method ClearCache()
      modifies this
      ensures cache == map[]
    {
      cache := map[];
    }

    /** `get_browser_config` */
    method GetBrowserConfig(name: string, disk: Disk) returns (r: Result<Value, Exception>)
      modifies this
      ensures cache == CacheAfter(old(cache), configDir, "browsers", disk)
      ensures r == match Fetch(old(cache), configDir, "browsers", disk)
                   case Ok(doc) => BrowserProfile(doc, name)
                   case Err(e) => Err(e)
    {
      var loaded := LoadConfig("browsers", disk);
      match loaded {
        case Err(e) => r := Err(e);
        case Ok(doc) => r := BrowserProfile(doc, name);
      }
    }

    /** `get_default_browser`: `default_browser` from browsers.yaml, "chrome_127" when it is absent. */
    method GetDefaultBrowser(disk: Disk) returns (v: Value)
      modifies this
      ensures cache == CacheAfter(old(cache), configDir, "browsers", disk)
      ensures match Fetch(old(cache), configDir, "browsers", disk)
              case Ok(Dict(d)) => v == GetOr(d, "default_browser", Str("chrome_127"))
              case _ => v == Str("chrome_127")
    {
      assert '.' !in "default_browser";
      v := Get("default_browser", "browsers", Str("chrome_127"), disk);
    }

    /** `get_browser_matrix` */
    method GetBrowserMatrix(disk: Disk) returns (r: Result<seq<Value>, Exception>)
      modifies this
      ensures cache == CacheAfter(old(cache), configDir, "browsers", disk)
      ensures r == match Fetch(old(cache), configDir, "browsers", disk)
                   case Ok(doc) => BrowserMatrix(doc)
                   case Err(e) => Err(e)
    {
      var loaded := LoadConfig("browsers", disk);
      match loaded {
        case Err(e) => r := Err(e);
        case Ok(doc) =>
          var hasMatrix := In("matrix", doc);
          match hasMatrix {
            case Err(e) => r := Err(e);
            case Ok(false) => r := LegacyBrowserMatrix(doc);
            case Ok(true) => r := BrowserMatrix(doc);
          }
      }
    }

    /** `_get_legacy_browser_matrix`, building the list with one append per profile. */
    method LegacyBrowserMatrix(doc: Value) returns (r: Result<seq<Value>, Exception>)
      ensures r == LegacyMatrix(doc)
    {
      var present := In("browsers", doc);
      if present.Err? {
        return Err(present.error);
      }
      if !present.value {
        return Err(ValueError("Invalid browsers configuration: missing both 'matrix' and 'browsers'"));
      }
      var item := GetItem(doc, "browsers");
      if item.Err? {
        return Err(item.error);
      }
      var profiles := item.value;
      if !profiles.Dict? || profiles.entries == [] {
        return Err(ValueError("Invalid legacy browsers configuration"));
      }
      var entries := profiles.entries;
      var matrix: seq<Value> := [];
      var i := 0;
      while i < |entries|
        invariant 0 <= i <= |entries|
        invariant LegacyEntries(entries[..i]) == Ok(matrix)
      {
        assert entries[..i + 1][..i] == entries[..i];
        var entry := LegacyEntry(entries[i].0, entries[i].1);
        if entry.Err? {
          assert LegacyEntries(entries[..i + 1]) == Err(entry.error);
          ErrorPersists(entries, i + 1, entry.error);
          return Err(entry.error);
        }
        matrix := matrix + [entry.value];
        i := i + 1;
      }
      assert entries[..i] == entries;
      r := Ok(matrix);
    }
  }

  /** Once a profile fails to convert, the whole conversion fails with that error. */
  lemma {:induction false} ErrorPersists(entries: Entries, n: nat, e: Exception)
    requires n <= |entries| && LegacyEntries(entries[..n]) == Err(e)
    ensures LegacyEntries(entries) == Err(e)
    decreases |entries| - n
  {
    if n < |entries| {
      assert entries[..n + 1][..n] == entries[..n];
      ErrorPersists(entries, n + 1, e);
    } else {
      assert entries[..n] == entries;
    }
  }
}
