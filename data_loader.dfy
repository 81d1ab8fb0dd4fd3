/** `DataLoader`: turns a YAML, JSON or CSV test-data file into a non-empty list of test cases.
    Files and parsers are outside the model: `files` maps a path to its text and the three parser
    functions say what PyYAML, `json` and `csv.DictReader` make of that text. */
module DataLoader {
  import opened Wrappers
  import opened Text
  import opened Values

  /** What `yaml.safe_load` / `json.load` made of a file: a document, or the exception it raised. */
  datatype Parsed = Parsed(document: Value) | ParseRaised(message: string)

  /** What `csv.DictReader` made of a file: the header (None when there is none) and the rows as dicts. */
  datatype CsvParsed = Table(fieldnames: Option<seq<string>>, rows: seq<Value>) | CsvRaised(message: string)

  datatype Environment = Environment(
    files: map<string, string>,
    yaml: string -> Parsed,
    json: string -> Parsed,
    csv: string -> CsvParsed)

  /** The root keys tried, in this order, when a document is a mapping. */
  const RootKeys: seq<string> := ["tests", "data", "cases", "test_cases", "rows"]

  const SupportedFormats: set<string> := {".yaml", ".yml", ".json", ".csv"}

  /** `Path(path).name`: the text after the last '/'. */
  function FileName(path: string): string {
    if |path| == 0 then ""
    else if path[|path| - 1] == '/' then ""
    else FileName(path[..|path| - 1]) + [path[|path| - 1]]
  }

  function LastDot(name: string): int {
    if |name| == 0 then -1
    else if name[|name| - 1] == '.' then |name| - 1
    else LastDot(name[..|name| - 1])
  }

  /** `Path.suffix`: from the last dot of the name, unless the dot is leading or trailing. */
  function Suffix(name: string): string {
    var i := LastDot(name);
    if 0 < i < |name| - 1 then name[i..] else ""
  }

  /** The value under the first root key, in `RootKeys` order, that holds a list. */
  function RootList(d: Entries, keys: seq<string>): Option<seq<Value>> {
    if keys == [] then None
    else
      match Get(d, keys[0])
      case Some(List(items)) => Some(items)
      case _ => RootList(d, keys[1..])
  }

  /** A mapping becomes the list under its first qualifying root key, or a one-case list of itself. */
  function FromMapping(d: Entries): seq<Value> {
    match RootList(d, RootKeys)
    case Some(items) => items
    case None => [Dict(d)]
  }

  /** `DataLoader._load_yaml` after parsing. */
  function FromYaml(content: Value, name: string): Result<seq<Value>, Exception> {
    match content
    case Null => Err(DataLoaderError("YAML file is empty"))
    case List(items) => Ok(items)
    case Dict(d) => Ok(FromMapping(d))
    case _ => Err(DataLoaderError("Invalid YAML structure in " + name + ". Expected list or dict, got " + TypeName(content)))
  }

  /** `DataLoader._load_json` after parsing. */
  function FromJson(content: Value, name: string): Result<seq<Value>, Exception> {
    match content
    case List(items) => Ok(items)
    case Dict(d) => Ok(FromMapping(d))
    case _ => Err(DataLoaderError("Invalid JSON structure in " + name + ". Expected list or dict, got " + TypeName(content)))
  }

  /** `DataLoader._load_csv` after parsing. */
  function FromCsv(table: CsvParsed, name: string): Result<seq<Value>, Exception> {
    match table
    case CsvRaised(m) => Err(Foreign(m))
    case Table(None, _) => Err(DataLoaderError("CSV file " + name + " has no header row"))
    case Table(Some(_), rows) =>
      if rows == [] then Err(DataLoaderError("CSV file " + name + " has no data rows (only headers)"))
      else Ok(rows)
  }

  function FromParsed(p: Parsed, normalise: (Value, string) -> Result<seq<Value>, Exception>, name: string):
    Result<seq<Value>, Exception>
  {
    match p
    case ParseRaised(m) => Err(Foreign(m))
    case Parsed(v) => normalise(v, name)
  }

  /** The `except` clauses of `DataLoader.load`: a DataLoaderError passes through, anything else is wrapped. */
  function WrapError(e: Exception, suffix: string, name: string): (r: Exception)
    ensures r.DataLoaderError?
    ensures e.DataLoaderError? ==> r == e
    ensures !e.DataLoaderError? ==> r.message == "Error loading " + suffix + " file " + name + ": " + ExceptionText(e)
  {
    if e.DataLoaderError? then e
    else DataLoaderError("Error loading " + suffix + " file " + name + ": " + ExceptionText(e))
  }

  /** `DataLoader.load` */
  function Load(path: string, env: Environment): (r: Result<seq<Value>, Exception>)
    ensures r.Err? ==> r.error.DataLoaderError?
    ensures r.Ok? ==> |r.value| > 0
    ensures r.Ok? ==> path in env.files && Lower(Suffix(FileName(path))) in SupportedFormats
  {
    var name := FileName(path);
    var suffix := Lower(Suffix(name));
    if path !in env.files then Err(DataLoaderError("Data file not found: " + path))
    else if suffix !in SupportedFormats then
      Err(DataLoaderError("Unsupported file format: " + suffix + ". Supported: {'.yaml', '.yml', '.json', '.csv'}"))
    else
      var text := env.files[path];
      var data :=
        if suffix == ".yaml" || suffix == ".yml" then FromParsed(env.yaml(text), FromYaml, name)
        else if suffix == ".json" then FromParsed(env.json(text), FromJson, name)
        else FromCsv(env.csv(text), name);
      match data
      case Err(e) => Err(WrapError(e, suffix, name))
      case Ok(cases) =>
        if cases == [] then Err(DataLoaderError("Empty dataset in " + name + ". Expected non-empty list of test cases."))
        else Ok(cases)
  }

  predicate IsAbsolute(path: string) {
    |path| > 0 && path[0] == '/'
  }

  /** `load_test_data`: a relative path that does not exist is looked up under the project root. */
  function LoadTestData(path: string, projectRoot: string, env: Environment): (r: Result<seq<Value>, Exception>)
    ensures r.Err? ==> r.error.DataLoaderError?
    ensures r.Ok? ==> |r.value| > 0
    ensures IsAbsolute(path) || path in env.files ==> r == Load(path, env)
    ensures !IsAbsolute(path) && path !in env.files ==> r == Load(projectRoot + "/" + path, env)
  {
    var resolved := if !IsAbsolute(path) && path !in env.files then projectRoot + "/" + path else path;
    Load(resolved, env)
  }

  /** A suffix outside .yaml/.yml/.json/.csv, in any letter case, is refused before the file is parsed. */
  lemma UnsupportedFormatRefused(path: string, env: Environment)
    requires path in env.files && Lower(Suffix(FileName(path))) !in SupportedFormats
    ensures Load(path, env) == Err(DataLoaderError("Unsupported file format: " + Lower(Suffix(FileName(path))) +
                                                   ". Supported: {'.yaml', '.yml', '.json', '.csv'}"))
  {
  }

  /** The root-key search: it returns the list under the first key, in order, whose value is a list;
      keys that are absent or hold something else are passed over; it fails only when no key qualifies. */
  lemma {:induction false} RootListIsFirstQualifying(d: Entries, keys: seq<string>)
    ensures match RootList(d, keys)
            case Some(items) =>
              exists k :: 0 <= k < |keys| && Get(d, keys[k]) == Some(List(items)) &&
                forall j :: 0 <= j < k ==> !(Get(d, keys[j]).Some? && Get(d, keys[j]).value.List?)
            case None =>
              forall j :: 0 <= j < |keys| ==> !(Get(d, keys[j]).Some? && Get(d, keys[j]).value.List?)
  {
    if keys != [] {
      RootListIsFirstQualifying(d, keys[1..]);
      match Get(d, keys[0]) {
        case Some(List(items)) =>
          assert Get(d, keys[0]) == Some(List(items));
        case _ =>
          match RootList(d, keys[1..]) {
            case Some(items) =>
              var k :| 0 <= k < |keys[1..]| && Get(d, keys[1..][k]) == Some(List(items)) &&
                forall j :: 0 <= j < k ==> !(Get(d, keys[1..][j]).Some? && Get(d, keys[1..][j]).value.List?);
              assert keys[k + 1] == keys[1..][k];
              forall j | 0 <= j < k + 1 ensures !(Get(d, keys[j]).Some? && Get(d, keys[j]).value.List?) {
                if j > 0 { assert keys[j] == keys[1..][j - 1]; }
              }
            case None =>
              forall j | 0 <= j < |keys| ensures !(Get(d, keys[j]).Some? && Get(d, keys[j]).value.List?) {
                if j > 0 { assert keys[j] == keys[1..][j - 1]; }
              }
          }
      }
    }
  }

  /** A mapping with no root key holding a list is treated as a single test case. */
  lemma MappingWithoutRootKey(d: Entries, name: string)
    requires forall j :: 0 <= j < |RootKeys| ==> !(Get(d, RootKeys[j]).Some? && Get(d, RootKeys[j]).value.List?)
    ensures FromYaml(Dict(d), name) == Ok([Dict(d)])
    ensures FromJson(Dict(d), name) == Ok([Dict(d)])
  {
    RootListIsFirstQualifying(d, RootKeys);
  }

  /** `tests` is tried before `data`: with both holding lists, the `tests` list wins, and a
      `tests` entry that is not a list is passed over. */
  lemma RootKeyOrder(t: seq<Value>, u: seq<Value>, name: string)
    ensures FromYaml(Dict([("data", List(u)), ("tests", List(t))]), name) == Ok(t)
    ensures FromJson(Dict([("tests", Str("x")), ("data", List(u))]), name) == Ok(u)
  {
    var d1 := [("data", List(u)), ("tests", List(t))];
    assert Get(d1, "tests") == Some(List(t)) by {
      assert d1[1..] == [("tests", List(t))];
    }
    var d2 := [("tests", Str("x")), ("data", List(u))];
    assert Get(d2, "tests") == Some(Str("x"));
    assert Get(d2, "data") == Some(List(u)) by {
      assert d2[1..] == [("data", List(u))];
    }
    assert RootKeys[1..][0] == "data";
    assert RootList(d2, RootKeys[1..]) == Some(u);
    assert RootList(d2, RootKeys) == Some(u);
  }

  /** The YAML and the JSON normaliser agree on every document except an empty (null) YAML file,
      and both return a parsed list unchanged. */
  lemma YamlJsonAgree(content: Value, name: string)
    requires !content.Null?
    ensures FromYaml(content, name).Ok? <==> FromJson(content, name).Ok?
    ensures FromYaml(content, name).Ok? ==> FromYaml(content, name) == FromJson(content, name)
    ensures content.List? ==> FromYaml(content, name) == Ok(content.items)
  {
  }

  /** A document that is neither a list nor a mapping is refused by both normalisers;
      an empty YAML file is refused too. */
  lemma ScalarDocumentsRefused(content: Value, name: string)
    requires !content.List? && !content.Dict?
    ensures FromYaml(content, name).Err? && FromYaml(content, name).error.DataLoaderError?
    ensures FromJson(content, name).Err? && FromJson(content, name).error.DataLoaderError?
  {
  }

  /** An empty dataset is refused even though the file itself is well formed: a YAML or JSON
      document that is an empty list, or a mapping whose first root key holding a list holds `[]`
      (say `tests: []`), raises DataLoaderError "Empty dataset". */
  lemma EmptyDatasetRefused(path: string, env: Environment, doc: Value)
    requires path in env.files
    requires var suffix := Lower(Suffix(FileName(path)));
             (suffix == ".json" && env.json(env.files[path]) == Parsed(doc)) ||
             ((suffix == ".yaml" || suffix == ".yml") && env.yaml(env.files[path]) == Parsed(doc))
    requires doc == List([]) || (doc.Dict? && RootList(doc.entries, RootKeys) == Some([]))
    ensures Load(path, env) ==
            Err(DataLoaderError("Empty dataset in " + FileName(path) + ". Expected non-empty list of test cases."))
  {
  }

  /** A CSV file needs a header and at least one data row. */
  lemma CsvChecks(header: seq<string>, rows: seq<Value>, name: string)
    ensures FromCsv(Table(None, rows), name).Err? && FromCsv(Table(None, rows), name).error.DataLoaderError?
    ensures FromCsv(Table(Some(header), []), name).Err? && FromCsv(Table(Some(header), []), name).error.DataLoaderError?
    ensures rows != [] ==> FromCsv(Table(Some(header), rows), name) == Ok(rows)
  {
  }
}
