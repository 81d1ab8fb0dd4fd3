/** The values the framework passes around: documents produced by the YAML, JSON and CSV parsers,
    configuration dictionaries and option maps, with the few Python operations the core applies to them. */
module Values {
  import opened Wrappers
  import Text

  /** A parsed YAML/JSON value. Dictionaries keep their insertion order, as Python's do. */
  datatype Value =
    | Null
    | Bool(b: bool)
    | Int(i: int)
    | Str(s: string)
    | List(items: seq<Value>)
    | Dict(entries: seq<(string, Value)>)

  /** The entries of a dictionary, in insertion order. */
  type Entries = seq<(string, Value)>

  /** The exceptions the core raises or lets through. */
  datatype Exception =
    | ValueError(message: string)
    | RuntimeError(message: string)
    | TypeError(message: string)          // also stands for AttributeError
    | KeyError(key: string)
    | FileNotFoundError(message: string)
    | NotImplementedError(message: string)
    | DataLoaderError(message: string)
    | Error(message: string)              // a bare `Exception(...)` raised by the framework
    | Foreign(message: string)            // raised inside a library (parser, browser driver)

  /** `str(e)`: the text of an exception. */
  function ExceptionText(e: Exception): string {
    match e
    case KeyError(k) => "'" + k + "'"
    case _ => e.message
  }

  /** `type(v).__name__` */
  function TypeName(v: Value): string {
    match v
    case Null => "NoneType"
    case Bool(_) => "bool"
    case Int(_) => "int"
    case Str(_) => "str"
    case List(_) => "list"
    case Dict(_) => "dict"
  }

  /** The AttributeError of `v.attr` on a value whose type has no such method. */
  function NoAttribute(v: Value, attr: string): Exception {
    TypeError("'" + TypeName(v) + "' object has no attribute '" + attr + "'")
  }

  /** `d[k]` / `d.get(k)` on a dictionary: the value stored under `k`. */
  function Get(d: Entries, k: string): Option<Value> {
    if d == [] then None else if d[0].0 == k then Some(d[0].1) else Get(d[1..], k)
  }

  /** `k in d` */
  predicate HasKey(d: Entries, k: string) {
    Get(d, k).Some?
  }

  /** The value of the LAST entry with key `k`: what a run of assignments leaves behind. */
  function GetLast(d: Entries, k: string): Option<Value> {
    if d == [] then None
    else
      match GetLast(d[1..], k)
      case Some(v) => Some(v)
      case None => if d[0].0 == k then Some(d[0].1) else None
  }

  function Keys(d: Entries): seq<string> {
    seq(|d|, i requires 0 <= i < |d| => d[i].0)
  }

  /** Every key occurs once, as in any Python dictionary. */
  predicate DistinctKeys(d: Entries) {
    forall i, j :: 0 <= i < j < |d| ==> d[i].0 != d[j].0
  }

  /** `d[k] = v`: an existing key keeps its position, a new key goes last. */
  function Put(d: Entries, k: string, v: Value): Entries {
    if d == [] then [(k, v)]
    else if d[0].0 == k then [(k, v)] + d[1..]
    else [d[0]] + Put(d[1..], k, v)
  }

  /** `d.update(o)`: assigns every entry of `o` in turn. */
  function Update(d: Entries, o: Entries): Entries
    decreases |o|
  {
    if o == [] then d else Update(Put(d, o[0].0, o[0].1), o[1..])
  }

  /** `d.get(k, default)` */
  function GetOr(d: Entries, k: string, default: Value): Value {
    Get(d, k).GetOr(default)
  }

  lemma {:induction false} GetPut(d: Entries, k: string, v: Value, j: string)
    ensures Get(Put(d, k, v), j) == if j == k then Some(v) else Get(d, j)
  {
    if d != [] && d[0].0 != k {
      GetPut(d[1..], k, v, j);
      assert Put(d, k, v)[1..] == Put(d[1..], k, v);
    }
  }

  lemma {:induction false} KeysPut(d: Entries, k: string, v: Value)
    ensures Keys(Put(d, k, v)) == if k in Keys(d) then Keys(d) else Keys(d) + [k]
  {
    if d != [] {
      assert Keys(d) == [d[0].0] + Keys(d[1..]);
      if d[0].0 != k {
        KeysPut(d[1..], k, v);
        assert Keys(Put(d, k, v)) == [d[0].0] + Keys(Put(d[1..], k, v));
      } else {
        assert Keys(Put(d, k, v)) == [k] + Keys(d[1..]);
      }
    }
  }

  /** After `d.update(o)`, a key of `o` holds the value `o` assigned last; any other key is untouched. */
  lemma {:induction false} GetUpdate(d: Entries, o: Entries, j: string)
    ensures Get(Update(d, o), j) == if GetLast(o, j).Some? then GetLast(o, j) else Get(d, j)
    decreases |o|
  {
    if o != [] {
      GetUpdate(Put(d, o[0].0, o[0].1), o[1..], j);
      GetPut(d, o[0].0, o[0].1, j);
    }
  }

  /** In a dictionary with distinct keys the first and the last entry for a key are the same one. */
  lemma {:induction false} GetLastDistinct(d: Entries, j: string)
    requires DistinctKeys(d)
    ensures GetLast(d, j) == Get(d, j)
  {
    if d != [] {
      assert DistinctKeys(d[1..]) by {
        forall a, b | 0 <= a < b < |d[1..]| ensures d[1..][a].0 != d[1..][b].0 {
          assert d[1..][a] == d[a + 1] && d[1..][b] == d[b + 1];
        }
      }
      GetLastDistinct(d[1..], j);
      if d[0].0 == j {
        GetAbsent(d[1..], j, d);
      }
    }
  }

  lemma {:induction false} GetAbsent(tail: Entries, j: string, d: Entries)
    requires |d| > 0 && tail == d[1..] && DistinctKeys(d) && d[0].0 == j
    ensures Get(tail, j) == None
    decreases |tail|
  {
    if tail != [] {
      assert tail[0] == d[1];
      var d' := [d[0]] + tail[1..];
      assert DistinctKeys(d') by {
        forall a, b | 0 <= a < b < |d'| ensures d'[a].0 != d'[b].0 {
          assert d'[b] == d[b + 1];
          if a > 0 { assert d'[a] == d[a + 1]; }
        }
      }
      GetAbsent(tail[1..], j, d');
    }
  }

  /** Python truthiness: None, False, 0 and empty containers are false. */
  predicate Truthy(v: Value) {
    match v
    case Null => false
    case Bool(b) => b
    case Int(i) => i != 0
    case Str(s) => s != ""
    case List(items) => items != []
    case Dict(entries) => entries != []
  }

  predicate IsSubstring(p: string, s: string) {
    p <= s || (|s| > 0 && IsSubstring(p, s[1..]))
  }

  /** `key in container`: key lookup in a dictionary, membership in a list, substring in a string. */
  function In(key: string, container: Value): Result<bool, Exception> {
    match container
    case Dict(d) => Ok(HasKey(d, key))
    case List(items) => Ok(Str(key) in items)
    case Str(s) => Ok(IsSubstring(key, s))
    case _ => Err(TypeError("argument is not iterable"))
  }

  /** `container[key]` with a string key. */
  function GetItem(container: Value, key: string): Result<Value, Exception> {
    match container
    case Dict(d) => if HasKey(d, key) then Ok(Get(d, key).value) else Err(KeyError(key))
    case List(_) => Err(TypeError("list indices must be integers or slices, not str"))
    case Str(_) => Err(TypeError("string indices must be integers"))
    case _ => Err(TypeError("object is not subscriptable"))
  }
}
