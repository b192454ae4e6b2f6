/** The YAML-backed configuration of the components library (`YamlConfig`): a tree of
    decoded values addressed by dotted keys, with typed getters. Reading the file and the
    YAML codec are parameters; the tree is held by value. */
module YamlConfig {
  import opened Wrappers
  import opened StrUtil
  import ConfigFactory

  /** A value held in the tree, by its Go dynamic type. */
  datatype Node =
    | Nil                              // nil, YAML null, or a missing key
    | Str(s: string)
    | Int(i: int)                      // int
    | Int64(i: int)                    // int64
    | Float(f: real)                   // float64
    | Bool(b: bool)
    | StrMap(m: map<string, Node>)     // map[string]interface{}: what Set creates
    | AnyMap(m: map<string, Node>)     // map[interface{}]interface{}: what yaml.v2 decodes a nested mapping to
    | List(elems: seq<Node>)           // []interface{}
    | Other(text: string)              // any other value, with its %v rendering

  type Tree = map<string, Node>

  /** The value a key path leads to: each segment but the last must name a
      map[string]interface{}; anything else, or a missing key, gives nil. */
  function Lookup(t: Tree, keys: seq<string>): Node
    requires |keys| >= 1
    decreases |keys|
  {
    if |keys| == 1 then (if keys[0] in t then t[keys[0]] else Nil)
    else if keys[0] in t && t[keys[0]].StrMap? then Lookup(t[keys[0]].m, keys[1..])
    else Nil
  }

  /** Following a path in two pieces: the second piece is looked up in the map the first
      leads to, and a first piece that does not lead to a map[string]interface{} gives nil. */
  lemma {:induction false} LookupComposes(t: Tree, p: seq<string>, q: seq<string>)
    requires |p| >= 1 && |q| >= 1
    ensures Lookup(t, p).StrMap? ==> Lookup(t, p + q) == Lookup(Lookup(t, p).m, q)
    ensures !Lookup(t, p).StrMap? ==> Lookup(t, p + q) == Nil
    decreases |p|
  {
    if |p| > 1 {
      assert (p + q)[1..] == p[1..] + q;
      if p[0] in t && t[p[0]].StrMap? {
        LookupComposes(t[p[0]].m, p[1..], q);
      }
    } else {
      assert (p + q)[1..] == q;
    }
  }

  /** A mapping nested in a loaded document is a map[interface{}]interface{}, which a dotted
      key never enters: every key with more than one segment below it reads nil. */
  lemma DecodedNestingUnreachable(t: Tree, keys: seq<string>)
    requires |keys| >= 2 && keys[0] in t && t[keys[0]].AnyMap?
    ensures Lookup(t, keys) == Nil
  {
  }

  /** `Set` on values: the map after writing `v` at the path, creating the missing
      intermediate maps, or None ("invalid path") when an intermediate key holds something
      other than a map[string]interface{} (nil included). */
  function SetIn(t: Tree, keys: seq<string>, v: Node): (r: Option<Tree>)
    requires |keys| >= 1
    ensures r.Some? ==> r.value.Keys == t.Keys + {keys[0]}
    ensures r.Some? ==> forall k :: k in t && k != keys[0] ==> r.value[k] == t[k]
    decreases |keys|
  {
    if |keys| == 1 then Some(t[keys[0] := v])
    else
      var child := if keys[0] in t then t[keys[0]] else StrMap(map[]);
      if !child.StrMap? then None
      else
        match SetIn(child.m, keys[1..], v)
        case None => None
        case Some(c) => Some(t[keys[0] := StrMap(c)])
  }

  /** An intermediate key on the path exists and holds something other than a
      map[string]interface{}. */
  predicate Blocked(t: Tree, keys: seq<string>)
    requires |keys| >= 1
  {
    exists n :: 1 <= n < |keys| && PresentNonMap(t, keys[..n])
  }

  /** The path leads to a present value that is not a map[string]interface{}. */
  predicate PresentNonMap(t: Tree, keys: seq<string>)
    requires |keys| >= 1
    decreases |keys|
  {
    if |keys| == 1 then keys[0] in t && !t[keys[0]].StrMap?
    else keys[0] in t && t[keys[0]].StrMap? && PresentNonMap(t[keys[0]].m, keys[1..])
  }

  /** `Set` fails exactly when an intermediate key on the path already holds a value that
      is not a map[string]interface{}. */
  lemma {:induction false} SetFailsIffBlocked(t: Tree, keys: seq<string>, v: Node)
    requires |keys| >= 1
    ensures SetIn(t, keys, v).None? <==> Blocked(t, keys)
    decreases |keys|
  {
    if |keys| > 1 {
      var k := keys[0];
      assert keys[..1] == [k];
      if k !in t {
        FreshNeverFails(keys[1..], v);
        forall n | 1 <= n < |keys| ensures !PresentNonMap(t, keys[..n]) {
          assert keys[..n][0] == k;
        }
      } else if !t[k].StrMap? {
        assert PresentNonMap(t, keys[..1]);
      } else {
        var c := t[k].m;
        SetFailsIffBlocked(c, keys[1..], v);
        assert !PresentNonMap(t, keys[..1]);
        forall n | 2 <= n < |keys|
          ensures PresentNonMap(t, keys[..n]) == PresentNonMap(c, keys[1..][..n - 1])
        {
          assert keys[..n][1..] == keys[1..][..n - 1];
        }
        if Blocked(c, keys[1..]) {
          var n :| 1 <= n < |keys[1..]| && PresentNonMap(c, keys[1..][..n]);
          assert PresentNonMap(t, keys[..n + 1]);
        }
      }
    }
  }

  /** Writing below a key that is not there never fails: every map on the way is new. */
  lemma {:induction false} FreshNeverFails(keys: seq<string>, v: Node)
    requires |keys| >= 1
    ensures SetIn(map[], keys, v).Some?
    decreases |keys|
  {
    if |keys| > 1 {
      FreshNeverFails(keys[1..], v);
    }
  }

  /** What `Set` wrote is what `Get` reads back. */
  lemma {:induction false} SetThenLookup(t: Tree, keys: seq<string>, v: Node)
    requires |keys| >= 1 && SetIn(t, keys, v).Some?
    ensures Lookup(SetIn(t, keys, v).value, keys) == v
    decreases |keys|
  {
    if |keys| > 1 {
      var child := if keys[0] in t then t[keys[0]] else StrMap(map[]);
      SetThenLookup(child.m, keys[1..], v);
    }
  }

  /** `Set` touches nothing off its own path: a key that differs from the written one in
      some segment reads the same afterwards. */
  lemma {:induction false} SetKeepsOthers(t: Tree, keys: seq<string>, v: Node, other: seq<string>)
    requires |keys| >= 1 && |other| >= 1 && SetIn(t, keys, v).Some?
    requires exists j :: 0 <= j < |keys| && j < |other| && keys[j] != other[j]
    ensures Lookup(SetIn(t, keys, v).value, other) == Lookup(t, other)
    decreases |keys|
  {
    var r := SetIn(t, keys, v).value;
    if keys[0] != other[0] {
      if |other| > 1 && other[0] in t {
        assert r[other[0]] == t[other[0]];
      }
    } else {
      var j :| 0 <= j < |keys| && j < |other| && keys[j] != other[j];
      assert j >= 1;
      var child := if keys[0] in t then t[keys[0]] else StrMap(map[]);
      var c := SetIn(child.m, keys[1..], v).value;
      assert keys[1..][j - 1] != other[1..][j - 1];
      SetKeepsOthers(child.m, keys[1..], v, other[1..]);
      if keys[0] !in t {
        EmptyReadsNil(other[1..]);
      }
    }
  }

  /** Nothing can be read from an empty map. */
  lemma EmptyReadsNil(keys: seq<string>)
    requires |keys| >= 1
    ensures Lookup(map[], keys) == Nil
  {
  }

  /** `GetString`: the text of a string value, "" for anything else. */
  function AsString(n: Node): (r: string)
    ensures n.Str? ==> r == n.s
    ensures !n.Str? ==> r == ""
  {
    if n.Str? then n.s else ""
  }

  /** `GetBool`: a bool value, false for anything else. */
  function AsBool(n: Node): (r: bool)
    ensures r <==> n == Bool(true)
  {
    n.Bool? && n.b
  }

  /** Go's `int(f)` on a float64: the integral part, truncating toward zero. */
  function Trunc(f: real): (r: int)
    ensures f >= 0.0 ==> r as real <= f < r as real + 1.0
    ensures f < 0.0 ==> r as real - 1.0 < f <= r as real
  {
    if f >= 0.0 then f.Floor else -((-f).Floor)
  }

  /** `GetInt`: an int or int64 value, a float64 truncated toward zero, 0 for anything else. */
  function AsInt(n: Node): (r: int)
    ensures n.Int? || n.Int64? ==> r == n.i
    ensures n.Float? ==> r == Trunc(n.f)
    ensures !(n.Int? || n.Int64? || n.Float?) ==> r == 0
  {
    match n
    case Int(i) => i
    case Int64(i) => i
    case Float(f) => Trunc(f)
    case _ => 0
  }

  /** `GetFloat`: a float64 value, an int or int64 as a number, 0 for anything else. */
  function AsFloat(n: Node): (r: real)
    ensures n.Float? ==> r == n.f
    ensures n.Int? || n.Int64? ==> r == n.i as real
    ensures !(n.Int? || n.Int64? || n.Float?) ==> r == 0.0
  {
    match n
    case Float(f) => f
    case Int(i) => i as real
    case Int64(i) => i as real
    case _ => 0.0
  }

  /** `GetStringMap`: a map[string]interface{} value, nil (None) for anything else,
      a decoded map[interface{}]interface{} included. */
  function AsStringMap(n: Node): (r: Option<Tree>)
    ensures r.Some? <==> n.StrMap?
    ensures r.Some? ==> r.value == n.m
  {
    if n.StrMap? then Some(n.m) else None
  }

  /** `fmt.Sprint` of one element: strings as they are, integers in decimal, bools as
      true/false, nil as "<nil>"; the rendering of floats, maps and lists is `render`. */
  function Sprint(n: Node, render: Node -> string): string {
    match n
    case Str(s) => s
    case Int(i) => IntToString(i)
    case Int64(i) => IntToString(i)
    case Bool(b) => if b then "true" else "false"
    case Nil => "<nil>"
    case Other(text) => text
    case _ => render(n)
  }

  /** `GetStringSlice`: each element of a []interface{} printed with `fmt.Sprint`, nil
      (None) for anything else. */
  function AsStringSlice(n: Node, render: Node -> string): (r: Option<seq<string>>)
    ensures r.Some? <==> n.List?
    ensures r.Some? ==> |r.value| == |n.elems|
    ensures r.Some? ==> forall i :: 0 <= i < |n.elems| ==> r.value[i] == Sprint(n.elems[i], render)
  {
    if n.List? then Some(seq(|n.elems|, i requires 0 <= i < |n.elems| => Sprint(n.elems[i], render)))
    else None
  }

  /** A list of strings reads back as those strings. */
  lemma StringListReadsBack(items: seq<string>, render: Node -> string)
    ensures AsStringSlice(List(seq(|items|, i requires 0 <= i < |items| => Str(items[i]))), render)
      == Some(items)
  {
    var r := AsStringSlice(List(seq(|items|, i requires 0 <= i < |items| => Str(items[i]))), render);
    assert r.value == items;
  }

  /** `Set`'s error. */
  function InvalidPath(key: string): string {
    "invalid path: " + key
  }

  class YamlConfig {
    var configPath: string
    var config: Tree

    /** `NewYamlConfig`: an empty tree and no path. */
    constructor ()
      ensures config == map[] && configPath == ""
    {
      config := map[];
      configPath := "";
    }

    /** `Store` records the file to load. */
    method Store(path: string) returns (r: Outcome)
      modifies this
      ensures r == Pass && configPath == path && config == old(config)
    {
      configPath := path;
      return Pass;
    }

    /** `Load`: `read` is the outcome of reading the file at `configPath` and `decode` the
        YAML decoder. A decoded document is merged into the tree, its top-level keys
        replacing those already there. */
    method Load(read: Result<string>, decode: string -> Result<Tree>) returns (r: Outcome)
      modifies this
      ensures configPath == old(configPath)
      ensures read.Err? ==> r == Fail("read config file error: " + read.msg) && config == old(config)
      ensures read.Ok? && decode(read.value).Err? ==>
        r == Fail("unmarshal yaml error: " + decode(read.value).msg) && config == old(config)
      ensures read.Ok? && decode(read.value).Ok? ==>
        r == Pass && config == old(config) + decode(read.value).value
    {
      if read.Err? {
        return Fail("read config file error: " + read.msg);
      }
      var d := decode(read.value);
      if d.Err? {
        return Fail("unmarshal yaml error: " + d.msg);
      }
      config := config + d.value;
      return Pass;
    }

    /** `find`/`Get`: walks the dotted key one segment at a time. */
    method Get(key: string) returns (v: Node)
      ensures v == Lookup(config, Split(key, '.'))
    {
      var keys := Split(key, '.');
      var current := config;
      var i := 0;
      while i < |keys|
        invariant 0 <= i < |keys|
        invariant Lookup(config, keys) == Lookup(current, keys[i..])
        decreases |keys| - i
      {
        var k := keys[i];
        if i == |keys| - 1 {
          return if k in current then current[k] else Nil;
        }
        assert keys[i..][1..] == keys[i + 1..];
        if k in current && current[k].StrMap? {
          current := current[k].m;
        } else {
          return Nil;
        }
        i := i + 1;
      }
      return Nil;
    }

    /** `Set`: writes `value` at the dotted key, creating missing intermediate maps; on an
        intermediate value that is not a map[string]interface{} it fails and changes nothing. */
    method Set(key: string, value: Node) returns (r: Outcome)
      modifies this
      ensures configPath == old(configPath)
      ensures SetIn(old(config), Split(key, '.'), value).None? ==>
        r == Fail(InvalidPath(key)) && config == old(config)
      ensures SetIn(old(config), Split(key, '.'), value).Some? ==>
        r == Pass && config == SetIn(old(config), Split(key, '.'), value).value
    {
      var s := SetIn(config, Split(key, '.'), value);
      if s.None? {
        return Fail(InvalidPath(key));
      }
      config := s.value;
      return Pass;
    }

    method GetString(key: string) returns (r: string)
      ensures r == AsString(Lookup(config, Split(key, '.')))
    {
      var v := Get(key);
      r := AsString(v);
    }

    method GetInt(key: string) returns (r: int)
      ensures r == AsInt(Lookup(config, Split(key, '.')))
    {
      var v := Get(key);
      r := AsInt(v);
    }

    method GetBool(key: string) returns (r: bool)
      ensures r == AsBool(Lookup(config, Split(key, '.')))
    {
      var v := Get(key);
      r := AsBool(v);
    }

    method GetFloat(key: string) returns (r: real)
      ensures r == AsFloat(Lookup(config, Split(key, '.')))
    {
      var v := Get(key);
      r := AsFloat(v);
    }

    method GetStringMap(key: string) returns (r: Option<Tree>)
      ensures r == AsStringMap(Lookup(config, Split(key, '.')))
    {
      var v := Get(key);
      r := AsStringMap(v);
    }

    method GetStringSlice(key: string, render: Node -> string) returns (r: Option<seq<string>>)
      ensures r == AsStringSlice(Lookup(config, Split(key, '.')), render)
    {
      var v := Get(key);
      r := AsStringSlice(v, render);
    }
  }

  /** The package's `init`: the YAML creator is filed under ".yaml" and ".yml" (an earlier
      registration of either is left in place). */
  method RegisterYaml(f: ConfigFactory.ConfigFactory, creator: ConfigFactory.CreatorId)
    modifies f
    ensures f.creators.Keys == old(f.creators).Keys + {".yaml", ".yml"}
    ensures ".yaml" in old(f.creators) ==> f.creators[".yaml"] == old(f.creators)[".yaml"]
    ensures ".yaml" !in old(f.creators) ==> f.creators[".yaml"] == creator
    ensures ".yml" in old(f.creators) ==> f.creators[".yml"] == old(f.creators)[".yml"]
    ensures ".yml" !in old(f.creators) ==> f.creators[".yml"] == creator
  {
    assert ConfigFactory.Dotted(".yaml") == ".yaml" && ConfigFactory.Dotted(".yml") == ".yml";
    var _ := f.Register(".yaml", Some(creator));
    assert ".yaml" in f.creators;
    ghost var mid := f.creators;
    var _ := f.Register(".yml", Some(creator));
    assert f.creators == mid || f.creators == mid[".yml" := creator];
    assert ".yaml" in f.creators && ".yml" in f.creators;
  }
}
