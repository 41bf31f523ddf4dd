/**
 * The configuration tree: the nested dicts, lists and scalars that the
 * deployer builds and serialises for helm, and the two ways the deployer
 * writes into such a tree (a chain of `setdefault` calls, and a chain of
 * subscripts followed by an assignment).
 */
module Values {
  import opened Wrappers
  import opened Errors

  datatype Val =
    | Null
    | Bool(flag: bool)
    | Int(num: int)
    | Str(text: string)
    | Seq(items: seq<Val>)
    | Map(fields: map<string, Val>)

  /** A dict at the top of a configuration tree. */
  type Tree = map<string, Val>

  /** The value reached by following `path` through nested dicts, if any. */
  function Lookup(v: Val, path: seq<string>): Option<Val>
    decreases |path|
  {
    if path == [] then Some(v)
    else match v
      case Map(m) => if path[0] in m then Lookup(m[path[0]], path[1..]) else None
      case _ => None
  }

  /** `v[path[0]][path[1]]...`: a missing key raises `KeyError`, subscripting a non-dict `TypeError`. */
  function Subscripts(v: Val, path: seq<string>): (r: Result<Val, Error>)
    ensures r.Ok? <==> Lookup(v, path).Some?
    ensures r.Ok? ==> Lookup(v, path) == Some(r.value)
    decreases |path|
  {
    if path == [] then Ok(v)
    else match v
      case Map(m) => if path[0] in m then Subscripts(m[path[0]], path[1..]) else Err(KeyError(path[0]))
      case _ => Err(TypeError(path[0]))
  }

  /** Python truthiness of a loaded YAML/JSON value. */
  predicate Truthy(v: Val) {
    match v
    case Null => false
    case Bool(b) => b
    case Int(n) => n != 0
    case Str(s) => s != ""
    case Seq(xs) => xs != []
    case Map(m) => m != map[]
  }

  /** `q` leaves `p` at some position both of them have: a write at `p` cannot reach `q`. */
  predicate Diverges(q: seq<string>, p: seq<string>) {
    exists i :: 0 <= i < |q| && i < |p| && q[i] != p[i]
  }

  /**
   * Every dict met along `path` that already exists is a dict, so a chain of
   * `setdefault(k, {})` calls along `path` succeeds.
   */
  predicate Walkable(m: Tree, path: seq<string>)
    decreases |path|
  {
    path == [] || path[0] !in m || (m[path[0]].Map? && Walkable(m[path[0]].fields, path[1..]))
  }

  /**
   * `m.setdefault(path[0], {}).setdefault(path[1], {})...[key] = v`: missing
   * dicts along the path are created, existing ones are reused.
   */
  function SetDefaultAt(m: Tree, path: seq<string>, key: string, v: Val): (r: Result<Tree, Error>)
    ensures r.Ok? <==> Walkable(m, path)
    ensures r.Ok? ==> Lookup(Map(r.value), path + [key]) == Some(v)
    ensures r.Ok? && path != [] ==> r.value.Keys == m.Keys + {path[0]}
    decreases |path|
  {
    if path == [] then Ok(m[key := v])
    else
      var child := if path[0] in m then m[path[0]] else Map(map[]);
      if !child.Map? then Err(TypeError(path[0]))
      else
        var inner :- SetDefaultAt(child.fields, path[1..], key, v);
        assert (path + [key])[1..] == path[1..] + [key];
        Ok(m[path[0] := Map(inner)])
  }

  /** `m[path[0]][path[1]]...[key] = v`: every dict along the path must already exist. */
  function AssignAt(m: Tree, path: seq<string>, key: string, v: Val): (r: Result<Tree, Error>)
    ensures r.Ok? <==> Lookup(Map(m), path).Some? && Lookup(Map(m), path).value.Map?
    ensures r.Ok? ==> Lookup(Map(r.value), path + [key]) == Some(v)
    ensures r.Ok? && path != [] ==> r.value.Keys == m.Keys
    decreases |path|
  {
    if path == [] then Ok(m[key := v])
    else if path[0] !in m then Err(KeyError(path[0]))
    else match m[path[0]]
      case Map(child) =>
        var inner :- AssignAt(child, path[1..], key, v);
        assert (path + [key])[1..] == path[1..] + [key];
        Ok(m[path[0] := Map(inner)])
      case _ => Err(TypeError(path[0]))
  }

  /** Looking up `p + q` is looking up `p`, then `q` from there. */
  lemma {:induction false} LookupAppend(v: Val, p: seq<string>, q: seq<string>)
    ensures Lookup(v, p + q) == if Lookup(v, p).Some? then Lookup(Lookup(v, p).value, q) else None
    decreases |p|
  {
    if p == [] {
      assert p + q == q;
    } else {
      assert (p + q)[0] == p[0] && (p + q)[1..] == p[1..] + q;
      if v.Map? && p[0] in v.fields {
        LookupAppend(v.fields[p[0]], p[1..], q);
      }
    }
  }

  /**
   * A path that already leads to a dict can be extended by one more
   * `setdefault` whose key is absent there or names a dict.
   */
  lemma {:induction false} WalkableBelowDict(m: Tree, p: seq<string>, k: string)
    requires Lookup(Map(m), p).Some? && Lookup(Map(m), p).value.Map?
    requires k in Lookup(Map(m), p).value.fields ==> Lookup(Map(m), p).value.fields[k].Map?
    ensures Walkable(m, p + [k])
    decreases |p|
  {
    if p == [] {
      assert p + [k] == [k];
    } else {
      assert (p + [k])[0] == p[0] && (p + [k])[1..] == p[1..] + [k];
      WalkableBelowDict(m[p[0]].fields, p[1..], k);
    }
  }

  /** A `setdefault` chain changes nothing that lies off its own path. */
  lemma {:induction false} SetDefaultAtKeepsOthers(m: Tree, path: seq<string>, key: string, v: Val, q: seq<string>)
    requires SetDefaultAt(m, path, key, v).Ok?
    requires Diverges(q, path + [key])
    ensures Lookup(Map(SetDefaultAt(m, path, key, v).value), q) == Lookup(Map(m), q)
    decreases |path|
  {
    var i :| 0 <= i < |q| && i < |path + [key]| && q[i] != (path + [key])[i];
    if path != [] && q[0] == path[0] {
      var child := if path[0] in m then m[path[0]].fields else map[];
      assert i >= 1;
      assert q[1..][i - 1] != (path[1..] + [key])[i - 1];
      SetDefaultAtKeepsOthers(child, path[1..], key, v, q[1..]);
    }
  }

  /** A subscript-and-assign chain changes nothing that lies off its own path. */
  lemma {:induction false} AssignAtKeepsOthers(m: Tree, path: seq<string>, key: string, v: Val, q: seq<string>)
    requires AssignAt(m, path, key, v).Ok?
    requires Diverges(q, path + [key])
    ensures Lookup(Map(AssignAt(m, path, key, v).value), q) == Lookup(Map(m), q)
    decreases |path|
  {
    var i :| 0 <= i < |q| && i < |path + [key]| && q[i] != (path + [key])[i];
    if path != [] && q[0] == path[0] {
      assert i >= 1;
      assert q[1..][i - 1] != (path[1..] + [key])[i - 1];
      AssignAtKeepsOthers(m[path[0]].fields, path[1..], key, v, q[1..]);
    }
  }

  /** A subscript-and-assign chain adds its key to the dict at the end of its path and keeps the rest of that dict. */
  lemma {:induction false} AssignAtWrites(m: Tree, path: seq<string>, key: string, v: Val)
    requires Lookup(Map(m), path).Some? && Lookup(Map(m), path).value.Map?
    ensures AssignAt(m, path, key, v).Ok?
    ensures Lookup(Map(AssignAt(m, path, key, v).value), path) == Some(Map(Lookup(Map(m), path).value.fields[key := v]))
    decreases |path|
  {
    if path != [] {
      AssignAtWrites(m[path[0]].fields, path[1..], key, v);
    }
  }

  /** A subscript chain that starts at an existing dict `m[k]` is that chain run inside `m[k]`, stored back at `k`. */
  lemma AssignAtBelow(m: Tree, k: string, path: seq<string>, key: string, v: Val)
    requires k in m && m[k].Map?
    ensures AssignAt(m, [k] + path, key, v).Ok? <==> AssignAt(m[k].fields, path, key, v).Ok?
    ensures AssignAt(m[k].fields, path, key, v).Ok? ==>
      AssignAt(m, [k] + path, key, v).value == m[k := Map(AssignAt(m[k].fields, path, key, v).value)]
  {
    assert ([k] + path)[0] == k && ([k] + path)[1..] == path;
  }

  /** Looking up below a key is looking up in that key's value. */
  lemma LookupBelow(m: Tree, k: string, q: seq<string>)
    ensures Lookup(Map(m), [k] + q) == if k in m then Lookup(m[k], q) else None
  {
    assert ([k] + q)[0] == k && ([k] + q)[1..] == q;
  }

  /** One step below a dict reached by `p` is that dict's entry. */
  lemma LookupChild(v: Val, p: seq<string>, k: string)
    requires Lookup(v, p).Some? && Lookup(v, p).value.Map?
    ensures Lookup(v, p + [k]) ==
      if k in Lookup(v, p).value.fields then Some(Lookup(v, p).value.fields[k]) else None
  {
    LookupAppend(v, p, [k]);
    LookupBelow(Lookup(v, p).value.fields, k, []);
  }

  /** Whatever lies strictly above a value that exists is a dict. */
  lemma LookupAboveIsDict(v: Val, p: seq<string>, q: seq<string>)
    requires q != [] && Lookup(v, p + q).Some?
    ensures Lookup(v, p).Some? && Lookup(v, p).value.Map?
  {
    LookupAppend(v, p, q);
  }

  lemma DivergesExtended(q: seq<string>, p: seq<string>, r: seq<string>)
    requires Diverges(q, p)
    ensures Diverges(q, p + r)
  {
    var i :| 0 <= i < |q| && i < |p| && q[i] != p[i];
    assert (p + r)[i] == p[i];
  }

  lemma DivergesBelow(k: string, q: seq<string>, p: seq<string>)
    requires Diverges(q, p)
    ensures Diverges([k] + q, [k] + p)
  {
    var i :| 0 <= i < |q| && i < |p| && q[i] != p[i];
    assert ([k] + q)[i + 1] == q[i] && ([k] + p)[i + 1] == p[i];
  }
}
