/** Python values of the kinds JSON decoding produces (plus `Decimal`), dicts
    as insertion-ordered association lists with Python's `get`, item
    assignment, `setdefault` and `update`, and the JSON/`str`/`Decimal`
    library functions, which are parameters of the model. */
module Json {
  import opened Wrappers

  datatype Value =
    | Null
    | Bool(b: bool)
    | Int(i: int)
    | Float(f: real)
    | Decimal(d: real)
    | Str(s: string)
    | List(items: seq<Value>)
    | Dict(fields: seq<(string, Value)>)

  /** Python truthiness. */
  predicate Truthy(v: Value)
  {
    match v
    case Null => false
    case Bool(b) => b
    case Int(i) => i != 0
    case Float(f) => f != 0.0
    case Decimal(d) => d != 0.0
    case Str(s) => s != ""
    case List(items) => items != []
    case Dict(fields) => fields != []
  }

  /** `v or default`. */
  function Or(v: Value, default: Value): (r: Value)
    ensures Truthy(v) ==> r == v
    ensures !Truthy(v) ==> r == default
  {
    if Truthy(v) then v else default
  }

  type Fields = seq<(string, Value)>

  /** The key at position `i` of a dict. */
  function KeyAt(d: Fields, i: int): string
    requires 0 <= i < |d|
  {
    d[i].0
  }

  predicate HasKey(d: Fields, k: string)
  {
    exists i | 0 <= i < |d| :: KeyAt(d, i) == k
  }

  /** No key occurs twice, as in every Python dict. */
  predicate DistinctKeys(d: Fields)
  {
    forall i, j | 0 <= i < j < |d| :: KeyAt(d, i) != KeyAt(d, j)
  }

  /** Every dict inside `v`, `v` included, has distinct keys. */
  predicate WellFormed(v: Value)
  {
    match v
    case List(items) => forall i | 0 <= i < |items| :: WellFormed(items[i])
    case Dict(fields) =>
      && DistinctKeys(fields)
      && forall i | 0 <= i < |fields| :: WellFormed(fields[i].1)
    case _ => true
  }

  /** `d.get(k)`: the value stored under the first occurrence of `k`. */
  function Get(d: Fields, k: string): (r: Option<Value>)
    ensures r.Some? <==> HasKey(d, k)
    ensures r.Some? ==> (k, r.value) in d
  {
    if d == [] then None
    else if d[0].0 == k then assert KeyAt(d, 0) == k; Some(d[0].1)
    else HasKeyTail(d, k); Get(d[1..], k)
  }

  /** Below a first pair with another key, the key occurs in the tail iff it
      occurs in the dict. */
  lemma HasKeyTail(d: Fields, k: string)
    requires d != [] && d[0].0 != k
    ensures HasKey(d, k) <==> HasKey(d[1..], k)
  {
    if HasKey(d[1..], k) {
      var i :| 0 <= i < |d[1..]| && KeyAt(d[1..], i) == k;
      assert KeyAt(d, i + 1) == k;
    }
    if HasKey(d, k) {
      var i :| 0 <= i < |d| && KeyAt(d, i) == k;
      assert i != 0 && KeyAt(d[1..], i - 1) == k;
    }
  }

  /** `d.get(k, default)`. */
  function GetOr(d: Fields, k: string, default: Value): (r: Value)
    ensures HasKey(d, k) ==> Some(r) == Get(d, k)
    ensures !HasKey(d, k) ==> r == default
  {
    match Get(d, k)
    case Some(v) => v
    case None => default
  }

  /** `d[k] = v`: replaces the value in place when `k` is present, otherwise
      appends the pair at the end. */
  function Put(d: Fields, k: string, v: Value): (r: Fields)
    ensures Get(r, k) == Some(v)
    ensures forall k' :: k' != k ==> Get(r, k') == Get(d, k')
    ensures HasKey(d, k) ==> |r| == |d|
    ensures !HasKey(d, k) ==> r == d + [(k, v)]
    ensures DistinctKeys(d) ==> DistinctKeys(r)
  {
    if d == [] then [(k, v)]
    else if d[0].0 == k then
      var r := [(k, v)] + d[1..];
      assert KeyAt(d, 0) == k;
      assert forall i | 0 <= i < |r| :: KeyAt(r, i) == KeyAt(d, i);
      r
    else
      HasKeyTail(d, k);
      var rest := Put(d[1..], k, v);
      var r := [d[0]] + rest;
      assert r[1..] == rest;
      assert Get(r, k) == Get(rest, k);
      assert forall k' :: k' != d[0].0 ==> Get(r, k') == Get(rest, k');
      assert !HasKey(d, k) ==> r == d + [(k, v)] by {
        if !HasKey(d, k) {
          assert d == [d[0]] + d[1..];
        }
      }
      assert DistinctKeys(d) ==> DistinctKeys(r) by {
        if DistinctKeys(d) {
          PutDistinct(d, rest);
        }
      }
      r
  }

  /** Putting a key other than the first one into the tail of a dict with
      distinct keys keeps the keys distinct once the first pair is put
      back. */
  lemma PutDistinct(d: Fields, rest: Fields)
    requires d != [] && DistinctKeys(d)
    requires DistinctKeys(d[1..]) ==> DistinctKeys(rest)
    requires Get(rest, d[0].0) == Get(d[1..], d[0].0)
    ensures DistinctKeys([d[0]] + rest)
  {
    var r := [d[0]] + rest;
    assert DistinctKeys(d[1..]) by {
      forall i, j | 0 <= i < j < |d[1..]| ensures KeyAt(d[1..], i) != KeyAt(d[1..], j) {
        assert KeyAt(d, i + 1) != KeyAt(d, j + 1);
      }
    }
    assert !HasKey(d[1..], d[0].0) by {
      forall i | 0 <= i < |d[1..]| ensures KeyAt(d[1..], i) != d[0].0 {
        assert KeyAt(d, 0) != KeyAt(d, i + 1);
      }
    }
    assert !HasKey(rest, d[0].0);
    forall i, j | 0 <= i < j < |r| ensures KeyAt(r, i) != KeyAt(r, j) {
      if i == 0 {
        assert KeyAt(rest, j - 1) == KeyAt(r, j) && KeyAt(rest, j - 1) != d[0].0;
      } else {
        assert KeyAt(r, i) == KeyAt(rest, i - 1) && KeyAt(r, j) == KeyAt(rest, j - 1);
      }
    }
  }

  /** `d.setdefault(k, v)`: stores `v` only when `k` is absent. */
  function SetDefault(d: Fields, k: string, v: Value): (r: Fields)
    ensures HasKey(d, k) ==> r == d
    ensures !HasKey(d, k) ==> r == d + [(k, v)]
  {
    if HasKey(d, k) then d else Put(d, k, v)
  }

  /** The value of the last pair with key `k`. */
  function LastGet(e: Fields, k: string): Option<Value>
  {
    if e == [] then None
    else if e[|e| - 1].0 == k then Some(e[|e| - 1].1)
    else LastGet(e[..|e| - 1], k)
  }

  /** `d.update(e)` with `e` a dict or a list of key/value pairs: assigns each
      pair in turn, so the last pair for a key wins. */
  function Update(d: Fields, e: Fields): (r: Fields)
    ensures DistinctKeys(d) ==> DistinctKeys(r)
  {
    if e == [] then d
    else Put(Update(d, e[..|e| - 1]), e[|e| - 1].0, e[|e| - 1].1)
  }

  /** After an update a key holds its last value in `e`, or its old value
      when `e` does not mention it. */
  lemma {:induction false} GetOfUpdate(d: Fields, e: Fields, k: string)
    ensures Get(Update(d, e), k) == (if LastGet(e, k).Some? then LastGet(e, k) else Get(d, k))
  {
    if e != [] {
      GetOfUpdate(d, e[..|e| - 1], k);
    }
  }

  /** Iterating a value with `for x in v`: the items of a list, the keys of a
      dict, the characters of a string; anything else is not iterable. */
  function Iterate(v: Value): (r: Result<seq<Value>>)
    ensures r.Success? <==> v.List? || v.Dict? || v.Str?
    ensures v.List? ==> r == Success(v.items)
    ensures r.Success? ==> |r.value| == Length(v)
  {
    match v
    case List(items) => Success(items)
    case Dict(fields) => Success(seq(|fields|, i requires 0 <= i < |fields| => Str(fields[i].0)))
    case Str(s) => Success(seq(|s|, i requires 0 <= i < |s| => Str([s[i]])))
    case _ => Failure(NotIterable)
  }

  /** `len(v)` for a list, dict or string. */
  function Length(v: Value): nat
  {
    match v
    case List(items) => |items|
    case Dict(fields) => |fields|
    case Str(s) => |s|
    case _ => 0
  }

  /** Library functions the core calls: `json.loads` (None when it raises
      `JSONDecodeError`), `json.dumps`, `str` and `Decimal` of a string (None
      when it raises `InvalidOperation`). */
  datatype Codec = Codec(
    loads: string -> Option<Value>,
    dumps: Value -> string,
    str: Value -> string,
    decimal: string -> Option<real>)
  {
    /** `str` of a string is the string itself, and `loads` returns
        Python values: every dict in them has distinct keys (a repeated
        key in the text keeps its last value). */
    ghost predicate Valid()
    {
      && (forall s: string :: str(Str(s)) == s)
      && (forall s: string | loads(s).Some? :: WellFormed(loads(s).value))
    }
  }
}
