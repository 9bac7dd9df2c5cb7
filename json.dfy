/** JSON values as the Python handlers and the TypeScript routes see them
    after decoding. Objects keep their keys in insertion order, as Python
    dicts and JavaScript objects do; the byte-level encoding is not part of
    the model. The Python and JavaScript readings of a value (truthiness,
    `str`, `len`, `int`, iteration) are given here once. */
module Json {
  import opened Wrappers
  import opened Strings

  datatype Value =
    | Null
    | Bool(b: bool)
    | Num(n: int)
    | Str(s: string)
    | Arr(items: seq<Value>)
    | Obj(fields: seq<(string, Value)>)

  type Fields = seq<(string, Value)>

  /** `d.get(key)`: the value under the first occurrence of `key`. */
  function Get(fields: Fields, key: string): (r: Option<Value>)
    ensures r.None? <==> forall i | 0 <= i < |fields| :: fields[i].0 != key
    ensures r.Some? ==> exists i | 0 <= i < |fields| :: fields[i] == (key, r.value)
  {
    if fields == [] then None
    else if fields[0].0 == key then Some(fields[0].1)
    else Get(fields[1..], key)
  }

  predicate HasKey(fields: Fields, key: string)
  {
    Get(fields, key).Some?
  }

  function Keys(fields: Fields): seq<string>
  {
    seq(|fields|, i requires 0 <= i < |fields| => fields[i].0)
  }

  /** The keys of four fields, in order. */
  lemma KeysOfFour(a: (string, Value), b: (string, Value), c: (string, Value), d: (string, Value))
    ensures Keys([a, b, c, d]) == [a.0, b.0, c.0, d.0]
  {
    assert forall k | 0 <= k < 4 :: Keys([a, b, c, d])[k] == [a.0, b.0, c.0, d.0][k];
  }

  /** The value found is the one at the first position holding the key. */
  lemma {:induction false} GetAt(fields: Fields, key: string, i: nat)
    requires i < |fields| && fields[i].0 == key
    requires forall j | 0 <= j < i :: fields[j].0 != key
    ensures Get(fields, key) == Some(fields[i].1)
    decreases i
  {
    if i > 0 {
      GetAt(fields[1..], key, i - 1);
    }
  }

  /** `d[key] = v`: an existing key keeps its position, a new one goes last. */
  function Put(fields: Fields, key: string, v: Value): (r: Fields)
    ensures Get(r, key) == Some(v)
    ensures forall k | k != key :: Get(r, k) == Get(fields, k)
    ensures HasKey(fields, key) ==> Keys(r) == Keys(fields)
    ensures !HasKey(fields, key) ==> Keys(r) == Keys(fields) + [key]
  {
    if fields == [] then [(key, v)]
    else if fields[0].0 == key then [(key, v)] + fields[1..]
    else
      var rest := Put(fields[1..], key, v);
      Cons(fields[0], rest);
      Cons(fields[0], fields[1..]);
      assert [fields[0]] + fields[1..] == fields;
      [fields[0]] + rest
  }

  /** Reading and listing the keys of a field put in front. */
  lemma Cons(f: (string, Value), rest: Fields)
    ensures Keys([f] + rest) == [f.0] + Keys(rest)
    ensures forall k :: Get([f] + rest, k) == if f.0 == k then Some(f.1) else Get(rest, k)
  {
    assert ([f] + rest)[1..] == rest;
  }

  function ErrorObject(message: string): Value
  {
    Obj([("error", Str(message))])
  }

  /** Python's `bool(v)`: empty strings, lists and dicts are false. */
  predicate PyTruthy(v: Value)
  {
    match v
    case Null => false
    case Bool(b) => b
    case Num(n) => n != 0
    case Str(s) => s != ""
    case Arr(items) => items != []
    case Obj(fields) => fields != []
  }

  /** JavaScript's `!!v`: every array and object is true. */
  predicate JsTruthy(v: Value)
  {
    match v
    case Null => false
    case Bool(b) => b
    case Num(n) => n != 0
    case Str(s) => s != ""
    case Arr(_) => true
    case Obj(_) => true
  }

  /** Python's `repr`, up to the escaping of quotes inside strings. */
  function PyRepr(v: Value): string
    decreases v
  {
    match v
    case Null => "None"
    case Bool(b) => if b then "True" else "False"
    case Num(n) => IntToString(n)
    case Str(s) => "'" + s + "'"
    case Arr(items) =>
      "[" + Join(", ", seq(|items|, i requires 0 <= i < |items| => PyRepr(items[i]))) + "]"
    case Obj(fields) =>
      "{" + Join(", ", seq(|fields|, i requires 0 <= i < |fields| =>
                              assert fields[i] in fields;
                              "'" + fields[i].0 + "': " + PyRepr(fields[i].1))) + "}"
  }

  /** Python's `str(v)`, which is what an f-string splices in. */
  function PyStr(v: Value): string
  {
    if v.Str? then v.s else PyRepr(v)
  }

  /** Python's `len(v)`; `None` stands for the TypeError raised on scalars. */
  function PyLen(v: Value): Option<nat>
  {
    match v
    case Str(s) => Some(|s|)
    case Arr(items) => Some(|items|)
    case Obj(fields) => Some(|fields|)
    case _ => None
  }

  /** What `for u in v` visits; `None` stands for the TypeError raised on scalars. */
  function PyIter(v: Value): Option<seq<Value>>
  {
    match v
    case Str(s) => Some(seq(|s|, i requires 0 <= i < |s| => Str([s[i]])))
    case Arr(items) => Some(items)
    case Obj(fields) => Some(seq(|fields|, i requires 0 <= i < |fields| => Str(fields[i].0)))
    case _ => None
  }

  /** Python's `int(v)`, or the name of the exception it raises: a
      string that does not read as an integer is a `ValueError`, and
      `None`, a list or a dict a `TypeError`. */
  function PyInt(v: Value): (r: Result<int, string>)
    ensures r.Failure? <==> v.Null? || v.Arr? || v.Obj? || (v.Str? && ParseInt(v.s).None?)
    ensures r.Failure? ==> r.error == (if v.Str? then "ValueError" else "TypeError")
    ensures v.Num? ==> r == Success(v.n)
    ensures v.Bool? ==> r == Success(if v.b then 1 else 0)
  {
    match v
    case Num(n) => Success(n)
    case Bool(b) => Success(if b then 1 else 0)
    case Str(s) => var n := ParseInt(s); if n.Some? then Success(n.value) else Failure("ValueError")
    case _ => Failure("TypeError")
  }

}
