// JSON values as the JavaScript and Python code sees them after parsing.
// Objects keep their members in insertion order, so that "a later write
// wins" and "keys appear in the order they were first set" can be said.
// `undefined` (a missing property) is `None` of an `Option<Json>`.
module Json {
  import opened Wrappers
  import Text

  datatype Json =
    | JNull
    | JBool(b: bool)
    | JNum(n: int)
    | JStr(s: string)
    | JArr(items: seq<Json>)
    | JObj(members: seq<(string, Json)>)

  type Obj = seq<(string, Json)>

  /** JavaScript truthiness of a value that is present. */
  predicate Truthy(j: Json)
  {
    match j
    case JNull => false
    case JBool(b) => b
    case JNum(n) => n != 0
    case JStr(s) => s != ""
    case JArr(_) => true
    case JObj(_) => true
  }

  /** Truthiness of a value that may be `undefined`. */
  predicate TruthyOpt(v: Option<Json>)
  {
    v.Some? && Truthy(v.value)
  }

  /** `a || b`: the left operand when it is truthy, otherwise the right one. */
  function Or(a: Option<Json>, b: Json): (r: Json)
    ensures TruthyOpt(a) ==> r == a.value
    ensures !TruthyOpt(a) ==> r == b
  {
    if TruthyOpt(a) then a.value else b
  }

  /** The value bound to `k`; with repeated keys the last binding counts, as in JSON.parse. */
  function Lookup(o: Obj, k: string): (r: Option<Json>)
    ensures r.Some? <==> exists i | 0 <= i < |o| :: o[i].0 == k
  {
    if o == [] then None
    else if o[|o| - 1].0 == k then Some(o[|o| - 1].1)
    else
      var r := Lookup(o[..|o| - 1], k);
      assert forall i | 0 <= i < |o| - 1 :: o[..|o| - 1][i] == o[i];
      r
  }

  function Keys(o: Obj): (ks: seq<string>)
    ensures |ks| == |o| && forall i | 0 <= i < |o| :: ks[i] == o[i].0
  {
    seq(|o|, i requires 0 <= i < |o| => o[i].0)
  }

  function Replace(o: Obj, k: string, v: Json): (r: Obj)
    ensures |r| == |o|
    ensures forall i | 0 <= i < |o| :: r[i] == if o[i].0 == k then (k, v) else o[i]
  {
    seq(|o|, i requires 0 <= i < |o| => if o[i].0 == k then (k, v) else o[i])
  }

  /** `obj[k] = v`: an existing key keeps its position, a new key goes last. */
  function Put(o: Obj, k: string, v: Json): Obj
  {
    if Lookup(o, k).Some? then Replace(o, k, v) else o + [(k, v)]
  }

  lemma {:induction false} LookupReplace(o: Obj, k: string, v: Json, k': string)
    ensures Lookup(Replace(o, k, v), k') ==
            if k' != k then Lookup(o, k') else if Lookup(o, k).Some? then Some(v) else None
  {
    if o != [] {
      var r := Replace(o, k, v);
      assert r[..|r| - 1] == Replace(o[..|o| - 1], k, v);
      LookupReplace(o[..|o| - 1], k, v, k');
    }
  }

  /** After `obj[k] = v`, reading `k` gives `v` and every other key reads as before. */
  lemma LookupPut(o: Obj, k: string, v: Json, k': string)
    ensures Lookup(Put(o, k, v), k') == if k' == k then Some(v) else Lookup(o, k')
  {
    if Lookup(o, k).Some? {
      LookupReplace(o, k, v, k');
    } else {
      var r := o + [(k, v)];
      assert r[..|r| - 1] == o;
    }
  }

  /** Reading a key of an object given by its first member and the rest. */
  lemma {:induction false} LookupCons(p: (string, Json), rest: Obj, k: string)
    ensures Lookup([p] + rest, k) ==
            if Lookup(rest, k).Some? then Lookup(rest, k)
            else if p.0 == k then Some(p.1) else None
  {
    var o := [p] + rest;
    if rest != [] {
      assert o[|o| - 1] == rest[|rest| - 1];
      assert o[..|o| - 1] == [p] + rest[..|rest| - 1];
      LookupCons(p, rest[..|rest| - 1], k);
    } else {
      assert o[..|o| - 1] == [];
    }
  }

  /** Object spread `{...a, ...b}`: b's members are written over a's, in b's order. */
  function Merge(a: Obj, b: Obj): Obj
    decreases |b|
  {
    if b == [] then a else Merge(Put(a, b[0].0, b[0].1), b[1..])
  }

  /** After a spread, a key present in `b` reads as in `b`, any other as in `a`. */
  lemma {:induction false} LookupMerge(a: Obj, b: Obj, k: string)
    ensures Lookup(Merge(a, b), k) == if Lookup(b, k).Some? then Lookup(b, k) else Lookup(a, k)
    decreases |b|
  {
    if b != [] {
      LookupMerge(Put(a, b[0].0, b[0].1), b[1..], k);
      LookupPut(a, b[0].0, b[0].1, k);
      assert b == [b[0]] + b[1..];
      LookupCons(b[0], b[1..], k);
    }
  }

  /** Reading property `k` of a present value: null throws a TypeError, an object
    * answers from its members, any other value has no such property. */
  function Prop(j: Json, k: string): (r: Result<Option<Json>>)
    ensures r.Err? <==> j == JNull
    ensures j.JObj? ==> r == Ok(Lookup(j.members, k))
  {
    match j
    case JNull => Err("Cannot read properties of null (reading '" + k + "')")
    case JObj(m) => Ok(Lookup(m, k))
    case _ => Ok(None)
  }

  /** Reading property `k` of a value that may be undefined. */
  function PropOf(v: Option<Json>, k: string): (r: Result<Option<Json>>)
    ensures r.Err? <==> v.None? || v.value == JNull
  {
    match v
    case None => Err("Cannot read properties of undefined (reading '" + k + "')")
    case Some(j) => Prop(j, k)
  }

  /** Optional chaining `v?.k`: undefined when `v` is null or undefined. */
  function Get(v: Option<Json>, k: string): (r: Option<Json>)
    ensures v.Some? && v.value.JObj? ==> r == Lookup(v.value.members, k)
    ensures !(v.Some? && v.value.JObj?) ==> r.None?
  {
    if v.Some? && v.value.JObj? then Lookup(v.value.members, k) else None
  }

  /** String(v) as a template literal renders a present value. */
  function JsString(j: Json): string
    decreases j, 1, 0
  {
    match j
    case JNull => "null"
    case JBool(b) => if b then "true" else "false"
    case JNum(n) => Text.IntToString(n)
    case JStr(s) => s
    case JArr(items) => JoinItems(j, 0)
    case JObj(_) => "[object Object]"
  }

  /** Array.prototype.join(",") from position i: null elements render as "". */
  function JoinItems(arr: Json, i: nat): string
    requires arr.JArr? && i <= |arr.items|
    decreases arr, 0, |arr.items| - i
  {
    if i == |arr.items| then ""
    else
      var e := arr.items[i];
      var head := if e == JNull then "" else JsString(e);
      if i + 1 == |arr.items| then head else head + "," + JoinItems(arr, i + 1)
  }

  /** `${v}` for a value that may be undefined. */
  function Display(v: Option<Json>): string
  {
    match v
    case None => "undefined"
    case Some(j) => JsString(j)
  }

  /** Text stored in a JSON column: either written by a dump of a value or
    * something else that does not parse. */
  datatype JsonText = Dumped(value: Json) | Malformed(raw: string)

  function Dumps(j: Json): (t: JsonText)
    ensures t.Dumped?
  {
    Dumped(j)
  }

  function Loads(t: JsonText): (r: Result<Json>)
    ensures r.Ok? <==> t.Dumped?
  {
    match t
    case Dumped(v) => Ok(v)
    case Malformed(raw) => Err("Expecting value: could not decode stored JSON")
  }

  lemma LoadsDumps(j: Json)
    ensures Loads(Dumps(j)) == Ok(j)
  {
  }
}
