/** JavaScript values as the client receives them from `JSON.parse`, and the few
    language operations the client applies to them: truthiness, `String(v)`,
    a property read, `Object.values` and `Array.prototype.flat`. */
module Json {
  import opened Wrappers

  /** A JavaScript value. Numbers are integers here; an object is the list
      of its key/value pairs as they appear in the parsed text, repeats
      included (`Lookup` and `ObjectValues` resolve repeats as JavaScript
      does). */
  datatype Value =
    | Undefined
    | Null
    | Bool(b: bool)
    | Num(n: int)
    | Str(s: string)
    | Arr(items: seq<Value>)
    | Obj(fields: seq<(string, Value)>)

  /** `!!v`: undefined, null, false, 0 and "" are falsy; every array and object is truthy. */
  predicate Truthy(v: Value)
  {
    match v
    case Undefined => false
    case Null => false
    case Bool(b) => b
    case Num(n) => n != 0
    case Str(s) => s != ""
    case Arr(_) => true
    case Obj(_) => true
  }

  /** The value of the last field named `key` (what `JSON.parse` keeps for a
      repeated key), or `Undefined` when there is none. */
  function Lookup(fields: seq<(string, Value)>, key: string): (r: Value)
    ensures (forall i :: 0 <= i < |fields| ==> fields[i].0 != key) ==> r == Undefined
    ensures r != Undefined ==> (key, r) in fields
    ensures (exists i :: 0 <= i < |fields| && fields[i].0 == key) ==>
              exists i :: 0 <= i < |fields| && fields[i] == (key, r) && forall j :: i < j < |fields| ==> fields[j].0 != key
  {
    if |fields| == 0 then Undefined
    else if fields[|fields| - 1].0 == key then fields[|fields| - 1].1
    else
      var init := fields[..|fields| - 1];
      assert forall i :: 0 <= i < |init| ==> init[i] == fields[i];
      Lookup(init, key)
  }

  /** `v.key` for a key that names no built-in property of strings or arrays
      (the client reads only "access", "refresh" and "detail"). Reading a
      property of null or undefined throws a TypeError, which is `None`. */
  function Property(v: Value, key: string): (r: Option<Value>)
    ensures r.None? <==> v.Undefined? || v.Null?
    ensures r.Some? && !v.Obj? ==> r.value == Undefined
  {
    match v
    case Undefined => None
    case Null => None
    case Obj(fields) => Some(Lookup(fields, key))
    case _ => Some(Undefined)
  }

  /** `v?.key`: optional chaining yields undefined instead of throwing. */
  function OptionalProperty(v: Value, key: string): (r: Value)
    ensures v.Undefined? || v.Null? ==> r == Undefined
  {
    Property(v, key).GetOr(Undefined)
  }

  /** Every character is a decimal digit. */
  predicate AllDigits(s: string)
  {
    forall i :: 0 <= i < |s| ==> '0' <= s[i] <= '9'
  }

  /** The number a string of decimal digits denotes, most significant first. */
  function DigitsValue(s: string): int
  {
    if |s| == 0 then 0
    else DigitsValue(s[..|s| - 1]) * 10 + (s[|s| - 1] as int - '0' as int)
  }

  /** Decimal digits of a natural number, most significant first, without
      leading zeros. */
  function Decimal(n: nat): (r: string)
    ensures |r| > 0 && AllDigits(r)
    ensures DigitsValue(r) == n
    ensures r[0] == '0' ==> r == "0"
    decreases n
  {
    var digit := [('0' as int + n % 10) as char];
    if n < 10 then digit
    else
      var r := Decimal(n / 10) + digit;
      assert r[..|r| - 1] == Decimal(n / 10);
      r
  }

  /** `String(n)` for an integer: a minus sign for a negative number, then
      the digits of its magnitude. */
  function IntString(n: int): (r: string)
    ensures |r| > 0
    ensures n >= 0 ==> AllDigits(r) && DigitsValue(r) == n
    ensures n < 0 ==> r[0] == '-' && |r| > 1 && AllDigits(r[1..]) && DigitsValue(r[1..]) == -n
    ensures n >= 0 && r[0] == '0' ==> r == "0"
    ensures n < 0 ==> r[1] != '0'
  {
    if n < 0 then
      var d := Decimal(-n);
      assert d != "0";
      "-" + d
    else Decimal(n)
  }

  /** Distinct integers print differently, so ids give distinct paths. */
  lemma IntStringInjective(a: int, b: int)
    requires IntString(a) == IntString(b)
    ensures a == b
  {
  }

  /** `String(v)`: the conversion `localStorage.setItem` and a template
      literal apply to a value. An array joins its elements with "," and
      shows null and undefined elements as "". */
  function JsString(v: Value): (r: string)
    ensures v.Str? ==> r == v.s
    ensures v.Undefined? ==> r == "undefined"
    decreases v
  {
    match v
    case Undefined => "undefined"
    case Null => "null"
    case Bool(b) => if b then "true" else "false"
    case Num(n) => IntString(n)
    case Str(s) => s
    case Arr(items) =>
      Join(seq(|items|, i requires 0 <= i < |items| =>
        if items[i].Undefined? || items[i].Null? then "" else JsString(items[i])))
    case Obj(_) => "[object Object]"
  }

  /** `parts.join(",")`. */
  function Join(parts: seq<string>): (r: string)
    ensures |parts| == 1 ==> r == parts[0]
  {
    if |parts| == 0 then ""
    else if |parts| == 1 then parts[0]
    else parts[0] + "," + Join(parts[1..])
  }

  /** No key occurs twice. */
  predicate DistinctKeys(fields: seq<(string, Value)>)
  {
    forall i, j :: 0 <= i < j < |fields| ==> fields[i].0 != fields[j].0
  }

  /** Some field is named `k`. */
  predicate HasKey(fields: seq<(string, Value)>, k: string)
  {
    exists i :: 0 <= i < |fields| && fields[i].0 == k
  }

  /** The position of the first field named `k`. */
  function FirstIndex(fields: seq<(string, Value)>, k: string): (p: nat)
    requires HasKey(fields, k)
    ensures p < |fields| && fields[p].0 == k
    ensures forall q :: 0 <= q < p ==> fields[q].0 != k
  {
    if fields[0].0 == k then 0
    else
      assert HasKey(fields[1..], k) by {
        var i :| 0 <= i < |fields| && fields[i].0 == k;
        assert fields[1..][i - 1] == fields[i];
      }
      1 + FirstIndex(fields[1..], k)
  }

  /** A field named `k` with none of that name before it is the first. */
  lemma FirstIndexAt(fields: seq<(string, Value)>, k: string, p: nat)
    requires p < |fields| && fields[p].0 == k
    requires forall q :: 0 <= q < p ==> fields[q].0 != k
    ensures HasKey(fields, k) && FirstIndex(fields, k) == p
  {
    var f := FirstIndex(fields, k);
    assert !(f < p) && !(p < f);
  }

  /** A field named `k` with none of that name after it is what `Lookup`
      finds. */
  lemma {:induction false} LookupLast(fields: seq<(string, Value)>, k: string, last: nat)
    requires last < |fields| && fields[last].0 == k
    requires forall q :: last < q < |fields| ==> fields[q].0 != k
    ensures Lookup(fields, k) == fields[last].1
  {
    if last < |fields| - 1 {
      var init := fields[..|fields| - 1];
      LookupLast(init, k, last);
    }
  }

  /** The own keys of a parsed object: each key once, at the position of its
      first occurrence (a repeated key overwrites the value but keeps its
      place). */
  function Keys(fields: seq<(string, Value)>): (r: seq<string>)
    ensures forall i, j :: 0 <= i < j < |r| ==> r[i] != r[j]
    ensures forall k :: k in r <==> HasKey(fields, k)
    ensures forall i :: 0 <= i < |r| ==> HasKey(fields, r[i])
    ensures forall i, j :: 0 <= i < j < |r| ==> FirstIndex(fields, r[i]) < FirstIndex(fields, r[j])
  {
    if |fields| == 0 then []
    else
      var init := fields[..|fields| - 1];
      var keys := Keys(init);
      var k := fields[|fields| - 1].0;
      assert forall i :: 0 <= i < |init| ==> init[i] == fields[i];
      forall x | HasKey(init, x)
        ensures HasKey(fields, x) && FirstIndex(fields, x) == FirstIndex(init, x)
      {
        FirstIndexAt(fields, x, FirstIndex(init, x));
      }
      if k in keys then keys
      else
        FirstIndexAt(fields, k, |fields| - 1);
        keys + [k]
  }

  /** `Object.values(v)` for a truthy `v`: an object's value for each key,
      in key order, an array's elements, a string's characters as
      one-character strings; a number or boolean has no own enumerable
      properties. */
  function ObjectValues(v: Value): (r: seq<Value>)
    ensures v.Obj? ==> |r| == |Keys(v.fields)|
    ensures v.Obj? ==> forall i :: 0 <= i < |r| ==> (Keys(v.fields)[i], r[i]) in v.fields
    ensures v.Obj? ==> forall i :: 0 <= i < |r| ==> r[i] == Lookup(v.fields, Keys(v.fields)[i])
    ensures v.Arr? ==> r == v.items
    ensures v.Str? ==> |r| == |v.s| && forall i :: 0 <= i < |r| ==> r[i] == Str([v.s[i]])
    ensures v.Undefined? || v.Null? || v.Bool? || v.Num? ==> r == []
  {
    match v
    case Obj(fields) =>
      var keys := Keys(fields);
      assert forall i :: 0 <= i < |keys| ==> keys[i] in keys;
      seq(|keys|, i requires 0 <= i < |keys| => Lookup(fields, keys[i]))
    case Arr(items) => items
    case Str(s) => seq(|s|, i requires 0 <= i < |s| => Str([s[i]]))
    case _ => []
  }

  /** Without repeated keys, the keys are the object's keys as written. */
  lemma {:induction false} KeysOfDistinct(fields: seq<(string, Value)>)
    requires DistinctKeys(fields)
    ensures |Keys(fields)| == |fields|
    ensures forall i :: 0 <= i < |fields| ==> Keys(fields)[i] == fields[i].0
  {
    if |fields| > 0 {
      var init := fields[..|fields| - 1];
      KeysOfDistinct(init);
      assert fields[|fields| - 1].0 !in Keys(init);
    }
  }

  /** Without repeated keys, each key reads back its own value. */
  lemma {:induction false} LookupDistinct(fields: seq<(string, Value)>, i: int)
    requires DistinctKeys(fields) && 0 <= i < |fields|
    ensures Lookup(fields, fields[i].0) == fields[i].1
  {
    if i < |fields| - 1 {
      var init := fields[..|fields| - 1];
      LookupDistinct(init, i);
    }
  }

  /** Without repeated keys, `Object.values` lists the values as written. */
  lemma ObjectValuesOfDistinct(fields: seq<(string, Value)>)
    requires DistinctKeys(fields)
    ensures ObjectValues(Obj(fields)) == seq(|fields|, i requires 0 <= i < |fields| => fields[i].1)
  {
    var vals := ObjectValues(Obj(fields));
    KeysOfDistinct(fields);
    assert |vals| == |fields|;
    forall i | 0 <= i < |fields|
      ensures vals[i] == fields[i].1
    {
      assert vals[i] == Lookup(fields, fields[i].0);
      LookupDistinct(fields, i);
    }
  }

  /** `Object.values` lists `value` at position `p` for key `k`, the only
      position of `k`, after exactly the keys whose first occurrence comes
      before `first`. */
  ghost predicate ListedAt(fields: seq<(string, Value)>, k: string, first: nat, value: Value, p: int)
  {
    var keys, vals := Keys(fields), ObjectValues(Obj(fields));
    && 0 <= p < |keys| && keys[p] == k && vals[p] == value
    && (forall j :: 0 <= j < |keys| && keys[j] == k ==> j == p)
    && (forall j :: 0 <= j < p ==> FirstIndex(fields, keys[j]) < first)
    && (forall j :: p < j < |keys| ==> first < FirstIndex(fields, keys[j]))
  }

  /** A key named by the fields at `first` (its first occurrence) and at
      `last` (its last) is listed exactly once by `Object.values`, after
      every key that first occurs earlier and before every key that first
      occurs later, with the value written at `last`. */
  lemma RepeatedKeyListedOnce(fields: seq<(string, Value)>, k: string, first: nat, last: nat)
    requires first <= last < |fields| && fields[first].0 == k && fields[last].0 == k
    requires forall q :: 0 <= q < first ==> fields[q].0 != k
    requires forall q :: last < q < |fields| ==> fields[q].0 != k
    ensures exists p :: ListedAt(fields, k, first, fields[last].1, p)
  {
    var keys, vals := Keys(fields), ObjectValues(Obj(fields));
    FirstIndexAt(fields, k, first);
    LookupLast(fields, k, last);
    assert k in keys;
    var p :| 0 <= p < |keys| && keys[p] == k;
    assert vals[p] == fields[last].1;
    assert ListedAt(fields, k, first, fields[last].1, p);
  }

  /** `vs.flat()`: one level of nested arrays is spliced into the result. */
  function Flat(vs: seq<Value>): (r: seq<Value>)
    ensures vs == [] ==> r == []
    ensures vs != [] && !vs[0].Arr? ==> |r| > 0 && r[0] == vs[0]
    ensures vs != [] && vs[0].Arr? ==> |vs[0].items| <= |r| && r[..|vs[0].items|] == vs[0].items
    ensures (forall i :: 0 <= i < |vs| ==> !vs[i].Arr?) ==> r == vs
    ensures forall x :: x in r <==> (x in vs && !x.Arr?) || exists i :: 0 <= i < |vs| && vs[i].Arr? && x in vs[i].items
  {
    if |vs| == 0 then []
    else (if vs[0].Arr? then vs[0].items else [vs[0]]) + Flat(vs[1..])
  }

  /** Flattening distributes over concatenation: each element is spliced
      on its own. */
  lemma {:induction false} FlatAppend(vs: seq<Value>, ws: seq<Value>)
    ensures Flat(vs + ws) == Flat(vs) + Flat(ws)
  {
    if vs == [] {
      assert vs + ws == ws;
    } else {
      assert (vs + ws)[1..] == vs[1..] + ws;
      FlatAppend(vs[1..], ws);
    }
  }

  /** `xs[0]`: undefined for an empty array. */
  function FirstOf(xs: seq<Value>): (r: Value)
    ensures xs == [] ==> r == Undefined
    ensures xs != [] ==> r == xs[0]
  {
    if |xs| == 0 then Undefined else xs[0]
  }
}
