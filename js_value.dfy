/**
 * JavaScript values as they travel through the pipeline: command arguments, parsed JSON
 * and request bodies. Numbers are integers (floating point is not modelled).
 */
module JsValue {
  import opened Wrappers
  import opened JsText
  import opened Collections

  datatype Value =
    | Undefined
    | Null
    | Bool(b: bool)
    | Num(n: int)
    | Str(s: string)
    | Arr(items: seq<Value>)
    | Obj(fields: seq<(string, Value)>)

  /** The empty object literal `{}`. */
  const EmptyObject: Value := Obj([])

  /** JavaScript truthiness. */
  predicate Truthy(v: Value) {
    match v
    case Undefined => false
    case Null => false
    case Bool(b) => b
    case Num(n) => n != 0
    case Str(s) => s != ""
    case Arr(_) => true
    case Obj(_) => true
  }

  /** The binding of key in fields; the last binding wins, as in an object literal. */
  function Lookup(fields: seq<(string, Value)>, key: string): (r: Value)
    ensures r != Undefined ==> exists i :: 0 <= i < |fields| && fields[i] == (key, r)
  {
    if fields == [] then Undefined
    else if fields[|fields| - 1].0 == key then fields[|fields| - 1].1
    else Lookup(fields[..|fields| - 1], key)
  }

  /** `v?.key`: a property read that yields undefined on anything but an object. */
  function Get(v: Value, key: string): Value {
    if v.Obj? then Lookup(v.fields, key) else Undefined
  }

  /** `v.key` without `?.`: reading a property of null or undefined throws a TypeError. */
  function ReadProp(v: Value, key: string): (r: Result<Value, string>)
    ensures r.Err? <==> v.Undefined? || v.Null?
    ensures r.Ok? ==> r.value == Get(v, key)
  {
    match v
    case Undefined => Err("Cannot read properties of undefined (reading '" + key + "')")
    case Null => Err("Cannot read properties of null (reading '" + key + "')")
    case _ => Ok(Get(v, key))
  }

  /** Whether key is bound in fields. */
  predicate Binds(fields: seq<(string, Value)>, key: string) {
    exists i :: 0 <= i < |fields| && fields[i].0 == key
  }

  /** `obj.key = x` on an object's bindings: a bound key keeps its place and takes x, an
   *  unbound one is added at the end. */
  function Assign(fields: seq<(string, Value)>, key: string, x: Value): (r: seq<(string, Value)>)
  {
    if Binds(fields, key) then
      seq(|fields|, i requires 0 <= i < |fields| => if fields[i].0 == key then (key, x) else fields[i])
    else fields + [(key, x)]
  }

  /** Assignment makes key read x, leaves every other key as it was, and adds a binding
   *  only when key was unbound. */
  lemma AssignReads(fields: seq<(string, Value)>, key: string, x: Value, other: string)
    requires other != key
    ensures Lookup(Assign(fields, key, x), key) == x
    ensures Lookup(Assign(fields, key, x), other) == Lookup(fields, other)
    ensures |Assign(fields, key, x)| == if Binds(fields, key) then |fields| else |fields| + 1
  {
    var r := Assign(fields, key, x);
    if Binds(fields, key) {
      AssignedLookup(fields, key, x, other);
    }
  }

  lemma {:induction false} AssignedLookup(fields: seq<(string, Value)>, key: string, x: Value, other: string)
    requires other != key && Binds(fields, key)
    ensures var r := seq(|fields|, i requires 0 <= i < |fields| => if fields[i].0 == key then (key, x) else fields[i]);
      Lookup(r, key) == x && Lookup(r, other) == Lookup(fields, other)
    decreases |fields|
  {
    var r := seq(|fields|, i requires 0 <= i < |fields| => if fields[i].0 == key then (key, x) else fields[i]);
    var n := |fields| - 1;
    var init := fields[..n];
    var r' := seq(|init|, i requires 0 <= i < |init| => if init[i].0 == key then (key, x) else init[i]);
    assert r[..n] == r';
    if fields[n].0 != key {
      var i :| 0 <= i < |fields| && fields[i].0 == key;
      assert init[i].0 == key;
      AssignedLookup(init, key, x, other);
    } else if Binds(init, key) {
      AssignedLookup(init, key, x, other);
    } else {
      UnboundLookup(init, key);
      UnchangedLookup(init, r', key, other);
    }
  }

  lemma {:induction false} UnboundLookup(fields: seq<(string, Value)>, key: string)
    requires !Binds(fields, key)
    ensures Lookup(fields, key) == Undefined
  {
    if fields != [] {
      var init := fields[..|fields| - 1];
      assert !Binds(init, key) by {
        forall i | 0 <= i < |init| ensures init[i].0 != key {
          assert fields[i].0 != key;
        }
      }
      UnboundLookup(init, key);
    }
  }

  lemma {:induction false} UnchangedLookup(a: seq<(string, Value)>, b: seq<(string, Value)>, key: string, other: string)
    requires |a| == |b| && other != key
    requires forall i :: 0 <= i < |a| ==> if a[i].0 == key then b[i].0 == key else b[i] == a[i]
    ensures Lookup(b, other) == Lookup(a, other)
  {
    if a != [] {
      UnchangedLookup(a[..|a| - 1], b[..|b| - 1], key, other);
    }
  }

  /** The properties every object inherits from Object.prototype: reading one of these
   *  names from an object that does not bind it yields a function, or for `__proto__`
   *  the prototype itself, and never an array. */
  const InheritedNames: set<string> := {
    "constructor", "__defineGetter__", "__defineSetter__", "hasOwnProperty",
    "__lookupGetter__", "__lookupSetter__", "isPrototypeOf", "propertyIsEnumerable",
    "toString", "valueOf", "__proto__", "toLocaleString"
  }

  // ---------------------------------------------------------------------------
  // Own-property order

  predicate IsDigit(c: char) { '0' <= c <= '9' }

  predicate AllDigits(s: string) {
    s == [] || (AllDigits(s[..|s| - 1]) && IsDigit(s[|s| - 1]))
  }

  /** The value of a string of decimal digits. */
  function DigitsValue(s: string): (n: nat)
    requires AllDigits(s)
  {
    if s == [] then 0
    else DigitsValue(s[..|s| - 1]) * 10 + (s[|s| - 1] as int - '0' as int)
  }

  /** A canonical array index: the decimal form, without leading zeros, of an integer
   *  below 2^32 - 1. */
  predicate IsArrayIndex(s: string) {
    && |s| > 0
    && AllDigits(s)
    && (s[0] == '0' ==> |s| == 1)
    && DigitsValue(s) < 0xFFFF_FFFF
  }

  /** The numeric order of array-index keys. */
  function IndexLess(): (string, string) -> bool {
    (a: string, b: string) =>
      if IsArrayIndex(a) && IsArrayIndex(b) then DigitsValue(a) < DigitsValue(b) else false
  }

  /** The keys that are array indices, in insertion order. */
  function IndexKeys(keys: seq<string>): seq<string> {
    if keys == [] then []
    else
      var last := keys[|keys| - 1];
      IndexKeys(keys[..|keys| - 1]) + (if IsArrayIndex(last) then [last] else [])
  }

  /** The other keys, in insertion order. */
  function NamedKeys(keys: seq<string>): seq<string> {
    if keys == [] then []
    else
      var last := keys[|keys| - 1];
      NamedKeys(keys[..|keys| - 1]) + (if IsArrayIndex(last) then [] else [last])
  }

  /** The order in which Object.keys and Object.entries list an object's own keys, given
   *  in creation order: the array indices in ascending numeric order, then the other
   *  keys in creation order. */
  function OwnKeyOrder(keys: seq<string>): seq<string> {
    Sort(IndexKeys(keys), IndexLess()) + NamedKeys(keys)
  }

  /** The keys an object literal or JSON text creates, each once, where it first occurs. */
  function FieldKeys(fields: seq<(string, Value)>): (r: seq<string>)
    ensures |r| == |fields|
    ensures forall i :: 0 <= i < |fields| ==> r[i] == fields[i].0
  {
    seq(|fields|, i requires 0 <= i < |fields| => fields[i].0)
  }

  lemma {:induction false} KeysPartition(keys: seq<string>)
    ensures multiset(IndexKeys(keys)) + multiset(NamedKeys(keys)) == multiset(keys)
  {
    if keys != [] {
      var init := keys[..|keys| - 1];
      var last := keys[|keys| - 1];
      KeysPartition(init);
      assert keys == init + [last];
      if IsArrayIndex(last) {
        assert IndexKeys(keys) == IndexKeys(init) + [last] && NamedKeys(keys) == NamedKeys(init);
      } else {
        assert IndexKeys(keys) == IndexKeys(init) && NamedKeys(keys) == NamedKeys(init) + [last];
      }
    }
  }

  /** The filters keep the array indices and the other keys apart. */
  lemma {:induction false} KeysSorted(keys: seq<string>)
    ensures forall k :: k in IndexKeys(keys) ==> IsArrayIndex(k)
    ensures forall k :: k in NamedKeys(keys) ==> !IsArrayIndex(k)
  {
    if keys != [] {
      KeysSorted(keys[..|keys| - 1]);
    }
  }

  lemma {:induction false} NamedKeysAll(keys: seq<string>)
    requires forall i :: 0 <= i < |keys| ==> !IsArrayIndex(keys[i])
    ensures NamedKeys(keys) == keys && IndexKeys(keys) == []
  {
    if keys != [] {
      var init := keys[..|keys| - 1];
      var last := keys[|keys| - 1];
      assert !IsArrayIndex(last);
      assert forall i :: 0 <= i < |init| ==> init[i] == keys[i];
      NamedKeysAll(init);
      assert NamedKeys(keys) == NamedKeys(init) + [last];
      assert IndexKeys(keys) == IndexKeys(init);
      assert keys == init + [last];
    }
  }

  lemma {:induction false} NamedKeysKeepOrder(xs: seq<string>, ys: seq<string>)
    ensures NamedKeys(xs + ys) == NamedKeys(xs) + NamedKeys(ys)
    decreases |ys|
  {
    if ys == [] {
      assert xs + ys == xs;
    } else {
      var init := ys[..|ys| - 1];
      NamedKeysKeepOrder(xs, init);
      assert (xs + ys)[..|xs + ys| - 1] == xs + init;
    }
  }

  lemma IndexLessIsStrict()
    ensures StrictOrder(IndexLess())
  {
  }

  /** Object.keys order lists every key exactly as often as it was created. */
  lemma OwnKeyOrderPermutes(keys: seq<string>)
    ensures multiset(OwnKeyOrder(keys)) == multiset(keys)
    ensures forall k :: k in OwnKeyOrder(keys) <==> k in keys
  {
    KeysPartition(keys);
    assert forall k :: k in OwnKeyOrder(keys) <==> k in multiset(OwnKeyOrder(keys));
  }

  /** Object.keys order puts every array index before every other key, and lists the
   *  indices in ascending numeric order. */
  lemma OwnKeyOrderIndicesFirst(keys: seq<string>)
    ensures var r := OwnKeyOrder(keys);
      && (forall i, j :: 0 <= i < j < |r| && IsArrayIndex(r[j]) ==> IsArrayIndex(r[i]))
      && (forall i, j :: 0 <= i < j < |r| && IsArrayIndex(r[j]) ==> DigitsValue(r[i]) <= DigitsValue(r[j]))
  {
    var idx := Sort(IndexKeys(keys), IndexLess());
    var r := OwnKeyOrder(keys);
    IndexLessIsStrict();
    SortSorted(IndexKeys(keys), IndexLess());
    KeysSorted(keys);
    forall x | x in idx ensures IsArrayIndex(x) {
      assert x in multiset(IndexKeys(keys));
    }
    forall i, j | 0 <= i < j < |r| && IsArrayIndex(r[j])
      ensures IsArrayIndex(r[i]) && DigitsValue(r[i]) <= DigitsValue(r[j])
    {
      assert j < |idx|;
      assert r[i] == idx[i] && r[j] == idx[j];
      assert !IndexLess()(idx[j], idx[i]);
    }
  }

  /** Without array-index keys, Object.keys order is creation order. */
  lemma OwnKeyOrderNoIndices(keys: seq<string>)
    requires forall i :: 0 <= i < |keys| ==> !IsArrayIndex(keys[i])
    ensures OwnKeyOrder(keys) == keys
  {
    NamedKeysAll(keys);
  }

  /** The key that binds a value last is the one Lookup finds. */
  lemma {:induction false} LookupLast(fields: seq<(string, Value)>, i: nat)
    requires i < |fields| && forall j :: i < j < |fields| ==> fields[j].0 != fields[i].0
    ensures Lookup(fields, fields[i].0) == fields[i].1
  {
    var n := |fields| - 1;
    if i < n {
      LookupLast(fields[..n], i);
    }
  }

  /** String(v), and the conversion a template literal applies. */
  function ToJsString(v: Value): string {
    match v
    case Undefined => "undefined"
    case Null => "null"
    case Bool(b) => if b then "true" else "false"
    case Num(n) => IntToString(n)
    case Str(s) => s
    case Arr(items) => JoinElements(items)
    case Obj(_) => "[object Object]"
  }

  /** Array.prototype.join(",") as String() applies it: null and undefined become "". */
  function JoinElements(items: seq<Value>): string
    decreases items
  {
    if items == [] then ""
    else
      var head := if items[0].Undefined? || items[0].Null? then "" else ToJsString(items[0]);
      if |items| == 1 then head else head + "," + JoinElements(items[1..])
  }
}
