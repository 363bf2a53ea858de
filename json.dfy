/**
 * JavaScript values as the reconstruction tool sees them: parsed JSON
 * documents, plus `undefined`, with the few pieces of JavaScript semantics the
 * core relies on (property access by string key, `for ... in` key order,
 * truthiness, string conversion in template literals and `==`).
 *
 * Objects are sequences of fields in iteration order; numbers are integers.
 */
module JsValue {

  datatype Json =
    | Undefined
    | Null
    | Bool(b: bool)
    | Num(n: int)
    | Str(s: string)
    | Arr(items: seq<Json>)
    | Obj(fields: seq<Field>)

  datatype Field = Field(key: string, value: Json)

  datatype Option<T> = None | Some(value: T)

  /** The keys of an object's fields, in iteration order. */
  function Keys(fields: seq<Field>): (ks: seq<string>)
    ensures |ks| == |fields|
    ensures forall i :: 0 <= i < |fields| ==> ks[i] == fields[i].key
  {
    if fields == [] then [] else [fields[0].key] + Keys(fields[1..])
  }

  /** The value stored under `k` (the first field with that key), if any. */
  function Lookup(fields: seq<Field>, k: string): (r: Option<Json>)
    ensures r.Some? <==> k in Keys(fields)
  {
    if fields == [] then None
    else if fields[0].key == k then Some(fields[0].value)
    else Lookup(fields[1..], k)
  }

  /** Keys appear at most once, as they do in every object JavaScript builds. */
  predicate DistinctKeys(fields: seq<Field>)
  {
    forall i, j :: 0 <= i < j < |fields| ==> fields[i].key != fields[j].key
  }

  /** The field at position `i` is the one a lookup finds when no earlier field shares its key. */
  lemma {:induction false} LookupAt(fields: seq<Field>, i: nat)
    requires i < |fields|
    requires forall j :: 0 <= j < i ==> fields[j].key != fields[i].key
    ensures Lookup(fields, fields[i].key) == Some(fields[i].value)
    decreases i
  {
    if i > 0 {
      LookupAt(fields[1..], i - 1);
    }
  }

  /**
   * `o[k] = v` on an object: an existing key keeps its position and gets the
   * new value; a new key is added last.
   */
  function SetField(fields: seq<Field>, k: string, v: Json): (r: seq<Field>)
    ensures Lookup(r, k) == Some(v)
    ensures forall k' :: k' != k ==> Lookup(r, k') == Lookup(fields, k')
    ensures k in Keys(fields) ==> Keys(r) == Keys(fields)
    ensures k !in Keys(fields) ==> Keys(r) == Keys(fields) + [k]
  {
    if fields == [] then [Field(k, v)]
    else if fields[0].key == k then
      var r := [Field(k, v)] + fields[1..];
      assert r[1..] == fields[1..];
      r
    else
      var rest := SetField(fields[1..], k, v);
      var r := [fields[0]] + rest;
      assert r[1..] == rest;
      r
  }

  /** `delete o[k]`: every field with key `k` goes, the others keep their order. */
  function DeleteField(fields: seq<Field>, k: string): (r: seq<Field>)
    ensures Lookup(r, k) == None
    ensures forall k' :: k' != k ==> Lookup(r, k') == Lookup(fields, k')
    ensures |r| <= |fields|
  {
    if fields == [] then []
    else if fields[0].key == k then DeleteField(fields[1..], k)
    else [fields[0]] + DeleteField(fields[1..], k)
  }

  // ---------------------------------------------------------------------
  // Decimal text of numbers and array-index keys

  function DigitChar(d: nat): char
    requires d < 10
  {
    ('0' as int + d) as char
  }

  /** Decimal representation of a natural number, without leading zeros. */
  function NatToString(n: nat): (s: string)
    ensures |s| >= 1
    ensures forall i :: 0 <= i < |s| ==> '0' <= s[i] <= '9'
    ensures |s| > 1 ==> s[0] != '0'
    decreases n
  {
    if n < 10 then [DigitChar(n)] else NatToString(n / 10) + [DigitChar(n % 10)]
  }

  /** JavaScript's `String(n)` for an integer (no exponent form is modelled). */
  function IntToString(n: int): string
  {
    if n < 0 then "-" + NatToString(-n) else NatToString(n)
  }

  /** A canonical array index: `0`, or decimal digits without a leading zero. */
  predicate IsIndexKey(k: string)
  {
    && |k| >= 1
    && (forall i :: 0 <= i < |k| ==> '0' <= k[i] <= '9')
    && (|k| > 1 ==> k[0] != '0')
  }

  function DigitsValue(k: string): nat
    requires forall i :: 0 <= i < |k| ==> '0' <= k[i] <= '9'
  {
    if k == [] then 0 else DigitsValue(k[..|k| - 1]) * 10 + (k[|k| - 1] as int - '0' as int)
  }

  /** Parsing the decimal text of `n` gives back `n`. */
  lemma {:induction false} ParseNatToString(n: nat)
    ensures IsIndexKey(NatToString(n))
    ensures DigitsValue(NatToString(n)) == n
    decreases n
  {
    if n >= 10 {
      ParseNatToString(n / 10);
      var s := NatToString(n);
      assert s[..|s| - 1] == NatToString(n / 10);
    }
  }

  /** Distinct numbers have distinct decimal texts. */
  lemma NatToStringInjective(m: nat, n: nat)
    requires NatToString(m) == NatToString(n)
    ensures m == n
  {
    ParseNatToString(m);
    ParseNatToString(n);
  }

  /** The keys `for ... in` visits on an array (or string) of length `n`, in order. */
  function IndexKeys(n: nat): (ks: seq<string>)
    ensures |ks| == n
    ensures forall i :: 0 <= i < n ==> ks[i] == NatToString(i)
  {
    if n == 0 then [] else IndexKeys(n - 1) + [NatToString(n - 1)]
  }

  // ---------------------------------------------------------------------
  // JavaScript operations on values

  /** `typeof v === 'object'`: objects, arrays and null. */
  predicate IsObjectType(v: Json)
  {
    v.Null? || v.Arr? || v.Obj?
  }

  /** JavaScript truthiness (NaN is not modelled). */
  predicate Truthy(v: Json)
  {
    match v
    case Undefined => false
    case Null => false
    case Bool(b) => b
    case Num(n) => n != 0
    case Str(s) => s != ""
    case Arr(_) => true
    case Obj(_) => true
  }

  /**
   * Property access `v[k]`: own fields of objects, index keys and `length` of
   * arrays and strings. Anything else (including null and undefined, where
   * JavaScript throws) reads as undefined.
   */
  function Get(v: Json, k: string): Json
  {
    match v
    case Obj(fs) => if Lookup(fs, k).Some? then Lookup(fs, k).value else Undefined
    case Arr(items) =>
      if IsIndexKey(k) && DigitsValue(k) < |items| then items[DigitsValue(k)]
      else if k == "length" then Num(|items|)
      else Undefined
    case Str(s) =>
      if IsIndexKey(k) && DigitsValue(k) < |s| then Str([s[DigitsValue(k)]])
      else if k == "length" then Num(|s|)
      else Undefined
    case _ => Undefined
  }

  /** Reading an object at the key of its field `i`, when no earlier field shares that key. */
  lemma GetFieldAt(fields: seq<Field>, i: nat)
    requires i < |fields|
    requires forall j :: 0 <= j < i ==> fields[j].key != fields[i].key
    ensures Get(Obj(fields), fields[i].key) == fields[i].value
  {
    LookupAt(fields, i);
  }

  /** Reading an array at the decimal key of one of its positions gives that member. */
  lemma GetArrayIndex(items: seq<Json>, i: nat)
    requires i < |items|
    ensures Get(Arr(items), NatToString(i)) == items[i]
  {
    ParseNatToString(i);
  }

  /** `v[n]` with a number: the same as the key `String(n)`. */
  function GetIndex(v: Json, n: int): Json
  {
    Get(v, IntToString(n))
  }

  lemma IndexOfKey(k: string)
    requires IsIndexKey(k)
    ensures NatToString(DigitsValue(k)) == k
  {
    DigitsRoundTrip(k);
  }

  lemma {:induction false} DigitsRoundTrip(k: string)
    requires IsIndexKey(k)
    ensures NatToString(DigitsValue(k)) == k
    decreases |k|
  {
    if |k| == 1 {
    } else {
      var p := k[..|k| - 1];
      assert IsIndexKey(p) by {
        assert p[0] == k[0];
      }
      DigitsRoundTrip(p);
      DigitsPositive(p);
    }
  }

  lemma {:induction false} DigitsPositive(k: string)
    requires IsIndexKey(k) && |k| > 0 && k[0] != '0'
    ensures DigitsValue(k) >= 1
    ensures |k| > 1 ==> DigitsValue(k) >= 10
    decreases |k|
  {
    if |k| > 1 {
      var p := k[..|k| - 1];
      assert p[0] == k[0];
      DigitsPositive(p);
    }
  }

  lemma IndexKeyOfIndexKeys(k: string, n: nat)
    ensures k in IndexKeys(n) ==> IsIndexKey(k) && DigitsValue(k) < n
  {
    if k in IndexKeys(n) {
      var i :| 0 <= i < n && IndexKeys(n)[i] == k;
      ParseNatToString(i);
    }
  }

  /** The keys `for (k in v)` visits, in order. */
  function ForInKeys(v: Json): seq<string>
  {
    match v
    case Obj(fs) => Keys(fs)
    case Arr(items) => IndexKeys(|items|)
    case Str(s) => IndexKeys(|s|)
    case _ => []
  }

  /** A loop that has visited every element of `xs` has visited `xs`. */
  lemma WholePrefix<T>(xs: seq<T>)
    ensures xs[..|xs|] == xs
  {
  }

  /** `Array.isArray(v)`. */
  predicate IsArray(v: Json)
  {
    v.Arr?
  }

  /** Joins the texts of array members with commas, as `Array.prototype.join` does. */
  function JoinTexts(items: seq<Json>): string
    decreases items, 0
  {
    if items == [] then ""
    else if |items| == 1 then MemberText(items[0])
    else MemberText(items[0]) + "," + JoinTexts(items[1..])
  }

  function MemberText(v: Json): string
    decreases v, 3
  {
    if v.Undefined? || v.Null? then "" else Text(v)
  }

  /** `String(v)`, as a template literal or string concatenation converts a value. */
  function Text(v: Json): string
    decreases v, 2
  {
    match v
    case Undefined => "undefined"
    case Null => "null"
    case Bool(b) => if b then "true" else "false"
    case Num(n) => IntToString(n)
    case Str(s) => s
    case Arr(items) => JoinTexts(items)
    case Obj(_) => "[object Object]"
  }

  /**
   * `a == b` as the core uses it on names and tags: null and undefined equal
   * each other; values of one primitive type compare by value; objects and
   * arrays never compare equal (the documents compared are parsed separately,
   * so they share no object).
   */
  predicate LooseEquals(a: Json, b: Json)
  {
    if (a.Undefined? || a.Null?) && (b.Undefined? || b.Null?) then true
    else
      match (a, b)
      case (Bool(x), Bool(y)) => x == y
      case (Num(x), Num(y)) => x == y
      case (Str(x), Str(y)) => x == y
      case _ => false
  }

  /** `a === b` on primitive values; objects are never identical across documents. */
  predicate StrictEquals(a: Json, b: Json)
  {
    match (a, b)
    case (Undefined, Undefined) => true
    case (Null, Null) => true
    case (Bool(x), Bool(y)) => x == y
    case (Num(x), Num(y)) => x == y
    case (Str(x), Str(y)) => x == y
    case _ => false
  }

  // ---------------------------------------------------------------------
  // Nesting depth, which recursion into members of a value goes down

  function Depth(v: Json): nat
    decreases v, 1
  {
    match v
    case Arr(items) => 1 + ItemsDepth(items)
    case Obj(fs) => 1 + FieldsDepth(fs)
    case _ => 0
  }

  function ItemsDepth(items: seq<Json>): nat
    decreases items, 0
  {
    if items == [] then 0
    else
      var d := Depth(items[0]);
      var e := ItemsDepth(items[1..]);
      if d < e then e else d
  }

  function FieldsDepth(fs: seq<Field>): nat
    decreases fs, 0
  {
    if fs == [] then 0
    else
      var d := Depth(fs[0].value);
      var e := FieldsDepth(fs[1..]);
      if d < e then e else d
  }

  lemma {:induction false} LookupDepth(fs: seq<Field>, k: string)
    requires Lookup(fs, k).Some?
    ensures Depth(Lookup(fs, k).value) <= FieldsDepth(fs)
    decreases |fs|
  {
    if fs[0].key != k {
      LookupDepth(fs[1..], k);
    }
  }

  lemma {:induction false} ItemDepth(items: seq<Json>, i: nat)
    requires i < |items|
    ensures Depth(items[i]) <= ItemsDepth(items)
    decreases |items|
  {
    if i > 0 {
      ItemDepth(items[1..], i - 1);
    }
  }

  /** An object or array read out of a value lies strictly deeper inside it. */
  lemma GetDepth(v: Json, k: string)
    ensures (Get(v, k).Obj? || Get(v, k).Arr?) ==> Depth(Get(v, k)) < Depth(v)
  {
    match v
    case Obj(fs) =>
      if Lookup(fs, k).Some? {
        LookupDepth(fs, k);
      }
    case Arr(items) =>
      if IsIndexKey(k) && DigitsValue(k) < |items| {
        ItemDepth(items, DigitsValue(k));
      }
    case _ =>
  }

  /** The empty object `{}`. */
  const EmptyObject: Json := Obj([])
}
