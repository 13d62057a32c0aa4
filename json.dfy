/**
 * The PHP array values the services pass around, as JSON values, with the
 * `??` / `isset` lookup PHP code uses on them, PHP truthiness, scalar-to-string
 * conversion, and a `json_encode` (compact and JSON_PRETTY_PRINT forms).
 */
module Json {
  import opened Strings

  /**
   * A decoded JSON value or PHP array. `Arr` is a PHP list (keys 0..n-1),
   * `Obj` an associative array or object in insertion order.
   */
  datatype Value =
    | Null
    | Bool(b: bool)
    | Int(i: int)
    | Float(r: real)
    | Str(s: string)
    | Arr(items: seq<Value>)
    | Obj(fields: seq<(string, Value)>)

  /** `$v[$key]` under `isset`/`??`: Null when `v` is not an object or has no such key. */
  function Get(v: Value, key: string): Value {
    match v
    case Obj(fs) => Lookup(fs, key)
    case _ => Null
  }

  function Values(fs: seq<(string, Value)>): seq<Value> {
    if fs == [] then [] else [fs[0].1] + Values(fs[1..])
  }

  /** First field named `key`, or Null. */
  function Lookup(fs: seq<(string, Value)>, key: string): (r: Value)
    ensures (forall k :: 0 <= k < |fs| ==> fs[k].0 != key) ==> r == Null
  {
    if fs == [] then Null
    else if fs[0].0 == key then fs[0].1
    else
      Lookup(fs[1..], key)
  }

  /** The first field decides when its name matches. */
  lemma {:induction false} LookupCons(k: string, v: Value, rest: seq<(string, Value)>, key: string)
    ensures Lookup([(k, v)] + rest, key) == if k == key then v else Lookup(rest, key)
  {
    assert ([(k, v)] + rest)[1..] == rest;
  }

  /** A field list glued from two: the first part wins when it has the name. */
  lemma {:induction false} LookupAppend(a: seq<(string, Value)>, b: seq<(string, Value)>, key: string)
    ensures (exists k :: 0 <= k < |a| && a[k].0 == key) ==> Lookup(a + b, key) == Lookup(a, key)
    ensures (forall k :: 0 <= k < |a| ==> a[k].0 != key) ==> Lookup(a + b, key) == Lookup(b, key)
  {
    if a != [] {
      assert (a + b)[1..] == a[1..] + b;
      LookupAppend(a[1..], b, key);
      assert forall k :: 1 <= k < |a| ==> a[k] == a[1..][k - 1];
    } else {
      assert a + b == b;
    }
  }

  /** The value of the first field with the name. */
  lemma {:induction false} LookupFirst(fs: seq<(string, Value)>, j: nat, key: string)
    requires j < |fs| && fs[j].0 == key
    requires forall k :: 0 <= k < j ==> fs[k].0 != key
    ensures Lookup(fs, key) == fs[j].1
  {
    if j > 0 {
      assert forall k :: 0 <= k < j - 1 ==> fs[1..][k] == fs[k + 1];
      LookupFirst(fs[1..], j - 1, key);
    }
  }

  /** `$v[$i]` on a list under `isset`/`??`. */
  function At(v: Value, i: int): Value {
    match v
    case Arr(xs) => if 0 <= i < |xs| then xs[i] else Null
    case _ => Null
  }

  /** PHP `$a ?? $b` (null counts as absent). */
  function Coalesce(a: Value, b: Value): (r: Value)
    ensures r == Null ==> b == Null
    ensures a != Null ==> r == a
  {
    if a.Null? then b else a
  }

  /** The members of an array in iteration order (PHP `foreach`); nothing for a scalar. */
  function Elements(v: Value): seq<Value> {
    match v
    case Arr(xs) => xs
    case Obj(fs) => Values(fs)
    case _ => []
  }

  lemma {:induction false} ValuesLength(fs: seq<(string, Value)>)
    ensures |Values(fs)| == |fs|
    ensures forall k :: 0 <= k < |fs| ==> Values(fs)[k] == fs[k].1
  {
    if fs != [] {
      ValuesLength(fs[1..]);
    }
  }

  /** PHP truthiness (`if ($v)`); `empty($v)` is its negation. */
  predicate Truthy(v: Value) {
    match v
    case Null => false
    case Bool(b) => b
    case Int(i) => i != 0
    case Float(r) => r != 0.0
    case Str(s) => !PhpEmpty(s)
    case Arr(xs) => xs != []
    case Obj(fs) => fs != []
  }

  predicate IsArray(v: Value) {
    v.Arr? || v.Obj?
  }

  /**
   * PHP's conversion of a value to string in a string context (`.`,
   * interpolation): null and false give "", true gives "1", arrays give "Array".
   * Floats are written with `FloatText`.
   */
  function StringOf(v: Value): string {
    match v
    case Null => ""
    case Bool(b) => if b then "1" else ""
    case Int(i) => IntToString(i)
    case Float(r) => FloatText(r)
    case Str(s) => s
    case Arr(_) => "Array"
    case Obj(_) => "Array"
  }

  /**
   * Decimal text of a real with at most four fractional digits, trailing
   * zeros dropped and at least one kept (how json_encode prints a value that
   * `round($x, 4)` produced).
   */
  function FloatText(r: real): string {
    var neg := r < 0.0;
    var a := if neg then -r else r;
    var scaled := (a * 10000.0 + 0.5).Floor;
    var whole := scaled / 10000;
    var frac := scaled % 10000;
    (if neg && scaled != 0 then "-" else "") + NatToString(whole) + "." + FractionDigits(frac)
  }

  function FractionDigits(frac: nat): string
    requires frac < 10000
  {
    var ds := [frac / 1000, (frac / 100) % 10, (frac / 10) % 10, frac % 10];
    var n := if ds[3] != 0 then 4 else if ds[2] != 0 then 3 else if ds[1] != 0 then 2 else 1;
    DigitsText(ds[..n])
  }

  function DigitsText(ds: seq<nat>): string
    requires forall k :: 0 <= k < |ds| ==> ds[k] < 10
  {
    if ds == [] then "" else [DigitChar(ds[0])] + DigitsText(ds[1..])
  }

  function HexDigit(d: nat): char
    requires d < 16
  {
    if d < 10 then DigitChar(d) else ('a' as int + d - 10) as char
  }

  function Hex4(n: nat): string
    requires n < 0x1_0000
  {
    [HexDigit(n / 0x1000), HexDigit((n / 0x100) % 16), HexDigit((n / 0x10) % 16), HexDigit(n % 16)]
  }

  /** json_encode's escape for one character (no JSON_UNESCAPED_* flags). */
  function EscapeChar(c: char): string {
    if c == '"' then "\\\""
    else if c == '\\' then "\\\\"
    else if c == '/' then "\\/"
    else if c == '\n' then "\\n"
    else if c == '\r' then "\\r"
    else if c == '\t' then "\\t"
    else if c == '\U{08}' then "\\b"
    else if c == '\U{0C}' then "\\f"
    else if (c as int) < 0x20 || (0x7F < (c as int) < 0x1_0000) then "\\u" + Hex4(c as int)
    else if (c as int) >= 0x1_0000 then
      var u := (c as int) - 0x1_0000;
      "\\u" + Hex4(0xD800 + u / 0x400) + "\\u" + Hex4(0xDC00 + u % 0x400)
    else [c]
  }

  function EscapeString(s: string): string {
    if s == [] then "" else EscapeChar(s[0]) + EscapeString(s[1..])
  }

  function Quote(s: string): string {
    "\"" + EscapeString(s) + "\""
  }

  /** `json_encode($v)`: compact form. */
  function Encode(v: Value): string {
    match v
    case Null => "null"
    case Bool(b) => if b then "true" else "false"
    case Int(i) => IntToString(i)
    case Float(r) => FloatText(r)
    case Str(s) => Quote(s)
    case Arr(xs) => "[" + EncodeItems(xs) + "]"
    case Obj(fs) => "{" + EncodeFields(fs) + "}"
  }

  function EncodeItems(xs: seq<Value>): string
    decreases xs
  {
    if xs == [] then ""
    else Encode(xs[0]) + (if |xs| == 1 then "" else "," + EncodeItems(xs[1..]))
  }

  function EncodeFields(fs: seq<(string, Value)>): string
    decreases fs
  {
    if fs == [] then ""
    else
      assert fs[0].1 < fs[0];
      Quote(fs[0].0) + ":" + Encode(fs[0].1) + (if |fs| == 1 then "" else "," + EncodeFields(fs[1..]))
  }

  /** No escape contains a line break: the compact form of a value is always one line. */
  lemma {:induction false} EscapeCharOneLine(c: char)
    ensures '\n' !in EscapeChar(c)
  {
    if (c as int) < 0x20 || (0x7F < (c as int) < 0x1_0000) {
      var h := Hex4(c as int);
      assert forall k :: 0 <= k < |h| ==> h[k] != '\n';
    } else if (c as int) >= 0x1_0000 {
      var u := (c as int) - 0x1_0000;
      var h1, h2 := Hex4(0xD800 + u / 0x400), Hex4(0xDC00 + u % 0x400);
      assert forall k :: 0 <= k < |h1| ==> h1[k] != '\n';
      assert forall k :: 0 <= k < |h2| ==> h2[k] != '\n';
    }
  }

  lemma {:induction false} EscapeStringOneLine(s: string)
    ensures '\n' !in EscapeString(s)
    decreases |s|
  {
    if s != [] {
      EscapeCharOneLine(s[0]);
      EscapeStringOneLine(s[1..]);
    }
  }

  lemma {:induction false} DigitsOneLine(ds: seq<nat>)
    requires forall k :: 0 <= k < |ds| ==> ds[k] < 10
    ensures '\n' !in DigitsText(ds)
    decreases |ds|
  {
    if ds != [] {
      DigitsOneLine(ds[1..]);
    }
  }

  lemma {:induction false} ScalarOneLine(v: Value)
    requires !v.Arr? && !v.Obj?
    ensures '\n' !in Encode(v)
  {
    match v
    case Int(i) =>
      assert '\n' !in NatToString(if i < 0 then -i else i);
    case Float(r) =>
      FloatOneLine(r);
    case Str(s) =>
      EscapeStringOneLine(s);
    case _ =>
  }

  lemma {:induction false} FloatOneLine(r: real)
    ensures '\n' !in FloatText(r)
  {
    var a := if r < 0.0 then -r else r;
    var scaled := (a * 10000.0 + 0.5).Floor;
    assert '\n' !in NatToString(scaled / 10000);
    FractionOneLine(scaled % 10000);
  }

  lemma {:induction false} FractionOneLine(frac: nat)
    requires frac < 10000
    ensures '\n' !in FractionDigits(frac)
  {
    var ds := [frac / 1000, (frac / 100) % 10, (frac / 10) % 10, frac % 10];
    var n := if ds[3] != 0 then 4 else if ds[2] != 0 then 3 else if ds[1] != 0 then 2 else 1;
    DigitsOneLine(ds[..n]);
  }

  lemma {:induction false} EncodeOneLine(v: Value)
    ensures '\n' !in Encode(v)
    decreases v, 2
  {
    match v
    case Arr(xs) => EncodeItemsOneLine(xs);
    case Obj(fs) => EncodeFieldsOneLine(fs);
    case _ => ScalarOneLine(v);
  }

  lemma {:induction false} EncodeItemsOneLine(xs: seq<Value>)
    ensures '\n' !in EncodeItems(xs)
    decreases xs, 1
  {
    if xs != [] {
      EncodeOneLine(xs[0]);
      if |xs| > 1 {
        EncodeItemsOneLine(xs[1..]);
      }
    }
  }

  lemma {:induction false} EncodeFieldsOneLine(fs: seq<(string, Value)>)
    ensures '\n' !in EncodeFields(fs)
    decreases fs, 1
  {
    if fs != [] {
      assert fs[0].1 < fs[0];
      EscapeStringOneLine(fs[0].0);
      EncodeOneLine(fs[0].1);
      if |fs| > 1 {
        EncodeFieldsOneLine(fs[1..]);
      }
    }
  }

  function Indent(depth: nat): string {
    if depth == 0 then "" else "    " + Indent(depth - 1)
  }

  /** `json_encode($v, JSON_PRETTY_PRINT)`: four-space indentation, ": " after keys. */
  function EncodePretty(v: Value, depth: nat): string {
    match v
    case Arr(xs) =>
      if xs == [] then "[]" else "[\n" + PrettyItems(xs, depth + 1) + "\n" + Indent(depth) + "]"
    case Obj(fs) =>
      if fs == [] then "{}" else "{\n" + PrettyFields(fs, depth + 1) + "\n" + Indent(depth) + "}"
    case _ => Encode(v)
  }

  function PrettyItems(xs: seq<Value>, depth: nat): string
    decreases xs
  {
    if xs == [] then ""
    else
      Indent(depth) + EncodePretty(xs[0], depth)
      + (if |xs| == 1 then "" else ",\n" + PrettyItems(xs[1..], depth))
  }

  function PrettyFields(fs: seq<(string, Value)>, depth: nat): string
    decreases fs
  {
    if fs == [] then ""
    else
      assert fs[0].1 < fs[0];
      Indent(depth) + Quote(fs[0].0) + ": " + EncodePretty(fs[0].1, depth)
      + (if |fs| == 1 then "" else ",\n" + PrettyFields(fs[1..], depth))
  }

  /** The key of a PHP array entry: integer or string. */
  datatype Key = IntKey(n: int) | StrKey(s: string)

  function KeyText(k: Key): string {
    match k
    case IntKey(n) => IntToString(n)
    case StrKey(s) => s
  }

  /** Keys 0, 1, ..., n-1 in order: json_encode writes such an array as a list. */
  predicate IsListKeys(keys: seq<Key>) {
    forall k :: 0 <= k < |keys| ==> keys[k] == IntKey(k)
  }

  /** A PHP array given by its entries, as json_encode sees it. */
  function FromEntries(es: seq<(Key, Value)>): (r: Value)
    ensures r.Arr? <==> IsListKeys(KeysOf(es))
    ensures r.Arr? ==> |r.items| == |es|
    ensures r.Obj? ==> |r.fields| == |es|
  {
    if IsListKeys(KeysOf(es)) then Arr(ValuesOf(es)) else Obj(TextKeys(es))
  }

  function KeysOf(es: seq<(Key, Value)>): (r: seq<Key>)
    ensures |r| == |es| && forall k :: 0 <= k < |es| ==> r[k] == es[k].0
  {
    if es == [] then [] else [es[0].0] + KeysOf(es[1..])
  }

  function ValuesOf(es: seq<(Key, Value)>): (r: seq<Value>)
    ensures |r| == |es| && forall k :: 0 <= k < |es| ==> r[k] == es[k].1
  {
    if es == [] then [] else [es[0].1] + ValuesOf(es[1..])
  }

  function TextKeys(es: seq<(Key, Value)>): (r: seq<(string, Value)>)
    ensures |r| == |es| && forall k :: 0 <= k < |es| ==> r[k] == (KeyText(es[k].0), es[k].1)
  {
    if es == [] then [] else [(KeyText(es[0].0), es[0].1)] + TextKeys(es[1..])
  }

  /** PHP `$a[$key] = $v` on a string-keyed array: replace the entry where it stands, or append one. */
  function Put(fs: seq<(string, Value)>, key: string, v: Value): seq<(string, Value)> {
    if fs == [] then [(key, v)]
    else if fs[0].0 == key then [(key, v)] + fs[1..]
    else [fs[0]] + Put(fs[1..], key, v)
  }

  /** After the assignment the key reads back `v`; every other key reads what it read before. */
  lemma {:induction false} PutLookup(fs: seq<(string, Value)>, key: string, v: Value, other: string)
    ensures Lookup(Put(fs, key, v), key) == v
    ensures other != key ==> Lookup(Put(fs, key, v), other) == Lookup(fs, other)
  {
    if fs == [] {
      LookupCons(key, v, [], key);
      LookupCons(key, v, [], other);
    } else if fs[0].0 == key {
      LookupCons(key, v, fs[1..], key);
      LookupCons(key, v, fs[1..], other);
      LookupCons(fs[0].0, fs[0].1, fs[1..], other);
      assert [fs[0]] + fs[1..] == fs;
    } else {
      PutLookup(fs[1..], key, v, other);
      LookupCons(fs[0].0, fs[0].1, Put(fs[1..], key, v), key);
      LookupCons(fs[0].0, fs[0].1, Put(fs[1..], key, v), other);
      LookupCons(fs[0].0, fs[0].1, fs[1..], key);
      LookupCons(fs[0].0, fs[0].1, fs[1..], other);
      assert [fs[0]] + fs[1..] == fs;
    }
  }
}
