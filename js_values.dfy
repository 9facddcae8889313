/** The JavaScript values the providers read and build: records, relation
    envelopes, file handles and the scalars inside them, with the few language
    operations the providers rely on (truthiness, `String(v)`, `parseInt`,
    property reads, `o[k] = v`, object spread and rest destructuring).

    An object is its own enumerable properties in `Object.keys` order, as a
    sequence of key/value pairs; numbers are integers. */
module JsValues {
  import opened Outcome

  type Fields = seq<(string, Value)>

  datatype Value =
    | Undefined
    | Null
    | Bool(b: bool)
    | Num(n: int)
    | NaN
    | Str(s: string)
    | Arr(items: seq<Value>)
    | Obj(fields: Fields)
      /** A browser `File` object: `typeof` says object, it has no own
          enumerable properties, and `instanceof File` holds. */
    | File(handle: nat)

  /** JavaScript truthiness. */
  predicate Truthy(v: Value) {
    match v
    case Undefined => false
    case Null => false
    case NaN => false
    case Bool(b) => b
    case Num(n) => n != 0
    case Str(s) => s != ""
    case _ => true
  }

  /** Reading a property of these throws a TypeError. */
  predicate Nullish(v: Value) {
    v.Undefined? || v.Null?
  }

  // ---------------------------------------------------------------------------
  // Decimal text

  predicate IsDigit(c: char) {
    '0' <= c <= '9'
  }

  predicate AllDigits(s: string) {
    forall i :: 0 <= i < |s| ==> IsDigit(s[i])
  }

  function DigitChar(d: nat): (c: char)
    requires d < 10
    ensures IsDigit(c)
  {
    ('0' as int + d) as char
  }

  function DigitValue(c: char): nat
    requires IsDigit(c)
  {
    c as int - '0' as int
  }

  /** The decimal text of a natural number, as `String(n)` writes it. */
  function NatToString(n: nat): string
    decreases n
  {
    if n < 10 then [DigitChar(n)] else NatToString(n / 10) + [DigitChar(n % 10)]
  }

  function IntToString(i: int): string {
    if i < 0 then "-" + NatToString(-i) else NatToString(i)
  }

  /** The longest prefix of `s` made of decimal digits. */
  function LeadingDigits(s: string): (d: string)
    ensures AllDigits(d) && |d| <= |s| && d == s[..|d|]
  {
    if s == [] || !IsDigit(s[0]) then [] else [s[0]] + LeadingDigits(s[1..])
  }

  function DigitsValue(s: string): nat
    requires AllDigits(s)
  {
    if s == [] then 0 else DigitsValue(s[..|s| - 1]) * 10 + DigitValue(s[|s| - 1])
  }

  /** `parseInt(s, 10)` on text that starts with its digits: the value of the
      leading digit run, and NaN when there is none. */
  function ParseInt(s: string): Value {
    var d := LeadingDigits(s);
    if d == [] then NaN else Num(DigitsValue(d))
  }

  lemma {:induction false} NatToStringDigits(n: nat)
    ensures |NatToString(n)| > 0 && AllDigits(NatToString(n))
    ensures DigitsValue(NatToString(n)) == n
    decreases n
  {
    if n >= 10 {
      NatToStringDigits(n / 10);
      var s := NatToString(n / 10);
      var t := s + [DigitChar(n % 10)];
      assert t[..|t| - 1] == s;
    }
  }

  lemma {:induction false} LeadingDigitsStop(d: string, rest: string)
    requires AllDigits(d)
    requires rest == [] || !IsDigit(rest[0])
    ensures LeadingDigits(d + rest) == d
    decreases |d|
  {
    if d == [] {
      assert d + rest == rest;
    } else {
      assert (d + rest)[1..] == d[1..] + rest;
      LeadingDigitsStop(d[1..], rest);
    }
  }

  /** `parseInt` reads back what `String(n)` wrote, whatever non-digit text
      follows it. */
  lemma ParseIntReadsBack(n: nat, rest: string)
    requires rest == [] || !IsDigit(rest[0])
    ensures ParseInt(NatToString(n) + rest) == Num(n)
  {
    NatToStringDigits(n);
    LeadingDigitsStop(NatToString(n), rest);
  }

  lemma ParseIntOfNatToString(n: nat)
    ensures ParseInt(NatToString(n)) == Num(n)
  {
    ParseIntReadsBack(n, "");
    assert NatToString(n) + "" == NatToString(n);
  }

  // ---------------------------------------------------------------------------
  // String(v)

  /** `parts.join(sep)`. */
  function Join(sep: string, parts: seq<string>): string
    decreases |parts|
  {
    if |parts| == 0 then ""
    else if |parts| == 1 then parts[0]
    else Join(sep, parts[..|parts| - 1]) + sep + parts[|parts| - 1]
  }

  /** `String(v)`, as a template literal or `+ v` renders a value; an array
      renders as its elements joined by `,`, null and undefined as "". */
  function ToStr(v: Value): string
    decreases v, 1
  {
    match v
    case Undefined => "undefined"
    case Null => "null"
    case Bool(b) => if b then "true" else "false"
    case Num(n) => IntToString(n)
    case NaN => "NaN"
    case Str(s) => s
    case Arr(items) => ItemsText(v, |items|)
    case Obj(_) => "[object Object]"
    case File(_) => "[object File]"
  }

  /** The first n elements of an array, rendered and joined by `,`. */
  function ItemsText(v: Value, n: nat): string
    requires v.Arr? && n <= |v.items|
    decreases v, 0, n
  {
    if n == 0 then ""
    else
      var last := if Nullish(v.items[n - 1]) then "" else ToStr(v.items[n - 1]);
      if n == 1 then last else ItemsText(v, n - 1) + "," + last
  }

  // ---------------------------------------------------------------------------
  // Objects

  function Keys(fs: Fields): (ks: seq<string>)
    ensures |ks| == |fs| && forall i :: 0 <= i < |fs| ==> ks[i] == fs[i].0
  {
    seq(|fs|, i requires 0 <= i < |fs| => fs[i].0)
  }

  predicate DistinctKeys(fs: Fields) {
    forall i, j :: 0 <= i < j < |fs| ==> fs[i].0 != fs[j].0
  }

  /** `o[k]`: the value of the first pair with key `k`, `undefined` if none. */
  function Get(fs: Fields, k: string): Value {
    if fs == [] then Undefined else if fs[0].0 == k then fs[0].1 else Get(fs[1..], k)
  }

  /** `o[k] = v`: overwrite in place when the key exists, append otherwise. */
  function Put(fs: Fields, k: string, v: Value): Fields {
    if fs == [] then [(k, v)]
    else if fs[0].0 == k then [(k, v)] + fs[1..]
    else [fs[0]] + Put(fs[1..], k, v)
  }

  /** `{...into, ...from}` for an object `from`. */
  function Spread(into: Fields, from: Fields): Fields
    decreases |from|
  {
    if from == [] then into else Spread(Put(into, from[0].0, from[0].1), from[1..])
  }

  /** Spreading a value into an object literal: `null` and `undefined` add
      nothing; so do scalars, arrays and strings here (see README). */
  function SpreadValue(into: Fields, v: Value): Fields {
    if v.Obj? then Spread(into, v.fields) else into
  }

  /** `const {a, b, ...rest} = o`: the pairs whose key is not destructured, in order. */
  function Omit(fs: Fields, drop: set<string>): Fields {
    if fs == [] then [] else (if fs[0].0 in drop then [] else [fs[0]]) + Omit(fs[1..], drop)
  }

  /** The server-managed timestamp fields, in the storage conventions of
      both database back ends. */
  const Timestamps: set<string> := {"created_at", "updated_at", "createdAt", "updatedAt"}

  /** The rest destructuring that leaves the timestamps out of a mutation body. */
  function Sanitize(fs: Fields): Fields {
    Omit(fs, Timestamps)
  }

  /** Reading property `k` of a value that is neither null nor undefined.
      The keys the providers read are never array indices; `First` reads `v[0]`. */
  function Prop(v: Value, k: string): Value
    requires !Nullish(v)
  {
    match v
    case Obj(fs) => Get(fs, k)
    case Str(s) => if k == "length" then Num(|s|) else Undefined
    case Arr(xs) => if k == "length" then Num(|xs|) else Undefined
    case _ => Undefined
  }

  /** `Array.isArray(v) ? v : [v]`. */
  function AsList(v: Value): seq<Value> {
    if v.Arr? then v.items else [v]
  }

  /** `item.rawFile instanceof File`: the marker of a file picked in the
      browser and not yet uploaded. */
  predicate IsNewFile(item: Value)
    requires !Nullish(item)
  {
    Prop(item, "rawFile").File?
  }

  /** `v?.k`. */
  function OptProp(v: Value, k: string): Value {
    if Nullish(v) then Undefined else Prop(v, k)
  }

  /** `v[0]` on a value that is neither null nor undefined. */
  function First(v: Value): Value
    requires !Nullish(v)
  {
    match v
    case Arr(xs) => if |xs| > 0 then xs[0] else Undefined
    case Str(s) => if |s| > 0 then Str([s[0]]) else Undefined
    case Obj(fs) => Get(fs, "0")
    case _ => Undefined
  }

  // ---------------------------------------------------------------------------
  // Lemmas about objects

  /** Assignment changes the assigned key and nothing else. */
  lemma {:induction false} PutGet(fs: Fields, k: string, v: Value, k': string)
    ensures Get(Put(fs, k, v), k') == if k' == k then v else Get(fs, k')
  {
    if fs != [] && fs[0].0 != k {
      PutGet(fs[1..], k, v, k');
    }
  }

  lemma KeysCons(p: (string, Value), tail: Fields)
    ensures Keys([p] + tail) == [p.0] + Keys(tail)
  {
  }

  /** Assignment keeps the key order, appending a new key at the end. */
  lemma {:induction false} PutKeys(fs: Fields, k: string, v: Value)
    ensures Keys(Put(fs, k, v)) == if k in Keys(fs) then Keys(fs) else Keys(fs) + [k]
  {
    if fs == [] {
      assert Keys([(k, v)]) == [k];
    } else {
      assert fs == [fs[0]] + fs[1..];
      KeysCons(fs[0], fs[1..]);
      if fs[0].0 == k {
        KeysCons((k, v), fs[1..]);
      } else {
        PutKeys(fs[1..], k, v);
        KeysCons(fs[0], Put(fs[1..], k, v));
        assert k in Keys(fs) <==> k in Keys(fs[1..]);
      }
    }
  }

  /** A key with a defined value is one of the object's keys. */
  lemma {:induction false} GetFound(fs: Fields, k: string)
    requires Get(fs, k) != Undefined
    ensures k in Keys(fs)
  {
    if fs[0].0 != k {
      GetFound(fs[1..], k);
      assert Keys(fs[1..])[..] == Keys(fs)[1..];
    }
  }

  /** Assigning a key the value it already holds changes nothing. */
  lemma {:induction false} PutSame(fs: Fields, k: string)
    requires k in Keys(fs)
    ensures Put(fs, k, Get(fs, k)) == fs
  {
    if fs[0].0 != k {
      assert fs == [fs[0]] + fs[1..];
      KeysCons(fs[0], fs[1..]);
      PutSame(fs[1..], k);
    }
  }

  /** Assignment never moves the first key of a non-empty object. */
  lemma PutKeepsFirstKey(fs: Fields, k: string, v: Value)
    requires |fs| > 0
    ensures |Put(fs, k, v)| > 0 && Put(fs, k, v)[0].0 == fs[0].0
  {
  }

  /** Spreading into a non-empty object keeps its first key first. */
  lemma {:induction false} SpreadKeepsFirstKey(into: Fields, from: Fields)
    requires |into| > 0
    ensures |Spread(into, from)| > 0 && Spread(into, from)[0].0 == into[0].0
    decreases |from|
  {
    if from != [] {
      PutKeepsFirstKey(into, from[0].0, from[0].1);
      SpreadKeepsFirstKey(Put(into, from[0].0, from[0].1), from[1..]);
    }
  }

  lemma PutDistinct(fs: Fields, k: string, v: Value)
    requires DistinctKeys(fs)
    ensures DistinctKeys(Put(fs, k, v))
  {
    PutKeys(fs, k, v);
    var r := Put(fs, k, v);
    assert forall i :: 0 <= i < |r| ==> r[i].0 == Keys(r)[i];
    assert forall i :: 0 <= i < |fs| ==> fs[i].0 == Keys(fs)[i];
  }

  /** In an object with distinct keys, `Get` finds the pair at its position. */
  lemma {:induction false} GetAt(fs: Fields, i: nat)
    requires DistinctKeys(fs) && i < |fs|
    ensures Get(fs, fs[i].0) == fs[i].1
  {
    if i > 0 {
      GetAt(fs[1..], i - 1);
    }
  }

  /** In an object with distinct keys, assigning an existing key rewrites that
      position and nothing else. */
  lemma {:induction false} PutAt(fs: Fields, i: nat, v: Value)
    requires DistinctKeys(fs) && i < |fs|
    ensures Put(fs, fs[i].0, v) == fs[i := (fs[i].0, v)]
  {
    if i > 0 {
      PutAt(fs[1..], i - 1, v);
      assert fs[i := (fs[i].0, v)] == [fs[0]] + fs[1..][i - 1 := (fs[i].0, v)];
    }
  }

  lemma {:induction false} SpreadDistinct(into: Fields, from: Fields)
    requires DistinctKeys(into)
    ensures DistinctKeys(Spread(into, from))
    decreases |from|
  {
    if from != [] {
      PutDistinct(into, from[0].0, from[0].1);
      SpreadDistinct(Put(into, from[0].0, from[0].1), from[1..]);
    }
  }

  /** Rest destructuring keeps exactly the keys it does not name, with their
      values. */
  lemma {:induction false} OmitGet(fs: Fields, drop: set<string>, k: string)
    ensures k in Keys(Omit(fs, drop)) <==> k in Keys(fs) && k !in drop
    ensures Get(Omit(fs, drop), k) == if k in drop then Undefined else Get(fs, k)
  {
    if fs != [] {
      OmitGet(fs[1..], drop, k);
      assert fs == [fs[0]] + fs[1..];
      KeysCons(fs[0], fs[1..]);
      var tail := Omit(fs[1..], drop);
      if fs[0].0 !in drop {
        assert Omit(fs, drop) == [fs[0]] + tail;
        KeysCons(fs[0], tail);
      } else {
        assert Omit(fs, drop) == tail;
      }
    }
  }


  /** Sanitizing a record that holds no timestamp field gives it back unchanged. */
  lemma {:induction false} SanitizeIdentity(fs: Fields)
    requires forall i :: 0 <= i < |fs| ==> fs[i].0 !in Timestamps
    ensures Sanitize(fs) == fs
  {
    if fs != [] {
      SanitizeIdentity(fs[1..]);
    }
  }

  /** A sanitized record holds no timestamp field, so sanitizing twice is
      sanitizing once. */
  lemma {:induction false} SanitizeIdempotent(fs: Fields)
    ensures forall i :: 0 <= i < |Sanitize(fs)| ==> Sanitize(fs)[i].0 !in Timestamps
    ensures Sanitize(Sanitize(fs)) == Sanitize(fs)
  {
    if fs != [] {
      SanitizeIdempotent(fs[1..]);
    }
    var r := Sanitize(fs);
    assert forall i :: 0 <= i < |r| ==> r[i].0 !in Timestamps by {
      forall i | 0 <= i < |r| ensures r[i].0 !in Timestamps {
        if fs != [] && fs[0].0 !in Timestamps && i == 0 {
        } else if fs != [] {
          var t := Sanitize(fs[1..]);
          assert r == (if fs[0].0 in Timestamps then [] else [fs[0]]) + t;
        }
      }
    }
    SanitizeIdentity(r);
  }

  lemma KeysSnoc(fs: Fields, p: (string, Value))
    ensures Keys(fs + [p]) == Keys(fs) + [p.0]
  {
  }

  lemma {:induction false} PutNew(fs: Fields, k: string, v: Value)
    requires k !in Keys(fs)
    ensures Put(fs, k, v) == fs + [(k, v)]
  {
    if fs != [] {
      assert fs == [fs[0]] + fs[1..];
      KeysCons(fs[0], fs[1..]);
      PutNew(fs[1..], k, v);
      assert [fs[0]] + (fs[1..] + [(k, v)]) == fs + [(k, v)];
    }
  }

  /** Spreading an object whose keys are new appends its pairs in order. */
  lemma {:induction false} SpreadFresh(into: Fields, from: Fields)
    requires DistinctKeys(from)
    requires forall i :: 0 <= i < |from| ==> from[i].0 !in Keys(into)
    ensures Spread(into, from) == into + from
    decreases |from|
  {
    if from != [] {
      PutNew(into, from[0].0, from[0].1);
      var into' := into + [from[0]];
      KeysSnoc(into, from[0]);
      forall i | 0 <= i < |from[1..]| ensures from[1..][i].0 !in Keys(into') {
        assert from[1..][i] == from[i + 1];
      }
      SpreadFresh(into', from[1..]);
      assert into' + from[1..] == into + from;
    }
  }
}

