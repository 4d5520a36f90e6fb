/**
 * The slice of JavaScript value semantics that the page and the translation
 * handler rely on: JSON-shaped values, truthiness, plain (`a.b`, `a[k]`) and
 * optional (`a?.b`, `a?.[k]`) property access, `Object.keys` and
 * `String.prototype.trim`.
 *
 * An object is the list of its own enumerable properties in enumeration
 * order; property lookup takes the first field with the key.
 */
module Js {
  import opened Wrappers

  datatype Json =
    | Undefined
    | Null
    | Bool(b: bool)
    | Num(n: real)
    | Str(s: string)
    | Arr(items: seq<Json>)
    | Obj(fields: seq<Field>)

  datatype Field = Field(key: string, value: Json)

  /** How an expression ends: with a value, or by throwing a TypeError. */
  datatype Completion<+T> = Normal(value: T) | TypeError

  predicate Nullish(v: Json) {
    v.Undefined? || v.Null?
  }

  /** JavaScript's ToBoolean: `undefined`, `null`, `false`, `0` and `""` are falsy. */
  predicate Truthy(v: Json)
    ensures !Truthy(v) <==> v in {Undefined, Null, Bool(false), Num(0.0), Str([])}
  {
    match v
    case Undefined | Null => false
    case Bool(b) => b
    case Num(n) => n != 0.0
    case Str(s) => s != []
    case Arr(_) | Obj(_) => true
  }

  // ---------------------------------------------------------------------
  // Array-index keys: the decimal strings "0", "1", ... without leading zeros

  predicate IsDigit(c: char) {
    '0' <= c <= '9'
  }

  predicate AllDigits(s: string) {
    forall i | 0 <= i < |s| :: IsDigit(s[i])
  }

  function Digit(d: nat): char
    requires d < 10
  {
    ('0' as int + d) as char
  }

  function DigitValue(c: char): nat
    requires IsDigit(c)
  {
    c as int - '0' as int
  }

  /** The value of a string of decimal digits, most significant first. */
  function DigitsValue(s: string): nat
    requires AllDigits(s)
  {
    if s == [] then 0 else DigitsValue(s[..|s| - 1]) * 10 + DigitValue(s[|s| - 1])
  }

  /** The canonical decimal spelling of `n`, which is how a property key names an index. */
  function Decimal(n: nat): (s: string)
    ensures s != [] && AllDigits(s)
    ensures s[0] == '0' <==> n == 0
    ensures DigitsValue(s) == n
    decreases n
  {
    if n < 10 then [Digit(n)]
    else
      var high := Decimal(n / 10);
      var s := high + [Digit(n % 10)];
      assert s[..|s| - 1] == high;
      s
  }

  /** The index a key denotes when it is a canonical decimal numeral, else None. */
  function CanonicalIndex(key: string): (r: Option<nat>)
    ensures r.Some? ==> key == Decimal(r.value)
  {
    if key != [] && AllDigits(key) && (key[0] != '0' || |key| == 1) then
      var n := DigitsValue(key);
      DecimalOfDigits(key);
      Some(n)
    else None
  }

  /** A canonical numeral is the decimal spelling of its own value. */
  lemma {:induction false} DecimalOfDigits(key: string)
    requires key != [] && AllDigits(key) && (key[0] != '0' || |key| == 1)
    ensures Decimal(DigitsValue(key)) == key
    decreases |key|
  {
    var last := key[|key| - 1];
    if |key| == 1 {
      assert DigitsValue(key) == DigitsValue([]) * 10 + DigitValue(last);
      assert Decimal(DigitValue(last)) == [Digit(DigitValue(last))];
    } else {
      var high := key[..|key| - 1];
      assert high[0] == key[0];
      DecimalOfDigits(high);
      var n := DigitsValue(key);
      assert n == DigitsValue(high) * 10 + DigitValue(last);
      assert DigitsValue(high) > 0;
      assert n / 10 == DigitsValue(high) && n % 10 == DigitValue(last);
      assert Decimal(n) == Decimal(n / 10) + [Digit(n % 10)];
      assert key == high + [last];
    }
  }

  /** Reading a decimal key back gives the index it spells. */
  lemma CanonicalIndexOfDecimal(n: nat)
    ensures CanonicalIndex(Decimal(n)) == Some(n)
  {
    var s := Decimal(n);
    assert s[0] != '0' || |s| == 1 by {
      if s[0] == '0' {
        assert n == 0;
      }
    }
  }

  // ---------------------------------------------------------------------
  // Property access

  /** The value of the first field named `key`, or `undefined` when there is none. */
  function FieldLookup(fields: seq<Field>, key: string): (r: Json)
    ensures (forall i | 0 <= i < |fields| :: fields[i].key != key) ==> r == Undefined
    ensures forall i | 0 <= i < |fields| && fields[i].key == key ::
              (forall j | 0 <= j < i :: fields[j].key != key) ==> r == fields[i].value
  {
    if fields == [] then Undefined
    else if fields[0].key == key then fields[0].value
    else
      var r := FieldLookup(fields[1..], key);
      assert forall i | 1 <= i < |fields| :: fields[1..][i - 1] == fields[i];
      r
  }

  /** The position of the first field named `key`, or the number of fields when there is none. */
  function IndexOfKey(fields: seq<Field>, key: string): (i: nat)
    ensures i <= |fields|
    ensures i < |fields| ==> fields[i].key == key
    ensures forall k | 0 <= k < i :: fields[k].key != key
  {
    if fields == [] || fields[0].key == key then 0
    else
      var i := 1 + IndexOfKey(fields[1..], key);
      assert forall k | 1 <= k < i :: fields[1..][k - 1] == fields[k];
      i
  }

  /** Plain access `v[key]` (also `v.key` and destructuring): a TypeError on a nullish value. */
  function Get(v: Json, key: string): (r: Completion<Json>)
    ensures r.TypeError? <==> Nullish(v)
    ensures r.Normal? && r.value != Undefined ==> v.Obj? || v.Arr? || v.Str?
  {
    match v
    case Undefined | Null => TypeError
    case Bool(_) | Num(_) => Normal(Undefined)
    case Str(s) =>
      (match CanonicalIndex(key)
       case Some(i) => if i < |s| then Normal(Str([s[i]])) else Normal(Undefined)
       case None => Normal(Undefined))
    case Arr(items) =>
      (match CanonicalIndex(key)
       case Some(i) => if i < |items| then Normal(items[i]) else Normal(Undefined)
       case None => Normal(Undefined))
    case Obj(fields) => Normal(FieldLookup(fields, key))
  }

  /** Optional access `v?.[key]`: `undefined` on a nullish value, never a TypeError. */
  function OptGet(v: Json, key: string): (r: Json)
    ensures Nullish(v) ==> r == Undefined
    ensures !Nullish(v) ==> Get(v, key) == Normal(r)
  {
    match Get(v, key)
    case Normal(x) => x
    case TypeError => Undefined
  }

  /** The keys of the first `n` array or string positions: each spells its own position. */
  function IndexKeys(n: nat): (ks: seq<string>)
    ensures |ks| == n
    ensures forall i | 0 <= i < n :: CanonicalIndex(ks[i]) == Some(i)
  {
    var ks := seq(n, i requires 0 <= i => Decimal(i));
    assert forall i | 0 <= i < n :: CanonicalIndex(ks[i]) == Some(i) by {
      forall i | 0 <= i < n
        ensures CanonicalIndex(ks[i]) == Some(i)
      {
        CanonicalIndexOfDecimal(i);
      }
    }
    ks
  }

  /**
   * `Object.keys(v)`: a TypeError on a nullish value, no keys on a boolean or a
   * number. An array or a string lists the canonical key of each position, and
   * reading a listed key back gives the element there; an object lists its
   * field keys in order, and reading one back gives the first field with it.
   */
  function ObjectKeys(v: Json): (r: Completion<seq<string>>)
    ensures r.TypeError? <==> Nullish(v)
    ensures v.Bool? || v.Num? ==> r == Normal([])
    ensures v.Arr? ==> |r.value| == |v.items|
                       && forall j | 0 <= j < |v.items| :: Get(v, r.value[j]) == Normal(v.items[j])
    ensures v.Str? ==> |r.value| == |v.s|
                       && forall j | 0 <= j < |v.s| :: Get(v, r.value[j]) == Normal(Str([v.s[j]]))
    ensures v.Arr? || v.Str? ==> forall j | 0 <= j < |r.value| :: CanonicalIndex(r.value[j]) == Some(j)
    ensures v.Obj? ==> |r.value| == |v.fields|
    ensures v.Obj? ==> forall j | 0 <= j < |v.fields| :: r.value[j] == v.fields[j].key
    ensures v.Obj? ==> forall j | 0 <= j < |v.fields| ::
              var i := IndexOfKey(v.fields, v.fields[j].key);
              i <= j && Get(v, r.value[j]) == Normal(v.fields[i].value)
  {
    match v
    case Undefined | Null => TypeError
    case Bool(_) | Num(_) => Normal([])
    case Str(s) => Normal(IndexKeys(|s|))
    case Arr(items) => Normal(IndexKeys(|items|))
    case Obj(fields) =>
      Normal(seq(|fields|, i requires 0 <= i < |fields| => fields[i].key))
  }

  // ---------------------------------------------------------------------
  // String.prototype.trim

  /** The WhiteSpace and LineTerminator code points that `trim` removes. */
  predicate IsWhitespace(c: char) {
    c == '\t' || c == '\n' || c == '\U{000B}' || c == '\U{000C}' || c == '\r' || c == ' '
    || c == '\U{00A0}' || c == '\U{1680}' || ('\U{2000}' <= c <= '\U{200A}')
    || c == '\U{2028}' || c == '\U{2029}' || c == '\U{202F}' || c == '\U{205F}'
    || c == '\U{3000}' || c == '\U{FEFF}'
  }

  predicate AllWhitespace(s: string) {
    forall i | 0 <= i < |s| :: IsWhitespace(s[i])
  }

  /** The length of the longest all-whitespace prefix. */
  function LeadingWhitespace(s: string): (n: nat)
    ensures n <= |s| && AllWhitespace(s[..n])
    ensures n < |s| ==> !IsWhitespace(s[n])
  {
    if s == [] || !IsWhitespace(s[0]) then 0
    else
      var m := LeadingWhitespace(s[1..]);
      assert s[..m + 1] == [s[0]] + s[1..][..m];
      m + 1
  }

  /** The length of the longest all-whitespace suffix. */
  function TrailingWhitespace(s: string): (n: nat)
    ensures n <= |s|
    ensures forall k | |s| - n <= k < |s| :: IsWhitespace(s[k])
    ensures n < |s| ==> !IsWhitespace(s[|s| - n - 1])
  {
    if s == [] || !IsWhitespace(s[|s| - 1]) then 0
    else TrailingWhitespace(s[..|s| - 1]) + 1
  }

  /** `s.trim()`: `s` without its leading and trailing whitespace. */
  function Trim(s: string): (r: string)
    ensures exists i | 0 <= i <= |s| - |r| ::
              r == s[i..i + |r|] && AllWhitespace(s[..i]) && AllWhitespace(s[i + |r|..])
    ensures r != [] ==> !IsWhitespace(r[0]) && !IsWhitespace(r[|r| - 1])
    ensures r == [] <==> AllWhitespace(s)
  {
    var i := LeadingWhitespace(s);
    var n := TrailingWhitespace(s[i..]);
    TrimmedSlice(s, i, n);
    s[i..|s| - n]
  }

  /** The slice left between the two whitespace runs has the properties `Trim` promises. */
  lemma TrimmedSlice(s: string, i: nat, n: nat)
    requires i == LeadingWhitespace(s) && n == TrailingWhitespace(s[i..])
    ensures i <= |s| - n
    ensures AllWhitespace(s[..i]) && AllWhitespace(s[|s| - n..])
    ensures var r := s[i..|s| - n];
            (r != [] ==> !IsWhitespace(r[0]) && !IsWhitespace(r[|r| - 1]))
            && (r == [] <==> AllWhitespace(s))
  {
    var rest := s[i..];
    assert s[|s| - n..] == rest[|rest| - n..];
    TrimmedSliceEnds(s, i, n);
    TrimmedSliceBlank(s, i, n);
  }

  lemma TrimmedSliceEnds(s: string, i: nat, n: nat)
    requires i == LeadingWhitespace(s) && n == TrailingWhitespace(s[i..])
    ensures i <= |s| - n
    ensures var r := s[i..|s| - n];
            r != [] ==> !IsWhitespace(r[0]) && !IsWhitespace(r[|r| - 1])
  {
    var rest := s[i..];
    var r := s[i..|s| - n];
    if r != [] {
      assert r[0] == s[i];
      assert r[|r| - 1] == rest[|rest| - n - 1];
    }
  }

  lemma TrimmedSliceBlank(s: string, i: nat, n: nat)
    requires i == LeadingWhitespace(s) && n == TrailingWhitespace(s[i..])
    ensures s[i..|s| - n] == [] <==> AllWhitespace(s)
  {
    var rest := s[i..];
    if i + n == |s| {
      forall k | 0 <= k < |s|
        ensures IsWhitespace(s[k])
      {
        assert k < i ==> s[..i][k] == s[k];
      }
    }
  }

  /** Trimming twice is trimming once. */
  lemma TrimIdempotent(s: string)
    ensures Trim(Trim(s)) == Trim(s)
  {
    var r := Trim(s);
    assert LeadingWhitespace(r) == 0;
    assert TrailingWhitespace(r[LeadingWhitespace(r)..]) == 0;
  }
}
