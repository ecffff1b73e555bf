/** The fragment of PHP's value model that the payment client relies on:
    scalars, ordered arrays with string keys, the `empty()` test, string
    conversion for `.` concatenation, and the `$a[$k] = $v` update. */
module PhpValues {

  datatype Option<T> = None | Some(value: T)

  /** A PHP value as it appears in a config array, a request field or a
      decoded JSON response. Floats are not modelled. */
  datatype Value =
    | Null
    | Bool(b: bool)
    | Int(i: int)
    | Str(s: string)
    | Arr(entries: seq<Entry>)

  /** One key/value pair of an ordered PHP array. */
  datatype Entry = Entry(key: string, value: Value)

  /** A PHP array with string keys: insertion order is kept. */
  type PhpArray = seq<Entry>

  /** PHP's `empty($v)`: null, false, 0, "", "0" and the empty array. */
  predicate Empty(v: Value) {
    match v
    case Null => true
    case Bool(b) => !b
    case Int(i) => i == 0
    case Str(s) => s == "" || s == "0"
    case Arr(entries) => entries == []
  }

  /** The keys of `a`, in order. */
  function Keys(a: PhpArray): (ks: seq<string>)
    ensures |ks| == |a|
  {
    seq(|a|, i requires 0 <= i < |a| => a[i].key)
  }

  /** The keys of a non-empty array: its first key, then the keys of the rest. */
  lemma KeysOfTail(a: PhpArray)
    requires a != []
    ensures Keys(a) == [a[0].key] + Keys(a[1..])
  {
  }

  /** The value stored under `k` (the first entry with that key). */
  function Lookup(a: PhpArray, k: string): (r: Option<Value>)
    ensures r.None? <==> k !in Keys(a)
  {
    if a == [] then None
    else
      KeysOfTail(a);
      if a[0].key == k then Some(a[0].value) else Lookup(a[1..], k)
  }

  /** No key occurs twice, as in every PHP array. */
  ghost predicate DistinctKeys(a: PhpArray) {
    var ks := Keys(a);
    forall i, j :: 0 <= i < j < |ks| ==> ks[i] != ks[j]
  }

  /** In an array without repeated keys, `$a[$k]` reads the entry with key `k`. */
  lemma {:induction false} LookupDistinct(a: PhpArray, i: nat)
    requires i < |a| && DistinctKeys(a)
    ensures Lookup(a, a[i].key) == Some(a[i].value)
  {
    if i > 0 {
      KeysOfTail(a);
      assert Keys(a)[0] != Keys(a)[i];
      assert Keys(a[1..]) == Keys(a)[1..];
      LookupDistinct(a[1..], i - 1);
    }
  }

  /** `$a[$k]` with a fallback: the stored value, or `default` when the key
      is absent. With `default == Null` this is what PHP reads for a missing
      index. */
  function Get(a: PhpArray, k: string, default: Value := Null): (v: Value)
    ensures Lookup(a, k).Some? ==> v == Lookup(a, k).value
    ensures k !in Keys(a) ==> v == default
  {
    match Lookup(a, k)
    case Some(v) => v
    case None => default
  }

  /** `$a[$k] = $v`: an existing key keeps its position and takes the new
      value; a new key is appended at the end. */
  function Set(a: PhpArray, k: string, v: Value): PhpArray {
    if a == [] then [Entry(k, v)]
    else if a[0].key == k then [Entry(k, v)] + a[1..]
    else [a[0]] + Set(a[1..], k, v)
  }

  /** `$a[$k] = $v` for a key `a` lacks appends `k => v` at the end. */
  lemma {:induction false} SetAppendsNewKey(a: PhpArray, k: string, v: Value)
    requires k !in Keys(a)
    ensures Set(a, k, v) == a + [Entry(k, v)]
  {
    if a != [] {
      KeysOfTail(a);
      SetAppendsNewKey(a[1..], k, v);
      assert [a[0]] + (a[1..] + [Entry(k, v)]) == a + [Entry(k, v)];
    }
  }

  /** After `$a[$k] = $v`, `$a[$k]` reads `v`. */
  lemma {:induction false} SetReadsBack(a: PhpArray, k: string, v: Value)
    ensures Lookup(Set(a, k, v), k) == Some(v)
  {
    if a != [] && a[0].key != k {
      SetReadsBack(a[1..], k, v);
      assert Set(a, k, v)[1..] == Set(a[1..], k, v);
    }
  }

  /** `$a[$k] = $v` keeps the keys of `a` in their order, and appends `k`
      when it was new. */
  lemma {:induction false} SetKeys(a: PhpArray, k: string, v: Value)
    ensures Keys(Set(a, k, v)) == if k in Keys(a) then Keys(a) else Keys(a) + [k]
  {
    if a == [] {
      assert Keys([Entry(k, v)]) == [k];
    } else {
      KeysOfTail(a);
      var r := Set(a, k, v);
      KeysOfTail(r);
      if a[0].key != k {
        SetKeys(a[1..], k, v);
        assert r[1..] == Set(a[1..], k, v);
      } else {
        assert r[1..] == a[1..];
      }
    }
  }

  /** `$a[$k] = $v` leaves every other key's value as it was. */
  lemma {:induction false} SetKeepsOthers(a: PhpArray, k: string, v: Value, k': string)
    requires k' != k
    ensures Lookup(Set(a, k, v), k') == Lookup(a, k')
  {
    if a != [] && a[0].key != k {
      SetKeepsOthers(a[1..], k, v, k');
      assert Set(a, k, v)[1..] == Set(a[1..], k, v);
    }
  }

  /** The character of a decimal digit. */
  function DigitChar(d: nat): (c: char)
    requires d < 10
    ensures '0' <= c <= '9' && c as int - '0' as int == d
  {
    "0123456789"[d]
  }

  /** The decimal digits of `n`, most significant first, without leading zeros. */
  function NatDigits(n: nat): (s: string)
    ensures |s| > 0
    ensures forall i :: 0 <= i < |s| ==> '0' <= s[i] <= '9'
    ensures |s| > 1 ==> s[0] != '0'
  {
    if n < 10 then [DigitChar(n)] else NatDigits(n / 10) + [DigitChar(n % 10)]
  }

  /** The number a string of decimal digits denotes. */
  function DigitsValue(s: string): nat
    requires forall i :: 0 <= i < |s| ==> '0' <= s[i] <= '9'
  {
    if s == [] then 0
    else DigitsValue(s[..|s| - 1]) * 10 + (s[|s| - 1] as int - '0' as int)
  }

  /** PHP's conversion of an integer to a string: optional minus sign, then
      decimal digits. */
  function IntString(i: int): (s: string)
    ensures |s| > 0
    ensures i >= 0 ==> '0' <= s[0] <= '9'
    ensures i < 0 ==> s[0] == '-'
  {
    if i < 0 then "-" + NatDigits(-i) else NatDigits(i)
  }

  /** Reads back an optionally signed decimal string. */
  function IntValue(s: string): int
    requires |s| > 0
    requires forall i :: (if s[0] == '-' then 1 else 0) <= i < |s| ==> '0' <= s[i] <= '9'
  {
    if s[0] == '-' then -(DigitsValue(s[1..]) as int) else DigitsValue(s)
  }

  /** PHP's string conversion as applied by the `.` operator: null and false
      become "", true becomes "1", integers their decimal form, arrays the
      word "Array". */
  function ToPhpString(v: Value): (s: string)
    ensures v.Str? ==> s == v.s
    ensures v.Null? ==> s == ""
  {
    match v
    case Null => ""
    case Bool(b) => if b then "1" else ""
    case Int(i) => IntString(i)
    case Str(s) => s
    case Arr(_) => "Array"
  }

  /** Reading back the digits of a natural number gives the number. */
  lemma {:induction false} DigitsRoundTrip(n: nat)
    ensures DigitsValue(NatDigits(n)) == n
  {
    if n >= 10 {
      DigitsRoundTrip(n / 10);
      var s := NatDigits(n);
      assert s[..|s| - 1] == NatDigits(n / 10);
    }
  }

  /** The string form of an integer determines the integer: no two integers
      print alike in a message. */
  lemma IntStringRoundTrip(i: int)
    ensures IntValue(IntString(i)) == i
  {
    if i < 0 {
      DigitsRoundTrip(-i);
      assert IntString(i)[1..] == NatDigits(-i);
    } else {
      DigitsRoundTrip(i);
    }
  }
}
