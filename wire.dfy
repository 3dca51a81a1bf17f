/**
 * Values handed to the compiler by a query builder, and the array-shaped
 * wire documents the compiler produces.
 *
 * A PHP array is either list-shaped (built by appending) or keyed by
 * strings; the two shapes are kept apart here as `JList` and `JMap`.
 * A `JMap` keeps its entries in insertion order, as a PHP array does.
 */
module Wire {

  datatype Option<+T> = None | Some(value: T) {
    /** The `??` operator: the value when present, `default` otherwise. */
    function GetOr(default: T): T {
      match this
      case Some(v) => v
      case None => default
    }
  }

  /** A field value supplied by the builder: a string, an integer or an array of values. */
  datatype Value =
    | Str(s: string)
    | Int(i: int)
    | Arr(items: seq<Value>)

  /** A document in the wire format of the search engine's query language. */
  datatype Json =
    | Atom(v: Value)
    | JList(items: seq<Json>)
    | JMap(entries: seq<(string, Json)>)
    | EmptyObject   // the `new stdClass()` payload of `match_all`

  /** The value stored under `key`, if any (the first entry with that key). */
  function Lookup(entries: seq<(string, Json)>, key: string): (r: Option<Json>)
    ensures r.Some? <==> exists i :: 0 <= i < |entries| && entries[i].0 == key
  {
    if entries == [] then None
    else if entries[0].0 == key then Some(entries[0].1)
    else
      var r := Lookup(entries[1..], key);
      assert forall i :: 1 <= i < |entries| ==> entries[i] == entries[1..][i - 1];
      r
  }

  /** The keys of a keyed array, in order. */
  function Keys(entries: seq<(string, Json)>): (ks: seq<string>)
    ensures |ks| == |entries|
    ensures forall i :: 0 <= i < |entries| ==> ks[i] == entries[i].0
  {
    if entries == [] then [] else [entries[0].0] + Keys(entries[1..])
  }

  /**
   * PHP's `$a[key] = v`: an existing key keeps its position and takes the
   * new value, a new key is appended at the end.
   */
  function SetKey(entries: seq<(string, Json)>, key: string, v: Json): (r: seq<(string, Json)>)
    ensures key !in Keys(entries) ==> r == entries + [(key, v)]
    ensures key in Keys(entries) ==> |r| == |entries| && Keys(r) == Keys(entries)
    ensures Lookup(r, key) == Some(v)
    ensures forall k :: k != key ==> Lookup(r, k) == Lookup(entries, k)
  {
    if entries == [] then [(key, v)]
    else if entries[0].0 == key then [(key, v)] + entries[1..]
    else
      var rest := SetKey(entries[1..], key, v);
      assert Keys(entries) == [entries[0].0] + Keys(entries[1..]);
      [entries[0]] + rest
  }

  /** The decimal digits of a natural number, most significant first. */
  function Digits(n: nat): (r: string)
    ensures |r| > 0
    ensures forall i :: 0 <= i < |r| ==> '0' <= r[i] <= '9'
    ensures n == 0 ==> r == "0"
    ensures n > 0 ==> r[0] != '0'
    decreases n
  {
    var d := [('0' as int + n % 10) as char];
    if n < 10 then d else Digits(n / 10) + d
  }

  /** The number a string of decimal digits denotes, most significant first (each character counts as its offset from `0`). */
  function DigitsValue(s: string): int {
    if s == [] then 0
    else DigitsValue(s[..|s| - 1]) * 10 + (s[|s| - 1] as int - '0' as int)
  }

  /** The digits of `n` read back as a number give `n`. */
  lemma {:induction false} DigitsRoundTrip(n: nat)
    ensures DigitsValue(Digits(n)) == n
    decreases n
  {
    var d := [('0' as int + n % 10) as char];
    if n >= 10 {
      var hi := Digits(n / 10);
      assert (hi + d)[..|hi + d| - 1] == hi;
      DigitsRoundTrip(n / 10);
    }
  }

  /** PHP's conversion of a value to a string, as done by the `.` operator. */
  function ToText(v: Value): string {
    match v
    case Str(s) => s
    case Int(i) => if i < 0 then "-" + Digits(-i) else Digits(i)
    case Arr(_) => "Array"   // PHP warns "Array to string conversion" and uses this text
  }

  /** The text of a negative number: a `-` followed by the digits of its magnitude, the first of them not `0`. */
  lemma {:induction false} NegativeText(i: int)
    requires i < 0
    ensures |ToText(Int(i))| > 1 && ToText(Int(i))[0] == '-'
    ensures forall j :: 1 <= j < |ToText(Int(i))| ==> '0' <= ToText(Int(i))[j] <= '9'
    ensures DigitsValue(ToText(Int(i))[1..]) == -i
    ensures ToText(Int(i))[1] != '0'
  {
    var d := Digits(-i);
    var r := "-" + d;
    assert ToText(Int(i)) == r;
    assert r[1..] == d;
    DigitsRoundTrip(-i);
  }

  /** The text of a non-negative number: its digits, with no leading `0` unless it is zero. */
  lemma {:induction false} NonNegativeText(i: int)
    requires i >= 0
    ensures ToText(Int(i)) == Digits(i)
    ensures DigitsValue(ToText(Int(i))) == i
  {
    DigitsRoundTrip(i);
  }

  /**
   * The text of an integer is its decimal digits, with a leading `-`
   * exactly when it is negative and no leading zero (zero itself is "0");
   * the digits read back give its magnitude.
   */
  lemma {:induction false} ToTextOfInt(i: int)
    ensures |ToText(Int(i))| > 0 && (ToText(Int(i))[0] == '-' <==> i < 0)
    ensures i >= 0 ==> (forall j :: 0 <= j < |ToText(Int(i))| ==> '0' <= ToText(Int(i))[j] <= '9')
                       && DigitsValue(ToText(Int(i))) == i
    ensures i < 0 ==> (forall j :: 1 <= j < |ToText(Int(i))| ==> '0' <= ToText(Int(i))[j] <= '9')
                      && DigitsValue(ToText(Int(i))[1..]) == -i
    ensures i == 0 ==> ToText(Int(i)) == "0"
    ensures i > 0 ==> ToText(Int(i))[0] != '0'
    ensures i < 0 ==> |ToText(Int(i))| > 1 && ToText(Int(i))[1] != '0'
  {
    if i < 0 {
      NegativeText(i);
    } else {
      NonNegativeText(i);
    }
  }


  /** `str_replace("%", "*", s)`: every `%` becomes `*`, everything else is kept. */
  function ReplacePercent(s: string): (r: string)
    ensures |r| == |s|
    ensures forall i :: 0 <= i < |s| ==> r[i] == (if s[i] == '%' then '*' else s[i])
    ensures '%' !in r
  {
    if s == [] then []
    else [if s[0] == '%' then '*' else s[0]] + ReplacePercent(s[1..])
  }
}
