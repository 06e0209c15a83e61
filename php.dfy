/** The PHP values the connectors handle: arrays decoded from JSON, the
    decimal rendering PHP gives an `int` inside a string concatenation,
    `empty()` on a string and `array_merge` on string-keyed arrays. */
module Php {

  datatype Option<+T> = None | Some(value: T) {
    /** The `??` operator: the value, or the default when there is none. */
    function GetOr(default: T): (r: T)
      ensures Some? ==> r == value
      ensures None? ==> r == default
    {
      match this
      case Some(v) => v
      case None => default
    }
  }

  /** A value as `json_decode($s, true)` produces it: JSON objects become
      string-keyed arrays (`Arr`), JSON lists become `List`. */
  datatype Value =
    | Null
    | Bool(b: bool)
    | Int(i: int)
    | Str(s: string)
    | List(items: seq<Value>)
    | Arr(entries: map<string, Value>)

  /** A string-keyed PHP array. */
  type Assoc = map<string, Value>

  /** `empty($s)` for a string: true for the empty string and for "0". */
  predicate Empty(s: string)
    ensures Empty(s) <==> |s| <= 1 && forall i :: 0 <= i < |s| ==> s[i] == '0'
  {
    s == "" || s == "0"
  }

  /** `array_merge($base, $extra)` on string keys: every key of either array,
      the value from `$extra` where both have the key. */
  function Merge(base: Assoc, extra: Assoc): (r: Assoc)
    ensures r.Keys == base.Keys + extra.Keys
    ensures forall k :: k in extra ==> r[k] == extra[k]
    ensures forall k :: k in base && k !in extra ==> r[k] == base[k]
  {
    base + extra
  }

  /** Merging the same array twice changes nothing the first merge did not. */
  lemma MergeIdempotent(base: Assoc, extra: Assoc)
    ensures Merge(Merge(base, extra), extra) == Merge(base, extra)
  {
  }

  predicate IsDigit(c: char) {
    '0' <= c <= '9'
  }

  predicate AllDigits(s: string) {
    forall i :: 0 <= i < |s| ==> IsDigit(s[i])
  }

  function DigitChar(d: nat): (c: char)
    requires d < 10
    ensures IsDigit(c) && c as int - '0' as int == d
  {
    ('0' as int + d) as char
  }

  /** The decimal digits of a natural number, most significant first, with
      no leading zero. */
  function NatToString(n: nat): (s: string)
    ensures |s| > 0 && AllDigits(s)
    ensures s[0] == '0' ==> n == 0
    decreases n
  {
    if n < 10 then [DigitChar(n)]
    else
      var t := NatToString(n / 10);
      assert (t + [DigitChar(n % 10)])[0] == t[0];
      t + [DigitChar(n % 10)]
  }

  /** The number a string of decimal digits denotes. */
  function DigitsValue(s: string): nat
    requires AllDigits(s)
    decreases |s|
  {
    if |s| == 0 then 0
    else DigitsValue(s[..|s| - 1]) * 10 + (s[|s| - 1] as int - '0' as int)
  }

  lemma {:induction false} DigitsValueOfNatToString(n: nat)
    ensures DigitsValue(NatToString(n)) == n
    decreases n
  {
    if n >= 10 {
      DigitsValueOfNatToString(n / 10);
      var s := NatToString(n);
      assert s[..|s| - 1] == NatToString(n / 10);
    }
  }

  /** What `'...' . $n` writes for an `int $n`: its decimal digits with no
      leading zero, after a '-' when it is negative. */
  function IntToString(n: int): (s: string)
    ensures |s| > 0
    ensures s[0] == '-' <==> n < 0
    ensures forall i :: 0 <= i < |s| ==> s[i] == '-' || IsDigit(s[i])
    ensures forall i :: 1 <= i < |s| ==> IsDigit(s[i])
    ensures s[0] == '0' ==> s == "0"
    ensures n < 0 ==> |s| > 1 && s[1] != '0'
  {
    if n < 0 then
      var t := NatToString(-n);
      assert ("-" + t)[1] == t[0];
      "-" + t
    else NatToString(n)
  }

  /** Reads back a decimal integer as `IntToString` writes it. */
  function ParseInt(s: string): Option<int> {
    if |s| > 1 && s[0] == '-' && AllDigits(s[1..]) then
      var magnitude: int := DigitsValue(s[1..]);
      Some(-magnitude)
    else if |s| > 0 && AllDigits(s) then Some(DigitsValue(s))
    else None
  }

  /** The rendering loses nothing: distinct integers give distinct strings. */
  lemma {:induction false} IntToStringRoundTrip(n: int)
    ensures ParseInt(IntToString(n)) == Some(n)
  {
    if n < 0 {
      DigitsValueOfNatToString(-n);
      assert IntToString(n)[1..] == NatToString(-n);
    } else {
      DigitsValueOfNatToString(n);
      assert IntToString(n)[0] != '-';
    }
  }
}
