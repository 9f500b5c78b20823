/** The string operations the code relies on: `str()` of an integer, `sep.join(...)`,
    and the `str.split` a receiver of a joined parameter would apply. */
module Text {
  import opened Wrappers
  import opened Values

  predicate IsDigit(c: char) { '0' <= c <= '9' }

  function DigitChar(d: nat): (c: char)
    requires d < 10
    ensures IsDigit(c) && c as int - '0' as int == d
  {
    "0123456789"[d]
  }

  /** Decimal digits of `n`, most significant first, without leading zeros. */
  function NatToString(n: nat): (s: string)
    ensures |s| > 0 && forall i :: 0 <= i < |s| ==> IsDigit(s[i])
    decreases n
  {
    if n < 10 then [DigitChar(n)] else NatToString(n / 10) + [DigitChar(n % 10)]
  }

  /** Python's `str(i)` for an `int`. */
  function IntToString(i: int): (s: string)
    ensures |s| > 0
  {
    if i < 0 then "-" + NatToString(-i) else NatToString(i)
  }

  function DigitValue(c: char): nat
    requires IsDigit(c)
  {
    c as int - '0' as int
  }

  /** The number a run of decimal digits denotes. */
  function DecimalValue(s: string): nat
    requires forall i :: 0 <= i < |s| ==> IsDigit(s[i])
  {
    if s == [] then 0 else DecimalValue(s[..|s| - 1]) * 10 + DigitValue(s[|s| - 1])
  }

  predicate AllDigits(s: string) { |s| > 0 && forall i :: 0 <= i < |s| ==> IsDigit(s[i]) }

  /** Python's `int(s)` restricted to the forms `str(i)` produces: digits, optionally after a minus. */
  function ParseInt(s: string): Option<int> {
    if |s| > 0 && s[0] == '-' && AllDigits(s[1..]) then var v: int := DecimalValue(s[1..]); Some(-v)
    else if AllDigits(s) then Some(DecimalValue(s))
    else None
  }

  lemma {:induction false} NatToStringValue(n: nat)
    ensures DecimalValue(NatToString(n)) == n
    decreases n
  {
    var s := NatToString(n);
    if n >= 10 {
      NatToStringValue(n / 10);
      assert s[..|s| - 1] == NatToString(n / 10);
    }
  }

  /** Reading back `str(i)` gives `i`: the decimal rendering loses nothing. */
  lemma IntToStringRoundTrip(i: int)
    ensures ParseInt(IntToString(i)) == Some(i)
  {
    var s := IntToString(i);
    if i < 0 {
      var n: nat := -i;
      assert s == "-" + NatToString(n);
      assert s[1..] == NatToString(n);
      NatToStringValue(n);
      assert AllDigits(s[1..]);
    } else {
      var n: nat := i;
      assert s == NatToString(n);
      NatToStringValue(n);
      assert IsDigit(s[0]);
      assert AllDigits(s);
    }
  }

  /** `sep.join(parts)`. */
  function Join(parts: seq<string>, sep: string): (s: string)
    ensures parts == [] ==> s == ""
    ensures |parts| == 1 ==> s == parts[0]
  {
    if parts == [] then ""
    else if |parts| == 1 then parts[0]
    else parts[0] + sep + Join(parts[1..], sep)
  }

  /** `s.split(sep)` for a one-character separator: never empty; "" splits into [""]. */
  function Split(s: string, sep: char): (r: seq<string>)
    ensures |r| > 0
    decreases |s|
  {
    if s == [] then [""]
    else if s[0] == sep then [""] + Split(s[1..], sep)
    else var rest := Split(s[1..], sep); [[s[0]] + rest[0]] + rest[1..]
  }

  lemma {:induction false} SplitSeparatorFreePrefix(x: string, t: string, sep: char)
    requires sep !in x
    ensures Split(x + t, sep) == [x + Split(t, sep)[0]] + Split(t, sep)[1..]
    decreases |x|
  {
    if x != [] {
      assert (x + t)[0] == x[0];
      assert (x + t)[1..] == x[1..] + t;
      SplitSeparatorFreePrefix(x[1..], t, sep);
      assert [x[0]] + (x[1..] + Split(t, sep)[0]) == x + Split(t, sep)[0];
    } else {
      var r := Split(t, sep);
      assert x + t == t;
      assert x + r[0] == r[0];
      assert r == [r[0]] + r[1..];
    }
  }

  /** Splitting a comma-joined list gives the list back, provided no element contains the
      separator and the list is not empty. */
  lemma {:induction false} SplitJoinRoundTrip(parts: seq<string>, sep: char)
    requires |parts| > 0
    requires forall i :: 0 <= i < |parts| ==> sep !in parts[i]
    ensures Split(Join(parts, [sep]), sep) == parts
    decreases |parts|
  {
    if |parts| == 1 {
      SplitSeparatorFreePrefix(parts[0], "", sep);
      assert parts[0] + "" == parts[0];
    } else {
      var j := Join(parts[1..], [sep]);
      assert Join(parts, [sep]) == parts[0] + [sep] + j;
      SplitJoinRoundTrip(parts[1..], sep);
      assert parts[0] + [sep] + j == parts[0] + ([sep] + j);
      SplitSeparatorFreePrefix(parts[0], [sep] + j, sep);
      assert ([sep] + j)[1..] == j;
      assert Split([sep] + j, sep) == [""] + parts[1..];
      assert parts[0] + "" == parts[0];
      assert parts == [parts[0]] + parts[1..];
    }
  }

  /** The empty list and the list holding one empty string are sent as the same text. */
  lemma EmptyAndBlankListsJoinAlike(sep: string)
    ensures Join([], sep) == Join([""], sep) == ""
  {
  }

  /** `repr(v)`, as Python writes a value inside a list. Strings are quoted with `'` (Python's
      choice of quote and its escapes are not modelled); a dictionary is written `{...}`
      because a `map` keeps no key order to print in. */
  function Repr(v: Value): (r: string)
    ensures v.Int? ==> ParseInt(r) == Some(v.i)
    ensures v.Str? ==> |r| == |v.s| + 2 && r[0] == '\'' == r[|r| - 1] && r[1..|r| - 1] == v.s
    ensures v.List? ==> |r| >= 2 && r[0] == '[' && r[|r| - 1] == ']'
  {
    match v
    case Null => "None"
    case Bool(b) => if b then "True" else "False"
    case Int(i) => IntToStringRoundTrip(i); IntToString(i)
    case Num(f) => f.text
    case Str(s) => "'" + s + "'"
    case List(items) => "[" + Join(seq(|items|, k requires 0 <= k < |items| => Repr(items[k])), ", ") + "]"
    case Object(_) => "{...}"
  }

  /** `str(v)`: a string is itself; anything else is its `repr`. */
  function PyStr(v: Value): (s: string)
    ensures v.Str? ==> s == v.s
    ensures v.Int? ==> ParseInt(s) == Some(v.i)
  {
    if v.Int? then IntToStringRoundTrip(v.i); IntToString(v.i)
    else if v.Str? then v.s
    else Repr(v)
  }
}
