/**
 * The PHP scalars that the client passes through untyped parameters, with the
 * language's truthiness and string conversion. Floats are not part of this model.
 */
module Values {

  datatype Value = Bool(b: bool) | Int(i: int) | Str(s: string)

  /** PHP `empty()` on a string: the empty string and "0". */
  predicate EmptyString(s: string)
  {
    s == "" || s == "0"
  }

  /** PHP's conversion of a scalar to boolean, as in `if ($v)`. */
  predicate Truthy(v: Value)
  {
    match v
    case Bool(b) => b
    case Int(i) => i != 0
    case Str(s) => !EmptyString(s)
  }

  /** The decimal digit for `d`. */
  function DigitChar(d: nat): char
    requires d < 10
  {
    ('0' as int + d) as char
  }

  function NatToString(n: nat): string
    decreases n
  {
    if n < 10 then [DigitChar(n)] else NatToString(n / 10) + [DigitChar(n % 10)]
  }

  /** PHP's conversion of a scalar to string, as in `'...' . $v`. */
  function ToPhpString(v: Value): string
  {
    match v
    case Bool(b) => if b then "1" else ""
    case Int(i) => if i < 0 then "-" + NatToString(-i) else NatToString(i)
    case Str(s) => s
  }

  predicate IsDigit(c: char)
  {
    '0' <= c <= '9'
  }

  /** The length of the longest prefix of `s` made of decimal digits. */
  function DigitRun(s: string): (n: nat)
    ensures n <= |s|
    ensures forall k :: 0 <= k < n ==> IsDigit(s[k])
    ensures n < |s| ==> !IsDigit(s[n])
  {
    if s != [] && IsDigit(s[0]) then 1 + DigitRun(s[1..]) else 0
  }

  /** The value of a string of decimal digits. */
  function DigitsValue(d: string): nat
    requires forall k :: 0 <= k < |d| ==> IsDigit(d[k])
  {
    if d == [] then 0
    else
      assert IsDigit(d[|d| - 1]);
      DigitsValue(d[..|d| - 1]) * 10 + (d[|d| - 1] as int - '0' as int)
  }

  /** The white space PHP skips before a number: space, \t, \n, \r, \v and \f. */
  predicate IsNumericSpace(c: char)
  {
    c == ' ' || c == '\t' || c == '\n' || c == '\r' || c == '\U{B}' || c == '\U{C}'
  }

  /** The string with its leading white space removed: only white space is skipped, and all of it. */
  function SkipSpace(s: string): (r: string)
    ensures |r| <= |s| && r == s[|s| - |r|..]
    ensures forall k :: 0 <= k < |s| - |r| ==> IsNumericSpace(s[k])
    ensures r != [] ==> !IsNumericSpace(r[0])
  {
    if s != [] && IsNumericSpace(s[0]) then SkipSpace(s[1..]) else s
  }

  /**
   * PHP's `(int)` on a string: leading white space, an optional sign and
   * the longest run of digits that follows; 0 when there are none.
   */
  function StringToInt(s: string): int
  {
    var t := SkipSpace(s);
    if t != [] && (t[0] == '-' || t[0] == '+') then
      var u := t[1..];
      var n: int := DigitsValue(u[..DigitRun(u)]);
      if t[0] == '-' then -n else n
    else
      DigitsValue(t[..DigitRun(t)])
  }

  lemma {:induction false} NatToStringDigits(n: nat)
    ensures |NatToString(n)| >= 1
    ensures forall k :: 0 <= k < |NatToString(n)| ==> IsDigit(NatToString(n)[k])
    ensures DigitsValue(NatToString(n)) == n
    decreases n
  {
    var s := NatToString(n);
    if n < 10 {
      assert s == [DigitChar(n)];
      assert s[..0] == [];
    } else {
      var p := NatToString(n / 10);
      NatToStringDigits(n / 10);
      assert s == p + [DigitChar(n % 10)];
      assert s[..|s| - 1] == p;
      forall k | 0 <= k < |s|
        ensures IsDigit(s[k])
      {
        if k < |p| {
          assert s[k] == p[k];
        }
      }
      assert DigitsValue(s) == DigitsValue(p) * 10 + n % 10;
    }
  }

  /** A string of digits, with nothing before it, reads back as its value. */
  lemma DigitsRead(d: string)
    requires |d| >= 1 && forall k :: 0 <= k < |d| ==> IsDigit(d[k])
    ensures StringToInt(d) == DigitsValue(d)
  {
    DigitRunAll(d);
    assert IsDigit(d[0]) && !IsNumericSpace(d[0]);
    assert SkipSpace(d) == d;
    assert d[0] != '-' && d[0] != '+';
    assert d[..DigitRun(d)] == d;
  }

  /** A minus sign followed by digits reads back as the negated value. */
  lemma NegativeDigitsRead(d: string)
    requires |d| >= 1 && forall k :: 0 <= k < |d| ==> IsDigit(d[k])
    ensures StringToInt("-" + d) == 0 - DigitsValue(d) as int
  {
    DigitRunAll(d);
    var m := "-" + d;
    assert SkipSpace(m) == m;
    assert m[1..] == d;
    assert d[..|d|] == d;
  }

  /** Reading back a number PHP printed gives that number. */
  lemma StringToIntOfPhpString(i: int)
    ensures StringToInt(ToPhpString(Int(i))) == i
  {
    var m: nat := if i < 0 then -i else i;
    NatToStringDigits(m);
    if i < 0 {
      NegativeDigitsRead(NatToString(m));
    } else {
      DigitsRead(NatToString(m));
    }
  }

  lemma {:induction false} DigitRunAll(d: string)
    requires forall k :: 0 <= k < |d| ==> IsDigit(d[k])
    ensures DigitRun(d) == |d|
  {
    if d != [] {
      DigitRunAll(d[1..]);
    }
  }
}
