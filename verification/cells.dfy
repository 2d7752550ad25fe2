/** Optional and fallible values, used in place of Python's None and raised exceptions. */
module Results {

  datatype Option<+T> = None | Some(value: T)

  datatype Result<+R, +E> = Success(value: R) | Failure(error: E)
}

/**
 The untyped value of one spreadsheet cell as the synchroniser receives it, together with
 the two Python operations the synchroniser applies to such values: `==` (and `in` on a
 tuple, which is built on it) and `str()` (used when an error message mentions a value).
 */
module Cells {

  import opened Results

  /** A cell holds a string, an integer, a boolean, or nothing (Python's None). */
  datatype Cell = Str(s: string) | Int(i: int) | Bool(b: bool) | Empty

  function BoolAsInt(b: bool): int {
    if b then 1 else 0
  }

  /** Python's `==`: a bool compares equal to the integer 0 or 1, strings never equal numbers. */
  predicate PyEq(a: Cell, b: Cell) {
    match (a, b)
    case (Str(x), Str(y)) => x == y
    case (Int(x), Int(y)) => x == y
    case (Bool(x), Bool(y)) => x == y
    case (Bool(x), Int(y)) => y == BoolAsInt(x)
    case (Int(x), Bool(y)) => x == BoolAsInt(y)
    case (Empty, Empty) => true
    case _ => false
  }

  /** Python's `a in (x0, x1, ...)` on a tuple of literals. */
  predicate PyIn(a: Cell, xs: seq<Cell>) {
    exists k | 0 <= k < |xs| :: PyEq(a, xs[k])
  }

  /** Comparing with a string literal is plain equality: no other kind of cell equals a string. */
  lemma PyEqString(a: Cell, s: string)
    ensures PyEq(a, Str(s)) <==> a == Str(s)
  {
  }

  predicate IsDigit(ch: char) {
    '0' <= ch <= '9'
  }

  function DigitChar(d: nat): (ch: char)
    requires d < 10
    ensures IsDigit(ch) && ch as int - '0' as int == d
  {
    (d + '0' as int) as char
  }

  /** Decimal digits of `n`, most significant first, without leading zeros. */
  function NatToString(n: nat): (r: string)
    ensures |r| >= 1
    ensures forall k :: 0 <= k < |r| ==> IsDigit(r[k])
    decreases n
  {
    if n < 10 then [DigitChar(n)] else NatToString(n / 10) + [DigitChar(n % 10)]
  }

  /** Python's `str()` / f-string rendering of an integer. */
  function IntToString(i: int): string {
    if i < 0 then "-" + NatToString(-i) else NatToString(i)
  }

  /** Python's `str()` of a cell value, as it appears inside the synchroniser's error messages. */
  function Show(c: Cell): string {
    match c
    case Str(s) => s
    case Int(i) => IntToString(i)
    case Bool(b) => if b then "True" else "False"
    case Empty => "None"
  }

  /** Reads a non-empty run of decimal digits back as a number. */
  function ParseNat(s: string): Option<nat>
    decreases |s|
  {
    if |s| == 0 || !IsDigit(s[|s| - 1]) then None
    else if |s| == 1 then Some(s[0] as int - '0' as int)
    else match ParseNat(s[..|s| - 1])
      case None => None
      case Some(high) => Some(high * 10 + (s[|s| - 1] as int - '0' as int))
  }

  /** Reads an optionally signed decimal integer back. */
  function ParseInt(s: string): Option<int> {
    if |s| > 0 && s[0] == '-' then
      match ParseNat(s[1..])
      case None => None
      case Some(n) => var v: int := -(n as int); Some(v)
    else
      match ParseNat(s)
      case None => None
      case Some(n) => var v: int := n; Some(v)
  }

  lemma {:induction false} ParseNatToString(n: nat)
    ensures ParseNat(NatToString(n)) == Some(n)
    decreases n
  {
    if n >= 10 {
      var s := NatToString(n);
      assert s[..|s| - 1] == NatToString(n / 10);
      ParseNatToString(n / 10);
    }
  }

  /** Rendering an integer and reading it back gives the integer again. */
  lemma {:induction false} ParseIntToString(i: int)
    ensures ParseInt(IntToString(i)) == Some(i)
  {
    var s := IntToString(i);
    if i < 0 {
      var digits := NatToString(-i);
      assert s == "-" + digits;
      assert s[1..] == digits;
      ParseNatToString(-i);
    } else {
      assert s == NatToString(i);
      assert IsDigit(s[0]);
      ParseNatToString(i);
    }
  }
}
