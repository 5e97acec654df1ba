/** Machine-level values the client works with: Rust's fixed-width integers,
    opaque floats, and the decimal and comma-separated text forms the query
    strings use. */
module Primitives {

  datatype Option<+T> = None | Some(value: T)

  /** Rust `i32`. */
  type Int32 = x: int | -0x8000_0000 <= x < 0x8000_0000

  /** Rust `i64`. */
  type Int64 = x: int | -0x8000_0000_0000_0000 <= x < 0x8000_0000_0000_0000

  /** Rust `u16` (HTTP status codes carried by the error taxonomy). */
  type UInt16 = x: int | 0 <= x < 0x1_0000

  /** An `f64`, kept opaque: the model keeps only the text Rust's `Display`
      (`to_string`) prints for it. */
  datatype Float = Float(display: string)

  /** `as i32` on an `i64`: keep the low 32 bits, read as two's complement. */
  function WrapInt32(x: int): (r: Int32)
    ensures (r - x) % 0x1_0000_0000 == 0
    ensures -0x8000_0000 <= x < 0x8000_0000 ==> r == x
  {
    (x + 0x8000_0000) % 0x1_0000_0000 - 0x8000_0000
  }

  // ---------------------------------------------------------------------
  // Decimal text (Rust's `Display` for integers)
  // ---------------------------------------------------------------------

  predicate IsDigit(c: char) { '0' <= c <= '9' }

  predicate AllDigits(s: string) {
    forall i :: 0 <= i < |s| ==> IsDigit(s[i])
  }

  function DigitChar(d: nat): (c: char)
    requires d < 10
    ensures IsDigit(c) && DigitValue(c) == d
  {
    (('0' as int) + d) as char
  }

  function DigitValue(c: char): nat
    requires IsDigit(c)
  {
    (c as int) - ('0' as int)
  }

  /** The decimal rendering of a natural number, most significant digit first. */
  function NatString(n: nat): (s: string)
    ensures |s| > 0 && AllDigits(s)
    ensures s[0] == '0' ==> n == 0
    decreases n
  {
    if n < 10 then [DigitChar(n)] else NatString(n / 10) + [DigitChar(n % 10)]
  }

  /** The value of a string of decimal digits. */
  function DigitsValue(s: string): nat
    requires AllDigits(s)
  {
    if s == [] then 0 else DigitsValue(s[..|s| - 1]) * 10 + DigitValue(s[|s| - 1])
  }

  /** Reads back a non-empty string of decimal digits. */
  function ParseNat(s: string): Option<nat> {
    if s != [] && AllDigits(s) then Some(DigitsValue(s)) else None
  }

  lemma {:induction false} DigitsValueOfNatString(n: nat)
    ensures DigitsValue(NatString(n)) == n
    decreases n
  {
    if n >= 10 {
      var s := NatString(n);
      assert s[..|s| - 1] == NatString(n / 10);
      DigitsValueOfNatString(n / 10);
    }
  }

  /** Reading the decimal rendering of `n` gives `n` back. */
  lemma ParseNatString(n: nat)
    ensures ParseNat(NatString(n)) == Some(n)
  {
    DigitsValueOfNatString(n);
  }

  /** Rust's `Display` for signed integers: a leading `-` for negatives. */
  function IntString(i: int): (s: string)
    ensures |s| > 0 && ',' !in s
  {
    if i < 0 then "-" + NatString(-i) else NatString(i)
  }

  /** Reads back an optionally negative decimal integer. */
  function ParseInt(s: string): Option<int> {
    if |s| > 0 && s[0] == '-' then
      match ParseNat(s[1..])
      case Some(n) => Some(0 - n as int)
      case None => None
    else
      match ParseNat(s)
      case Some(n) => Some(n)
      case None => None
  }

  /** Reading the rendering of `i` gives `i` back. */
  lemma IntStringRoundTrip(i: int)
    ensures ParseInt(IntString(i)) == Some(i)
  {
    if i < 0 {
      var s := IntString(i);
      assert s[1..] == NatString(-i);
      ParseNatString(-i);
    } else {
      ParseNatString(i);
    }
  }

  /** Rust's `bool::to_string`. */
  function BoolString(b: bool): string {
    if b then "true" else "false"
  }

  function ParseBool(s: string): Option<bool> {
    if s == "true" then Some(true) else if s == "false" then Some(false) else None
  }

  lemma BoolStringRoundTrip(b: bool)
    ensures ParseBool(BoolString(b)) == Some(b)
  {
  }

  // ---------------------------------------------------------------------
  // Separated lists (`Vec<String>::join` and its inverse)
  // ---------------------------------------------------------------------

  /** `parts.join(sep)`: the parts with one separator between neighbours. */
  function Join(parts: seq<string>, sep: char): string {
    if parts == [] then ""
    else if |parts| == 1 then parts[0]
    else parts[0] + [sep] + Join(parts[1..], sep)
  }

  /** Splits at every separator; the inverse of `Join` on non-empty lists of
      separator-free parts. */
  function Split(s: string, sep: char): (parts: seq<string>)
    ensures |parts| > 0
    decreases |s|
  {
    if s == [] then [""]
    else
      var rest := Split(s[1..], sep);
      if s[0] == sep then [""] + rest else [[s[0]] + rest[0]] + rest[1..]
  }

  lemma {:induction false} SplitSeparatorFree(p: string, tail: string, sep: char)
    requires sep !in p
    ensures Split(p + tail, sep) == [p + Split(tail, sep)[0]] + Split(tail, sep)[1..]
    decreases |p|
  {
    if p != [] {
      assert (p + tail)[1..] == p[1..] + tail;
      SplitSeparatorFree(p[1..], tail, sep);
      assert [p[0]] + (p[1..] + Split(tail, sep)[0]) == p + Split(tail, sep)[0];
    } else {
      var parts := Split(tail, sep);
      assert p + tail == tail;
      assert p + parts[0] == parts[0];
      assert [parts[0]] + parts[1..] == parts;
    }
  }

  /** Splitting a joined list at its separator gives the list back, provided
      there is at least one part and no part contains the separator. */
  lemma {:induction false} SplitJoin(parts: seq<string>, sep: char)
    requires parts != []
    requires forall i :: 0 <= i < |parts| ==> sep !in parts[i]
    ensures Split(Join(parts, sep), sep) == parts
    decreases |parts|
  {
    if |parts| == 1 {
      SplitSeparatorFree(parts[0], "", sep);
      assert parts[0] + "" == parts[0];
    } else {
      var tail := [sep] + Join(parts[1..], sep);
      assert Join(parts, sep) == parts[0] + tail;
      SplitSeparatorFree(parts[0], tail, sep);
      assert tail[1..] == Join(parts[1..], sep);
      SplitJoin(parts[1..], sep);
      assert Split(tail, sep) == [""] + parts[1..];
      assert parts[0] + "" == parts[0];
    }
  }

  /** The decimal renderings of a list of integers. */
  function IntStrings(ids: seq<int>): (r: seq<string>)
    ensures |r| == |ids|
    ensures forall i :: 0 <= i < |ids| ==> r[i] == IntString(ids[i])
  {
    if ids == [] then [] else [IntString(ids[0])] + IntStrings(ids[1..])
  }

  /** Reads back every part of a list as an integer. */
  function ParseInts(parts: seq<string>): Option<seq<int>> {
    if parts == [] then Some([])
    else
      match (ParseInt(parts[0]), ParseInts(parts[1..]))
      case (Some(i), Some(rest)) => Some([i] + rest)
      case _ => None
  }

  lemma {:induction false} ParseIntStrings(ids: seq<int>)
    ensures ParseInts(IntStrings(ids)) == Some(ids)
    decreases |ids|
  {
    if ids != [] {
      IntStringRoundTrip(ids[0]);
      assert IntStrings(ids)[1..] == IntStrings(ids[1..]);
      ParseIntStrings(ids[1..]);
      assert [ids[0]] + ids[1..] == ids;
    }
  }

  /** A comma-joined list of decimal integers reads back as the list it was
      made from, whenever the list is not empty. */
  lemma IntListRoundTrip(ids: seq<int>)
    requires ids != []
    ensures ParseInts(Split(Join(IntStrings(ids), ','), ',')) == Some(ids)
  {
    SplitJoin(IntStrings(ids), ',');
    ParseIntStrings(ids);
  }
}
