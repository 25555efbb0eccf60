/**
 Rendering of integers and joined lists as the TypeScript runtime does it:
 template literals and `String(n)` print an integer in decimal with a leading
 `-` when negative, and `_.join(parts, sep)` places `sep` between consecutive parts.
 */
module Text {
  import opened Wrappers

  predicate IsDigit(c: char) {
    '0' <= c <= '9'
  }

  predicate AllDigits(s: string) {
    forall i :: 0 <= i < |s| ==> IsDigit(s[i])
  }

  function DigitChar(d: nat): (c: char)
    requires d < 10
    ensures IsDigit(c)
  {
    ('0' as int + d) as char
  }

  function DigitValue(c: char): (d: nat)
    requires IsDigit(c)
    ensures d < 10 && DigitChar(d) == c
  {
    c as int - '0' as int
  }

  /** Decimal digits of `n`, most significant first, without leading zeros. */
  function NatToString(n: nat): (s: string)
    ensures |s| > 0 && AllDigits(s)
    ensures |s| > 1 ==> s[0] != '0'
    decreases n
  {
    if n < 10 then [DigitChar(n)] else NatToString(n / 10) + [DigitChar(n % 10)]
  }

  /** `String(n)` for an integer `n`. */
  function IntToString(n: int): (s: string)
    ensures |s| > 0
    ensures s[0] == '-' <==> n < 0
    ensures forall i :: 0 < i < |s| ==> IsDigit(s[i])
  {
    if n < 0 then "-" + NatToString(-n) else NatToString(n)
  }

  /** The value of a string of decimal digits. */
  function DigitsValue(s: string): nat
    requires AllDigits(s)
  {
    if s == [] then 0 else DigitsValue(s[..|s| - 1]) * 10 + DigitValue(s[|s| - 1])
  }

  /** Reads back a decimal integer with an optional leading `-`; `None` for anything else. */
  function ParseInt(s: string): Option<int> {
    if |s| > 1 && s[0] == '-' && AllDigits(s[1..]) then Some(0 - DigitsValue(s[1..]) as int)
    else if |s| > 0 && AllDigits(s) then Some(DigitsValue(s))
    else None
  }

  lemma {:induction false} DigitsValueOfNatToString(n: nat)
    ensures DigitsValue(NatToString(n)) == n
    decreases n
  {
    if n >= 10 {
      var prefix := NatToString(n / 10);
      var s := prefix + [DigitChar(n % 10)];
      assert s[..|s| - 1] == prefix;
      DigitsValueOfNatToString(n / 10);
    }
  }

  /** Printing an integer and reading it back gives the same integer. */
  lemma IntToStringRoundTrip(n: int)
    ensures ParseInt(IntToString(n)) == Some(n)
  {
    if n < 0 {
      var s := IntToString(n);
      assert s[1..] == NatToString(-n);
      DigitsValueOfNatToString(-n);
    } else {
      DigitsValueOfNatToString(n);
    }
  }

  /** `_.join(parts, sep)`. */
  function Join(parts: seq<string>, sep: string): string {
    if |parts| == 0 then ""
    else if |parts| == 1 then parts[0]
    else Join(parts[..|parts| - 1], sep) + sep + parts[|parts| - 1]
  }

  /** Number of occurrences of `c` in `s`. */
  function Count(s: string, c: char): nat {
    if s == [] then 0 else (if s[0] == c then 1 else 0) + Count(s[1..], c)
  }

  lemma {:induction false} CountAppend(a: string, b: string, c: char)
    ensures Count(a + b, c) == Count(a, c) + Count(b, c)
  {
    if a != [] {
      assert (a + b)[1..] == a[1..] + b;
      CountAppend(a[1..], b, c);
    } else {
      assert a + b == b;
    }
  }

  /**
   Joining parts that do not contain `c` with a separator holding `c` once
   yields exactly one `c` per gap: the parts can be told apart again.
   */
  lemma {:induction false} CountInJoin(parts: seq<string>, sep: string, c: char)
    requires |parts| > 0
    requires Count(sep, c) == 1
    requires forall i :: 0 <= i < |parts| ==> Count(parts[i], c) == 0
    ensures Count(Join(parts, sep), c) == |parts| - 1
    decreases |parts|
  {
    if |parts| > 1 {
      var init := parts[..|parts| - 1];
      CountInJoin(init, sep, c);
      CountAppend(Join(init, sep), sep, c);
      CountAppend(Join(init, sep) + sep, parts[|parts| - 1], c);
    }
  }

  lemma {:induction false} NoCommaInDigits(s: string)
    requires forall i :: 0 < i < |s| ==> IsDigit(s[i])
    requires |s| > 0 ==> s[0] == '-' || IsDigit(s[0])
    ensures Count(s, ',') == 0
  {
    if s != [] {
      NoCommaInDigits(s[1..]);
    }
  }

  /** The first position of `c` in `s`, if any. */
  function IndexOf(s: string, c: char): (r: Option<nat>)
    ensures r.Some? ==> r.value < |s| && s[r.value] == c && forall j :: 0 <= j < r.value ==> s[j] != c
    ensures r.None? ==> forall j :: 0 <= j < |s| ==> s[j] != c
  {
    if s == [] then None
    else if s[0] == c then Some(0)
    else match IndexOf(s[1..], c)
      case None => None
      case Some(i) => Some(i + 1)
  }

  /** The pieces of `s` between occurrences of `c`: the reader's side of `Join` with a one-character separator. */
  function Split(s: string, c: char): (parts: seq<string>)
    ensures |parts| > 0
    decreases |s|
  {
    match IndexOf(s, c)
    case None => [s]
    case Some(i) => [s[..i]] + Split(s[i + 1..], c)
  }

  lemma IndexOfAppend(x: string, c: char, last: string)
    ensures IndexOf(x + [c] + last, c) == if IndexOf(x, c).Some? then IndexOf(x, c) else Some(|x|)
  {
    var y := x + [c] + last;
    assert y[|x|] == c;
    assert forall j :: 0 <= j < |x| ==> y[j] == x[j];
  }

  lemma SliceAppend(x: string, c: char, last: string, i: nat)
    requires i < |x|
    ensures (x + [c] + last)[..i] == x[..i]
    ensures (x + [c] + last)[i + 1..] == x[i + 1..] + [c] + last
  {
  }

  lemma SplitAt(s: string, c: char, i: nat)
    requires IndexOf(s, c) == Some(i)
    ensures Split(s, c) == [s[..i]] + Split(s[i + 1..], c)
  {
  }

  lemma SplitNone(s: string, c: char)
    requires IndexOf(s, c).None?
    ensures Split(s, c) == [s]
  {
  }

  lemma {:induction false} SplitAppend(x: string, c: char, last: string)
    requires c !in last
    ensures Split(x + [c] + last, c) == Split(x, c) + [last]
    decreases |x|
  {
    var y := x + [c] + last;
    IndexOfAppend(x, c, last);
    assert IndexOf(last, c).None?;
    SplitNone(last, c);
    var r := IndexOf(x, c);
    if r.None? {
      SplitAt(y, c, |x|);
      SplitNone(x, c);
      assert y[..|x|] == x && y[|x| + 1..] == last;
    } else {
      var i := r.value;
      SplitAt(y, c, i);
      SplitAt(x, c, i);
      SliceAppend(x, c, last, i);
      SplitAppend(x[i + 1..], c, last);
    }
  }

  /** Splitting undoes joining, when the separator is one character no part contains. */
  lemma {:induction false} SplitJoin(parts: seq<string>, c: char)
    requires |parts| > 0
    requires forall i :: 0 <= i < |parts| ==> c !in parts[i]
    ensures Split(Join(parts, [c]), c) == parts
    decreases |parts|
  {
    if |parts| == 1 {
      assert IndexOf(parts[0], c).None?;
    } else {
      var init := parts[..|parts| - 1];
      SplitJoin(init, c);
      SplitAppend(Join(init, [c]), c, parts[|parts| - 1]);
      assert init + [parts[|parts| - 1]] == parts;
    }
  }

  /** The parts after the first with `pad` put in front: how they read after splitting at the separator's first character. */
  function Padded(parts: seq<string>, pad: string): (r: seq<string>)
    requires |parts| > 0
    ensures |r| == |parts| && r[0] == parts[0]
    ensures forall i :: 0 < i < |r| ==> r[i] == pad + parts[i]
  {
    [parts[0]] + seq(|parts| - 1, i requires 0 <= i < |parts| - 1 => pad + parts[i + 1])
  }

  /** A longer separator `[c] + pad` is the one-character separator with `pad` moved into the later parts. */
  lemma {:induction false} JoinPadded(parts: seq<string>, c: char, pad: string)
    requires |parts| > 0
    ensures Join(parts, [c] + pad) == Join(Padded(parts, pad), [c])
    decreases |parts|
  {
    if |parts| > 1 {
      var init := parts[..|parts| - 1];
      JoinPadded(init, c, pad);
      var q := Padded(parts, pad);
      assert q[..|q| - 1] == Padded(init, pad);
    }
  }
}
