/** Option, the stock "value or nothing" wrapper used by the parsers below. */
module Wrappers {
  datatype Option<+T> = None | Some(value: T)
}

/**
 * The two string operations the challenge engine uses, Python's `str(n)`
 * for a non-negative integer and `sep.join(map(str, ns))`, together with
 * readers that the engine itself never calls (`int(s)` on digits and
 * `s.split(sep)`): they exist here only to state that a printed id or
 * instruction determines the numbers it was built from.
 */
module Text {
  import opened Wrappers

  predicate IsDigit(c: char) {
    '0' <= c <= '9'
  }

  predicate AllDigits(s: string) {
    forall i :: 0 <= i < |s| ==> IsDigit(s[i])
  }

  function DigitChar(d: nat): (c: char)
    requires d < 10
    ensures IsDigit(c) && c as int - '0' as int == d
  {
    ('0' as int + d) as char
  }

  /** Python `str(n)` for n >= 0: decimal digits, no leading zero. */
  function NatToString(n: nat): (s: string)
    ensures |s| >= 1 && AllDigits(s)
    ensures s[0] == '0' ==> n == 0
  {
    if n < 10 then [DigitChar(n)] else NatToString(n / 10) + [DigitChar(n % 10)]
  }

  /** Python `int(s)` on a string of decimal digits. */
  function StringToNat(s: string): nat
    requires AllDigits(s)
  {
    if |s| == 0 then 0
    else StringToNat(s[..|s| - 1]) * 10 + (s[|s| - 1] as int - '0' as int)
  }

  lemma {:induction false} StringToNatInverse(n: nat)
    ensures StringToNat(NatToString(n)) == n
  {
    if n >= 10 {
      var s := NatToString(n);
      assert s[..|s| - 1] == NatToString(n / 10);
      StringToNatInverse(n / 10);
    }
  }

  /** A number in 10..99 prints as exactly two digits, one in 1000..9999 as exactly four. */
  lemma NatToStringWidth(n: nat)
    ensures 10 <= n <= 99 ==> |NatToString(n)| == 2
    ensures 1000 <= n <= 9999 ==> |NatToString(n)| == 4
  {
    if n >= 10 {
      assert NatToString(n) == NatToString(n / 10) + [DigitChar(n % 10)];
      if n >= 100 {
        assert NatToString(n / 10) == NatToString(n / 100) + [DigitChar((n / 10) % 10)];
        if n >= 1000 {
          assert NatToString(n / 100) == NatToString(n / 1000) + [DigitChar((n / 100) % 10)];
        }
      }
    }
  }

  /** Python `s.split(sep)`: the maximal pieces between separators, always at least one. */
  function Split(s: string, sep: char): (parts: seq<string>)
    ensures |parts| >= 1
    decreases |s|
  {
    if |s| == 0 then [""]
    else
      var rest := Split(s[1..], sep);
      if s[0] == sep then [""] + rest else [[s[0]] + rest[0]] + rest[1..]
  }

  /** A string without the separator splits into itself alone. */
  lemma {:induction false} SplitNoSeparator(s: string, sep: char)
    requires sep !in s
    ensures Split(s, sep) == [s]
    decreases |s|
  {
    if |s| > 0 {
      assert sep !in s[1..];
      SplitNoSeparator(s[1..], sep);
      assert [s[0]] + s[1..] == s;
    }
  }

  /** A separator-free piece followed by the separator is split off as the first part. */
  lemma {:induction false} SplitCons(a: string, sep: char, b: string)
    requires sep !in a
    ensures Split(a + [sep] + b, sep) == [a] + Split(b, sep)
    decreases |a|
  {
    var s := a + [sep] + b;
    if |a| == 0 {
      assert s[0] == sep && s[1..] == b;
    } else {
      assert s[0] == a[0] && s[1..] == a[1..] + [sep] + b;
      assert sep !in a[1..];
      SplitCons(a[1..], sep, b);
      assert [a[0]] + a[1..] == a;
    }
  }

  /**
   * Python `sep.join(map(str, ns))`: only digits and separators, and for a
   * non-empty list it neither starts nor ends with a separator.
   */
  function JoinNumbers(ns: seq<nat>, sep: char): (s: string)
    ensures forall i :: 0 <= i < |s| ==> IsDigit(s[i]) || s[i] == sep
    ensures |ns| >= 1 ==> |s| >= 1 && IsDigit(s[0]) && IsDigit(s[|s| - 1])
  {
    if |ns| == 0 then ""
    else if |ns| == 1 then NatToString(ns[0])
    else NatToString(ns[0]) + [sep] + JoinNumbers(ns[1..], sep)
  }

  /** Read back every separator-delimited piece as a number; None if a piece is empty or not all digits. */
  function ParseNumbers(parts: seq<string>): (r: Option<seq<nat>>)
    ensures r.Some? ==> |r.value| == |parts|
  {
    if |parts| == 0 then Some([])
    else if |parts[0]| == 0 || !AllDigits(parts[0]) then None
    else
      match ParseNumbers(parts[1..])
      case None => None
      case Some(tail) => Some([StringToNat(parts[0])] + tail)
  }

  /** Joining a non-empty list of numbers and splitting it again gives the printed numbers back. */
  lemma {:induction false} SplitJoinNumbers(ns: seq<nat>, sep: char)
    requires |ns| >= 1 && !IsDigit(sep)
    ensures Split(JoinNumbers(ns, sep), sep) == seq(|ns|, i requires 0 <= i < |ns| => NatToString(ns[i]))
  {
    var head := NatToString(ns[0]);
    assert sep !in head;
    if |ns| == 1 {
      SplitNoSeparator(head, sep);
    } else {
      SplitCons(head, sep, JoinNumbers(ns[1..], sep));
      SplitJoinNumbers(ns[1..], sep);
    }
  }

  /** Parsing the pieces of a joined list of numbers recovers the list. */
  lemma {:induction false} ParseJoinedNumbers(ns: seq<nat>, sep: char)
    requires |ns| >= 1 && !IsDigit(sep)
    ensures ParseNumbers(Split(JoinNumbers(ns, sep), sep)) == Some(ns)
  {
    SplitJoinNumbers(ns, sep);
    ParsePrinted(ns);
  }

  lemma {:induction false} ParsePrinted(ns: seq<nat>)
    ensures ParseNumbers(seq(|ns|, i requires 0 <= i < |ns| => NatToString(ns[i]))) == Some(ns)
  {
    var parts := seq(|ns|, i requires 0 <= i < |ns| => NatToString(ns[i]));
    if |ns| > 0 {
      StringToNatInverse(ns[0]);
      assert parts[1..] == seq(|ns[1..]|, i requires 0 <= i < |ns[1..]| => NatToString(ns[1..][i]));
      ParsePrinted(ns[1..]);
      assert [ns[0]] + ns[1..] == ns;
    }
  }
}
