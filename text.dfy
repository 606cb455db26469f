/** The pieces of Python's `str` and `int` that the address parsers of
    src/mcstat/net.py, main.py and config.py rely on: `str.split` with and
    without a limit, and `int()` on decimal text. */
module Text {

  datatype Option<T> = None | Some(value: T)

  /** Index of the first `c` in `s`, or `|s|` when there is none. */
  function Find(s: string, c: char): (i: nat)
    ensures i <= |s|
    ensures i < |s| ==> s[i] == c
    ensures c !in s[..i]
    ensures i == |s| <==> c !in s
  {
    if s == [] then 0
    else if s[0] == c then 0
    else
      var j := Find(s[1..], c);
      assert s[..1 + j] == [s[0]] + s[1..][..j];
      1 + j
  }

  /** `s.split(c, 1)`: the text before the first `c` and everything after
      it, or `[s]` when `c` does not occur. */
  function SplitOnce(s: string, c: char): seq<string> {
    var i := Find(s, c);
    if i == |s| then [s] else [s[..i], s[i + 1..]]
  }

  /** `s.split(c)`: the pieces between the occurrences of `c`. */
  function Split(s: string, c: char): (r: seq<string>)
    decreases |s|
    ensures |r| >= 1
  {
    var i := Find(s, c);
    if i == |s| then [s] else [s[..i]] + Split(s[i + 1..], c)
  }

  /** `c.join(parts)`. */
  function Join(parts: seq<string>, c: char): string
    decreases |parts|
  {
    if parts == [] then []
    else if |parts| == 1 then parts[0]
    else parts[0] + [c] + Join(parts[1..], c)
  }

  /** `s.split(c, 1)` gives one piece exactly when `c` does not occur; two
      pieces are the text before the first `c`, which holds no `c`, and the
      rest, and joining them with `c` gives `s` back. */
  lemma SplitOnceParts(s: string, c: char)
    ensures var r := SplitOnce(s, c);
      && (|r| == 1 || |r| == 2)
      && (|r| == 1 <==> c !in s)
      && (|r| == 1 ==> r[0] == s)
      && (|r| == 2 ==> c !in r[0] && r[0] + [c] + r[1] == s)
  {
    var i := Find(s, c);
    if i < |s| {
      assert s[..i] + [c] + s[i + 1..] == s;
    }
  }

  /** `s.split(c)` cuts `s` at every `c`: joining the pieces with `c` gives
      `s` back, and no piece holds `c`. */
  lemma {:induction false} SplitJoin(s: string, c: char)
    ensures Join(Split(s, c), c) == s
    ensures forall p :: p in Split(s, c) ==> c !in p
    decreases |s|
  {
    var i := Find(s, c);
    if i < |s| {
      var rest := s[i + 1..];
      SplitJoin(rest, c);
      SplitStep(s, c);
    }
  }

  lemma SplitStep(s: string, c: char)
    requires Find(s, c) < |s|
    ensures var i := Find(s, c);
      Split(s, c) == [s[..i]] + Split(s[i + 1..], c) && s[..i] + [c] + s[i + 1..] == s
  {
  }

  /** Splitting text built by joining `c`-free pieces gives those pieces. */
  lemma {:induction false} JoinSplit(parts: seq<string>, c: char)
    requires parts != []
    requires forall p :: p in parts ==> c !in p
    ensures Split(Join(parts, c), c) == parts
    decreases |parts|
  {
    var p := parts[0];
    assert p in parts;
    if |parts| == 1 {
      assert Find(p, c) == |p|;
    } else {
      var rest := Join(parts[1..], c);
      var s := p + [c] + rest;
      FindAfter(p, c, rest);
      assert s[..|p|] == p && s[|p| + 1..] == rest;
      forall q | q in parts[1..] ensures c !in q {
        assert q in parts;
      }
      JoinSplit(parts[1..], c);
    }
  }

  lemma FindAfter(p: string, c: char, rest: string)
    requires c !in p
    ensures Find(p + [c] + rest, c) == |p|
  {
    var s := p + [c] + rest;
    assert s[..|p|] == p && s[|p|] == c;
    assert forall k :: 0 <= k < |p| ==> s[k] == p[k];
  }

  /** Text joined from pieces of digits holds only digits and separators. */
  lemma {:induction false} JoinDigits(parts: seq<string>, c: char)
    requires forall p :: p in parts ==> AllDigits(p)
    ensures forall k :: 0 <= k < |Join(parts, c)| ==> IsDigit(Join(parts, c)[k]) || Join(parts, c)[k] == c
    decreases |parts|
  {
    if parts != [] {
      assert parts[0] in parts;
    }
    if |parts| > 1 {
      forall p | p in parts[1..] ensures AllDigits(p) {
        assert p in parts;
      }
      JoinDigits(parts[1..], c);
    }
  }

  predicate IsDigit(ch: char) {
    '0' <= ch <= '9'
  }

  predicate AllDigits(s: string) {
    forall k :: 0 <= k < |s| ==> IsDigit(s[k])
  }

  function DigitValue(ch: char): nat
    requires IsDigit(ch)
  {
    (ch - '0') as nat
  }

  function DigitChar(d: nat): (ch: char)
    requires d < 10
    ensures IsDigit(ch) && DigitValue(ch) == d
  {
    '0' + d as char
  }

  /** The value of a string of decimal digits, most significant first. */
  function DigitsValue(s: string): nat
    requires AllDigits(s)
    decreases |s|
  {
    if s == [] then 0 else 10 * DigitsValue(s[..|s| - 1]) + DigitValue(s[|s| - 1])
  }

  /** `int(s)` for decimal text: an optional sign followed by one or more
      ASCII digits (leading zeros allowed). None is Python's ValueError. */
  function ParseInt(s: string): Option<int> {
    if s != [] && (s[0] == '+' || s[0] == '-') then
      var digits := s[1..];
      if digits != [] && AllDigits(digits) then
        Some(if s[0] == '-' then -(DigitsValue(digits) as int) else DigitsValue(digits) as int)
      else None
    else if s != [] && AllDigits(s) then Some(DigitsValue(s))
    else None
  }

  /** `str(n)` for a natural number: decimal, no leading zeros. */
  function NatText(n: nat): (s: string)
    ensures s != [] && AllDigits(s)
    ensures s[0] == '0' ==> n == 0
  {
    if n < 10 then [DigitChar(n)] else NatText(n / 10) + [DigitChar(n % 10)]
  }

  /** `str(i)` for any integer. */
  function IntText(i: int): string {
    if i < 0 then "-" + NatText(-i) else NatText(i)
  }

  /** Reading back the digits `str(n)` writes gives `n`. */
  lemma {:induction false} NatTextValue(n: nat)
    ensures DigitsValue(NatText(n)) == n
    decreases n
  {
    if n >= 10 {
      NatTextValue(n / 10);
      var s := NatText(n);
      assert s[..|s| - 1] == NatText(n / 10);
    }
  }

  /** `int(str(i)) == i`. */
  lemma IntTextRoundTrip(i: int)
    ensures ParseInt(IntText(i)) == Some(i)
  {
    if i < 0 {
      NatTextValue(-i);
      assert IntText(i)[1..] == NatText(-i);
    } else {
      NatTextValue(i);
    }
  }
}
