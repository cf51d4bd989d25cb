/**
 Byte-string helpers that the parsers and printers of both programs are built from: the
 `bytes` and `strconv` functions they call. A Go string or byte slice is a sequence of
 characters here; nothing below depends on the characters being smaller than 256.
 */
module Text {
  import opened Wrappers

  // ---- bytes.Index, bytes.Split, bytes.SplitN, strings.Join ----

  /** Position of the first `c` in `s`, or `|s|` when there is none. */
  function IndexOf(s: string, c: char): (i: nat)
    ensures i <= |s|
    ensures c !in s[..i]
    ensures i < |s| ==> s[i] == c
  {
    if s == "" || s[0] == c then 0 else 1 + IndexOf(s[1..], c)
  }

  function Split(s: string, sep: char): (parts: seq<string>)
    ensures |parts| >= 1
    decreases |s|
  {
    var i := IndexOf(s, sep);
    if i == |s| then [s] else [s[..i]] + Split(s[i + 1..], sep)
  }

  /** At most `n` parts; the last one keeps any further separators. */
  function SplitN(s: string, sep: char, n: nat): (parts: seq<string>)
    requires n >= 1
    ensures 1 <= |parts| <= n
    decreases n
  {
    var i := IndexOf(s, sep);
    if n == 1 || i == |s| then [s] else [s[..i]] + SplitN(s[i + 1..], sep, n - 1)
  }

  function Join(parts: seq<string>, sep: string): string {
    if |parts| == 0 then ""
    else if |parts| == 1 then parts[0]
    else parts[0] + sep + Join(parts[1..], sep)
  }

  lemma Assoc<T>(a: seq<T>, b: seq<T>, c: seq<T>)
    ensures a + b + c == a + (b + c)
  {
  }

  function Concat(parts: seq<string>): string {
    if |parts| == 0 then "" else parts[0] + Concat(parts[1..])
  }

  lemma {:induction false} ConcatAppend(a: seq<string>, b: seq<string>)
    ensures Concat(a + b) == Concat(a) + Concat(b)
    decreases |a|
  {
    if |a| == 0 {
      assert a + b == b;
    } else {
      assert (a + b)[1..] == a[1..] + b;
      ConcatAppend(a[1..], b);
    }
  }

  lemma ConcatSnoc(a: seq<string>, x: string)
    ensures Concat(a + [x]) == Concat(a) + x
  {
    ConcatAppend(a, [x]);
    assert [x][1..] == [];
  }

  /** A reader that consumes each line as one item reads the lines' concatenation as the items. */
  lemma {:induction false} ReadLineByLine<T>(read: string -> seq<T>, lines: seq<string>, items: seq<T>, r: string)
    requires |lines| == |items|
    requires forall i, t :: 0 <= i < |lines| ==> read(lines[i] + t) == [items[i]] + read(t)
    ensures read(Concat(lines) + r) == items + read(r)
    decreases |lines|
  {
    if |lines| == 0 {
      assert Concat(lines) + r == r;
    } else {
      var rest := Concat(lines[1..]) + r;
      assert Concat(lines) + r == lines[0] + rest;
      ReadLineByLine(read, lines[1..], items[1..], r);
      assert [items[0]] + (items[1..] + read(r)) == items + read(r);
    }
  }

  lemma ReadInParts<T>(read: string -> seq<T>, a: string, b: string, c: string, x: seq<T>, y: seq<T>)
    requires read(a + (b + c)) == x + read(b + c)
    requires read(b + c) == y + read(c)
    ensures read(a + b + c) == x + y + read(c)
  {
    assert a + b + c == a + (b + c);
  }

  function TrimPrefix(s: string, c: char): string {
    if |s| > 0 && s[0] == c then s[1..] else s
  }

  function TrimSuffix(s: string, c: char): string {
    if |s| > 0 && s[|s| - 1] == c then s[..|s| - 1] else s
  }

  lemma {:induction false} IndexOfFirst(a: string, c: char, r: string)
    requires c !in a
    ensures IndexOf(a + [c] + r, c) == |a|
  {
    if a == "" {
      assert a + [c] + r == [c] + r;
    } else {
      var s := a + [c] + r;
      assert s[1..] == a[1..] + [c] + r;
      assert forall x :: x in a[1..] ==> x in a;
      assert s[0] == a[0];
      IndexOfFirst(a[1..], c, r);
    }
  }

  lemma {:induction false} IndexOfAbsent(s: string, c: char)
    requires c !in s
    ensures IndexOf(s, c) == |s|
  {
    assert IndexOf(s, c) < |s| ==> c in s;
  }

  lemma SplitHead(a: string, sep: char, r: string)
    requires sep !in a
    ensures Split(a + [sep] + r, sep) == [a] + Split(r, sep)
  {
    var s := a + [sep] + r;
    IndexOfFirst(a, sep, r);
    assert s[..|a|] == a && s[|a| + 1..] == r;
  }

  lemma SplitLast(a: string, sep: char)
    requires sep !in a
    ensures Split(a, sep) == [a]
  {
    IndexOfAbsent(a, sep);
  }

  lemma SplitNHead(a: string, sep: char, r: string, n: nat)
    requires sep !in a && n >= 2
    ensures SplitN(a + [sep] + r, sep, n) == [a] + SplitN(r, sep, n - 1)
  {
    var s := a + [sep] + r;
    IndexOfFirst(a, sep, r);
    assert s[..|a|] == a && s[|a| + 1..] == r;
  }

  /** Splitting undoes joining when no part holds the separator. */
  lemma {:induction false} SplitJoin(parts: seq<string>, sep: char)
    requires |parts| >= 1
    requires forall p :: p in parts ==> sep !in p
    ensures Split(Join(parts, [sep]), sep) == parts
    decreases |parts|
  {
    assert parts[0] in parts;
    if |parts| == 1 {
      SplitLast(parts[0], sep);
    } else {
      SplitJoin(parts[1..], sep);
      SplitHead(parts[0], sep, Join(parts[1..], [sep]));
    }
  }

  // ---- strconv.Itoa and strconv.Atoi ----

  predicate IsDigit(c: char) { '0' <= c <= '9' }

  function DigitValue(c: char): (d: nat)
    requires IsDigit(c)
    ensures d < 10
  {
    c as int - '0' as int
  }

  function DigitChar(d: nat): (c: char)
    requires d < 10
    ensures IsDigit(c) && DigitValue(c) == d
  {
    ('0' as int + d) as char
  }

  predicate AllDigits(s: string) {
    |s| > 0 && forall c :: c in s ==> IsDigit(c)
  }

  function Decimal(n: nat): (s: string)
    ensures AllDigits(s)
  {
    if n < 10 then [DigitChar(n)] else Decimal(n / 10) + [DigitChar(n % 10)]
  }

  function Itoa(n: int): (s: string)
    ensures |s| > 0
    ensures forall c :: c in s ==> IsDigit(c) || c == '-'
  {
    if n < 0 then "-" + Decimal(-n) else Decimal(n)
  }

  function DecimalValue(s: string): nat
    requires AllDigits(s)
  {
    if |s| == 1 then DigitValue(s[0])
    else 10 * DecimalValue(s[..|s| - 1]) + DigitValue(s[|s| - 1])
  }

  const MIN_INT := -0x8000_0000_0000_0000
  const MAX_INT := 0x7FFF_FFFF_FFFF_FFFF

  /** Go's `int` on a 64-bit platform. */
  predicate InRange(v: int) { MIN_INT <= v <= MAX_INT }

  /** An optional sign, then decimal digits only, within the range of `int`. */
  function Atoi(s: string): Option<int> {
    if |s| > 0 && s[0] == '-' then Signed(s[1..], -1)
    else if |s| > 0 && s[0] == '+' then Signed(s[1..], 1)
    else Signed(s, 1)
  }

  function Signed(digits: string, sign: int): Option<int> {
    if AllDigits(digits) && InRange(sign * DecimalValue(digits))
    then Some(sign * DecimalValue(digits)) else None
  }

  lemma {:induction false} DecimalRoundTrip(n: nat)
    ensures DecimalValue(Decimal(n)) == n
  {
    if n >= 10 {
      DecimalRoundTrip(n / 10);
      var s := Decimal(n);
      assert s[..|s| - 1] == Decimal(n / 10);
    }
  }

  lemma AtoiItoa(n: int)
    requires InRange(n)
    ensures Atoi(Itoa(n)) == Some(n)
  {
    var s := Itoa(n);
    if n < 0 {
      DecimalRoundTrip(-n);
      assert s[1..] == Decimal(-n);
    } else {
      DecimalRoundTrip(n);
      assert s[0] in s;
    }
  }

  lemma DecimalInjective(m: nat, n: nat)
    requires Decimal(m) == Decimal(n)
    ensures m == n
  {
    DecimalRoundTrip(m);
    DecimalRoundTrip(n);
  }
}
