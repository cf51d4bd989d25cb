/**
 `strconv.Quote`, which both programs print strings with (`%q` is the same function). Which
 characters above ASCII count as printable is a Unicode table that is not in the repository:
 it is the parameter `printable`, and every result holds for each table of graphic characters.
 */
module Quoting {

  /** No control character, line separator or noncharacter. */
  predicate Graphic(c: char) {
    ' ' <= c <= '~'
    || ('\U{A0}' <= c && c != '\U{2028}' && c != '\U{2029}' && c != '\U{FFFE}' && c != '\U{FFFF}')
  }

  type PrintTable = p: char -> bool | forall c :: p(c) ==> Graphic(c) witness c => false

  predicate Ascii(c: char) { c < '\U{80}' }

  /** Characters that are printed as they are. */
  predicate Shown(c: char, printable: PrintTable) {
    if Ascii(c) then ' ' <= c <= '~' && c != '"' && c != '\\' else printable(c)
  }

  function HexDigit(d: nat): char
    requires d < 16
  {
    if d < 10 then ('0' as int + d) as char else ('a' as int + d - 10) as char
  }

  /** `width` hexadecimal digits, most significant first. */
  function Hex(n: nat, width: nat): (s: string)
    ensures |s| == width
  {
    if width == 0 then "" else Hex(n / 16, width - 1) + [HexDigit(n % 16)]
  }

  /** The letter after the backslash for the characters that have a short escape. */
  function ShortEscape(c: char): char {
    match c
    case '"' => '"'
    case '\\' => '\\'
    case '\U{7}' => 'a'
    case '\U{8}' => 'b'
    case '\U{9}' => 't'
    case '\U{A}' => 'n'
    case '\U{B}' => 'v'
    case '\U{C}' => 'f'
    case '\U{D}' => 'r'
    case _ => ' '
  }

  function Escape(c: char, printable: PrintTable): (s: string)
    ensures |s| > 0
  {
    if Shown(c, printable) then [c]
    else if ShortEscape(c) != ' ' then ['\\', ShortEscape(c)]
    else if Ascii(c) then "\\x" + Hex(c as int, 2)
    else if c < '\U{10000}' then "\\u" + Hex(c as int, 4)
    else "\\U" + Hex(c as int, 8)
  }

  function EscapeAll(s: string, printable: PrintTable): string {
    if s == "" then "" else Escape(s[0], printable) + EscapeAll(s[1..], printable)
  }

  function Quote(s: string, printable: PrintTable): string {
    "\"" + EscapeAll(s, printable) + "\""
  }

  predicate AllShown(s: string, printable: PrintTable) {
    forall c :: c in s ==> Shown(c, printable)
  }

  lemma {:induction false} ShownUnchanged(s: string, printable: PrintTable)
    requires AllShown(s, printable)
    ensures EscapeAll(s, printable) == s
  {
    if s != "" {
      assert s[0] in s && forall c :: c in s[1..] ==> c in s;
      ShownUnchanged(s[1..], printable);
      assert s == [s[0]] + s[1..];
    }
  }

  /** Position `k` shows, before any quote, that the text `e` does not start with all of `s`. */
  predicate Differs(e: string, s: string, k: nat) {
    k < |e| && '"' !in e[..k + 1] && (k >= |s| || e[k] != s[k])
  }

  lemma DiffersLater(e: string, s: string, k: nat)
    requires |e| > 0 && |s| > 0 && e[0] == s[0] && e[0] != '"'
    requires Differs(e[1..], s[1..], k)
    ensures Differs(e, s, k + 1)
  {
    assert e[..k + 2] == [e[0]] + e[1..][..k + 1];
  }

  lemma DiffersAtOnce(e: string, s: string)
    requires |e| > 0 && e[0] == '\\' && (s == "" || s[0] != '\\')
    ensures Differs(e, s, 0)
  {
    assert e[..1] == ['\\'];
  }

  predicate Backslashes(b: string) { |b| > 0 && forall c :: c in b ==> c == '\\' }

  lemma BackslashMoves(b: string, t: string)
    requires Backslashes(b)
    ensures Backslashes(b + "\\")
    ensures (b + ("\\\\" + t))[1..] == b + "\\" + t
  {
    assert forall i :: 0 <= i < |b| ==> b[i] in b;
    assert b + ("\\\\" + t) == (b + "\\") + "\\" + t;
    assert (b + "\\")[1..] + "\\" == b + "\\";
  }

  lemma {:induction false} BackslashesDiffer(b: string, s: string, printable: PrintTable) returns (k: nat)
    requires Backslashes(b)
    ensures Differs(b + EscapeAll(s, printable), s, k)
    decreases |s|
  {
    var e := b + EscapeAll(s, printable);
    assert b[0] in b;
    if s == "" || s[0] != '\\' {
      k := 0;
      DiffersAtOnce(e, s);
    } else {
      BackslashMoves(b, EscapeAll(s[1..], printable));
      k := BackslashesDiffer(b + "\\", s[1..], printable);
      DiffersLater(e, s, k);
      k := k + 1;
    }
  }

  lemma EscapeHead(c: char, rest: string, printable: PrintTable)
    ensures EscapeAll([c] + rest, printable) == Escape(c, printable) + EscapeAll(rest, printable)
  {
    assert ([c] + rest)[1..] == rest;
  }

  lemma TwoFirst(c: char, t: string)
    ensures ([c] + [c]) + t == [c] + ([c] + t)
  {
  }

  lemma BackslashEscape(printable: PrintTable)
    ensures Escape('\\', printable) == ['\\'] + ['\\']
  {
  }

  lemma BackslashDoubled(rest: string, printable: PrintTable)
    ensures EscapeAll(['\\'] + rest, printable) == ['\\'] + (['\\'] + EscapeAll(rest, printable))
  {
    EscapeHead('\\', rest, printable);
    BackslashEscape(printable);
    TwoFirst('\\', EscapeAll(rest, printable));
  }

  /** An escape that is not of a backslash shows at once. */
  lemma EscapeShows(s: string, printable: PrintTable) returns (k: nat)
    requires s != "" && !Shown(s[0], printable)
    ensures Differs(EscapeAll(s, printable), s, k)
  {
    var e, rest := EscapeAll(s, printable), s[1..];
    if s[0] != '\\' {
      k := 0;
      DiffersAtOnce(e, s);
    } else {
      BackslashDoubled(rest, printable);
      assert s == ['\\'] + rest;
      k := BackslashesDiffer("\\", rest, printable);
      DiffersLater(e, s, k);
      k := k + 1;
    }
  }

  lemma RestNotShown(s: string, printable: PrintTable)
    requires !AllShown(s, printable) && Shown(s[0], printable)
    ensures !AllShown(s[1..], printable)
  {
    var c :| c in s && !Shown(c, printable);
    assert c in s[1..];
  }

  /** A string with a character that must be escaped prints as something visibly different. */
  lemma {:induction false} EscapedDiffers(s: string, printable: PrintTable) returns (k: nat)
    requires !AllShown(s, printable)
    ensures Differs(EscapeAll(s, printable), s, k)
  {
    if Shown(s[0], printable) {
      RestNotShown(s, printable);
      k := EscapedDiffers(s[1..], printable);
      DiffersLater(EscapeAll(s, printable), s, k);
      k := k + 1;
    } else {
      k := EscapeShows(s, printable);
    }
  }

  lemma {:induction false} HexIsGraphic(n: nat, width: nat)
    ensures forall c :: c in Hex(n, width) ==> Graphic(c)
  {
    if width > 0 {
      HexIsGraphic(n / 16, width - 1);
    }
  }

  lemma EscapeGraphic(c: char, printable: PrintTable)
    ensures forall x :: x in Escape(c, printable) ==> Graphic(x)
  {
    HexIsGraphic(c as int, 2);
    HexIsGraphic(c as int, 4);
    HexIsGraphic(c as int, 8);
  }

  /** What is printed fits on one line. */
  lemma {:induction false} EscapeAllGraphic(s: string, printable: PrintTable)
    ensures forall c :: c in EscapeAll(s, printable) ==> Graphic(c)
  {
    if s != "" {
      EscapeGraphic(s[0], printable);
      EscapeAllGraphic(s[1..], printable);
    }
  }
}
