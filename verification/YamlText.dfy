/**
 The subset of YAML that the operator prints into a ConfigMap, read line by line: mappings two
 levels deep, and lists of scalars or of mappings. Scalars are plain or double-quoted
 (sections 7.3.1 and 7.3.3 of YAML 1.2); escapes are those of section 5.7.
 */
module YamlText {
  import opened Wrappers
  import opened Text
  import opened Quoting

  // ---- Lines ----

  /** What a line says. Scalars are still in their written form. */
  datatype Line =
    | Open(key: string)                              // key:
    | Field(depth: nat, key: string, value: string)  // key: value
    | Item(value: string)                            // - "value"
    | ItemField(key: string, value: string)          // - key: value

  function Spaces(n: nat): string { if n == 0 then "" else " " + Spaces(n - 1) }

  function Render(l: Line): string {
    match l
    case Open(key) => key + ":"
    case Field(depth, key, value) => Spaces(depth) + (key + ": " + value)
    case Item(value) => "  - " + value
    case ItemField(key, value) => "  - " + (key + ": " + value)
  }

  function LeadingSpaces(s: string): (n: nat)
    ensures n <= |s|
  {
    if s != "" && s[0] == ' ' then 1 + LeadingSpaces(s[1..]) else 0
  }

  /** Key and scalar; the scalar is absent when the line ends with the colon. */
  function KeyValue(s: string): Option<(string, Option<string>)> {
    var i := IndexOf(s, ':');
    if i == |s| then None
    else if i + 1 == |s| then Some((s[..i], None))
    else if s[i + 1] == ' ' then Some((s[..i], Some(s[i + 2..])))
    else None
  }

  function ParseItem(s: string): Option<Line> {
    if s != "" && s[0] == '"' then Some(Item(s))
    else
      match KeyValue(s)
      case Some((key, Some(value))) => Some(ItemField(key, value))
      case _ => None
  }

  function ParseField(depth: nat, s: string): Option<Line> {
    match KeyValue(s)
    case Some((key, Some(value))) => Some(Field(depth, key, value))
    case Some((key, None)) => if depth == 0 then Some(Open(key)) else None
    case None => None
  }

  function ParseLine(s: string): Option<Line> {
    if "  - " <= s then ParseItem(s[4..]) else ParseField(LeadingSpaces(s), s[LeadingSpaces(s)..])
  }

  function ParseLines(texts: seq<string>): Option<seq<Line>> {
    if |texts| == 0 then Some([])
    else
      match (ParseLine(texts[0]), ParseLines(texts[1..]))
      case (Some(l), Some(rest)) => Some([l] + rest)
      case _ => None
  }

  function RenderAll(lines: seq<Line>): seq<string> {
    seq(|lines|, i requires 0 <= i < |lines| => Render(lines[i]) + "\n")
  }

  function DocumentText(lines: seq<Line>): string { Concat(RenderAll(lines)) }

  // ---- The lines of a file ----

  /** The line breaks of YAML 1.1, which the decoder follows. */
  predicate Break(c: char) { c == '\n' || c == '\r' || c == '\U{85}' || c == '\U{2028}' || c == '\U{2029}' }

  /** The characters of a YAML stream (section 5.1 of YAML 1.2); the decoder refuses all others. */
  predicate Allowed(c: char) {
    c == '\t' || Break(c) || ' ' <= c <= '~' || ('\U{A0}' <= c && c != '\U{FFFE}' && c != '\U{FFFF}')
  }

  function Unix(text: string): string {
    seq(|text|, i requires 0 <= i < |text| => if Break(text[i]) then '\n' else text[i])
  }

  /** A carriage return before a newline leaves one more blank line, which says nothing. */
  function TextLines(text: string): seq<string> { Split(Unix(text), '\n') }

  predicate White(c: char) { c == ' ' || c == '\t' }

  function Trimmed(s: string): string { if s != "" && White(s[0]) then Trimmed(s[1..]) else s }

  /** What may follow a plain scalar on its line: white space, and after some white space a comment. */
  predicate Tail(s: string) { s == "" || (White(s[0]) && (Trimmed(s) == "" || Trimmed(s)[0] == '#')) }

  /** The part of a line before its tail. What follows a double quote is left as it is. */
  function Content(s: string): (b: string)
    ensures |b| <= |s| && b == s[..|b|] && (s != "" ==> b != "") && Tail(s[|b|..])
  {
    if |s| < 2 || s[0] == '"' then s
    else if Tail(s[1..]) then s[..1]
    else [s[0]] + Content(s[1..])
  }

  function Unindented(s: string): string { s[LeadingSpaces(s)..] }

  /** A blank line or a comment. */
  predicate Idle(s: string) { Unindented(s) == "" || Unindented(s)[0] == '#' }

  function DropIdle(texts: seq<string>): seq<string> {
    if |texts| > 0 && Idle(texts[0]) then DropIdle(texts[1..]) else texts
  }

  /** What the lines say, without blank lines, comments and white space at the end. */
  function Contents(texts: seq<string>): seq<string> {
    if |texts| == 0 then []
    else if Idle(texts[0]) then Contents(texts[1..])
    else [texts[0][..LeadingSpaces(texts[0])] + Content(Unindented(texts[0]))] + Contents(texts[1..])
  }

  /**
   Nothing follows a scalar but white space and comments. A tab is white space as long as the
   scalar might go on, that is up to the first comment; later lines cannot start with one.
   */
  predicate Over(rest: seq<string>) {
    |rest| == 0
    || if Trimmed(rest[0]) == "" then Over(rest[1..])
       else Trimmed(rest[0])[0] == '#' && forall i :: 1 <= i < |rest| ==> Idle(rest[i])
  }

  // ---- Documents ----

  /** A document is a single scalar or has entries. The empty document is the empty scalar. */
  datatype Document = Single(scalar: string) | Entries(lines: seq<Line>)

  predicate Entry(s: string) { "- " <= s || KeyValue(s).Some? }

  function ParseEntries(texts: seq<string>): Option<Document> {
    match ParseLines(Contents(texts)) { case Some(lines) => Some(Entries(lines)) case None => None }
  }

  function ParseTexts(texts: seq<string>): Option<Document> {
    if |texts| == 0 then Some(Single(""))
    else
      var s := Unindented(texts[0]);
      if !Entry(Content(s)) && Over([s[|Content(s)|..]] + texts[1..]) then Some(Single(Content(s)))
      else ParseEntries(texts)
  }

  function ParseDocument(text: string): Option<Document> {
    if forall c :: c in text ==> Allowed(c) then ParseTexts(DropIdle(TextLines(text))) else None
  }

  // ---- Documents that say null ----

  predicate Null(s: string) { s == "" || s == "~" || s == "null" || s == "Null" || s == "NULL" }

  /** After at most comments and blank lines, line i holds a null, and nothing comes after it. */
  predicate NullAt(texts: seq<string>, i: nat)
    requires i < |texts|
  {
    && (forall j :: 0 <= j < i ==> Idle(texts[j]))
    && var s := Unindented(texts[i]);
       exists n :: 0 < n <= |s| && Null(s[..n]) && Tail(s[n..]) && Over([s[n..]] + texts[i + 1..])
  }

  predicate NullTexts(texts: seq<string>) {
    (forall i :: 0 <= i < |texts| ==> Idle(texts[i])) || exists i :: 0 <= i < |texts| && NullAt(texts, i)
  }

  /** A file that says nothing but null (section 10.3.2 of YAML 1.2): blank lines, comments and at most one null. */
  predicate NullDocument(text: string) {
    (forall c :: c in text ==> Allowed(c)) && NullTexts(TextLines(text))
  }

  lemma {:induction false} DropIdleDrops(texts: seq<string>) returns (k: nat)
    ensures k <= |texts| && DropIdle(texts) == texts[k..] && (k < |texts| ==> !Idle(texts[k]))
    ensures forall i :: 0 <= i < k ==> Idle(texts[i])
    decreases |texts|
  {
    if |texts| > 0 && Idle(texts[0]) {
      k := DropIdleDrops(texts[1..]);
      k := k + 1;
      assert forall i :: 1 <= i < k ==> texts[i] == texts[1..][i - 1];
    } else {
      k := 0;
    }
  }

  /** A word without white space and quotes is not cut. */
  predicate Solid(w: string) { forall c :: c in w ==> !White(c) && c != '"' }

  lemma SolidRest(w: string)
    requires Solid(w) && w != ""
    ensures !White(w[0]) && w[0] != '"' && Solid(w[1..]) && (w[1..] != "" ==> !White(w[1..][0]))
  {
    assert w[0] in w && forall c :: c in w[1..] ==> c in w;
    assert w[1..] != "" ==> w[1..][0] in w[1..];
  }

  lemma HeadFirst(w: string, t: string)
    requires w != ""
    ensures w + t == [w[0]] + (w[1..] + t)
  {
  }

  lemma ContentStep(c: char, t: string)
    requires c != '"' && t != "" && !Tail(t)
    ensures Content([c] + t) == [c] + Content(t)
  {
    assert ([c] + t)[1..] == t;
  }

  lemma ContentOfOne(c: char, r: string)
    requires c != '"' && Tail(r)
    ensures Content([c] + r) == [c]
  {
    assert ([c] + r)[1..] == r;
  }

  lemma {:induction false} ContentOfWord(w: string, r: string)
    requires Solid(w) && w != "" && Tail(r)
    ensures Content(w + r) == w
  {
    SolidRest(w);
    HeadFirst(w, r);
    if |w| == 1 {
      assert w[1..] + r == r;
      ContentOfOne(w[0], r);
    } else {
      ContentOfWord(w[1..], r);
      assert (w[1..] + r)[0] == w[1];
      ContentStep(w[0], w[1..] + r);
      assert [w[0]] + w[1..] == w;
    }
  }

  lemma NullIsSolid(w: string)
    requires Null(w)
    ensures Solid(w) && ':' !in w && (w != "" ==> w[0] != ' ' && w[0] != '#' && w[0] != '-')
  {
  }

  lemma NullIsNoEntry(w: string)
    requires Null(w) && w != ""
    ensures !Entry(w)
  {
    NullIsSolid(w);
    IndexOfAbsent(w, ':');
  }

  /** The first line with contents: it says null exactly when its body does. */
  lemma NullAtStart(texts: seq<string>, k: nat)
    requires k < |texts| && !Idle(texts[k]) && forall i :: 0 <= i < k ==> Idle(texts[i])
    ensures NullAt(texts, k) <==>
            var s := Unindented(texts[k]); Null(Content(s)) && Over([s[|Content(s)|..]] + texts[k + 1..])
  {
    var s := Unindented(texts[k]);
    if NullAt(texts, k) {
      var n :| 0 < n <= |s| && Null(s[..n]) && Tail(s[n..]) && Over([s[n..]] + texts[k + 1..]);
      NullIsSolid(s[..n]);
      ContentOfWord(s[..n], s[n..]);
      assert s[..n] + s[n..] == s;
    }
  }

  lemma NullOnlyAtStart(texts: seq<string>, k: nat, i: nat)
    requires k < |texts| && !Idle(texts[k]) && i < |texts| && (forall j :: 0 <= j < k ==> Idle(texts[j]))
    requires NullAt(texts, i)
    ensures i == k
  {
    var s := Unindented(texts[i]);
    var n :| 0 < n <= |s| && Null(s[..n]) && Tail(s[n..]) && Over([s[n..]] + texts[i + 1..]);
    NullIsSolid(s[..n]);
    assert s[0] == s[..n][0];
    assert !Idle(texts[i]);
  }

  /** The reader takes a file for null exactly when it is a null document. */
  lemma NullRead(text: string)
    ensures NullDocument(text) <==>
            var d := ParseDocument(text); d.Some? && d.value.Single? && Null(d.value.scalar)
  {
    var texts := TextLines(text);
    var k := DropIdleDrops(texts);
    if k < |texts| {
      NullAtStart(texts, k);
      var s := Unindented(texts[k]);
      assert texts[k..][0] == texts[k] && texts[k..][1..] == texts[k + 1..];
      assert s != "";
      if Null(Content(s)) {
        NullIsNoEntry(Content(s));
      }
      if NullTexts(texts) {
        var i :| 0 <= i < |texts| && NullAt(texts, i);
        NullOnlyAtStart(texts, k, i);
      }
    }
  }

  // ---- Reading lines back ----

  predicate PlainKey(key: string) {
    |key| > 0 && forall c :: c in key ==> 'a' <= c <= 'z' || 'A' <= c <= 'Z'
  }

  /** A character of a line: neither a line break nor a tab. */
  predicate Inline(c: char) { Allowed(c) && !Break(c) && c != '\t' }

  predicate OnLine(s: string) { forall c :: c in s ==> Inline(c) }

  predicate QuotedScalar(s: string) { s != "" && s[0] == '"' && OnLine(s) }

  /** A scalar that is read back as it stands: a quoted one, or a word that does not start a comment. */
  predicate Scalar(s: string) { QuotedScalar(s) || (s != "" && s[0] != '#' && Solid(s) && OnLine(s)) }

  predicate PlainLine(l: Line) {
    match l
    case Open(key) => PlainKey(key)
    case Field(depth, key, value) => PlainKey(key) && Scalar(value)
    case Item(value) => QuotedScalar(value)
    case ItemField(key, value) => PlainKey(key) && Scalar(value)
  }

  lemma KeyValueOfField(key: string, value: string)
    requires PlainKey(key)
    ensures KeyValue(key + ": " + value) == Some((key, Some(value)))
  {
    var s := key + ": " + value;
    assert s == key + [':'] + (" " + value);
    IndexOfFirst(key, ':', " " + value);
    assert s[..|key|] == key && s[|key| + 2..] == value;
  }

  lemma KeyValueOfOpen(key: string)
    requires PlainKey(key)
    ensures KeyValue(key + ":") == Some((key, None))
  {
    var s := key + ":";
    assert s == key + [':'] + "";
    IndexOfFirst(key, ':', "");
    assert s[..|key|] == key;
  }

  lemma {:induction false} LeadingSpacesOf(n: nat, s: string)
    requires s == "" || s[0] != ' '
    ensures LeadingSpaces(Spaces(n) + s) == n && |Spaces(n)| == n
  {
    if n == 0 {
      assert Spaces(n) + s == s;
    } else {
      assert (Spaces(n) + s)[1..] == Spaces(n - 1) + s;
      LeadingSpacesOf(n - 1, s);
    }
  }

  lemma {:induction false} NotAnItem(n: nat, s: string)
    requires s != "" && s[0] != ' ' && s[0] != '-'
    ensures !("  - " <= Spaces(n) + s)
  {
    LeadingSpacesOf(n, s);
    var t := Spaces(n) + s;
    if n == 0 {
      assert t[0] == s[0];
    } else if n == 1 {
      assert t[1] == s[0];
    } else {
      assert Spaces(n) == "  " + Spaces(n - 2);
      if n == 2 {
        assert t[2] == s[0];
      } else {
        assert t[2] == ' ';
      }
    }
  }

  lemma FieldReadsBack(depth: nat, key: string, value: string)
    requires PlainKey(key)
    ensures ParseLine(Render(Field(depth, key, value))) == Some(Field(depth, key, value))
  {
    var s := key + ": " + value;
    assert key[0] in key && s[0] == key[0];
    LeadingSpacesOf(depth, s);
    NotAnItem(depth, s);
    assert (Spaces(depth) + s)[depth..] == s;
    KeyValueOfField(key, value);
  }

  lemma OpenReadsBack(key: string)
    requires PlainKey(key)
    ensures ParseLine(Render(Open(key))) == Some(Open(key))
  {
    var s := key + ":";
    assert key[0] in key && s[0] == key[0];
    NotAnItem(0, s);
    assert Spaces(0) + s == s && s[0..] == s;
    KeyValueOfOpen(key);
  }

  lemma LineReadsBack(l: Line)
    requires PlainLine(l)
    ensures ParseLine(Render(l)) == Some(l)
  {
    match l
    case Open(key) => OpenReadsBack(key);
    case Field(depth, key, value) => FieldReadsBack(depth, key, value);
    case Item(value) =>
      assert ("  - " + value)[4..] == value;
    case ItemField(key, value) =>
      var s := key + ": " + value;
      assert key[0] in key && s[0] == key[0];
      assert ("  - " + s)[4..] == s;
      KeyValueOfField(key, value);
  }

  // ---- Lines as they stand in the file ----

  function Depth(l: Line): nat {
    match l
    case Open(_) => 0
    case Field(depth, _, _) => depth
    case _ => 2
  }

  /** A line without its indentation. */
  function Written(l: Line): string {
    match l
    case Open(key) => key + ":"
    case Field(_, key, value) => key + ": " + value
    case Item(value) => "- " + value
    case ItemField(key, value) => "- " + (key + ": " + value)
  }

  lemma ItemIndents(s: string)
    ensures "  - " + s == Spaces(2) + ("- " + s)
  {
    assert Spaces(2) == "  " by {
      assert Spaces(1) == " ";
    }
    AssocText("  ", "- ", s);
    assert "  - " == "  " + "- ";
  }

  lemma AssocText(a: string, b: string, c: string)
    ensures a + b + c == a + (b + c)
  {
  }

  lemma RenderIndents(l: Line)
    ensures Render(l) == Spaces(Depth(l)) + Written(l)
  {
    match l
    case Open(key) =>
      assert "" + (key + ":") == key + ":";
    case Field(_, _, _) =>
    case Item(value) => ItemIndents(value);
    case ItemField(key, value) => ItemIndents(key + ": " + value);
  }

  /** A word before more text is kept, and the text is cut by itself. */
  lemma {:induction false} ContentAfterWord(w: string, t: string)
    requires Solid(w) && t != "" && !White(t[0])
    ensures Content(w + t) == w + Content(t)
  {
    if w == "" {
      assert w + t == t && w + Content(t) == Content(t);
    } else {
      SolidRest(w);
      ContentAfterWord(w[1..], t);
      HeadFirst(w, t);
      HeadFirst(w, Content(t));
      var rest := w[1..] + t;
      assert rest[0] == if |w| > 1 then w[1..][0] else t[0];
      ContentStep(w[0], rest);
    }
  }

  lemma ScalarKept(v: string)
    requires Scalar(v)
    ensures Content(v) == v && !White(v[0]) && v[0] != '#'
  {
    assert v[0] in v;
    if v[0] != '"' {
      ContentOfWord(v, "");
      assert v + "" == v;
    }
  }

  /** One visible character, a space and something that starts with neither white space nor a comment. */
  lemma ContentAfterSpace(c: char, v: string)
    requires c != '"' && v != "" && !White(v[0]) && v[0] != '#'
    ensures Content([c] + " " + v) == [c] + " " + Content(v)
  {
    assert (" " + v)[1..] == v && Trimmed(" " + v) == v;
    assert " " == [' '];
    ContentStep(' ', v);
    ContentStep(c, " " + v);
    AssocText([c], " ", v);
    AssocText([c], " ", Content(v));
  }

  lemma FieldKept(key: string, value: string)
    requires PlainKey(key) && Scalar(value)
    ensures Content(key + ": " + value) == key + ": " + value
  {
    ScalarKept(value);
    ContentAfterSpace(':', value);
    assert [':'] + " " == ": ";
    ContentAfterWord(key, ": " + value);
    AssocText(key, ": ", value);
  }

  lemma ItemKept(value: string)
    requires value != "" && !White(value[0]) && value[0] != '#' && Content(value) == value
    ensures Content("- " + value) == "- " + value && Entry("- " + value)
  {
    ContentAfterSpace('-', value);
    assert ['-'] + " " == "- ";
  }

  lemma OpenKept(key: string)
    requires PlainKey(key)
    ensures Content(key + ":") == key + ":" && Entry(key + ":")
  {
    ContentOfWord(key + ":", "");
    assert key + ":" + "" == key + ":";
    KeyValueOfOpen(key);
  }

  /** Each line of a document is an entry that nothing is cut from. */
  lemma WrittenKept(l: Line)
    requires PlainLine(l)
    ensures var w := Written(l); w != "" && w[0] != ' ' && w[0] != '#' && Content(w) == w && Entry(w)
  {
    match l
    case Open(key) =>
      assert key[0] in key && (key + ":")[0] == key[0];
      OpenKept(key);
    case Field(_, key, value) =>
      assert key[0] in key && (key + ": " + value)[0] == key[0];
      FieldKept(key, value);
      KeyValueOfField(key, value);
    case Item(value) =>
      ScalarKept(value);
      ItemKept(value);
    case ItemField(key, value) =>
      assert key[0] in key && (key + ": " + value)[0] == key[0];
      FieldKept(key, value);
      ItemKept(key + ": " + value);
  }

  /** Nothing is cut from the line. */
  predicate Kept(text: string) {
    !Idle(text) && text[..LeadingSpaces(text)] + Content(Unindented(text)) == text
  }

  lemma LineKept(l: Line)
    requires PlainLine(l)
    ensures Unindented(Render(l)) == Written(l) && Kept(Render(l))
  {
    RenderIndents(l);
    WrittenKept(l);
    LeadingSpacesOf(Depth(l), Written(l));
  }

  lemma {:induction false} SpacesOnLine(n: nat)
    ensures OnLine(Spaces(n))
  {
    if n > 0 {
      SpacesOnLine(n - 1);
    }
  }

  lemma LineOnLine(l: Line)
    requires PlainLine(l)
    ensures OnLine(Render(l))
  {
    match l
    case Field(depth, _, _) => SpacesOnLine(depth);
    case _ =>
  }

  /** The lines of the text, without their newlines. */
  function Rendered(lines: seq<Line>): seq<string> {
    seq(|lines|, i requires 0 <= i < |lines| => Render(lines[i]))
  }

  lemma {:induction false} DocumentAllowed(lines: seq<Line>)
    requires forall l :: l in lines ==> PlainLine(l)
    ensures forall c :: c in DocumentText(lines) ==> Inline(c) || c == '\n'
    decreases |lines|
  {
    if |lines| > 0 {
      LineOnLine(lines[0]);
      DocumentAllowed(lines[1..]);
      assert RenderAll(lines)[1..] == RenderAll(lines[1..]);
      assert DocumentText(lines) == Render(lines[0]) + "\n" + DocumentText(lines[1..]);
    }
  }

  lemma DocumentSplits(lines: seq<Line>)
    requires forall l :: l in lines ==> PlainLine(l)
    ensures TextLines(DocumentText(lines)) == Rendered(lines) + [""]
  {
    var read := (t: string) => Split(t, '\n');
    var texts := Rendered(lines);
    forall i, t | 0 <= i < |lines| ensures read(RenderAll(lines)[i] + t) == [texts[i]] + read(t) {
      LineOnLine(lines[i]);
      SplitHead(texts[i], '\n', t);
      assert "\n" == ['\n'];
    }
    ReadLineByLine(read, RenderAll(lines), texts, "");
    assert DocumentText(lines) + "" == DocumentText(lines);
    SplitLast("", '\n');
    DocumentAllowed(lines);
    UnixKeeps(DocumentText(lines));
  }

  lemma UnixKeeps(text: string)
    requires forall c :: c in text ==> !Break(c) || c == '\n'
    ensures Unix(text) == text
  {
    assert forall i :: 0 <= i < |text| ==> text[i] in text;
  }

  lemma {:induction false} ContentsKept(texts: seq<string>)
    requires forall i :: 0 <= i < |texts| ==> Kept(texts[i])
    ensures Contents(texts + [""]) == texts
    decreases |texts|
  {
    if |texts| == 0 {
      assert texts + [""] == [""];
      assert Contents([""][1..]) == [];
    } else {
      ContentsKept(texts[1..]);
      assert Kept(texts[0]);
      assert (texts + [""])[1..] == texts[1..] + [""];
      assert [texts[0]] + texts[1..] == texts;
    }
  }

  lemma FirstLineReads(l: Line, rest: seq<string>, lines: seq<Line>)
    requires PlainLine(l) && ParseLines(rest) == Some(lines)
    ensures ParseLines([Render(l)] + rest) == Some([l] + lines)
  {
    LineReadsBack(l);
    assert ([Render(l)] + rest)[1..] == rest;
  }

  lemma {:induction false} LinesReadBack(lines: seq<Line>)
    requires forall l :: l in lines ==> PlainLine(l)
    ensures ParseLines(Rendered(lines)) == Some(lines)
    decreases |lines|
  {
    if |lines| > 0 {
      assert lines[0] in lines;
      LinesReadBack(lines[1..]);
      FirstLineReads(lines[0], Rendered(lines[1..]), lines[1..]);
      assert Rendered(lines) == [Render(lines[0])] + Rendered(lines[1..]);
      assert [lines[0]] + lines[1..] == lines;
    }
  }

  /** Printing lines as a document and reading the document gives the lines back. */
  lemma DocumentReadsBack(lines: seq<Line>)
    requires |lines| > 0 && forall l :: l in lines ==> PlainLine(l)
    ensures ParseDocument(DocumentText(lines)) == Some(Entries(lines))
  {
    DocumentSplits(lines);
    DocumentAllowed(lines);
    forall i | 0 <= i < |lines| ensures Kept(Rendered(lines)[i]) {
      LineKept(lines[i]);
    }
    ContentsKept(Rendered(lines));
    LinesReadBack(lines);
    assert lines[0] in lines;
    LineKept(lines[0]);
    WrittenKept(lines[0]);
    assert Rendered(lines)[0] == Render(lines[0]);
    assert DropIdle(Rendered(lines) + [""]) == Rendered(lines) + [""];
  }

  // ---- Scalars ----

  function HexValue(c: char): Option<nat> {
    if '0' <= c <= '9' then Some(c as int - '0' as int)
    else if 'a' <= c <= 'f' then Some(c as int - 'a' as int + 10)
    else if 'A' <= c <= 'F' then Some(c as int - 'A' as int + 10)
    else None
  }

  function ParseHex(s: string): Option<nat> {
    if s == "" then Some(0)
    else
      match (ParseHex(s[..|s| - 1]), HexValue(s[|s| - 1]))
      case (Some(high), Some(low)) => Some(16 * high + low)
      case _ => None
  }

  /** The character a short escape stands for. */
  function ShortMeaning(c: char): Option<char> {
    match c
    case 'a' => Some('\U{7}')
    case 'b' => Some('\U{8}')
    case 't' => Some('\U{9}')
    case 'n' => Some('\U{A}')
    case 'v' => Some('\U{B}')
    case 'f' => Some('\U{C}')
    case 'r' => Some('\U{D}')
    case '"' => Some('"')
    case '\\' => Some('\\')
    case _ => None
  }

  function HexWidth(c: char): nat {
    match c
    case 'x' => 2
    case 'u' => 4
    case 'U' => 8
    case _ => 0
  }

  predicate IsScalarValue(n: nat) { n < 0xD800 || 0xE000 <= n < 0x11_0000 }

  function ToChar(n: nat): Option<char> {
    if IsScalarValue(n) then Some(n as char) else None
  }

  function Prepend(c: Option<char>, rest: Option<string>): Option<string> {
    if c.Some? && rest.Some? then Some([c.value] + rest.value) else None
  }

  /** The text between double quotes, with escapes resolved. */
  function Unescape(s: string): Option<string>
    decreases |s|
  {
    if s == "" then Some("")
    else if s[0] == '"' then None
    else if s[0] != '\\' then Prepend(Some(s[0]), Unescape(s[1..]))
    else if |s| < 2 then None
    else
      var width := HexWidth(s[1]);
      if width == 0 then Prepend(ShortMeaning(s[1]), Unescape(s[2..]))
      else if |s| < 2 + width then None
      else
        match ParseHex(s[2..2 + width])
        case Some(n) => Prepend(ToChar(n), Unescape(s[2 + width..]))
        case None => None
  }

  /** Plain scalars that YAML does not take for a boolean or null. */
  const RESERVED := {"null", "Null", "NULL", "true", "True", "TRUE", "false", "False", "FALSE", "yes", "Yes", "YES",
                     "no", "No", "NO", "on", "On", "ON", "off", "Off", "OFF", "y", "Y", "n", "N"}

  predicate PlainChar(c: char) {
    'a' <= c <= 'z' || 'A' <= c <= 'Z' || '0' <= c <= '9' || c == '_' || c == '-'
  }

  /** Names that need no quotes: a letter, then letters, digits, underscores and hyphens. */
  predicate PlainSafe(s: string) {
    && |s| > 0
    && ('a' <= s[0] <= 'z' || 'A' <= s[0] <= 'Z')
    && (forall c :: c in s ==> PlainChar(c))
    && s !in RESERVED
  }

  function StringOf(value: string): Option<string> {
    if |value| >= 2 && value[0] == '"' && value[|value| - 1] == '"' then Unescape(value[1..|value| - 1])
    else if PlainSafe(value) then Some(value)
    else None
  }

  // ---- Quoted strings read back ----

  function Pow16(n: nat): nat { if n == 0 then 1 else 16 * Pow16(n - 1) }

  lemma HexDigitReads(d: nat)
    requires d < 16
    ensures HexValue(HexDigit(d)) == Some(d)
  {
  }

  lemma {:induction false} HexReadsBack(n: nat, width: nat)
    requires n < Pow16(width)
    ensures ParseHex(Hex(n, width)) == Some(n)
  {
    if width > 0 {
      HexReadsBack(n / 16, width - 1);
      HexDigitReads(n % 16);
      var s := Hex(n, width);
      assert s[..|s| - 1] == Hex(n / 16, width - 1);
    }
  }

  lemma Powers()
    ensures Pow16(2) == 0x100 && Pow16(4) == 0x1_0000 && Pow16(8) == 0x1_0000_0000
  {
    assert Pow16(1) == 16;
    assert Pow16(3) == 0x1000;
    assert Pow16(5) == 0x10_0000;
    assert Pow16(6) == 0x100_0000;
    assert Pow16(7) == 0x1000_0000;
  }

  lemma HexEscapeReads(letter: char, c: char, r: string)
    requires HexWidth(letter) > 0 && c as int < Pow16(HexWidth(letter))
    ensures Unescape(['\\', letter] + Hex(c as int, HexWidth(letter)) + r) == Prepend(Some(c), Unescape(r))
  {
    var width := HexWidth(letter);
    var s := ['\\', letter] + Hex(c as int, width) + r;
    HexReadsBack(c as int, width);
    assert s[2..2 + width] == Hex(c as int, width) && s[2 + width..] == r;
  }

  lemma ShortEscapeReads(c: char, r: string)
    requires ShortEscape(c) != ' '
    ensures Unescape(['\\', ShortEscape(c)] + r) == Prepend(Some(c), Unescape(r))
  {
    assert (['\\', ShortEscape(c)] + r)[2..] == r;
  }

  lemma EscapeReads(c: char, r: string, printable: PrintTable)
    ensures Unescape(Escape(c, printable) + r) == Prepend(Some(c), Unescape(r))
  {
    Powers();
    if Shown(c, printable) {
      assert ([c] + r)[1..] == r;
    } else if ShortEscape(c) != ' ' {
      ShortEscapeReads(c, r);
    } else if Ascii(c) {
      HexEscapeReads('x', c, r);
    } else if c < '\U{10000}' {
      HexEscapeReads('u', c, r);
    } else {
      HexEscapeReads('U', c, r);
    }
  }

  lemma {:induction false} EscapeAllReads(s: string, printable: PrintTable)
    ensures Unescape(EscapeAll(s, printable)) == Some(s)
  {
    if s != "" {
      EscapeReads(s[0], EscapeAll(s[1..], printable), printable);
      EscapeAllReads(s[1..], printable);
      assert [s[0]] + s[1..] == s;
    }
  }

  /** Every string comes back unchanged from its printed, double-quoted form. */
  lemma QuoteReadsBack(s: string, printable: PrintTable)
    ensures StringOf(Quote(s, printable)) == Some(s)
  {
    EscapeAllReads(s, printable);
    var q := Quote(s, printable);
    assert q[1..|q| - 1] == EscapeAll(s, printable);
  }

  lemma QuoteOnOneLine(s: string, printable: PrintTable)
    ensures QuotedScalar(Quote(s, printable))
  {
    EscapeAllGraphic(s, printable);
  }
}
