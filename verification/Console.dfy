/**
 The part of the Quake console that server.cfg relies on: how text is cut into commands and
 words, and what `set`, `seta`, `sets`, `vstr`, `map` and a bare variable name do. The engine
 itself is not in the repository; this interpreter is the meaning that the printers in
 internal/quake/server are proved against.
 */
module Console {
  import opened Text

  // ---- Cutting text into commands ----

  /** Two slashes outside quotes start a comment, which ends with its line. */
  predicate Slashes(s: string) { |s| >= 2 && s[0] == '/' && s[1] == '/' }

  datatype Mode = Bare | InQuotes | InComment

  function NextMode(text: string, mode: Mode): Mode
    requires text != ""
  {
    match mode
    case Bare => if Slashes(text) then InComment else if text[0] == '"' then InQuotes else Bare
    case InQuotes => if text[0] == '"' then Bare else InQuotes
    case InComment => InComment
  }

  predicate LineEnd(c: char) { c == '\n' || c == '\r' }

  /** End of the first command: the end of its line, or a semicolon outside quotes and comments, or the end of text. */
  function CommandEnd(text: string, mode: Mode): (i: nat)
    ensures i <= |text|
  {
    if text == "" || LineEnd(text[0]) || (text[0] == ';' && mode == Bare) then 0
    else 1 + CommandEnd(text[1..], NextMode(text, mode))
  }

  predicate Blank(c: char) { c <= ' ' }

  function WordEnd(line: string): (i: nat)
    ensures i <= |line|
    ensures line != "" && !Blank(line[0]) && line[0] != '"' && !Slashes(line) ==> i > 0
  {
    if line == "" || Blank(line[0]) || line[0] == '"' || Slashes(line) then 0 else 1 + WordEnd(line[1..])
  }

  /** Words are separated by blanks; a quoted stretch is one word, without escapes; a comment is none. */
  function Words(line: string): seq<string>
    decreases |line|
  {
    if line == "" then []
    else if Slashes(line) then []
    else if Blank(line[0]) then Words(line[1..])
    else if line[0] == '"' then
      var i := IndexOf(line[1..], '"');
      if i == |line| - 1 then [line[1..]] else [line[1..i + 1]] + Words(line[i + 2..])
    else
      var i := WordEnd(line);
      [line[..i]] + Words(line[i..])
  }

  function Commands(text: string): seq<seq<string>>
    decreases |text|
  {
    if text == "" then []
    else
      var i := CommandEnd(text, Bare);
      [Words(text[..i])] + if i == |text| then [] else Commands(text[i + 1..])
  }

  // ---- Running commands ----

  type Vars = map<string, string>

  /** A `map` command, with the variables in force when it ran. */
  datatype Load = Load(name: string, vars: Vars)

  /** `stuck` records that `vstr` nested deeper than the run allowed for. */
  datatype State = State(vars: Vars, loads: seq<Load>, stuck: bool)

  /** Variables the engine and the game module register, so that a bare name assigns them. */
  const REGISTERED := {"g_gametype", "capturelimit", "fraglimit", "timelimit"}

  function Assign(st: State, name: string, value: string): State {
    st.(vars := st.vars[name := value])
  }

  function Get(vars: Vars, name: string): string {
    if name in vars then vars[name] else ""
  }

  /** Commands that run or delay text, load maps, end the game or change variables in ways which are not modelled. */
  const BEYOND := {"vstr", "exec", "execq", "wait", "map", "devmap", "spmap", "spdevmap", "map_restart",
                   "game_restart", "killserver", "quit", "setu", "unset", "reset", "toggle", "cvar_restart"}

  /** `depth` bounds how far `vstr` may nest. */
  function Execute(words: seq<string>, st: State, depth: nat): State
    decreases depth, 0, 0
  {
    if |words| == 0 then st
    else if words[0] == "set" || words[0] == "seta" || words[0] == "sets" then
      if |words| >= 3 then Assign(st, words[1], Join(words[2..], " ")) else st
    else if words[0] == "vstr" then
      if |words| != 2 then st
      else if depth == 0 then st.(stuck := true)
      else Run(Commands(Get(st.vars, words[1])), st, depth - 1)
    else if words[0] == "map" then
      if |words| >= 2 then st.(loads := st.loads + [Load(words[1], st.vars)]) else st
    else if |words| >= 2 && (words[0] in st.vars || words[0] in REGISTERED) then
      Assign(st, words[0], Join(words[1..], " "))
    else st
  }

  function Run(cmds: seq<seq<string>>, st: State, depth: nat): State
    decreases depth, 1, |cmds|
  {
    if |cmds| == 0 then st else Run(cmds[1..], Execute(cmds[0], st, depth), depth)
  }

  lemma {:induction false} RunConcat(a: seq<seq<string>>, b: seq<seq<string>>, st: State, depth: nat)
    ensures Run(a + b, st, depth) == Run(b, Run(a, st, depth), depth)
    decreases |a|
  {
    if |a| == 0 {
      assert a + b == b;
    } else {
      assert (a + b)[1..] == a[1..] + b;
      RunConcat(a[1..], b, Execute(a[0], st, depth), depth);
    }
  }

  // ---- Reading back what the printers write ----

  predicate WordChar(c: char) { !Blank(c) && c != '"' && c != ';' }

  /** No comment starts here; a slash and a star would start one of the kind that is not modelled. */
  predicate Uncommented(s: string) {
    |s| < 2 || ((s[0] != '/' || (s[1] != '/' && s[1] != '*')) && Uncommented(s[1..]))
  }

  predicate Word(s: string) {
    |s| > 0 && (forall c :: c in s ==> WordChar(c)) && Uncommented(s)
  }

  lemma {:induction false} UncommentedJoin(a: string, b: string)
    requires Uncommented(a) && Uncommented(b)
    requires Apart(a, b)
    ensures Uncommented(a + b)
  {
    if a == "" {
      assert a + b == b;
    } else {
      assert (a + b)[1..] == a[1..] + b;
      UncommentedJoin(a[1..], b);
    }
  }

  lemma {:induction false} NoSlashUncommented(s: string)
    requires '/' !in s
    ensures Uncommented(s)
  {
    if |s| >= 2 {
      assert s[0] in s;
      NoSlashUncommented(s[1..]);
    }
  }

  /** A word without any slash, like the names that the printers write. */
  predicate SimpleWord(s: string) {
    |s| > 0 && forall c :: c in s ==> WordChar(c) && c != '/'
  }

  lemma SimpleIsWord(s: string)
    requires SimpleWord(s)
    ensures Word(s)
  {
    NoSlashUncommented(s);
  }

  /** No comment starts where the two texts meet. */
  predicate Apart(a: string, b: string) {
    a == "" || b == "" || a[|a| - 1] != '/' || (b[0] != '/' && b[0] != '*')
  }

  predicate OneLine(s: string) { forall c :: c in s ==> !LineEnd(c) }

  /** Text that passes unharmed through a pair of quotes. */
  predicate Quotable(s: string) {
    '"' !in s && OneLine(s)
  }

  lemma TailPlain(p: string)
    requires OneLine(p) && '"' !in p && p != ""
    ensures OneLine(p[1..]) && '"' !in p[1..] && !LineEnd(p[0]) && p[0] != '"'
    ensures ';' !in p ==> ';' !in p[1..] && p[0] != ';'
  {
    assert p[0] in p && forall c :: c in p[1..] ==> c in p;
  }

  lemma {:induction false} CommandEndPlain(p: string, r: string, mode: Mode)
    requires OneLine(p) && '"' !in p
    requires mode == Bare ==> ';' !in p && Uncommented(p) && Apart(p, r)
    ensures CommandEnd(p + r, mode) == |p| + CommandEnd(r, mode)
  {
    if p == "" {
      assert p + r == r;
    } else {
      TailPlain(p);
      assert (p + r)[1..] == p[1..] + r;
      CommandEndPlain(p[1..], r, mode);
    }
  }

  lemma CommandEndQuoted(b: string, r: string)
    requires Quotable(b)
    ensures CommandEnd("\"" + b + "\"" + r, Bare) == |b| + 2 + CommandEnd(r, Bare)
  {
    var t := "\"" + b + "\"" + r;
    assert t[1..] == b + ("\"" + r);
    CommandEndPlain(b, "\"" + r, InQuotes);
    assert ("\"" + r)[1..] == r;
  }

  lemma {:induction false} WordEndPlain(w: string, r: string)
    requires (forall c :: c in w ==> WordChar(c)) && Uncommented(w) && Apart(w, r)
    requires r == "" || Blank(r[0]) || r[0] == '"' || Slashes(r)
    ensures WordEnd(w + r) == |w|
  {
    if w == "" {
      assert w + r == r;
    } else {
      assert w[0] in w;
      assert (w + r)[1..] == w[1..] + r;
      WordEndPlain(w[1..], r);
    }
  }

  lemma WordsHead(w: string, r: string)
    requires Word(w) && Apart(w, r)
    requires r == "" || Blank(r[0]) || r[0] == '"' || Slashes(r)
    ensures Words(w + r) == [w] + Words(r)
  {
    WordEndPlain(w, r);
    assert w[0] in w;
    assert (w + r)[..|w|] == w && (w + r)[|w|..] == r;
  }

  lemma WordsQuoted(b: string, r: string)
    requires '"' !in b
    ensures Words("\"" + b + "\"" + r) == [b] + Words(r)
  {
    var t := "\"" + b + "\"" + r;
    assert t[1..] == b + ['"'] + r;
    IndexOfFirst(b, '"', r);
    assert t[1..|b| + 1] == b && t[|b| + 2..] == r;
  }

  lemma {:induction false} WordsOfBlanks(t: string)
    requires forall c :: c in t ==> Blank(c)
    ensures Words(t) == []
  {
    if t != "" {
      assert t[0] in t;
      WordsOfBlanks(t[1..]);
    }
  }

  lemma WordsCons(w: string, r: string)
    requires Word(w)
    ensures Words(w + " " + r) == [w] + Words(r)
  {
    WordsHead(w, " " + r);
    assert w + " " + r == w + (" " + r);
    assert (" " + r)[1..] == r;
  }

  lemma LastWord(w: string, tail: string)
    requires Word(w) && forall c :: c in tail ==> Blank(c)
    ensures Words(w + tail) == [w]
  {
    WordsOfBlanks(tail);
    assert tail != "" ==> tail[0] in tail;
    WordsHead(w, tail);
  }

  lemma NextWord(w: string, joined: string, tail: string)
    requires Word(w)
    ensures Words(w + " " + joined + tail) == [w] + Words(joined + tail)
  {
    WordsCons(w, joined + tail);
    assert w + " " + joined + tail == w + " " + (joined + tail);
  }

  /** A sentence of plain words reads back as those words. */
  lemma {:induction false} WordsOfSentence(ws: seq<string>, tail: string)
    requires forall w :: w in ws ==> Word(w)
    requires forall c :: c in tail ==> Blank(c)
    ensures Words(Join(ws, " ") + tail) == ws
    decreases |ws|
  {
    if |ws| == 0 {
      assert Join(ws, " ") + tail == tail;
      WordsOfBlanks(tail);
    } else if |ws| == 1 {
      assert ws[0] in ws;
      LastWord(ws[0], tail);
    } else {
      assert ws[0] in ws;
      WordsOfSentence(ws[1..], tail);
      NextWord(ws[0], Join(ws[1..], " "), tail);
    }
  }

  /** The first command of a text, when it is known where it ends. */
  lemma CommandsHead(line: string, sep: char, r: string)
    requires CommandEnd(line, Bare) == |line|
    requires CommandEnd(line + [sep] + r, Bare) == |line|
    ensures Commands(line + [sep] + r) == [Words(line)] + Commands(r)
  {
    var t := line + [sep] + r;
    assert t[..|line|] == line && t[|line| + 1..] == r;
  }

  predicate Plain(s: string) {
    OneLine(s) && '"' !in s && ';' !in s && Uncommented(s)
  }

  lemma CommandsOfPlainLine(line: string, sep: char, r: string)
    requires Plain(line) && (sep == '\n' || sep == ';')
    ensures Commands(line + [sep] + r) == [Words(line)] + Commands(r)
  {
    CommandEndPlain(line, "", Bare);
    assert line + "" == line;
    CommandEndPlain(line, [sep] + r, Bare);
    assert line + [sep] + r == line + ([sep] + r);
    CommandsHead(line, sep, r);
  }

  lemma CommandsOfLastLine(line: string)
    requires Plain(line) && line != ""
    ensures Commands(line) == [Words(line)]
  {
    CommandEndPlain(line, "", Bare);
    assert line + "" == line && line[..|line|] == line;
  }

  lemma {:induction false} SentencePlain(ws: seq<string>)
    requires forall w :: w in ws ==> Word(w)
    ensures Plain(Join(ws, " "))
    decreases |ws|
  {
    if |ws| >= 1 {
      assert ws[0] in ws;
      if |ws| > 1 {
        SentencePlain(ws[1..]);
        WordThenPlain(ws[0], Join(ws[1..], " "));
      }
    }
  }

  lemma WordThenPlain(w: string, s: string)
    requires Word(w) && Plain(s)
    ensures Plain(w + " " + s)
  {
    UncommentedJoin(w, " ");
    UncommentedJoin(w + " ", s);
  }

  // ---- Programs: sentences separated by " ; " ----

  function Sentences(cmds: seq<seq<string>>): seq<string> {
    if |cmds| == 0 then [] else [Join(cmds[0], " ")] + Sentences(cmds[1..])
  }

  function ProgramText(cmds: seq<seq<string>>): string {
    Join(Sentences(cmds), " ; ")
  }

  predicate AllWords(ws: seq<string>) {
    |ws| > 0 && forall w :: w in ws ==> Word(w)
  }

  predicate PlainCommands(cmds: seq<seq<string>>) {
    forall ws :: ws in cmds ==> AllWords(ws)
  }

  lemma ProgramTextStep(cmds: seq<seq<string>>)
    requires |cmds| >= 1
    ensures |cmds| == 1 ==> ProgramText(cmds) == Join(cmds[0], " ")
    ensures |cmds| > 1 ==> ProgramText(cmds) == Join(cmds[0], " ") + " ; " + ProgramText(cmds[1..])
  {
    var s := Sentences(cmds);
    assert s[1..] == Sentences(cmds[1..]);
    assert |cmds| > 1 ==> |Sentences(cmds[1..])| > 0;
  }

  predicate Lead(s: string) { s == "" || s == " " }

  lemma LeadIgnored(lead: string, t: string)
    requires Lead(lead)
    ensures Words(lead + t) == Words(t)
  {
    if lead == "" {
      assert lead + t == t;
    } else {
      assert (lead + t)[1..] == t;
    }
  }

  lemma CommandsOfSentence(ws: seq<string>, lead: string, rest: string)
    requires Lead(lead)
    requires forall w :: w in ws ==> Word(w)
    ensures Commands(lead + Join(ws, " ") + " ;" + rest) == [ws] + Commands(rest)
  {
    SentencePlain(ws);
    var body := Join(ws, " ") + " ";
    var line := lead + body;
    UncommentedJoin(Join(ws, " "), " ");
    UncommentedJoin(lead, body);
    assert lead + Join(ws, " ") + " ;" + rest == line + [';'] + rest;
    CommandsOfPlainLine(line, ';', rest);
    WordsOfSentence(ws, " ");
    LeadIgnored(lead, body);
  }

  lemma CommandsOfLastSentence(ws: seq<string>, lead: string)
    requires Lead(lead) && |ws| > 0
    requires forall w :: w in ws ==> Word(w)
    ensures Commands(lead + Join(ws, " ")) == [ws]
  {
    SentencePlain(ws);
    var body := Join(ws, " ");
    assert ws[0] in ws && |ws[0]| > 0;
    UncommentedJoin(lead, body);
    CommandsOfLastLine(lead + body);
    WordsOfSentence(ws, "");
    assert body + "" == body;
    LeadIgnored(lead, body);
  }

  lemma Regroup(lead: string, a: string, p: string)
    ensures lead + (a + " ; " + p) == lead + a + " ;" + (" " + p)
  {
    assert " ; " == " ;" + " ";
  }

  /** A program of plain words reads back as its commands, whatever blank precedes it. */
  lemma {:induction false} CommandsOfProgram(cmds: seq<seq<string>>, lead: string)
    requires |cmds| >= 1 && PlainCommands(cmds)
    requires Lead(lead)
    ensures Commands(lead + ProgramText(cmds)) == cmds
    decreases |cmds|
  {
    assert cmds[0] in cmds;
    ProgramTextStep(cmds);
    if |cmds| == 1 {
      CommandsOfLastSentence(cmds[0], lead);
    } else {
      var rest := " " + ProgramText(cmds[1..]);
      Regroup(lead, Join(cmds[0], " "), ProgramText(cmds[1..]));
      assert PlainCommands(cmds[1..]) by {
        assert forall ws :: ws in cmds[1..] ==> ws in cmds;
      }
      CommandsOfSentence(cmds[0], lead, rest);
      CommandsOfProgram(cmds[1..], " ");
    }
  }

  lemma {:induction false} ProgramTextConcat(a: seq<seq<string>>, b: seq<seq<string>>)
    requires |a| >= 1 && |b| >= 1
    ensures ProgramText(a + b) == ProgramText(a) + " ; " + ProgramText(b)
    decreases |a|
  {
    ProgramTextStep(a + b);
    ProgramTextStep(a);
    if |a| == 1 {
      assert (a + b)[1..] == b;
    } else {
      assert (a + b)[1..] == a[1..] + b;
      ProgramTextConcat(a[1..], b);
    }
  }

  lemma {:induction false} ProgramQuotable(cmds: seq<seq<string>>)
    requires |cmds| >= 1 && PlainCommands(cmds)
    ensures Quotable(ProgramText(cmds))
    decreases |cmds|
  {
    assert cmds[0] in cmds;
    SentencePlain(cmds[0]);
    ProgramTextStep(cmds);
    if |cmds| > 1 {
      assert forall ws :: ws in cmds[1..] ==> ws in cmds;
      ProgramQuotable(cmds[1..]);
    }
  }

  /** The line `command name "value"`. */
  function AssignLine(command: string, name: string, value: string): string {
    command + " " + name + " \"" + value + "\""
  }

  lemma WordsOfAssignLine(command: string, name: string, value: string)
    requires Word(command) && Word(name) && Quotable(value)
    ensures Words(AssignLine(command, name, value)) == [command, name, value]
  {
    var quoted := "\"" + value + "\"";
    WordsQuoted(value, "");
    assert quoted + "" == quoted;
    WordsCons(name, quoted);
    WordsCons(command, name + " " + quoted);
    AssignLineGroups(command, name, value);
  }

  lemma AssignLineGroups(command: string, name: string, value: string)
    ensures AssignLine(command, name, value) == command + " " + (name + " " + ("\"" + value + "\""))
  {
    assert " \"" == " " + "\"";
  }

  lemma HeadPlain(command: string, name: string)
    requires Word(command) && Word(name)
    ensures Plain(command + " " + name + " ")
  {
    UncommentedJoin(command, " ");
    UncommentedJoin(command + " ", name);
    UncommentedJoin(command + " " + name, " ");
  }

  lemma CommandEndOfAssignLine(command: string, name: string, value: string, r: string)
    requires Word(command) && Word(name) && Quotable(value)
    ensures CommandEnd(AssignLine(command, name, value) + r, Bare)
            == |AssignLine(command, name, value)| + CommandEnd(r, Bare)
  {
    var head := command + " " + name + " ";
    assert AssignLine(command, name, value) + r == head + ("\"" + value + "\"" + r);
    HeadPlain(command, name);
    CommandEndPlain(head, "\"" + value + "\"" + r, Bare);
    CommandEndQuoted(value, r);
  }

  lemma CommandsOfAssignLine(command: string, name: string, value: string, r: string)
    requires Word(command) && Word(name) && Quotable(value)
    ensures Commands(AssignLine(command, name, value) + "\n" + r) == [[command, name, value]] + Commands(r)
  {
    var line := AssignLine(command, name, value);
    CommandEndOfAssignLine(command, name, value, "");
    assert line + "" == line;
    CommandEndOfAssignLine(command, name, value, "\n" + r);
    assert line + "\n" + r == line + ("\n" + r);
    CommandsHead(line, '\n', r);
    WordsOfAssignLine(command, name, value);
  }

  /** A line that reads as one command, whatever follows it. */
  ghost predicate ReadsAs(line: string, words: seq<string>) {
    forall r :: Commands(line + r) == [words] + Commands(r)
  }

  lemma LinesRead(lines: seq<string>, cmds: seq<seq<string>>, r: string)
    requires |lines| == |cmds|
    requires forall i :: 0 <= i < |lines| ==> ReadsAs(lines[i], cmds[i])
    ensures Commands(Concat(lines) + r) == cmds + Commands(r)
  {
    forall i, t | 0 <= i < |lines| ensures Commands(lines[i] + t) == [cmds[i]] + Commands(t) {
      assert ReadsAs(lines[i], cmds[i]);
    }
    ReadLineByLine(Commands, lines, cmds, r);
  }
}
