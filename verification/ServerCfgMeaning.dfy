/**
 What server.cfg means: running the printed file and ending any number of maps leaves every
 variable at the value that the last map since then, the last override, map 0's program or the
 configuration field gives it, in this order of precedence.
 */
module ServerCfgMeaning {
  import opened Wrappers
  import opened Text
  import opened Quoting
  import opened Console
  import opened Rotation
  import opened RotationPlay
  import opened RotationLimits
  import opened ServerCfg

  // ---- Reading the settings back ----

  /** The part of a bare value that the console takes: a comment cuts off the rest. */
  function BeforeComment(s: string): string {
    if s == "" || Slashes(s) then "" else [s[0]] + BeforeComment(s[1..])
  }

  /** What the console receives of a printed value, if anything. */
  function Received(s: Setting): Option<string> {
    match s
    case Seta(_, value) => Some(value)
    case Sets(_, value) => if BeforeComment(value) == "" then None else Some(BeforeComment(value))
  }

  function WordsOf(s: Setting): seq<string> {
    [if s.Seta? then "seta" else "sets", s.name] +
    match Received(s)
    case Some(v) => [v]
    case None => []
  }

  /** Values that can be printed without quotes. */
  predicate Bare(value: string) {
    (forall c :: c in value ==> WordChar(c)) && Uncommented(BeforeComment(value))
  }

  /** Values that survive the printing: quoted without escapes, or a bare value up to a comment. */
  predicate Readable(s: Setting, printable: PrintTable) {
    match s
    case Seta(name, value) => SimpleWord(name) && AllShown(value, printable)
    case Sets(name, value) => SimpleWord(name) && Bare(value)
  }

  lemma SetaReads(name: string, value: string, printable: PrintTable)
    requires Word(name) && AllShown(value, printable)
    ensures ReadsAs(LineOf(Seta(name, value), printable), WordsOf(Seta(name, value)))
  {
    ShownUnchanged(value, printable);
    ShownQuotable(value, printable);
    SetaTextReads(name, value);
    assert WordsOf(Seta(name, value)) == ["seta", name, value];
  }

  lemma SetaTextReads(name: string, value: string)
    requires Word(name) && Quotable(value)
    ensures ReadsAs("seta " + name + " " + ("\"" + value + "\"") + "\n", ["seta", name, value])
  {
    FirstWords();
    AssignReads("seta", name, value);
    SetaText(name, value);
  }

  lemma ShownQuotable(value: string, printable: PrintTable)
    requires AllShown(value, printable)
    ensures Quotable(value)
  {
  }

  lemma SetaText(name: string, value: string)
    ensures "seta " + name + " " + ("\"" + value + "\"") + "\n" == AssignLine("seta", name, value) + "\n"
  {
    assert "seta" + " " == "seta ";
    assert " \"" == " " + "\"";
  }

  lemma AssignReads(command: string, name: string, value: string)
    requires Word(command) && Word(name) && Quotable(value)
    ensures ReadsAs(AssignLine(command, name, value) + "\n", [command, name, value])
  {
    forall r ensures Commands(AssignLine(command, name, value) + "\n" + r) == [[command, name, value]] + Commands(r) {
      CommandsOfAssignLine(command, name, value, r);
    }
  }

  /** Two slashes at position i. */
  predicate SlashesAt(value: string, i: nat) {
    i + 1 < |value| && value[i] == '/' && value[i + 1] == '/'
  }

  lemma {:induction false} UncutWithoutSlashes(value: string)
    ensures BeforeComment(value) == value <==> forall i: nat :: !SlashesAt(value, i)
  {
    if value == "" {
    } else if Slashes(value) {
      assert SlashesAt(value, 0);
    } else {
      var rest := value[1..];
      UncutWithoutSlashes(rest);
      assert value == [value[0]] + rest;
      forall i: nat | SlashesAt(value, i) ensures SlashesAt(rest, i - 1) {
        assert i > 0;
      }
      forall i: nat | SlashesAt(rest, i) ensures SlashesAt(value, i + 1) {
      }
    }
  }

  /** The download address is printed without quotes, so it arrives exactly when it has no two slashes in a row. */
  lemma AddressArrives(name: string, value: string)
    requires value != ""
    ensures Received(Sets(name, value)) == Some(value) <==> forall i: nat :: !SlashesAt(value, i)
  {
    UncutWithoutSlashes(value);
  }

  lemma {:induction false} CutAtSlashes(scheme: string, rest: string)
    requires '/' !in scheme
    ensures BeforeComment(scheme + "//" + rest) == scheme
  {
    var value := scheme + "//" + rest;
    if scheme == "" {
      assert Slashes(value);
    } else {
      assert scheme[0] in scheme && !Slashes(value);
      assert value[1..] == scheme[1..] + "//" + rest;
      CutAtSlashes(scheme[1..], rest);
      assert scheme == [scheme[0]] + scheme[1..];
    }
  }

  /** Of an address with a scheme only the scheme arrives. */
  lemma SchemeArrives(name: string, scheme: string, rest: string)
    requires scheme != "" && '/' !in scheme
    ensures Received(Sets(name, scheme + "//" + rest)) == Some(scheme)
  {
    CutAtSlashes(scheme, rest);
  }

  /** A bare value is what precedes the comment, and the comment. */
  lemma {:induction false} CommentSplits(value: string) returns (comment: string)
    ensures value == BeforeComment(value) + comment
    ensures comment == "" || Slashes(comment)
    ensures Apart(BeforeComment(value), comment)
  {
    if value == "" || Slashes(value) {
      comment := value;
    } else {
      comment := CommentSplits(value[1..]);
    }
  }

  lemma CommentEnds(comment: string, r: string)
    requires comment == "" || Slashes(comment)
    requires forall c :: c in comment ==> WordChar(c)
    ensures CommandEnd(comment + ("\n" + r), Mode.Bare) == |comment|
    ensures CommandEnd(comment, Mode.Bare) == |comment|
    ensures Words(comment) == []
  {
    if comment == "" {
      assert comment + ("\n" + r) == "\n" + r;
    } else {
      CommentPasses(comment, "\n" + r);
      CommentPasses(comment, "");
      assert comment + "" == comment;
    }
  }

  lemma CommentPasses(comment: string, r: string)
    requires Slashes(comment) && forall c :: c in comment ==> WordChar(c)
    ensures CommandEnd(comment + r, Mode.Bare) == |comment| + CommandEnd(r, InComment)
  {
    var rest := comment[1..];
    forall c | c in rest ensures WordChar(c) {
      assert c in comment;
    }
    assert (comment + r)[1..] == rest + r;
    CommandEndPlain(rest, r, InComment);
  }

  lemma BareWords(value: string, comment: string)
    requires (forall c :: c in value + comment ==> WordChar(c)) && Uncommented(value)
    requires (comment == "" || Slashes(comment)) && Apart(value, comment)
    ensures Words(value + comment) == if value == "" then [] else [value]
  {
    assert comment == (value + comment)[|value|..];
    CommentEnds(comment, "");
    if value == "" {
      assert value + comment == comment;
    } else {
      assert value == (value + comment)[..|value|];
      WordsHead(value, comment);
    }
  }

  lemma BareLine(head: string, value: string, comment: string, r: string)
    requires Plain(head) && head != "" && head[|head| - 1] == ' '
    requires (forall c :: c in value + comment ==> WordChar(c)) && Uncommented(value)
    requires (comment == "" || Slashes(comment)) && Apart(value, comment)
    ensures Commands(head + (value + comment) + "\n" + r) == [Words(head + (value + comment))] + Commands(r)
  {
    var line, plain := head + (value + comment), head + value;
    assert line == plain + comment && line + "\n" + r == plain + (comment + ("\n" + r));
    UncommentedJoin(head, value);
    assert forall c :: c in value ==> c in value + comment;
    assert forall c :: c in comment ==> c in value + comment;
    CommentEnds(comment, r);
    CommandEndPlain(plain, comment + ("\n" + r), Mode.Bare);
    CommandEndPlain(plain, comment, Mode.Bare);
    CommandsHead(line, '\n', r);
  }

  lemma ThirdWord(command: string, name: string, rest: string)
    requires Word(command) && Word(name)
    ensures Words(command + " " + name + " " + rest) == [command, name] + Words(rest)
  {
    WordsCons(name, rest);
    WordsCons(command, name + " " + rest);
    Assoc(command + " ", name + " ", rest);
    Assoc(command + " ", name, " ");
  }

  lemma BareLineWords(command: string, name: string, value: string, comment: string)
    requires Word(command) && Word(name)
    requires (forall c :: c in value + comment ==> WordChar(c)) && Uncommented(value)
    requires (comment == "" || Slashes(comment)) && Apart(value, comment)
    ensures Words(command + " " + name + " " + (value + comment))
         == [command, name] + if value == "" then [] else [value]
  {
    BareWords(value, comment);
    ThirdWord(command, name, value + comment);
  }

  lemma BareReads(command: string, name: string, value: string)
    requires Word(command) && Word(name) && Bare(value)
    ensures ReadsAs(command + " " + name + " " + value + "\n",
                    [command, name] + if BeforeComment(value) == "" then [] else [BeforeComment(value)])
  {
    var comment := CommentSplits(value);
    HeadPlain(command, name);
    BareLineWords(command, name, BeforeComment(value), comment);
    forall r
      ensures Commands(command + " " + name + " " + value + "\n" + r)
           == [Words(command + " " + name + " " + value)] + Commands(r)
    {
      BareLine(command + " " + name + " ", BeforeComment(value), comment, r);
    }
  }

  lemma SetsReads(name: string, value: string, printable: PrintTable)
    requires Word(name) && Bare(value)
    ensures ReadsAs(LineOf(Sets(name, value), printable), WordsOf(Sets(name, value)))
  {
    SimpleAreWords("sets", "sets", "sets");
    BareReads("sets", name, value);
    assert "sets" + " " == "sets ";
    assert WordsOf(Sets(name, value))
        == ["sets", name] + if BeforeComment(value) == "" then [] else [BeforeComment(value)];
  }

  lemma {:induction false} IndexBeyond(t: string, c: char, k: nat)
    requires k <= |t| && c !in t[..k]
    ensures IndexOf(t, c) >= k
  {
    if k > 0 {
      assert t[0] == t[..k][0];
      assert t[1..][..k - 1] == t[..k][1..];
      IndexBeyond(t[1..], c, k - 1);
    }
  }

  /** The first word after an opening quote starts with whatever precedes the next quote. */
  lemma QuotedWordStarts(p: string, t: string)
    requires '"' !in p
    ensures |Words("\"" + (p + t))| > 0 && p <= Words("\"" + (p + t))[0]
  {
    assert (p + t)[..|p|] == p;
    IndexBeyond(p + t, '"', |p|);
    var i := IndexOf(p + t, '"');
    assert ("\"" + (p + t))[1..] == p + t;
    assert ("\"" + (p + t))[1..i + 1] == (p + t)[..i];
  }

  lemma SetaWordsStart(command: string, name: string, p: string, t: string)
    requires Word(command) && Word(name) && '"' !in p
    ensures var words := Words(command + " " + (name + " " + ("\"" + (p + t))));
            |words| > 2 && p <= words[2]
  {
    QuotedWordStarts(p, t);
    WordsCons(name, "\"" + (p + t));
    WordsCons(command, name + " " + ("\"" + (p + t)));
  }

  lemma QuotedCommandEnd(head: string, p: string, t: string)
    requires Plain(head) && '"' !in p && OneLine(p)
    ensures CommandEnd(head + ("\"" + (p + t)), Mode.Bare) == |head| + 1 + |p| + CommandEnd(t, InQuotes)
  {
    CommandEndPlain(head, "\"" + (p + t), Mode.Bare);
    QuoteOpens(p + t);
    CommandEndPlain(p, t, InQuotes);
  }

  lemma QuoteOpens(t: string)
    ensures CommandEnd("\"" + t, Mode.Bare) == 1 + CommandEnd(t, InQuotes)
  {
    assert ("\"" + t)[1..] == t;
  }

  /** The command that a `seta` line starts with, as far as the printed value has no quote in it. */
  lemma SetaStarts(command: string, name: string, p: string, t: string)
    requires Word(command) && Word(name) && '"' !in p && OneLine(p)
    ensures var cmds := Commands(command + " " + name + " " + ("\"" + (p + t)));
            |cmds| > 0 && |cmds[0]| > 2 && p <= cmds[0][2]
  {
    var head := command + " " + name + " ";
    var rest := CommandEnd(t, InQuotes);
    HeadPlain(command, name);
    QuotedCommandEnd(head, p, t);
    PrefixSplits(command, name, p, t, rest);
    SetaWordsStart(command, name, p, t[..rest]);
    FirstCommand(head + ("\"" + (p + t)), command + " " + (name + " " + ("\"" + (p + t[..rest]))), p);
  }

  lemma FirstCommand(text: string, line: string, p: string)
    requires text != "" && line == text[..CommandEnd(text, Mode.Bare)]
    requires |Words(line)| > 2 && p <= Words(line)[2]
    ensures |Commands(text)| > 0 && |Commands(text)[0]| > 2 && p <= Commands(text)[0][2]
  {
  }

  lemma PrefixSplits(command: string, name: string, p: string, t: string, k: nat)
    requires k <= |t|
    ensures var head := command + " " + name + " ";
            (head + ("\"" + (p + t)))[..|head| + 1 + |p| + k]
            == command + " " + (name + " " + ("\"" + (p + t[..k])))
  {
  }

  lemma PrintedOnOneLine(value: string, printable: PrintTable)
    ensures OneLine(EscapeAll(value, printable))
  {
    EscapeAllGraphic(value, printable);
  }

  lemma DamagedValue(command: string, name: string, value: string, e: string, k: nat, r: string)
    requires Word(command) && Word(name) && Differs(e, value, k) && OneLine(e)
    ensures var cmds := Commands(command + " " + name + " " + ("\"" + (e[..k + 1] + (e[k + 1..] + "\"" + "\n" + r))));
            |cmds| > 0 && cmds[0] != [command, name, value]
  {
    SetaStarts(command, name, e[..k + 1], e[k + 1..] + "\"" + "\n" + r);
    assert e[..k + 1][k] == e[k];
  }

  lemma SetaLineSplits(name: string, e: string, k: nat, r: string)
    requires k <= |e|
    ensures "seta " + name + " " + ("\"" + e + "\"") + "\n" + r
         == "seta" + " " + name + " " + ("\"" + (e[..k] + (e[k..] + "\"" + "\n" + r)))
  {
    assert "seta" + " " == "seta ";
    assert e == e[..k] + e[k..];
  }

  /** The same for the whole line; `e` is what the value is printed as. */
  lemma DamagedLine(name: string, value: string, e: string, k: nat, r: string)
    requires Word(name) && Differs(e, value, k) && OneLine(e)
    ensures var cmds := Commands("seta " + name + " " + ("\"" + e + "\"") + "\n" + r);
            |cmds| > 0 && cmds[0] != ["seta", name, value]
  {
    SetaLineSplits(name, e, k + 1, r);
    FirstWords();
    DamagedValue("seta", name, value, e, k, r);
  }

  lemma EscapedDamaged(name: string, value: string, printable: PrintTable, r: string)
    requires Word(name) && !AllShown(value, printable)
    ensures var cmds := Commands(LineOf(Seta(name, value), printable) + r);
            |cmds| > 0 && cmds[0] != ["seta", name, value]
  {
    PrintedOnOneLine(value, printable);
    var k := EscapedDiffers(value, printable);
    DamagedLine(name, value, EscapeAll(value, printable), k, r);
  }

  /**
   A string setting reaches the console unchanged exactly when none of its characters has to
   be escaped in print: the console knows no escapes.
   */
  lemma SettingSurvives(name: string, value: string, printable: PrintTable, r: string)
    requires Word(name)
    ensures var cmds := Commands(LineOf(Seta(name, value), printable) + r);
            |cmds| > 0 && (cmds[0] == ["seta", name, value] <==> AllShown(value, printable))
  {
    if AllShown(value, printable) {
      SetaReads(name, value, printable);
      assert ReadsAs(LineOf(Seta(name, value), printable), WordsOf(Seta(name, value)));
    } else {
      EscapedDamaged(name, value, printable, r);
    }
  }

  function AllWordsOf(settings: seq<Setting>): seq<seq<string>> {
    seq(|settings|, i requires 0 <= i < |settings| => WordsOf(settings[i]))
  }

  lemma SettingsRead(settings: seq<Setting>, printable: PrintTable, r: string)
    requires AllReadable(settings, printable)
    ensures Commands(SettingsText(settings, printable) + r) == AllWordsOf(settings) + Commands(r)
  {
    forall i | 0 <= i < |settings|
      ensures ReadsAs(LinesOf(settings, printable)[i], AllWordsOf(settings)[i])
    {
      assert Readable(settings[i], printable);
      SimpleIsWord(settings[i].name);
      match settings[i]
      case Seta(name, value) => SetaReads(name, value, printable);
      case Sets(name, value) => SetsReads(name, value, printable);
    }
    LinesRead(LinesOf(settings, printable), AllWordsOf(settings), r);
  }

  /** Variables after the settings have been applied in order. */
  function Apply(settings: seq<Setting>, vars: Vars): Vars {
    if |settings| == 0 then vars else Apply(settings[1..], Set(vars, settings[0].name, Received(settings[0])))
  }

  lemma ExecuteSetting(s: Setting, st: State, depth: nat)
    ensures Execute(WordsOf(s), st, depth) == st.(vars := Set(st.vars, s.name, Received(s)))
  {
    if Received(s).Some? {
      assert WordsOf(s)[2..] == [Received(s).value];
    }
  }

  lemma {:induction false} RunSettings(settings: seq<Setting>, st: State, depth: nat)
    ensures Run(AllWordsOf(settings), st, depth) == st.(vars := Apply(settings, st.vars))
    decreases |settings|
  {
    if |settings| > 0 {
      var s := settings[0];
      ExecuteSetting(s, st, depth);
      assert AllWordsOf(settings)[1..] == AllWordsOf(settings[1..]);
      RunSettings(settings[1..], st.(vars := Set(st.vars, s.name, Received(s))), depth);
    }
  }

  /** The value received by the last setting of `name`. */
  function LastValue(settings: seq<Setting>, name: string): Option<string> {
    if |settings| == 0 then None
    else
      var rest := LastValue(settings[1..], name);
      if rest.Some? then rest
      else if settings[0].name == name then Received(settings[0]) else None
  }

  lemma {:induction false} ApplyLooksUp(settings: seq<Setting>, vars: Vars, name: string)
    ensures Get(Apply(settings, vars), name) == LastValue(settings, name).GetOr(Get(vars, name))
    ensures name in Apply(settings, vars) <==> name in vars || LastValue(settings, name).Some?
    decreases |settings|
  {
    if |settings| > 0 {
      ApplyLooksUp(settings[1..], Set(vars, settings[0].name, Received(settings[0])), name);
    }
  }

  // ---- Overrides ----

  predicate IsSet(command: string) { command == "set" || command == "seta" || command == "sets" }

  /** What a command assigns to `name`; a bare name is an assignment only to a variable that is `known`. */
  function AssignedBy(words: seq<string>, name: string, known: bool): Option<string> {
    if |words| == 0 then None
    else if IsSet(words[0]) then
      if |words| >= 3 && words[1] == name then Some(Join(words[2..], " ")) else None
    else if |words| >= 2 && words[0] == name && known then Some(Join(words[1..], " "))
    else None
  }

  predicate Tame(words: seq<string>) {
    |words| > 0 ==> words[0] !in BEYOND
  }

  predicate AllTame(cmds: seq<seq<string>>) {
    forall words :: words in cmds ==> Tame(words)
  }

  /** A variable becomes known when it is assigned. */
  function LastAssigned(cmds: seq<seq<string>>, name: string, known: bool): Option<string> {
    if |cmds| == 0 then None
    else
      var here := AssignedBy(cmds[0], name, known);
      var later := LastAssigned(cmds[1..], name, known || here.Some?);
      if later.Some? then later else here
  }

  predicate Known(name: string, vars: Vars) {
    name in vars || name in REGISTERED
  }

  lemma ExecuteTame(words: seq<string>, st: State, depth: nat, name: string)
    requires Tame(words)
    ensures var after := Execute(words, st, depth);
            var v := AssignedBy(words, name, Known(name, st.vars));
            && after.loads == st.loads && after.stuck == st.stuck
            && Get(after.vars, name) == v.GetOr(Get(st.vars, name))
            && (Known(name, after.vars) <==> Known(name, st.vars) || v.Some?)
  {
  }

  lemma {:induction false} RunTame(cmds: seq<seq<string>>, st: State, depth: nat, name: string)
    requires AllTame(cmds)
    ensures var after := Run(cmds, st, depth);
            && after.loads == st.loads && after.stuck == st.stuck
            && Get(after.vars, name) == LastAssigned(cmds, name, Known(name, st.vars)).GetOr(Get(st.vars, name))
    decreases |cmds|
  {
    if |cmds| > 0 {
      ExecuteTame(cmds[0], st, depth, name);
      RunTame(cmds[1..], Execute(cmds[0], st, depth), depth, name);
    }
  }

  /** The commands never assign `name`. */
  predicate Spares(cmds: seq<seq<string>>, name: string) {
    forall words :: words in cmds ==> AssignedBy(words, name, true).None?
  }

  lemma {:induction false} SparedNotAssigned(cmds: seq<seq<string>>, name: string, known: bool)
    requires Spares(cmds, name)
    ensures LastAssigned(cmds, name, known).None?
    decreases |cmds|
  {
    if |cmds| > 0 {
      assert cmds[0] in cmds;
      SparedNotAssigned(cmds[1..], name, known);
    }
  }

  /** The commands leave the programs and the pointer of a rotation of `n` maps alone. */
  predicate LeaveRotation(cmds: seq<seq<string>>, n: nat) {
    Spares(cmds, "nextmap") && forall i :: 0 <= i < n ==> Spares(cmds, Slot(i))
  }

  lemma SparedKept(cmds: seq<seq<string>>, st: State, depth: nat, name: string)
    requires AllTame(cmds) && Spares(cmds, name)
    ensures Get(Run(cmds, st, depth).vars, name) == Get(st.vars, name)
  {
    RunTame(cmds, st, depth, name);
    SparedNotAssigned(cmds, name, Known(name, st.vars));
  }

  lemma StaysArmed(cmds: seq<seq<string>>, bodies: seq<string>, i: nat, st: State, depth: nat)
    requires AllTame(cmds) && LeaveRotation(cmds, |bodies|) && Armed(bodies, i, st.vars)
    ensures Armed(bodies, i, Run(cmds, st, depth).vars)
  {
    SparedKept(cmds, st, depth, "nextmap");
    forall j | 0 <= j < |bodies| ensures Get(Run(cmds, st, depth).vars, Slot(j)) == bodies[j] {
      SparedKept(cmds, st, depth, Slot(j));
    }
  }

  // ---- The whole file ----

  function Strings(c: Config): seq<string> {
    [c.game.log, c.game.motd, c.game.joinPassword, c.fs.baseGame, c.fs.basePath, c.fs.game, c.fs.homePath,
     c.server.hostname, c.server.rconPassword]
  }

  predicate Showable(c: Config, printable: PrintTable) {
    forall s :: s in Strings(c) ==> AllShown(s, printable)
  }

  /** The overrides as the console reads them: they are not quoted or checked in any way. */
  function Overrides(c: Config): seq<seq<string>> {
    Commands(OverridesText(c.overrides))
  }

  /** A line ends what came before it, even an open quote: the text after it is read by itself. */
  lemma {:induction false} EndsWithLine(line: string, r: string, mode: Mode)
    ensures CommandEnd(line + "\n" + r, mode) == CommandEnd(line + "\n", mode) <= |line|
  {
    if line == "" {
      assert (line + "\n" + r)[0] == '\n' && (line + "\n")[0] == '\n';
    } else {
      var long, short := line + "\n" + r, line + "\n";
      assert long[1..] == line[1..] + "\n" + r && short[1..] == line[1..] + "\n";
      assert Slashes(long) == Slashes(short) && long[0] == short[0];
      EndsWithLine(line[1..], r, NextMode(long, mode));
    }
  }

  lemma FirstAndRest(text: string, i: nat)
    requires text != "" && i == CommandEnd(text, Mode.Bare) && i < |text|
    ensures Commands(text) == [Words(text[..i])] + Commands(text[i + 1..])
  {
  }

  lemma LinesCut(line: string, r: string, i: nat)
    requires i <= |line|
    ensures (line + "\n" + r)[..i] == (line + "\n")[..i]
    ensures i == |line| ==> (line + "\n" + r)[i + 1..] == r && (line + "\n")[i + 1..] == ""
    ensures i < |line| ==>
              && (line + "\n" + r)[i + 1..] == line[i + 1..] + "\n" + r
              && (line + "\n")[i + 1..] == line[i + 1..] + "\n"
  {
  }

  lemma {:induction false} LineByLine(line: string, r: string)
    ensures Commands(line + "\n" + r) == Commands(line + "\n") + Commands(r)
    decreases |line|
  {
    var i := CommandEnd(line + "\n", Mode.Bare);
    EndsWithLine(line, r, Mode.Bare);
    LinesCut(line, r, i);
    FirstAndRest(line + "\n" + r, i);
    FirstAndRest(line + "\n", i);
    if i < |line| {
      LineByLine(line[i + 1..], r);
      Assoc([Words((line + "\n")[..i])], Commands(line[i + 1..] + "\n"), Commands(r));
    } else {
      NoCommands([Words((line + "\n")[..i])]);
    }
  }

  lemma NoCommands(cmds: seq<seq<string>>)
    ensures cmds + Commands("") == cmds
  {
  }

  /** The commands of each override, one after the other. */
  function CommandsOfEach(overrides: seq<string>): seq<seq<string>> {
    if |overrides| == 0 then [] else Commands(overrides[0] + "\n") + CommandsOfEach(overrides[1..])
  }

  /** Whatever the overrides are, the console reads each of them by itself, all of them and in order. */
  lemma {:induction false} OverridesAreRead(overrides: seq<string>)
    ensures Commands(OverridesText(overrides)) == CommandsOfEach(overrides)
    decreases |overrides|
  {
    if |overrides| > 0 {
      OverridesAreRead(overrides[1..]);
      FirstOverride(overrides);
      LineByLine(overrides[0], OverridesText(overrides[1..]));
    }
  }

  lemma FirstOverride(overrides: seq<string>)
    requires |overrides| > 0
    ensures OverridesText(overrides) == overrides[0] + "\n" + OverridesText(overrides[1..])
  {
    var all := seq(|overrides|, i requires 0 <= i < |overrides| => overrides[i] + "\n");
    var rest := overrides[1..];
    assert all[1..] == seq(|rest|, i requires 0 <= i < |rest| => rest[i] + "\n");
  }

  /** An override without quotes, semicolons and comments is one command of its words. */
  lemma PlainOverride(override: string)
    requires Console.Plain(override)
    ensures Commands(override + "\n") == [Words(override)]
  {
    CommandsOfPlainLine(override, '\n', "");
    assert override + ['\n'] + "" == override + "\n";
  }

  /** Configurations whose strings the console reads back, and whose overrides run no programs. */
  predicate Printable(c: Config, printable: PrintTable) {
    && Showable(c, printable)
    && Bare(c.network.downloadURL)
    && (forall m :: m in c.maps ==> Word(m.name))
    && AllTame(Overrides(c))
  }

  predicate AllReadable(settings: seq<Setting>, printable: PrintTable) {
    forall i :: 0 <= i < |settings| ==> Readable(settings[i], printable)
  }

  lemma BothReadable(a: seq<Setting>, b: seq<Setting>, printable: PrintTable)
    requires AllReadable(a, printable) && AllReadable(b, printable)
    ensures AllReadable(a + b, printable)
  {
  }

  lemma SixReadable(a: seq<Setting>, b: seq<Setting>, c: seq<Setting>, d: seq<Setting>, e: seq<Setting>,
                    f: seq<Setting>, printable: PrintTable)
    requires AllReadable(a, printable) && AllReadable(b, printable) && AllReadable(c, printable)
    requires AllReadable(d, printable) && AllReadable(e, printable) && AllReadable(f, printable)
    ensures AllReadable(a + b + c + d + e + f, printable)
  {
    BothReadable(a, b, printable);
    BothReadable(a + b, c, printable);
    BothReadable(a + b + c, d, printable);
    BothReadable(a + b + c + d, e, printable);
    BothReadable(a + b + c + d + e, f, printable);
  }

  lemma SettingsReadable(c: Config, printable: PrintTable)
    requires Showable(c, printable) && Bare(c.network.downloadURL)
    ensures AllReadable(Settings(c), printable)
  {
    RulesReadable(c, printable);
    GameReadable(c, printable);
    PlayReadable(c, printable);
    NetworkReadable(c, printable);
    FilesReadable(c, printable);
    ServerReadable(c, printable);
    SixReadable(RuleSettings(c), GameSettings(c), PlaySettings(c), NetworkSettings(c), FileSettings(c),
                ServerSettings(c), printable);
  }

  lemma StringShown(c: Config, i: nat, value: string, printable: PrintTable)
    requires Showable(c, printable) && i < |Strings(c)| && value == Strings(c)[i]
    ensures AllShown(value, printable)
  {
    assert value in Strings(c);
  }

  lemma TextsShown(c: Config, printable: PrintTable)
    requires Showable(c, printable)
    ensures AllShown(c.game.log, printable) && AllShown(c.game.motd, printable)
    ensures AllShown(c.game.joinPassword, printable)
  {
    StringShown(c, 0, c.game.log, printable);
    StringShown(c, 1, c.game.motd, printable);
    StringShown(c, 2, c.game.joinPassword, printable);
  }

  lemma PathsShown(c: Config, printable: PrintTable)
    requires Showable(c, printable)
    ensures AllShown(c.fs.baseGame, printable) && AllShown(c.fs.basePath, printable)
    ensures AllShown(c.fs.game, printable) && AllShown(c.fs.homePath, printable)
  {
    StringShown(c, 3, c.fs.baseGame, printable);
    StringShown(c, 4, c.fs.basePath, printable);
    StringShown(c, 5, c.fs.game, printable);
    StringShown(c, 6, c.fs.homePath, printable);
  }

  lemma ServerShown(c: Config, printable: PrintTable)
    requires Showable(c, printable)
    ensures AllShown(c.server.hostname, printable) && AllShown(c.server.rconPassword, printable)
  {
    StringShown(c, 7, c.server.hostname, printable);
    StringShown(c, 8, c.server.rconPassword, printable);
  }

  lemma StringReadable(name: string, value: string, printable: PrintTable)
    requires SimpleWord(name) && AllShown(value, printable)
    ensures Readable(Seta(name, value), printable)
  {
  }

  lemma NumberReadable(name: string, n: int, printable: PrintTable)
    requires SimpleWord(name)
    ensures Readable(Seta(name, Itoa(n)), printable)
  {
  }

  lemma FlagReadable(name: string, b: bool, printable: PrintTable)
    requires SimpleWord(name)
    ensures Readable(Seta(name, BoolToString(b)), printable)
  {
  }

  lemma LimitsReadable(c: Config, printable: PrintTable)
    ensures AllReadable(RuleSettings(c)[..2], printable)
  {
    NumberReadable("fraglimit", c.fragLimit, printable);
    NumberReadable("timelimit", Minutes(c.timeLimit), printable);
  }

  lemma BotReadable(c: Config, printable: PrintTable)
    ensures AllReadable(RuleSettings(c)[2..], printable)
  {
    NumberReadable("bot_minplayers", c.bot.minPlayers, printable);
    FlagReadable("bot_nochat", c.bot.noChat, printable);
  }

  lemma RulesReadable(c: Config, printable: PrintTable)
    ensures AllReadable(RuleSettings(c), printable)
  {
    LimitsReadable(c, printable);
    BotReadable(c, printable);
    JoinedReadable(RuleSettings(c)[..2], RuleSettings(c)[2..], RuleSettings(c), printable);
  }

  lemma GameReadable(c: Config, printable: PrintTable)
    ensures AllReadable(GameSettings(c), printable)
  {
    FlagReadable("g_forcerespawn", c.game.forceRespawn, printable);
    NumberReadable("g_gametype", c.game.gameType, printable);
    NumberReadable("g_inactivity", Seconds(c.game.inactivity), printable);
  }

  lemma TextsReadable(c: Config, printable: PrintTable)
    requires Showable(c, printable)
    ensures AllReadable(PlaySettings(c)[..3], printable)
  {
    TextsShown(c, printable);
    StringReadable("g_log", c.game.log, printable);
    StringReadable("g_motd", c.game.motd, printable);
    StringReadable("g_password", c.game.joinPassword, printable);
  }

  lemma FactorsReadable(c: Config, printable: PrintTable)
    ensures AllReadable(PlaySettings(c)[3..], printable)
  {
    NumberReadable("g_quadfactor", c.game.quadFactor, printable);
    NumberReadable("g_spSkill", c.bot.skill, printable);
    NumberReadable("g_weaponrespawn", c.game.weaponRespawn, printable);
  }

  lemma PlayReadable(c: Config, printable: PrintTable)
    requires Showable(c, printable)
    ensures AllReadable(PlaySettings(c), printable)
  {
    TextsReadable(c, printable);
    FactorsReadable(c, printable);
    JoinedReadable(PlaySettings(c)[..3], PlaySettings(c)[3..], PlaySettings(c), printable);
  }

  lemma JoinedReadable(a: seq<Setting>, b: seq<Setting>, all: seq<Setting>, printable: PrintTable)
    requires AllReadable(a, printable) && AllReadable(b, printable) && all == a + b
    ensures AllReadable(all, printable)
  {
  }

  lemma NetworkReadable(c: Config, printable: PrintTable)
    requires Bare(c.network.downloadURL)
    ensures AllReadable(NetworkSettings(c), printable)
  {
    FlagReadable("sv_allowDownload", c.network.allowDownload, printable);
    assert SimpleWord("sv_dlURL");
  }

  lemma FilesReadable(c: Config, printable: PrintTable)
    requires Showable(c, printable)
    ensures AllReadable(FileSettings(c), printable)
  {
    PathsShown(c, printable);
    StringReadable("fs_basegame", c.fs.baseGame, printable);
    StringReadable("fs_basepath", c.fs.basePath, printable);
    FlagReadable("fs_copyfiles", c.fs.copyFiles, printable);
    FlagReadable("fs_debug", c.fs.debug, printable);
    StringReadable("fs_game", c.fs.game, printable);
    StringReadable("fs_homepath", c.fs.homePath, printable);
  }

  lemma ServerReadable(c: Config, printable: PrintTable)
    requires Showable(c, printable)
    ensures AllReadable(ServerSettings(c), printable)
  {
    ServerShown(c, printable);
    StringReadable("sv_hostname", c.server.hostname, printable);
    NumberReadable("sv_maxclients", c.server.maxClients, printable);
    StringReadable("rconpassword", c.server.rconPassword, printable);
  }

  function RotationCommands(maps: seq<Map>): seq<seq<string>> {
    if |maps| > 0 then Commands(RotationText(maps)) else []
  }

  /** The whole file, as commands. */
  lemma CfgReads(c: Config, printable: PrintTable)
    requires Printable(c, printable)
    ensures Commands(CfgText(c, printable))
         == AllWordsOf(Settings(c)) + RotationCommands(c.maps) + Overrides(c)
  {
    SettingsReadable(c, printable);
    var rotation := if |c.maps| > 0 then RotationText(c.maps) else "";
    var overrides := OverridesText(c.overrides);
    SettingsRead(Settings(c), printable, rotation + overrides);
    RotationReads(c.maps, overrides);
    ReadInParts(Commands, SettingsText(Settings(c), printable), rotation, overrides,
                AllWordsOf(Settings(c)), RotationCommands(c.maps));
  }

  lemma RotationReads(maps: seq<Map>, r: string)
    requires |maps| > 0 ==> WellFormed(maps)
    ensures Commands((if |maps| > 0 then RotationText(maps) else "") + r) == RotationCommands(maps) + Commands(r)
  {
    if |maps| > 0 {
      RotationReadsBefore(maps, r);
    } else {
      assert "" + r == r;
    }
  }

  lemma RotationReadsBefore(maps: seq<Map>, r: string)
    requires WellFormed(maps)
    ensures Commands(RotationText(maps) + r) == Commands(RotationText(maps)) + Commands(r)
  {
    BodiesReadBack(maps);
    RotationReadsBack(maps);
    var lines := Concat(Lines(Bodies(maps)));
    Assoc(lines, "vstr d0\n", r);
    LinesReadBack(Bodies(maps), "vstr d0\n" + r);
    JumpReadsOn(r);
    Assoc(Definitions(Bodies(maps)), [["vstr", "d0"]], Commands(r));
  }

  lemma JumpReadsOn(r: string)
    ensures Commands("vstr d0\n" + r) == [["vstr", "d0"]] + Commands(r)
  {
    JumpLineReads("d0", r);
    assert "vstr" + " " + "d0" + "\n" == "vstr d0\n";
  }

  // ---- Running the file ----

  function Configured(c: Config, st: State): State {
    st.(vars := Apply(Settings(c), st.vars))
  }

  function PlayedFirst(maps: seq<Map>, st: State): State {
    if |maps| > 0 then Played(maps, Start(maps, st), 0) else st
  }

  /** The settings are assigned, map 0 is played, and only then the overrides run. */
  lemma CfgRuns(c: Config, printable: PrintTable, st: State, depth: nat)
    requires Printable(c, printable) && depth >= 1
    ensures Run(Commands(CfgText(c, printable)), st, depth)
         == Run(Overrides(c), PlayedFirst(c.maps, Configured(c, st)), depth)
  {
    var settings := AllWordsOf(Settings(c));
    var rotation := RotationCommands(c.maps);
    CfgReads(c, printable);
    RunConcat(settings + rotation, Overrides(c), st, depth);
    RunConcat(settings, rotation, st, depth);
    RunSettings(Settings(c), st, depth);
    if |c.maps| > 0 {
      ScriptPlaysFirst(c.maps, Configured(c, st), depth);
    }
  }

  /** What map 0 sets a variable to. */
  function SetByFirst(maps: seq<Map>, name: string): Option<string> {
    if |maps| > 0 then SetAt(maps, 0, name) else None
  }

  /** What the file sets a variable to before its overrides run. */
  function SetBefore(c: Config, name: string): Option<string> {
    if SetByFirst(c.maps, name).Some? then SetByFirst(c.maps, name) else LastValue(Settings(c), name)
  }

  /** The value of the last override that assigns `name`. */
  function LastOverride(c: Config, name: string, vars: Vars): Option<string> {
    LastAssigned(Overrides(c), name, Known(name, vars) || SetBefore(c, name).Some?)
  }

  /** The variable `name` once the file has been run on the variables `vars`. */
  function AfterFile(c: Config, name: string, vars: Vars): string {
    LastOverride(c, name, vars).GetOr(SetBefore(c, name).GetOr(Get(vars, name)))
  }

  /** The same once k maps have ended: a map that sets the variable now wins over the overrides. */
  function AfterMaps(c: Config, k: nat, name: string, vars: Vars): string {
    if |c.maps| == 0 then AfterFile(c, name, vars)
    else LastSet(c.maps, 1, k + 1, name).GetOr(AfterFile(c, name, vars))
  }

  lemma BeforeOverrides(c: Config, st: State, name: string)
    requires NotASlot(name)
    ensures var vars := PlayedFirst(c.maps, Configured(c, st)).vars;
            && Get(vars, name) == SetBefore(c, name).GetOr(Get(st.vars, name))
            && (Known(name, vars) <==> Known(name, st.vars) || SetBefore(c, name).Some?)
  {
    ApplyLooksUp(Settings(c), st.vars, name);
    if |c.maps| > 0 {
      FirstLooksUp(c.maps, Configured(c, st), name);
    }
  }

  lemma FileValue(c: Config, printable: PrintTable, st: State, depth: nat, name: string)
    requires Printable(c, printable) && depth >= 1 && NotASlot(name)
    ensures Get(Run(Commands(CfgText(c, printable)), st, depth).vars, name) == AfterFile(c, name, st.vars)
  {
    CfgRuns(c, printable, st, depth);
    BeforeOverrides(c, st, name);
    RunTame(Overrides(c), PlayedFirst(c.maps, Configured(c, st)), depth, name);
  }

  lemma FileLoads(c: Config, printable: PrintTable, st: State, depth: nat)
    requires Printable(c, printable) && depth >= 1
    ensures var after := Run(Commands(CfgText(c, printable)), st, depth);
            && after.stuck == st.stuck
            && if |c.maps| == 0 then after.loads == st.loads else LoadedInOrder(c.maps, st.loads, 0, after.loads)
  {
    CfgRuns(c, printable, st, depth);
    RunTame(Overrides(c), PlayedFirst(c.maps, Configured(c, st)), depth, "");
    if |c.maps| > 0 {
      FirstLoads(c.maps, Configured(c, st));
    }
  }

  /** Unless the overrides interfere, the rotation goes on after the file as it does after the script alone. */
  lemma FileResumes(c: Config, printable: PrintTable, st: State, k: nat, depth: nat)
    requires Printable(c, printable) && depth >= 2
    requires |c.maps| > 0 && LeaveRotation(Overrides(c), |c.maps|)
    ensures var after := Run(Commands(CfgText(c, printable)), st, depth);
            MapEnds(after, k, depth) == Resumed(c.maps, after, k)
  {
    var first := PlayedFirst(c.maps, Configured(c, st));
    var after := Run(Commands(CfgText(c, printable)), st, depth);
    CfgRuns(c, printable, st, depth);
    FirstArms(c.maps, Configured(c, st));
    BodiesCompiled(c.maps);
    StaysArmed(Overrides(c), Bodies(c.maps), Position(|c.maps|, 1), first, depth);
    MapEndsPlay(c.maps, Bodies(c.maps), after, k, depth);
  }

  /** The console once the file has been run and k maps have ended. */
  function Running(c: Config, printable: PrintTable, st: State, k: nat, depth: nat): State {
    MapEnds(Run(Commands(CfgText(c, printable)), st, depth), k, depth)
  }

  /** Without a map end nothing is asked of the overrides; otherwise they must not interfere with the rotation. */
  predicate Rotates(c: Config, k: nat) {
    k > 0 ==> |c.maps| > 0 && LeaveRotation(Overrides(c), |c.maps|)
  }

  /**
   Running the printed file and ending k maps leaves variable `name` at the value of the last
   map at positions 1..k that sets it, else of the last override that assigns it, else at what
   map 0's program sets, else at the configuration's setting, else as it was.
   */
  lemma CfgMeaning(c: Config, printable: PrintTable, st: State, k: nat, depth: nat, name: string)
    requires Printable(c, printable) && depth >= 2 && NotASlot(name) && Rotates(c, k)
    ensures Get(Running(c, printable, st, k, depth).vars, name) == AfterMaps(c, k, name, st.vars)
  {
    FileValue(c, printable, st, depth, name);
    if k > 0 {
      FileResumes(c, printable, st, k, depth);
      ResumedLooksUp(c.maps, Run(Commands(CfgText(c, printable)), st, depth), k, name);
    }
  }

  /** Running the printed file and ending k maps loads the maps at positions 0..k, in cyclic order. */
  lemma CfgLoads(c: Config, printable: PrintTable, st: State, k: nat, depth: nat)
    requires Printable(c, printable) && depth >= 2 && Rotates(c, k)
    ensures var after := Running(c, printable, st, k, depth);
            && after.stuck == st.stuck
            && if |c.maps| == 0 then after.loads == st.loads else LoadedInOrder(c.maps, st.loads, k, after.loads)
  {
    FileLoads(c, printable, st, depth);
    if k > 0 {
      FileResumes(c, printable, st, k, depth);
      ResumedLoads(c.maps, st.loads, Run(Commands(CfgText(c, printable)), st, depth), k);
    }
  }

  // ---- Looking up settings ----

  lemma {:induction false} LastValueConcat(a: seq<Setting>, b: seq<Setting>, name: string)
    ensures LastValue(a + b, name) == if LastValue(b, name).Some? then LastValue(b, name) else LastValue(a, name)
    decreases |a|
  {
    if |a| == 0 {
      assert a + b == b;
    } else {
      assert (a + b)[1..] == a[1..] + b;
      LastValueConcat(a[1..], b, name);
    }
  }
}
