/**
 What the compiled rotation does when the console runs it: after the script has run and the
 game has fired `vstr nextmap` k times, the console is where direct cyclic play would be.
 */
module RotationPlay {
  import opened Wrappers
  import opened Text
  import opened Console
  import opened Rotation

  /** Map names the compiler can place in a program without quoting. */
  predicate WellFormed(maps: seq<Map>) {
    |maps| > 0 && forall m :: m in maps ==> Word(m.name)
  }

  // ---- The text as commands ----

  function BodyCommands(m: Map, next: nat): seq<seq<string>> {
    [["seta", "g_gametype", Itoa(m.gameType)]] + LimitWords(m) + [["map", m.name]] +
    [["set", "nextmap", "vstr", Slot(next)]]
  }

  function Definition(bodies: seq<string>, i: nat): seq<string>
    requires i < |bodies|
  {
    ["set", Slot(i), bodies[i]]
  }

  function Definitions(bodies: seq<string>): seq<seq<string>> {
    seq(|bodies|, i requires 0 <= i < |bodies| => Definition(bodies, i))
  }

  lemma NumberIsWord(n: int)
    ensures SimpleWord(Itoa(n)) && Word(Itoa(n))
  {
    SimpleIsWord(Itoa(n));
  }

  lemma SlotIsWord(i: nat)
    ensures SimpleWord(Slot(i)) && Word(Slot(i))
  {
    NumberIsWord(i);
    SimpleIsWord(Slot(i));
  }

  lemma SimpleAreWords(a: string, b: string, c: string)
    requires SimpleWord(a) && SimpleWord(b) && SimpleWord(c)
    ensures Word(a) && Word(b) && Word(c)
  {
    SimpleIsWord(a);
    SimpleIsWord(b);
    SimpleIsWord(c);
  }

  lemma SettingPlain(name: string, value: Option<string>)
    requires Word(name) && (value.Some? ==> Word(value.value))
    ensures PlainCommands(Assignment(name, value))
  {
  }

  lemma LimitsAreWords()
    ensures Word("capturelimit") && Word("fraglimit") && Word("timelimit")
  {
    SimpleAreWords("capturelimit", "fraglimit", "timelimit");
  }

  lemma LimitValues(m: Map)
    ensures CaptureSet(m).Some? ==> Word(CaptureSet(m).value)
    ensures FragSet(m).Some? ==> Word(FragSet(m).value)
    ensures TimeSet(m).Some? ==> Word(TimeSet(m).value)
  {
    NumberIsWord(m.captureLimit);
    NumberIsWord(m.fragLimit);
    NumberIsWord(Minutes(m.timeLimit));
  }

  lemma LimitsPlain(m: Map)
    ensures PlainCommands(LimitWords(m))
  {
    LimitsAreWords();
    LimitValues(m);
    SettingsPlain("capturelimit", "fraglimit", "timelimit", CaptureSet(m), FragSet(m), TimeSet(m));
  }

  lemma SettingsPlain(a: string, b: string, c: string, x: Option<string>, y: Option<string>, z: Option<string>)
    requires Word(a) && Word(b) && Word(c)
    requires (x.Some? ==> Word(x.value)) && (y.Some? ==> Word(y.value)) && (z.Some? ==> Word(z.value))
    ensures PlainCommands(Assignment(a, x) + Assignment(b, y) + Assignment(c, z))
  {
    SettingPlain(a, x);
    SettingPlain(b, y);
    SettingPlain(c, z);
  }

  lemma FirstWords()
    ensures Word("seta") && Word("g_gametype") && Word("map")
  {
    SimpleAreWords("seta", "g_gametype", "map");
  }

  lemma JumpWords()
    ensures Word("set") && Word("nextmap") && Word("vstr")
  {
    SimpleAreWords("set", "nextmap", "vstr");
  }

  lemma ProgramPlain(first: seq<string>, rest: seq<seq<string>>, load: seq<string>, last: seq<string>)
    requires AllWords(first) && PlainCommands(rest) && AllWords(load) && AllWords(last)
    ensures PlainCommands([first] + rest + [load] + [last])
  {
  }

  lemma WordsAre(a: string, b: string, c: string, d: string)
    requires Word(a) && Word(b) && Word(c) && Word(d)
    ensures AllWords([a, b]) && AllWords([a, b, c]) && AllWords([a, b, c, d])
  {
  }

  lemma BodyPlain(m: Map, next: nat)
    requires Word(m.name)
    ensures PlainCommands(BodyCommands(m, next))
  {
    LimitsPlain(m);
    SlotIsWord(next);
    NumberIsWord(m.gameType);
    FirstWords();
    JumpWords();
    WordsAre("seta", "g_gametype", Itoa(m.gameType), "map");
    WordsAre("map", m.name, "map", "map");
    WordsAre("set", "nextmap", "vstr", Slot(next));
    ProgramPlain(["seta", "g_gametype", Itoa(m.gameType)], LimitWords(m), ["map", m.name],
                 ["set", "nextmap", "vstr", Slot(next)]);
  }

  lemma BodyText(m: Map, next: nat)
    ensures Body(m, next) == ProgramText(BodyCommands(m, next))
  {
    var number := Itoa(m.gameType);
    var rest := LimitWords(m) + [["map", m.name]];
    assert CommandWords(m) == [["g_gametype", number]] + rest;
    Surround(["g_gametype", number], rest, ["seta", "g_gametype", number], ["set", "nextmap", "vstr", Slot(next)]);
    assert BodyCommands(m, next)
        == [["seta", "g_gametype", number]] + rest + [["set", "nextmap", "vstr", Slot(next)]];
    JoinThree("seta", "g_gametype", number);
    JoinFour("set", "nextmap", "vstr", Slot(next));
    BodyPieces(ProgramText(CommandWords(m)), Slot(next));
    BodyGroups("seta" + " ", Join(["g_gametype", number], " "), ProgramText(rest),
               "set" + " " + "nextmap" + " " + "vstr" + " " + Slot(next));
  }

  lemma BodyPieces(p: string, slot: string)
    ensures "seta " + p + " ; set nextmap vstr " + slot
         == ("seta" + " ") + p + " ; " + ("set" + " " + "nextmap" + " " + "vstr" + " " + slot)
  {
    assert "seta" + " " == "seta ";
    assert " ; set nextmap vstr " == " ; " + ("set" + " " + "nextmap" + " " + "vstr" + " ");
  }

  /** Programs that differ in their first sentence and gain a last one. */
  lemma Surround(first: seq<string>, rest: seq<seq<string>>, first': seq<string>, last: seq<string>)
    requires |rest| >= 1
    ensures ProgramText([first] + rest) == Join(first, " ") + " ; " + ProgramText(rest)
    ensures ProgramText([first'] + rest + [last])
            == Join(first', " ") + " ; " + (ProgramText(rest) + " ; " + Join(last, " "))
  {
    ProgramTextStep([first] + rest);
    ProgramTextStep([first'] + rest + [last]);
    assert ([first] + rest)[1..] == rest;
    assert ([first'] + rest + [last])[1..] == rest + [last];
    ProgramTextConcat(rest, [last]);
    ProgramTextStep([last]);
  }

  lemma BodyGroups(s: string, g: string, r: string, last: string)
    ensures s + (g + " ; " + r) + " ; " + last == (s + g) + " ; " + (r + " ; " + last)
  {
  }

  lemma JoinThree(a: string, b: string, c: string)
    ensures Join([a, b, c], " ") == a + " " + Join([b, c], " ")
  {
    assert [a, b, c][1..] == [b, c];
  }

  lemma JoinFour(a: string, b: string, c: string, d: string)
    ensures Join([a, b, c, d], " ") == a + " " + b + " " + c + " " + d
  {
    assert [a, b, c, d][1..] == [b, c, d];
    JoinThree(b, c, d);
    assert Join([c, d], " ") == c + " " + d;
  }

  lemma BodyReadsBack(m: Map, next: nat)
    requires Word(m.name)
    ensures Commands(Body(m, next)) == BodyCommands(m, next)
    ensures Quotable(Body(m, next))
  {
    BodyText(m, next);
    BodyPlain(m, next);
    var cmds := BodyCommands(m, next);
    CommandsOfProgram(cmds, "");
    assert "" + ProgramText(cmds) == ProgramText(cmds);
    ProgramQuotable(cmds);
  }

  lemma LineReadsBack(bodies: seq<string>, i: nat)
    requires i < |bodies| && Quotable(bodies[i])
    ensures ReadsAs(Line(bodies, i), Definition(bodies, i))
  {
    SlotIsWord(i);
    JumpWords();
    forall r ensures Commands(Line(bodies, i) + r) == [Definition(bodies, i)] + Commands(r) {
      CommandsOfAssignLine("set", Slot(i), bodies[i], r);
    }
  }

  lemma LinesReadBack(bodies: seq<string>, r: string)
    requires forall b :: b in bodies ==> Quotable(b)
    ensures Commands(Concat(Lines(bodies)) + r) == Definitions(bodies) + Commands(r)
  {
    forall i | 0 <= i < |bodies| ensures ReadsAs(Lines(bodies)[i], Definitions(bodies)[i]) {
      LineReadsBack(bodies, i);
    }
    LinesRead(Lines(bodies), Definitions(bodies), r);
  }

  /** Every body reads back as its commands. */
  lemma BodiesReadBack(maps: seq<Map>)
    requires WellFormed(maps)
    ensures forall b :: b in Bodies(maps) ==> Quotable(b)
    ensures forall i :: 0 <= i < |maps| ==>
              Commands(Bodies(maps)[i]) == BodyCommands(maps[i], Next(i, |maps|))
  {
    forall i | 0 <= i < |maps|
      ensures Quotable(Bodies(maps)[i])
      ensures Commands(Bodies(maps)[i]) == BodyCommands(maps[i], Next(i, |maps|))
    {
      assert maps[i] in maps;
      BodyReadsBack(maps[i], Next(i, |maps|));
    }
  }

  lemma RotationReadsBack(maps: seq<Map>)
    requires WellFormed(maps)
    ensures Commands(RotationText(maps)) == Definitions(Bodies(maps)) + [["vstr", "d0"]]
  {
    BodiesReadBack(maps);
    LinesReadBack(Bodies(maps), "vstr d0\n");
    JumpReadsBack();
  }

  lemma JumpReadsBack()
    ensures Commands("vstr d0\n") == [["vstr", "d0"]]
  {
    JumpLineReads("d0", "");
    assert "vstr" + " " + "d0" + "\n" + "" == "vstr d0\n";
  }

  lemma JumpLineReads(slot: string, r: string)
    requires SimpleWord(slot)
    ensures Commands("vstr" + " " + slot + "\n" + r) == [["vstr", slot]] + Commands(r)
  {
    SimpleIsWord(slot);
    VstrPlain(slot);
    CommandsOfPlainLine("vstr" + " " + slot, '\n', r);
    VstrWords(slot);
  }

  lemma VstrPlain(name: string)
    requires Word(name)
    ensures Plain("vstr" + " " + name)
  {
    SimpleIsWord("vstr");
    SentencePlain([name]);
    WordThenPlain("vstr", name);
  }

  lemma VstrWords(name: string)
    requires Word(name)
    ensures Words("vstr" + " " + name) == ["vstr", name]
  {
    WordsOfSentence(["vstr", name], "");
    assert Join(["vstr", name], " ") + "" == "vstr" + " " + name;
  }

  // ---- Direct play ----

  function Set(vars: Vars, name: string, value: Option<string>): Vars {
    match value
    case Some(v) => vars[name := v]
    case None => vars
  }

  /** The variables once the game has switched to map `m`. */
  function Enter(m: Map, vars: Vars): Vars {
    Set(Set(Set(Set(vars, "g_gametype", Some(Itoa(m.gameType))), "capturelimit", CaptureSet(m)),
            "fraglimit", FragSet(m)), "timelimit", TimeSet(m))
  }

  function PlayMap(m: Map, next: nat, st: State): State {
    var vars := Enter(m, st.vars);
    State(vars["nextmap" := "vstr " + Slot(next)], st.loads + [Load(m.name, vars)], st.stuck)
  }

  function DefineSlots(bodies: seq<string>, i: nat, vars: Vars): Vars
    requires i <= |bodies|
  {
    if i == 0 then vars else DefineSlots(bodies, i - 1, vars)[Slot(i - 1) := bodies[i - 1]]
  }

  function Start(maps: seq<Map>, st: State): State {
    st.(vars := DefineSlots(Bodies(maps), |maps|, st.vars))
  }

  /** The position of the rotation that is played after `k` map ends. */
  function Position(n: nat, k: nat): (i: nat)
    requires n > 0
    ensures i < n
  {
    if k == 0 then 0 else Next(Position(n, k - 1), n)
  }

  /** Direct cyclic play from a state in which position 0 has been played, up to position k. */
  function Resumed(maps: seq<Map>, st: State, k: nat): State
    requires |maps| > 0
  {
    if k == 0 then st
    else var i := Position(|maps|, k); PlayMap(maps[i], Next(i, |maps|), Resumed(maps, st, k - 1))
  }

  /** Direct cyclic play of positions 0..k. */
  function Played(maps: seq<Map>, start: State, k: nat): State
    requires |maps| > 0
  {
    Resumed(maps, PlayMap(maps[0], Next(0, |maps|), start), k)
  }

  /** The game reached the end of a map k times. */
  function MapEnds(st: State, k: nat, depth: nat): State {
    Iterate(s => Execute(["vstr", "nextmap"], s, depth), st, k)
  }

  function Iterate<S>(step: S -> S, s: S, k: nat): S {
    if k == 0 then s else step(Iterate(step, s, k - 1))
  }

  lemma {:induction false} IterateFollows<S>(step: S -> S, path: nat -> S, k: nat)
    requires forall j: nat :: step(path(j)) == path(j + 1)
    ensures Iterate(step, path(0), k) == path(k)
  {
    if k > 0 {
      IterateFollows(step, path, k - 1);
    }
  }

  // ---- Running a map's program is playing the map ----

  lemma ExecuteSet(command: string, name: string, value: string, st: State, depth: nat)
    requires command == "set" || command == "seta"
    ensures Execute([command, name, value], st, depth) == Assign(st, name, value)
  {
    assert [command, name, value][2..] == [value];
  }

  lemma RunOne(words: seq<string>, st: State, depth: nat)
    ensures Run([words], st, depth) == Execute(words, st, depth)
  {
    assert [words][1..] == [];
  }

  lemma RunSetting(name: string, value: Option<string>, st: State, depth: nat)
    requires name in {"capturelimit", "fraglimit", "timelimit"}
    ensures Run(Assignment(name, value), st, depth) == st.(vars := Set(st.vars, name, value))
  {
    if value.Some? {
      RunOne([name, value.value], st, depth);
      assert [name, value.value][1..] == [value.value];
      assert Join([value.value], " ") == value.value;
    }
  }

  lemma RunLimits(m: Map, st: State, depth: nat)
    ensures Run(LimitWords(m), st, depth)
         == st.(vars := Set(Set(Set(st.vars, "capturelimit", CaptureSet(m)), "fraglimit", FragSet(m)),
                            "timelimit", TimeSet(m)))
  {
    var c, f := Assignment("capturelimit", CaptureSet(m)), Assignment("fraglimit", FragSet(m));
    var t := Assignment("timelimit", TimeSet(m));
    var st1 := st.(vars := Set(st.vars, "capturelimit", CaptureSet(m)));
    var st2 := st1.(vars := Set(st1.vars, "fraglimit", FragSet(m)));
    RunConcat(c + f, t, st, depth);
    RunConcat(c, f, st, depth);
    RunSetting("capturelimit", CaptureSet(m), st, depth);
    RunSetting("fraglimit", FragSet(m), st1, depth);
    RunSetting("timelimit", TimeSet(m), st2, depth);
  }

  lemma RunSetNext(slot: string, st: State, depth: nat)
    ensures Execute(["set", "nextmap", "vstr", slot], st, depth) == Assign(st, "nextmap", "vstr " + slot)
  {
    assert ["set", "nextmap", "vstr", slot][2..] == ["vstr", slot];
    assert ["vstr", slot][1..] == [slot];
    assert Join(["vstr", slot], " ") == "vstr" + " " + slot;
    assert "vstr" + " " == "vstr ";
  }

  lemma RunBody(m: Map, next: nat, st: State, depth: nat)
    ensures Run(BodyCommands(m, next), st, depth) == PlayMap(m, next, st)
  {
    var first := ["seta", "g_gametype", Itoa(m.gameType)];
    var last := ["set", "nextmap", "vstr", Slot(next)];
    var load := ["map", m.name];
    var st1 := Assign(st, "g_gametype", Itoa(m.gameType));
    var st2 := st1.(vars := Enter(m, st.vars));
    RunConcat([first] + LimitWords(m) + [load], [last], st, depth);
    RunConcat([first] + LimitWords(m), [load], st, depth);
    RunConcat([first], LimitWords(m), st, depth);
    ExecuteSet("seta", "g_gametype", Itoa(m.gameType), st, depth);
    RunOne(first, st, depth);
    RunLimits(m, st1, depth);
    RunOne(load, st2, depth);
    var st3 := Execute(load, st2, depth);
    RunOne(last, st3, depth);
    RunSetNext(Slot(next), st3, depth);
  }

  // ---- The definitions ----

  lemma {:induction false} RunDefinitions(bodies: seq<string>, i: nat, st: State, depth: nat)
    requires i <= |bodies|
    ensures Run(Definitions(bodies)[..i], st, depth) == st.(vars := DefineSlots(bodies, i, st.vars))
  {
    if i > 0 {
      RunDefinitions(bodies, i - 1, st, depth);
      var before := Definitions(bodies)[..i - 1];
      var st' := st.(vars := DefineSlots(bodies, i - 1, st.vars));
      assert Definitions(bodies)[..i] == before + [Definition(bodies, i - 1)];
      RunConcat(before, [Definition(bodies, i - 1)], st, depth);
      RunOne(Definition(bodies, i - 1), st', depth);
      ExecuteSet("set", Slot(i - 1), bodies[i - 1], st', depth);
    }
  }

  lemma SlotsDistinct(i: nat, j: nat)
    requires Slot(i) == Slot(j)
    ensures i == j
  {
    assert Slot(i)[1..] == Itoa(i) && Slot(j)[1..] == Itoa(j);
    DecimalInjective(i, j);
  }

  predicate SlotName(name: string) { |name| > 0 && name[0] == 'd' }

  lemma {:induction false} SlotsDefined(bodies: seq<string>, i: nat, vars: Vars, j: nat)
    requires j < i <= |bodies|
    ensures Get(DefineSlots(bodies, i, vars), Slot(j)) == bodies[j]
  {
    if Slot(j) == Slot(i - 1) {
      SlotsDistinct(j, i - 1);
    } else {
      SlotsDefined(bodies, i - 1, vars, j);
    }
  }

  lemma EnterKeeps(m: Map, vars: Vars, name: string)
    requires name !in REGISTERED
    ensures Get(Enter(m, vars), name) == Get(vars, name)
  {
  }

  ghost predicate SlotsHold(bodies: seq<string>, vars: Vars) {
    forall j :: 0 <= j < |bodies| ==> Get(vars, Slot(j)) == bodies[j]
  }

  /** The programs are in place and `nextmap` jumps to slot `i`. */
  ghost predicate Armed(bodies: seq<string>, i: nat, vars: Vars) {
    SlotsHold(bodies, vars) && Get(vars, "nextmap") == "vstr " + Slot(i)
  }

  /** Running a body plays its map. */
  ghost predicate Plays(body: string, m: Map, next: nat) {
    forall st, depth :: Run(Commands(body), st, depth) == PlayMap(m, next, st)
  }

  ghost predicate Compiled(maps: seq<Map>, bodies: seq<string>) {
    && |bodies| == |maps|
    && (forall i :: 0 <= i < |bodies| ==> Quotable(bodies[i]))
    && forall i :: 0 <= i < |bodies| ==> Plays(bodies[i], maps[i], Next(i, |maps|))
  }

  lemma BodiesCompiled(maps: seq<Map>)
    requires WellFormed(maps)
    ensures Compiled(maps, Bodies(maps))
  {
    forall i | 0 <= i < |maps|
      ensures Quotable(Bodies(maps)[i]) && Plays(Bodies(maps)[i], maps[i], Next(i, |maps|))
    {
      assert maps[i] in maps;
      BodyReadsBack(maps[i], Next(i, |maps|));
      BodyPlays(maps[i], Next(i, |maps|));
    }
  }

  lemma BodyPlays(m: Map, next: nat)
    requires Word(m.name)
    ensures Plays(Body(m, next), m, next)
  {
    BodyReadsBack(m, next);
    forall st, depth: nat ensures Run(Commands(Body(m, next)), st, depth) == PlayMap(m, next, st) {
      RunBody(m, next, st, depth);
    }
  }

  lemma StartHolds(bodies: seq<string>, vars: Vars)
    ensures SlotsHold(bodies, DefineSlots(bodies, |bodies|, vars))
  {
    forall j | 0 <= j < |bodies| ensures Get(DefineSlots(bodies, |bodies|, vars), Slot(j)) == bodies[j] {
      SlotsDefined(bodies, |bodies|, vars, j);
    }
  }

  /** Playing never touches the programs. */
  lemma PlayArms(bodies: seq<string>, m: Map, next: nat, st: State)
    requires SlotsHold(bodies, st.vars)
    ensures Armed(bodies, next, PlayMap(m, next, st).vars)
  {
    forall j | 0 <= j < |bodies| ensures Get(PlayMap(m, next, st).vars, Slot(j)) == bodies[j] {
      assert SlotName(Slot(j));
      EnterKeeps(m, st.vars, Slot(j));
    }
  }

  lemma {:induction false} ResumedArmed(maps: seq<Map>, bodies: seq<string>, st: State, k: nat)
    requires |maps| > 0 && Armed(bodies, Position(|maps|, 1), st.vars)
    ensures Armed(bodies, Position(|maps|, k + 1), Resumed(maps, st, k).vars)
  {
    if k > 0 {
      var i := Position(|maps|, k);
      ResumedArmed(maps, bodies, st, k - 1);
      PlayArms(bodies, maps[i], Next(i, |maps|), Resumed(maps, st, k - 1));
    }
  }

  // ---- Main results ----

  /** `vstr` runs the text a variable holds. */
  lemma JumpRuns(name: string, body: string, st: State, depth: nat)
    requires depth >= 1 && Get(st.vars, name) == body
    ensures Execute(["vstr", name], st, depth) == Run(Commands(body), st, depth - 1)
  {
  }

  lemma JumpReads(slot: string)
    requires Word(slot)
    ensures Commands("vstr " + slot) == [["vstr", slot]]
  {
    assert "vstr" + " " + slot == "vstr " + slot;
    VstrPlain(slot);
    CommandsOfLastLine("vstr" + " " + slot);
    VstrWords(slot);
  }

  lemma SlotJumpPlays(maps: seq<Map>, bodies: seq<string>, i: nat, st: State, depth: nat)
    requires Compiled(maps, bodies) && SlotsHold(bodies, st.vars)
    requires i < |maps| && depth >= 1
    ensures Execute(["vstr", Slot(i)], st, depth) == PlayMap(maps[i], Next(i, |maps|), st)
  {
    JumpRuns(Slot(i), bodies[i], st, depth);
    assert Plays(bodies[i], maps[i], Next(i, |maps|));
  }

  lemma NextmapJumps(slot: string, st: State, depth: nat)
    requires Word(slot) && depth >= 1 && Get(st.vars, "nextmap") == "vstr " + slot
    ensures Execute(["vstr", "nextmap"], st, depth) == Execute(["vstr", slot], st, depth - 1)
  {
    JumpRuns("nextmap", "vstr " + slot, st, depth);
    JumpReads(slot);
    RunOne(["vstr", slot], st, depth - 1);
  }

  /** Running the definitions and the first jump plays map 0. */
  lemma DefinitionsPlayFirst(maps: seq<Map>, bodies: seq<string>, st: State, depth: nat)
    requires |maps| > 0 && Compiled(maps, bodies) && depth >= 1
    ensures Run(Definitions(bodies) + [["vstr", "d0"]], st, depth)
         == Played(maps, st.(vars := DefineSlots(bodies, |bodies|, st.vars)), 0)
  {
    var start := st.(vars := DefineSlots(bodies, |bodies|, st.vars));
    RunConcat(Definitions(bodies), [["vstr", "d0"]], st, depth);
    assert Definitions(bodies)[..|bodies|] == Definitions(bodies);
    RunDefinitions(bodies, |bodies|, st, depth);
    RunOne(["vstr", "d0"], start, depth);
    StartHolds(bodies, st.vars);
    assert Slot(0) == "d0";
    SlotJumpPlays(maps, bodies, 0, start, depth);
  }

  /** Running the emitted text defines the programs and plays map 0. */
  lemma ScriptPlaysFirst(maps: seq<Map>, st: State, depth: nat)
    requires WellFormed(maps) && depth >= 1
    ensures Run(Commands(RotationText(maps)), st, depth) == Played(maps, Start(maps, st), 0)
  {
    BodiesCompiled(maps);
    RotationReadsBack(maps);
    DefinitionsPlayFirst(maps, Bodies(maps), st, depth);
  }

  /** One map end moves play on by one position. */
  lemma MapEndPlaysNext(maps: seq<Map>, bodies: seq<string>, st: State, k: nat, depth: nat)
    requires |maps| > 0 && Compiled(maps, bodies) && depth >= 2
    requires Armed(bodies, Position(|maps|, 1), st.vars)
    ensures Execute(["vstr", "nextmap"], Resumed(maps, st, k), depth) == Resumed(maps, st, k + 1)
  {
    ResumedArmed(maps, bodies, st, k);
    var i := Position(|maps|, k + 1);
    SlotIsWord(i);
    NextmapJumps(Slot(i), Resumed(maps, st, k), depth);
    SlotJumpPlays(maps, bodies, i, Resumed(maps, st, k), depth - 1);
  }

  lemma MapEndsFollow(path: nat -> State, k: nat, depth: nat)
    requires forall j: nat :: Execute(["vstr", "nextmap"], path(j), depth) == path(j + 1)
    ensures MapEnds(path(0), k, depth) == path(k)
  {
    IterateFollows(s => Execute(["vstr", "nextmap"], s, depth), path, k);
  }

  /** Wherever the programs are in place, ending maps is direct cyclic play. */
  lemma MapEndsPlay(maps: seq<Map>, bodies: seq<string>, st: State, k: nat, depth: nat)
    requires |maps| > 0 && Compiled(maps, bodies) && depth >= 2
    requires Armed(bodies, Position(|maps|, 1), st.vars)
    ensures MapEnds(st, k, depth) == Resumed(maps, st, k)
  {
    var path := (j: nat) => Resumed(maps, st, j);
    forall j: nat ensures Execute(["vstr", "nextmap"], path(j), depth) == path(j + 1) {
      MapEndPlaysNext(maps, bodies, st, j, depth);
    }
    MapEndsFollow(path, k, depth);
  }

  lemma FirstArms(maps: seq<Map>, st: State)
    requires |maps| > 0
    ensures Armed(Bodies(maps), Position(|maps|, 1), Played(maps, Start(maps, st), 0).vars)
  {
    StartHolds(Bodies(maps), st.vars);
    PlayArms(Bodies(maps), maps[0], Next(0, |maps|), Start(maps, st));
    assert Position(|maps|, 1) == Next(0, |maps|);
  }

  /**
   The rotation compiler is correct: running the emitted text and then ending k maps leaves
   the console exactly where direct cyclic play puts it.
   */
  lemma RotationCorrect(maps: seq<Map>, st: State, k: nat, depth: nat)
    requires WellFormed(maps) && depth >= 2
    ensures MapEnds(Run(Commands(RotationText(maps)), st, depth), k, depth) == Played(maps, Start(maps, st), k)
  {
    BodiesCompiled(maps);
    ScriptPlaysFirst(maps, st, depth);
    FirstArms(maps, st);
    MapEndsPlay(maps, Bodies(maps), Played(maps, Start(maps, st), 0), k, depth);
  }
}
