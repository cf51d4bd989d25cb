/**
 The whole way of a configuration: the operator's specification is printed as YAML
 (operator/internal/controller/quakeserver_controller.go), the game container reads that over its
 defaults and prints server.cfg (internal/quake/server/server.go), and the game server executes it.
 */
module Pipeline {
  import opened Wrappers
  import opened Text
  import opened Quoting
  import opened Console
  import opened ConfigSpec
  import opened YamlConfig
  import opened YamlRoundTrip
  import opened YamlText
  import opened Rotation
  import opened RotationPlay
  import opened RotationLimits
  import opened ServerCfgFields
  import opened ServerCfgMeaning
  import Cfg = ServerCfg
  import Reload

  /** `Marshal` reads the fields of the configuration it is given, so a nil one makes it panic. */
  function Printed(c: Option<Cfg.Config>, printable: PrintTable): Reload.Outcome {
    match c
    case Some(cfg) => Reload.Script(Cfg.CfgText(cfg, printable))
    case None => Reload.Panics
  }

  /** What `reload` makes of the contents of the configuration file: the text of server.cfg if it parses. */
  function Compile(file: string, printable: PrintTable): Reload.Outcome {
    match Unmarshal(Cfg.DEFAULT, file)
    case Some(c) => Printed(c, printable)
    case None => Reload.Rejected
  }

  function Compiler(printable: PrintTable): Reload.Compiler {
    text => Compile(text, printable)
  }

  /** The program is about to read the configuration file, and the file says null. */
  predicate ReadsNull(st: Reload.State, a: Reload.Action) {
    st.phase.Reading? && a.Main? && st.file.Some? && NullDocument(st.file.value)
  }

  lemma PanicIsNull(st: Reload.State, a: Reload.Action, printable: PrintTable)
    requires st.compile == Compiler(printable)
    ensures Reload.ReadsPanic(st, a) <==> ReadsNull(st, a)
  {
    if st.file.Some? {
      NilExactly(Cfg.DEFAULT, st.file.value);
    }
  }

  /** Whatever happens, the program panics exactly if it reads a null document at some time. */
  lemma SurvivesUnlessNull(file: Option<string>, actions: seq<Reload.Action>, printable: PrintTable)
    ensures var init := Reload.Init(Compiler(printable), file);
            Reload.Run(init, actions).phase.Panicked?
            <==> exists i :: 0 <= i < |actions| && ReadsNull(Reload.Run(init, actions[..i]), actions[i])
  {
    var init := Reload.Init(Compiler(printable), file);
    Reload.PanicsExactly(init, actions);
    forall i | 0 <= i < |actions|
      ensures Reload.ReadsPanic(Reload.Run(init, actions[..i]), actions[i])
              <==> ReadsNull(Reload.Run(init, actions[..i]), actions[i])
    {
      Reload.RunPanicExplained(init, actions[..i]);
      PanicIsNull(Reload.Run(init, actions[..i]), actions[i], printable);
    }
  }

  /**
   The whole way. The printed specification compiles, and once the game has run the file and k
   maps have ended, every console variable has the value that the specification over the defaults
   gives it, and exactly the maps at positions 0..k have been loaded.
   */
  lemma EndToEnd(spec: ServerConfig, printable: PrintTable, st: State, k: nat, depth: nat, name: string)
    requires Fits(spec) && Printable(Overlay(Cfg.DEFAULT, spec), printable)
    requires depth >= 2 && NotASlot(name) && Rotates(Overlay(Cfg.DEFAULT, spec), k)
    ensures var script := Compile(ConfigYaml(Some(spec), printable), printable);
            script.Script? && Obeys(Overlay(Cfg.DEFAULT, spec), script.text, st, k, depth, name)
  {
    PrintedCompiles(spec, printable);
    FileObeys(Overlay(Cfg.DEFAULT, spec), printable, st, k, depth, name);
  }

  lemma PrintedCompiles(spec: ServerConfig, printable: PrintTable)
    requires Fits(spec)
    ensures Compile(ConfigYaml(Some(spec), printable), printable)
         == Reload.Script(Cfg.CfgText(Overlay(Cfg.DEFAULT, spec), printable))
  {
    RoundTrip(spec, printable, Cfg.DEFAULT);
    ReadCompiles(ConfigYaml(Some(spec), printable), Overlay(Cfg.DEFAULT, spec), printable);
  }

  lemma ReadCompiles(file: string, c: Cfg.Config, printable: PrintTable)
    requires Unmarshal(Cfg.DEFAULT, file) == Some(Some(c))
    ensures Compile(file, printable) == Reload.Script(Cfg.CfgText(c, printable))
  {
  }

  lemma FileObeys(c: Cfg.Config, printable: PrintTable, st: State, k: nat, depth: nat, name: string)
    requires Printable(c, printable) && depth >= 2 && NotASlot(name) && Rotates(c, k)
    ensures Obeys(c, Cfg.CfgText(c, printable), st, k, depth, name)
  {
    CfgMeaning(c, printable, st, k, depth, name);
    CfgLoads(c, printable, st, k, depth);
  }

  /** Running a script and ending k maps does what the configuration says. */
  predicate Obeys(c: Cfg.Config, script: string, st: State, k: nat, depth: nat, name: string) {
    var after := MapEnds(Run(Commands(script), st, depth), k, depth);
    && Get(after.vars, name) == AfterMaps(c, k, name, st.vars)
    && if |c.maps| == 0 then after.loads == st.loads else LoadedInOrder(c.maps, st.loads, k, after.loads)
  }

  /**
   The specification's own limits are in force until a map sets its own, which then sticks: the capture
   limit only of CaptureTheFlag maps. The time is in whole minutes.
   */
  lemma LimitsEndToEnd(spec: ServerConfig, printable: PrintTable, st: State, k: nat, depth: nat, minutes: int)
    requires Fits(spec) && Printable(Overlay(Cfg.DEFAULT, spec), printable) && depth >= 2
    requires Rotates(Overlay(Cfg.DEFAULT, spec), k) && SparesLimits(Overlay(Cfg.DEFAULT, spec))
    requires WholeMinutes(spec.timeLimit.GetOr(900_000_000_000), minutes)
    ensures var script := Compile(ConfigYaml(Some(spec), printable), printable);
            script.Script?
            && LimitsStick(if |spec.maps| > 0 then ToMaps(spec.maps) else Cfg.DEFAULT.maps, k,
                           (Get(st.vars, "capturelimit"), Itoa(spec.fragLimit.GetOr(25)), Itoa(minutes)),
                           MapEnds(Run(Commands(script.text), st, depth), k, depth).vars)
  {
    PrintedCompiles(spec, printable);
    CfgLimits(Overlay(Cfg.DEFAULT, spec), printable, st, k, depth, minutes);
  }

  /** The number that the game knows a type of game by, as it is written; no type is FreeForAll. */
  predicate PlaysAs(gameType: string, number: string) {
    && (gameType == "" || gameType == "FreeForAll" || gameType == "FFA" ==> number == "0")
    && (gameType == "Tournament" ==> number == "1")
    && (gameType == "SinglePlayer" ==> number == "2")
    && (gameType == "TeamDeathmatch" ==> number == "3")
    && (gameType == "CaptureTheFlag" || gameType == "CTF" ==> number == "4")
  }

  lemma TypesAreNumbers(gameType: string)
    ensures PlaysAs(gameType, Itoa(TypeNumber(gameType, 0)))
  {
  }

  predicate LoadsAs(maps: seq<MapSpec>, j: nat, load: Load)
    requires |maps| > 0
  {
    load.name == maps[j % |maps|].name && PlaysAs(maps[j % |maps|].gameType, Get(load.vars, "g_gametype"))
  }

  /** Since `before`, the specified maps were loaded in their order, over and over, each under its own type. */
  predicate MapsLoaded(maps: seq<MapSpec>, before: seq<Load>, k: nat, loads: seq<Load>)
    requires |maps| > 0
  {
    && |loads| == |before| + k + 1 && before <= loads
    && forall i :: |before| <= i < |loads| ==> LoadsAs(maps, i - |before|, loads[i])
  }

  lemma LoadsSpecified(maps: seq<MapSpec>, before: seq<Load>, k: nat, loads: seq<Load>)
    requires |maps| > 0 && LoadedInOrder(ToMaps(maps), before, k, loads)
    ensures MapsLoaded(maps, before, k, loads)
  {
    forall i | |before| <= i < |loads| ensures LoadsAs(maps, i - |before|, loads[i]) {
      assert Loads(ToMaps(maps), i - |before|, loads[i]);
      TypesAreNumbers(maps[(i - |before|) % |maps|].gameType);
    }
  }

  lemma MapsEndToEnd(spec: ServerConfig, printable: PrintTable, st: State, k: nat, depth: nat)
    requires Fits(spec) && Printable(Overlay(Cfg.DEFAULT, spec), printable) && depth >= 2
    requires Rotates(Overlay(Cfg.DEFAULT, spec), k) && |spec.maps| > 0
    ensures var script := Compile(ConfigYaml(Some(spec), printable), printable);
            script.Script?
            && MapsLoaded(spec.maps, st.loads, k, MapEnds(Run(Commands(script.text), st, depth), k, depth).loads)
  {
    var c := Overlay(Cfg.DEFAULT, spec);
    PrintedCompiles(spec, printable);
    CfgLoads(c, printable, st, k, depth);
    LoadsSpecified(spec.maps, st.loads, k, Running(c, printable, st, k, depth).loads);
  }

  // ---- Every field of the specification ----

  /** A text that the specification sets, or the default. */
  function TextOf<S>(section: Option<S>, field: S -> string, default: string): string {
    if section.Some? && field(section.value) != "" then field(section.value) else default
  }

  function NumberOf<S>(section: Option<S>, field: S -> Option<int>, default: int): int {
    if section.Some? && field(section.value).Some? then field(section.value).value else default
  }

  ghost predicate GameAsSpecified(spec: ServerConfig, vars: Vars) {
    var c := Overlay(Cfg.DEFAULT, spec);
    && Keeps(c, vars, "bot_minplayers", Itoa(NumberOf(spec.bot, (b: BotConfig) => b.minPlayers, 0)))
    && Keeps(c, vars, "bot_nochat", "1")
    && Keeps(c, vars, "g_spSkill", Itoa(NumberOf(spec.bot, (b: BotConfig) => b.skill, 2)))
    && Keeps(c, vars, "g_forcerespawn", if spec.game.Some? && spec.game.value.forceRespawn then "1" else "0")
    && (forall n :: WholeSeconds(NumberOf(spec.game, (g: GameConfig) => g.inactivity, 600_000_000_000), n) ==>
          Keeps(c, vars, "g_inactivity", Itoa(n)))
    && Keeps(c, vars, "g_log", "")
    && Keeps(c, vars, "g_motd", TextOf(spec.game, (g: GameConfig) => g.motd, "Welcome to QuakeKube!"))
    && Keeps(c, vars, "g_password", TextOf(spec.game, (g: GameConfig) => g.password, ""))
    && Keeps(c, vars, "g_quadfactor", Itoa(NumberOf(spec.game, (g: GameConfig) => g.quadFactor, 3)))
    && Keeps(c, vars, "g_weaponrespawn", Itoa(NumberOf(spec.game, (g: GameConfig) => g.weaponRespawn, 3)))
  }

  ghost predicate ServerAsSpecified(spec: ServerConfig, vars: Vars) {
    var c := Overlay(Cfg.DEFAULT, spec);
    && Keeps(c, vars, "sv_hostname", TextOf(spec.server, (s: ServerSettings) => s.hostname, "quakekube"))
    && Keeps(c, vars, "sv_maxclients", Itoa(NumberOf(spec.server, (s: ServerSettings) => s.maxClients, 12)))
    && Keeps(c, vars, "rconpassword", TextOf(spec.server, (s: ServerSettings) => s.rconPassword, "changeme"))
    && Keeps(c, vars, "sv_allowDownload", "0")
    && Keeps(c, vars, "fs_basegame", "") && Keeps(c, vars, "fs_basepath", "") && Keeps(c, vars, "fs_game", "")
    && Keeps(c, vars, "fs_homepath", "") && Keeps(c, vars, "fs_copyfiles", "0") && Keeps(c, vars, "fs_debug", "0")
  }

  ghost predicate AsSpecified(spec: ServerConfig, script: string, st: State, k: nat, depth: nat) {
    var vars := MapEnds(Run(Commands(script), st, depth), k, depth).vars;
    GameAsSpecified(spec, vars) && ServerAsSpecified(spec, vars)
  }

  /**
   From the specification to the console, field by field: what it sets is what the variable holds, and
   elsewhere the default, whatever the maps, unless an override assigns the variable.
   */
  lemma FieldsEndToEnd(spec: ServerConfig, printable: PrintTable, st: State, k: nat, depth: nat)
    requires Fits(spec) && Printable(Overlay(Cfg.DEFAULT, spec), printable) && depth >= 2
    requires Rotates(Overlay(Cfg.DEFAULT, spec), k)
    ensures var script := Compile(ConfigYaml(Some(spec), printable), printable);
            script.Script? && AsSpecified(spec, script.text, st, k, depth)
  {
    PrintedCompiles(spec, printable);
    CfgFields(Overlay(Cfg.DEFAULT, spec), printable, st, k, depth);
    OverlaidGame(spec, Running(Overlay(Cfg.DEFAULT, spec), printable, st, k, depth).vars);
    OverlaidServer(spec, Running(Overlay(Cfg.DEFAULT, spec), printable, st, k, depth).vars);
  }

  lemma OverlaidBot(spec: ServerConfig)
    ensures Overlay(Cfg.DEFAULT, spec).bot
         == Cfg.Bot(NumberOf(spec.bot, (b: BotConfig) => b.minPlayers, 0), true,
                    NumberOf(spec.bot, (b: BotConfig) => b.skill, 2))
  {
  }

  lemma OverlaidTexts(spec: ServerConfig)
    ensures var game := Overlay(Cfg.DEFAULT, spec).game;
            && game.log == "" && game.motd == TextOf(spec.game, (g: GameConfig) => g.motd, "Welcome to QuakeKube!")
            && game.joinPassword == TextOf(spec.game, (g: GameConfig) => g.password, "")
            && (game.forceRespawn <==> spec.game.Some? && spec.game.value.forceRespawn)
  {
  }

  lemma OverlaidNumbers(spec: ServerConfig)
    ensures var game := Overlay(Cfg.DEFAULT, spec).game;
            && game.inactivity == NumberOf(spec.game, (g: GameConfig) => g.inactivity, 600_000_000_000)
            && game.quadFactor == NumberOf(spec.game, (g: GameConfig) => g.quadFactor, 3)
            && game.weaponRespawn == NumberOf(spec.game, (g: GameConfig) => g.weaponRespawn, 3)
  {
  }

  lemma OverlaidGame(spec: ServerConfig, vars: Vars)
    requires GameFields(Overlay(Cfg.DEFAULT, spec), vars)
    ensures GameAsSpecified(spec, vars)
  {
    OverlaidBot(spec);
    OverlaidTexts(spec);
    OverlaidNumbers(spec);
  }

  lemma OverlaidServer(spec: ServerConfig, vars: Vars)
    requires ServerFields(Overlay(Cfg.DEFAULT, spec), vars)
    ensures ServerAsSpecified(spec, vars)
  {
  }

  lemma NothingSetChangesNothing(c: Cfg.Config, printable: PrintTable)
    requires c.fragLimit == 25 && c.timeLimit == 900 * Cfg.SECOND && OnlyNames(c.maps)
    ensures Unmarshal(c, ConfigYaml(Some(EMPTY), printable)) == Some(Some(c))
  {
    EmptyFits();
    RoundTrip(EMPTY, printable, c);
    OverlayNothing(c);
  }

  /** A specification that sets nothing runs the defaults, although the limits are always printed. */
  lemma NothingSetIsDefault(printable: PrintTable)
    ensures Unmarshal(Cfg.DEFAULT, ConfigYaml(Some(EMPTY), printable)) == Some(Some(Cfg.DEFAULT))
  {
    NothingSetChangesNothing(Cfg.DEFAULT, printable);
  }

  /**
   A boolean can only be switched on. Whatever the specification says, the bots of the running
   game are silent, because `noChat: false` counts as unset and the default is true.
   */
  lemma NoChatCannotBeSwitchedOff(spec: ServerConfig, printable: PrintTable)
    requires Fits(spec)
    ensures var read := Unmarshal(Cfg.DEFAULT, ConfigYaml(Some(spec), printable));
            read.Some? && read.value.Some? && read.value.value.bot.noChat
  {
    RoundTrip(spec, printable, Cfg.DEFAULT);
  }
}
