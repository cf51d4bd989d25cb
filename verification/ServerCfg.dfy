/**
 internal/quake/server/config.go: `Config.Marshal` prints a configuration as server.cfg. The
 order is what gives the file its meaning: settings, then the map rotation, then overrides.
 */
module ServerCfg {
  import opened Text
  import opened Quoting
  import opened Rotation

  const SECOND := 1_000_000_000

  datatype Game = Game(forceRespawn: bool, gameType: int, inactivity: int, log: string, motd: string,
                       joinPassword: string, quadFactor: int, weaponRespawn: int)
  datatype Bot = Bot(minPlayers: int, noChat: bool, skill: int)
  datatype FileServer = FileServer(baseGame: string, basePath: string, copyFiles: bool, debug: bool,
                                   game: string, homePath: string)
  datatype Network = Network(allowDownload: bool, downloadURL: string)
  datatype Server = Server(hostname: string, maxClients: int, rconPassword: string)
  datatype Config = Config(fragLimit: int, timeLimit: int, game: Game, network: Network, bot: Bot,
                           fs: FileServer, server: Server, overrides: seq<string>, maps: seq<Map>)

  /** `WithDefault` (internal/quake/server/server.go). */
  const DEFAULT := Config(
    25, 15 * MINUTE,
    Game(false, 0, 10 * MINUTE, "", "Welcome to QuakeKube!", "", 3, 3),
    Network(false, ""), Bot(0, true, 2), FileServer("", "", false, false, "", ""),
    Server("quakekube", 12, "changeme"), [],
    [Map("q3dm7", 0, 0, 0, 0), Map("q3dm17", 0, 0, 0, 0)])

  function BoolToString(b: bool): string { if b then "1" else "0" }

  /** Whole seconds, truncated toward zero. */
  function Seconds(d: int): int {
    if d >= 0 then d / SECOND else -(-d / SECOND)
  }

  // ---- The settings, in file order ----

  datatype Setting = Seta(name: string, value: string) | Sets(name: string, value: string)

  function RuleSettings(c: Config): seq<Setting> {
    [Seta("fraglimit", Itoa(c.fragLimit)),
     Seta("timelimit", Itoa(Minutes(c.timeLimit))),
     Seta("bot_minplayers", Itoa(c.bot.minPlayers)),
     Seta("bot_nochat", BoolToString(c.bot.noChat))]
  }

  function GameSettings(c: Config): seq<Setting> {
    [Seta("g_forcerespawn", BoolToString(c.game.forceRespawn)),
     Seta("g_gametype", Itoa(c.game.gameType)),
     Seta("g_inactivity", Itoa(Seconds(c.game.inactivity)))]
  }

  function PlaySettings(c: Config): seq<Setting> {
    [Seta("g_log", c.game.log),
     Seta("g_motd", c.game.motd),
     Seta("g_password", c.game.joinPassword),
     Seta("g_quadfactor", Itoa(c.game.quadFactor)),
     Seta("g_spSkill", Itoa(c.bot.skill)),
     Seta("g_weaponrespawn", Itoa(c.game.weaponRespawn))]
  }

  function NetworkSettings(c: Config): seq<Setting> {
    [Seta("sv_allowDownload", BoolToString(c.network.allowDownload))] +
    if c.network.downloadURL != "" then [Sets("sv_dlURL", c.network.downloadURL)] else []
  }

  function FileSettings(c: Config): seq<Setting> {
    [Seta("fs_basegame", c.fs.baseGame),
     Seta("fs_basepath", c.fs.basePath),
     Seta("fs_copyfiles", BoolToString(c.fs.copyFiles)),
     Seta("fs_debug", BoolToString(c.fs.debug)),
     Seta("fs_game", c.fs.game),
     Seta("fs_homepath", c.fs.homePath)]
  }

  function ServerSettings(c: Config): seq<Setting> {
    [Seta("sv_hostname", c.server.hostname),
     Seta("sv_maxclients", Itoa(c.server.maxClients)),
     Seta("rconpassword", c.server.rconPassword)]
  }

  function Settings(c: Config): seq<Setting> {
    RuleSettings(c) + GameSettings(c) + PlaySettings(c) + NetworkSettings(c) + FileSettings(c) + ServerSettings(c)
  }

  function LineOf(s: Setting, printable: PrintTable): string {
    match s
    case Seta(name, value) => "seta " + name + " " + Quote(value, printable) + "\n"
    case Sets(name, value) => "sets " + name + " " + value + "\n"
  }

  function LinesOf(settings: seq<Setting>, printable: PrintTable): seq<string> {
    seq(|settings|, i requires 0 <= i < |settings| => LineOf(settings[i], printable))
  }

  function SettingsText(settings: seq<Setting>, printable: PrintTable): string {
    Concat(LinesOf(settings, printable))
  }

  function OverridesText(overrides: seq<string>): string {
    Concat(seq(|overrides|, i requires 0 <= i < |overrides| => overrides[i] + "\n"))
  }

  /** The whole file. */
  function CfgText(c: Config, printable: PrintTable): string {
    SettingsText(Settings(c), printable)
    + (if |c.maps| > 0 then RotationText(c.maps) else "")
    + OverridesText(c.overrides)
  }

  // ---- Marshal ----

  lemma SettingsTextSnoc(settings: seq<Setting>, s: Setting, printable: PrintTable)
    ensures SettingsText(settings + [s], printable) == SettingsText(settings, printable) + LineOf(s, printable)
  {
    assert LinesOf(settings + [s], printable) == LinesOf(settings, printable) + [LineOf(s, printable)];
    ConcatSnoc(LinesOf(settings, printable), LineOf(s, printable));
  }

  lemma OverridesTextSnoc(overrides: seq<string>, i: nat)
    requires i < |overrides|
    ensures OverridesText(overrides[..i + 1]) == OverridesText(overrides[..i]) + (overrides[i] + "\n")
  {
    var before := overrides[..i];
    var lines := seq(|before|, j requires 0 <= j < |before| => before[j] + "\n");
    var after := overrides[..i + 1];
    assert seq(|after|, j requires 0 <= j < |after| => after[j] + "\n") == lines + [overrides[i] + "\n"];
    ConcatSnoc(lines, overrides[i] + "\n");
  }

  /** The `bytes.Buffer` that `Marshal` prints into; `written` remembers the settings so far. */
  class Buffer {
    var text: string
    const printable: PrintTable
    ghost var written: seq<Setting>

    constructor (printable: PrintTable)
      ensures this.printable == printable && text == "" && written == [] && Valid()
    {
      this.printable := printable;
      text := "";
      written := [];
    }

    ghost predicate Valid()
      reads this
    {
      text == SettingsText(written, printable)
    }

    /** Append one archived setting, its value in quotes. */
    method Seta(name: string, value: string)
      requires Valid()
      modifies this
      ensures Valid() && written == old(written) + [Setting.Seta(name, value)]
    {
      SettingsTextSnoc(written, Setting.Seta(name, value), printable);
      text := text + ("seta " + name + " " + Quote(value, printable) + "\n");
      written := written + [Setting.Seta(name, value)];
    }

    /** Append one setting that is also sent to clients, its value bare. */
    method Sets(name: string, value: string)
      requires Valid()
      modifies this
      ensures Valid() && written == old(written) + [Setting.Sets(name, value)]
    {
      SettingsTextSnoc(written, Setting.Sets(name, value), printable);
      text := text + ("sets " + name + " " + value + "\n");
      written := written + [Setting.Sets(name, value)];
    }
  }

  method WriteRules(b: Buffer, c: Config)
    requires b.Valid()
    modifies b
    ensures b.Valid() && b.written == old(b.written) + RuleSettings(c)
  {
    b.Seta("fraglimit", Itoa(c.fragLimit));
    b.Seta("timelimit", Itoa(Minutes(c.timeLimit)));
    b.Seta("bot_minplayers", Itoa(c.bot.minPlayers));
    b.Seta("bot_nochat", BoolToString(c.bot.noChat));
  }

  method WriteGame(b: Buffer, c: Config)
    requires b.Valid()
    modifies b
    ensures b.Valid() && b.written == old(b.written) + GameSettings(c)
  {
    b.Seta("g_forcerespawn", BoolToString(c.game.forceRespawn));
    b.Seta("g_gametype", Itoa(c.game.gameType));
    b.Seta("g_inactivity", Itoa(Seconds(c.game.inactivity)));
  }

  method WritePlay(b: Buffer, c: Config)
    requires b.Valid()
    modifies b
    ensures b.Valid() && b.written == old(b.written) + PlaySettings(c)
  {
    b.Seta("g_log", c.game.log);
    b.Seta("g_motd", c.game.motd);
    b.Seta("g_password", c.game.joinPassword);
    b.Seta("g_quadfactor", Itoa(c.game.quadFactor));
    b.Seta("g_spSkill", Itoa(c.bot.skill));
    b.Seta("g_weaponrespawn", Itoa(c.game.weaponRespawn));
  }

  method WriteNetwork(b: Buffer, c: Config)
    requires b.Valid()
    modifies b
    ensures b.Valid() && b.written == old(b.written) + NetworkSettings(c)
  {
    b.Seta("sv_allowDownload", BoolToString(c.network.allowDownload));
    if c.network.downloadURL != "" {
      b.Sets("sv_dlURL", c.network.downloadURL);
    }
  }

  method WriteFiles(b: Buffer, c: Config)
    requires b.Valid()
    modifies b
    ensures b.Valid() && b.written == old(b.written) + FileSettings(c)
  {
    b.Seta("fs_basegame", c.fs.baseGame);
    b.Seta("fs_basepath", c.fs.basePath);
    b.Seta("fs_copyfiles", BoolToString(c.fs.copyFiles));
    b.Seta("fs_debug", BoolToString(c.fs.debug));
    b.Seta("fs_game", c.fs.game);
    b.Seta("fs_homepath", c.fs.homePath);
  }

  method WriteServer(b: Buffer, c: Config)
    requires b.Valid()
    modifies b
    ensures b.Valid() && b.written == old(b.written) + ServerSettings(c)
  {
    b.Seta("sv_hostname", c.server.hostname);
    b.Seta("sv_maxclients", Itoa(c.server.maxClients));
    b.Seta("rconpassword", c.server.rconPassword);
  }

  method WriteSettings(b: Buffer, c: Config)
    requires b.Valid() && b.written == []
    modifies b
    ensures b.Valid() && b.written == Settings(c)
  {
    WriteRules(b, c);
    assert b.written == RuleSettings(c);
    WriteGame(b, c);
    WritePlay(b, c);
    WriteNetwork(b, c);
    WriteFiles(b, c);
    WriteServer(b, c);
  }

  method WriteOverrides(b: Buffer, overrides: seq<string>)
    modifies b`text
    ensures b.text == old(b.text) + OverridesText(overrides)
  {
    for i := 0 to |overrides|
      invariant b.text == old(b.text) + OverridesText(overrides[..i])
    {
      OverridesTextSnoc(overrides, i);
      b.text := b.text + overrides[i];
      b.text := b.text + "\n";
    }
    assert overrides[..|overrides|] == overrides;
  }

  /** `Config.Marshal`: the three parts are printed one after the other. */
  method Marshal(c: Config, printable: PrintTable) returns (text: string)
    ensures text == CfgText(c, printable)
  {
    var b := new Buffer(printable);
    WriteSettings(b, c);
    if |c.maps| > 0 {
      var data := MarshalMaps(c.maps);
      b.text := b.text + data;
    }
    WriteOverrides(b, c.overrides);
    text := b.text;
  }
}
