/**
 From the operator's specification to the server's configuration: `generateConfigYAML` prints
 the specification into a ConfigMap, and the server reads that file over its defaults
 (`reload` in internal/quake/server/server.go).
 */
module YamlConfig {
  import opened Wrappers
  import opened Text
  import opened Quoting
  import opened Durations
  import opened ConfigSpec
  import opened YamlText
  import Cfg = ServerCfg
  import Rotation

  // ---- What generateConfigYAML prints ----

  function OptField(depth: nat, key: string, value: Option<string>): seq<Line> {
    match value
    case Some(v) => [Field(depth, key, v)]
    case None => []
  }

  function Number(n: Option<int>): Option<string> {
    match n { case Some(i) => Some(Itoa(i)) case None => None }
  }

  function Span(d: Option<int>): Option<string> {
    match d { case Some(i) => Some(DurationText(i)) case None => None }
  }

  function Plain(s: string): Option<string> { if s != "" then Some(s) else None }

  function QuotedIf(s: string, printable: PrintTable): Option<string> {
    if s != "" then Some(Quote(s, printable)) else None
  }

  function Flag(b: bool): Option<string> { if b then Some("true") else None }

  function BotLines(bot: BotConfig): seq<Line> {
    [Open("bot")]
    + OptField(2, "minPlayers", Number(bot.minPlayers))
    + OptField(2, "skill", Number(bot.skill))
    + OptField(2, "noChat", Flag(bot.noChat))
  }

  // The game section in three steps, each a part of the following one.

  function GameHead(game: GameConfig, printable: PrintTable): seq<Line> {
    [Open("game")]
    + OptField(2, "type", Plain(game.gameType))
    + OptField(2, "motd", QuotedIf(game.motd, printable))
    + OptField(2, "forceRespawn", Flag(game.forceRespawn))
  }

  function GameMiddle(game: GameConfig, printable: PrintTable): seq<Line> {
    GameHead(game, printable)
    + OptField(2, "inactivity", Span(game.inactivity))
    + OptField(2, "quadFactor", Number(game.quadFactor))
  }

  function GameLines(game: GameConfig, printable: PrintTable): seq<Line> {
    GameMiddle(game, printable)
    + OptField(2, "password", QuotedIf(game.password, printable))
    + OptField(2, "weaponRespawn", Number(game.weaponRespawn))
  }

  function ServerLines(server: ServerSettings, printable: PrintTable): seq<Line> {
    [Open("server")]
    + OptField(2, "hostname", QuotedIf(server.hostname, printable))
    + OptField(2, "maxClients", Number(server.maxClients))
    + OptField(2, "password", QuotedIf(server.rconPassword, printable))
  }

  function MapLines(m: MapSpec): seq<Line> {
    [ItemField("name", m.name)]
    + OptField(4, "type", Plain(m.gameType))
    + OptField(4, "captureLimit", Number(m.captureLimit))
    + OptField(4, "fragLimit", Number(m.fragLimit))
    + OptField(4, "timeLimit", Span(m.timeLimit))
  }

  function AllMapLines(maps: seq<MapSpec>): seq<Line> {
    if |maps| == 0 then [] else MapLines(maps[0]) + AllMapLines(maps[1..])
  }

  function CommandLines(commands: seq<string>, printable: PrintTable): seq<Line> {
    if |commands| == 0 then [] else [Item(Quote(commands[0], printable))] + CommandLines(commands[1..], printable)
  }

  function TopLines(c: ServerConfig): seq<Line> {
    [Field(0, "fragLimit", Itoa(c.fragLimit.GetOr(25))),
     Field(0, "timeLimit", Span(c.timeLimit).GetOr("15m"))]
  }

  function SpecLines(c: ServerConfig, printable: PrintTable): seq<Line> {
    TopLines(c)
    + (match c.bot { case Some(bot) => BotLines(bot) case None => [] })
    + (match c.game { case Some(game) => GameLines(game, printable) case None => [] })
    + (match c.server { case Some(server) => ServerLines(server, printable) case None => [] })
    + (if |c.maps| > 0 then [Open("maps")] + AllMapLines(c.maps) else [])
    + (if |c.commands| > 0 then [Open("commands")] + CommandLines(c.commands, printable) else [])
  }

  function ConfigYaml(c: Option<ServerConfig>, printable: PrintTable): string {
    match c
    case Some(spec) => DocumentText(SpecLines(spec, printable))
    case None => "fragLimit: 25\ntimeLimit: 15m\n"
  }

  // ---- generateConfigYAML ----

  /** An indented line with a key and its value. */
  function FieldText(depth: nat, key: string, value: string): string {
    Spaces(depth) + (key + ": " + value) + "\n"
  }

  lemma OneLineText(l: Line)
    ensures DocumentText([l]) == Render(l) + "\n"
  {
    var text := Render(l) + "\n";
    assert RenderAll([l]) == [text];
    ConcatSnoc([], text);
    assert [] + [text] == [text] && "" + text == text;
  }

  lemma DocumentConcat(a: seq<Line>, b: seq<Line>)
    ensures DocumentText(a + b) == DocumentText(a) + DocumentText(b)
  {
    assert RenderAll(a + b) == RenderAll(a) + RenderAll(b);
    ConcatAppend(RenderAll(a), RenderAll(b));
  }

  /** Appending an optional field to a text that ends where the lines `before` end. */
  lemma AppendField(before: seq<Line>, depth: nat, key: string, value: Option<string>)
    ensures DocumentText(before + OptField(depth, key, value))
         == DocumentText(before) + if value.Some? then FieldText(depth, key, value.value) else ""
  {
    DocumentConcat(before, OptField(depth, key, value));
    if value.Some? {
      OneLineText(Field(depth, key, value.value));
    }
  }

  /** A field that is set becomes one more line, whatever lines the text has already. */
  method AddField(yaml: string, depth: nat, key: string, value: Option<string>) returns (more: string)
    ensures forall before :: yaml == DocumentText(before) ==> more == DocumentText(before + OptField(depth, key, value))
  {
    more := yaml;
    if value.Some? {
      more := more + FieldText(depth, key, value.value);
    }
    forall before | yaml == DocumentText(before) ensures more == DocumentText(before + OptField(depth, key, value)) {
      AppendField(before, depth, key, value);
    }
  }

  method BotYaml(bot: BotConfig) returns (yaml: string)
    ensures yaml == DocumentText(BotLines(bot))
  {
    OneLineText(Open("bot"));
    yaml := "bot" + ":" + "\n";
    yaml := AddField(yaml, 2, "minPlayers", Number(bot.minPlayers));
    yaml := AddField(yaml, 2, "skill", Number(bot.skill));
    yaml := AddField(yaml, 2, "noChat", Flag(bot.noChat));
  }

  method GameHeadYaml(game: GameConfig, printable: PrintTable) returns (yaml: string)
    ensures yaml == DocumentText(GameHead(game, printable))
  {
    OneLineText(Open("game"));
    yaml := "game" + ":" + "\n";
    yaml := AddField(yaml, 2, "type", Plain(game.gameType));
    yaml := AddField(yaml, 2, "motd", QuotedIf(game.motd, printable));
    yaml := AddField(yaml, 2, "forceRespawn", Flag(game.forceRespawn));
  }

  method GameMiddleYaml(game: GameConfig, printable: PrintTable) returns (yaml: string)
    ensures yaml == DocumentText(GameMiddle(game, printable))
  {
    yaml := GameHeadYaml(game, printable);
    yaml := AddField(yaml, 2, "inactivity", Span(game.inactivity));
    yaml := AddField(yaml, 2, "quadFactor", Number(game.quadFactor));
  }

  method GameYaml(game: GameConfig, printable: PrintTable) returns (yaml: string)
    ensures yaml == DocumentText(GameLines(game, printable))
  {
    yaml := GameMiddleYaml(game, printable);
    yaml := AddField(yaml, 2, "password", QuotedIf(game.password, printable));
    yaml := AddField(yaml, 2, "weaponRespawn", Number(game.weaponRespawn));
  }

  method ServerYaml(server: ServerSettings, printable: PrintTable) returns (yaml: string)
    ensures yaml == DocumentText(ServerLines(server, printable))
  {
    OneLineText(Open("server"));
    yaml := "server" + ":" + "\n";
    yaml := AddField(yaml, 2, "hostname", QuotedIf(server.hostname, printable));
    yaml := AddField(yaml, 2, "maxClients", Number(server.maxClients));
    yaml := AddField(yaml, 2, "password", QuotedIf(server.rconPassword, printable));
  }

  method MapYaml(m: MapSpec) returns (yaml: string)
    ensures yaml == DocumentText(MapLines(m))
  {
    OneLineText(ItemField("name", m.name));
    yaml := "  - " + ("name" + ": " + m.name) + "\n";
    yaml := AddField(yaml, 4, "type", Plain(m.gameType));
    yaml := AddField(yaml, 4, "captureLimit", Number(m.captureLimit));
    yaml := AddField(yaml, 4, "fragLimit", Number(m.fragLimit));
    yaml := AddField(yaml, 4, "timeLimit", Span(m.timeLimit));
  }

  lemma AllMapLinesSnoc(maps: seq<MapSpec>, m: MapSpec)
    ensures AllMapLines(maps + [m]) == AllMapLines(maps) + MapLines(m)
  {
    if |maps| == 0 {
      assert maps + [m] == [m];
    } else {
      assert (maps + [m])[1..] == maps[1..] + [m];
      AllMapLinesSnoc(maps[1..], m);
    }
  }

  lemma CommandLinesSnoc(commands: seq<string>, c: string, printable: PrintTable)
    ensures CommandLines(commands + [c], printable) == CommandLines(commands, printable) + [Item(Quote(c, printable))]
  {
    if |commands| == 0 {
      assert commands + [c] == [c];
    } else {
      assert (commands + [c])[1..] == commands[1..] + [c];
      CommandLinesSnoc(commands[1..], c, printable);
    }
  }

  lemma MapsGrow(maps: seq<MapSpec>, i: nat)
    requires i < |maps|
    ensures DocumentText([Open("maps")] + AllMapLines(maps[..i + 1]))
         == DocumentText([Open("maps")] + AllMapLines(maps[..i])) + DocumentText(MapLines(maps[i]))
  {
    assert maps[..i + 1] == maps[..i] + [maps[i]];
    AllMapLinesSnoc(maps[..i], maps[i]);
    DocumentConcat([Open("maps")] + AllMapLines(maps[..i]), MapLines(maps[i]));
    Assoc([Open("maps")], AllMapLines(maps[..i]), MapLines(maps[i]));
  }

  lemma CommandsGrow(commands: seq<string>, i: nat, printable: PrintTable)
    requires i < |commands|
    ensures DocumentText([Open("commands")] + CommandLines(commands[..i + 1], printable))
         == DocumentText([Open("commands")] + CommandLines(commands[..i], printable))
            + ("  - " + Quote(commands[i], printable) + "\n")
  {
    assert commands[..i + 1] == commands[..i] + [commands[i]];
    var item := Item(Quote(commands[i], printable));
    CommandLinesSnoc(commands[..i], commands[i], printable);
    OneLineText(item);
    DocumentConcat([Open("commands")] + CommandLines(commands[..i], printable), [item]);
    Assoc([Open("commands")], CommandLines(commands[..i], printable), [item]);
  }

  /** The list of maps; nothing at all when it is empty. */
  method MapsYaml(maps: seq<MapSpec>) returns (yaml: string)
    ensures yaml == if |maps| == 0 then "" else DocumentText([Open("maps")] + AllMapLines(maps))
  {
    yaml := "";
    if |maps| > 0 {
      yaml := "maps" + ":" + "\n";
      OneLineText(Open("maps"));
      assert [Open("maps")] + AllMapLines(maps[..0]) == [Open("maps")];
      for i := 0 to |maps|
        invariant yaml == DocumentText([Open("maps")] + AllMapLines(maps[..i]))
      {
        var item := MapYaml(maps[i]);
        yaml := yaml + item;
        MapsGrow(maps, i);
      }
      assert maps[..|maps|] == maps;
    }
  }

  method CommandsYaml(commands: seq<string>, printable: PrintTable) returns (yaml: string)
    ensures yaml == if |commands| == 0 then "" else DocumentText([Open("commands")] + CommandLines(commands, printable))
  {
    yaml := "";
    if |commands| > 0 {
      yaml := "commands" + ":" + "\n";
      OneLineText(Open("commands"));
      assert [Open("commands")] + CommandLines(commands[..0], printable) == [Open("commands")];
      for i := 0 to |commands|
        invariant yaml == DocumentText([Open("commands")] + CommandLines(commands[..i], printable))
      {
        yaml := yaml + ("  - " + Quote(commands[i], printable) + "\n");
        CommandsGrow(commands, i, printable);
      }
      assert commands[..|commands|] == commands;
    }
  }

  lemma TopText(c: ServerConfig)
    ensures DocumentText(TopLines(c))
         == FieldText(0, "fragLimit", Itoa(c.fragLimit.GetOr(25)))
            + FieldText(0, "timeLimit", Span(c.timeLimit).GetOr("15m"))
  {
    var a := Field(0, "fragLimit", Itoa(c.fragLimit.GetOr(25)));
    var b := Field(0, "timeLimit", Span(c.timeLimit).GetOr("15m"));
    assert TopLines(c) == [a] + [b];
    DocumentConcat([a], [b]);
    OneLineText(a);
    OneLineText(b);
  }

  method SectionsYaml(c: ServerConfig, printable: PrintTable) returns (bot: string, game: string, server: string)
    ensures bot == DocumentText(match c.bot { case Some(b) => BotLines(b) case None => [] })
    ensures game == DocumentText(match c.game { case Some(g) => GameLines(g, printable) case None => [] })
    ensures server == DocumentText(match c.server { case Some(s) => ServerLines(s, printable) case None => [] })
  {
    bot, game, server := "", "", "";
    if c.bot.Some? {
      bot := BotYaml(c.bot.value);
    }
    if c.game.Some? {
      game := GameYaml(c.game.value, printable);
    }
    if c.server.Some? {
      server := ServerYaml(c.server.value, printable);
    }
  }

  /** `generateConfigYAML`: the two limits are always there, the other parts only when they are set. */
  method GenerateConfigYaml(config: Option<ServerConfig>, printable: PrintTable) returns (yaml: string)
    ensures yaml == ConfigYaml(config, printable)
  {
    if config.None? {
      return "fragLimit: 25\ntimeLimit: 15m\n";
    }
    var c := config.value;
    var fragLimit := 25;
    if c.fragLimit.Some? {
      fragLimit := c.fragLimit.value;
    }
    yaml := FieldText(0, "fragLimit", Itoa(fragLimit));
    var timeLimit := "15m";
    if c.timeLimit.Some? {
      timeLimit := DurationText(c.timeLimit.value);
    }
    yaml := yaml + FieldText(0, "timeLimit", timeLimit);
    TopText(c);
    var bot, game, server := SectionsYaml(c, printable);
    var maps := MapsYaml(c.maps);
    var commands := CommandsYaml(c.commands, printable);
    SpecText(c, printable);
    yaml := yaml + bot + game + server + maps + commands;
  }

  lemma SpecText(c: ServerConfig, printable: PrintTable)
    ensures DocumentText(SpecLines(c, printable))
         == DocumentText(TopLines(c))
            + DocumentText(match c.bot { case Some(b) => BotLines(b) case None => [] })
            + DocumentText(match c.game { case Some(g) => GameLines(g, printable) case None => [] })
            + DocumentText(match c.server { case Some(s) => ServerLines(s, printable) case None => [] })
            + DocumentText(if |c.maps| > 0 then [Open("maps")] + AllMapLines(c.maps) else [])
            + DocumentText(if |c.commands| > 0 then [Open("commands")] + CommandLines(c.commands, printable) else [])
  {
    SixTexts(TopLines(c),
             match c.bot { case Some(b) => BotLines(b) case None => [] },
             match c.game { case Some(g) => GameLines(g, printable) case None => [] },
             match c.server { case Some(s) => ServerLines(s, printable) case None => [] },
             if |c.maps| > 0 then [Open("maps")] + AllMapLines(c.maps) else [],
             if |c.commands| > 0 then [Open("commands")] + CommandLines(c.commands, printable) else []);
  }

  lemma SixTexts(a: seq<Line>, b: seq<Line>, c: seq<Line>, d: seq<Line>, e: seq<Line>, f: seq<Line>)
    ensures DocumentText(a + b + c + d + e + f)
         == DocumentText(a) + DocumentText(b) + DocumentText(c) + DocumentText(d) + DocumentText(e) + DocumentText(f)
  {
    DocumentConcat(a + b + c + d + e, f);
    DocumentConcat(a + b + c + d, e);
    DocumentConcat(a + b + c, d);
    DocumentConcat(a + b, c);
    DocumentConcat(a, b);
  }

  // ---- Reading the file over a configuration ----

  function TypeOf(value: string): Option<int> {
    match value
    case "FreeForAll" => Some(0)
    case "FFA" => Some(0)
    case "Tournament" => Some(1)
    case "SinglePlayer" => Some(2)
    case "TeamDeathmatch" => Some(3)
    case "CaptureTheFlag" => Some(4)
    case "CTF" => Some(4)
    case _ => None
  }

  function FlagOf(value: string): Option<bool> {
    if value == "true" then Some(true) else if value == "false" then Some(false) else None
  }

  /** A duration is a string in nanoseconds; a bare zero is a number like any other, and is not accepted. */
  function SpanOf(value: string): Option<int> {
    match ParseDuration(value)
    case Some(n) => if InRange(n) then Some(n) else None
    case None => None
  }

  function Bind<A, B>(a: Option<A>, f: A -> B): Option<B> {
    match a { case Some(x) => Some(f(x)) case None => None }
  }

  /** The file read so far: the open section, and the configuration. */
  datatype Reading = Reading(section: string, cfg: Cfg.Config)

  function SetTop(c: Cfg.Config, key: string, value: string): Option<Cfg.Config> {
    match key
    case "fragLimit" => Bind(Atoi(value), n => c.(fragLimit := n))
    case "timeLimit" => Bind(SpanOf(value), d => c.(timeLimit := d))
    case _ => Some(c)
  }

  function SetBot(b: Cfg.Bot, key: string, value: string): Option<Cfg.Bot> {
    match key
    case "minPlayers" => Bind(Atoi(value), n => b.(minPlayers := n))
    case "skill" => Bind(Atoi(value), n => b.(skill := n))
    case "noChat" => Bind(FlagOf(value), f => b.(noChat := f))
    case _ => Some(b)
  }

  function SetGame(g: Cfg.Game, key: string, value: string): Option<Cfg.Game> {
    match key
    case "type" => Bind(TypeOf(value), t => g.(gameType := t))
    case "motd" => Bind(StringOf(value), s => g.(motd := s))
    case "forceRespawn" => Bind(FlagOf(value), f => g.(forceRespawn := f))
    case "inactivity" => Bind(SpanOf(value), d => g.(inactivity := d))
    case "quadFactor" => Bind(Atoi(value), n => g.(quadFactor := n))
    case "password" => Bind(StringOf(value), s => g.(joinPassword := s))
    case "weaponRespawn" => Bind(Atoi(value), n => g.(weaponRespawn := n))
    case _ => Some(g)
  }

  function SetServer(s: Cfg.Server, key: string, value: string): Option<Cfg.Server> {
    match key
    case "hostname" => Bind(StringOf(value), h => s.(hostname := h))
    case "maxClients" => Bind(Atoi(value), n => s.(maxClients := n))
    case "password" => Bind(StringOf(value), p => s.(rconPassword := p))
    case _ => Some(s)
  }

  function SetMap(m: Rotation.Map, key: string, value: string): Option<Rotation.Map> {
    match key
    case "name" => Bind(StringOf(value), n => m.(name := n))
    case "type" => Bind(TypeOf(value), t => m.(gameType := t))
    case "captureLimit" => Bind(Atoi(value), n => m.(captureLimit := n))
    case "fragLimit" => Bind(Atoi(value), n => m.(fragLimit := n))
    case "timeLimit" => Bind(SpanOf(value), d => m.(timeLimit := d))
    case _ => Some(m)
  }

  const NO_MAP := Rotation.Map("", 0, 0, 0, 0)

  function SetLastMap(maps: seq<Rotation.Map>, key: string, value: string): Option<seq<Rotation.Map>> {
    if |maps| == 0 then None
    else Bind(SetMap(maps[|maps| - 1], key, value), m => maps[..|maps| - 1] + [m])
  }

  function SetField(r: Reading, depth: nat, key: string, value: string): Option<Reading> {
    if depth == 0 then Bind(SetTop(r.cfg, key, value), c => Reading("", c))
    else if r.section == "bot" then Bind(SetBot(r.cfg.bot, key, value), b => r.(cfg := r.cfg.(bot := b)))
    else if r.section == "game" then Bind(SetGame(r.cfg.game, key, value), g => r.(cfg := r.cfg.(game := g)))
    else if r.section == "server" then
      Bind(SetServer(r.cfg.server, key, value), s => r.(cfg := r.cfg.(server := s)))
    else if r.section == "maps" then
      Bind(SetLastMap(r.cfg.maps, key, value), ms => r.(cfg := r.cfg.(maps := ms)))
    else Some(r)
  }

  /** A list in the file replaces the default list. */
  function OpenSection(r: Reading, key: string): Reading {
    if key == "maps" then Reading(key, r.cfg.(maps := []))
    else if key == "commands" then Reading(key, r.cfg.(overrides := []))
    else Reading(key, r.cfg)
  }

  function ReadLine(r: Reading, l: Line): Option<Reading> {
    match l
    case Open(key) => Some(OpenSection(r, key))
    case Field(depth, key, value) => SetField(r, depth, key, value)
    case Item(value) =>
      if r.section != "commands" then None
      else Bind(StringOf(value), s => r.(cfg := r.cfg.(overrides := r.cfg.overrides + [s])))
    case ItemField(key, value) =>
      if r.section != "maps" then None
      else Bind(SetMap(NO_MAP, key, value), m => r.(cfg := r.cfg.(maps := r.cfg.maps + [m])))
  }

  function ReadLines(r: Reading, lines: seq<Line>): Option<Reading>
    decreases |lines|
  {
    if |lines| == 0 then Some(r)
    else
      match ReadLine(r, lines[0])
      case Some(r') => ReadLines(r', lines[1..])
      case None => None
  }

  // ---- The keys, as the tags of the structures name them ----

  /** A field `key: value` of the open section turns the configuration into `c`. */
  predicate Sets(r: Reading, key: string, value: string, c: Cfg.Config) {
    ReadLine(r, Field(2, key, value)) == Some(r.(cfg := c))
  }

  lemma FragKey(r: Reading, value: string, n: int)
    requires Atoi(value) == Some(n)
    ensures ReadLine(r, Field(0, "fragLimit", value)) == Some(Reading("", r.cfg.(fragLimit := n)))
  {
  }

  lemma TimeKey(r: Reading, value: string, n: int)
    requires SpanOf(value) == Some(n)
    ensures ReadLine(r, Field(0, "timeLimit", value)) == Some(Reading("", r.cfg.(timeLimit := n)))
  {
  }

  lemma BotKeys(r: Reading, value: string, n: int, b: bool)
    requires r.section == "bot"
    ensures Atoi(value) == Some(n) ==> Sets(r, "minPlayers", value, r.cfg.(bot := r.cfg.bot.(minPlayers := n)))
    ensures Atoi(value) == Some(n) ==> Sets(r, "skill", value, r.cfg.(bot := r.cfg.bot.(skill := n)))
    ensures FlagOf(value) == Some(b) ==> Sets(r, "noChat", value, r.cfg.(bot := r.cfg.bot.(noChat := b)))
  {
  }

  lemma GameTextKeys(r: Reading, value: string, b: bool, s: string)
    requires r.section == "game"
    ensures StringOf(value) == Some(s) ==> Sets(r, "motd", value, r.cfg.(game := r.cfg.game.(motd := s)))
    ensures FlagOf(value) == Some(b) ==>
              Sets(r, "forceRespawn", value, r.cfg.(game := r.cfg.game.(forceRespawn := b)))
    ensures StringOf(value) == Some(s) ==> Sets(r, "password", value, r.cfg.(game := r.cfg.game.(joinPassword := s)))
  {
  }

  lemma GameNumberKeys(r: Reading, value: string, n: int)
    requires r.section == "game"
    ensures Atoi(value) == Some(n) ==> Sets(r, "quadFactor", value, r.cfg.(game := r.cfg.game.(quadFactor := n)))
    ensures Atoi(value) == Some(n) ==>
              Sets(r, "weaponRespawn", value, r.cfg.(game := r.cfg.game.(weaponRespawn := n)))
  {
  }

  lemma GameTypeKey(r: Reading, value: string, n: int)
    requires r.section == "game" && TypeOf(value) == Some(n)
    ensures Sets(r, "type", value, r.cfg.(game := r.cfg.game.(gameType := n)))
  {
  }

  lemma GameTimeKey(r: Reading, value: string, n: int)
    requires r.section == "game" && SpanOf(value) == Some(n)
    ensures Sets(r, "inactivity", value, r.cfg.(game := r.cfg.game.(inactivity := n)))
  {
  }

  lemma ServerKeys(r: Reading, value: string, n: int, s: string)
    requires r.section == "server"
    ensures StringOf(value) == Some(s) ==> Sets(r, "hostname", value, r.cfg.(server := r.cfg.server.(hostname := s)))
    ensures Atoi(value) == Some(n) ==> Sets(r, "maxClients", value, r.cfg.(server := r.cfg.server.(maxClients := n)))
    ensures StringOf(value) == Some(s) ==>
              Sets(r, "password", value, r.cfg.(server := r.cfg.server.(rconPassword := s)))
  {
  }

  lemma MapNameKey(m: Rotation.Map, value: string, s: string)
    requires StringOf(value) == Some(s)
    ensures SetMap(m, "name", value) == Some(m.(name := s))
  {
  }

  lemma MapTypeKey(m: Rotation.Map, value: string, n: int)
    requires TypeOf(value) == Some(n)
    ensures SetMap(m, "type", value) == Some(m.(gameType := n))
  {
  }

  lemma MapTimeKey(m: Rotation.Map, value: string, n: int)
    requires SpanOf(value) == Some(n)
    ensures SetMap(m, "timeLimit", value) == Some(m.(timeLimit := n))
  {
  }

  lemma MapLimitKeys(m: Rotation.Map, value: string, n: int)
    ensures Atoi(value) == Some(n) ==> SetMap(m, "captureLimit", value) == Some(m.(captureLimit := n))
    ensures Atoi(value) == Some(n) ==> SetMap(m, "fragLimit", value) == Some(m.(fragLimit := n))
  {
  }

  /**
   Unmarshalling over a configuration, for the emitted subset. The decoder reuses the elements of a
   list that is there already, so a map keeps what the file does not set; this is said here only for
   configurations whose maps set nothing but names, like the defaults. The pointer to the
   configuration becomes nil on a null; no other scalar can be unmarshalled into a structure.
   */
  function Unmarshal(cfg: Cfg.Config, text: string): Option<Option<Cfg.Config>> {
    match ParseDocument(text)
    case Some(Single(scalar)) => if Null(scalar) then Some(None) else None
    case Some(Entries(lines)) => Bind(ReadLines(Reading("", cfg), lines), (r: Reading) => Some(r.cfg))
    case None => None
  }

  /** The configuration is nil exactly after a null document, whatever it was before. */
  lemma NilExactly(cfg: Cfg.Config, text: string)
    ensures Unmarshal(cfg, text) == Some(None) <==> NullDocument(text)
  {
    NullRead(text);
  }

  predicate OnlyNames(maps: seq<Rotation.Map>) {
    forall i :: 0 <= i < |maps| ==> maps[i] == Rotation.Map(maps[i].name, 0, 0, 0, 0)
  }
}
