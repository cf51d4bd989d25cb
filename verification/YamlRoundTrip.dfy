/**
 End to end: reading the text that the operator prints, over the server's defaults, gives
 exactly the fields that the specification sets and the defaults elsewhere.
 */
module YamlRoundTrip {
  import opened Wrappers
  import opened Text
  import opened Quoting
  import opened Durations
  import opened ConfigSpec
  import opened YamlText
  import opened YamlConfig
  import Cfg = ServerCfg
  import Rotation

  // ---- The direct overlay ----

  function TypeNumber(gameType: string, default: int): int { TypeOf(gameType).GetOr(default) }

  /** A string that is not set is empty. */
  function StringOr(s: string, default: string): string { if s != "" then s else default }

  /** A flag that is false counts as not set. */
  function OverlayBot(b: Cfg.Bot, spec: BotConfig): Cfg.Bot {
    Cfg.Bot(spec.minPlayers.GetOr(b.minPlayers), spec.noChat || b.noChat, spec.skill.GetOr(b.skill))
  }

  function OverlayGame(g: Cfg.Game, spec: GameConfig): Cfg.Game {
    Cfg.Game(spec.forceRespawn || g.forceRespawn, TypeNumber(spec.gameType, g.gameType),
             spec.inactivity.GetOr(g.inactivity), g.log, StringOr(spec.motd, g.motd),
             StringOr(spec.password, g.joinPassword), spec.quadFactor.GetOr(g.quadFactor),
             spec.weaponRespawn.GetOr(g.weaponRespawn))
  }

  function OverlayServer(s: Cfg.Server, spec: ServerSettings): Cfg.Server {
    Cfg.Server(StringOr(spec.hostname, s.hostname), spec.maxClients.GetOr(s.maxClients),
               StringOr(spec.rconPassword, s.rconPassword))
  }

  /** A map without a type is FreeForAll. */
  function ToMap(m: MapSpec): Rotation.Map {
    Rotation.Map(m.name, TypeNumber(m.gameType, 0), m.captureLimit.GetOr(0), m.fragLimit.GetOr(0),
                 m.timeLimit.GetOr(0))
  }

  function ToMaps(maps: seq<MapSpec>): seq<Rotation.Map> {
    seq(|maps|, i requires 0 <= i < |maps| => ToMap(maps[i]))
  }

  /** The fields the specification sets, and `c` elsewhere; the two limits have the operator's defaults. */
  function Overlay(c: Cfg.Config, spec: ServerConfig): Cfg.Config {
    Cfg.Config(
      spec.fragLimit.GetOr(25), spec.timeLimit.GetOr(900 * Cfg.SECOND),
      OverlayGame(c.game, spec.game.GetOr(NO_GAME)), c.network, OverlayBot(c.bot, spec.bot.GetOr(NO_BOT)), c.fs,
      OverlayServer(c.server, spec.server.GetOr(NO_SERVER)),
      if |spec.commands| > 0 then spec.commands else c.overrides,
      if |spec.maps| > 0 then ToMaps(spec.maps) else c.maps)
  }

  // ---- Specifications that can be printed ----

  predicate NumberFits(n: Option<int>) { n.Some? ==> InRange(n.value) }

  predicate SpanFits(d: Option<int>) { d.Some? ==> InRange(d.value) }

  /** One of the documented game types, or none. */
  predicate TypeFits(t: string) { t == "" || TypeOf(t).Some? }

  predicate MapFits(m: MapSpec) {
    && PlainSafe(m.name) && TypeFits(m.gameType)
    && NumberFits(m.captureLimit) && NumberFits(m.fragLimit) && SpanFits(m.timeLimit)
  }

  predicate GameFits(g: GameConfig) {
    TypeFits(g.gameType) && SpanFits(g.inactivity) && NumberFits(g.quadFactor) && NumberFits(g.weaponRespawn)
  }

  /**
   Numbers and durations within Go's ranges, known game types, and map names that need no
   quotes. All other strings are arbitrary.
   */
  predicate Fits(spec: ServerConfig) {
    && NumberFits(spec.fragLimit) && SpanFits(spec.timeLimit)
    && (spec.game.Some? ==> GameFits(spec.game.value))
    && (spec.server.Some? ==> NumberFits(spec.server.value.maxClients))
    && (spec.bot.Some? ==> NumberFits(spec.bot.value.minPlayers) && NumberFits(spec.bot.value.skill))
    && (forall i :: 0 <= i < |spec.maps| ==> MapFits(spec.maps[i]))
  }

  // ---- Reading groups of lines ----

  function Then(r: Option<Reading>, lines: seq<Line>): Option<Reading> {
    match r { case Some(r') => ReadLines(r', lines) case None => None }
  }

  lemma {:induction false} ReadConcat(r: Reading, a: seq<Line>, b: seq<Line>)
    ensures ReadLines(r, a + b) == Then(ReadLines(r, a), b)
    decreases |a|
  {
    if |a| == 0 {
      assert a + b == b;
    } else {
      assert (a + b)[1..] == a[1..] + b;
      var r' := ReadLine(r, a[0]);
      if r'.Some? {
        ReadConcat(r'.value, a[1..], b);
      }
    }
  }

  lemma ReadOne(r: Reading, l: Line)
    ensures ReadLines(r, [l]) == ReadLine(r, l)
  {
    assert [l][1..] == [];
  }

  /** The reading after an optional field. */
  function Step(r: Reading, depth: nat, key: string, value: Option<string>): Option<Reading> {
    match value { case Some(v) => SetField(r, depth, key, v) case None => Some(r) }
  }

  lemma ReadOptField(r: Reading, before: seq<Line>, depth: nat, key: string, value: Option<string>, mid: Reading)
    requires ReadLines(r, before) == Some(mid)
    ensures ReadLines(r, before + OptField(depth, key, value)) == Step(mid, depth, key, value)
  {
    ReadConcat(r, before, OptField(depth, key, value));
    if value.Some? {
      ReadOne(mid, Field(depth, key, value.value));
    }
  }

  lemma SpanReads(d: Option<int>)
    requires d.Some? && SpanFits(d)
    ensures SpanOf(Span(d).value) == d
  {
    DurationRoundTrip(d.value);
  }

  lemma NumberReads(n: Option<int>)
    requires n.Some? && NumberFits(n)
    ensures Atoi(Number(n).value) == Some(n.value)
  {
    AtoiItoa(n.value);
  }

  lemma QuotedReads(s: string, printable: PrintTable)
    requires s != ""
    ensures StringOf(QuotedIf(s, printable).value) == Some(s)
  {
    QuoteReadsBack(s, printable);
  }

  // ---- Sections ----

  /** In an open section `section`, an optional field turns part `x` of the configuration into `x'`. */
  lemma SectionField<X>(r: Reading, before: seq<Line>, key: string, value: Option<string>, section: string,
                        put: X -> Cfg.Config, x: X, x': X)
    requires ReadLines(r, before) == Some(Reading(section, put(x)))
    requires value.None? ==> x' == x
    requires value.Some? ==>
               SetField(Reading(section, put(x)), 2, key, value.value) == Some(Reading(section, put(x')))
    ensures ReadLines(r, before + OptField(2, key, value)) == Some(Reading(section, put(x')))
  {
    ReadOptField(r, before, 2, key, value, Reading(section, put(x)));
  }

  lemma BotReads(r: Reading, bot: BotConfig)
    requires NumberFits(bot.minPlayers) && NumberFits(bot.skill)
    ensures ReadLines(r, BotLines(bot)) == Some(Reading("bot", r.cfg.(bot := OverlayBot(r.cfg.bot, bot))))
  {
    var put := (b: Cfg.Bot) => r.cfg.(bot := b);
    var b0 := r.cfg.bot;
    var b1 := b0.(minPlayers := bot.minPlayers.GetOr(b0.minPlayers));
    var b2 := b1.(skill := bot.skill.GetOr(b1.skill));
    var b3 := b2.(noChat := bot.noChat || b2.noChat);
    var lines := [Open("bot")];
    ReadOne(r, Open("bot"));
    if bot.minPlayers.Some? {
      NumberReads(bot.minPlayers);
      BotKeys(Reading("bot", put(b0)), Number(bot.minPlayers).value, bot.minPlayers.value, false);
    }
    SectionField(r, lines, "minPlayers", Number(bot.minPlayers), "bot", put, b0, b1);
    lines := lines + OptField(2, "minPlayers", Number(bot.minPlayers));
    if bot.skill.Some? {
      NumberReads(bot.skill);
      BotKeys(Reading("bot", put(b1)), Number(bot.skill).value, bot.skill.value, false);
    }
    SectionField(r, lines, "skill", Number(bot.skill), "bot", put, b1, b2);
    lines := lines + OptField(2, "skill", Number(bot.skill));
    if bot.noChat {
      BotKeys(Reading("bot", put(b2)), "true", 0, true);
    }
    SectionField(r, lines, "noChat", Flag(bot.noChat), "bot", put, b2, b3);
  }

  lemma HostnameReads(r: Reading, before: seq<Line>, s: Cfg.Server, hostname: string, printable: PrintTable)
    requires ReadLines(r, before) == Some(Reading("server", r.cfg.(server := s)))
    ensures ReadLines(r, before + OptField(2, "hostname", QuotedIf(hostname, printable)))
         == Some(Reading("server", r.cfg.(server := s.(hostname := StringOr(hostname, s.hostname)))))
  {
    if hostname != "" {
      QuotedReads(hostname, printable);
      ServerKeys(Reading("server", r.cfg.(server := s)), Quote(hostname, printable), 0, hostname);
    }
    SectionField(r, before, "hostname", QuotedIf(hostname, printable), "server", x => r.cfg.(server := x), s,
                 s.(hostname := StringOr(hostname, s.hostname)));
  }

  lemma MaxClientsReads(r: Reading, before: seq<Line>, s: Cfg.Server, n: Option<int>)
    requires ReadLines(r, before) == Some(Reading("server", r.cfg.(server := s))) && NumberFits(n)
    ensures ReadLines(r, before + OptField(2, "maxClients", Number(n)))
         == Some(Reading("server", r.cfg.(server := s.(maxClients := n.GetOr(s.maxClients)))))
  {
    if n.Some? {
      NumberReads(n);
      ServerKeys(Reading("server", r.cfg.(server := s)), Number(n).value, n.value, "");
    }
    SectionField(r, before, "maxClients", Number(n), "server", x => r.cfg.(server := x), s,
                 s.(maxClients := n.GetOr(s.maxClients)));
  }

  lemma RconReads(r: Reading, before: seq<Line>, s: Cfg.Server, password: string, printable: PrintTable)
    requires ReadLines(r, before) == Some(Reading("server", r.cfg.(server := s)))
    ensures ReadLines(r, before + OptField(2, "password", QuotedIf(password, printable)))
         == Some(Reading("server", r.cfg.(server := s.(rconPassword := StringOr(password, s.rconPassword)))))
  {
    if password != "" {
      QuotedReads(password, printable);
      ServerKeys(Reading("server", r.cfg.(server := s)), Quote(password, printable), 0, password);
    }
    SectionField(r, before, "password", QuotedIf(password, printable), "server", x => r.cfg.(server := x), s,
                 s.(rconPassword := StringOr(password, s.rconPassword)));
  }

  lemma ServerReads(r: Reading, server: ServerSettings, printable: PrintTable)
    requires NumberFits(server.maxClients)
    ensures ReadLines(r, ServerLines(server, printable))
         == Some(Reading("server", r.cfg.(server := OverlayServer(r.cfg.server, server))))
  {
    var s1 := r.cfg.server.(hostname := StringOr(server.hostname, r.cfg.server.hostname));
    var s2 := s1.(maxClients := server.maxClients.GetOr(s1.maxClients));
    ReadOne(r, Open("server"));
    HostnameReads(r, [Open("server")], r.cfg.server, server.hostname, printable);
    var lines := [Open("server")] + OptField(2, "hostname", QuotedIf(server.hostname, printable));
    MaxClientsReads(r, lines, s1, server.maxClients);
    RconReads(r, lines + OptField(2, "maxClients", Number(server.maxClients)), s2, server.rconPassword, printable);
  }

  function OverlayHead(g: Cfg.Game, game: GameConfig): Cfg.Game {
    g.(gameType := TypeNumber(game.gameType, g.gameType), motd := StringOr(game.motd, g.motd),
       forceRespawn := game.forceRespawn || g.forceRespawn)
  }

  lemma TypeReads(r: Reading, before: seq<Line>, g: Cfg.Game, gameType: string)
    requires ReadLines(r, before) == Some(Reading("game", r.cfg.(game := g))) && TypeFits(gameType)
    ensures ReadLines(r, before + OptField(2, "type", Plain(gameType)))
         == Some(Reading("game", r.cfg.(game := g.(gameType := TypeNumber(gameType, g.gameType)))))
  {
    if gameType != "" {
      GameTypeKey(Reading("game", r.cfg.(game := g)), gameType, TypeOf(gameType).value);
    }
    SectionField(r, before, "type", Plain(gameType), "game", x => r.cfg.(game := x), g,
                 g.(gameType := TypeNumber(gameType, g.gameType)));
  }

  lemma MotdReads(r: Reading, before: seq<Line>, g: Cfg.Game, motd: string, printable: PrintTable)
    requires ReadLines(r, before) == Some(Reading("game", r.cfg.(game := g)))
    ensures ReadLines(r, before + OptField(2, "motd", QuotedIf(motd, printable)))
         == Some(Reading("game", r.cfg.(game := g.(motd := StringOr(motd, g.motd)))))
  {
    if motd != "" {
      QuotedReads(motd, printable);
      GameTextKeys(Reading("game", r.cfg.(game := g)), Quote(motd, printable), false, motd);
    }
    SectionField(r, before, "motd", QuotedIf(motd, printable), "game", x => r.cfg.(game := x), g,
                 g.(motd := StringOr(motd, g.motd)));
  }

  lemma GameHeadReads(r: Reading, game: GameConfig, printable: PrintTable)
    requires GameFits(game)
    ensures ReadLines(r, GameHead(game, printable))
         == Some(Reading("game", r.cfg.(game := OverlayHead(r.cfg.game, game))))
  {
    var g1 := r.cfg.game.(gameType := TypeNumber(game.gameType, r.cfg.game.gameType));
    var g2 := g1.(motd := StringOr(game.motd, g1.motd));
    ReadOne(r, Open("game"));
    TypeReads(r, [Open("game")], r.cfg.game, game.gameType);
    var lines := [Open("game")] + OptField(2, "type", Plain(game.gameType));
    MotdReads(r, lines, g1, game.motd, printable);
    if game.forceRespawn {
      GameTextKeys(Reading("game", r.cfg.(game := g2)), "true", true, "");
    }
    SectionField(r, lines + OptField(2, "motd", QuotedIf(game.motd, printable)), "forceRespawn",
                 Flag(game.forceRespawn), "game", x => r.cfg.(game := x), g2,
                 g2.(forceRespawn := game.forceRespawn || g2.forceRespawn));
  }

  function OverlayMiddle(g: Cfg.Game, game: GameConfig): Cfg.Game {
    g.(inactivity := game.inactivity.GetOr(g.inactivity), quadFactor := game.quadFactor.GetOr(g.quadFactor))
  }

  /** Any text `value` that reads as the duration sets it. */
  lemma InactivityFieldReads(r: Reading, before: seq<Line>, g: Cfg.Game, value: Option<string>, d: Option<int>)
    requires ReadLines(r, before) == Some(Reading("game", r.cfg.(game := g)))
    requires value.None? <==> d.None?
    requires value.Some? ==> SpanOf(value.value) == d
    ensures ReadLines(r, before + OptField(2, "inactivity", value))
         == Some(Reading("game", r.cfg.(game := g.(inactivity := d.GetOr(g.inactivity)))))
  {
    if value.Some? {
      GameTimeKey(Reading("game", r.cfg.(game := g)), value.value, d.value);
    }
    SectionField(r, before, "inactivity", value, "game", x => r.cfg.(game := x), g,
                 g.(inactivity := d.GetOr(g.inactivity)));
  }

  lemma InactivityReads(r: Reading, before: seq<Line>, g: Cfg.Game, inactivity: Option<int>)
    requires ReadLines(r, before) == Some(Reading("game", r.cfg.(game := g))) && SpanFits(inactivity)
    ensures ReadLines(r, before + OptField(2, "inactivity", Span(inactivity)))
         == Some(Reading("game", r.cfg.(game := g.(inactivity := inactivity.GetOr(g.inactivity)))))
  {
    if inactivity.Some? {
      SpanReads(inactivity);
    }
    InactivityFieldReads(r, before, g, Span(inactivity), inactivity);
  }

  lemma QuadFactorReads(r: Reading, before: seq<Line>, g: Cfg.Game, quadFactor: Option<int>)
    requires ReadLines(r, before) == Some(Reading("game", r.cfg.(game := g))) && NumberFits(quadFactor)
    ensures ReadLines(r, before + OptField(2, "quadFactor", Number(quadFactor)))
         == Some(Reading("game", r.cfg.(game := g.(quadFactor := quadFactor.GetOr(g.quadFactor)))))
  {
    if quadFactor.Some? {
      NumberReads(quadFactor);
      GameNumberKeys(Reading("game", r.cfg.(game := g)), Number(quadFactor).value, quadFactor.value);
    }
    SectionField(r, before, "quadFactor", Number(quadFactor), "game", x => r.cfg.(game := x), g,
                 g.(quadFactor := quadFactor.GetOr(g.quadFactor)));
  }

  lemma GameMiddleReads(r: Reading, game: GameConfig, printable: PrintTable)
    requires GameFits(game)
    ensures ReadLines(r, GameMiddle(game, printable))
         == Some(Reading("game", r.cfg.(game := OverlayMiddle(OverlayHead(r.cfg.game, game), game))))
  {
    GameHeadReads(r, game, printable);
    MiddleReads(r, GameHead(game, printable), OverlayHead(r.cfg.game, game), game);
  }

  lemma MiddleReads(r: Reading, head: seq<Line>, g: Cfg.Game, game: GameConfig)
    requires ReadLines(r, head) == Some(Reading("game", r.cfg.(game := g)))
    requires SpanFits(game.inactivity) && NumberFits(game.quadFactor)
    ensures ReadLines(r, head + OptField(2, "inactivity", Span(game.inactivity))
                         + OptField(2, "quadFactor", Number(game.quadFactor)))
         == Some(Reading("game", r.cfg.(game := OverlayMiddle(g, game))))
  {
    InactivityReads(r, head, g, game.inactivity);
    QuadFactorReads(r, head + OptField(2, "inactivity", Span(game.inactivity)),
                    g.(inactivity := game.inactivity.GetOr(g.inactivity)), game.quadFactor);
  }

  lemma PasswordReads(r: Reading, before: seq<Line>, g: Cfg.Game, password: string, printable: PrintTable)
    requires ReadLines(r, before) == Some(Reading("game", r.cfg.(game := g)))
    ensures ReadLines(r, before + OptField(2, "password", QuotedIf(password, printable)))
         == Some(Reading("game", r.cfg.(game := g.(joinPassword := StringOr(password, g.joinPassword)))))
  {
    if password != "" {
      QuotedReads(password, printable);
      GameTextKeys(Reading("game", r.cfg.(game := g)), Quote(password, printable), false, password);
    }
    SectionField(r, before, "password", QuotedIf(password, printable), "game", x => r.cfg.(game := x), g,
                 g.(joinPassword := StringOr(password, g.joinPassword)));
  }

  lemma WeaponRespawnReads(r: Reading, before: seq<Line>, g: Cfg.Game, weaponRespawn: Option<int>)
    requires ReadLines(r, before) == Some(Reading("game", r.cfg.(game := g))) && NumberFits(weaponRespawn)
    ensures ReadLines(r, before + OptField(2, "weaponRespawn", Number(weaponRespawn)))
         == Some(Reading("game", r.cfg.(game := g.(weaponRespawn := weaponRespawn.GetOr(g.weaponRespawn)))))
  {
    if weaponRespawn.Some? {
      NumberReads(weaponRespawn);
      GameNumberKeys(Reading("game", r.cfg.(game := g)), Number(weaponRespawn).value, weaponRespawn.value);
    }
    SectionField(r, before, "weaponRespawn", Number(weaponRespawn), "game", x => r.cfg.(game := x), g,
                 g.(weaponRespawn := weaponRespawn.GetOr(g.weaponRespawn)));
  }

  lemma GameReads(r: Reading, game: GameConfig, printable: PrintTable)
    requires GameFits(game)
    ensures ReadLines(r, GameLines(game, printable))
         == Some(Reading("game", r.cfg.(game := OverlayGame(r.cfg.game, game))))
  {
    var g5 := OverlayMiddle(OverlayHead(r.cfg.game, game), game);
    var g6 := g5.(joinPassword := StringOr(game.password, g5.joinPassword));
    var lines := GameMiddle(game, printable);
    GameMiddleReads(r, game, printable);
    PasswordReads(r, lines, g5, game.password, printable);
    WeaponRespawnReads(r, lines + OptField(2, "password", QuotedIf(game.password, printable)), g6,
                       game.weaponRespawn);
  }

  // ---- Lists ----

  /** In the maps section, an optional field of the last map turns `m` into `m'`. */
  lemma MapField(r: Reading, before: seq<Line>, key: string, value: Option<string>, maps: seq<Rotation.Map>,
                 m: Rotation.Map, m': Rotation.Map)
    requires ReadLines(r, before) == Some(Reading("maps", r.cfg.(maps := maps + [m])))
    requires value.None? ==> m' == m
    requires value.Some? ==> SetMap(m, key, value.value) == Some(m')
    ensures ReadLines(r, before + OptField(4, key, value)) == Some(Reading("maps", r.cfg.(maps := maps + [m'])))
  {
    var all := maps + [m];
    assert all[..|all| - 1] == maps && all[|all| - 1] == m;
    ReadOptField(r, before, 4, key, value, Reading("maps", r.cfg.(maps := all)));
  }

  lemma MapNameReads(r: Reading, m: MapSpec)
    requires r.section == "maps" && PlainSafe(m.name)
    ensures ReadLines(r, [ItemField("name", m.name)])
         == Some(Reading("maps", r.cfg.(maps := r.cfg.maps + [NO_MAP.(name := m.name)])))
  {
    ReadOne(r, ItemField("name", m.name));
    assert m.name[0] != '"';
    MapNameKey(NO_MAP, m.name, m.name);
  }

  lemma MapHeadReads(r: Reading, m: MapSpec)
    requires r.section == "maps" && MapFits(m)
    ensures ReadLines(r, [ItemField("name", m.name)] + OptField(4, "type", Plain(m.gameType)))
         == Some(Reading("maps", r.cfg.(maps := r.cfg.maps + [NO_MAP.(name := m.name,
                                                                      gameType := TypeNumber(m.gameType, 0))])))
  {
    var m0 := NO_MAP.(name := m.name);
    MapNameReads(r, m);
    if m.gameType != "" {
      MapTypeKey(m0, m.gameType, TypeOf(m.gameType).value);
    }
    MapField(r, [ItemField("name", m.name)], "type", Plain(m.gameType), r.cfg.maps, m0,
             m0.(gameType := TypeNumber(m.gameType, 0)));
  }

  lemma CaptureReads(r: Reading, before: seq<Line>, maps: seq<Rotation.Map>, m: Rotation.Map, n: Option<int>)
    requires ReadLines(r, before) == Some(Reading("maps", r.cfg.(maps := maps + [m]))) && NumberFits(n)
    ensures ReadLines(r, before + OptField(4, "captureLimit", Number(n)))
         == Some(Reading("maps", r.cfg.(maps := maps + [m.(captureLimit := n.GetOr(m.captureLimit))])))
  {
    if n.Some? {
      NumberReads(n);
      MapLimitKeys(m, Number(n).value, n.value);
    }
    MapField(r, before, "captureLimit", Number(n), maps, m, m.(captureLimit := n.GetOr(m.captureLimit)));
  }

  lemma FragReads(r: Reading, before: seq<Line>, maps: seq<Rotation.Map>, m: Rotation.Map, n: Option<int>)
    requires ReadLines(r, before) == Some(Reading("maps", r.cfg.(maps := maps + [m]))) && NumberFits(n)
    ensures ReadLines(r, before + OptField(4, "fragLimit", Number(n)))
         == Some(Reading("maps", r.cfg.(maps := maps + [m.(fragLimit := n.GetOr(m.fragLimit))])))
  {
    if n.Some? {
      NumberReads(n);
      MapLimitKeys(m, Number(n).value, n.value);
    }
    MapField(r, before, "fragLimit", Number(n), maps, m, m.(fragLimit := n.GetOr(m.fragLimit)));
  }

  /** The same for any text `value` that reads as the duration. */
  lemma TimeFieldReads(r: Reading, before: seq<Line>, maps: seq<Rotation.Map>, m: Rotation.Map,
                       value: Option<string>, d: Option<int>)
    requires ReadLines(r, before) == Some(Reading("maps", r.cfg.(maps := maps + [m])))
    requires value.None? <==> d.None?
    requires value.Some? ==> SpanOf(value.value) == d
    ensures ReadLines(r, before + OptField(4, "timeLimit", value))
         == Some(Reading("maps", r.cfg.(maps := maps + [m.(timeLimit := d.GetOr(m.timeLimit))])))
  {
    if value.Some? {
      MapTimeKey(m, value.value, d.value);
    }
    MapField(r, before, "timeLimit", value, maps, m, m.(timeLimit := d.GetOr(m.timeLimit)));
  }

  lemma MapTimeReads(r: Reading, before: seq<Line>, maps: seq<Rotation.Map>, m: Rotation.Map, d: Option<int>)
    requires ReadLines(r, before) == Some(Reading("maps", r.cfg.(maps := maps + [m]))) && SpanFits(d)
    ensures ReadLines(r, before + OptField(4, "timeLimit", Span(d)))
         == Some(Reading("maps", r.cfg.(maps := maps + [m.(timeLimit := d.GetOr(m.timeLimit))])))
  {
    if d.Some? {
      SpanReads(d);
    }
    TimeFieldReads(r, before, maps, m, Span(d), d);
  }

  lemma MapReads(r: Reading, m: MapSpec)
    requires r.section == "maps" && MapFits(m)
    ensures ReadLines(r, MapLines(m)) == Some(Reading("maps", r.cfg.(maps := r.cfg.maps + [ToMap(m)])))
  {
    var m1 := NO_MAP.(name := m.name, gameType := TypeNumber(m.gameType, 0));
    var m2 := m1.(captureLimit := m.captureLimit.GetOr(0));
    var m3 := m2.(fragLimit := m.fragLimit.GetOr(0));
    var lines := [ItemField("name", m.name)] + OptField(4, "type", Plain(m.gameType));
    MapHeadReads(r, m);
    CaptureReads(r, lines, r.cfg.maps, m1, m.captureLimit);
    lines := lines + OptField(4, "captureLimit", Number(m.captureLimit));
    FragReads(r, lines, r.cfg.maps, m2, m.fragLimit);
    lines := lines + OptField(4, "fragLimit", Number(m.fragLimit));
    MapTimeReads(r, lines, r.cfg.maps, m3, m.timeLimit);
  }

  /** The reading of the maps section, with these maps. */
  function InMaps(c: Cfg.Config, maps: seq<Rotation.Map>): Reading {
    Reading("maps", c.(maps := maps))
  }

  lemma NextMapReads(c: Cfg.Config, before: seq<Rotation.Map>, m: MapSpec, rest: seq<Line>)
    requires MapFits(m)
    ensures ReadLines(InMaps(c, before), MapLines(m) + rest) == ReadLines(InMaps(c, before + [ToMap(m)]), rest)
  {
    MapReads(InMaps(c, before), m);
    ReadConcat(InMaps(c, before), MapLines(m), rest);
  }

  lemma {:induction false} MapsReadOn(c: Cfg.Config, before: seq<Rotation.Map>, maps: seq<MapSpec>)
    requires forall i :: 0 <= i < |maps| ==> MapFits(maps[i])
    ensures ReadLines(InMaps(c, before), AllMapLines(maps)) == ReadLines(InMaps(c, before + ToMaps(maps)), [])
    decreases |maps|
  {
    if |maps| == 0 {
      assert before + ToMaps(maps) == before;
    } else {
      var first := ToMap(maps[0]);
      NextMapReads(c, before, maps[0], AllMapLines(maps[1..]));
      MapsReadOn(c, before + [first], maps[1..]);
      assert ToMaps(maps) == [first] + ToMaps(maps[1..]);
      Assoc(before, [first], ToMaps(maps[1..]));
    }
  }

  lemma MapsRead(r: Reading, maps: seq<MapSpec>)
    requires r.section == "maps" && forall i :: 0 <= i < |maps| ==> MapFits(maps[i])
    ensures ReadLines(r, AllMapLines(maps)) == Some(Reading("maps", r.cfg.(maps := r.cfg.maps + ToMaps(maps))))
  {
    MapsReadOn(r.cfg, r.cfg.maps, maps);
    assert r == InMaps(r.cfg, r.cfg.maps);
  }

  lemma CommandReads(r: Reading, command: string, printable: PrintTable)
    requires r.section == "commands"
    ensures ReadLines(r, [Item(Quote(command, printable))])
         == Some(Reading("commands", r.cfg.(overrides := r.cfg.overrides + [command])))
  {
    QuoteReadsBack(command, printable);
    ReadOne(r, Item(Quote(command, printable)));
  }

  /** The reading of the commands section, with these commands. */
  function InCommands(c: Cfg.Config, commands: seq<string>): Reading {
    Reading("commands", c.(overrides := commands))
  }

  lemma NextCommandReads(c: Cfg.Config, before: seq<string>, command: string, rest: seq<Line>, printable: PrintTable)
    ensures ReadLines(InCommands(c, before), [Item(Quote(command, printable))] + rest)
         == ReadLines(InCommands(c, before + [command]), rest)
  {
    var item := [Item(Quote(command, printable))];
    CommandReads(InCommands(c, before), command, printable);
    ReadConcat(InCommands(c, before), item, rest);
  }

  /** A reader that takes the printed commands one by one takes them all. */
  lemma {:induction false} ReadOneByOne<R>(read: (seq<string>, seq<Line>) -> R, before: seq<string>,
                                           commands: seq<string>, printable: PrintTable)
    requires forall b, c, rest :: read(b, [Item(Quote(c, printable))] + rest) == read(b + [c], rest)
    ensures read(before, CommandLines(commands, printable)) == read(before + commands, [])
    decreases |commands|
  {
    if |commands| == 0 {
      assert before + commands == before;
    } else {
      ReadOneByOne(read, before + [commands[0]], commands[1..], printable);
      assert before + [commands[0]] + commands[1..] == before + commands;
    }
  }

  lemma CommandsReadOn(c: Cfg.Config, before: seq<string>, commands: seq<string>, printable: PrintTable)
    ensures ReadLines(InCommands(c, before), CommandLines(commands, printable))
         == ReadLines(InCommands(c, before + commands), [])
  {
    var read := (b: seq<string>, ls: seq<Line>) => ReadLines(InCommands(c, b), ls);
    forall b, x, rest ensures read(b, [Item(Quote(x, printable))] + rest) == read(b + [x], rest) {
      NextCommandReads(c, b, x, rest, printable);
    }
    ReadOneByOne(read, before, commands, printable);
  }

  lemma CommandsRead(r: Reading, commands: seq<string>, printable: PrintTable)
    requires r.section == "commands"
    ensures ReadLines(r, CommandLines(commands, printable))
         == Some(Reading("commands", r.cfg.(overrides := r.cfg.overrides + commands)))
  {
    CommandsReadOn(r.cfg, r.cfg.overrides, commands, printable);
  }

  // ---- The whole file ----

  lemma TopReads(r: Reading, spec: ServerConfig)
    requires NumberFits(spec.fragLimit) && SpanFits(spec.timeLimit)
    ensures ReadLines(r, TopLines(spec))
         == Some(Reading("", r.cfg.(fragLimit := spec.fragLimit.GetOr(25),
                                    timeLimit := spec.timeLimit.GetOr(900 * Cfg.SECOND))))
  {
    var frag := Field(0, "fragLimit", Itoa(spec.fragLimit.GetOr(25)));
    var time := Field(0, "timeLimit", Span(spec.timeLimit).GetOr("15m"));
    AtoiItoa(spec.fragLimit.GetOr(25));
    TimeReads(spec.timeLimit);
    FragKey(r, Itoa(spec.fragLimit.GetOr(25)), spec.fragLimit.GetOr(25));
    TimeKey(Reading("", r.cfg.(fragLimit := spec.fragLimit.GetOr(25))), Span(spec.timeLimit).GetOr("15m"),
            spec.timeLimit.GetOr(900 * Cfg.SECOND));
    assert TopLines(spec) == [frag] + [time];
    ReadConcat(r, [frag], [time]);
    ReadOne(r, frag);
    ReadOne(Reading("", r.cfg.(fragLimit := spec.fragLimit.GetOr(25))), time);
  }

  lemma TimeReads(d: Option<int>)
    requires SpanFits(d)
    ensures SpanOf(Span(d).GetOr("15m")) == Some(d.GetOr(900 * Cfg.SECOND))
  {
    if d.Some? {
      SpanReads(d);
    } else {
      WholeMinutesParse(15);
      assert Decimal(15) == "15" by {
        assert Decimal(1) == "1";
      }
      assert Decimal(15) + "m" == "15m";
    }
  }

  function BotPart(spec: ServerConfig): seq<Line> {
    match spec.bot { case Some(bot) => BotLines(bot) case None => [] }
  }

  function GamePart(spec: ServerConfig, printable: PrintTable): seq<Line> {
    match spec.game { case Some(game) => GameLines(game, printable) case None => [] }
  }

  function ServerPart(spec: ServerConfig, printable: PrintTable): seq<Line> {
    match spec.server { case Some(server) => ServerLines(server, printable) case None => [] }
  }

  function MapsPart(spec: ServerConfig): seq<Line> {
    if |spec.maps| > 0 then [Open("maps")] + AllMapLines(spec.maps) else []
  }

  function CommandsPart(spec: ServerConfig, printable: PrintTable): seq<Line> {
    if |spec.commands| > 0 then [Open("commands")] + CommandLines(spec.commands, printable) else []
  }

  lemma PartsOfSpec(spec: ServerConfig, printable: PrintTable)
    ensures SpecLines(spec, printable)
         == TopLines(spec) + BotPart(spec) + GamePart(spec, printable) + ServerPart(spec, printable)
            + MapsPart(spec) + CommandsPart(spec, printable)
  {
  }

  /** Each part changes the configuration in one place, whatever section was open before. */
  ghost predicate Changes(lines: seq<Line>, from: Cfg.Config, to: Cfg.Config) {
    forall r: Reading :: r.cfg == from ==> ReadLines(r, lines).Some? && ReadLines(r, lines).value.cfg == to
  }

  lemma ChangesTwice(a: seq<Line>, b: seq<Line>, c0: Cfg.Config, c1: Cfg.Config, c2: Cfg.Config)
    requires Changes(a, c0, c1) && Changes(b, c1, c2)
    ensures Changes(a + b, c0, c2)
  {
    forall r: Reading | r.cfg == c0
      ensures ReadLines(r, a + b).Some? && ReadLines(r, a + b).value.cfg == c2
    {
      ReadConcat(r, a, b);
    }
  }

  lemma BotChanges(spec: ServerConfig, c: Cfg.Config)
    requires Fits(spec)
    ensures Changes(BotPart(spec), c, c.(bot := OverlayBot(c.bot, spec.bot.GetOr(NO_BOT))))
  {
    forall r: Reading | r.cfg == c
      ensures ReadLines(r, BotPart(spec)).Some?
      ensures ReadLines(r, BotPart(spec)).value.cfg == c.(bot := OverlayBot(c.bot, spec.bot.GetOr(NO_BOT)))
    {
      if spec.bot.Some? {
        BotReads(r, spec.bot.value);
      }
    }
  }

  lemma GameChanges(spec: ServerConfig, printable: PrintTable, c: Cfg.Config)
    requires Fits(spec)
    ensures Changes(GamePart(spec, printable), c, c.(game := OverlayGame(c.game, spec.game.GetOr(NO_GAME))))
  {
    forall r: Reading | r.cfg == c
      ensures ReadLines(r, GamePart(spec, printable)).Some?
      ensures ReadLines(r, GamePart(spec, printable)).value.cfg
           == c.(game := OverlayGame(c.game, spec.game.GetOr(NO_GAME)))
    {
      if spec.game.Some? {
        GameReads(r, spec.game.value, printable);
      }
    }
  }

  lemma ServerChanges(spec: ServerConfig, printable: PrintTable, c: Cfg.Config)
    requires Fits(spec)
    ensures Changes(ServerPart(spec, printable), c, c.(server := OverlayServer(c.server, spec.server.GetOr(NO_SERVER))))
  {
    forall r: Reading | r.cfg == c
      ensures ReadLines(r, ServerPart(spec, printable)).Some?
      ensures ReadLines(r, ServerPart(spec, printable)).value.cfg
           == c.(server := OverlayServer(c.server, spec.server.GetOr(NO_SERVER)))
    {
      if spec.server.Some? {
        ServerReads(r, spec.server.value, printable);
      }
    }
  }

  lemma MapsChange(spec: ServerConfig, c: Cfg.Config)
    requires Fits(spec)
    ensures Changes(MapsPart(spec), c, c.(maps := if |spec.maps| > 0 then ToMaps(spec.maps) else c.maps))
  {
    forall r: Reading | r.cfg == c
      ensures ReadLines(r, MapsPart(spec)).Some?
      ensures ReadLines(r, MapsPart(spec)).value.cfg
           == c.(maps := if |spec.maps| > 0 then ToMaps(spec.maps) else c.maps)
    {
      if |spec.maps| > 0 {
        ReadOne(r, Open("maps"));
        ReadConcat(r, [Open("maps")], AllMapLines(spec.maps));
        MapsRead(OpenSection(r, "maps"), spec.maps);
        assert [] + ToMaps(spec.maps) == ToMaps(spec.maps);
      }
    }
  }

  lemma CommandsChange(spec: ServerConfig, printable: PrintTable, c: Cfg.Config)
    ensures Changes(CommandsPart(spec, printable), c,
                    c.(overrides := if |spec.commands| > 0 then spec.commands else c.overrides))
  {
    forall r: Reading | r.cfg == c
      ensures ReadLines(r, CommandsPart(spec, printable)).Some?
      ensures ReadLines(r, CommandsPart(spec, printable)).value.cfg
           == c.(overrides := if |spec.commands| > 0 then spec.commands else c.overrides)
    {
      if |spec.commands| > 0 {
        ReadOne(r, Open("commands"));
        ReadConcat(r, [Open("commands")], CommandLines(spec.commands, printable));
        CommandsRead(OpenSection(r, "commands"), spec.commands, printable);
        assert [] + spec.commands == spec.commands;
      }
    }
  }

  lemma SpecReads(spec: ServerConfig, printable: PrintTable, c: Cfg.Config)
    requires Fits(spec)
    ensures Changes(SpecLines(spec, printable), c, Overlay(c, spec))
  {
    var c1 := c.(fragLimit := spec.fragLimit.GetOr(25), timeLimit := spec.timeLimit.GetOr(900 * Cfg.SECOND));
    var c2 := c1.(bot := OverlayBot(c1.bot, spec.bot.GetOr(NO_BOT)));
    var c3 := c2.(game := OverlayGame(c2.game, spec.game.GetOr(NO_GAME)));
    var c4 := c3.(server := OverlayServer(c3.server, spec.server.GetOr(NO_SERVER)));
    var c5 := c4.(maps := if |spec.maps| > 0 then ToMaps(spec.maps) else c4.maps);
    var c6 := c5.(overrides := if |spec.commands| > 0 then spec.commands else c5.overrides);
    forall r: Reading | r.cfg == c
      ensures ReadLines(r, TopLines(spec)).Some? && ReadLines(r, TopLines(spec)).value.cfg == c1
    {
      TopReads(r, spec);
    }
    BotChanges(spec, c1);
    GameChanges(spec, printable, c2);
    ServerChanges(spec, printable, c3);
    MapsChange(spec, c4);
    CommandsChange(spec, printable, c5);
    var b, g, s := BotPart(spec), GamePart(spec, printable), ServerPart(spec, printable);
    var m, o := MapsPart(spec), CommandsPart(spec, printable);
    ChangesTwice(TopLines(spec), b, c, c1, c2);
    ChangesTwice(TopLines(spec) + b, g, c, c2, c3);
    ChangesTwice(TopLines(spec) + b + g, s, c, c3, c4);
    ChangesTwice(TopLines(spec) + b + g + s, m, c, c4, c5);
    ChangesTwice(TopLines(spec) + b + g + s + m, o, c, c5, c6);
    PartsOfSpec(spec, printable);
    assert c6 == Overlay(c, spec);
  }

  // ---- Every printed line is a line of the subset ----

  predicate AllPlain(lines: seq<Line>) { forall l :: l in lines ==> PlainLine(l) }

  lemma NumberOnOneLine(n: int)
    ensures Scalar(Itoa(n))
  {
    assert Itoa(n)[0] in Itoa(n);
  }

  lemma SpanOnOneLine(n: int)
    ensures Scalar(DurationText(n))
  {
    DurationOnOneLine(n);
    assert DurationText(n)[0] in DurationText(n);
  }

  lemma LettersOnOneLine(t: string)
    requires PlainKey(t)
    ensures Scalar(t)
  {
    assert t[0] in t;
  }

  lemma TypeIsLetters(t: string)
    requires TypeOf(t).Some?
    ensures PlainKey(t)
  {
    assert PlainKey("FreeForAll") && PlainKey("FFA") && PlainKey("CTF") && PlainKey("CaptureTheFlag");
    assert PlainKey("Tournament") && PlainKey("SinglePlayer") && PlainKey("TeamDeathmatch");
  }

  lemma TypeOnOneLine(t: string)
    requires TypeOf(t).Some?
    ensures Scalar(t)
  {
    TypeIsLetters(t);
    LettersOnOneLine(t);
  }

  lemma NameOnOneLine(name: string)
    requires PlainSafe(name)
    ensures Scalar(name)
  {
  }

  lemma NumberPlain(depth: nat, key: string, n: Option<int>)
    requires PlainKey(key)
    ensures AllPlain(OptField(depth, key, Number(n)))
  {
    NumberOnOneLine(n.GetOr(0));
  }

  lemma SpanPlain(depth: nat, key: string, d: Option<int>)
    requires PlainKey(key)
    ensures AllPlain(OptField(depth, key, Span(d)))
  {
    SpanOnOneLine(d.GetOr(0));
  }

  lemma QuotedPlain(depth: nat, key: string, s: string, printable: PrintTable)
    requires PlainKey(key)
    ensures AllPlain(OptField(depth, key, QuotedIf(s, printable)))
  {
    QuoteOnOneLine(s, printable);
  }

  lemma FlagPlain(depth: nat, key: string, b: bool)
    requires PlainKey(key)
    ensures AllPlain(OptField(depth, key, Flag(b)))
  {
  }

  lemma TypePlain(depth: nat, gameType: string)
    requires TypeFits(gameType)
    ensures AllPlain(OptField(depth, "type", Plain(gameType)))
  {
    if gameType != "" {
      TypeOnOneLine(gameType);
    }
  }

  lemma BotPlain(bot: BotConfig)
    ensures AllPlain(BotLines(bot))
  {
    NumberPlain(2, "minPlayers", bot.minPlayers);
    NumberPlain(2, "skill", bot.skill);
    FlagPlain(2, "noChat", bot.noChat);
    assert PlainLine(Open("bot"));
  }

  lemma ServerPlain(server: ServerSettings, printable: PrintTable)
    ensures AllPlain(ServerLines(server, printable))
  {
    QuotedPlain(2, "hostname", server.hostname, printable);
    NumberPlain(2, "maxClients", server.maxClients);
    QuotedPlain(2, "password", server.rconPassword, printable);
    assert PlainLine(Open("server"));
  }

  lemma GameHeadPlain(game: GameConfig, printable: PrintTable)
    requires GameFits(game)
    ensures AllPlain(GameHead(game, printable))
  {
    TypePlain(2, game.gameType);
    QuotedPlain(2, "motd", game.motd, printable);
    FlagPlain(2, "forceRespawn", game.forceRespawn);
    assert PlainLine(Open("game"));
  }

  lemma GameMiddlePlain(game: GameConfig, printable: PrintTable)
    requires GameFits(game)
    ensures AllPlain(GameMiddle(game, printable))
  {
    GameHeadPlain(game, printable);
    SpanPlain(2, "inactivity", game.inactivity);
    NumberPlain(2, "quadFactor", game.quadFactor);
  }

  lemma GamePlain(game: GameConfig, printable: PrintTable)
    requires GameFits(game)
    ensures AllPlain(GameLines(game, printable))
  {
    GameMiddlePlain(game, printable);
    QuotedPlain(2, "password", game.password, printable);
    NumberPlain(2, "weaponRespawn", game.weaponRespawn);
  }

  lemma MapPlain(m: MapSpec)
    requires MapFits(m)
    ensures AllPlain(MapLines(m))
  {
    TypePlain(4, m.gameType);
    NumberPlain(4, "captureLimit", m.captureLimit);
    NumberPlain(4, "fragLimit", m.fragLimit);
    SpanPlain(4, "timeLimit", m.timeLimit);
    NameOnOneLine(m.name);
    assert PlainLine(ItemField("name", m.name));
  }

  lemma {:induction false} MapsPlain(maps: seq<MapSpec>)
    requires forall i :: 0 <= i < |maps| ==> MapFits(maps[i])
    ensures AllPlain(AllMapLines(maps))
    decreases |maps|
  {
    if |maps| > 0 {
      MapPlain(maps[0]);
      MapsPlain(maps[1..]);
    }
  }

  lemma {:induction false} CommandsPlain(commands: seq<string>, printable: PrintTable)
    ensures AllPlain(CommandLines(commands, printable))
    decreases |commands|
  {
    if |commands| > 0 {
      QuoteOnOneLine(commands[0], printable);
      CommandsPlain(commands[1..], printable);
    }
  }

  lemma TopPlain(spec: ServerConfig)
    ensures AllPlain(TopLines(spec))
  {
    NumberOnOneLine(spec.fragLimit.GetOr(25));
    SpanOnOneLine(spec.timeLimit.GetOr(0));
    assert PlainKey("fragLimit") && PlainKey("timeLimit");
  }

  lemma PartsPlain(spec: ServerConfig, printable: PrintTable)
    requires Fits(spec)
    ensures AllPlain(BotPart(spec)) && AllPlain(GamePart(spec, printable)) && AllPlain(ServerPart(spec, printable))
  {
    if spec.bot.Some? {
      BotPlain(spec.bot.value);
    }
    if spec.game.Some? {
      GamePlain(spec.game.value, printable);
    }
    if spec.server.Some? {
      ServerPlain(spec.server.value, printable);
    }
  }

  lemma SpecPlain(spec: ServerConfig, printable: PrintTable)
    requires Fits(spec)
    ensures AllPlain(SpecLines(spec, printable))
  {
    TopPlain(spec);
    PartsPlain(spec, printable);
    ListsPlain(spec, printable);
    PartsOfSpec(spec, printable);
  }

  lemma ListsPlain(spec: ServerConfig, printable: PrintTable)
    requires Fits(spec)
    ensures AllPlain(MapsPart(spec)) && AllPlain(CommandsPart(spec, printable))
  {
    MapsPlain(spec.maps);
    CommandsPlain(spec.commands, printable);
    assert PlainLine(Open("maps")) && PlainLine(Open("commands"));
  }

  /**
   Reading the printed specification over a configuration gives exactly the fields that the
   specification sets, and the configuration's own values elsewhere.
   */
  lemma RoundTrip(spec: ServerConfig, printable: PrintTable, c: Cfg.Config)
    requires Fits(spec) && OnlyNames(c.maps)
    ensures Unmarshal(c, ConfigYaml(Some(spec), printable)) == Some(Some(Overlay(c, spec)))
  {
    SpecPlain(spec, printable);
    PartsOfSpec(spec, printable);
    DocumentReadsBack(SpecLines(spec, printable));
    SpecReads(spec, printable, c);
    assert Changes(SpecLines(spec, printable), c, Overlay(c, spec));
    var r := Reading("", c);
    assert ReadLines(r, SpecLines(spec, printable)).Some?;
  }

  // ---- A time limit without a unit ----

  lemma BareTimeLimitStops(r: Reading, depth: nat, n: nat)
    requires depth == 0 || r.section == "maps"
    ensures ReadLine(r, Field(depth, "timeLimit", Itoa(n))).None?
  {
    NumberIsNoDuration(n);
    assert SpanOf(Itoa(n)) == None;
    if depth == 0 {
      TopTimeStops(r.cfg, Itoa(n));
    } else if |r.cfg.maps| > 0 {
      MapTimeStops(r.cfg.maps[|r.cfg.maps| - 1], Itoa(n));
    }
  }

  lemma TopTimeStops(c: Cfg.Config, value: string)
    requires SpanOf(value) == None
    ensures SetTop(c, "timeLimit", value) == None
  {
  }

  lemma MapTimeStops(m: Rotation.Map, value: string)
    requires SpanOf(value) == None
    ensures SetMap(m, "timeLimit", value) == None
  {
  }

  /** A file in which the time limit of the game or of a map is a bare number is rejected as a whole. */
  lemma BareTimeLimitRejected(c: Cfg.Config, before: seq<Line>, depth: nat, n: nat, after: seq<Line>)
    requires AllPlain(before) && AllPlain(after)
    requires depth == 0 || (ReadLines(Reading("", c), before).Some? ==>
                              ReadLines(Reading("", c), before).value.section == "maps")
    ensures Unmarshal(c, DocumentText(before + [Field(depth, "timeLimit", Itoa(n))] + after)) == None
  {
    var l := Field(depth, "timeLimit", Itoa(n));
    NumberOnOneLine(n);
    assert PlainLine(l);
    DocumentReadsBack(before + [l] + after);
    Assoc(before, [l], after);
    ReadConcat(Reading("", c), before, [l] + after);
    var r := ReadLines(Reading("", c), before);
    if r.Some? {
      BareTimeLimitStops(r.value, depth, n);
      assert ([l] + after)[0] == l;
    }
  }

  // ---- An empty specification ----

  lemma NoSectionChanges(g: Cfg.Game, s: Cfg.Server, b: Cfg.Bot)
    ensures OverlayGame(g, NO_GAME) == g && OverlayServer(s, NO_SERVER) == s && OverlayBot(b, NO_BOT) == b
  {
  }

  lemma OverlayNothing(c: Cfg.Config)
    requires c.fragLimit == 25 && c.timeLimit == 900 * Cfg.SECOND
    ensures Overlay(c, EMPTY) == c
  {
    NoSectionChanges(c.game, c.server, c.bot);
  }

  lemma EmptyFits()
    ensures Fits(EMPTY)
  {
  }

  lemma DefaultFrags()
    ensures FieldText(0, "fragLimit", Itoa(25)) == "fragLimit: 25\n"
  {
    assert Decimal(25) == "25" by {
      assert Decimal(2) == "2";
    }
  }

  lemma DefaultTime()
    ensures FieldText(0, "timeLimit", "15m") == "timeLimit: 15m\n"
  {
  }

  lemma EmptyLines(printable: PrintTable)
    ensures SpecLines(EMPTY, printable) == TopLines(EMPTY)
  {
    PartsOfSpec(EMPTY, printable);
  }

  lemma EmptyText(printable: PrintTable)
    ensures ConfigYaml(Some(EMPTY), printable)
         == FieldText(0, "fragLimit", Itoa(25)) + FieldText(0, "timeLimit", "15m")
  {
    EmptyLines(printable);
    TopText(EMPTY);
  }

  lemma DefaultText()
    ensures FieldText(0, "fragLimit", Itoa(25)) + FieldText(0, "timeLimit", "15m") == "fragLimit: 25\ntimeLimit: 15m\n"
  {
    DefaultFrags();
    DefaultTime();
  }

  /** No configuration at all prints as the one that sets nothing. */
  lemma NilPrintsLikeEmpty(printable: PrintTable)
    ensures ConfigYaml(None, printable) == ConfigYaml(Some(EMPTY), printable)
  {
    EmptyText(printable);
    DefaultText();
  }
}
