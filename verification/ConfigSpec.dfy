/**
 The configuration part of the operator's custom resources, and how a template and an inline
 configuration are merged (operator/internal/controller/quakeserver_controller.go). A Go
 pointer field is an Option here, and a nil slice is the empty sequence. Durations are numbers of
 nanoseconds.
 */
module ConfigSpec {
  import opened Wrappers

  datatype GameConfig = GameConfig(gameType: string, motd: string, forceRespawn: bool, inactivity: Option<int>,
                                   quadFactor: Option<int>, password: string, weaponRespawn: Option<int>)
  datatype ServerSettings = ServerSettings(hostname: string, maxClients: Option<int>, rconPassword: string)
  datatype BotConfig = BotConfig(minPlayers: Option<int>, skill: Option<int>, noChat: bool)
  datatype MapSpec = MapSpec(name: string, gameType: string, captureLimit: Option<int>, fragLimit: Option<int>,
                             timeLimit: Option<int>)
  datatype ServerConfig = ServerConfig(fragLimit: Option<int>, timeLimit: Option<int>, game: Option<GameConfig>,
                                       server: Option<ServerSettings>, bot: Option<BotConfig>,
                                       maps: seq<MapSpec>, commands: seq<string>)

  const NO_GAME := GameConfig("", "", false, None, None, "", None)
  const NO_SERVER := ServerSettings("", None, "")
  const NO_BOT := BotConfig(None, None, false)
  const EMPTY := ServerConfig(None, None, None, None, None, [], [])

  // ---- The merge, field by field ----

  function Or<T>(over: Option<T>, base: Option<T>): Option<T> {
    if over.Some? then over else base
  }

  function OrList<T>(over: seq<T>, base: seq<T>): seq<T> {
    if |over| > 0 then over else base
  }

  function MergeGame(base: GameConfig, over: GameConfig): GameConfig {
    GameConfig(OrList(over.gameType, base.gameType), OrList(over.motd, base.motd),
               over.forceRespawn || base.forceRespawn, Or(over.inactivity, base.inactivity),
               Or(over.quadFactor, base.quadFactor), OrList(over.password, base.password),
               Or(over.weaponRespawn, base.weaponRespawn))
  }

  function MergeServer(base: ServerSettings, over: ServerSettings): ServerSettings {
    ServerSettings(OrList(over.hostname, base.hostname), Or(over.maxClients, base.maxClients),
                   OrList(over.rconPassword, base.rconPassword))
  }

  function MergeBot(base: BotConfig, over: BotConfig): BotConfig {
    BotConfig(Or(over.minPlayers, base.minPlayers), Or(over.skill, base.skill), over.noChat || base.noChat)
  }

  /** A nested section is merged into the base's, or into an empty one. */
  function MergeSection<T>(base: Option<T>, over: Option<T>, empty: T, merge: (T, T) -> T): Option<T> {
    if over.None? then base else Some(merge(base.GetOr(empty), over.value))
  }

  function Merge(base: ServerConfig, over: ServerConfig): ServerConfig {
    ServerConfig(Or(over.fragLimit, base.fragLimit), Or(over.timeLimit, base.timeLimit),
                 MergeSection(base.game, over.game, NO_GAME, MergeGame),
                 MergeSection(base.server, over.server, NO_SERVER, MergeServer),
                 MergeSection(base.bot, over.bot, NO_BOT, MergeBot),
                 OrList(over.maps, base.maps), OrList(over.commands, base.commands))
  }

  /** `mergeServerConfig` with its nil cases. */
  function MergeNilable(base: Option<ServerConfig>, over: Option<ServerConfig>): Option<ServerConfig> {
    if over.None? then base
    else if base.None? then over
    else Some(Merge(base.value, over.value))
  }

  // ---- Algebra ----

  /** A merge of sections that is associative, idempotent and has `empty` as unit lifts to sections that may be nil. */
  lemma SectionLaws<T>(a: Option<T>, b: Option<T>, c: Option<T>, empty: T, merge: (T, T) -> T)
    requires forall x, y, z :: merge(merge(x, y), z) == merge(x, merge(y, z))
    requires forall x :: merge(x, x) == x && merge(empty, x) == x && merge(x, empty) == x
    ensures MergeSection(MergeSection(a, b, empty, merge), c, empty, merge)
         == MergeSection(a, MergeSection(b, c, empty, merge), empty, merge)
    ensures MergeSection(a, a, empty, merge) == a
    ensures MergeSection(None, a, empty, merge) == a && MergeSection(a, None, empty, merge) == a
  {
    var ab := MergeSection(a, b, empty, merge);
    if a.Some? && b.Some? && c.Some? {
      assert merge(merge(a.value, b.value), c.value) == merge(a.value, merge(b.value, c.value));
    }
  }

  lemma MergeLaws(a: ServerConfig, b: ServerConfig, c: ServerConfig)
    ensures Merge(Merge(a, b), c) == Merge(a, Merge(b, c))
    ensures Merge(a, a) == a
    ensures Merge(EMPTY, a) == a && Merge(a, EMPTY) == a
  {
    SectionLaws(a.game, b.game, c.game, NO_GAME, MergeGame);
    SectionLaws(a.server, b.server, c.server, NO_SERVER, MergeServer);
    SectionLaws(a.bot, b.bot, c.bot, NO_BOT, MergeBot);
  }

  /** Merging is a monoid on configurations that may be nil, with nil as unit. */
  lemma MergeNilableLaws(a: Option<ServerConfig>, b: Option<ServerConfig>, c: Option<ServerConfig>)
    ensures MergeNilable(MergeNilable(a, b), c) == MergeNilable(a, MergeNilable(b, c))
    ensures MergeNilable(a, a) == a && MergeNilable(None, a) == a && MergeNilable(a, None) == a
  {
    if a.Some? {
      MergeLaws(a.value, b.GetOr(EMPTY), c.GetOr(EMPTY));
    }
  }

  // ---- resolveConfig ----

  datatype Resolved = Resolved(config: ServerConfig) | TemplateNotFound(name: string)

  /** A template as far as resolution is concerned: it may have no configuration. */
  type TemplateConfigs = map<string, Option<ServerConfig>>

  /** The inline configuration, over that of the referenced template. */
  function Resolve(inline: Option<ServerConfig>, templateRef: Option<string>, templates: TemplateConfigs): Resolved {
    var own := inline.GetOr(EMPTY);
    if templateRef.None? then Resolved(own)
    else if templateRef.value !in templates then TemplateNotFound(templateRef.value)
    else
      match templates[templateRef.value]
      case Some(base) => Resolved(Merge(base, own))
      case None => Resolved(own)
  }

  // ---- Who wins ----

  // A field that the override sets wins, any other is the base's; a flag is set when either sets it.

  predicate GamePrecedence(base: GameConfig, over: GameConfig, m: GameConfig) {
    && m.gameType == (if over.gameType != "" then over.gameType else base.gameType)
    && m.motd == (if over.motd != "" then over.motd else base.motd)
    && (m.forceRespawn <==> over.forceRespawn || base.forceRespawn)
    && m.inactivity == (if over.inactivity.Some? then over.inactivity else base.inactivity)
    && m.quadFactor == (if over.quadFactor.Some? then over.quadFactor else base.quadFactor)
    && m.password == (if over.password != "" then over.password else base.password)
    && m.weaponRespawn == (if over.weaponRespawn.Some? then over.weaponRespawn else base.weaponRespawn)
  }

  predicate ServerPrecedence(base: ServerSettings, over: ServerSettings, m: ServerSettings) {
    && m.hostname == (if over.hostname != "" then over.hostname else base.hostname)
    && m.maxClients == (if over.maxClients.Some? then over.maxClients else base.maxClients)
    && m.rconPassword == (if over.rconPassword != "" then over.rconPassword else base.rconPassword)
  }

  predicate BotPrecedence(base: BotConfig, over: BotConfig, m: BotConfig) {
    && m.minPlayers == (if over.minPlayers.Some? then over.minPlayers else base.minPlayers)
    && m.skill == (if over.skill.Some? then over.skill else base.skill)
    && (m.noChat <==> over.noChat || base.noChat)
  }

  /** A section that only one side has is taken whole; one that both have is decided field by field. */
  predicate SectionsPrecedence(base: ServerConfig, over: ServerConfig, m: ServerConfig) {
    && (over.game.None? ==> m.game == base.game) && (base.game.None? ==> m.game == over.game)
    && (base.game.Some? && over.game.Some? ==>
          m.game.Some? && GamePrecedence(base.game.value, over.game.value, m.game.value))
    && (over.server.None? ==> m.server == base.server) && (base.server.None? ==> m.server == over.server)
    && (base.server.Some? && over.server.Some? ==>
          m.server.Some? && ServerPrecedence(base.server.value, over.server.value, m.server.value))
    && (over.bot.None? ==> m.bot == base.bot) && (base.bot.None? ==> m.bot == over.bot)
    && (base.bot.Some? && over.bot.Some? ==>
          m.bot.Some? && BotPrecedence(base.bot.value, over.bot.value, m.bot.value))
  }

  /** What `m` has to be: the override field by field where it is set, and the base elsewhere. */
  predicate Precedence(base: ServerConfig, over: ServerConfig, m: ServerConfig) {
    && m.fragLimit == (if over.fragLimit.Some? then over.fragLimit else base.fragLimit)
    && m.timeLimit == (if over.timeLimit.Some? then over.timeLimit else base.timeLimit)
    && m.maps == (if |over.maps| > 0 then over.maps else base.maps)
    && m.commands == (if |over.commands| > 0 then over.commands else base.commands)
    && SectionsPrecedence(base, over, m)
  }

  /** The merge is the one configuration in which the override takes precedence. */
  lemma MergePrecedence(base: ServerConfig, over: ServerConfig, m: ServerConfig)
    ensures m == Merge(base, over) <==> Precedence(base, over, m)
  {
    var merged := Merge(base, over);
    if Precedence(base, over, m) {
      assert m.game == merged.game && m.server == merged.server && m.bot == merged.bot;
    }
  }

  /** The inline configuration takes precedence over the template's, field by field. */
  lemma InlineTakesPrecedence(inline: Option<ServerConfig>, templateRef: Option<string>, templates: TemplateConfigs)
    ensures var resolved := Resolve(inline, templateRef, templates);
            if templateRef.None? then resolved == Resolved(inline.GetOr(EMPTY))
            else if templateRef.value !in templates then resolved == TemplateNotFound(templateRef.value)
            else
              && resolved.Resolved?
              && Precedence(templates[templateRef.value].GetOr(EMPTY), inline.GetOr(EMPTY), resolved.config)
  {
    if templateRef.Some? && templateRef.value in templates {
      var base, own := templates[templateRef.value].GetOr(EMPTY), inline.GetOr(EMPTY);
      MergePrecedence(base, own, Merge(base, own));
      MergeLaws(own, own, own);
    }
  }
}
