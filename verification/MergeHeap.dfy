/**
 `resolveConfig` and `mergeServerConfig` (operator/internal/controller/quakeserver_controller.go)
 on the heap: they return the field-wise merge, in objects that share nothing with the cached
 template or with the server's own specification. Neither method has a `modifies` clause, so both
 of those stay as they were.
 */
module MergeHeap {
  import opened Wrappers
  import opened ConfigSpec
  import opened SpecHeap

  function OrCell(over: IntCell?, base: IntCell?): IntCell? {
    if over != null then over else base
  }

  // ---- The helpers: they update `base` in place and share the override's pointers ----

  function OverGame(base: GameStruct, over: GameStruct): GameStruct {
    GameStruct(OrList(over.gameType, base.gameType), OrList(over.motd, base.motd),
               over.forceRespawn || base.forceRespawn, OrCell(over.inactivity, base.inactivity),
               OrCell(over.quadFactor, base.quadFactor), OrList(over.password, base.password),
               OrCell(over.weaponRespawn, base.weaponRespawn))
  }

  function OverSettings(base: SettingsStruct, over: SettingsStruct): SettingsStruct {
    SettingsStruct(OrList(over.hostname, base.hostname), OrCell(over.maxClients, base.maxClients),
                   OrList(over.rconPassword, base.rconPassword))
  }

  function OverBot(base: BotStruct, over: BotStruct): BotStruct {
    BotStruct(OrCell(over.minPlayers, base.minPlayers), OrCell(over.skill, base.skill), over.noChat || base.noChat)
  }

  method MergeGameConfig(base: GameRef, override: GameRef)
    requires base != override
    modifies base
    ensures base.v == OverGame(old(base.v), override.v)
  {
    if override.v.gameType != "" {
      base.v := base.v.(gameType := override.v.gameType);
    }
    if override.v.motd != "" {
      base.v := base.v.(motd := override.v.motd);
    }
    if override.v.forceRespawn {
      base.v := base.v.(forceRespawn := override.v.forceRespawn);
    }
    if override.v.inactivity != null {
      base.v := base.v.(inactivity := override.v.inactivity);
    }
    if override.v.quadFactor != null {
      base.v := base.v.(quadFactor := override.v.quadFactor);
    }
    if override.v.password != "" {
      base.v := base.v.(password := override.v.password);
    }
    if override.v.weaponRespawn != null {
      base.v := base.v.(weaponRespawn := override.v.weaponRespawn);
    }
  }

  method MergeServerSettings(base: SettingsRef, override: SettingsRef)
    requires base != override
    modifies base
    ensures base.v == OverSettings(old(base.v), override.v)
  {
    if override.v.hostname != "" {
      base.v := base.v.(hostname := override.v.hostname);
    }
    if override.v.maxClients != null {
      base.v := base.v.(maxClients := override.v.maxClients);
    }
    if override.v.rconPassword != "" {
      base.v := base.v.(rconPassword := override.v.rconPassword);
    }
  }

  method MergeBotConfig(base: BotRef, override: BotRef)
    requires base != override
    modifies base
    ensures base.v == OverBot(old(base.v), override.v)
  {
    if override.v.minPlayers != null {
      base.v := base.v.(minPlayers := override.v.minPlayers);
    }
    if override.v.skill != null {
      base.v := base.v.(skill := override.v.skill);
    }
    if override.v.noChat {
      base.v := base.v.(noChat := override.v.noChat);
    }
  }

  // ---- Nested sections: an empty one is allocated when the base has none ----

  predicate GameTakes(g: GameStruct, over: GameStruct, base: GameStruct) {
    g.inactivity == OrCell(over.inactivity, base.inactivity) && g.quadFactor == OrCell(over.quadFactor, base.quadFactor)
    && g.weaponRespawn == OrCell(over.weaponRespawn, base.weaponRespawn)
  }

  predicate SettingsTakes(s: SettingsStruct, over: SettingsStruct, base: SettingsStruct) {
    s.maxClients == OrCell(over.maxClients, base.maxClients)
  }

  predicate BotTakes(b: BotStruct, over: BotStruct, base: BotStruct) {
    b.minPlayers == OrCell(over.minPlayers, base.minPlayers) && b.skill == OrCell(over.skill, base.skill)
  }

  /** The two configurations have no section struct in common. */
  ghost predicate Apart(a: ConfigRef, b: ConfigRef)
    reads a, b
  {
    && a != b && (a.v.game == null || a.v.game != b.v.game) && (a.v.server == null || a.v.server != b.v.server)
    && (a.v.bot == null || a.v.bot != b.v.bot)
  }

  method MergeGameSection(base: GameRef?, override: GameRef?) returns (merged: GameRef?)
    requires base == null || base != override
    modifies base
    ensures GameValue(merged) == MergeSection(old(GameValue(base)), GameValue(override), NO_GAME, MergeGame)
    ensures GameTakes(GameOr(merged), GameOr(override), old(GameOr(base)))
    ensures merged == base || fresh(merged)
  {
    merged := base;
    if override != null {
      if merged == null {
        merged := new GameRef(NIL_GAME);
      }
      MergeGameConfig(merged, override);
    }
  }

  method MergeSettingsSection(base: SettingsRef?, override: SettingsRef?) returns (merged: SettingsRef?)
    requires base == null || base != override
    modifies base
    ensures SettingsValue(merged)
         == MergeSection(old(SettingsValue(base)), SettingsValue(override), NO_SERVER, MergeServer)
    ensures SettingsTakes(SettingsOr(merged), SettingsOr(override), old(SettingsOr(base)))
    ensures merged == base || fresh(merged)
  {
    merged := base;
    if override != null {
      if merged == null {
        merged := new SettingsRef(NIL_SETTINGS);
      }
      MergeServerSettings(merged, override);
    }
  }

  method MergeBotSection(base: BotRef?, override: BotRef?) returns (merged: BotRef?)
    requires base == null || base != override
    modifies base
    ensures BotValue(merged) == MergeSection(old(BotValue(base)), BotValue(override), NO_BOT, MergeBot)
    ensures BotTakes(BotOr(merged), BotOr(override), old(BotOr(base)))
    ensures merged == base || fresh(merged)
  {
    merged := base;
    if override != null {
      if merged == null {
        merged := new BotRef(NIL_BOT);
      }
      MergeBotConfig(merged, override);
    }
  }

  method MergeSections(result: ConfigRef, override: ConfigRef)
    requires Apart(result, override)
    modifies result, result.v.game, result.v.server, result.v.bot
    ensures result.v == old(result.v).(game := result.v.game, server := result.v.server, bot := result.v.bot)
    ensures GameValue(result.v.game)
         == MergeSection(old(GameValue(result.v.game)), old(GameValue(override.v.game)), NO_GAME, MergeGame)
    ensures GameTakes(GameOr(result.v.game), GameOr(override.v.game), old(GameOr(result.v.game)))
    ensures result.v.game == old(result.v.game) || fresh(result.v.game)
    ensures SettingsValue(result.v.server)
         == MergeSection(old(SettingsValue(result.v.server)), old(SettingsValue(override.v.server)), NO_SERVER,
                         MergeServer)
    ensures SettingsTakes(SettingsOr(result.v.server), SettingsOr(override.v.server), old(SettingsOr(result.v.server)))
    ensures result.v.server == old(result.v.server) || fresh(result.v.server)
    ensures BotValue(result.v.bot)
         == MergeSection(old(BotValue(result.v.bot)), old(BotValue(override.v.bot)), NO_BOT, MergeBot)
    ensures BotTakes(BotOr(result.v.bot), BotOr(override.v.bot), old(BotOr(result.v.bot)))
    ensures result.v.bot == old(result.v.bot) || fresh(result.v.bot)
  {
    MergeGameAndServer(result, override);
    var bot := MergeBotSection(result.v.bot, override.v.bot);
    result.v := result.v.(bot := bot);
  }

  method MergeGameAndServer(result: ConfigRef, override: ConfigRef)
    requires Apart(result, override)
    modifies result, result.v.game, result.v.server
    ensures result.v == old(result.v).(game := result.v.game, server := result.v.server)
    ensures GameValue(result.v.game)
         == MergeSection(old(GameValue(result.v.game)), old(GameValue(override.v.game)), NO_GAME, MergeGame)
    ensures GameTakes(GameOr(result.v.game), GameOr(override.v.game), old(GameOr(result.v.game)))
    ensures result.v.game == old(result.v.game) || fresh(result.v.game)
    ensures SettingsValue(result.v.server)
         == MergeSection(old(SettingsValue(result.v.server)), old(SettingsValue(override.v.server)), NO_SERVER,
                         MergeServer)
    ensures SettingsTakes(SettingsOr(result.v.server), SettingsOr(override.v.server), old(SettingsOr(result.v.server)))
    ensures result.v.server == old(result.v.server) || fresh(result.v.server)
  {
    var game := MergeGameSection(result.v.game, override.v.game);
    var server := MergeSettingsSection(result.v.server, override.v.server);
    result.v := result.v.(game := game, server := server);
  }

  // ---- mergeServerConfig ----

  ghost function OrMaps(over: array?<MapSlot>, base: array?<MapSlot>): array?<MapSlot> {
    if over != null && over.Length > 0 then over else base
  }

  ghost function OrCommands(over: array?<string>, base: array?<string>): array?<string> {
    if over != null && over.Length > 0 then over else base
  }

  method MergePlain(result: ConfigRef, override: ConfigRef)
    requires result != override
    modifies result
    ensures result.v == old(result.v).(fragLimit := OrCell(override.v.fragLimit, old(result.v.fragLimit)),
                                       timeLimit := OrCell(override.v.timeLimit, old(result.v.timeLimit)),
                                       maps := OrMaps(override.v.maps, old(result.v.maps)),
                                       commands := OrCommands(override.v.commands, old(result.v.commands)))
  {
    if override.v.fragLimit != null {
      result.v := result.v.(fragLimit := override.v.fragLimit);
    }
    if override.v.timeLimit != null {
      result.v := result.v.(timeLimit := override.v.timeLimit);
    }
    if override.v.maps != null && override.v.maps.Length > 0 {
      result.v := result.v.(maps := override.v.maps);
    }
    if override.v.commands != null && override.v.commands.Length > 0 {
      result.v := result.v.(commands := override.v.commands);
    }
  }

  /** What merging `override` into `result` does to the structs and pointers of `result`. */
  twostate predicate Merged(result: ConfigRef, override: ConfigRef)
    reads result, result.v.game, result.v.server, result.v.bot
    reads override, override.v.game, override.v.server, override.v.bot
  {
    && result.v.fragLimit == OrCell(override.v.fragLimit, old(result.v.fragLimit))
    && result.v.timeLimit == OrCell(override.v.timeLimit, old(result.v.timeLimit))
    && result.v.maps == OrMaps(override.v.maps, old(result.v.maps))
    && result.v.commands == OrCommands(override.v.commands, old(result.v.commands))
    && (result.v.game == old(result.v.game) || fresh(result.v.game))
    && (result.v.server == old(result.v.server) || fresh(result.v.server))
    && (result.v.bot == old(result.v.bot) || fresh(result.v.bot))
    && GameTakes(GameOr(result.v.game), GameOr(override.v.game),
                 old(GameOr(result.v.game)))
    && SettingsTakes(SettingsOr(result.v.server), SettingsOr(override.v.server),
                     old(SettingsOr(result.v.server)))
    && BotTakes(BotOr(result.v.bot), BotOr(override.v.bot),
                old(BotOr(result.v.bot)))
  }

  twostate predicate SectionsMerged(result: ConfigRef, override: ConfigRef)
    reads result, result.v.game, result.v.server, result.v.bot
  {
    && GameValue(result.v.game)
       == MergeSection(old(GameValue(result.v.game)), old(GameValue(override.v.game)), NO_GAME, MergeGame)
    && SettingsValue(result.v.server)
       == MergeSection(old(SettingsValue(result.v.server)), old(SettingsValue(override.v.server)), NO_SERVER,
                       MergeServer)
    && BotValue(result.v.bot)
       == MergeSection(old(BotValue(result.v.bot)), old(BotValue(override.v.bot)), NO_BOT, MergeBot)
  }

  twostate predicate PlainMerged(result: ConfigRef, override: ConfigRef)
    reads result, result.v.maps, result.v.commands
  {
    && Pointee(result.v.fragLimit) == Or(old(Pointee(override.v.fragLimit)), old(Pointee(result.v.fragLimit)))
    && Pointee(result.v.timeLimit) == Or(old(Pointee(override.v.timeLimit)), old(Pointee(result.v.timeLimit)))
    && MapsValue(result.v.maps) == OrList(old(MapsValue(override.v.maps)), old(MapsValue(result.v.maps)))
    && CommandsValue(result.v.commands)
       == OrList(old(CommandsValue(override.v.commands)), old(CommandsValue(result.v.commands)))
  }

  lemma OrMapsValue(over: array?<MapSlot>, base: array?<MapSlot>)
    ensures MapsValue(OrMaps(over, base)) == OrList(MapsValue(over), MapsValue(base))
  {
  }

  lemma OrCommandsValue(over: array?<string>, base: array?<string>)
    ensures CommandsValue(OrCommands(over, base)) == OrList(CommandsValue(over), CommandsValue(base))
  {
  }

  method MergePlainParts(result: ConfigRef, override: ConfigRef)
    requires result != override
    modifies result
    ensures result.v == old(result.v).(fragLimit := OrCell(override.v.fragLimit, old(result.v.fragLimit)),
                                       timeLimit := OrCell(override.v.timeLimit, old(result.v.timeLimit)),
                                       maps := OrMaps(override.v.maps, old(result.v.maps)),
                                       commands := OrCommands(override.v.commands, old(result.v.commands)))
    ensures PlainMerged(result, override)
  {
    OrMapsValue(override.v.maps, result.v.maps);
    OrCommandsValue(override.v.commands, result.v.commands);
    MergePlain(result, override);
  }

  /** The merge once both configurations are there, part by part. */
  method MergeParts(result: ConfigRef, override: ConfigRef)
    requires Apart(result, override)
    modifies result, result.v.game, result.v.server, result.v.bot
    ensures PlainMerged(result, override) && SectionsMerged(result, override)
    ensures Merged(result, override)
  {
    MergePlainParts(result, override);
    MergeSections(result, override);
  }

  /** A merge is made field by field. */
  lemma PartsMakeMerge(base: ServerConfig, over: ServerConfig, merged: ServerConfig)
    requires merged.fragLimit == Or(over.fragLimit, base.fragLimit)
    requires merged.timeLimit == Or(over.timeLimit, base.timeLimit)
    requires merged.game == MergeSection(base.game, over.game, NO_GAME, MergeGame)
    requires merged.server == MergeSection(base.server, over.server, NO_SERVER, MergeServer)
    requires merged.bot == MergeSection(base.bot, over.bot, NO_BOT, MergeBot)
    requires merged.maps == OrList(over.maps, base.maps) && merged.commands == OrList(over.commands, base.commands)
    ensures merged == Merge(base, over)
  {
  }

  /** The merge once both configurations are there, on the copy of the base. */
  method MergeInto(result: ConfigRef, override: ConfigRef)
    requires Apart(result, override)
    modifies result, result.v.game, result.v.server, result.v.bot
    ensures Meaning(result.v) == Merge(old(Meaning(result.v)), old(Meaning(override.v)))
    ensures Merged(result, override)
  {
    MergeParts(result, override);
    PartsMakeMerge(old(Meaning(result.v)), old(Meaning(override.v)), Meaning(result.v));
  }

  // ---- What the result shares ----

  /** New, or the very cell the override holds. */
  twostate predicate NewOr(new p: IntCell?, new q: IntCell?) {
    New(p) || p == q
  }

  twostate predicate GameFrom(new g: GameStruct, new over: GameStruct) {
    NewOr(g.inactivity, over.inactivity) && NewOr(g.quadFactor, over.quadFactor)
    && NewOr(g.weaponRespawn, over.weaponRespawn)
  }

  twostate predicate SettingsFrom(new s: SettingsStruct, new over: SettingsStruct) {
    NewOr(s.maxClients, over.maxClients)
  }

  twostate predicate BotFrom(new b: BotStruct, new over: BotStruct) {
    NewOr(b.minPlayers, over.minPlayers) && NewOr(b.skill, over.skill)
  }

  /** `result` leads only to objects allocated since, and to cells and slices that the override holds. */
  twostate predicate SharesOnly(new result: ConfigStruct, new override: ConfigStruct)
    reads result.game, result.server, result.bot, result.maps, override.game, override.server, override.bot
  {
    && NewOr(result.fragLimit, override.fragLimit) && NewOr(result.timeLimit, override.timeLimit)
    && NewStructs(result) && GameFrom(GameOr(result.game), GameOr(override.game))
    && SettingsFrom(SettingsOr(result.server), SettingsOr(override.server))
    && BotFrom(BotOr(result.bot), BotOr(override.bot))
    && (NewMaps(result.maps) || result.maps == override.maps)
    && (NewCommands(result.commands) || result.commands == override.commands)
  }

  /** A copy of the base, which has nothing in common with the override. */
  method CopyApart(base: ConfigRef, override: ConfigRef) returns (result: ConfigRef)
    ensures Meaning(result.v) == old(Meaning(base.v)) && Meaning(override.v) == old(Meaning(override.v))
    ensures fresh(result) && HoldsNew(result.v) && Apart(result, override)
  {
    result := DeepCopy(base);
  }

  /** The pointers of the top level are the override's, or else those of `base`. */
  ghost predicate PointersFrom(result: ConfigStruct, over: ConfigStruct, base: ConfigStruct) {
    && result.fragLimit == OrCell(over.fragLimit, base.fragLimit)
    && result.timeLimit == OrCell(over.timeLimit, base.timeLimit)
    && result.maps == OrMaps(over.maps, base.maps) && result.commands == OrCommands(over.commands, base.commands)
  }

  /** `copy`, `game`, `server` and `bot` are what the copy of the base held before the merge. */
  method MergeOntoCopy(base: ConfigRef, override: ConfigRef)
    returns (result: ConfigRef, ghost copy: ConfigStruct, ghost game: GameStruct, ghost server: SettingsStruct,
             ghost bot: BotStruct)
    ensures Meaning(result.v) == Merge(old(Meaning(base.v)), old(Meaning(override.v)))
    ensures fresh(result) && NewStructs(result.v) && PointersFrom(result.v, override.v, copy)
    ensures New(copy.fragLimit) && New(copy.timeLimit) && NewMaps(copy.maps) && NewCommands(copy.commands)
    ensures NewGameCells(game) && NewSettingsCells(server) && NewBotCells(bot)
    ensures GameTakes(GameOr(result.v.game), GameOr(override.v.game), game)
    ensures SettingsTakes(SettingsOr(result.v.server), SettingsOr(override.v.server), server)
    ensures BotTakes(BotOr(result.v.bot), BotOr(override.v.bot), bot)
  {
    result := CopyApart(base, override);
    copy, game, server, bot := result.v, GameOr(result.v.game), SettingsOr(result.v.server), BotOr(result.v.bot);
    MergeInto(result, override);
  }

  method MergeCopy(base: ConfigRef, override: ConfigRef) returns (result: ConfigRef)
    ensures Meaning(result.v) == Merge(old(Meaning(base.v)), old(Meaning(override.v)))
    ensures fresh(result) && SharesOnly(result.v, override.v)
  {
    ghost var copy, game, server, bot;
    result, copy, game, server, bot := MergeOntoCopy(base, override);
    CellsFrom(GameOr(result.v.game), GameOr(override.v.game), game, SettingsOr(result.v.server),
              SettingsOr(override.v.server), server, BotOr(result.v.bot), BotOr(override.v.bot), bot);
  }

  /** Sections that take their cells from the override or else from a copy hold new cells or the override's. */
  twostate lemma CellsFrom(new g: GameStruct, new overGame: GameStruct, new game: GameStruct, new s: SettingsStruct,
                           new overServer: SettingsStruct, new server: SettingsStruct, new b: BotStruct,
                           new overBot: BotStruct, new bot: BotStruct)
    requires NewGameCells(game) && NewSettingsCells(server) && NewBotCells(bot)
    requires GameTakes(g, overGame, game) && SettingsTakes(s, overServer, server) && BotTakes(b, overBot, bot)
    ensures GameFrom(g, overGame) && SettingsFrom(s, overServer) && BotFrom(b, overBot)
  {
  }

  method MergeServerConfig(base: ConfigRef?, override: ConfigRef?)
    returns (result: ConfigRef?)
    ensures Value(result) == MergeNilable(old(Value(base)), old(Value(override)))
    ensures result != null ==> fresh(result)
    ensures base != null && override != null ==> SharesOnly(result.v, override.v)
    ensures result != null && (base == null || override == null) ==> HoldsNew(result.v)
  {
    if override == null {
      result := DeepCopy(base);
    } else if base == null {
      result := DeepCopy(override);
    } else {
      result := MergeCopy(base, override);
    }
  }

  // ---- resolveConfig ----

  /** The inline configuration to start from: a copy, or an empty one. */
  method CopyInline(inline: ConfigRef?) returns (own: ConfigRef)
    ensures Meaning(own.v) == old(Value(inline)).GetOr(EMPTY)
    ensures fresh(own) && HoldsNew(own.v)
  {
    if inline == null {
      own := new ConfigRef(NIL_CONFIG);
    } else {
      own := DeepCopy(inline);
    }
  }

  method CopyBeside(template: ConfigRef, inline: ConfigRef?) returns (own: ConfigRef)
    ensures Meaning(own.v) == old(Value(inline)).GetOr(EMPTY) && Meaning(template.v) == old(Meaning(template.v))
    ensures fresh(own) && HoldsNew(own.v)
  {
    own := CopyInline(inline);
  }

  method CopyOver(template: ConfigRef, inline: ConfigRef?) returns (result: ConfigRef)
    ensures Meaning(result.v) == Merge(old(Meaning(template.v)), old(Value(inline)).GetOr(EMPTY))
    ensures fresh(result) && HoldsNew(result.v)
  {
    var own := CopyBeside(template, inline);
    result := MergeServerConfig(template, own);
    assert HoldsNew(own.v);
  }

  /** The cache answers with the template's configuration, or has no such template: then there is no result. */
  method ResolveConfig(inline: ConfigRef?, templateRef: Option<string>, templates: map<string, ConfigRef?>)
    returns (result: ConfigRef?)
    ensures result == null <==> templateRef.Some? && templateRef.value !in templates
    ensures result != null && templateRef.None? ==> Meaning(result.v) == old(Value(inline)).GetOr(EMPTY)
    ensures result != null && templateRef.Some?
            ==> Resolved(Meaning(result.v))
                == Resolve(old(Value(inline)), templateRef,
                           map[templateRef.value := old(Value(templates[templateRef.value]))])
    ensures result != null && templateRef.Some?
            ==> Precedence(old(Value(templates[templateRef.value])).GetOr(EMPTY), old(Value(inline)).GetOr(EMPTY),
                           Meaning(result.v))
    ensures result != null ==> fresh(result) && HoldsNew(result.v)
  {
    if templateRef.Some? && templateRef.value !in templates {
      return null;
    }
    if templateRef.Some? {
      InlineTakesPrecedence(Value(inline), templateRef,
                            map[templateRef.value := Value(templates[templateRef.value])]);
    }
    if templateRef.None? || templates[templateRef.value] == null {
      result := CopyInline(inline);
    } else {
      result := CopyOver(templates[templateRef.value], inline);
    }
  }
}
