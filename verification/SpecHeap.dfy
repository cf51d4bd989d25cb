/**
 The specification as the operator holds it in memory, and its generated deep copies
 (operator/api/v1alpha1/zz_generated.deepcopy.go). A Go struct is a value, so it is a datatype
 here; a pointer to a struct is a `Ref` object holding it, updated in place. The `New` predicates
 say that every object a pointer leads to has been allocated since the old state.
 */
module SpecHeap {
  import opened Wrappers
  import opened ConfigSpec

  /** What a `*int` or `*metav1.Duration` points to. Nothing here ever writes through such a pointer. */
  class IntCell {
    const v: int

    constructor (v: int)
      ensures this.v == v
    {
      this.v := v;
    }
  }

  function Pointee(p: IntCell?): Option<int> {
    if p == null then None else Some(p.v)
  }

  /** Allocated since the old state, or nil. */
  twostate predicate New(new p: IntCell?) {
    p == null || fresh(p)
  }

  /** A pointer that is not nil gets a new cell with the same number. */
  method CopyCell(p: IntCell?) returns (q: IntCell?)
    ensures Pointee(q) == Pointee(p) && (q == null || fresh(q))
  {
    q := null;
    if p != null {
      q := new IntCell(p.v);
    }
  }

  // ---- BotConfigSpec ----

  datatype BotStruct = BotStruct(minPlayers: IntCell?, skill: IntCell?, noChat: bool)

  class BotRef {
    var v: BotStruct

    constructor (v: BotStruct)
      ensures this.v == v
    {
      this.v := v;
    }
  }

  const NIL_BOT := BotStruct(null, null, false)

  function BotMeaning(s: BotStruct): BotConfig {
    BotConfig(Pointee(s.minPlayers), Pointee(s.skill), s.noChat)
  }

  /** What a pointer to one says: a nil pointer is an absent section. */
  ghost function BotValue(b: BotRef?): Option<BotConfig>
    reads b
  {
    if b == null then None else Some(BotMeaning(b.v))
  }

  twostate predicate NewBotCells(new s: BotStruct) {
    New(s.minPlayers) && New(s.skill)
  }

  twostate predicate NewBot(new b: BotRef?)
    reads b
  {
    b == null || (fresh(b) && NewBotCells(b.v))
  }

  method DeepBotCopyInto(src: BotRef, out: BotRef)
    requires src != out
    modifies out
    ensures BotMeaning(out.v) == BotMeaning(src.v) && NewBotCells(out.v)
  {
    out.v := src.v;
    var minPlayers := CopyCell(src.v.minPlayers);
    out.v := out.v.(minPlayers := minPlayers);
    var skill := CopyCell(src.v.skill);
    out.v := out.v.(skill := skill);
  }

  method DeepBotCopy(src: BotRef?) returns (out: BotRef?)
    ensures BotValue(out) == old(BotValue(src)) && NewBot(out)
  {
    if src == null {
      return null;
    }
    out := new BotRef(NIL_BOT);
    DeepBotCopyInto(src, out);
  }

  // ---- GameConfigSpec ----

  datatype GameStruct = GameStruct(gameType: string, motd: string, forceRespawn: bool, inactivity: IntCell?,
                                 quadFactor: IntCell?, password: string, weaponRespawn: IntCell?)

  class GameRef {
    var v: GameStruct

    constructor (v: GameStruct)
      ensures this.v == v
    {
      this.v := v;
    }
  }

  const NIL_GAME := GameStruct("", "", false, null, null, "", null)

  function GameMeaning(s: GameStruct): GameConfig {
    GameConfig(s.gameType, s.motd, s.forceRespawn, Pointee(s.inactivity), Pointee(s.quadFactor), s.password,
               Pointee(s.weaponRespawn))
  }

  /** What a pointer to one says: a nil pointer is an absent section. */
  ghost function GameValue(g: GameRef?): Option<GameConfig>
    reads g
  {
    if g == null then None else Some(GameMeaning(g.v))
  }

  twostate predicate NewGameCells(new s: GameStruct) {
    New(s.inactivity) && New(s.quadFactor) && New(s.weaponRespawn)
  }

  twostate predicate NewGame(new g: GameRef?)
    reads g
  {
    g == null || (fresh(g) && NewGameCells(g.v))
  }

  method DeepGameCopyInto(src: GameRef, out: GameRef)
    requires src != out
    modifies out
    ensures GameMeaning(out.v) == GameMeaning(src.v) && NewGameCells(out.v)
  {
    out.v := src.v;
    var inactivity := CopyCell(src.v.inactivity);
    out.v := out.v.(inactivity := inactivity);
    var quadFactor := CopyCell(src.v.quadFactor);
    out.v := out.v.(quadFactor := quadFactor);
    var weaponRespawn := CopyCell(src.v.weaponRespawn);
    out.v := out.v.(weaponRespawn := weaponRespawn);
  }

  method DeepGameCopy(src: GameRef?) returns (out: GameRef?)
    ensures GameValue(out) == old(GameValue(src)) && NewGame(out)
  {
    if src == null {
      return null;
    }
    out := new GameRef(NIL_GAME);
    DeepGameCopyInto(src, out);
  }

  // ---- ServerSettings ----

  datatype SettingsStruct = SettingsStruct(hostname: string, maxClients: IntCell?, rconPassword: string)

  class SettingsRef {
    var v: SettingsStruct

    constructor (v: SettingsStruct)
      ensures this.v == v
    {
      this.v := v;
    }
  }

  const NIL_SETTINGS := SettingsStruct("", null, "")

  function SettingsMeaning(s: SettingsStruct): ServerSettings {
    ServerSettings(s.hostname, Pointee(s.maxClients), s.rconPassword)
  }

  /** What a pointer to one says: a nil pointer is an absent section. */
  ghost function SettingsValue(s: SettingsRef?): Option<ServerSettings>
    reads s
  {
    if s == null then None else Some(SettingsMeaning(s.v))
  }

  twostate predicate NewSettingsCells(new s: SettingsStruct) {
    New(s.maxClients)
  }

  twostate predicate NewSettings(new s: SettingsRef?)
    reads s
  {
    s == null || (fresh(s) && NewSettingsCells(s.v))
  }

  method DeepSettingsCopyInto(src: SettingsRef, out: SettingsRef)
    requires src != out
    modifies out
    ensures SettingsMeaning(out.v) == SettingsMeaning(src.v) && NewSettingsCells(out.v)
  {
    out.v := src.v;
    var maxClients := CopyCell(src.v.maxClients);
    out.v := out.v.(maxClients := maxClients);
  }

  method DeepSettingsCopy(src: SettingsRef?) returns (out: SettingsRef?)
    ensures SettingsValue(out) == old(SettingsValue(src)) && NewSettings(out)
  {
    if src == null {
      return null;
    }
    out := new SettingsRef(NIL_SETTINGS);
    DeepSettingsCopyInto(src, out);
  }

  // ---- []MapSpec ----

  /** A MapSpec lies in the slice itself; only its limits are pointers. */
  datatype MapSlot = MapSlot(name: string, gameType: string, captureLimit: IntCell?, fragLimit: IntCell?,
                             timeLimit: IntCell?)

  twostate predicate NewSlot(new s: MapSlot) {
    New(s.captureLimit) && New(s.fragLimit) && New(s.timeLimit)
  }

  function SlotValue(s: MapSlot): MapSpec {
    MapSpec(s.name, s.gameType, Pointee(s.captureLimit), Pointee(s.fragLimit), Pointee(s.timeLimit))
  }

  /** A nil slice says the same as an empty one. */
  ghost function MapsValue(maps: array?<MapSlot>): seq<MapSpec>
    reads maps
  {
    if maps == null then [] else seq(maps.Length, i requires 0 <= i < maps.Length reads maps => SlotValue(maps[i]))
  }

  twostate predicate NewMaps(new maps: array?<MapSlot>)
    reads maps
  {
    maps == null || (fresh(maps) && forall i :: 0 <= i < maps.Length ==> NewSlot(maps[i]))
  }

  method CopySlot(s: MapSlot) returns (t: MapSlot)
    ensures SlotValue(t) == SlotValue(s)
    ensures t.captureLimit == null || fresh(t.captureLimit)
    ensures t.fragLimit == null || fresh(t.fragLimit)
    ensures t.timeLimit == null || fresh(t.timeLimit)
  {
    var captureLimit := CopyCell(s.captureLimit);
    var fragLimit := CopyCell(s.fragLimit);
    var timeLimit := CopyCell(s.timeLimit);
    t := MapSlot(s.name, s.gameType, captureLimit, fragLimit, timeLimit);
  }

  /** One map of the slice: its limits move to new cells, the rest is copied. */
  method CopySlotInto(maps: array<MapSlot>, out: array<MapSlot>, i: nat)
    requires maps != out && i < maps.Length == out.Length
    modifies out
    ensures SlotValue(out[i]) == SlotValue(maps[i]) && NewSlot(out[i])
    ensures forall j :: 0 <= j < out.Length && j != i ==> out[j] == old(out[j])
  {
    var slot := CopySlot(maps[i]);
    out[i] := slot;
  }

  method CopySlots(maps: array<MapSlot>, out: array<MapSlot>)
    requires maps != out && maps.Length == out.Length
    modifies out
    ensures forall j :: 0 <= j < out.Length ==> SlotValue(out[j]) == SlotValue(maps[j])
    ensures forall j :: 0 <= j < out.Length ==> NewSlot(out[j])
  {
    for i := 0 to maps.Length
      invariant forall j :: 0 <= j < i ==> SlotValue(out[j]) == SlotValue(maps[j])
      invariant forall j :: 0 <= j < i ==> NewSlot(out[j])
    {
      CopySlotInto(maps, out, i);
    }
  }

  method CopyMaps(maps: array?<MapSlot>) returns (out: array?<MapSlot>)
    ensures MapsValue(out) == old(MapsValue(maps)) && NewMaps(out)
  {
    if maps == null {
      return null;
    }
    out := new MapSlot[maps.Length](_ => MapSlot("", "", null, null, null));
    CopySlots(maps, out);
  }

  // ---- []string ----

  ghost function CommandsValue(commands: array?<string>): seq<string>
    reads commands
  {
    if commands == null then [] else commands[..]
  }

  twostate predicate NewCommands(new commands: array?<string>) {
    commands == null || fresh(commands)
  }

  /** The strings of the slice, in an array of their own. */
  method CopyCommands(commands: array?<string>) returns (out: array?<string>)
    ensures CommandsValue(out) == old(CommandsValue(commands)) && NewCommands(out)
  {
    if commands == null {
      return null;
    }
    out := new string[commands.Length](_ => "");
    for i := 0 to commands.Length
      invariant fresh(out) && out.Length == commands.Length
      invariant out[..i] == commands[..i]
    {
      out[i] := commands[i];
    }
    assert commands[..commands.Length] == commands[..] && out[..commands.Length] == out[..];
  }

  // ---- ServerConfigSpec ----

  datatype ConfigStruct = ConfigStruct(fragLimit: IntCell?, timeLimit: IntCell?, game: GameRef?,
                                       server: SettingsRef?, bot: BotRef?, maps: array?<MapSlot>,
                                       commands: array?<string>)

  class ConfigRef {
    var v: ConfigStruct

    constructor (v: ConfigStruct)
      ensures this.v == v
    {
      this.v := v;
    }
  }

  const NIL_CONFIG := ConfigStruct(null, null, null, null, null, null, null)

  ghost function Meaning(c: ConfigStruct): ServerConfig
    reads c.game, c.server, c.bot, c.maps, c.commands
  {
    ServerConfig(Pointee(c.fragLimit), Pointee(c.timeLimit), GameValue(c.game), SettingsValue(c.server),
                 BotValue(c.bot), MapsValue(c.maps), CommandsValue(c.commands))
  }

  ghost function Value(p: ConfigRef?): Option<ServerConfig>
    reads p, if p == null then {} else {p.v.game, p.v.server, p.v.bot, p.v.maps, p.v.commands}
  {
    if p == null then None else Some(Meaning(p.v))
  }

  // The struct pointed to, or one with nothing set.

  ghost function GameOr(g: GameRef?): GameStruct
    reads g
  {
    if g == null then NIL_GAME else g.v
  }

  ghost function SettingsOr(s: SettingsRef?): SettingsStruct
    reads s
  {
    if s == null then NIL_SETTINGS else s.v
  }

  ghost function BotOr(b: BotRef?): BotStruct
    reads b
  {
    if b == null then NIL_BOT else b.v
  }

  twostate predicate NewStructs(new c: ConfigStruct) {
    (c.game == null || fresh(c.game)) && (c.server == null || fresh(c.server)) && (c.bot == null || fresh(c.bot))
  }

  /** Every object that the fields of `c` lead to is new. */
  twostate predicate HoldsNew(new c: ConfigStruct)
    reads c.game, c.server, c.bot, c.maps
  {
    && New(c.fragLimit) && New(c.timeLimit) && NewStructs(c)
    && NewGameCells(GameOr(c.game)) && NewSettingsCells(SettingsOr(c.server)) && NewBotCells(BotOr(c.bot))
    && NewMaps(c.maps) && NewCommands(c.commands)
  }

  method CopySections(c: ConfigStruct)
    returns (game: GameRef?, server: SettingsRef?, bot: BotRef?)
    ensures GameValue(game) == old(GameValue(c.game)) && NewGame(game)
    ensures SettingsValue(server) == old(SettingsValue(c.server)) && NewSettings(server)
    ensures BotValue(bot) == old(BotValue(c.bot)) && NewBot(bot)
  {
    game := DeepGameCopy(c.game);
    server := DeepSettingsCopy(c.server);
    bot := DeepBotCopy(c.bot);
  }

  method CopyLists(c: ConfigStruct)
    returns (fragLimit: IntCell?, timeLimit: IntCell?, maps: array?<MapSlot>, commands: array?<string>)
    ensures Pointee(fragLimit) == Pointee(c.fragLimit) && New(fragLimit)
    ensures Pointee(timeLimit) == Pointee(c.timeLimit) && New(timeLimit)
    ensures MapsValue(maps) == old(MapsValue(c.maps)) && NewMaps(maps)
    ensures CommandsValue(commands) == old(CommandsValue(c.commands)) && NewCommands(commands)
  {
    fragLimit := CopyCell(c.fragLimit);
    timeLimit := CopyCell(c.timeLimit);
    commands := CopyCommands(c.commands);
    maps := CopyMaps(c.maps);
  }

  method CopyFields(c: ConfigStruct) returns (d: ConfigStruct)
    ensures Meaning(d) == old(Meaning(c)) && HoldsNew(d)
  {
    var fragLimit, timeLimit, maps, commands := CopyLists(c);
    var game, server, bot := CopySections(c);
    d := ConfigStruct(fragLimit, timeLimit, game, server, bot, maps, commands);
  }

  method DeepCopyInto(src: ConfigRef, out: ConfigRef)
    requires src != out
    modifies out
    ensures Meaning(out.v) == Meaning(src.v) && HoldsNew(out.v)
  {
    var fields := CopyFields(src.v);
    out.v := fields;
  }

  method DeepCopy(src: ConfigRef?) returns (out: ConfigRef?)
    ensures Value(out) == old(Value(src))
    ensures out != null ==> fresh(out) && HoldsNew(out.v)
  {
    if src == null {
      return null;
    }
    out := new ConfigRef(NIL_CONFIG);
    assert Meaning(src.v) == old(Meaning(src.v));
    DeepCopyInto(src, out);
  }
}
