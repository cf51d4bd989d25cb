/**
 server.cfg field by field: which console variable holds which field of the configuration once the
 file has run, said without the printer's own list of settings.
 */
module ServerCfgFields {
  import opened Wrappers
  import opened Text
  import opened Quoting
  import opened Console
  import opened Rotation
  import opened RotationPlay
  import opened RotationLimits
  import opened ServerCfg
  import opened ServerCfgMeaning

  // ---- No two settings have the same name ----

  /** Length, fourth and last character tell all variables apart. */
  function Tag(name: string): (int, char, char) {
    if |name| < 4 then (|name|, ' ', ' ') else (|name|, name[3], name[|name| - 1])
  }

  function Tags(settings: seq<Setting>): seq<(int, char, char)> {
    seq(|settings|, i requires 0 <= i < |settings| => Tag(settings[i].name))
  }

  lemma {:induction false} AbsentTag(settings: seq<Setting>, name: string)
    requires Tag(name) !in Tags(settings)
    ensures LastValue(settings, name).None?
    decreases |settings|
  {
    if |settings| > 0 {
      assert Tags(settings)[0] in Tags(settings) && Tags(settings)[1..] == Tags(settings[1..]);
      AbsentTag(settings[1..], name);
    }
  }

  /** The setting at position i of the middle part is the last of its name. */
  lemma LastOfItsName(before: seq<Setting>, part: seq<Setting>, after: seq<Setting>, i: nat)
    requires i < |part| && Tags(part)[i] !in Tags(part)[i + 1..] && Tags(part)[i] !in Tags(after)
    requires Received(part[i]).Some?
    ensures LastValue(before + part + after, part[i].name) == Received(part[i])
  {
    var name := part[i].name;
    AbsentTag(after, name);
    assert Tags(part)[i + 1..] == Tags(part[i + 1..]);
    AbsentTag(part[i + 1..], name);
    assert part == part[..i] + ([part[i]] + part[i + 1..]);
    assert ([part[i]] + part[i + 1..])[1..] == part[i + 1..];
    LastValueConcat(part[..i], [part[i]] + part[i + 1..], name);
    LastValueConcat(before + part, after, name);
    LastValueConcat(before, part, name);
  }

  lemma SixParts(a: seq<Setting>, b: seq<Setting>, c: seq<Setting>, d: seq<Setting>, e: seq<Setting>, f: seq<Setting>)
    ensures a + b + c + d + e + f == [] + a + (b + (c + (d + (e + f)))) == a + (b + (c + (d + (e + f))))
    ensures a + b + c + d + e + f == a + b + (c + (d + (e + f)))
    ensures a + b + c + d + e + f == (a + b) + c + (d + (e + f))
    ensures a + b + c + d + e + f == (a + b + c) + d + (e + f)
    ensures a + b + c + d + e + f == (a + b + c + d) + e + f
    ensures a + b + c + d + e + f == (a + b + c + d + e) + f + []
  {
  }

  lemma TagsJoin(a: seq<Setting>, b: seq<Setting>)
    ensures Tags(a + b) == Tags(a) + Tags(b)
  {
  }

  // The tags of each part; the address is the one setting that may be absent.

  const RULE_TAGS := [(9, 'g', 't'), (9, 'e', 't'), (14, '_', 's'), (10, '_', 't')]
  const GAME_TAGS := [(14, 'o', 'n'), (10, 'a', 'e'), (12, 'n', 'y')]
  const PLAY_TAGS := [(5, 'o', 'g'), (6, 'o', 'd'), (10, 'a', 'd'), (12, 'u', 'r'), (9, 'p', 'l'), (15, 'e', 'n')]
  const NETWORK_TAGS := [(16, 'a', 'd'), (8, 'd', 'L')]
  const FILE_TAGS := [(11, 'b', 'e'), (11, 'b', 'h'), (12, 'c', 's'), (8, 'd', 'g'), (7, 'g', 'e'), (11, 'h', 'h')]
  const SERVER_TAGS := [(11, 'h', 'e'), (13, 'm', 's'), (12, 'n', 'd')]

  lemma RuleTags(c: Config)
    ensures Tags(RuleSettings(c)) == RULE_TAGS
  {
  }

  lemma GameTags(c: Config)
    ensures Tags(GameSettings(c)) == GAME_TAGS
  {
  }

  lemma PlayTags(c: Config)
    ensures Tags(PlaySettings(c)) == PLAY_TAGS
  {
  }

  lemma NetworkTags(c: Config)
    ensures Tags(NetworkSettings(c)) == if c.network.downloadURL != "" then NETWORK_TAGS else NETWORK_TAGS[..1]
  {
  }

  lemma FileTags(c: Config)
    ensures Tags(FileSettings(c)) == FILE_TAGS
  {
  }

  lemma ServerTags(c: Config)
    ensures Tags(ServerSettings(c)) == SERVER_TAGS
  {
  }

  /** No tag occurs twice. */
  lemma TagsApart()
    ensures forall i :: 0 <= i < |RULE_TAGS| ==>
              RULE_TAGS[i] !in RULE_TAGS[i + 1..] && RULE_TAGS[i] !in GAME_TAGS && RULE_TAGS[i] !in PLAY_TAGS
              && RULE_TAGS[i] !in NETWORK_TAGS && RULE_TAGS[i] !in FILE_TAGS && RULE_TAGS[i] !in SERVER_TAGS
    ensures forall i :: 0 <= i < |GAME_TAGS| ==>
              GAME_TAGS[i] !in GAME_TAGS[i + 1..] && GAME_TAGS[i] !in PLAY_TAGS
              && GAME_TAGS[i] !in NETWORK_TAGS && GAME_TAGS[i] !in FILE_TAGS && GAME_TAGS[i] !in SERVER_TAGS
    ensures forall i :: 0 <= i < |PLAY_TAGS| ==>
              PLAY_TAGS[i] !in PLAY_TAGS[i + 1..]
              && PLAY_TAGS[i] !in NETWORK_TAGS && PLAY_TAGS[i] !in FILE_TAGS && PLAY_TAGS[i] !in SERVER_TAGS
    ensures forall i :: 0 <= i < |NETWORK_TAGS| ==>
              NETWORK_TAGS[i] !in NETWORK_TAGS[i + 1..] && NETWORK_TAGS[i] !in FILE_TAGS
              && NETWORK_TAGS[i] !in SERVER_TAGS
    ensures forall i :: 0 <= i < |FILE_TAGS| ==> FILE_TAGS[i] !in FILE_TAGS[i + 1..] && FILE_TAGS[i] !in SERVER_TAGS
    ensures forall i :: 0 <= i < |SERVER_TAGS| ==> SERVER_TAGS[i] !in SERVER_TAGS[i + 1..]
  {
  }

  /** Six parts with the names that the file has. */
  predicate Tagged(r: seq<Setting>, g: seq<Setting>, p: seq<Setting>, n: seq<Setting>, f: seq<Setting>,
                   s: seq<Setting>)
  {
    && Tags(r) == RULE_TAGS && Tags(g) == GAME_TAGS && Tags(p) == PLAY_TAGS
    && (Tags(n) == NETWORK_TAGS || Tags(n) == NETWORK_TAGS[..1]) && Tags(f) == FILE_TAGS && Tags(s) == SERVER_TAGS
  }

  lemma AllTagged(c: Config)
    ensures Tagged(RuleSettings(c), GameSettings(c), PlaySettings(c), NetworkSettings(c), FileSettings(c),
                   ServerSettings(c))
  {
    RuleTags(c);
    GameTags(c);
    PlayTags(c);
    NetworkTags(c);
    FileTags(c);
    ServerTags(c);
  }

  lemma LaterTags(g: seq<Setting>, p: seq<Setting>, n: seq<Setting>, f: seq<Setting>, s: seq<Setting>)
    ensures Tags(f + s) == Tags(f) + Tags(s) && Tags(n + (f + s)) == Tags(n) + Tags(f + s)
    ensures Tags(p + (n + (f + s))) == Tags(p) + Tags(n + (f + s))
    ensures Tags(g + (p + (n + (f + s)))) == Tags(g) + Tags(p + (n + (f + s)))
  {
    TagsJoin(f, s);
    TagsJoin(n, f + s);
    TagsJoin(p, n + (f + s));
    TagsJoin(g, p + (n + (f + s)));
  }

  lemma RuleLast(r: seq<Setting>, g: seq<Setting>, p: seq<Setting>, n: seq<Setting>, f: seq<Setting>,
                 s: seq<Setting>, i: nat)
    requires Tagged(r, g, p, n, f, s) && i < |r| && Received(r[i]).Some?
    ensures LastValue(r + g + p + n + f + s, r[i].name) == Received(r[i])
  {
    SixParts(r, g, p, n, f, s);
    LaterTags(g, p, n, f, s);
    TagsApart();
    assert Tags(r)[i] == Tag(r[i].name);
    LastOfItsName([], r, g + (p + (n + (f + s))), i);
  }

  lemma GameLast(r: seq<Setting>, g: seq<Setting>, p: seq<Setting>, n: seq<Setting>, f: seq<Setting>,
                 s: seq<Setting>, i: nat)
    requires Tagged(r, g, p, n, f, s) && i < |g| && Received(g[i]).Some?
    ensures LastValue(r + g + p + n + f + s, g[i].name) == Received(g[i])
  {
    SixParts(r, g, p, n, f, s);
    LaterTags(g, p, n, f, s);
    TagsApart();
    assert Tags(g)[i] == Tag(g[i].name);
    LastOfItsName(r, g, p + (n + (f + s)), i);
  }

  lemma PlayLast(r: seq<Setting>, g: seq<Setting>, p: seq<Setting>, n: seq<Setting>, f: seq<Setting>,
                 s: seq<Setting>, i: nat)
    requires Tagged(r, g, p, n, f, s) && i < |p| && Received(p[i]).Some?
    ensures LastValue(r + g + p + n + f + s, p[i].name) == Received(p[i])
  {
    SixParts(r, g, p, n, f, s);
    LaterTags(g, p, n, f, s);
    TagsApart();
    assert Tags(p)[i] == Tag(p[i].name);
    LastOfItsName(r + g, p, n + (f + s), i);
  }

  lemma NetworkLast(r: seq<Setting>, g: seq<Setting>, p: seq<Setting>, n: seq<Setting>, f: seq<Setting>,
                    s: seq<Setting>, i: nat)
    requires Tagged(r, g, p, n, f, s) && i < |n| && Received(n[i]).Some?
    ensures LastValue(r + g + p + n + f + s, n[i].name) == Received(n[i])
  {
    SixParts(r, g, p, n, f, s);
    LaterTags(g, p, n, f, s);
    TagsApart();
    assert Tags(n)[i] == Tag(n[i].name);
    LastOfItsName(r + g + p, n, f + s, i);
  }

  lemma FileLast(r: seq<Setting>, g: seq<Setting>, p: seq<Setting>, n: seq<Setting>, f: seq<Setting>,
                 s: seq<Setting>, i: nat)
    requires Tagged(r, g, p, n, f, s) && i < |f| && Received(f[i]).Some?
    ensures LastValue(r + g + p + n + f + s, f[i].name) == Received(f[i])
  {
    SixParts(r, g, p, n, f, s);
    LaterTags(g, p, n, f, s);
    TagsApart();
    assert Tags(f)[i] == Tag(f[i].name);
    LastOfItsName(r + g + p + n, f, s, i);
  }

  lemma ServerLast(r: seq<Setting>, g: seq<Setting>, p: seq<Setting>, n: seq<Setting>, f: seq<Setting>,
                   s: seq<Setting>, i: nat)
    requires Tagged(r, g, p, n, f, s) && i < |s| && Received(s[i]).Some?
    ensures LastValue(r + g + p + n + f + s, s[i].name) == Received(s[i])
  {
    SixParts(r, g, p, n, f, s);
    LaterTags(g, p, n, f, s);
    TagsApart();
    assert Tags(s)[i] == Tag(s[i].name);
    LastOfItsName(r + g + p + n + f, s, [], i);
  }

  /** Every setting of the file is the only one of its name. */
  lemma OnlyOne(c: Config, x: Setting)
    requires x in Settings(c) && Received(x).Some?
    ensures LastValue(Settings(c), x.name) == Received(x)
  {
    var r, g, p := RuleSettings(c), GameSettings(c), PlaySettings(c);
    var n, f, s := NetworkSettings(c), FileSettings(c), ServerSettings(c);
    AllTagged(c);
    OneOfSix(r, g, p, n, f, s, x);
  }

  lemma OneOfSix(r: seq<Setting>, g: seq<Setting>, p: seq<Setting>, n: seq<Setting>, f: seq<Setting>,
                 s: seq<Setting>, x: Setting)
    requires Tagged(r, g, p, n, f, s) && x in r + g + p + n + f + s && Received(x).Some?
    ensures LastValue(r + g + p + n + f + s, x.name) == Received(x)
  {
    if x in r {
      var i :| 0 <= i < |r| && r[i] == x;
      RuleLast(r, g, p, n, f, s, i);
    } else if x in g {
      var i :| 0 <= i < |g| && g[i] == x;
      GameLast(r, g, p, n, f, s, i);
    } else if x in p {
      var i :| 0 <= i < |p| && p[i] == x;
      PlayLast(r, g, p, n, f, s, i);
    } else if x in n {
      var i :| 0 <= i < |n| && n[i] == x;
      NetworkLast(r, g, p, n, f, s, i);
    } else if x in f {
      var i :| 0 <= i < |f| && f[i] == x;
      FileLast(r, g, p, n, f, s, i);
    } else {
      var i :| 0 <= i < |s| && s[i] == x;
      ServerLast(r, g, p, n, f, s, i);
    }
  }

  // ---- What the console holds ----

  /** Variables that no map of the rotation touches. */
  ghost predicate SparedByMaps(name: string) {
    NotASlot(name) && forall m, next :: SetByMap(m, next, name).None?
  }

  const MAP_TAGS := [(7, 't', 'p'), (10, 'a', 'e'), (12, 't', 't'), (9, 'g', 't'), (9, 'e', 't')]

  lemma TagsOfMaps(m: Map, next: nat, name: string)
    requires Tag(name) !in MAP_TAGS
    ensures SetByMap(m, next, name).None?
  {
    assert Tag("nextmap") == (7, 't', 'p') && Tag("g_gametype") == (10, 'a', 'e');
    assert Tag("capturelimit") == (12, 't', 't') && Tag("fraglimit") == (9, 'g', 't');
    assert Tag("timelimit") == (9, 'e', 't');
  }

  lemma FreeName(name: string)
    requires Tag(name) !in MAP_TAGS && (name == "" || name[0] != 'd')
    ensures SparedByMaps(name)
  {
    forall i: nat ensures name != Slot(i) {
      assert Slot(i)[0] == 'd';
    }
    forall m, next ensures SetByMap(m, next, name).None? {
      TagsOfMaps(m, next, name);
    }
  }

  lemma NotSetByMaps(maps: seq<Map>, k: nat, name: string)
    requires SparedByMaps(name) && |maps| > 0
    ensures LastSet(maps, 1, k + 1, name).None? && SetByFirst(maps, name).None?
  {
    NeverSet(maps, 1, k + 1, name);
  }

  /** What neither maps nor overrides touch is as the settings say, and otherwise as it was. */
  lemma Untouched(c: Config, printable: PrintTable, st: State, k: nat, depth: nat, name: string)
    requires Printable(c, printable) && depth >= 2 && Rotates(c, k)
    requires NotASlot(name) && (|c.maps| > 0 ==> SparedByMaps(name)) && Spares(Overrides(c), name)
    ensures Get(Running(c, printable, st, k, depth).vars, name)
         == LastValue(Settings(c), name).GetOr(Get(st.vars, name))
  {
    CfgMeaning(c, printable, st, k, depth, name);
    if |c.maps| > 0 {
      NotSetByMaps(c.maps, k, name);
    }
    SparedNotAssigned(Overrides(c), name, Known(name, st.vars) || SetBefore(c, name).Some?);
  }

  /** The variable has this value, unless an override assigns it. */
  predicate Keeps(c: Config, vars: Vars, name: string, value: string) {
    Spares(Overrides(c), name) ==> Get(vars, name) == value
  }

  predicate InParts(c: Config, x: Setting) {
    || x in RuleSettings(c) || x in GameSettings(c) || x in PlaySettings(c)
    || x in NetworkSettings(c) || x in FileSettings(c) || x in ServerSettings(c)
  }

  /** All settings but the type of game and the limits. */
  predicate IsFree(c: Config, x: Setting) {
    || x in RuleSettings(c)[2..] || x == GameSettings(c)[0] || x == GameSettings(c)[2]
    || x in PlaySettings(c) || x in NetworkSettings(c) || x in FileSettings(c) || x in ServerSettings(c)
  }

  lemma MapTagsApart()
    ensures forall t :: t in MAP_TAGS ==>
              && t !in RULE_TAGS[2..] && t != GAME_TAGS[0] && t != GAME_TAGS[2]
              && t !in PLAY_TAGS && t !in NETWORK_TAGS && t !in FILE_TAGS && t !in SERVER_TAGS
  {
  }

  lemma InTags(part: seq<Setting>, x: Setting)
    requires x in part
    ensures Tag(x.name) in Tags(part)
  {
    var i :| 0 <= i < |part| && part[i] == x;
    assert Tags(part)[i] == Tag(x.name);
  }

  lemma FreeTag(c: Config, x: Setting)
    requires IsFree(c, x)
    ensures Tag(x.name) !in MAP_TAGS && InParts(c, x)
  {
    AllTagged(c);
    MapTagsApart();
    if x in RuleSettings(c)[2..] {
      InTags(RuleSettings(c)[2..], x);
      assert Tags(RuleSettings(c)[2..]) == Tags(RuleSettings(c))[2..];
    } else if x in PlaySettings(c) {
      InTags(PlaySettings(c), x);
    } else if x in NetworkSettings(c) {
      InTags(NetworkSettings(c), x);
    } else if x in FileSettings(c) {
      InTags(FileSettings(c), x);
    } else if x in ServerSettings(c) {
      InTags(ServerSettings(c), x);
    } else {
      assert Tags(GameSettings(c))[0] == GAME_TAGS[0] && Tags(GameSettings(c))[2] == GAME_TAGS[2];
    }
  }

  lemma SettingKept(c: Config, printable: PrintTable, st: State, k: nat, depth: nat, x: Setting)
    requires Printable(c, printable) && depth >= 2 && Rotates(c, k)
    requires Received(x).Some? && x.name != "" && x.name[0] != 'd'
    requires IsFree(c, x) || (|c.maps| == 0 && InParts(c, x))
    ensures Keeps(c, Running(c, printable, st, k, depth).vars, x.name, Received(x).value)
  {
    if IsFree(c, x) {
      FreeTag(c, x);
    }
    OnlyOne(c, x);
    NotD(x.name);
    if |c.maps| > 0 {
      FreeName(x.name);
    }
    if Spares(Overrides(c), x.name) {
      Untouched(c, printable, st, k, depth, x.name);
    }
  }

  lemma NotD(name: string)
    requires name != "" && name[0] != 'd'
    ensures NotASlot(name)
  {
    forall i: nat ensures name != Slot(i) {
      assert Slot(i)[0] == 'd';
    }
  }

  /** Duration d has n whole seconds, what is left being cut off toward zero. */
  predicate WholeSeconds(d: int, n: int) {
    if d >= 0 then n * 1_000_000_000 <= d < (n + 1) * 1_000_000_000
    else (n - 1) * 1_000_000_000 < d <= n * 1_000_000_000
  }

  lemma SecondsAreWhole(d: int, n: int)
    ensures n == Seconds(d) <==> WholeSeconds(d, n)
  {
  }

  function Digit(b: bool): string { if b then "1" else "0" }

  /** The bots and the rules of the game. */
  ghost predicate GameFields(c: Config, vars: Vars) {
    && Keeps(c, vars, "bot_minplayers", Itoa(c.bot.minPlayers))
    && Keeps(c, vars, "bot_nochat", Digit(c.bot.noChat))
    && Keeps(c, vars, "g_spSkill", Itoa(c.bot.skill))
    && Keeps(c, vars, "g_forcerespawn", Digit(c.game.forceRespawn))
    && (forall n :: WholeSeconds(c.game.inactivity, n) ==> Keeps(c, vars, "g_inactivity", Itoa(n)))
    && Keeps(c, vars, "g_log", c.game.log)
    && Keeps(c, vars, "g_motd", c.game.motd)
    && Keeps(c, vars, "g_password", c.game.joinPassword)
    && Keeps(c, vars, "g_quadfactor", Itoa(c.game.quadFactor))
    && Keeps(c, vars, "g_weaponrespawn", Itoa(c.game.weaponRespawn))
  }

  /** The server and its files; the address only if it is set and has no two slashes in a row. */
  ghost predicate ServerFields(c: Config, vars: Vars) {
    && Keeps(c, vars, "sv_hostname", c.server.hostname)
    && Keeps(c, vars, "sv_maxclients", Itoa(c.server.maxClients))
    && Keeps(c, vars, "rconpassword", c.server.rconPassword)
    && Keeps(c, vars, "sv_allowDownload", Digit(c.network.allowDownload))
    && (c.network.downloadURL != "" && (forall i: nat :: !SlashesAt(c.network.downloadURL, i)) ==>
          Keeps(c, vars, "sv_dlURL", c.network.downloadURL))
    && Keeps(c, vars, "fs_basegame", c.fs.baseGame)
    && Keeps(c, vars, "fs_basepath", c.fs.basePath)
    && Keeps(c, vars, "fs_copyfiles", Digit(c.fs.copyFiles))
    && Keeps(c, vars, "fs_debug", Digit(c.fs.debug))
    && Keeps(c, vars, "fs_game", c.fs.game)
    && Keeps(c, vars, "fs_homepath", c.fs.homePath)
  }

  /** Without maps also the type of game and the limits. */
  ghost predicate RuleFields(c: Config, vars: Vars) {
    && Keeps(c, vars, "g_gametype", Itoa(c.game.gameType))
    && Keeps(c, vars, "fraglimit", Itoa(c.fragLimit))
    && (forall n :: WholeMinutes(c.timeLimit, n) ==> Keeps(c, vars, "timelimit", Itoa(n)))
  }

  lemma BotKept(c: Config, printable: PrintTable, st: State, k: nat, depth: nat)
    requires Printable(c, printable) && depth >= 2 && Rotates(c, k)
    ensures var vars := Running(c, printable, st, k, depth).vars;
            && Keeps(c, vars, "bot_minplayers", Itoa(c.bot.minPlayers))
            && Keeps(c, vars, "bot_nochat", Digit(c.bot.noChat))
            && Keeps(c, vars, "g_spSkill", Itoa(c.bot.skill))
  {
    SettingKept(c, printable, st, k, depth, Seta("bot_minplayers", Itoa(c.bot.minPlayers)));
    SettingKept(c, printable, st, k, depth, Seta("bot_nochat", Digit(c.bot.noChat)));
    SettingKept(c, printable, st, k, depth, Seta("g_spSkill", Itoa(c.bot.skill)));
  }

  lemma TextsKept(c: Config, printable: PrintTable, st: State, k: nat, depth: nat)
    requires Printable(c, printable) && depth >= 2 && Rotates(c, k)
    ensures var vars := Running(c, printable, st, k, depth).vars;
            && Keeps(c, vars, "g_log", c.game.log)
            && Keeps(c, vars, "g_motd", c.game.motd)
            && Keeps(c, vars, "g_password", c.game.joinPassword)
  {
    SettingKept(c, printable, st, k, depth, Seta("g_log", c.game.log));
    SettingKept(c, printable, st, k, depth, Seta("g_motd", c.game.motd));
    SettingKept(c, printable, st, k, depth, Seta("g_password", c.game.joinPassword));
  }

  lemma RespawnKept(c: Config, printable: PrintTable, st: State, k: nat, depth: nat)
    requires Printable(c, printable) && depth >= 2 && Rotates(c, k)
    ensures var vars := Running(c, printable, st, k, depth).vars;
            && Keeps(c, vars, "g_forcerespawn", Digit(c.game.forceRespawn))
            && Keeps(c, vars, "g_quadfactor", Itoa(c.game.quadFactor))
            && Keeps(c, vars, "g_weaponrespawn", Itoa(c.game.weaponRespawn))
  {
    SettingKept(c, printable, st, k, depth, Seta("g_forcerespawn", Digit(c.game.forceRespawn)));
    SettingKept(c, printable, st, k, depth, Seta("g_quadfactor", Itoa(c.game.quadFactor)));
    SettingKept(c, printable, st, k, depth, Seta("g_weaponrespawn", Itoa(c.game.weaponRespawn)));
  }

  lemma InactivityKept(c: Config, printable: PrintTable, st: State, k: nat, depth: nat)
    requires Printable(c, printable) && depth >= 2 && Rotates(c, k)
    ensures var vars := Running(c, printable, st, k, depth).vars;
            forall n :: WholeSeconds(c.game.inactivity, n) ==> Keeps(c, vars, "g_inactivity", Itoa(n))
  {
    forall n | WholeSeconds(c.game.inactivity, n) ensures n == Seconds(c.game.inactivity) {
      SecondsAreWhole(c.game.inactivity, n);
    }
    SettingKept(c, printable, st, k, depth, Seta("g_inactivity", Itoa(Seconds(c.game.inactivity))));
  }

  lemma ServerKept(c: Config, printable: PrintTable, st: State, k: nat, depth: nat)
    requires Printable(c, printable) && depth >= 2 && Rotates(c, k)
    ensures var vars := Running(c, printable, st, k, depth).vars;
            && Keeps(c, vars, "sv_hostname", c.server.hostname)
            && Keeps(c, vars, "sv_maxclients", Itoa(c.server.maxClients))
            && Keeps(c, vars, "rconpassword", c.server.rconPassword)
  {
    SettingKept(c, printable, st, k, depth, Seta("sv_hostname", c.server.hostname));
    SettingKept(c, printable, st, k, depth, Seta("sv_maxclients", Itoa(c.server.maxClients)));
    SettingKept(c, printable, st, k, depth, Seta("rconpassword", c.server.rconPassword));
  }

  lemma PathsKept(c: Config, printable: PrintTable, st: State, k: nat, depth: nat)
    requires Printable(c, printable) && depth >= 2 && Rotates(c, k)
    ensures var vars := Running(c, printable, st, k, depth).vars;
            && Keeps(c, vars, "fs_basegame", c.fs.baseGame)
            && Keeps(c, vars, "fs_basepath", c.fs.basePath)
            && Keeps(c, vars, "fs_homepath", c.fs.homePath)
  {
    SettingKept(c, printable, st, k, depth, Seta("fs_basegame", c.fs.baseGame));
    SettingKept(c, printable, st, k, depth, Seta("fs_basepath", c.fs.basePath));
    SettingKept(c, printable, st, k, depth, Seta("fs_homepath", c.fs.homePath));
  }

  lemma FilesKept(c: Config, printable: PrintTable, st: State, k: nat, depth: nat)
    requires Printable(c, printable) && depth >= 2 && Rotates(c, k)
    ensures var vars := Running(c, printable, st, k, depth).vars;
            && Keeps(c, vars, "fs_copyfiles", Digit(c.fs.copyFiles))
            && Keeps(c, vars, "fs_debug", Digit(c.fs.debug))
            && Keeps(c, vars, "fs_game", c.fs.game)
  {
    SettingKept(c, printable, st, k, depth, Seta("fs_copyfiles", Digit(c.fs.copyFiles)));
    SettingKept(c, printable, st, k, depth, Seta("fs_debug", Digit(c.fs.debug)));
    SettingKept(c, printable, st, k, depth, Seta("fs_game", c.fs.game));
  }

  lemma NetworkKept(c: Config, printable: PrintTable, st: State, k: nat, depth: nat)
    requires Printable(c, printable) && depth >= 2 && Rotates(c, k)
    ensures var vars := Running(c, printable, st, k, depth).vars;
            && Keeps(c, vars, "sv_allowDownload", Digit(c.network.allowDownload))
            && (c.network.downloadURL != "" && (forall i: nat :: !SlashesAt(c.network.downloadURL, i)) ==>
                  Keeps(c, vars, "sv_dlURL", c.network.downloadURL))
  {
    SettingKept(c, printable, st, k, depth, Seta("sv_allowDownload", Digit(c.network.allowDownload)));
    if c.network.downloadURL != "" && forall i: nat :: !SlashesAt(c.network.downloadURL, i) {
      AddressArrives("sv_dlURL", c.network.downloadURL);
      SettingKept(c, printable, st, k, depth, Sets("sv_dlURL", c.network.downloadURL));
    }
  }

  lemma RulesKept(c: Config, printable: PrintTable, st: State, k: nat, depth: nat)
    requires Printable(c, printable) && depth >= 2 && Rotates(c, k)
    requires |c.maps| == 0
    ensures RuleFields(c, Running(c, printable, st, k, depth).vars)
  {
    forall n | WholeMinutes(c.timeLimit, n) ensures n == Minutes(c.timeLimit) {
      MinutesAreWhole(c.timeLimit, n);
    }
    SettingKept(c, printable, st, k, depth, Seta("g_gametype", Itoa(c.game.gameType)));
    SettingKept(c, printable, st, k, depth, Seta("fraglimit", Itoa(c.fragLimit)));
    SettingKept(c, printable, st, k, depth, Seta("timelimit", Itoa(Minutes(c.timeLimit))));
  }

  /**
   The whole file, field by field: once it has run and k maps have ended, every variable that the
   overrides spare holds its own field of the configuration. Type of game and limits do so without
   maps; with maps they are what the maps say.
   */
  lemma CfgFields(c: Config, printable: PrintTable, st: State, k: nat, depth: nat)
    requires Printable(c, printable) && depth >= 2 && Rotates(c, k)
    ensures GameFields(c, Running(c, printable, st, k, depth).vars)
    ensures ServerFields(c, Running(c, printable, st, k, depth).vars)
    ensures |c.maps| == 0 ==> RuleFields(c, Running(c, printable, st, k, depth).vars)
  {
    BotKept(c, printable, st, k, depth);
    TextsKept(c, printable, st, k, depth);
    RespawnKept(c, printable, st, k, depth);
    InactivityKept(c, printable, st, k, depth);
    ServerKept(c, printable, st, k, depth);
    PathsKept(c, printable, st, k, depth);
    FilesKept(c, printable, st, k, depth);
    NetworkKept(c, printable, st, k, depth);
    if |c.maps| == 0 {
      RulesKept(c, printable, st, k, depth);
    }
  }

  // ---- The limits ----

  lemma NoCaptureLimit(c: Config)
    ensures LastValue(Settings(c), "capturelimit").None?
  {
    var r, g, p := RuleSettings(c), GameSettings(c), PlaySettings(c);
    var n, f, s := NetworkSettings(c), FileSettings(c), ServerSettings(c);
    AllTagged(c);
    NotAmongSix(r, g, p, n, f, s, "capturelimit");
  }

  lemma CaptureTag()
    ensures Tag("capturelimit") == (12, 't', 't') && (12, 't', 't') !in RULE_TAGS && (12, 't', 't') !in GAME_TAGS
    ensures (12, 't', 't') !in PLAY_TAGS && (12, 't', 't') !in NETWORK_TAGS && (12, 't', 't') !in FILE_TAGS
    ensures (12, 't', 't') !in SERVER_TAGS
  {
  }

  lemma NotAmongSix(r: seq<Setting>, g: seq<Setting>, p: seq<Setting>, n: seq<Setting>, f: seq<Setting>,
                    s: seq<Setting>, name: string)
    requires Tagged(r, g, p, n, f, s) && name == "capturelimit"
    ensures LastValue(r + g + p + n + f + s, name).None?
  {
    CaptureTag();
    SixParts(r, g, p, n, f, s);
    LaterTags(g, p, n, f, s);
    TagsJoin(r, g + (p + (n + (f + s))));
    AbsentTag(r + g + p + n + f + s, name);
  }

  lemma GlobalLimits(c: Config)
    ensures LastValue(Settings(c), "fraglimit") == Some(Itoa(c.fragLimit))
    ensures LastValue(Settings(c), "timelimit") == Some(Itoa(Minutes(c.timeLimit)))
  {
    OnlyOne(c, Seta("fraglimit", Itoa(c.fragLimit)));
    OnlyOne(c, Seta("timelimit", Itoa(Minutes(c.timeLimit))));
  }

  lemma SparedAfterMaps(c: Config, k: nat, name: string, vars: Vars)
    requires |c.maps| > 0 && Spares(Overrides(c), name)
    ensures AfterMaps(c, k, name, vars)
         == LastSet(c.maps, 0, k + 1, name).GetOr(LastValue(Settings(c), name).GetOr(Get(vars, name)))
  {
    SparedNotAssigned(Overrides(c), name, Known(name, vars) || SetBefore(c, name).Some?);
    LastSetFromFirst(c.maps, k, name);
  }

  lemma LimitMeaning(c: Config, printable: PrintTable, st: State, k: nat, depth: nat, name: string)
    requires Printable(c, printable) && depth >= 2 && Rotates(c, k) && |c.maps| > 0
    requires NotASlot(name) && Spares(Overrides(c), name)
    ensures Get(Running(c, printable, st, k, depth).vars, name)
         == LastSet(c.maps, 0, k + 1, name).GetOr(LastValue(Settings(c), name).GetOr(Get(st.vars, name)))
  {
    CfgMeaning(c, printable, st, k, depth, name);
    SparedAfterMaps(c, k, name, st.vars);
  }

  /** The overrides assign none of the limits. */
  predicate SparesLimits(c: Config) {
    Spares(Overrides(c), "capturelimit") && Spares(Overrides(c), "fraglimit") && Spares(Overrides(c), "timelimit")
  }

  lemma LimitValues(c: Config, printable: PrintTable, st: State, k: nat, depth: nat)
    requires Printable(c, printable) && depth >= 2 && Rotates(c, k) && |c.maps| > 0 && SparesLimits(c)
    ensures Limits(Running(c, printable, st, k, depth).vars)
         == LastLimits(c.maps, k, (Get(st.vars, "capturelimit"), Itoa(c.fragLimit), Itoa(Minutes(c.timeLimit))))
  {
    LimitNamesApart();
    NoCaptureLimit(c);
    GlobalLimits(c);
    LimitMeaning(c, printable, st, k, depth, "capturelimit");
    LimitMeaning(c, printable, st, k, depth, "fraglimit");
    LimitMeaning(c, printable, st, k, depth, "timelimit");
  }

  /**
   When the overrides leave the limits alone, each limit in force after k map ends is that of the
   last map at positions 0..k that sets one, and otherwise the global one of the file, the time in
   whole minutes; there is no global capture limit.
   */
  lemma CfgLimits(c: Config, printable: PrintTable, st: State, k: nat, depth: nat, minutes: int)
    requires Printable(c, printable) && depth >= 2 && Rotates(c, k) && |c.maps| > 0 && SparesLimits(c)
    requires WholeMinutes(c.timeLimit, minutes)
    ensures LimitsStick(c.maps, k, (Get(st.vars, "capturelimit"), Itoa(c.fragLimit), Itoa(minutes)),
                        Running(c, printable, st, k, depth).vars)
  {
    MinutesAreWhole(c.timeLimit, minutes);
    LimitValues(c, printable, st, k, depth);
    LastLimitsStick(c.maps, k, (Get(st.vars, "capturelimit"), Itoa(c.fragLimit), Itoa(minutes)),
                    Running(c, printable, st, k, depth).vars);
  }
}
