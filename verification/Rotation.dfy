/**
 The map rotation of internal/quake/server/maps.go, a small compiler: every map becomes a
 console variable `d<i>` holding a program that sets the game type and limits, loads the map
 and points `nextmap` at the following map. It is proved against direct cyclic play.
 */
module Rotation {
  import opened Wrappers
  import opened Text
  import opened Console

  const CAPTURE_THE_FLAG := 4
  const MINUTE := 60_000_000_000

  /** `timeLimit` is in nanoseconds, as a Go duration is. */
  datatype Map = Map(name: string, gameType: int, captureLimit: int, fragLimit: int, timeLimit: int)

  /** Whole minutes; the conversion to `int` truncates toward zero. */
  function Minutes(d: int): int {
    if d >= 0 then d / MINUTE else -(-d / MINUTE)
  }

  /** Duration d has n whole minutes, what is left being cut off toward zero. */
  predicate WholeMinutes(d: int, n: int) {
    if d >= 0 then n * 60_000_000_000 <= d < (n + 1) * 60_000_000_000
    else (n - 1) * 60_000_000_000 < d <= n * 60_000_000_000
  }

  lemma MinutesAreWhole(d: int, n: int)
    ensures n == Minutes(d) <==> WholeMinutes(d, n)
  {
  }

  // ---- What the compiler writes ----

  function CaptureSet(m: Map): Option<string> {
    if m.gameType == CAPTURE_THE_FLAG && m.captureLimit != 0 then Some(Itoa(m.captureLimit)) else None
  }

  function FragSet(m: Map): Option<string> {
    if m.fragLimit != 0 then Some(Itoa(m.fragLimit)) else None
  }

  function TimeSet(m: Map): Option<string> {
    if m.timeLimit != 0 then Some(Itoa(Minutes(m.timeLimit))) else None
  }

  function Assignment(name: string, value: Option<string>): seq<seq<string>> {
    match value
    case Some(v) => [[name, v]]
    case None => []
  }

  function CommandWords(m: Map): seq<seq<string>> {
    [["g_gametype", Itoa(m.gameType)]] + LimitWords(m) + [["map", m.name]]
  }

  function LimitWords(m: Map): seq<seq<string>> {
    Assignment("capturelimit", CaptureSet(m)) + Assignment("fraglimit", FragSet(m))
    + Assignment("timelimit", TimeSet(m))
  }

  function Slot(i: nat): string { "d" + Itoa(i) }

  function Body(m: Map, next: nat): string {
    "seta " + ProgramText(CommandWords(m)) + " ; set nextmap vstr " + Slot(next)
  }

  /** The following position of a rotation of length `n`. */
  function Next(i: nat, n: nat): nat {
    if i + 1 == n then 0 else i + 1
  }

  lemma NextIsMod(i: nat, n: nat)
    requires i < n
    ensures Next(i, n) == (i + 1) % n
  {
  }

  function Bodies(maps: seq<Map>): seq<string> {
    seq(|maps|, i requires 0 <= i < |maps| => Body(maps[i], Next(i, |maps|)))
  }

  function Line(bodies: seq<string>, i: nat): string
    requires i < |bodies|
  {
    AssignLine("set", Slot(i), bodies[i]) + "\n"
  }

  function Lines(bodies: seq<string>): seq<string> {
    seq(|bodies|, i requires 0 <= i < |bodies| => Line(bodies, i))
  }

  function RotationText(maps: seq<Map>): string {
    Concat(Lines(Bodies(maps))) + if |maps| > 0 then "vstr d0\n" else ""
  }

  lemma SentencesConcat(a: seq<seq<string>>, b: seq<seq<string>>)
    ensures Sentences(a + b) == Sentences(a) + Sentences(b)
  {
    if |a| == 0 {
      assert a + b == b;
    } else {
      assert (a + b)[1..] == a[1..] + b;
      SentencesConcat(a[1..], b);
    }
  }

  lemma SentenceOfPair(name: string, value: string)
    ensures Sentences([[name, value]]) == [name + " " + value]
  {
    assert Join([value], " ") == value;
  }

  function Sentence(name: string, value: Option<string>): (s: seq<string>)
    ensures s == Sentences(Assignment(name, value))
  {
    match value
    case Some(v) => SentenceOfPair(name, v); [name + " " + v]
    case None => []
  }

  function CommandSentences(m: Map): seq<string> {
    ["g_gametype" + " " + Itoa(m.gameType)] + Sentence("capturelimit", CaptureSet(m)) +
    Sentence("fraglimit", FragSet(m)) + Sentence("timelimit", TimeSet(m)) + ["map" + " " + m.name]
  }

  lemma SentencesOfCommand(m: Map)
    ensures Sentences(CommandWords(m)) == CommandSentences(m)
  {
    var g, c := [["g_gametype", Itoa(m.gameType)]], Assignment("capturelimit", CaptureSet(m));
    var f, t := Assignment("fraglimit", FragSet(m)), Assignment("timelimit", TimeSet(m));
    assert CommandWords(m) == g + c + f + t + [["map", m.name]];
    SentencesConcat(g + c + f + t, [["map", m.name]]);
    SentencesConcat(g + c + f, t);
    SentencesConcat(g + c, f);
    SentencesConcat(g, c);
    SentenceOfPair("g_gametype", Itoa(m.gameType));
    SentenceOfPair("map", m.name);
  }

  /** `Map.command`: the sentences are appended one by one, then joined. */
  method Command(m: Map) returns (s: string)
    ensures s == ProgramText(CommandWords(m))
  {
    var cmds := ["g_gametype" + " " + Itoa(m.gameType)];
    if m.gameType == CAPTURE_THE_FLAG && m.captureLimit != 0 {
      cmds := cmds + ["capturelimit" + " " + Itoa(m.captureLimit)];
    }
    ghost var upToCapture := ["g_gametype" + " " + Itoa(m.gameType)] + Sentence("capturelimit", CaptureSet(m));
    assert cmds == upToCapture;
    if m.fragLimit != 0 {
      cmds := cmds + ["fraglimit" + " " + Itoa(m.fragLimit)];
    }
    assert cmds == upToCapture + Sentence("fraglimit", FragSet(m));
    if m.timeLimit != 0 {
      cmds := cmds + ["timelimit" + " " + Itoa(Minutes(m.timeLimit))];
    }
    assert cmds == upToCapture + Sentence("fraglimit", FragSet(m)) + Sentence("timelimit", TimeSet(m));
    cmds := cmds + ["map" + " " + m.name];
    SentencesOfCommand(m);
    s := Join(cmds, " ; ");
  }

  lemma LinesGrow(bodies: seq<string>, i: nat)
    requires i < |bodies|
    ensures Concat(Lines(bodies)[..i + 1]) == Concat(Lines(bodies)[..i]) + Line(bodies, i)
  {
    assert Lines(bodies)[..i + 1] == Lines(bodies)[..i] + [Line(bodies, i)];
    ConcatSnoc(Lines(bodies)[..i], Line(bodies, i));
  }

  /** `MarshalMaps`: one line per map, then the jump to the first. */
  method MarshalMaps(maps: seq<Map>) returns (text: string)
    ensures text == RotationText(maps)
  {
    text := "";
    ghost var bodies := Bodies(maps);
    for i := 0 to |maps|
      invariant text == Concat(Lines(bodies)[..i])
    {
      var body := LineBody(maps, i);
      text := text + (AssignLine("set", "d" + Itoa(i), body) + "\n");
      LinesGrow(bodies, i);
    }
    assert Lines(bodies)[..|maps|] == Lines(bodies);
    if |maps| > 0 {
      text := text + "vstr d0\n";
    }
  }

  method LineBody(maps: seq<Map>, i: nat) returns (body: string)
    requires i < |maps|
    ensures body == Bodies(maps)[i]
  {
    var nextmap := "d" + Itoa((i + 1) % |maps|);
    var command := Command(maps[i]);
    body := "seta " + command + " ; set nextmap vstr " + nextmap;
    NextIsMod(i, |maps|);
  }
}
