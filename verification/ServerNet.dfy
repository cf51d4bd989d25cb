/** internal/quake/net/net.go: the server's parser gives up on the first line it cannot read. */
module ServerNet {
  import opened Wrappers
  import opened Text
  import opened StatusPacket

  /** Every field of a player line can be read. */
  predicate Sound(line: string, other: Unquoter) {
    IsPlayerLine(line) ==> Name(line, other).Some? && Ping(line).Some? && Score(line).Some?
  }

  /** The players of the lines, or none at all when a player line cannot be read. */
  function PlayersOf(lines: seq<string>, other: Unquoter): Option<seq<Player>> {
    if |lines| == 0 then Some([])
    else if !Sound(lines[0], other) then None
    else
      var rest := PlayersOf(lines[1..], other);
      if rest.None? || !IsPlayerLine(lines[0]) then rest
      else Some([PlayerIn(lines[0], other)] + rest.value)
  }

  function PlayerIn(line: string, other: Unquoter): Player
    requires IsPlayerLine(line) && Sound(line, other)
  {
    Player(Name(line, other).value, Ping(line).value, Score(line).value)
  }

  /** A failing player list is replaced by an empty one; the configuration is kept. */
  function StatusOf(resp: string, other: Unquoter): Option<Status> {
    if |Parts(resp)| < 2 then None
    else Some(Status(ConfigOf(Parts(resp)[1]), PlayersOf(PlayerLines(resp), other).GetOr([])))
  }

  /** What is left to read, after the players read so far. */
  function Continued(players: seq<Player>, lines: seq<string>, other: Unquoter): Option<seq<Player>> {
    match PlayersOf(lines, other)
    case Some(rest) => Some(players + rest)
    case None => None
  }

  lemma ContinuedStep(players: seq<Player>, lines: seq<string>, other: Unquoter)
    requires |lines| > 0
    ensures !Sound(lines[0], other) ==> Continued(players, lines, other) == None
    ensures Sound(lines[0], other) && IsPlayerLine(lines[0]) ==>
              Continued(players, lines, other) == Continued(players + [PlayerIn(lines[0], other)], lines[1..], other)
    ensures !IsPlayerLine(lines[0]) ==>
              Continued(players, lines, other) == Continued(players, lines[1..], other)
  {
    if Sound(lines[0], other) && IsPlayerLine(lines[0]) {
      var rest := PlayersOf(lines[1..], other);
      var p := PlayerIn(lines[0], other);
      assert rest.Some? ==> players + ([p] + rest.value) == players + [p] + rest.value;
    }
  }

  lemma ContinuedFromNone(lines: seq<string>, other: Unquoter)
    ensures Continued([], lines, other) == PlayersOf(lines, other)
  {
    var all := PlayersOf(lines, other);
    assert all.Some? ==> [] + all.value == all.value;
  }

  /** The body of the loop over the lines: `sound` is false when the list is given up. */
  method ParsePlayer(line: string, other: Unquoter) returns (player: Option<Player>, sound: bool)
    ensures sound == Sound(line, other)
    ensures sound && IsPlayerLine(line) ==> player == Some(PlayerIn(line, other))
    ensures sound && !IsPlayerLine(line) ==> player == None
  {
    var parts := SplitN(line, ' ', 3);
    if |parts| != 3 {
      return None, true;
    }
    var name := Unquote(parts[2], other);
    if name.None? {
      return None, false;
    }
    var ping := Atoi(parts[1]);
    if ping.None? {
      return None, false;
    }
    var score := Atoi(parts[0]);
    if score.None? {
      return None, false;
    }
    return Some(Player(name.value, ping.value, score.value)), true;
  }

  method ParsePlayers(data: string, other: Unquoter) returns (result: Option<seq<Player>>)
    ensures result == PlayersOf(Split(data, '\n'), other)
  {
    var players: seq<Player> := [];
    var lines := Split(data, '\n');
    ghost var all := PlayersOf(lines, other);
    assert lines[0..] == lines;
    ContinuedFromNone(lines, other);
    for i := 0 to |lines|
      invariant Continued(players, lines[i..], other) == all
    {
      var player, sound := ParsePlayer(lines[i], other);
      assert lines[i..][0] == lines[i] && lines[i..][1..] == lines[i + 1..];
      ContinuedStep(players, lines[i..], other);
      if !sound {
        return None;
      }
      if player.Some? {
        players := players + [player.value];
      }
    }
    assert lines[|lines|..] == [] && players + [] == players;
    result := Some(players);
  }

  /** The part of `GetStatus` that follows receiving the reply. */
  method ParseStatus(resp: string, other: Unquoter) returns (status: Option<Status>)
    ensures status == StatusOf(resp, other)
  {
    var data := TrimSuffix(resp, '\n');
    var parts := SplitN(data, '\n', 3);
    if |parts| == 2 {
      var config := ParsePairs(parts[1]);
      status := Some(Status(config, []));
    } else if |parts| == 3 {
      var config := ParsePairs(parts[1]);
      var players := ParsePlayers(parts[2], other);
      status := Some(Status(config, if players.None? then [] else players.value));
    } else {
      status := None;
    }
  }
}
