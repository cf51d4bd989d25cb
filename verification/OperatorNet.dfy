/** operator/internal/quakenet/client.go: the operator's parser skips what it cannot read. */
module OperatorNet {
  import opened Wrappers
  import opened Text
  import opened StatusPacket

  function TrimQuotesLeft(s: string): string {
    if s != "" && s[0] == '"' then TrimQuotesLeft(s[1..]) else s
  }

  function TrimQuotesRight(s: string): string {
    if s != "" && s[|s| - 1] == '"' then TrimQuotesRight(s[..|s| - 1]) else s
  }

  /** A name that cannot be unquoted is kept without its surrounding quotes. */
  function NameOf(field: string, other: Unquoter): string {
    Unquote(field, other).GetOr(TrimQuotesRight(TrimQuotesLeft(field)))
  }

  /** The player a line describes; lines with a malformed score or ping describe none. */
  function PlayerOf(line: string, other: Unquoter): Option<Player> {
    if !IsPlayerLine(line) || Score(line).None? || Ping(line).None? then None
    else Some(Player(NameOf(Fields(line)[2], other), Ping(line).value, Score(line).value))
  }

  function PlayersOf(lines: seq<string>, other: Unquoter): seq<Player> {
    if |lines| == 0 then []
    else
      match PlayerOf(lines[0], other)
      case Some(p) => [p] + PlayersOf(lines[1..], other)
      case None => PlayersOf(lines[1..], other)
  }

  function StatusOf(resp: string, other: Unquoter): Option<Status> {
    if |Parts(resp)| < 2 then None
    else Some(Status(ConfigOf(Parts(resp)[1]), PlayersOf(PlayerLines(resp), other)))
  }

  lemma PlayersSnoc(lines: seq<string>, line: string, other: Unquoter)
    ensures PlayersOf(lines + [line], other) == PlayersOf(lines, other) +
            match PlayerOf(line, other) { case Some(p) => [p] case None => [] }
  {
    if |lines| == 0 {
      assert lines + [line] == [line];
    } else {
      assert (lines + [line])[1..] == lines[1..] + [line];
      PlayersSnoc(lines[1..], line, other);
    }
  }

  /** The body of the loop over the lines. */
  method ParsePlayer(line: string, other: Unquoter) returns (player: Option<Player>)
    ensures player == PlayerOf(line, other)
  {
    if |line| == 0 {
      return None;
    }
    var parts := SplitN(line, ' ', 3);
    if |parts| != 3 {
      return None;
    }
    var score := Atoi(parts[0]);
    if score.None? {
      return None;
    }
    var ping := Atoi(parts[1]);
    if ping.None? {
      return None;
    }
    var name := Unquote(parts[2], other);
    if name.None? {
      name := Some(TrimQuotesRight(TrimQuotesLeft(parts[2])));
    }
    return Some(Player(name.value, ping.value, score.value));
  }

  method ParsePlayers(data: string, other: Unquoter) returns (players: seq<Player>)
    ensures players == PlayersOf(Split(data, '\n'), other)
  {
    players := [];
    var lines := Split(data, '\n');
    for i := 0 to |lines|
      invariant players == PlayersOf(lines[..i], other)
    {
      var player := ParsePlayer(lines[i], other);
      if player.Some? {
        players := players + [player.value];
      }
      assert lines[..i + 1] == lines[..i] + [lines[i]];
      PlayersSnoc(lines[..i], lines[i], other);
    }
    assert lines[..|lines|] == lines;
  }

  method ParseStatusResponse(resp: string, other: Unquoter) returns (status: Option<Status>)
    ensures status == StatusOf(resp, other)
  {
    var data := TrimSuffix(resp, '\n');
    var parts := SplitN(data, '\n', 3);
    if |parts| == 2 {
      var config := ParsePairs(parts[1]);
      status := Some(Status(config, []));
    } else if |parts| == 3 {
      var config := ParsePairs(parts[1]);
      var players := ParsePlayers(parts[2], other);
      status := Some(Status(config, players));
    } else {
      status := None;
    }
  }
}
