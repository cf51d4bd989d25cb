/**
 The `getstatus` reply that both programs parse: a header line, a line of backslash-separated
 keys and values, and one line per player. This module says what a reply holds; the two
 parsers are proved against it in OperatorNet and ServerNet.
 */
module StatusPacket {
  import opened Wrappers
  import opened Text

  datatype Player = Player(name: string, ping: int, score: int)
  datatype Status = Status(config: map<string, string>, players: seq<Player>)

  // ---- strconv.Unquote ----

  type Unquoter = string -> Option<string>

  /** ASCII text without quote, backslash or newline. */
  predicate PlainName(s: string) {
    forall c :: c in s ==> c < '\U{80}' && c != '"' && c != '\\' && c != '\n'
  }

  function Quoted(s: string): string { "\"" + s + "\"" }

  /**
   `strconv.Unquote` takes plain text out of double quotes. What it does with anything else
   (escapes, other quotes, characters beyond ASCII) is `other`, about which nothing is assumed.
   */
  function Unquote(s: string, other: Unquoter): Option<string> {
    if |s| >= 2 && s[0] == '"' && s[|s| - 1] == '"' && PlainName(s[1..|s| - 1]) then Some(s[1..|s| - 1])
    else other(s)
  }

  /** Names that a reply carries: on one line, and unquoted as they were quoted. */
  predicate Carried(name: string, other: Unquoter) {
    '\n' !in name && Unquote(Quoted(name), other) == Some(name)
  }

  /** Every plain name is carried. */
  lemma PlainIsCarried(s: string, other: Unquoter)
    requires PlainName(s)
    ensures Carried(s, other)
  {
    assert Quoted(s)[1..|Quoted(s)| - 1] == s;
  }

  // ---- Keys and values ----

  /** The keys and values of a line, a later key winning over an earlier one. */
  function PairMap(parts: seq<string>): map<string, string>
    decreases |parts|
  {
    if |parts| < 2 then map[] else map[parts[0] := parts[1]] + PairMap(parts[2..])
  }

  /** Position i is the last of its key: what follows the key there is its value. */
  lemma {:induction false} LastPairWins(parts: seq<string>, i: nat)
    requires 2 * i + 1 < |parts| && forall j :: i < j && 2 * j + 1 < |parts| ==> parts[2 * j] != parts[2 * i]
    ensures parts[2 * i] in PairMap(parts) && PairMap(parts)[parts[2 * i]] == parts[2 * i + 1]
    decreases |parts|
  {
    var rest := parts[2..];
    if i > 0 {
      forall j | i - 1 < j && 2 * j + 1 < |rest| ensures rest[2 * j] != rest[2 * (i - 1)] {
        assert parts[2 * (j + 1)] != parts[2 * i];
      }
      LastPairWins(rest, i - 1);
    } else {
      forall j | 0 <= j && 2 * j + 1 < |rest| ensures rest[2 * j] != parts[0] {
        assert parts[2 * (j + 1)] != parts[2 * i];
      }
      NoSuchKey(rest, parts[0]);
    }
  }

  lemma {:induction false} NoSuchKey(parts: seq<string>, key: string)
    requires |parts| < 2 || forall j :: 0 <= j && 2 * j + 1 < |parts| ==> parts[2 * j] != key
    ensures key !in PairMap(parts)
    decreases |parts|
  {
    if |parts| >= 2 {
      var rest := parts[2..];
      assert parts[2 * 0] != key;
      forall j | 0 <= j && 2 * j + 1 < |rest| ensures rest[2 * j] != key {
        assert parts[2 * (j + 1)] != key;
      }
      NoSuchKey(rest, key);
    }
  }

  /** One turn of the loops that fill the map two parts at a time. */
  lemma PairStep(m: map<string, string>, parts: seq<string>, i: nat)
    requires i + 1 < |parts|
    ensures m[parts[i] := parts[i + 1]] + PairMap(parts[i + 2..]) == m + PairMap(parts[i..])
  {
    assert parts[i..][2..] == parts[i + 2..];
  }

  /** A header line, a leading backslash and a trailing newline do not belong to the pairs. */
  function PairText(data: string): string {
    var i := IndexOf(data, '\n');
    TrimSuffix(TrimPrefix(if i < |data| then data[i + 1..] else data, '\\'), '\n')
  }

  function ConfigOf(data: string): map<string, string> {
    PairMap(Split(PairText(data), '\\'))
  }

  /** Both programs fill the map with the same loop, two parts at a time. */
  method ParsePairs(data: string) returns (m: map<string, string>)
    ensures m == ConfigOf(data)
  {
    var rest := data;
    var header := IndexOf(rest, '\n');
    if header < |rest| {
      rest := rest[header + 1..];
    }
    rest := TrimPrefix(rest, '\\');
    rest := TrimSuffix(rest, '\n');
    var parts := Split(rest, '\\');
    m := map[];
    var i := 0;
    while i < |parts| - 1
      invariant 0 <= i <= |parts|
      invariant m + PairMap(parts[i..]) == PairMap(parts)
    {
      PairStep(m, parts, i);
      m := m[parts[i] := parts[i + 1]];
      i := i + 2;
    }
    assert m + PairMap(parts[i..]) == m;
  }

  // ---- Players ----

  /** The fields of a player line: score, ping and the quoted name, which may hold spaces. */
  function Fields(line: string): seq<string> { SplitN(line, ' ', 3) }

  predicate IsPlayerLine(line: string) { |Fields(line)| == 3 }

  function Score(line: string): Option<int>
    requires IsPlayerLine(line)
  {
    Atoi(Fields(line)[0])
  }

  function Ping(line: string): Option<int>
    requires IsPlayerLine(line)
  {
    Atoi(Fields(line)[1])
  }

  function Name(line: string, other: Unquoter): Option<string>
    requires IsPlayerLine(line)
  {
    Unquote(Fields(line)[2], other)
  }

  /** Header, configuration line and player lines: whatever follows the second newline stays together. */
  function Parts(resp: string): seq<string> {
    SplitN(TrimSuffix(resp, '\n'), '\n', 3)
  }

  function PlayerLines(resp: string): seq<string> {
    if |Parts(resp)| == 3 then Split(Parts(resp)[2], '\n') else []
  }
}
