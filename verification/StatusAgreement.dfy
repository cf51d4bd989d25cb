/** The two parsers against each other, and against a printer of replies. */
module StatusAgreement {
  import opened Wrappers
  import opened Text
  import opened StatusPacket
  import Op = OperatorNet
  import Sv = ServerNet

  // ---- Agreement on every byte string ----

  predicate AllSound(lines: seq<string>, other: Unquoter) {
    forall l :: l in lines ==> Sv.Sound(l, other)
  }

  lemma {:induction false} PlayersAgree(lines: seq<string>, other: Unquoter)
    ensures Sv.PlayersOf(lines, other) == if AllSound(lines, other) then Some(Op.PlayersOf(lines, other)) else None
  {
    if |lines| > 0 {
      PlayersAgree(lines[1..], other);
      assert lines[0] in lines;
      assert forall l :: l in lines <==> l == lines[0] || l in lines[1..];
    }
  }

  /**
   For every reply the parsers accept or reject together and read the same configuration. The
   server's players are the operator's when every player line can be read, and none otherwise.
   */
  lemma ParsersAgree(resp: string, other: Unquoter)
    ensures var op, sv := Op.StatusOf(resp, other), Sv.StatusOf(resp, other);
            && (op.Some? <==> sv.Some?)
            && (op.Some? ==>
                  && sv.value.config == op.value.config
                  && (AllSound(PlayerLines(resp), other) ==> sv.value.players == op.value.players)
                  && (!AllSound(PlayerLines(resp), other) ==> sv.value.players == [])
                  && (sv.value.players == op.value.players
                      <==> AllSound(PlayerLines(resp), other) || op.value.players == []))
  {
    PlayersAgree(PlayerLines(resp), other);
  }

  // ---- Which lines count ----

  lemma {:induction false} PlayersConcat(a: seq<string>, b: seq<string>, other: Unquoter)
    ensures Op.PlayersOf(a + b, other) == Op.PlayersOf(a, other) + Op.PlayersOf(b, other)
    decreases |a|
  {
    if |a| == 0 {
      assert a + b == b;
    } else {
      assert (a + b)[1..] == a[1..] + b;
      PlayersConcat(a[1..], b, other);
    }
  }

  /** A line with three fields of which the first two are numbers. */
  predicate Counts(line: string) {
    var f := SplitN(line, ' ', 3);
    |f| == 3 && Atoi(f[0]).Some? && Atoi(f[1]).Some?
  }

  /** `name` is the field without all the double quotes at its two ends. */
  ghost predicate Bared(field: string, name: string) {
    exists i, j :: 0 <= i <= j <= |field| && name == field[i..j]
                   && (forall k :: 0 <= k < i || j <= k < |field| ==> field[k] == '"')
                   && (name != "" ==> name[0] != '"' && name[|name| - 1] != '"')
  }

  lemma {:induction false} LeftBare(s: string) returns (i: nat)
    ensures i <= |s| && Op.TrimQuotesLeft(s) == s[i..] && (forall k :: 0 <= k < i ==> s[k] == '"')
    ensures i < |s| ==> s[i] != '"'
  {
    i := 0;
    if s != "" && s[0] == '"' {
      i := LeftBare(s[1..]);
      i := i + 1;
    }
  }

  lemma {:induction false} RightBare(s: string) returns (j: nat)
    ensures j <= |s| && Op.TrimQuotesRight(s) == s[..j] && (forall k :: j <= k < |s| ==> s[k] == '"')
    ensures j > 0 ==> s[j - 1] != '"'
  {
    j := |s|;
    if s != "" && s[|s| - 1] == '"' {
      j := RightBare(s[..|s| - 1]);
      assert s[..|s| - 1][..j] == s[..j];
    }
  }

  lemma NameIsBared(field: string)
    ensures Bared(field, Op.TrimQuotesRight(Op.TrimQuotesLeft(field)))
  {
    var i := LeftBare(field);
    var rest := field[i..];
    var j := RightBare(rest);
    assert rest[..j] == field[i..i + j];
    assert forall k :: i + j <= k < |field| ==> field[k] == rest[k - i];
  }

  /** The player has the numbers of the line's fields, and the unquoted name or else the bare one. */
  ghost predicate Describes(line: string, p: Player, other: Unquoter)
    requires Counts(line)
  {
    var f := SplitN(line, ' ', 3);
    && p.score == Atoi(f[0]).value && p.ping == Atoi(f[1]).value
    && if Unquote(f[2], other).Some? then p.name == Unquote(f[2], other).value else Bared(f[2], p.name)
  }

  lemma PlayerDescribed(line: string, other: Unquoter)
    ensures Op.PlayerOf(line, other).Some? <==> Counts(line)
    ensures Counts(line) ==> Describes(line, Op.PlayerOf(line, other).value, other)
  {
    if Counts(line) {
      NameIsBared(SplitN(line, ' ', 3)[2]);
    }
  }

  lemma PlayersAround(before: seq<string>, line: string, after: seq<string>, other: Unquoter)
    ensures Op.PlayersOf(before + [line] + after, other)
         == Op.PlayersOf(before, other) + (match Op.PlayerOf(line, other) { case Some(p) => [p] case None => [] })
            + Op.PlayersOf(after, other)
  {
    PlayersConcat(before + [line], after, other);
    Op.PlayersSnoc(before, line, other);
  }

  /** The operator skips a line that does not count, and every other one is one player, in its place. */
  lemma LineByLine(before: seq<string>, line: string, after: seq<string>, other: Unquoter)
    ensures var all := Op.PlayersOf(before + [line] + after, other);
            var ahead, behind := Op.PlayersOf(before, other), Op.PlayersOf(after, other);
            if !Counts(line) then all == ahead + behind
            else
              && |all| == |ahead| + 1 + |behind| && all == ahead + [all[|ahead|]] + behind
              && Describes(line, all[|ahead|], other)
  {
    PlayersAround(before, line, after, other);
    PlayerDescribed(line, other);
    if !Counts(line) {
      assert Op.PlayersOf(before, other) + [] == Op.PlayersOf(before, other);
    }
  }

  /** The server gives up exactly when some line has three fields of which one cannot be read. */
  lemma ServerGivesUpExactly(lines: seq<string>, other: Unquoter)
    ensures Sv.PlayersOf(lines, other).None?
            <==> exists line :: line in lines && |SplitN(line, ' ', 3)| == 3
                                && (!Counts(line) || Unquote(SplitN(line, ' ', 3)[2], other).None?)
  {
    PlayersAgree(lines, other);
    assert AllSound(lines, other) <==> !exists line :: line in lines && !Sv.Sound(line, other);
    assert forall line :: !Sv.Sound(line, other)
             <==> |SplitN(line, ' ', 3)| == 3 && (!Counts(line) || Unquote(SplitN(line, ' ', 3)[2], other).None?);
  }

  /** A reply without a line for the configuration is refused by both, and no other. */
  lemma RefusedExactly(resp: string, other: Unquoter)
    ensures Op.StatusOf(resp, other).None? <==> '\n' !in TrimSuffix(resp, '\n')
    ensures Sv.StatusOf(resp, other).None? <==> '\n' !in TrimSuffix(resp, '\n')
  {
    var data := TrimSuffix(resp, '\n');
    if '\n' !in data {
      IndexOfAbsent(data, '\n');
    }
  }

  // ---- Names do not influence the count ----

  /** The lines differ at most in their name fields. */
  predicate SameButName(a: string, b: string) {
    |Fields(a)| == |Fields(b)| && (|Fields(a)| == 3 ==> Fields(a)[0] == Fields(b)[0] && Fields(a)[1] == Fields(b)[1])
  }

  lemma {:induction false} CountIgnoresNames(a: seq<string>, b: seq<string>, other: Unquoter, other': Unquoter)
    requires |a| == |b| && forall i :: 0 <= i < |a| ==> SameButName(a[i], b[i])
    ensures |Op.PlayersOf(a, other)| == |Op.PlayersOf(b, other')|
  {
    if |a| > 0 {
      assert SameButName(a[0], b[0]);
      forall i | 0 <= i < |a| - 1 ensures SameButName(a[1..][i], b[1..][i]) {
        assert SameButName(a[i + 1], b[i + 1]);
      }
      CountIgnoresNames(a[1..], b[1..], other, other');
    }
  }

  /** The replies have as many parts and player lines, and these differ at most in their name fields. */
  predicate SameButNames(a: string, b: string) {
    && |Parts(a)| == |Parts(b)| && |PlayerLines(a)| == |PlayerLines(b)|
    && forall i :: 0 <= i < |PlayerLines(a)| ==> SameButName(PlayerLines(a)[i], PlayerLines(b)[i])
  }

  /** The operator's player count, if the reply is accepted. */
  function PlayerCount(reply: string, other: Unquoter): Option<nat> {
    match Op.StatusOf(reply, other)
    case Some(status) => Some(|status.players|)
    case None => None
  }

  /** The player count the operator records does not depend on what the name fields hold. */
  lemma PlayerCountIgnoresNames(a: string, b: string, other: Unquoter, other': Unquoter)
    ensures SameButNames(a, b) ==> PlayerCount(a, other) == PlayerCount(b, other')
  {
    if SameButNames(a, b) {
      CountIgnoresNames(PlayerLines(a), PlayerLines(b), other, other');
    }
  }

  // ---- Printing and parsing back ----

  predicate PlainField(s: string) { '\\' !in s && '\n' !in s }

  function Flat(pairs: seq<(string, string)>): seq<string> {
    if |pairs| == 0 then [] else [pairs[0].0, pairs[0].1] + Flat(pairs[1..])
  }

  function PrintPairs(pairs: seq<(string, string)>): string {
    if |pairs| == 0 then "" else "\\" + Join(Flat(pairs), "\\")
  }

  function PrintPlayer(p: Player): string {
    Itoa(p.score) + " " + Itoa(p.ping) + " " + Quoted(p.name)
  }

  function PrintLines(players: seq<Player>): seq<string> {
    seq(|players|, i requires 0 <= i < |players| => PrintPlayer(players[i]))
  }

  /** A reply as the game server sends it: every line ends in a newline. */
  function PrintReply(header: string, pairs: seq<(string, string)>, players: seq<Player>): string {
    header + "\n" + PrintPairs(pairs) + "\n"
    + if |players| == 0 then "" else Join(PrintLines(players), "\n") + "\n"
  }

  predicate Distinct(pairs: seq<(string, string)>) {
    forall i, j :: 0 <= i < j < |pairs| ==> pairs[i].0 != pairs[j].0
  }

  predicate PlainPairs(pairs: seq<(string, string)>) {
    forall i :: 0 <= i < |pairs| ==> PlainField(pairs[i].0) && PlainField(pairs[i].1)
  }

  predicate PlainPlayers(players: seq<Player>, other: Unquoter) {
    forall i :: 0 <= i < |players| ==>
      Carried(players[i].name, other) && InRange(players[i].ping) && InRange(players[i].score)
  }

  /** `m` holds exactly the listed pairs. */
  ghost predicate Holds(m: map<string, string>, pairs: seq<(string, string)>) {
    && (forall i :: 0 <= i < |pairs| ==> pairs[i].0 in m && m[pairs[i].0] == pairs[i].1)
    && (forall k :: k in m ==> exists i :: 0 <= i < |pairs| && pairs[i].0 == k)
  }

  lemma {:induction false} FlatHolds(pairs: seq<(string, string)>)
    requires Distinct(pairs)
    ensures Holds(PairMap(Flat(pairs)), pairs)
  {
    if |pairs| > 0 {
      assert Flat(pairs)[2..] == Flat(pairs[1..]);
      FlatHolds(pairs[1..]);
      HoldsCons(pairs, PairMap(Flat(pairs[1..])));
    }
  }

  lemma HoldsCons(pairs: seq<(string, string)>, rest: map<string, string>)
    requires |pairs| > 0 && Distinct(pairs) && Holds(rest, pairs[1..])
    ensures Holds(map[pairs[0].0 := pairs[0].1] + rest, pairs)
  {
    var m := map[pairs[0].0 := pairs[0].1] + rest;
    forall i | 0 <= i < |pairs| ensures pairs[i].0 in m && m[pairs[i].0] == pairs[i].1 {
      if i > 0 {
        assert pairs[1..][i - 1] == pairs[i];
      } else {
        assert forall j :: 0 <= j < |pairs[1..]| ==> pairs[1..][j].0 != pairs[0].0;
      }
    }
    forall k | k in m ensures exists i :: 0 <= i < |pairs| && pairs[i].0 == k {
      if k in rest {
        var i :| 0 <= i < |pairs[1..]| && pairs[1..][i].0 == k;
        assert pairs[i + 1].0 == k;
      } else {
        assert pairs[0].0 == k;
      }
    }
  }

  lemma {:induction false} FlatPlain(pairs: seq<(string, string)>)
    requires PlainPairs(pairs)
    ensures forall s :: s in Flat(pairs) ==> PlainField(s)
  {
    if |pairs| > 0 {
      assert PlainPairs(pairs[1..]);
      FlatPlain(pairs[1..]);
    }
  }

  lemma {:induction false} JoinClean(parts: seq<string>, sep: string, c: char)
    requires c !in sep && forall p :: p in parts ==> c !in p
    ensures c !in Join(parts, sep)
  {
    if |parts| > 0 {
      assert parts[0] in parts;
      assert forall p :: p in parts[1..] ==> p in parts;
      JoinClean(parts[1..], sep, c);
    }
  }

  lemma PairsClean(pairs: seq<(string, string)>)
    requires PlainPairs(pairs)
    ensures '\n' !in PrintPairs(pairs)
  {
    FlatPlain(pairs);
    JoinClean(Flat(pairs), "\\", '\n');
  }

  lemma PairsReadBack(pairs: seq<(string, string)>)
    requires PlainPairs(pairs) && Distinct(pairs)
    ensures Holds(ConfigOf(PrintPairs(pairs)), pairs)
  {
    var text := PrintPairs(pairs);
    PairsClean(pairs);
    IndexOfAbsent(text, '\n');
    FlatHolds(pairs);
    if |pairs| == 0 {
      SplitLast("", '\\');
    } else {
      FlatPlain(pairs);
      assert TrimPrefix(text, '\\') == Join(Flat(pairs), "\\");
      var body := Join(Flat(pairs), "\\");
      assert TrimSuffix(body, '\n') == body by {
        assert forall i :: 0 <= i < |body| ==> body[i] == text[i + 1];
        assert body != "" ==> body[|body| - 1] in text;
      }
      SplitJoin(Flat(pairs), '\\');
    }
  }

  lemma NumberNoSpace(n: int)
    ensures ' ' !in Itoa(n) && '\n' !in Itoa(n)
  {
  }

  lemma ThreeFields(s: string, g: string, q: string)
    requires ' ' !in s && ' ' !in g
    ensures Fields(s + " " + g + " " + q) == [s, g, q]
  {
    assert s + " " + g + " " + q == s + [' '] + (g + [' '] + q);
    SplitNHead(s, ' ', g + [' '] + q, 3);
    SplitNHead(g, ' ', q, 2);
  }

  lemma FieldsMakePlayer(line: string, p: Player, s: string, g: string, other: Unquoter)
    requires Fields(line) == [s, g, Quoted(p.name)] && Carried(p.name, other)
    requires Atoi(s) == Some(p.score) && Atoi(g) == Some(p.ping)
    ensures Op.PlayerOf(line, other) == Some(p) && Sv.Sound(line, other)
  {
  }

  lemma PlayerReadsBack(p: Player, other: Unquoter)
    requires Carried(p.name, other) && InRange(p.ping) && InRange(p.score)
    ensures Op.PlayerOf(PrintPlayer(p), other) == Some(p) && Sv.Sound(PrintPlayer(p), other)
  {
    NumberNoSpace(p.score);
    NumberNoSpace(p.ping);
    ThreeFields(Itoa(p.score), Itoa(p.ping), Quoted(p.name));
    AtoiItoa(p.score);
    AtoiItoa(p.ping);
    FieldsMakePlayer(PrintPlayer(p), p, Itoa(p.score), Itoa(p.ping), other);
  }

  lemma PlayerOnOneLine(p: Player)
    requires '\n' !in p.name
    ensures '\n' !in PrintPlayer(p)
  {
    NumberNoSpace(p.score);
    NumberNoSpace(p.ping);
  }

  lemma FirstLineReadsBack(line: string, rest: seq<string>, p: Player, other: Unquoter)
    requires Op.PlayerOf(line, other) == Some(p)
    ensures Op.PlayersOf([line] + rest, other) == [p] + Op.PlayersOf(rest, other)
  {
    assert ([line] + rest)[1..] == rest;
  }

  /** A reader that takes its lines one by one reads a list of lines as the list of what each one is. */
  lemma {:induction false} ReadEach<T>(items: seq<T>, lines: seq<string>, read: seq<string> -> seq<T>)
    requires |lines| == |items| && read([]) == []
    requires forall i, rest :: 0 <= i < |lines| ==> read([lines[i]] + rest) == [items[i]] + read(rest)
    ensures read(lines) == items
  {
    if |lines| > 0 {
      forall i, rest | 0 <= i < |lines[1..]| ensures read([lines[1..][i]] + rest) == [items[1..][i]] + read(rest) {
        assert lines[1..][i] == lines[i + 1];
      }
      ReadEach(items[1..], lines[1..], read);
      assert lines == [lines[0]] + lines[1..];
      assert items == [items[0]] + items[1..];
    }
  }

  lemma LinesReadBack(players: seq<Player>, other: Unquoter)
    requires PlainPlayers(players, other)
    ensures Op.PlayersOf(PrintLines(players), other) == players
  {
    var read := (ls: seq<string>) => Op.PlayersOf(ls, other);
    var lines := PrintLines(players);
    forall i, rest | 0 <= i < |lines| ensures read([lines[i]] + rest) == [players[i]] + read(rest) {
      PlayerReadsBack(players[i], other);
      FirstLineReadsBack(lines[i], rest, players[i], other);
    }
    ReadEach(players, lines, read);
  }

  lemma LinesSound(players: seq<Player>, other: Unquoter)
    requires PlainPlayers(players, other)
    ensures AllSound(PrintLines(players), other)
    ensures forall l :: l in PrintLines(players) ==> '\n' !in l
  {
    forall l | l in PrintLines(players) ensures Sv.Sound(l, other) && '\n' !in l {
      var i :| 0 <= i < |players| && l == PrintPlayer(players[i]);
      PlayerReadsBack(players[i], other);
      PlayerOnOneLine(players[i]);
    }
  }

  lemma ReplyTrimmed(front: string, body: string)
    ensures TrimSuffix(front + (body + "\n"), '\n') == front + body
  {
  }

  lemma TwoParts(header: string, info: string)
    requires '\n' !in header && '\n' !in info
    ensures Parts(header + ['\n'] + info + ['\n']) == [header, info]
  {
    assert TrimSuffix(header + ['\n'] + info + ['\n'], '\n') == header + ['\n'] + info;
    SplitNHead(header, '\n', info, 3);
    IndexOfAbsent(info, '\n');
  }

  lemma ThreeParts(header: string, info: string, body: string)
    requires '\n' !in header && '\n' !in info
    ensures Parts(header + ['\n'] + info + ['\n'] + (body + ['\n'])) == [header, info, body]
  {
    ReplyTrimmed(header + ['\n'] + info + ['\n'], body);
    assert header + ['\n'] + info + ['\n'] + body == header + ['\n'] + (info + ['\n'] + body);
    SplitNHead(header, '\n', info + ['\n'] + body, 3);
    SplitNHead(info, '\n', body, 2);
  }

  lemma ReplyParts(header: string, pairs: seq<(string, string)>, players: seq<Player>)
    requires '\n' !in header && PlainPairs(pairs)
    ensures Parts(PrintReply(header, pairs, players))
         == [header, PrintPairs(pairs)] + if |players| == 0 then [] else [Join(PrintLines(players), "\n")]
  {
    PairsClean(pairs);
    assert "\n" == ['\n'];
    if |players| == 0 {
      assert PrintReply(header, pairs, players) == header + ['\n'] + PrintPairs(pairs) + ['\n'];
      TwoParts(header, PrintPairs(pairs));
    } else {
      ThreeParts(header, PrintPairs(pairs), Join(PrintLines(players), "\n"));
    }
  }

  /**
   Printing any distinct plain pairs and any players as a reply and parsing it gives the same
   map and the same players back, for both parsers. Of the names it is asked only that each is
   unquoted as it was quoted, which holds of all plain ones.
   */
  lemma ReplyRoundTrip(header: string, pairs: seq<(string, string)>, players: seq<Player>, other: Unquoter)
    requires '\n' !in header && PlainPairs(pairs) && Distinct(pairs) && PlainPlayers(players, other)
    ensures var status := Op.StatusOf(PrintReply(header, pairs, players), other);
            && status.Some?
            && Holds(status.value.config, pairs)
            && status.value.players == players
            && Sv.StatusOf(PrintReply(header, pairs, players), other) == status
  {
    var reply := PrintReply(header, pairs, players);
    ReplyParts(header, pairs, players);
    PairsReadBack(pairs);
    LinesReadBack(players, other);
    LinesSound(players, other);
    if |players| > 0 {
      SplitJoin(PrintLines(players), '\n');
    }
    ParsersAgree(reply, other);
  }
}
