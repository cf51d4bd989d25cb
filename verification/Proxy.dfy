/**
 The WebSocket/UDP proxy (internal/quake/client/proxy.go): two pumps and the handler that waits for
 them, with an error channel of capacity one. A step is one blocking operation of one process.
 */
module Proxy {
  newtype Byte = b: int | 0 <= b < 256
  type Message = seq<Byte>

  /** Four bytes 0xff and "port": such a message is not passed on. */
  const PORT: Message := [255, 255, 255, 255, 112, 111, 114, 116]

  predicate IsPort(m: Message) { |m| >= |PORT| && m[..|PORT|] == PORT }

  /** The messages that are passed on. */
  function Passed(messages: seq<Message>): seq<Message> {
    if |messages| == 0 then []
    else
      var before, last := Passed(messages[..|messages| - 1]), messages[|messages| - 1];
      if IsPort(last) then before else before + [last]
  }

  predicate StartsPort(m: Message) { [255, 255, 255, 255, 112, 111, 114, 116] <= m }

  /** `kept` are the messages at these positions, in order: all but those that start with 0xff x 4 "port". */
  ghost predicate AllButPort(messages: seq<Message>, kept: seq<Message>, at: seq<nat>) {
    && |at| == |kept| && (forall i, j :: 0 <= i < j < |at| ==> at[i] < at[j])
    && (forall i :: 0 <= i < |at| ==> at[i] < |messages| && kept[i] == messages[at[i]])
    && (forall n :: 0 <= n < |messages| ==> (n in at <==> !StartsPort(messages[n])))
  }

  lemma PortIsPrefix(m: Message)
    ensures IsPort(m) <==> StartsPort(m)
  {
    assert PORT == [255, 255, 255, 255, 112, 111, 114, 116];
  }

  lemma Skipped(messages: seq<Message>, kept: seq<Message>, at: seq<nat>, m: Message)
    requires AllButPort(messages, kept, at) && StartsPort(m)
    ensures AllButPort(messages + [m], kept, at)
  {
    assert |messages| !in at;
  }

  lemma Kept(messages: seq<Message>, kept: seq<Message>, at: seq<nat>, m: Message)
    requires AllButPort(messages, kept, at) && !StartsPort(m)
    ensures AllButPort(messages + [m], kept + [m], at + [|messages|])
  {
    var all, more := messages + [m], at + [|messages|];
    forall n | 0 <= n < |all| ensures n in more <==> !StartsPort(all[n]) {
      assert n < |messages| ==> all[n] == messages[n];
    }
  }

  lemma {:induction false} PassedAre(messages: seq<Message>) returns (at: seq<nat>)
    ensures AllButPort(messages, Passed(messages), at)
  {
    at := [];
    if |messages| > 0 {
      var before, last := messages[..|messages| - 1], messages[|messages| - 1];
      at := PassedAre(before);
      PortIsPrefix(last);
      assert messages == before + [last];
      if StartsPort(last) {
        Skipped(before, Passed(before), at, last);
      } else {
        Kept(before, Passed(before), at, last);
        at := at + [|before|];
      }
    }
  }

  // ---- The pump from the WebSocket ----

  /** One turn: a message with the outcome of sending it on. A read error ends the sequence. */
  datatype Turn = Turn(message: Message, sent: bool)

  predicate Fails(t: Turn) { !IsPort(t.message) && !t.sent }

  /** How many messages the loop passes over before one that it fails to send; all, if none fails. */
  function UntilFailure(turns: seq<Turn>): (n: nat)
    ensures n <= |turns|
  {
    if |turns| == 0 || Fails(turns[0]) then 0 else 1 + UntilFailure(turns[1..])
  }

  function MessagesOf(turns: seq<Turn>): seq<Message> {
    seq(|turns|, i requires 0 <= i < |turns| => turns[i].message)
  }

  lemma {:induction false} UntilFailureIs(turns: seq<Turn>, n: nat)
    requires n <= |turns| && (forall i :: 0 <= i < n ==> !Fails(turns[i])) && (n < |turns| ==> Fails(turns[n]))
    ensures UntilFailure(turns) == n
  {
    if n > 0 {
      UntilFailureIs(turns[1..], n - 1);
    }
  }

  /** The loop: the datagrams sent are the messages to be passed on, in order, up to the first failure. */
  method PumpToBackend(turns: seq<Turn>) returns (sent: seq<Message>, failed: bool)
    ensures sent == Passed(MessagesOf(turns[..UntilFailure(turns)]))
    ensures exists at :: AllButPort(MessagesOf(turns[..UntilFailure(turns)]), sent, at)
    ensures failed <==> UntilFailure(turns) < |turns|
  {
    sent, failed := [], false;
    var i := 0;
    while i < |turns|
      invariant i <= |turns| && !failed
      invariant sent == Passed(MessagesOf(turns[..i]))
      invariant forall j :: 0 <= j < i ==> !Fails(turns[j])
    {
      var m := turns[i].message;
      if !IsPort(m) {
        if !turns[i].sent {
          UntilFailureIs(turns, i);
          ghost var until := PassedAre(MessagesOf(turns[..i]));
          return sent, true;
        }
        sent := sent + [m];
      }
      ghost var now := MessagesOf(turns[..i + 1]);
      assert now[..i] == MessagesOf(turns[..i]) && now[i] == m;
      i := i + 1;
    }
    UntilFailureIs(turns, |turns|);
    ghost var at := PassedAre(MessagesOf(turns[..|turns|]));
  }

  // ---- The three processes ----

  /** `Reporting` is about to put its error into the channel, and blocks there while the channel is full. */
  datatype Pump = Receiving | Sending(message: Message) | Reporting(closing: bool) | Closing | Done

  /** The handler selects, returns, and has then closed both ends with its deferred calls. */
  datatype Handler = Selecting | Returning(tookError: bool) | Closed(tookError: bool)

  /** `read` and `sent` are what the pump from the WebSocket has read and sent; `heard` and `written` the other's. */
  datatype State = State(toBackend: Pump, toSocket: Pump, handler: Handler, errors: nat,
                         read: seq<Message>, sent: seq<Message>, heard: seq<Message>, written: seq<Message>)

  const INIT := State(Receiving, Receiving, Selecting, 0, [], [], [], [])

  datatype Action =
    | SocketMessage(message: Message)
    | SocketError
    | BackendSend(ok: bool)
    | ReportSocket
    | CloseMessage
    | Datagram(message: Message)
    | BackendError
    | SocketWrite(ok: bool)
    | ReportBackend
    | TakeError
    | Cancel
    | CloseEnds

  /** Nothing can be received or sent once both ends are closed. */
  predicate Open(st: State) { !st.handler.Closed? }

  predicate Full(st: State) { st.errors >= 1 }

  predicate Enabled(st: State, a: Action) {
    match a
    case SocketMessage(_) => st.toBackend.Receiving? && Open(st)
    case SocketError => st.toBackend.Receiving?
    case BackendSend(ok) => st.toBackend.Sending? && (ok ==> Open(st))
    case ReportSocket => st.toBackend.Reporting? && !Full(st)
    case CloseMessage => st.toBackend.Closing?
    case Datagram(_) => st.toSocket.Receiving? && Open(st)
    case BackendError => st.toSocket.Receiving?
    case SocketWrite(ok) => st.toSocket.Sending? && (ok ==> Open(st))
    case ReportBackend => st.toSocket.Reporting? && !Full(st)
    case TakeError => st.handler.Selecting? && Full(st)
    case Cancel => st.handler.Selecting?
    case CloseEnds => st.handler.Returning?
  }

  function Step(st: State, a: Action): State
    requires Enabled(st, a)
  {
    match a
    case SocketMessage(m) =>
      st.(read := st.read + [m], toBackend := if IsPort(m) then Receiving else Sending(m))
    case SocketError => st.(toBackend := Reporting(true))
    case BackendSend(ok) =>
      if ok then st.(sent := st.sent + [st.toBackend.message], toBackend := Receiving)
      else st.(toBackend := Reporting(false))
    case ReportSocket =>
      st.(errors := st.errors + 1, toBackend := if st.toBackend.closing then Closing else Done)
    case CloseMessage => st.(toBackend := Done)
    case Datagram(m) => st.(heard := st.heard + [m], toSocket := Sending(m))
    case BackendError => st.(toSocket := Reporting(false))
    case SocketWrite(ok) =>
      if ok then st.(written := st.written + [st.toSocket.message], toSocket := Receiving)
      else st.(toSocket := Reporting(false))
    case ReportBackend => st.(errors := st.errors + 1, toSocket := Done)
    case TakeError => st.(errors := st.errors - 1, handler := Returning(true))
    case Cancel => st.(handler := Returning(false))
    case CloseEnds => st.(handler := Closed(st.handler.tookError))
  }

  ghost predicate Runs(st: State, actions: seq<Action>, end: State)
    decreases |actions|
  {
    if |actions| == 0 then st == end else Enabled(st, actions[0]) && Runs(Step(st, actions[0]), actions[1..], end)
  }

  // ---- What is forwarded ----

  /** All but the message in hand, or the one on which the pump gave up, has been forwarded. */
  predicate Forwarded(st: State) {
    && (match st.toBackend
        case Receiving => st.sent == Passed(st.read)
        case Sending(m) => |st.read| > 0 && Last(st.read) == m && !IsPort(m) && st.sent == Passed(Front(st.read))
        case _ => st.sent == Passed(st.read) || (|st.read| > 0 && st.sent == Passed(Front(st.read))))
    && (match st.toSocket
        case Receiving => st.written == st.heard
        case Sending(m) => st.heard == st.written + [m]
        case _ => st.written == st.heard || (|st.heard| > 0 && st.written == Front(st.heard)))
  }

  function Front(s: seq<Message>): seq<Message>
    requires |s| > 0
  {
    s[..|s| - 1]
  }

  function Last(s: seq<Message>): Message
    requires |s| > 0
  {
    s[|s| - 1]
  }

  lemma StepForwarded(st: State, a: Action)
    requires Enabled(st, a) && Forwarded(st)
    ensures Forwarded(Step(st, a))
  {
    if a.SocketMessage? {
      assert Front(st.read + [a.message]) == st.read;
    }
  }

  lemma {:induction false} RunForwarded(st: State, actions: seq<Action>, end: State)
    requires Runs(st, actions, end) && Forwarded(st)
    ensures Forwarded(end)
    decreases |actions|
  {
    if |actions| > 0 {
      StepForwarded(st, actions[0]);
      RunForwarded(Step(st, actions[0]), actions[1..], end);
    }
  }

  /**
   Over all interleavings: the datagrams sent are all but the port messages of a prefix of what was
   read from the WebSocket, in order and one for one, and the binary messages written to it are a
   prefix of the datagrams received; each prefix leaves out one message at most.
   */
  lemma NothingIsReordered(actions: seq<Action>, st: State) returns (k: nat, n: nat)
    requires Runs(INIT, actions, st)
    ensures k <= |st.read| <= k + 1 && exists at :: AllButPort(st.read[..k], st.sent, at)
    ensures n <= |st.heard| <= n + 1 && st.written == st.heard[..n]
  {
    RunForwarded(INIT, actions, st);
    k := if st.sent == Passed(st.read) then |st.read| else |st.read| - 1;
    n := if st.written == st.heard then |st.heard| else |st.heard| - 1;
    assert st.read[..|st.read|] == st.read && st.heard[..|st.heard|] == st.heard;
    var at := PassedAre(st.read[..k]);
  }

  // ---- Who can be left blocked ----

  function Unreported(p: Pump): nat { if p.Receiving? || p.Sending? || p.Reporting? then 1 else 0 }

  predicate TookError(st: State) { !st.handler.Selecting? && st.handler.tookError }

  predicate Cancelled(st: State) { !st.handler.Selecting? && !st.handler.tookError }

  /** Each pump reports once; the handler takes at most one report. */
  predicate Counted(st: State) {
    && st.errors + Unreported(st.toBackend) + Unreported(st.toSocket) == (if TookError(st) then 1 else 2)
    && st.errors <= 1 && (st.toSocket.Reporting? ==> !st.toSocket.closing) && !st.toSocket.Closing?
  }

  lemma StepCounted(st: State, a: Action)
    requires Enabled(st, a) && Counted(st)
    ensures Counted(Step(st, a))
  {
  }

  lemma {:induction false} RunCounted(st: State, actions: seq<Action>, end: State)
    requires Runs(st, actions, end) && Counted(st)
    ensures Counted(end)
    decreases |actions|
  {
    if |actions| > 0 {
      StepCounted(st, actions[0]);
      RunCounted(Step(st, actions[0]), actions[1..], end);
    }
  }

  /** Once the handler has left by taking an error, no pump can be blocked on the channel. */
  lemma ErrorExitBlocksNobody(actions: seq<Action>, st: State)
    requires Runs(INIT, actions, st) && TookError(st)
    ensures st.toBackend.Reporting? ==> Enabled(st, ReportSocket)
    ensures st.toSocket.Reporting? ==> Enabled(st, ReportBackend)
  {
    RunCounted(INIT, actions, st);
  }

  /** Once it has left because of the context, one of the pumps never ends: there is room for one report only. */
  lemma CancelExitLeavesAPump(actions: seq<Action>, st: State)
    requires Runs(INIT, actions, st) && Cancelled(st)
    ensures !(st.toBackend.Done? && st.toSocket.Done?)
    ensures st.toBackend.Reporting? && st.toSocket.Done? ==> forall a :: Enabled(st, a) ==> a.CloseEnds?
    ensures st.toBackend.Done? && st.toSocket.Reporting? ==> forall a :: Enabled(st, a) ==> a.CloseEnds?
  {
    RunCounted(INIT, actions, st);
  }

  /** How far a pump is from its end, once both ends are closed. */
  function Distance(p: Pump): nat {
    match p
    case Sending(_) => 4
    case Receiving => 3
    case Reporting(_) => 2
    case Closing => 1
    case Done => 0
  }

  /** After an error exit every step brings the pumps nearer to their end, and until then there is one. */
  lemma ErrorExitEnds(actions: seq<Action>, st: State)
    requires Runs(INIT, actions, st) && st.handler.Closed? && st.handler.tookError
    ensures forall a :: Enabled(st, a) ==>
              Distance(Step(st, a).toBackend) + Distance(Step(st, a).toSocket)
              < Distance(st.toBackend) + Distance(st.toSocket)
    ensures !(st.toBackend.Done? && st.toSocket.Done?) ==> exists a :: Enabled(st, a)
  {
    RunCounted(INIT, actions, st);
    var next :=
      match st.toBackend {
        case Receiving => SocketError
        case Sending(_) => BackendSend(false)
        case Reporting(_) => ReportSocket
        case Closing => CloseMessage
        case Done => if st.toSocket.Receiving? then BackendError
                     else if st.toSocket.Sending? then SocketWrite(false) else ReportBackend
      };
    assert (st.toBackend.Done? && st.toSocket.Done?) || Enabled(st, next);
  }
}
