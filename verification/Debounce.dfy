/**
 The debounce loop of `watch` (internal/quake/server/server.go). Each turn of its `select` handles
 one thing: a file event, the timer, a watcher error, or the end. Times are integers.
 */
module Debounce {
  import opened Wrappers

  /**
   What one turn receives, and when. `accepted` says whether the consumer is at its `select` when
   the timer fires, so that the non-blocking send goes through.
   */
  datatype Turn = FileEvent(at: int, relevant: bool) | TimerFired(at: int, accepted: bool) | WatcherError(at: int)
                | Ended(at: int)

  /** The log of the loop: the relevant events it has handled and the notifications it has attempted. */
  datatype Entry = Handled(at: int) | Attempt(at: int, accepted: bool)

  /** `timer` is the deadline that the loop listens to: the time of the last relevant event plus the interval. */
  datatype Loop = Loop(timer: Option<int>, log: seq<Entry>, ended: bool)

  const START := Loop(None, [], false)

  function Step(l: Loop, t: Turn, interval: nat): Loop {
    if l.ended then l
    else
      match t
      case FileEvent(at, relevant) =>
        if relevant then Loop(Some(at + interval), l.log + [Handled(at)], false) else l
      case TimerFired(at, accepted) => Loop(None, l.log + [Attempt(at, accepted)], false)
      case WatcherError(_) => l
      case Ended(_) => l.(ended := true)
  }

  function Run(turns: seq<Turn>, interval: nat): Loop {
    if |turns| == 0 then START else Step(Run(turns[..|turns| - 1], interval), turns[|turns| - 1], interval)
  }

  /** Only a timer that the loop listens to can fire, and not before its deadline. */
  predicate CanReceive(l: Loop, t: Turn) {
    t.TimerFired? && !l.ended ==> l.timer.Some? && t.at >= l.timer.value
  }

  /** A timed run: time does not go backwards, and the timer fires when it can. */
  ghost predicate Timed(turns: seq<Turn>, interval: nat) {
    && (forall i, j :: 0 <= i < j < |turns| ==> turns[i].at <= turns[j].at)
    && (forall i :: 0 <= i < |turns| ==> CanReceive(Run(turns[..i], interval), turns[i]))
  }

  lemma RunOn(turns: seq<Turn>, interval: nat, i: nat)
    requires i < |turns|
    ensures Run(turns[..i + 1], interval) == Step(Run(turns[..i], interval), turns[i], interval)
  {
    var before := turns[..i + 1];
    assert before[..i] == turns[..i] && before[i] == turns[i];
  }

  lemma {:induction false} EndedStays(turns: seq<Turn>, interval: nat, i: nat)
    requires i <= |turns| && Run(turns[..i], interval).ended
    ensures Run(turns, interval) == Run(turns[..i], interval)
    decreases |turns| - i
  {
    if i == |turns| {
      assert turns[..i] == turns;
    } else {
      assert turns[..i + 1][..i] == turns[..i];
      EndedStays(turns, interval, i + 1);
    }
  }

  // ---- The log tells what came in ----

  /** What the loop has to log of one turn: a relevant event, or a notification. */
  function EntryOf(t: Turn): seq<Entry> {
    match t
    case FileEvent(at, true) => [Handled(at)]
    case TimerFired(at, accepted) => [Attempt(at, accepted)]
    case _ => []
  }

  function EntriesOf(turns: seq<Turn>): seq<Entry> {
    if |turns| == 0 then [] else EntriesOf(turns[..|turns| - 1]) + EntryOf(turns[|turns| - 1])
  }

  predicate Goes(turns: seq<Turn>) { forall i :: 0 <= i < |turns| ==> !turns[i].Ended? }

  /** The turns up to the first that ends the loop. */
  function Heard(turns: seq<Turn>): seq<Turn> {
    if |turns| == 0 || turns[0].Ended? then [] else [turns[0]] + Heard(turns[1..])
  }

  lemma {:induction false} HeardGoes(turns: seq<Turn>)
    ensures Heard(turns) <= turns && Goes(Heard(turns))
    ensures |Heard(turns)| < |turns| ==> turns[|Heard(turns)|].Ended?
  {
    if |turns| > 0 && !turns[0].Ended? {
      HeardGoes(turns[1..]);
    }
  }

  /** As long as the loop goes on, each relevant event and each notification is one entry, in order. */
  lemma {:induction false} LogOfGoing(turns: seq<Turn>, interval: nat)
    requires Goes(turns)
    ensures Run(turns, interval).log == EntriesOf(turns) && !Run(turns, interval).ended
  {
    if |turns| > 0 {
      LogOfGoing(turns[..|turns| - 1], interval);
    }
  }

  /** In every run the log holds exactly the relevant events and the notifications before the end. */
  lemma LogIsWhatCame(turns: seq<Turn>, interval: nat)
    ensures Run(turns, interval).log == EntriesOf(Heard(turns))
  {
    var n := |Heard(turns)|;
    HeardGoes(turns);
    LogOfGoing(Heard(turns), interval);
    assert turns[..n] == Heard(turns);
    if n < |turns| {
      RunOn(turns, interval, n);
      EndedStays(turns, interval, n + 1);
    } else {
      assert turns[..n] == turns;
    }
  }

  // ---- The loop itself ----

  /** The goroutine's loop over what it receives; `deadline` plays `debounceTimer`, `listening` plays `timerCh`. */
  method Watch(turns: seq<Turn>, interval: nat) returns (log: seq<Entry>, delivered: nat, dropped: nat)
    ensures log == Run(turns, interval).log == EntriesOf(Heard(turns))
    ensures delivered + dropped == Attempts(log) && delivered == Deliveries(log)
  {
    var deadline := 0;
    var listening := false;
    var i := 0;
    log, delivered, dropped := [], 0, 0;
    var ended := false;
    while i < |turns| && !ended
      invariant i <= |turns|
      invariant Run(turns[..i], interval) == Loop(if listening then Some(deadline) else None, log, ended)
      invariant delivered + dropped == Attempts(log) && delivered == Deliveries(log)
      decreases |turns| - i
    {
      RunOn(turns, interval, i);
      match turns[i] {
        case FileEvent(at, relevant) =>
          if relevant {
            deadline := at + interval;
            listening := true;
            log := log + [Handled(at)];
          }
        case TimerFired(at, accepted) =>
          if accepted {
            delivered := delivered + 1;
          } else {
            dropped := dropped + 1;
          }
          listening := false;
          log := log + [Attempt(at, accepted)];
        case WatcherError(_) =>
        case Ended(_) => ended := true;
      }
      i := i + 1;
    }
    if ended {
      EndedStays(turns, interval, i);
    }
    assert turns[..|turns|] == turns;
    LogIsWhatCame(turns, interval);
  }

  function Attempts(log: seq<Entry>): nat {
    if |log| == 0 then 0 else Attempts(log[..|log| - 1]) + (if log[|log| - 1].Attempt? then 1 else 0)
  }

  function Deliveries(log: seq<Entry>): nat {
    if |log| == 0 then 0
    else Deliveries(log[..|log| - 1]) + (if log[|log| - 1].Attempt? && log[|log| - 1].accepted then 1 else 0)
  }

  // ---- What the log looks like ----

  /** The last entry and the timer go together, and every attempt closes a burst, an interval after its last event. */
  predicate Debounced(l: Loop, interval: nat) {
    && (l.timer.Some? <==> |l.log| > 0 && l.log[|l.log| - 1].Handled?)
    && (l.timer.Some? ==> l.timer.value == l.log[|l.log| - 1].at + interval)
    && (forall i :: 0 <= i < |l.log| && l.log[i].Attempt? ==> i > 0 && ClosesBurst(l.log[i - 1], l.log[i], interval))
  }

  predicate ClosesBurst(before: Entry, attempt: Entry, interval: nat) {
    before.Handled? && attempt.at >= before.at + interval
  }

  lemma StepDebounced(l: Loop, t: Turn, interval: nat)
    requires Debounced(l, interval) && CanReceive(l, t)
    ensures Debounced(Step(l, t, interval), interval)
  {
  }

  lemma TimedPrefix(turns: seq<Turn>, interval: nat, n: nat)
    requires Timed(turns, interval) && n <= |turns|
    ensures Timed(turns[..n], interval)
  {
    var prefix := turns[..n];
    forall i | 0 <= i < n ensures CanReceive(Run(prefix[..i], interval), prefix[i]) {
      assert prefix[..i] == turns[..i];
    }
  }

  lemma {:induction false} RunDebounced(turns: seq<Turn>, interval: nat)
    requires Timed(turns, interval)
    ensures Debounced(Run(turns, interval), interval)
  {
    if |turns| > 0 {
      var n := |turns| - 1;
      TimedPrefix(turns, interval, n);
      RunDebounced(turns[..n], interval);
      StepDebounced(Run(turns[..n], interval), turns[n], interval);
    }
  }

  // ---- Whole runs, turn by turn ----

  predicate Relevant(t: Turn) { t.FileEvent? && t.relevant }

  /** Turn j has been answered by turn i of the first n: a notification no sooner than the interval after it. */
  predicate AnsweredBy(turns: seq<Turn>, interval: nat, n: nat, j: nat, i: nat)
    requires n <= |turns| && j < n
  {
    j < i < n && turns[i].TimerFired? && turns[i].at >= turns[j].at + interval
  }

  lemma GoesOn(turns: seq<Turn>, interval: nat, m: nat)
    requires m < |turns| && Goes(turns[..m + 1])
    ensures Goes(turns[..m]) && !Run(turns[..m], interval).ended
    ensures Run(turns[..m + 1], interval) == Step(Run(turns[..m], interval), turns[m], interval)
  {
    assert turns[..m + 1][..m] == turns[..m];
    LogOfGoing(turns[..m], interval);
    RunOn(turns, interval, m);
  }

  /** A relevant event among the first n turns is waited for by the timer, or has been answered. */
  lemma {:induction false} WaitedForOrAnswered(turns: seq<Turn>, interval: nat, n: nat, j: nat)
    requires Timed(turns, interval) && j < n <= |turns| && Goes(turns[..n]) && Relevant(turns[j])
    ensures var l := Run(turns[..n], interval);
            || (l.timer.Some? && l.timer.value >= turns[j].at + interval)
            || exists i :: AnsweredBy(turns, interval, n, j, i)
  {
    var m := n - 1;
    GoesOn(turns, interval, m);
    if j < m {
      WaitedForOrAnswered(turns, interval, m, j);
      var l := Run(turns[..m], interval);
      if l.timer.Some? && l.timer.value >= turns[j].at + interval {
        assert CanReceive(l, turns[m]);
        StillWaits(l, turns[m], interval, turns[j].at);
        assert turns[m].TimerFired? ==> AnsweredBy(turns, interval, n, j, m);
      } else {
        var i :| AnsweredBy(turns, interval, m, j, i);
        assert AnsweredBy(turns, interval, n, j, i);
      }
    }
  }

  /** A timer that waits long enough still does after a turn, unless it has fired, and then in time. */
  lemma StillWaits(l: Loop, t: Turn, interval: nat, at: int)
    requires !l.ended && l.timer.Some? && l.timer.value >= at + interval && CanReceive(l, t) && t.at >= at
    ensures
      if t.TimerFired? then t.at >= at + interval
      else Step(l, t, interval).timer.Some? && Step(l, t, interval).timer.value >= at + interval
  {
  }

  /** In every timed run: a notification comes no sooner than the interval after every relevant event before it. */
  lemma AttemptsAreDebounced(turns: seq<Turn>, interval: nat, j: nat, i: nat)
    requires Timed(turns, interval) && j < i < |turns| && Goes(turns[..i])
    requires Relevant(turns[j]) && turns[i].TimerFired?
    ensures turns[i].at >= turns[j].at + interval
  {
    WaitedForOrAnswered(turns, interval, i, j);
    LogOfGoing(turns[..i], interval);
    assert CanReceive(Run(turns[..i], interval), turns[i]);
  }

  /** Between two notifications, a relevant event has come in. */
  lemma OneEventBetween(turns: seq<Turn>, interval: nat, h: nat, i: nat) returns (j: nat)
    requires Timed(turns, interval) && h < i < |turns| && Goes(turns[..i])
    requires turns[h].TimerFired? && turns[i].TimerFired?
    ensures h < j < i && Relevant(turns[j])
  {
    LogOfGoing(turns[..i], interval);
    assert CanReceive(Run(turns[..i], interval), turns[i]);
    j := LastArming(turns, interval, h, i);
  }

  /** A timer that is armed after n turns has been armed since any earlier notification. */
  lemma {:induction false} LastArming(turns: seq<Turn>, interval: nat, h: nat, n: nat) returns (j: nat)
    requires h < n <= |turns| && Goes(turns[..n]) && turns[h].TimerFired? && Run(turns[..n], interval).timer.Some?
    ensures h < j < n && Relevant(turns[j])
  {
    j := n - 1;
    RunOn(turns, interval, j);
    assert turns[..n][..j] == turns[..j] && turns[..n][j] == turns[j];
    LogOfGoing(turns[..j], interval);
    if !Relevant(turns[j]) {
      j := LastArming(turns, interval, h, j);
    }
  }

  /** Whenever no timer is armed, every relevant event before the end has been followed by a notification. */
  lemma NoEventIsLost(turns: seq<Turn>, interval: nat, j: nat) returns (i: nat)
    requires Timed(turns, interval) && Run(turns, interval).timer.None? && Goes(turns)
    requires j < |turns| && Relevant(turns[j])
    ensures j < i < |turns| && turns[i].TimerFired? && turns[i].at >= turns[j].at + interval
  {
    assert turns[..|turns|] == turns;
    WaitedForOrAnswered(turns, interval, |turns|, j);
    i :| AnsweredBy(turns, interval, |turns|, j, i);
  }

  /** The number of bursts: of events that come first, or after an attempt. */
  function Bursts(log: seq<Entry>): nat {
    if |log| == 0 then 0
    else Bursts(log[..|log| - 1])
         + (if log[|log| - 1].Handled? && (|log| == 1 || log[|log| - 2].Attempt?) then 1 else 0)
  }

  lemma {:induction false} AlternatingCounts(log: seq<Entry>)
    requires forall i :: 0 <= i < |log| && log[i].Attempt? ==> i > 0 && log[i - 1].Handled?
    ensures Bursts(log) == Attempts(log) + (if |log| > 0 && log[|log| - 1].Handled? then 1 else 0)
  {
    if |log| > 0 {
      AlternatingCounts(log[..|log| - 1]);
    }
  }

  lemma DebouncedCounts(l: Loop, interval: nat)
    requires Debounced(l, interval)
    ensures Bursts(l.log) == Attempts(l.log) + (if l.timer.Some? then 1 else 0)
  {
    forall i | 0 <= i < |l.log| && l.log[i].Attempt? ensures i > 0 && l.log[i - 1].Handled? {
      assert i > 0 && ClosesBurst(l.log[i - 1], l.log[i], interval);
    }
    AlternatingCounts(l.log);
  }

  /** Exactly one notification for each burst of what came in; only the burst still open has none yet. */
  lemma OneAttemptPerBurst(turns: seq<Turn>, interval: nat)
    requires Timed(turns, interval)
    ensures var came := EntriesOf(Heard(turns));
            Bursts(came) == Attempts(came) + (if Run(turns, interval).timer.Some? then 1 else 0)
  {
    RunDebounced(turns, interval);
    LogIsWhatCame(turns, interval);
    DebouncedCounts(Run(turns, interval), interval);
  }
}
