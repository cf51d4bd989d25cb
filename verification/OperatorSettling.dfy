/**
 The server controller never forgets: in every reachable state each server is queued, about to be
 queued by an event on its way, being worked on with an up-to-date snapshot, or in order.
 */
module OperatorSettling {
  import opened Wrappers
  import opened ConfigSpec
  import opened Operator

  // ---- The invariant ----

  predicate KindDone(st: State, name: string, base: Server, config: ServerConfig, kind: Kind) {
    var body := Wanted(st.world, base.spec, config, kind);
    body.Some? ==> Matches(Kid(st, kind, name).cached, base.uid, body.value)
  }

  predicate DoneUpTo(st: State, name: string, base: Server, config: ServerConfig, todo: nat) {
    forall i :: 0 <= i < todo && i < |KINDS| ==> KindDone(st, name, base, config, KINDS[i])
  }

  /** The status says what the Deployment says. */
  predicate Reported(st: State, name: string, s: Server) {
    s.status == Report(s, Kid(st, Deployments, name).cached, None)
  }

  /** Nothing is left to be done for this server, as far as the cache shows. */
  predicate Settled(st: State, name: string) {
    match Srv(st, name).cached
    case None => true
    case Some(s) =>
      if s.deleting then !s.finalizer
      else
        && s.finalizer && Resolution(st, s.spec).Some?
        && DoneUpTo(st, name, s, Resolution(st, s.spec).value, |KINDS|)
        && Reported(st, name, s)
  }

  /** What the worker has read is still what the cache shows, and what it has done still stands. */
  predicate OnTrack(st: State, name: string, base: Server, config: ServerConfig, todo: nat) {
    && Srv(st, name).cached == Some(base) && !base.deleting && base.finalizer
    && Resolution(st, base.spec) == Some(config)
    && DoneUpTo(st, name, base, config, todo)
  }

  predicate Good(st: State, w: Worker) {
    match w
    case Idle => true
    case Popped(_) => true
    case Finalizing(name, base) => Srv(st, name).cached == Some(base) && base.deleting
    case Adopting(name, base) => true
    case Resolving(name, base) => Srv(st, name).cached == Some(base) && !base.deleting && base.finalizer
    case Rejecting(name, base) => true
    case Applying(name, base, config, todo) => OnTrack(st, name, base, config, todo)
    case Writing(name, base, config, todo, body, seen) => OnTrack(st, name, base, config, todo)
    case Reporting(name, base, config) => OnTrack(st, name, base, config, |KINDS|)
    case Saving(name, base, config, deployment, players) =>
      OnTrack(st, name, base, config, |KINDS|) && deployment == Kid(st, Deployments, name).cached
  }

  /** An undelivered version of a child whose event will be mapped to its owner. */
  predicate WillTell(c: Cell<Child>) {
    |c.pending| > 0 && (Owned(c.cached) || exists i :: 0 <= i < |c.pending| && Owned(c.pending[i]))
  }

  ghost predicate OnItsWay(st: State, name: string) {
    |Srv(st, name).pending| > 0 || exists kind :: WillTell(Kid(st, kind, name))
  }

  ghost predicate Covered(st: State, name: string) {
    || name in st.queue
    || OnItsWay(st, name)
    || (if Busy(st.worker, name) then Good(st, st.worker) else Settled(st, name))
  }

  /** What the worker holds is consistent in itself. */
  predicate Coherent(st: State) {
    var w := st.worker;
    w.Writing? ==> w.seen != Some(Adjusted(w.seen, w.base.uid, w.body))
  }

  // ---- Steps that change no cache ----

  ghost predicate SameView(st: State, st': State, name: string) {
    && st'.world == st.world && Srv(st', name).cached == Srv(st, name).cached
    && (forall t :: Tpl(st', t).cached == Tpl(st, t).cached)
    && (forall k :: Kid(st', k, name).cached == Kid(st, k, name).cached)
  }

  ghost predicate StillOnItsWay(st: State, st': State, name: string) {
    OnItsWay(st, name) ==> OnItsWay(st', name)
  }

  lemma ViewKeepsResolution(st: State, st': State, name: string, spec: ServerSpec)
    requires SameView(st, st', name)
    ensures Resolution(st', spec) == Resolution(st, spec)
  {
  }

  lemma ViewKeepsDone(st: State, st': State, name: string, base: Server, config: ServerConfig, todo: nat)
    requires SameView(st, st', name)
    ensures DoneUpTo(st', name, base, config, todo) == DoneUpTo(st, name, base, config, todo)
  {
    forall i | 0 <= i < todo && i < |KINDS|
      ensures KindDone(st', name, base, config, KINDS[i]) == KindDone(st, name, base, config, KINDS[i])
    {
    }
  }

  lemma ViewKeepsSettled(st: State, st': State, name: string)
    requires SameView(st, st', name)
    ensures Settled(st', name) == Settled(st, name)
  {
    match Srv(st, name).cached {
      case None =>
      case Some(s) =>
        ViewKeepsResolution(st, st', name, s.spec);
        if Resolution(st, s.spec).Some? {
          ViewKeepsDone(st, st', name, s, Resolution(st, s.spec).value, |KINDS|);
        }
    }
  }

  lemma ViewKeepsGood(st: State, st': State, w: Worker)
    requires w.Idle? || SameView(st, st', w.name)
    ensures Good(st', w) == Good(st, w)
  {
    if w.Applying? || w.Writing? || w.Reporting? || w.Saving? {
      ViewKeepsResolution(st, st', w.name, w.base.spec);
      ViewKeepsDone(st, st', w.name, w.base, w.config, if w.Applying? || w.Writing? then w.todo else |KINDS|);
    }
  }

  lemma QuietStep(st: State, st': State, name: string)
    requires Covered(st, name) && SameView(st, st', name) && StillOnItsWay(st, st', name)
    requires name in st.queue ==> name in st'.queue
    requires Busy(st'.worker, name) == Busy(st.worker, name) && (Busy(st.worker, name) ==> st'.worker == st.worker)
    ensures Covered(st', name)
  {
    ViewKeepsSettled(st, st', name);
    if Busy(st.worker, name) {
      ViewKeepsGood(st, st', st.worker);
    }
  }

  // ---- Writes only add to what is on its way ----

  lemma WriteAdds<V>(c: Cell<V>, v: Option<V>)
    ensures Write(c, v).cached == c.cached && c.pending <= Write(c, v).pending
  {
  }

  lemma MoreToTell(c: Cell<Child>, c': Cell<Child>)
    requires c'.cached == c.cached && c.pending <= c'.pending && WillTell(c)
    ensures WillTell(c')
  {
    if !Owned(c.cached) {
      var i :| 0 <= i < |c.pending| && Owned(c.pending[i]);
      assert Owned(c'.pending[i]);
    }
  }

  lemma WriteServerQuiet(st: State, n: string, s: Option<Server>, name: string)
    ensures var st' := WriteServer(st, n, s); SameView(st, st', name) && StillOnItsWay(st, st', name)
  {
    WriteAdds(Srv(st, n), s);
    var st' := WriteServer(st, n, s);
    assert forall k :: Kid(st', k, name) == Kid(st, k, name);
  }

  lemma WriteTemplateQuiet(st: State, t: string, v: Option<Template>, name: string)
    ensures var st' := WriteTemplate(st, t, v); SameView(st, st', name) && StillOnItsWay(st, st', name)
  {
    WriteAdds(Tpl(st, t), v);
    var st' := WriteTemplate(st, t, v);
    assert forall k :: Kid(st', k, name) == Kid(st, k, name);
  }

  lemma WriteChildQuiet(st: State, kind: Kind, n: string, c: Option<Child>, name: string)
    ensures var st' := WriteChild(st, kind, n, c); SameView(st, st', name) && StillOnItsWay(st, st', name)
  {
    WriteAdds(Kid(st, kind, n), c);
    var st' := WriteChild(st, kind, n, c);
    if OnItsWay(st, name) && |Srv(st, name).pending| == 0 {
      var k :| WillTell(Kid(st, k, name));
      MoreToTell(Kid(st, k, name), Kid(st', k, name));
    }
  }

  // ---- Deliveries ----

  lemma ServerEventCovers(st: State, n: string, name: string)
    requires Covered(st, name)
    ensures Covered(ServerEvent(st, n), name)
  {
    var st' := ServerEvent(st, n);
    if |Srv(st, n).pending| > 0 && n != name {
      assert forall k :: Kid(st', k, name) == Kid(st, k, name);
      assert SameView(st, st', name) && StillOnItsWay(st, st', name);
      QuietStep(st, st', name);
    }
  }

  lemma OthersTell(st: State, kind: Kind, n: string, name: string)
    requires |Kid(st, kind, n).pending| > 0 && n != name
    ensures var st' := ChildEvent(st, kind, n); SameView(st, st', name) && StillOnItsWay(st, st', name)
  {
    var st' := ChildEvent(st, kind, n);
    assert forall k :: Kid(st', k, name) == Kid(st, k, name);
  }

  /** An event about a child that nobody owns, before and after: nothing that was in order depends on it. */
  lemma UnownedEventCovers(st: State, kind: Kind, name: string)
    requires Covered(st, name) && |Kid(st, kind, name).pending| > 0
    requires !Owned(Kid(st, kind, name).cached) && !Owned(Kid(st, kind, name).pending[0])
    ensures Covered(ChildEvent(st, kind, name), name)
  {
    var st' := ChildEvent(st, kind, name);
    var c := Kid(st, kind, name);
    if name in st.queue || |Srv(st, name).pending| > 0 {
    } else if OnItsWay(st, name) {
      var k :| WillTell(Kid(st, k, name));
      if k == kind {
        var i :| 0 <= i < |c.pending| && Owned(c.pending[i]);
        assert Owned(Kid(st', kind, name).pending[i - 1]);
      }
      assert WillTell(Kid(st', k, name));
    } else if Busy(st.worker, name) {
      UnownedKeepsGood(st, kind, name);
    } else {
      UnownedKeepsSettled(st, kind, name);
    }
  }

  lemma UnownedKeepsDone(st: State, kind: Kind, name: string, base: Server, config: ServerConfig, todo: nat)
    requires |Kid(st, kind, name).pending| > 0
    requires !Owned(Kid(st, kind, name).cached) && !Owned(Kid(st, kind, name).pending[0])
    requires DoneUpTo(st, name, base, config, todo)
    ensures DoneUpTo(ChildEvent(st, kind, name), name, base, config, todo)
  {
    var st' := ChildEvent(st, kind, name);
    forall i | 0 <= i < todo && i < |KINDS| ensures KindDone(st', name, base, config, KINDS[i]) {
      assert KindDone(st, name, base, config, KINDS[i]);
    }
  }

  lemma UnownedKeepsSettled(st: State, kind: Kind, name: string)
    requires |Kid(st, kind, name).pending| > 0 && Settled(st, name)
    requires !Owned(Kid(st, kind, name).cached) && !Owned(Kid(st, kind, name).pending[0])
    ensures Settled(ChildEvent(st, kind, name), name)
  {
    var cached := Srv(st, name).cached;
    if cached.Some? && !cached.value.deleting {
      var s := cached.value;
      var config := Resolution(st, s.spec).value;
      DeploymentOwned(st, name, s, config);
      UnownedKeepsDone(st, kind, name, s, config, |KINDS|);
    }
  }

  lemma DeploymentOwned(st: State, name: string, base: Server, config: ServerConfig)
    requires DoneUpTo(st, name, base, config, |KINDS|)
    ensures Owned(Kid(st, Deployments, name).cached)
  {
    assert KindDone(st, name, base, config, KINDS[2]);
  }

  lemma UnownedKeepsGood(st: State, kind: Kind, name: string)
    requires |Kid(st, kind, name).pending| > 0 && Busy(st.worker, name) && Good(st, st.worker)
    requires !Owned(Kid(st, kind, name).cached) && !Owned(Kid(st, kind, name).pending[0])
    ensures Good(ChildEvent(st, kind, name), st.worker)
  {
    var w := st.worker;
    if w.Applying? || w.Writing? || w.Reporting? || w.Saving? {
      UnownedKeepsDone(st, kind, name, w.base, w.config, if w.Applying? || w.Writing? then w.todo else |KINDS|);
      if w.Saving? {
        DeploymentOwned(st, name, w.base, w.config);
      }
    }
  }

  lemma ChildEventCovers(st: State, kind: Kind, n: string, name: string)
    requires Covered(st, name)
    ensures Covered(ChildEvent(st, kind, n), name)
  {
    var c := Kid(st, kind, n);
    if |c.pending| > 0 {
      if n != name {
        OthersTell(st, kind, n, name);
        QuietStep(st, ChildEvent(st, kind, n), name);
      } else if !Owned(c.cached) && !Owned(c.pending[0]) {
        UnownedEventCovers(st, kind, name);
      }
    }
  }

  lemma OtherTemplate(st: State, t: string, listed: bool, spec: ServerSpec)
    requires spec.templateRef != Some(t)
    ensures Resolution(TemplateEvent(st, t, listed), spec) == Resolution(st, spec)
  {
  }

  lemma TemplateEventKeepsDone(st: State, t: string, listed: bool, name: string, base: Server, config: ServerConfig,
                               todo: nat)
    ensures DoneUpTo(TemplateEvent(st, t, listed), name, base, config, todo) == DoneUpTo(st, name, base, config, todo)
  {
    var st' := TemplateEvent(st, t, listed);
    forall i | 0 <= i < todo && i < |KINDS|
      ensures KindDone(st', name, base, config, KINDS[i]) == KindDone(st, name, base, config, KINDS[i])
    {
    }
  }

  /** Whoever refers to the template is queued if the listing succeeds; for the others it makes no difference. */
  lemma TemplateEventCovers(st: State, t: string, listed: bool, name: string)
    requires Covered(st, name) && (Uses(st, name, t) ==> listed)
    ensures Covered(TemplateEvent(st, t, listed), name)
  {
    var st' := TemplateEvent(st, t, listed);
    var cached := Srv(st, name).cached;
    assert forall k :: Kid(st', k, name) == Kid(st, k, name);
    if Uses(st, name, t) || name in st.queue || OnItsWay(st, name) {
      assert Uses(st, name, t) ==> name in Users(st, t);
    } else if Busy(st.worker, name) {
      var w := st.worker;
      if w.Applying? || w.Writing? || w.Reporting? || w.Saving? {
        OtherTemplate(st, t, listed, w.base.spec);
        TemplateEventKeepsDone(st, t, listed, name, w.base, w.config,
                               if w.Applying? || w.Writing? then w.todo else |KINDS|);
      }
    } else if cached.Some? && !cached.value.deleting {
      OtherTemplate(st, t, listed, cached.value.spec);
      TemplateEventKeepsDone(st, t, listed, name, cached.value, Resolution(st, cached.value.spec).value, |KINDS|);
    }
  }

  lemma RestartCovers(st: State, name: string)
    ensures Covered(Restarted(st), name)
  {
  }

  // ---- The worker ----

  /** A report that changes nothing leaves nothing to report. */
  lemma NothingToReport(s: Server, deployment: Option<Child>, players: Option<int>)
    requires s.status == Report(s, deployment, players)
    ensures s.status == Report(s, deployment, None)
  {
  }

  lemma ChangedQuiet(st: State, n: string, e: Effect, name: string)
    ensures var st' := Changed(st, n, e);
            SameView(st, st', name) && StillOnItsWay(st, st', name)
  {
    match e
    case Nothing =>
    case ToServer(s) => WriteServerQuiet(st, n, s, name);
    case ToChild(kind, c) => WriteChildQuiet(st, kind, n, Some(c), name);
  }

  lemma OnlyWorkerMoves(st: State, queue: set<string>, worker: Worker, name: string)
    ensures var st' := st.(worker := worker, queue := queue);
            SameView(st, st', name) && (OnItsWay(st', name) == OnItsWay(st, name))
  {
    var st' := st.(worker := worker, queue := queue);
    assert forall k :: Kid(st', k, name) == Kid(st, k, name);
  }

  /** A step stays with the name it works on. */
  lemma SameName(st: State, ok: bool, players: Option<int>)
    requires !st.worker.Idle?
    ensures var next := OutcomeOf(st, ok, players).next; next.Idle? || next.name == st.worker.name
  {
  }

  lemma ConcludedQuiet(st: State, n: string, o: Outcome, name: string)
    requires Covered(st, name) && n != name && Busy(st.worker, n) && (o.next.Idle? || o.next.name == n)
    ensures Covered(Concluded(st, n, o), name)
  {
    var st' := Concluded(st, n, o);
    var mid := Changed(st, n, o.effect);
    ChangedQuiet(st, n, o.effect, name);
    OnlyWorkerMoves(mid, st'.queue, st'.worker, name);
    QuietStep(st, st', name);
  }

  lemma OthersCovered(st: State, ok: bool, players: Option<int>, name: string)
    requires Covered(st, name) && !st.worker.Idle? && st.worker.name != name
    ensures Covered(WorkStep(st, ok, players), name)
  {
    SameName(st, ok, players);
    ConcludedQuiet(st, st.worker.name, OutcomeOf(st, ok, players), name);
  }

  /** The next child is already as wanted, or not wanted. */
  lemma OneMoreDone(st: State, name: string, base: Server, config: ServerConfig, todo: nat)
    requires todo < |KINDS| && OnTrack(st, name, base, config, todo)
    requires KindDone(st, name, base, config, KINDS[todo])
    ensures OnTrack(st, name, base, config, todo + 1)
  {
    forall i | 0 <= i < todo + 1 && i < |KINDS| ensures KindDone(st, name, base, config, KINDS[i]) {
      assert i < todo ==> KindDone(st, name, base, config, KINDS[i]);
    }
  }

  lemma AppliedGood(st: State, ok: bool, players: Option<int>)
    requires st.worker.Applying? && Good(st, st.worker)
    ensures var o := OutcomeOf(st, ok, players);
            o.effect == Nothing && (o.requeue || (Good(st, o.next) && !o.next.Idle?))
  {
    var w := st.worker;
    if w.todo < |KINDS| && OutcomeOf(st, ok, players).next.Applying? {
      OneMoreDone(st, w.name, w.base, w.config, w.todo);
    } else if w.todo >= |KINDS| {
      forall i | 0 <= i < |KINDS| ensures KindDone(st, w.name, w.base, w.config, KINDS[i]) {
      }
    }
  }

  /** Steps that write nothing. */
  lemma ReadGood(st: State, ok: bool, players: Option<int>)
    requires !st.worker.Idle? && Good(st, st.worker) && OutcomeOf(st, ok, players).effect == Nothing
    requires !OutcomeOf(st, ok, players).requeue
    ensures var next := OutcomeOf(st, ok, players).next;
            if next.Idle? then Settled(st, st.worker.name) else Good(st, next)
  {
    if st.worker.Applying? {
      AppliedGood(st, ok, players);
    }
  }

  lemma WroteServer(st: State, ok: bool, players: Option<int>)
    requires !st.worker.Idle? && Good(st, st.worker)
    requires OutcomeOf(st, ok, players).effect.ToServer? && !OutcomeOf(st, ok, players).requeue
    ensures var v, name := OutcomeOf(st, ok, players).effect.server, st.worker.name;
            OutcomeOf(st, ok, players).next.Idle? && (v == Stored(Srv(st, name)) ==> Settled(st, name))
  {
    var w := st.worker;
    if w.Saving? {
      if w.base.status == Report(w.base, w.deployment, w.players) {
        NothingToReport(w.base, w.deployment, w.players);
      }
    }
  }

  /** The version written belongs to the server, so its event will be mapped to it. */
  lemma WroteChild(st: State, kind: Kind, name: string, c: Child)
    requires Stored(Kid(st, kind, name)) != Some(c) && c.owner.OwnedBy?
    ensures OnItsWay(WriteChild(st, kind, name, Some(c)), name)
  {
    var cell := Kid(WriteChild(st, kind, name, Some(c)), kind, name);
    assert Owned(cell.pending[|cell.pending| - 1]);
    assert WillTell(cell);
  }

  lemma OwnCovered(st: State, ok: bool, players: Option<int>)
    requires !st.worker.Idle? && Coherent(st) && Covered(st, st.worker.name)
    ensures Covered(WorkStep(st, ok, players), st.worker.name)
  {
    var name, o := st.worker.name, OutcomeOf(st, ok, players);
    var mid, st' := Changed(st, name, o.effect), WorkStep(st, ok, players);
    SameName(st, ok, players);
    ChangedQuiet(st, name, o.effect, name);
    OnlyWorkerMoves(mid, st'.queue, st'.worker, name);
    if o.requeue || name in st.queue || OnItsWay(st, name) {
    } else if o.effect.Nothing? {
      ReadGood(st, ok, players);
      ViewKeepsSettled(st, st', name);
      ViewKeepsGood(st, st', o.next);
    } else if o.effect.ToServer? {
      WroteServer(st, ok, players);
      ViewKeepsSettled(st, st', name);
    } else {
      WroteChild(st, o.effect.kind, name, o.effect.child);
    }
  }

  lemma StaysCoherent(st: State, a: Action)
    requires Coherent(st)
    ensures Coherent(Step(st, a))
  {
    match a {
      case Work(ok, players) => WorkCoherent(st, ok, players);
      case DeliverServer(n) => ServerEventKeeps(st, n, n);
      case DeliverTemplate(t, listed) => TemplateEventKeeps(st, t, listed);
      case DeliverChild(kind, n) => ChildEventKeeps(st, kind, n, n);
      case WorkTemplate(ok, listing) => TemplateWorkKeeps(st, ok, listing);
      case PutServer(_, _, _, _, _) =>
      case DeleteServer(_) =>
      case PutTemplate(_, _) =>
      case DeleteTemplate(_) =>
      case PutChild(_, _, _) =>
      case Restart =>
      case _ => QueueingKeeps(st, a);
    }
  }

  lemma WorkCoherent(st: State, ok: bool, players: Option<int>)
    requires Coherent(st)
    ensures Coherent(WorkStep(st, ok, players))
  {
  }

  // ---- Every step ----

  lemma TemplateWorkCovers(st: State, ok: bool, listing: seq<string>, name: string)
    requires Covered(st, name)
    ensures Covered(WorkTemplateStep(st, ok, listing), name)
  {
    TemplateWorkKeeps(st, ok, listing);
    QuietStep(st, WorkTemplateStep(st, ok, listing), name);
  }

  lemma EnvironmentCovers(st: State, a: Action, name: string)
    requires Covered(st, name)
    requires a.PutServer? || a.DeleteServer? || a.PutTemplate? || a.DeleteTemplate? || a.PutChild?
    ensures Covered(Step(st, a), name)
  {
    var st' := Step(st, a);
    match a {
      case PutServer(n, uid, spec, finalizer, foreign) =>
        WriteServerQuiet(st, n, Edited(Stored(Srv(st, n)), uid, spec, finalizer, foreign), name);
      case DeleteServer(n) => WriteServerQuiet(st, n, Marked(Stored(Srv(st, n))), name);
      case PutTemplate(t, config) =>
        WriteTemplateQuiet(st, t, Some(EditedTemplate(Stored(Tpl(st, t)), config)), name);
      case DeleteTemplate(t) => WriteTemplateQuiet(st, t, None, name);
      case PutChild(k, n, c) => WriteChildQuiet(st, k, n, c, name);
    }
    QuietStep(st, st', name);
  }

  lemma QueueStepCovers(st: State, a: Action, name: string)
    requires Covered(st, name) && Queueing(a)
    ensures Covered(Step(st, a), name)
  {
    var st' := Step(st, a);
    QueueingKeeps(st, a);
    if !(a.Take? && a.name == name && st.worker.Idle?) {
      StaysQueued(st, a, name);
      QuietStep(st, st', name);
    }
  }

  lemma StaysQueued(st: State, a: Action, name: string)
    requires Queueing(a) && !(a.Take? && a.name == name && st.worker.Idle?)
    ensures var st' := Step(st, a);
            && (name in st.queue ==> name in st'.queue)
            && Busy(st'.worker, name) == Busy(st.worker, name) && (Busy(st.worker, name) ==> st'.worker == st.worker)
  {
  }

  /** The step does not lose an event of the template that the server uses. */
  predicate Told(st: State, a: Action, name: string) {
    a.DeliverTemplate? && Uses(st, name, a.name) ==> a.listed
  }

  predicate AllTold(st: State, actions: seq<Action>, name: string)
    decreases |actions|
  {
    |actions| == 0 || (Told(st, actions[0], name) && AllTold(Step(st, actions[0]), actions[1..], name))
  }

  lemma StepCovers(st: State, a: Action, name: string)
    requires Coherent(st) && Covered(st, name) && Told(st, a, name)
    ensures Covered(Step(st, a), name)
  {
    match a
    case Restart => RestartCovers(st, name);
    case DeliverServer(n) => ServerEventCovers(st, n, name);
    case DeliverTemplate(t, listed) => TemplateEventCovers(st, t, listed, name);
    case DeliverChild(k, n) => ChildEventCovers(st, k, n, name);
    case Work(ok, players) =>
      if !st.worker.Idle? && st.worker.name == name {
        OwnCovered(st, ok, players);
      } else if !st.worker.Idle? {
        OthersCovered(st, ok, players, name);
      }
    case WorkTemplate(ok, listing) => TemplateWorkCovers(st, ok, listing, name);
    case Wake(_) => QueueStepCovers(st, a, name);
    case WakeTemplate(_) => QueueStepCovers(st, a, name);
    case Take(_) => QueueStepCovers(st, a, name);
    case TakeTemplate(_) => QueueStepCovers(st, a, name);
    case _ => EnvironmentCovers(st, a, name);
  }

  lemma {:induction false} RunKeeps(st: State, actions: seq<Action>, name: string)
    requires Coherent(st) && Covered(st, name) && AllTold(st, actions, name)
    ensures Coherent(Run(st, actions)) && Covered(Run(st, actions), name)
    decreases |actions|
  {
    if |actions| > 0 {
      StaysCoherent(st, actions[0]);
      StepCovers(st, actions[0], name);
      RunKeeps(Step(st, actions[0]), actions[1..], name);
    }
  }

  /**
   Convergence, over every run: however API calls, failures, users, drift and event delivery
   interleave, no server is left behind, unless the handler of an event of the very template that
   the server uses has failed to list the template's users.
   */
  lemma NothingForgotten(world: World, actions: seq<Action>, name: string)
    requires AllTold(Init(world), actions, name)
    ensures Covered(Run(Init(world), actions), name)
  {
    RunKeeps(Init(world), actions, name);
  }
}
