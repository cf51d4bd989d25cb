/**
 Status consistency: whatever path a reconcile takes, every status that is ever persisted for a
 server makes sense by itself.
 */
module OperatorStatus {
  import opened Wrappers
  import opened Operator

  // ---- Conditions ----

  function Find(conditions: seq<Condition>, kind: ConditionType): Option<Condition> {
    if |conditions| == 0 then None
    else if conditions[0].kind == kind then Some(conditions[0])
    else Find(conditions[1..], kind)
  }

  predicate OnePerType(conditions: seq<Condition>) {
    forall i, j :: 0 <= i < j < |conditions| ==> conditions[i].kind != conditions[j].kind
  }

  predicate IsTrue(s: Status, kind: ConditionType) {
    var c := Find(s.conditions, kind);
    c.Some? && c.value.status
  }

  /** Setting a condition makes it the one of its type and leaves the others. */
  lemma {:induction false} SetThenFind(conditions: seq<Condition>, c: Condition, kind: ConditionType)
    ensures Find(SetCondition(conditions, c), kind) == if kind == c.kind then Some(c) else Find(conditions, kind)
  {
    if |conditions| > 0 && conditions[0].kind == c.kind {
      assert ([c] + conditions[1..])[1..] == conditions[1..];
    } else if |conditions| > 0 {
      SetThenFind(conditions[1..], c, kind);
      assert SetCondition(conditions, c)[1..] == SetCondition(conditions[1..], c);
    }
  }

  lemma {:induction false} FindSome(conditions: seq<Condition>, i: nat)
    requires i < |conditions|
    ensures Find(conditions, conditions[i].kind).Some?
  {
    if i > 0 {
      FindSome(conditions[1..], i - 1);
    }
  }

  lemma {:induction false} FindNone(conditions: seq<Condition>, kind: ConditionType)
    requires Find(conditions, kind).None?
    ensures forall i :: 0 <= i < |conditions| ==> conditions[i].kind != kind
  {
    forall i | 0 <= i < |conditions| ensures conditions[i].kind != kind {
      FindSome(conditions, i);
    }
  }

  lemma {:induction false} SetKeepsOnePerType(conditions: seq<Condition>, c: Condition)
    requires OnePerType(conditions)
    ensures OnePerType(SetCondition(conditions, c))
  {
    if |conditions| > 0 && conditions[0].kind != c.kind {
      var rest := SetCondition(conditions[1..], c);
      SetKeepsOnePerType(conditions[1..], c);
      forall i | 0 <= i < |conditions[1..]| ensures conditions[1..][i].kind != conditions[0].kind {
      }
      NotAmong(conditions[1..], conditions[0].kind);
      SetThenFind(conditions[1..], c, conditions[0].kind);
      FindNone(rest, conditions[0].kind);
    }
  }

  lemma {:induction false} NotAmong(conditions: seq<Condition>, kind: ConditionType)
    requires forall i :: 0 <= i < |conditions| ==> conditions[i].kind != kind
    ensures Find(conditions, kind).None?
  {
    if |conditions| > 0 {
      NotAmong(conditions[1..], kind);
    }
  }

  // ---- Consistency of one status ----

  predicate Consistent(s: Status) {
    && (s.ready <==> IsTrue(s, Ready))
    && (!s.ready ==> s.players == 0)
    && (IsTrue(s, Paused) ==> !s.ready)
    && OnePerType(s.conditions)
  }

  lemma WithSets(s: Status, kind: ConditionType, status: bool, reason: Reason, other: ConditionType)
    requires OnePerType(s.conditions)
    ensures var s' := With(s, kind, status, reason);
            OnePerType(s'.conditions) && (IsTrue(s', other) <==> if other == kind then status else IsTrue(s, other))
  {
    SetThenFind(s.conditions, Condition(kind, status, reason), other);
    SetKeepsOnePerType(s.conditions, Condition(kind, status, reason));
  }

  lemma ResolveConsistent(s: Server)
    requires Consistent(s.status)
    ensures Consistent(AfterResolve(s)) && Consistent(AfterReject(s))
  {
    WithSets(s.status, TemplateResolved, true, TemplateFound, Ready);
    WithSets(s.status, TemplateResolved, true, TemplateFound, Paused);
    WithSets(s.status, TemplateResolved, false, ResolutionFailed, Ready);
    WithSets(s.status, TemplateResolved, false, ResolutionFailed, Paused);
  }

  /** The Ready condition is set to the flag, and a paused server is never ready. */
  lemma ReadyConsistent(s: Status, paused: bool, deployment: Option<Child>, players: Option<int>)
    requires OnePerType(s.conditions) && (IsTrue(s, Paused) <==> paused)
    ensures Consistent(ReadyStatus(s, paused, deployment, players))
  {
    var ready := ReadyStatus(s, paused, deployment, players).ready;
    var count := ReadyStatus(s, paused, deployment, players).players;
    var s0 := s.(ready := ready, players := count);
    var reason := if deployment.None? then DeploymentNotFound else if paused then ServerPaused
                  else if ready then ServerReady else ServerNotReady;
    assert ReadyStatus(s, paused, deployment, players) == With(s0, Ready, ready, reason);
    WithSets(s0, Ready, ready, reason, Ready);
    WithSets(s0, Ready, ready, reason, Paused);
  }

  lemma ReportConsistent(s: Server, deployment: Option<Child>, players: Option<int>)
    requires Consistent(s.status)
    ensures Consistent(Report(s, deployment, players))
  {
    var paused := s.spec.paused;
    var resolved := AfterResolve(s);
    ResolveConsistent(s);
    WithSets(resolved, Paused, paused, if paused then ServerPaused else ServerRunning, Paused);
    ReadyConsistent(PausedStatus(resolved, paused), paused, deployment, players);
  }

  // ---- What a report says ----

  /** A server is ready when its Deployment has a ready replica and it is not paused. */
  predicate Running(s: Server, deployment: Option<Child>) {
    deployment.Some? && deployment.value.ready > 0 && !s.spec.paused
  }

  /** A player count that was queried is reported, else the old one stays; a server that is not ready has none. */
  predicate CountsPlayers(s: Server, deployment: Option<Child>, players: Option<int>, r: Status) {
    && (Running(s, deployment) && players.Some? ==> r.players == players.value)
    && (Running(s, deployment) && players.None? ==> r.players == s.status.players)
    && (!Running(s, deployment) ==> r.players == 0)
  }

  /** The three conditions with their reasons; TemplateResolved is left alone without a template. */
  predicate NamesConditions(s: Server, deployment: Option<Child>, r: Status) {
    && Find(r.conditions, Paused)
       == Some(Condition(Paused, s.spec.paused, if s.spec.paused then ServerPaused else ServerRunning))
    && Find(r.conditions, Ready)
       == Some(Condition(Ready, Running(s, deployment),
                         if deployment.None? then DeploymentNotFound else if s.spec.paused then ServerPaused
                         else if deployment.value.ready > 0 then ServerReady else ServerNotReady))
    && Find(r.conditions, TemplateResolved)
       == (if s.spec.templateRef.Some? then Some(Condition(TemplateResolved, true, TemplateFound))
           else Find(s.status.conditions, TemplateResolved))
  }

  /** All that a report says, in terms of the specification, the Deployment and the answer to the query. */
  predicate Says(s: Server, deployment: Option<Child>, players: Option<int>, r: Status) {
    && (r.ready <==> Running(s, deployment)) && CountsPlayers(s, deployment, players, r)
    && NamesConditions(s, deployment, r)
    && r.templateRef == s.spec.templateRef.GetOr(s.status.templateRef)
    && r.endpoint == (if s.spec.gateway.Some? && s.spec.gateway.value.hostname != ""
                      then Some(s.spec.gateway.value.hostname) else s.status.endpoint)
    && r.gamePort == 27960
  }

  lemma ReadyCondition(s: Status, paused: bool, deployment: Option<Child>, players: Option<int>)
    returns (c: Condition)
    ensures ReadyStatus(s, paused, deployment, players).conditions == SetCondition(s.conditions, c)
    ensures c == Condition(Ready, deployment.Some? && deployment.value.ready > 0 && !paused,
                           if deployment.None? then DeploymentNotFound else if paused then ServerPaused
                           else if deployment.value.ready > 0 then ServerReady else ServerNotReady)
  {
    c := Condition(Ready, deployment.Some? && deployment.value.ready > 0 && !paused,
                   if deployment.None? then DeploymentNotFound else if paused then ServerPaused
                   else if deployment.value.ready > 0 then ServerReady else ServerNotReady);
  }

  lemma ReportNames(s: Server, deployment: Option<Child>, players: Option<int>)
    ensures NamesConditions(s, deployment, Report(s, deployment, players))
  {
    var a := AfterResolve(s);
    var b := PausedStatus(a, s.spec.paused);
    var p := Condition(Paused, s.spec.paused, if s.spec.paused then ServerPaused else ServerRunning);
    var r := ReadyCondition(b, s.spec.paused, deployment, players);
    SetThenFind(a.conditions, p, TemplateResolved);
    SetThenFind(a.conditions, p, Paused);
    SetThenFind(b.conditions, r, TemplateResolved);
    SetThenFind(b.conditions, r, Paused);
    SetThenFind(b.conditions, r, Ready);
    SetThenFind(s.status.conditions, Condition(TemplateResolved, true, TemplateFound), TemplateResolved);
  }

  /** A report says how things are, field by field. */
  lemma ReportSays(s: Server, deployment: Option<Child>, players: Option<int>)
    ensures Says(s, deployment, players, Report(s, deployment, players))
  {
    ReportNames(s, deployment, players);
  }

  /** What a reconcile saves at its end says how things were when it read them, and changes nothing else. */
  lemma SavedSays(st: State, ok: bool, players: Option<int>)
    requires st.worker.Saving? && OutcomeOf(st, ok, players).effect.ToServer?
    ensures var w, saved := st.worker, OutcomeOf(st, ok, players).effect.server;
            && saved.Some? && saved.value == w.base.(status := saved.value.status)
            && Says(w.base, w.deployment, w.players, saved.value.status)
  {
    ReportSays(st.worker.base, st.worker.deployment, st.worker.players);
  }

  lemma ReportingReads(st: State, players: Option<int>)
    requires st.worker.Reporting?
    ensures var w := st.worker;
            WorkStep(st, true, players)
            == st.(worker := Saving(w.name, w.base, w.config, Kid(st, Deployments, w.name).cached, players))
  {
  }

  lemma SavingStores(st: State, players: Option<int>)
    requires st.worker.Saving? && Stored(Srv(st, st.worker.name)) == Some(st.worker.base)
    ensures var w := st.worker;
            Stored(Srv(WorkStep(st, true, players), w.name))
            == Some(w.base.(status := Report(w.base, w.deployment, w.players)))
  {
  }

  /** The last two calls of a reconcile: what the Deployment shows and the query answers is what is stored. */
  lemma ReportIsStored(st: State, players: Option<int>, later: Option<int>)
    requires st.worker.Reporting? && Stored(Srv(st, st.worker.name)) == Some(st.worker.base)
    ensures var name, base := st.worker.name, st.worker.base;
            var saved := Stored(Srv(WorkStep(WorkStep(st, true, players), true, later), name));
            && saved.Some? && saved.value == base.(status := saved.value.status)
            && Says(base, Kid(st, Deployments, name).cached, players, saved.value.status)
  {
    ReportSays(st.worker.base, Kid(st, Deployments, st.worker.name).cached, players);
    ReportingReads(st, players);
    SavingStores(WorkStep(st, true, players), later);
  }

  /** A template that cannot be resolved shows in the one condition, and the request is queued again. */
  lemma RejectSays(st: State, ok: bool, players: Option<int>)
    requires st.worker.Rejecting? && OutcomeOf(st, ok, players).effect.ToServer?
    ensures var o, base := OutcomeOf(st, ok, players), st.worker.base;
            && o.requeue && o.effect.server.Some?
            && var r := o.effect.server.value.status;
               && o.effect.server.value == base.(status := base.status.(conditions := r.conditions))
               && Find(r.conditions, TemplateResolved) == Some(Condition(TemplateResolved, false, ResolutionFailed))
               && Find(r.conditions, Ready) == Find(base.status.conditions, Ready)
               && Find(r.conditions, Paused) == Find(base.status.conditions, Paused)
  {
    var conditions, c := st.worker.base.status.conditions, Condition(TemplateResolved, false, ResolutionFailed);
    SetThenFind(conditions, c, TemplateResolved);
    SetThenFind(conditions, c, Ready);
    SetThenFind(conditions, c, Paused);
  }

  // ---- Over every run ----

  predicate VersionConsistent(s: Option<Server>) { s.Some? ==> Consistent(s.value.status) }

  predicate HistoryConsistent(c: Cell<Server>) {
    VersionConsistent(c.cached) && forall i :: 0 <= i < |c.pending| ==> VersionConsistent(c.pending[i])
  }

  predicate Holds(w: Worker) { !w.Idle? && !w.Popped? }

  /** All versions of the server, delivered or not, and the worker's snapshot of it. */
  predicate AllConsistent(st: State, name: string) {
    && HistoryConsistent(Srv(st, name))
    && (Holds(st.worker) && st.worker.name == name ==> Consistent(st.worker.base.status))
  }

  lemma StoredConsistent(c: Cell<Server>)
    requires HistoryConsistent(c)
    ensures VersionConsistent(Stored(c))
  {
  }

  lemma WriteConsistent(st: State, n: string, s: Option<Server>, name: string)
    requires AllConsistent(st, name) && (n == name ==> VersionConsistent(s))
    ensures AllConsistent(WriteServer(st, n, s), name)
  {
  }

  /** What a step of the controller writes, and what it keeps in hand. */
  lemma OutcomeConsistent(st: State, ok: bool, players: Option<int>)
    requires !st.worker.Idle? && AllConsistent(st, st.worker.name)
    ensures var o := OutcomeOf(st, ok, players);
            && (o.effect.ToServer? ==> VersionConsistent(o.effect.server))
            && (Holds(o.next) ==> o.next.name == st.worker.name && Consistent(o.next.base.status))
  {
    var w := st.worker;
    if w.Rejecting? {
      ResolveConsistent(w.base);
    } else if w.Saving? {
      ReportConsistent(w.base, w.deployment, w.players);
    }
  }

  lemma WorkConsistent(st: State, ok: bool, players: Option<int>, name: string)
    requires AllConsistent(st, name)
    ensures AllConsistent(WorkStep(st, ok, players), name)
  {
    if !st.worker.Idle? {
      var o, n := OutcomeOf(st, ok, players), st.worker.name;
      if n == name {
        OutcomeConsistent(st, ok, players);
      } else {
        assert Holds(o.next) ==> o.next.name == n;
      }
      ConcludedConsistent(st, n, o, name);
    }
  }

  lemma ConcludedConsistent(st: State, n: string, o: Outcome, name: string)
    requires AllConsistent(st, name) && (Holds(o.next) ==> o.next.name == n)
    requires n == name && o.effect.ToServer? ==> VersionConsistent(o.effect.server)
    requires n == name && Holds(o.next) ==> Consistent(o.next.base.status)
    ensures AllConsistent(Concluded(st, n, o), name)
  {
  }

  lemma StepConsistent(st: State, a: Action, name: string)
    requires AllConsistent(st, name)
    ensures AllConsistent(Step(st, a), name)
  {
    match a {
      case PutServer(n, uid, spec, finalizer, foreign) =>
        StoredConsistent(Srv(st, name));
        WriteConsistent(st, n, Edited(Stored(Srv(st, n)), uid, spec, finalizer, foreign), name);
      case DeleteServer(n) =>
        StoredConsistent(Srv(st, name));
        WriteConsistent(st, n, Marked(Stored(Srv(st, n))), name);
      case Restart => RestartConsistent(st, name);
      case Work(ok, players) => WorkConsistent(st, ok, players, name);
      case DeliverServer(n) => DeliveryConsistent(st, n, name);
      case DeliverTemplate(t, listed) => TemplateEventKeeps(st, t, listed);
      case DeliverChild(kind, n) => ChildEventKeeps(st, kind, n, name);
      case WorkTemplate(ok, listing) => TemplateWorkKeeps(st, ok, listing);
      case PutTemplate(_, _) =>
      case DeleteTemplate(_) =>
      case PutChild(_, _, _) =>
      case _ => QueueingKeeps(st, a);
    }
  }

  lemma DeliveryConsistent(st: State, n: string, name: string)
    requires AllConsistent(st, name)
    ensures AllConsistent(ServerEvent(st, n), name)
  {
  }

  lemma RestartConsistent(st: State, name: string)
    requires AllConsistent(st, name)
    ensures AllConsistent(Restarted(st), name)
  {
    StoredConsistent(Srv(st, name));
  }

  lemma {:induction false} RunConsistent(st: State, actions: seq<Action>, name: string)
    requires AllConsistent(st, name)
    ensures AllConsistent(Run(st, actions), name)
    decreases |actions|
  {
    if |actions| > 0 {
      StepConsistent(st, actions[0], name);
      RunConsistent(Step(st, actions[0]), actions[1..], name);
    }
  }

  /**
   In every run, every persisted status of a server is consistent: its Ready flag and its Ready
   condition agree, a server that is not ready has no players, a paused one is not ready, and no
   condition type occurs twice.
   */
  lemma StatusMakesSense(world: World, actions: seq<Action>, name: string)
    ensures VersionConsistent(Stored(Srv(Run(Init(world), actions), name)))
    ensures VersionConsistent(Srv(Run(Init(world), actions), name).cached)
  {
    RunConsistent(Init(world), actions, name);
    StoredConsistent(Srv(Run(Init(world), actions), name));
  }
}
