/**
 The operator does not keep itself busy. While the users and the cluster leave a server alone, the
 reconciles that the controller's own writes trigger change its objects only a bounded number of
 times, in every interleaving with deliveries, conflicts and failures; and none at all once the
 server is in order.
 */
module OperatorWrites {
  import opened Wrappers
  import opened ConfigSpec
  import opened Operator
  import opened OperatorStatus
  import OperatorSettling

  // ---- A server that is left alone ----

  /** What all versions of the server and of its template agree on, and the answer to every player query. */
  datatype Demand = Demand(uid: nat, spec: ServerSpec, template: Option<ServerConfig>, players: Option<int>)

  function ConfigOf(w: World, d: Demand): ServerConfig { w.merge(d.spec.config, d.template) }

  predicate Asks(s: Option<Server>, d: Demand) {
    s.Some? && s.value.uid == d.uid && s.value.spec == d.spec && !s.value.deleting
  }

  predicate Offers(t: Option<Template>, d: Demand) { t.Some? && t.value.config == d.template }

  predicate ServerCalm(c: Cell<Server>, d: Demand) {
    Asks(c.cached, d) && forall i :: 0 <= i < |c.pending| ==> Asks(c.pending[i], d)
  }

  predicate TemplateCalm(c: Cell<Template>, d: Demand) {
    Offers(c.cached, d) && forall i :: 0 <= i < |c.pending| ==> Offers(c.pending[i], d)
  }

  /** What the worker holds agrees with the demand, when it holds this server. */
  predicate WorkerCalm(w: World, worker: Worker, name: string, d: Demand) {
    (Holds(worker) && worker.name == name) ==>
      && Asks(Some(worker.base), d) && !worker.Finalizing? && !worker.Rejecting?
      && (worker.Adopting? ==> !worker.base.finalizer)
      && (worker.Applying? || worker.Writing? || worker.Reporting? || worker.Saving? ==>
            worker.config == ConfigOf(w, d))
      && (worker.Writing? ==>
            && worker.todo < |KINDS| && Wanted(w, d.spec, ConfigOf(w, d), KINDS[worker.todo]) == Some(worker.body)
            && worker.seen != Some(Adjusted(worker.seen, d.uid, worker.body)))
      && (worker.Saving? ==> worker.players == d.players)
  }

  predicate Calm(st: State, name: string, d: Demand) {
    && ServerCalm(Srv(st, name), d)
    && (if d.spec.templateRef.Some? then TemplateCalm(Tpl(st, d.spec.templateRef.value), d) else d.template.None?)
    && WorkerCalm(st.world, st.worker, name, d)
  }

  /**
   The steps of the system itself: no user, no drift. The player query has a fixed answer, and the
   template can be read from the cache; every other call may fail.
   */
  predicate Internal(st: State, a: Action, d: Demand) {
    || a.DeliverServer? || a.DeliverTemplate? || a.DeliverChild? || a.Take? || a.TakeTemplate? || a.WorkTemplate?
    || a.Wake? || a.WakeTemplate?
    || (a.Work? && a.players == d.players && (st.worker.Resolving? ==> a.ok))
  }

  // ---- Being calm lasts ----

  lemma CalmResolution(st: State, name: string, d: Demand)
    requires Calm(st, name, d)
    ensures Resolution(st, d.spec) == Some(ConfigOf(st.world, d))
  {
  }

  lemma ApplyCalm(st: State, name: string, d: Demand, ok: bool)
    requires Calm(st, name, d) && st.worker.Applying? && st.worker.name == name && st.worker.todo < |KINDS|
    ensures var o := OutcomeOf(st, ok, d.players); WorkerCalm(st.world, o.next, name, d) && o.effect.Nothing?
  {
    assert st.worker.base.spec == d.spec && st.worker.config == ConfigOf(st.world, d);
  }

  lemma OutcomeCalm(st: State, name: string, d: Demand, ok: bool)
    requires Calm(st, name, d) && !st.worker.Idle? && st.worker.name == name && (st.worker.Resolving? ==> ok)
    ensures var o := OutcomeOf(st, ok, d.players);
            WorkerCalm(st.world, o.next, name, d) && (o.effect.ToServer? ==> Asks(o.effect.server, d))
  {
    if st.worker.Applying? && st.worker.todo < |KINDS| {
      ApplyCalm(st, name, d, ok);
    } else {
      CalmResolution(st, name, d);
    }
  }

  lemma StoredAsks(c: Cell<Template>, d: Demand)
    requires TemplateCalm(c, d)
    ensures Offers(Stored(c), d)
  {
  }

  lemma ConcludedCalm(st: State, n: string, o: Outcome, name: string, d: Demand)
    requires Calm(st, name, d) && (o.next.Idle? || o.next.name == n)
    requires n == name ==> WorkerCalm(st.world, o.next, name, d) && (o.effect.ToServer? ==> Asks(o.effect.server, d))
    ensures Calm(Concluded(st, n, o), name, d)
  {
  }

  lemma TemplateWorkCalm(st: State, ok: bool, listing: seq<string>, name: string, d: Demand)
    requires Calm(st, name, d)
    ensures Calm(WorkTemplateStep(st, ok, listing), name, d)
  {
    if d.spec.templateRef.Some? {
      StoredAsks(Tpl(st, d.spec.templateRef.value), d);
    }
  }

  /** A delivery takes the next version into the cache. */
  lemma DeliveryCalm(st: State, a: Action, name: string, d: Demand)
    requires Calm(st, name, d) && (a.DeliverServer? || a.DeliverTemplate?)
    ensures Calm(Step(st, a), name, d)
  {
  }

  lemma SameObjectsCalm(st: State, st': State, name: string, d: Demand)
    requires Calm(st, name, d) && st'.world == st.world && st'.servers == st.servers && st'.templates == st.templates
    requires st'.worker == st.worker || st'.worker.Popped?
    ensures Calm(st', name, d)
  {
  }

  lemma WorkCalm(st: State, ok: bool, name: string, d: Demand)
    requires Calm(st, name, d) && (st.worker.Resolving? ==> ok)
    ensures Calm(WorkStep(st, ok, d.players), name, d)
  {
    if !st.worker.Idle? {
      var n, o := st.worker.name, OutcomeOf(st, ok, d.players);
      if n == name {
        OutcomeCalm(st, name, d, ok);
      }
      OutcomeStays(st, ok, d.players);
      ConcludedCalm(st, n, o, name, d);
    }
  }

  lemma OutcomeStays(st: State, ok: bool, players: Option<int>)
    requires !st.worker.Idle?
    ensures var next := OutcomeOf(st, ok, players).next; next.Idle? || next.name == st.worker.name
  {
  }

  lemma StaysCalm(st: State, a: Action, name: string, d: Demand)
    requires Calm(st, name, d) && Internal(st, a, d)
    ensures Calm(Step(st, a), name, d)
  {
    match a {
      case Work(ok, players) => WorkCalm(st, ok, name, d);
      case WorkTemplate(ok, listing) => TemplateWorkCalm(st, ok, listing, name, d);
      case DeliverServer(_) => DeliveryCalm(st, a, name, d);
      case DeliverTemplate(_, _) => DeliveryCalm(st, a, name, d);
      case DeliverChild(kind, n) =>
        ChildEventKeeps(st, kind, n, name);
        SameObjectsCalm(st, Step(st, a), name, d);
      case _ =>
        QueueingKeeps(st, a);
        SameObjectsCalm(st, Step(st, a), name, d);
    }
  }

  // ---- The potential: an upper bound on the writes still to come ----

  function Off(st: State, name: string, d: Demand, kind: Kind): nat {
    var body := Wanted(st.world, d.spec, ConfigOf(st.world, d), kind);
    if body.Some? && !Matches(Stored(Kid(st, kind, name)), d.uid, body.value) then 1 else 0
  }

  function ChildrenOff(st: State, name: string, d: Demand): nat {
    Off(st, name, d, ConfigMaps) + Off(st, name, d, Services) + Off(st, name, d, Deployments)
    + Off(st, name, d, HttpRoutes) + Off(st, name, d, UdpRoutes)
  }

  /** The stored status is not what the Deployment in the cache calls for. */
  function Unreported(s: Option<Server>, deployment: Option<Child>, players: Option<int>): nat {
    if s.Some? && s.value.status == Report(s.value, deployment, players) then 0 else 1
  }

  function Unadopted(s: Option<Server>): nat { if s.Some? && s.value.finalizer then 0 else 1 }

  /** The worker is about to save a status made from a Deployment that has changed since. */
  function Outdated(w: Worker, name: string, deployment: Option<Child>): nat {
    if w.Saving? && w.name == name && w.deployment != deployment then 2 else 0
  }

  function Potential(st: State, name: string, d: Demand): nat {
    var s, deployment := Stored(Srv(st, name)), Kid(st, Deployments, name);
    5 * ChildrenOff(st, name, d) + 4 * |deployment.pending|
    + Unreported(s, deployment.cached, d.players) + Outdated(st.worker, name, deployment.cached) + Unadopted(s)
  }

  /** A step in which the controller changes an object of this server. */
  predicate OwnWrite(st: State, a: Action, name: string) {
    a.Work? && !st.worker.Idle? && st.worker.name == name
    && match OutcomeOf(st, a.ok, a.players).effect
       case Nothing => false
       case ToServer(s) => s != Stored(Srv(st, name))
       case ToChild(kind, c) => Some(c) != Stored(Kid(st, kind, name))
  }

  // ---- Reports are stable ----

  lemma {:induction false} SetAgain(conditions: seq<Condition>, c: Condition)
    requires Find(conditions, c.kind) == Some(c)
    ensures SetCondition(conditions, c) == conditions
  {
    if conditions[0].kind != c.kind {
      SetAgain(conditions[1..], c);
    }
  }

  lemma WithAgain(s: Status, kind: ConditionType, status: bool, reason: Reason)
    requires Find(s.conditions, kind) == Some(Condition(kind, status, reason))
    ensures With(s, kind, status, reason) == s
  {
    SetAgain(s.conditions, Condition(kind, status, reason));
  }

  /** Reporting the same facts again changes nothing. */
  lemma ReportAgain(s: Server, deployment: Option<Child>, players: Option<int>)
    ensures var s' := s.(status := Report(s, deployment, players)); Report(s', deployment, players) == s'.status
  {
    var a := AfterResolve(s);
    var b := PausedStatus(a, s.spec.paused);
    var c := ReadyStatus(b, s.spec.paused, deployment, players);
    var e := EndpointStatus(c, s.spec.gateway);
    var s' := s.(status := e);
    var pausedReason := if s.spec.paused then ServerPaused else ServerRunning;
    var readyReason := if deployment.None? then DeploymentNotFound else if s.spec.paused then ServerPaused
                       else if c.ready then ServerReady else ServerNotReady;
    var p, r := Condition(Paused, s.spec.paused, pausedReason), Condition(Ready, c.ready, readyReason);
    assert b.conditions == SetCondition(a.conditions, p);
    assert c.conditions == SetCondition(b.conditions, r) && e.conditions == c.conditions;
    SetThenFind(a.conditions, p, TemplateResolved);
    SetThenFind(a.conditions, p, Paused);
    SetThenFind(b.conditions, r, TemplateResolved);
    SetThenFind(b.conditions, r, Paused);
    SetThenFind(b.conditions, r, Ready);
    if s.spec.templateRef.Some? {
      SetThenFind(s.status.conditions, Condition(TemplateResolved, true, TemplateFound), TemplateResolved);
      WithAgain(e, TemplateResolved, true, TemplateFound);
    }
    assert AfterResolve(s') == e;
    WithAgain(e, Paused, s.spec.paused, pausedReason);
    WithAgain(e, Ready, c.ready, readyReason);
  }

  // ---- Every step pays ----

  lemma StoredAfterWrite<V>(c: Cell<V>, v: Option<V>)
    ensures Stored(Write(c, v)) == v && Write(c, v).cached == c.cached
    ensures v != Stored(c) ==> |Write(c, v).pending| == |c.pending| + 1
    ensures v == Stored(c) ==> Write(c, v) == c
  {
  }

  /** The potential depends on these parts of the state only. */
  lemma SamePotential(st: State, st': State, name: string, d: Demand)
    requires st'.world == st.world && Stored(Srv(st', name)) == Stored(Srv(st, name))
    requires forall k :: Kid(st', k, name) == Kid(st, k, name)
    requires Outdated(st'.worker, name, Kid(st, Deployments, name).cached)
          <= Outdated(st.worker, name, Kid(st, Deployments, name).cached)
    ensures Potential(st', name, d) <= Potential(st, name, d)
  {
  }

  lemma SameStoreSameOff(st: State, st': State, name: string, d: Demand)
    requires st'.world == st.world && forall k :: Stored(Kid(st', k, name)) == Stored(Kid(st, k, name))
    ensures ChildrenOff(st', name, d) == ChildrenOff(st, name, d)
  {
  }

  lemma DeliveryPays(st: State, kind: Kind, n: string, name: string, d: Demand)
    ensures Potential(ChildEvent(st, kind, n), name, d) <= Potential(st, name, d)
  {
    var st' := ChildEvent(st, kind, n);
    var c, c' := Kid(st, Deployments, name), Kid(st', Deployments, name);
    ChildEventKeeps(st, kind, n, name);
    SameStoreSameOff(st, st', name, d);
    if kind != Deployments || n != name || |c.pending| == 0 {
      assert c' == c;
    } else {
      assert |c'.pending| == |c.pending| - 1;
    }
  }

  lemma AdoptingPays(st: State, name: string, base: Server, d: Demand)
    requires st.worker.Adopting? && st.worker.name == name && Stored(Srv(st, name)) == Some(base) && !base.finalizer
    ensures var st' := WriteServer(st, name, Some(base.(finalizer := true)))
                       .(worker := Idle, queue := st.queue + {name});
            Potential(st', name, d) < Potential(st, name, d)
  {
    var s := Some(base.(finalizer := true));
    var st' := WriteServer(st, name, s).(worker := Idle, queue := st.queue + {name});
    StoredAfterWrite(Srv(st, name), s);
    assert forall k :: Kid(st', k, name) == Kid(st, k, name);
    assert ChildrenOff(st', name, d) == ChildrenOff(st, name, d);
    assert Report(s.value, Kid(st, Deployments, name).cached, d.players)
        == Report(base, Kid(st, Deployments, name).cached, d.players);
  }

  /** Saving is paid for by a stored status that is off, or by the Deployment having changed meanwhile. */
  lemma SavingPays(st: State, name: string, d: Demand)
    requires st.worker.Saving? && st.worker.name == name && st.worker.players == d.players
    requires Stored(Srv(st, name)) == Some(st.worker.base)
    ensures var base := st.worker.base;
            var s := Some(base.(status := Report(base, st.worker.deployment, d.players)));
            var st' := WriteServer(st, name, s).(worker := Idle);
            && Potential(st', name, d) <= Potential(st, name, d)
            && (s != Some(base) ==> Potential(st', name, d) < Potential(st, name, d))
  {
    var base, deployment, cached := st.worker.base, st.worker.deployment, Kid(st, Deployments, name).cached;
    var s := Some(base.(status := Report(base, deployment, d.players)));
    var st' := WriteServer(st, name, s).(worker := Idle);
    StoredAfterWrite(Srv(st, name), s);
    assert forall k :: Kid(st', k, name) == Kid(st, k, name);
    assert ChildrenOff(st', name, d) == ChildrenOff(st, name, d);
    ReportAgain(base, deployment, d.players);
    SavedStatus(base, deployment, cached, d.players);
  }

  lemma SavedStatus(base: Server, deployment: Option<Child>, cached: Option<Child>, players: Option<int>)
    ensures var s := base.(status := Report(base, deployment, players));
            deployment == cached ==>
              && Unreported(Some(s), cached, players) == 0
              && (s != base ==> Unreported(Some(base), cached, players) == 1)
  {
    ReportAgain(base, deployment, players);
  }

  lemma WritingPays(st: State, name: string, kind: Kind, body: Body, seen: Option<Child>, next: Worker, d: Demand)
    requires !next.Saving? && Stored(Kid(st, kind, name)) == seen && seen != Some(Adjusted(seen, d.uid, body))
    requires Wanted(st.world, d.spec, ConfigOf(st.world, d), kind) == Some(body)
    ensures var st' := WriteChild(st, kind, name, Some(Adjusted(seen, d.uid, body))).(worker := next);
            Potential(st', name, d) < Potential(st, name, d)
  {
    var c := Some(Adjusted(seen, d.uid, body));
    var st' := WriteChild(st, kind, name, c).(worker := next);
    StoredAfterWrite(Kid(st, kind, name), c);
    assert forall k :: k != kind ==> Kid(st', k, name) == Kid(st, k, name);
    assert forall k :: k != kind ==> Off(st', name, d, k) == Off(st, name, d, k);
    assert Off(st, name, d, kind) == 1 && Off(st', name, d, kind) == 0;
    assert ChildrenOff(st', name, d) == ChildrenOff(st, name, d) - 1;
    assert Srv(st', name) == Srv(st, name);
  }

  lemma OthersWorkPays(st: State, n: string, o: Outcome, name: string, d: Demand)
    requires n != name && Busy(st.worker, n) && (o.next.Idle? || o.next.name == n)
    ensures Potential(Concluded(st, n, o), name, d) <= Potential(st, name, d)
  {
    var st' := Concluded(st, n, o);
    assert forall k :: Kid(st', k, name) == Kid(st, k, name);
    SamePotential(st, st', name, d);
  }

  lemma ReadingPays(st: State, name: string, d: Demand, ok: bool)
    requires Calm(st, name, d) && Busy(st.worker, name) && OutcomeOf(st, ok, d.players).effect == Nothing
    ensures Potential(WorkStep(st, ok, d.players), name, d) <= Potential(st, name, d)
  {
    var st' := WorkStep(st, ok, d.players);
    assert forall k :: Kid(st', k, name) == Kid(st, k, name);
    SamePotential(st, st', name, d);
  }

  lemma OwnWorkPays(st: State, name: string, d: Demand, ok: bool)
    requires Calm(st, name, d) && Busy(st.worker, name) && (st.worker.Resolving? ==> ok)
    ensures var st' := WorkStep(st, ok, d.players);
            && Potential(st', name, d) <= Potential(st, name, d)
            && (OwnWrite(st, Work(ok, d.players), name) ==> Potential(st', name, d) < Potential(st, name, d))
  {
    var w, effect := st.worker, OutcomeOf(st, ok, d.players).effect;
    if effect.Nothing? {
      ReadingPays(st, name, d, ok);
    } else if w.Adopting? {
      AdoptingPays(st, name, w.base, d);
    } else if w.Saving? {
      SavingPays(st, name, d);
    } else {
      assert w.Writing?;
      WritingPays(st, name, KINDS[w.todo], w.body, w.seen, OutcomeOf(st, ok, d.players).next, d);
    }
  }

  lemma WorkPays(st: State, ok: bool, name: string, d: Demand)
    requires Calm(st, name, d) && Internal(st, Work(ok, d.players), d)
    ensures var st' := WorkStep(st, ok, d.players);
            && Potential(st', name, d) <= Potential(st, name, d)
            && (OwnWrite(st, Work(ok, d.players), name) ==> Potential(st', name, d) < Potential(st, name, d))
  {
    if Busy(st.worker, name) {
      OwnWorkPays(st, name, d, ok);
    } else if !st.worker.Idle? {
      var o := OutcomeOf(st, ok, d.players);
      OutcomeStays(st, ok, d.players);
      OthersWorkPays(st, st.worker.name, o, name, d);
    }
  }

  /** A step that is neither work on a server nor the delivery of a child keeps the children and what is stored. */
  lemma OtherStepKeeps(st: State, a: Action, name: string, d: Demand)
    requires Internal(st, a, d) && !a.DeliverChild? && !a.Work?
    ensures var st' := Step(st, a);
            && st'.world == st.world && st'.children == st.children
            && Stored(Srv(st', name)) == Stored(Srv(st, name))
            && (st'.worker == st.worker || st'.worker.Popped?)
  {
    match a
    case WorkTemplate(ok, listing) => TemplateWorkKeeps(st, ok, listing);
    case DeliverServer(n) => ServerEventKeeps(st, n, name);
    case DeliverTemplate(t, listed) => TemplateEventKeeps(st, t, listed);
    case _ => QueueingKeeps(st, a);
  }

  lemma OtherStepsPay(st: State, a: Action, name: string, d: Demand)
    requires Internal(st, a, d) && !a.DeliverChild? && !a.Work?
    ensures Potential(Step(st, a), name, d) <= Potential(st, name, d)
  {
    OtherStepKeeps(st, a, name, d);
    SamePotential(st, Step(st, a), name, d);
  }

  lemma StepPays(st: State, a: Action, name: string, d: Demand)
    requires Calm(st, name, d) && Internal(st, a, d)
    ensures Potential(Step(st, a), name, d) <= Potential(st, name, d)
    ensures OwnWrite(st, a, name) ==> Potential(Step(st, a), name, d) < Potential(st, name, d)
  {
    if a.DeliverChild? {
      DeliveryPays(st, a.kind, a.name, name, d);
    } else if a.Work? {
      WorkPays(st, a.ok, name, d);
    } else {
      OtherStepsPay(st, a, name, d);
    }
  }

  // ---- Whole runs ----

  predicate LeftAlone(st: State, actions: seq<Action>, d: Demand)
    decreases |actions|
  {
    |actions| == 0 || (Internal(st, actions[0], d) && LeftAlone(Step(st, actions[0]), actions[1..], d))
  }

  function OwnWrites(st: State, actions: seq<Action>, name: string): nat
    decreases |actions|
  {
    if |actions| == 0 then 0
    else (if OwnWrite(st, actions[0], name) then 1 else 0) + OwnWrites(Step(st, actions[0]), actions[1..], name)
  }

  /** However long the run, the writes to this server's objects are paid for by the potential at its start. */
  lemma {:induction false} WritesAreBounded(st: State, actions: seq<Action>, name: string, d: Demand)
    requires Calm(st, name, d) && LeftAlone(st, actions, d)
    ensures OwnWrites(st, actions, name) + Potential(Run(st, actions), name, d) <= Potential(st, name, d)
    decreases |actions|
  {
    if |actions| > 0 {
      StepPays(st, actions[0], name, d);
      StaysCalm(st, actions[0], name, d);
      WritesAreBounded(Step(st, actions[0]), actions[1..], name, d);
    }
  }

  /** The bound in numbers: 29, and 4 for each version of the Deployment still to be delivered. */
  lemma PotentialBound(st: State, name: string, d: Demand)
    ensures Potential(st, name, d) <= 29 + 4 * |Kid(st, Deployments, name).pending|
  {
  }

  // ---- Idempotence ----

  ghost predicate SameStore(st: State, st': State, name: string) {
    Stored(Srv(st', name)) == Stored(Srv(st, name)) && forall k :: Stored(Kid(st', k, name)) == Stored(Kid(st, k, name))
  }

  /** Only own writes change what is stored for the server. */
  lemma NoOwnWriteNoChange(st: State, a: Action, name: string, d: Demand)
    requires Internal(st, a, d) && !OwnWrite(st, a, name)
    ensures SameStore(st, Step(st, a), name)
  {
    if a.Work? {
      if !st.worker.Idle? {
        ConcludedStore(st, st.worker.name, OutcomeOf(st, a.ok, a.players), name);
      }
    } else if a.DeliverChild? {
      ChildEventKeeps(st, a.kind, a.name, name);
    } else {
      OtherStepKeeps(st, a, name, d);
    }
  }

  lemma ConcludedStore(st: State, n: string, o: Outcome, name: string)
    requires n == name ==>
               match o.effect
               case Nothing => true
               case ToServer(s) => s == Stored(Srv(st, name))
               case ToChild(kind, c) => Some(c) == Stored(Kid(st, kind, name))
    ensures SameStore(st, Concluded(st, n, o), name)
  {
    var st' := Concluded(st, n, o);
    assert forall k :: Stored(Kid(st', k, name)) == Stored(Kid(st, k, name));
  }

  lemma {:induction false} UnpaidRunsChangeNothing(st: State, actions: seq<Action>, name: string, d: Demand)
    requires Calm(st, name, d) && LeftAlone(st, actions, d) && Potential(st, name, d) == 0
    ensures SameStore(st, Run(st, actions), name) && OwnWrites(st, actions, name) == 0
    decreases |actions|
  {
    if |actions| > 0 {
      StepPays(st, actions[0], name, d);
      StaysCalm(st, actions[0], name, d);
      NoOwnWriteNoChange(st, actions[0], name, d);
      UnpaidRunsChangeNothing(Step(st, actions[0]), actions[1..], name, d);
    }
  }

  /** Everything about the server has been delivered, is in order, and is reported as the player query answers. */
  ghost predicate AtRest(st: State, name: string, d: Demand) {
    && Calm(st, name, d) && OperatorSettling.Settled(st, name)
    && |Srv(st, name).pending| == 0 && (forall k :: |Kid(st, k, name).pending| == 0)
    && !(st.worker.Saving? && st.worker.name == name)
    && var s := Srv(st, name).cached.value;
       s.status == Report(s, Kid(st, Deployments, name).cached, d.players)
  }

  lemma RestHasNoPotential(st: State, name: string, d: Demand)
    requires AtRest(st, name, d)
    ensures Potential(st, name, d) == 0
  {
    var s := Srv(st, name).cached.value;
    CalmResolution(st, name, d);
    forall i | 0 <= i < |KINDS| ensures Off(st, name, d, KINDS[i]) == 0 {
      assert OperatorSettling.KindDone(st, name, s, ConfigOf(st.world, d), KINDS[i]);
      assert |Kid(st, KINDS[i], name).pending| == 0;
    }
    assert KINDS[0] == ConfigMaps && KINDS[1] == Services && KINDS[2] == Deployments && KINDS[3] == HttpRoutes;
    assert KINDS[4] == UdpRoutes;
  }

  /**
   Idempotence: reconciling a server that is in order, as often as one likes and with whatever
   failures, changes no stored object of it.
   */
  lemma ReconcileIsIdempotent(st: State, actions: seq<Action>, name: string, d: Demand)
    requires AtRest(st, name, d) && LeftAlone(st, actions, d)
    ensures SameStore(st, Run(st, actions), name) && OwnWrites(st, actions, name) == 0
  {
    RestHasNoPotential(st, name, d);
    UnpaidRunsChangeNothing(st, actions, name, d);
  }
}
