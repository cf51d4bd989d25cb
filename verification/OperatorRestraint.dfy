/**
 What the server controller does not do: it creates no route that nobody asked for, takes no object
 from another controller, and changes nothing of what the users have written.
 */
module OperatorRestraint {
  import opened Wrappers
  import opened ConfigSpec
  import opened Operator

  // ---- Routes ----

  /** The Gateway object that routes attach to, in namespace `default` unless another one is named. */
  function Target(g: Gateway): Option<GatewayRef> {
    match g.gatewayRef
    case None => None
    case Some(ref) => Some(GatewayRef(ref.name, if ref.namespace == "" then "default" else ref.namespace))
  }

  /** A specification asks for an HTTP route with an enabled gateway and a host name, for a UDP route with a target. */
  predicate AsksForRoute(spec: ServerSpec, kind: Kind) {
    && spec.gateway.Some? && spec.gateway.value.enabled
    && (kind.HttpRoutes? ==> spec.gateway.value.hostname != "")
    && (kind.UdpRoutes? ==> spec.gateway.value.gatewayRef.Some?)
  }

  predicate IsRoute(kind: Kind) { kind.HttpRoutes? || kind.UdpRoutes? }

  function RouteTo(g: Gateway, kind: Kind): Body
    requires IsRoute(kind) && (kind.UdpRoutes? ==> g.gatewayRef.Some?)
  {
    if kind.HttpRoutes? then HttpTo(g.hostname, Target(g)) else UdpTo(Target(g).value)
  }

  /** A route is wanted exactly when it is asked for. */
  lemma WantedRoute(w: World, spec: ServerSpec, config: ServerConfig, kind: Kind)
    requires IsRoute(kind)
    ensures Wanted(w, spec, config, kind)
         == if AsksForRoute(spec, kind) then Some(RouteTo(spec.gateway.value, kind)) else None
  {
  }

  // ---- What the worker is about to write ----

  /** The object it has in hand is wanted, and the one that it has read belongs to no other controller. */
  predicate Deliberate(st: State) {
    var w := st.worker;
    w.Writing? ==>
      && w.todo < |KINDS| && Wanted(st.world, w.base.spec, w.config, KINDS[w.todo]) == Some(w.body)
      && (w.seen.Some? ==> !w.seen.value.owner.Another?)
  }

  lemma StepDeliberate(st: State, a: Action)
    requires Deliberate(st)
    ensures Deliberate(Step(st, a))
  {
    if a.Work? {
      WorkDeliberate(st, a.ok, a.players);
    } else {
      OthersKeepWriting(st, a);
    }
  }

  lemma OthersKeepWriting(st: State, a: Action)
    requires !a.Work?
    ensures Step(st, a).worker.Writing? ==> Step(st, a).worker == st.worker && Step(st, a).world == st.world
  {
    StepKeepsWorld(st, a);
    match a
    case WorkTemplate(ok, listing) => TemplateWorkKeeps(st, ok, listing);
    case _ =>
  }

  lemma WorkDeliberate(st: State, ok: bool, players: Option<int>)
    requires Deliberate(st)
    ensures Deliberate(WorkStep(st, ok, players))
  {
    StepKeepsWorld(st, Work(ok, players));
    if !st.worker.Idle? && OutcomeOf(st, ok, players).next.Writing? {
      OnlyAppliesToWrite(st, ok, players);
    }
  }

  lemma OnlyAppliesToWrite(st: State, ok: bool, players: Option<int>)
    requires OutcomeOf(st, ok, players).next.Writing?
    ensures var w := OutcomeOf(st, ok, players).next;
            && w.todo < |KINDS| && Wanted(st.world, w.base.spec, w.config, KINDS[w.todo]) == Some(w.body)
            && (w.seen.Some? ==> !w.seen.value.owner.Another?)
  {
    assert st.worker.Applying? && st.worker.todo < |KINDS|;
  }

  lemma {:induction false} RunDeliberate(st: State, actions: seq<Action>)
    requires Deliberate(st)
    ensures Deliberate(Run(st, actions))
    decreases |actions|
  {
    if |actions| > 0 {
      StepDeliberate(st, actions[0]);
      RunDeliberate(Step(st, actions[0]), actions[1..]);
    }
  }

  /** In every run: a route that the controller writes is asked for by the specification it has read. */
  lemma RoutesAreAskedFor(world: World, actions: seq<Action>, ok: bool, players: Option<int>)
    requires var st := Run(Init(world), actions);
             var e := OutcomeOf(st, ok, players).effect; e.ToChild? && IsRoute(e.kind)
    ensures var st := Run(Init(world), actions);
            var base, e := st.worker.base, OutcomeOf(st, ok, players).effect;
            && AsksForRoute(base.spec, e.kind) && e.child.body == RouteTo(base.spec.gateway.value, e.kind)
            && e.child.owner == OwnedBy(base.uid)
  {
    var w := Run(Init(world), actions).worker;
    RunDeliberate(Init(world), actions);
    WantedRoute(Run(Init(world), actions).world, w.base.spec, w.config, KINDS[w.todo]);
  }

  // ---- Nobody asked ----

  /** All versions of the server, and the one the worker holds, ask for no such route; and there is none. */
  predicate Unexposed(st: State, name: string, kind: Kind) {
    && SilentCell(Srv(st, name), kind)
    && (Holding(st.worker, name) ==> !AsksForRoute(st.worker.base.spec, kind))
    && Kid(st, kind, name) == Cell(None, [])
  }

  predicate Holding(w: Worker, name: string) { !w.Idle? && !w.Popped? && w.name == name }

  predicate Silent(s: Option<Server>, kind: Kind) { s.Some? ==> !AsksForRoute(s.value.spec, kind) }

  predicate SilentCell(c: Cell<Server>, kind: Kind) {
    Silent(c.cached, kind) && forall i :: 0 <= i < |c.pending| ==> Silent(c.pending[i], kind)
  }

  /** The step neither asks for such a route for this server nor puts one there. */
  predicate AsksNothing(a: Action, name: string, kind: Kind) {
    && (a.PutServer? && a.name == name ==> !AsksForRoute(a.spec, kind))
    && (a.PutChild? && a.kind == kind && a.name == name ==> a.child.None?)
  }

  lemma StoredSilent(c: Cell<Server>, kind: Kind)
    requires SilentCell(c, kind)
    ensures Silent(Stored(c), kind)
  {
  }

  lemma WriteServerUnexposed(st: State, n: string, s: Option<Server>, name: string, kind: Kind)
    requires Unexposed(st, name, kind) && (n == name ==> Silent(s, kind))
    ensures Unexposed(WriteServer(st, n, s), name, kind)
  {
  }

  lemma WorkUnexposed(st: State, ok: bool, players: Option<int>, name: string, kind: Kind)
    requires Unexposed(st, name, kind) && Deliberate(st) && IsRoute(kind)
    ensures Unexposed(WorkStep(st, ok, players), name, kind)
  {
    if !st.worker.Idle? {
      var o, n := OutcomeOf(st, ok, players), st.worker.name;
      if n == name {
        OutcomeSilent(st, ok, players, kind);
      } else {
        assert Holding(o.next, name) ==> false by {
          assert o.next.Idle? || o.next.name == n;
        }
      }
      ConcludedUnexposed(st, n, o, name, kind);
    }
  }

  /** What a step on such a server writes and keeps in hand. */
  lemma OutcomeSilent(st: State, ok: bool, players: Option<int>, kind: Kind)
    requires !st.worker.Idle? && Unexposed(st, st.worker.name, kind) && Deliberate(st) && IsRoute(kind)
    ensures var o := OutcomeOf(st, ok, players);
            && (Holding(o.next, st.worker.name) ==> !AsksForRoute(o.next.base.spec, kind))
            && (o.effect.ToServer? ==> Silent(o.effect.server, kind)) && (o.effect.ToChild? ==> o.effect.kind != kind)
  {
    if st.worker.Writing? {
      WantedRoute(st.world, st.worker.base.spec, st.worker.config, kind);
    }
  }

  lemma ConcludedUnexposed(st: State, n: string, o: Outcome, name: string, kind: Kind)
    requires Unexposed(st, name, kind) && (n != name ==> !Holding(o.next, name))
    requires n == name ==>
               && (Holding(o.next, name) ==> !AsksForRoute(o.next.base.spec, kind))
               && (o.effect.ToServer? ==> Silent(o.effect.server, kind))
               && (o.effect.ToChild? ==> o.effect.kind != kind)
    ensures Unexposed(Concluded(st, n, o), name, kind)
  {
    if o.effect.ToServer? {
      WriteServerUnexposed(st, n, o.effect.server, name, kind);
    }
  }

  lemma StepUnexposed(st: State, a: Action, name: string, kind: Kind)
    requires Unexposed(st, name, kind) && Deliberate(st) && IsRoute(kind) && AsksNothing(a, name, kind)
    ensures Unexposed(Step(st, a), name, kind)
  {
    StoredSilent(Srv(st, name), kind);
    match a
    case PutServer(n, uid, spec, finalizer, foreign) =>
      WriteServerUnexposed(st, n, Edited(Stored(Srv(st, n)), uid, spec, finalizer, foreign), name, kind);
    case DeleteServer(n) => WriteServerUnexposed(st, n, Marked(Stored(Srv(st, n))), name, kind);
    case Work(ok, players) => WorkUnexposed(st, ok, players, name, kind);
    case DeliverServer(n) => ServerEventUnexposed(st, n, name, kind);
    case DeliverTemplate(t, listed) => TemplateEventKeeps(st, t, listed);
    case WorkTemplate(ok, listing) => TemplateWorkKeeps(st, ok, listing);
    case Restart => RestartUnexposed(st, name, kind);
    case _ => OtherUnexposed(st, a, name, kind);
  }

  lemma ServerEventUnexposed(st: State, n: string, name: string, kind: Kind)
    requires Unexposed(st, name, kind)
    ensures Unexposed(ServerEvent(st, n), name, kind)
  {
  }

  lemma RestartUnexposed(st: State, name: string, kind: Kind)
    requires Unexposed(st, name, kind)
    ensures Unexposed(Restarted(st), name, kind)
  {
    StoredSilent(Srv(st, name), kind);
  }

  lemma OtherUnexposed(st: State, a: Action, name: string, kind: Kind)
    requires Unexposed(st, name, kind) && AsksNothing(a, name, kind)
    requires a.PutTemplate? || a.DeleteTemplate? || a.PutChild? || a.DeliverChild? || Queueing(a)
    ensures Unexposed(Step(st, a), name, kind)
  {
  }

  lemma {:induction false} RunUnexposed(st: State, actions: seq<Action>, name: string, kind: Kind)
    requires Unexposed(st, name, kind) && Deliberate(st) && IsRoute(kind)
    requires forall a :: a in actions ==> AsksNothing(a, name, kind)
    ensures Unexposed(Run(st, actions), name, kind)
    decreases |actions|
  {
    if |actions| > 0 {
      assert actions[0] in actions;
      StepDeliberate(st, actions[0]);
      StepUnexposed(st, actions[0], name, kind);
      RunUnexposed(Step(st, actions[0]), actions[1..], name, kind);
    }
  }

  /**
   In every run in which no version of a server has ever asked for a route of this kind and nobody
   else has put one there, there is none, not even on its way.
   */
  lemma NobodyAskedNoRoute(world: World, actions: seq<Action>, name: string, kind: Kind)
    requires IsRoute(kind) && forall a :: a in actions ==> AsksNothing(a, name, kind)
    ensures Stored(Kid(Run(Init(world), actions), kind, name)).None?
  {
    RunUnexposed(Init(world), actions, name, kind);
  }

  // ---- Objects of others, and what the users have written ----

  /** In every run: an object that another controller controls stays as it is, whatever the controller does next. */
  lemma OthersObjectsStay(world: World, actions: seq<Action>, ok: bool, players: Option<int>, kind: Kind, name: string)
    requires var c := Stored(Kid(Run(Init(world), actions), kind, name)); c.Some? && c.value.owner.Another?
    ensures var st := Run(Init(world), actions);
            Stored(Kid(WorkStep(st, ok, players), kind, name)) == Stored(Kid(st, kind, name))
  {
    var st := Run(Init(world), actions);
    RunDeliberate(Init(world), actions);
    if !st.worker.Idle? {
      SpareOther(st, ok, players, kind, name);
    }
  }

  lemma SpareOther(st: State, ok: bool, players: Option<int>, kind: Kind, name: string)
    requires Deliberate(st) && !st.worker.Idle?
    requires var c := Stored(Kid(st, kind, name)); c.Some? && c.value.owner.Another?
    ensures Stored(Kid(WorkStep(st, ok, players), kind, name)) == Stored(Kid(st, kind, name))
  {
    var e := OutcomeOf(st, ok, players).effect;
    assert e.ToChild? ==> st.worker.Writing? && Stored(Kid(st, e.kind, st.worker.name)) == st.worker.seen;
    assert st.worker.name == name && e.ToChild? ==> e.kind != kind;
  }

  /** The same object, but for the finalizer and the status that are the controller's to write. */
  predicate UsersPartKept(before: Option<Server>, after: Option<Server>) {
    match (before, after)
    case (Some(b), Some(a)) => a.uid == b.uid && a.spec == b.spec && a.deleting == b.deleting && a.foreign == b.foreign
    case (Some(b), None) => b.deleting && !b.foreign
    case (None, _) => after.None?
  }

  /**
   No lost updates: whatever the worker has read before, what is stored of the users' making stays:
   specification, identity, deletion mark and the finalizers of others. A server goes away only when
   it is being deleted and nobody else holds it.
   */
  lemma UsersPartStays(st: State, ok: bool, players: Option<int>, name: string)
    ensures UsersPartKept(Stored(Srv(st, name)), Stored(Srv(WorkStep(st, ok, players), name)))
  {
    if !st.worker.Idle? && st.worker.name == name {
      OwnServerKept(st, ok, players);
    } else if !st.worker.Idle? {
      assert Srv(WorkStep(st, ok, players), name) == Srv(st, name);
    }
  }

  lemma OwnServerKept(st: State, ok: bool, players: Option<int>)
    requires !st.worker.Idle?
    ensures var name := st.worker.name;
            UsersPartKept(Stored(Srv(st, name)), Stored(Srv(WorkStep(st, ok, players), name)))
  {
    var e := OutcomeOf(st, ok, players).effect;
    if e.ToServer? {
      WritesWhatIsStored(st, ok, players);
    }
    WrittenServer(st, OutcomeOf(st, ok, players));
  }

  lemma WritesWhatIsStored(st: State, ok: bool, players: Option<int>)
    requires OutcomeOf(st, ok, players).effect.ToServer?
    ensures UsersPartKept(Stored(Srv(st, st.worker.name)), OutcomeOf(st, ok, players).effect.server)
  {
  }

  lemma WrittenServer(st: State, o: Outcome)
    requires !st.worker.Idle?
    ensures var name := st.worker.name;
            Stored(Srv(Concluded(st, name, o), name))
            == if o.effect.ToServer? then o.effect.server else Stored(Srv(st, name))
  {
  }

  /** Children are never removed, and the number of ready replicas is not the controller's to write. */
  lemma ReplicasStay(st: State, ok: bool, players: Option<int>, kind: Kind, name: string)
    requires Stored(Kid(st, kind, name)).Some?
    ensures var before, after := Stored(Kid(st, kind, name)), Stored(Kid(WorkStep(st, ok, players), kind, name));
            after.Some? && after.value.ready == before.value.ready
  {
    if !st.worker.Idle? {
      var e := OutcomeOf(st, ok, players).effect;
      assert e.ToChild? ==> st.worker.Writing? && Stored(Kid(st, e.kind, st.worker.name)) == st.worker.seen;
    }
  }

  /** The template controller writes the status of a template and nothing else. */
  lemma TemplateConfigStays(st: State, ok: bool, listing: seq<string>, template: string)
    ensures var before, after := Stored(Tpl(st, template)), Stored(Tpl(WorkTemplateStep(st, ok, listing), template));
            if before.None? then after.None? else after.Some? && after.value.config == before.value.config
  {
  }
}
