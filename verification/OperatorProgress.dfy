/**
 Progress: once the users leave a server alone, the operator has a run of its own that brings the
 server to rest, only reacting to events and refreshing the player count; and there it stays.
 */
module OperatorProgress {
  import opened Wrappers
  import opened Operator
  import opened OperatorWrites
  import OperatorSettling

  // ---- Runs of the operator's own ----

  /** The player count of a ready server is asked for again and again; nothing else is queued without an event. */
  predicate Unprompted(st: State, a: Action) {
    && !a.WakeTemplate? && (a.DeliverTemplate? ==> a.listed)
    && (a.Wake? ==> Srv(st, a.name).cached.Some? && Srv(st, a.name).cached.value.status.ready)
  }

  /** A run in which the operator only reacts to events and refreshes the player count of ready servers. */
  predicate Own(st: State, actions: seq<Action>, d: Demand): (own: bool)
    ensures own ==> LeftAlone(st, actions, d)
    decreases |actions|
  {
    |actions| == 0
    || (Internal(st, actions[0], d) && Unprompted(st, actions[0]) && Own(Step(st, actions[0]), actions[1..], d))
  }

  lemma {:induction false} RunJoin(st: State, a: seq<Action>, b: seq<Action>, d: Demand)
    requires Own(st, a, d) && Own(Run(st, a), b, d)
    ensures Own(st, a + b, d) && Run(st, a + b) == Run(Run(st, a), b)
    decreases |a|
  {
    if |a| == 0 {
      assert a + b == b;
    } else {
      assert (a + b)[1..] == a[1..] + b;
      RunJoin(Step(st, a[0]), a[1..], b, d);
    }
  }

  lemma RunFirst(st: State, first: Action, rest: seq<Action>, d: Demand)
    requires Internal(st, first, d) && Unprompted(st, first) && Own(Step(st, first), rest, d)
    ensures Own(st, [first] + rest, d) && Run(st, [first] + rest) == Run(Step(st, first), rest)
  {
    assert ([first] + rest)[1..] == rest;
  }

  // ---- What is kept ----

  predicate NotForeign(c: Option<Child>) { c.Some? ==> !c.value.owner.Another? }

  predicate NeverForeign(c: Cell<Child>) {
    NotForeign(c.cached) && forall i :: 0 <= i < |c.pending| ==> NotForeign(c.pending[i])
  }

  /** The invariants, a demand that all versions agree on, and no child that belongs to another controller. */
  ghost predicate Fine(st: State, name: string, d: Demand) {
    && OperatorSettling.Coherent(st) && OperatorSettling.Covered(st, name) && Calm(st, name, d)
    && forall k :: NeverForeign(Kid(st, k, name))
  }

  lemma WorkNeverForeign(st: State, n: string, o: Outcome, name: string)
    requires forall k :: NeverForeign(Kid(st, k, name))
    requires o.effect.ToChild? ==> o.effect.child.owner.OwnedBy?
    ensures forall k :: NeverForeign(Kid(Concluded(st, n, o), k, name))
  {
    forall k ensures NeverForeign(Kid(Concluded(st, n, o), k, name)) {
      assert NeverForeign(Kid(st, k, name));
    }
  }

  lemma StepNeverForeign(st: State, a: Action, name: string, d: Demand)
    requires Internal(st, a, d) && forall k :: NeverForeign(Kid(st, k, name))
    ensures forall k :: NeverForeign(Kid(Step(st, a), k, name))
  {
    if a.Work? {
      if !st.worker.Idle? {
        WorkNeverForeign(st, st.worker.name, OutcomeOf(st, a.ok, a.players), name);
      }
    } else if a.DeliverChild? {
      var st' := Step(st, a);
      forall k ensures NeverForeign(Kid(st', k, name)) {
        assert NeverForeign(Kid(st, k, name));
      }
    } else {
      OtherStepKeeps(st, a, name, d);
      assert forall k :: Kid(Step(st, a), k, name) == Kid(st, k, name);
    }
  }

  lemma StepFine(st: State, a: Action, name: string, d: Demand)
    requires Fine(st, name, d) && Internal(st, a, d) && Unprompted(st, a)
    ensures Fine(Step(st, a), name, d)
  {
    OperatorSettling.StaysCoherent(st, a);
    OperatorSettling.StepCovers(st, a, name);
    StaysCalm(st, a, name, d);
    StepNeverForeign(st, a, name, d);
  }

  lemma {:induction false} RunFine(st: State, actions: seq<Action>, name: string, d: Demand)
    requires Fine(st, name, d) && Own(st, actions, d)
    ensures Fine(Run(st, actions), name, d)
    decreases |actions|
  {
    if |actions| > 0 {
      StepFine(st, actions[0], name, d);
      RunFine(Step(st, actions[0]), actions[1..], name, d);
    }
  }

  // ---- Letting the current request go ----

  function StepsToIdle(w: Worker): nat {
    match w
    case Idle => 0
    case Resolving(_, _) => 10
    case Applying(_, _, _, todo) => if todo < |KINDS| then 2 + |KINDS| - todo else 2
    case _ => 1
  }

  /** Calls that fail put the request back; only the template is read, which is not supposed to fail. */
  lemma LetGoStep(st: State, players: Option<int>)
    requires !st.worker.Idle?
    ensures StepsToIdle(WorkStep(st, st.worker.Resolving?, players).worker) < StepsToIdle(st.worker)
  {
  }

  lemma {:induction false} LetGo(st: State, d: Demand) returns (actions: seq<Action>)
    ensures Own(st, actions, d) && Run(st, actions).worker.Idle?
    decreases StepsToIdle(st.worker)
  {
    if st.worker.Idle? {
      return [];
    }
    var first := Work(st.worker.Resolving?, d.players);
    LetGoStep(st, d.players);
    var rest := LetGo(Step(st, first), d);
    RunFirst(st, first, rest, d);
    actions := [first] + rest;
  }

  // ---- Delivering everything ----

  function TemplateBacklog(st: State, d: Demand): nat {
    if d.spec.templateRef.Some? then |Tpl(st, d.spec.templateRef.value).pending| else 0
  }

  function Backlog(st: State, name: string, d: Demand): nat {
    |Srv(st, name).pending| + TemplateBacklog(st, d) + KidsBacklog(st, name)
  }

  function KidsBacklog(st: State, name: string): nat {
    |Kid(st, ConfigMaps, name).pending| + |Kid(st, Services, name).pending| + |Kid(st, Deployments, name).pending|
    + |Kid(st, HttpRoutes, name).pending| + |Kid(st, UdpRoutes, name).pending|
  }

  function NextDelivery(st: State, name: string, d: Demand): Action {
    if |Srv(st, name).pending| > 0 then DeliverServer(name)
    else if |Kid(st, ConfigMaps, name).pending| > 0 then DeliverChild(ConfigMaps, name)
    else if |Kid(st, Services, name).pending| > 0 then DeliverChild(Services, name)
    else if |Kid(st, Deployments, name).pending| > 0 then DeliverChild(Deployments, name)
    else if |Kid(st, HttpRoutes, name).pending| > 0 then DeliverChild(HttpRoutes, name)
    else if |Kid(st, UdpRoutes, name).pending| > 0 then DeliverChild(UdpRoutes, name)
    else DeliverTemplate(d.spec.templateRef.GetOr(""), true)
  }

  lemma ChildDeliveryCounts(st: State, kind: Kind, name: string)
    requires |Kid(st, kind, name).pending| > 0
    ensures var st' := ChildEvent(st, kind, name);
            && |Kid(st', kind, name).pending| == |Kid(st, kind, name).pending| - 1
            && (forall k :: k != kind ==> Kid(st', k, name) == Kid(st, k, name))
            && st'.servers == st.servers && st'.templates == st.templates && st'.worker == st.worker
  {
  }

  lemma KidsCount(st: State, kind: Kind, name: string)
    requires |Kid(st, kind, name).pending| > 0
    ensures KidsBacklog(ChildEvent(st, kind, name), name) == KidsBacklog(st, name) - 1
  {
    ChildDeliveryCounts(st, kind, name);
  }

  lemma TemplateCounts(st: State, name: string, d: Demand)
    requires TemplateBacklog(st, d) > 0
    ensures var st' := TemplateEvent(st, d.spec.templateRef.value, true);
            && TemplateBacklog(st', d) == TemplateBacklog(st, d) - 1
            && st'.servers == st.servers && st'.children == st.children && st'.worker == st.worker
  {
  }

  lemma ServerCounts(st: State, name: string)
    requires |Srv(st, name).pending| > 0
    ensures var st' := ServerEvent(st, name);
            && |Srv(st', name).pending| == |Srv(st, name).pending| - 1
            && st'.templates == st.templates && st'.children == st.children && st'.worker == st.worker
  {
  }

  lemma NextDeliveryPending(st: State, name: string, d: Demand)
    requires Backlog(st, name, d) > 0
    ensures match NextDelivery(st, name, d)
            case DeliverServer(n) => n == name && |Srv(st, name).pending| > 0
            case DeliverChild(kind, n) => n == name && |Kid(st, kind, name).pending| > 0
            case DeliverTemplate(t, listed) => listed && d.spec.templateRef == Some(t) && TemplateBacklog(st, d) > 0
            case _ => false
  {
  }

  lemma DeliveryCounts(st: State, name: string, d: Demand)
    requires Backlog(st, name, d) > 0
    ensures var st' := Step(st, NextDelivery(st, name, d));
            Backlog(st', name, d) == Backlog(st, name, d) - 1 && st'.worker == st.worker
  {
    NextDeliveryPending(st, name, d);
    var a := NextDelivery(st, name, d);
    if a.DeliverChild? {
      ChildDeliveryCounts(st, a.kind, name);
      KidsCount(st, a.kind, name);
    } else if a.DeliverServer? {
      ServerCounts(st, name);
    } else {
      TemplateCounts(st, name, d);
    }
  }

  lemma {:induction false} DeliverAll(st: State, name: string, d: Demand) returns (actions: seq<Action>)
    requires Calm(st, name, d)
    ensures Own(st, actions, d) && Backlog(Run(st, actions), name, d) == 0
    ensures Run(st, actions).worker == st.worker && Potential(Run(st, actions), name, d) <= Potential(st, name, d)
    decreases Backlog(st, name, d)
  {
    if Backlog(st, name, d) == 0 {
      return [];
    }
    var first := NextDelivery(st, name, d);
    DeliveryCounts(st, name, d);
    StaysCalm(st, first, name, d);
    StepPays(st, first, name, d);
    var rest := DeliverAll(Step(st, first), name, d);
    RunFirst(st, first, rest, d);
    actions := [first] + rest;
  }

  // ---- One reconcile on data that is up to date ----

  predicate KidsSynced(st: State, name: string, from: nat) {
    forall i :: from <= i < |KINDS| ==> |Kid(st, KINDS[i], name).pending| == 0
  }

  /** The worker is on its way through a reconcile of this server, and will find no conflict. */
  predicate Flowing(st: State, name: string) {
    && Busy(st.worker, name) && name !in st.queue && |Srv(st, name).pending| == 0
    && match st.worker
       case Idle => false
       case Popped(_) => KidsSynced(st, name, 0)
       case Finalizing(_, _) => false
       case Rejecting(_, _) => false
       case Adopting(_, base) => Srv(st, name).cached == Some(base)
       case Resolving(_, base) => Srv(st, name).cached == Some(base) && KidsSynced(st, name, 0)
       case Applying(_, base, _, todo) => Srv(st, name).cached == Some(base) && KidsSynced(st, name, todo)
       case Writing(_, base, _, todo, _, seen) =>
         && todo < |KINDS| && Srv(st, name).cached == Some(base) && KidsSynced(st, name, todo)
         && seen == Kid(st, KINDS[todo], name).cached
       case Reporting(_, base, _) => Srv(st, name).cached == Some(base)
       case Saving(_, base, _, deployment, _) =>
         Srv(st, name).cached == Some(base) && deployment == Kid(st, Deployments, name).cached
  }

  function Left(todo: nat): nat { if todo < |KINDS| then |KINDS| - todo else 0 }

  function StepsToEnd(w: Worker): nat {
    match w
    case Popped(_) => 20
    case Resolving(_, _) => 18
    case Applying(_, _, _, todo) => 4 + 2 * Left(todo)
    case Writing(_, _, _, todo, _, _) => 3 + 2 * Left(todo)
    case Reporting(_, _, _) => 2
    case Idle => 0
    case _ => 1
  }

  ghost predicate SameCells(st: State, st': State, name: string) {
    Srv(st', name) == Srv(st, name) && forall k :: Kid(st', k, name) == Kid(st, k, name)
  }

  /** The stored status is what the Deployment in the cache calls for. */
  predicate StatusFits(st: State, name: string, d: Demand) {
    var s := Stored(Srv(st, name));
    s.Some? && s.value.status == Report(s.value, Kid(st, Deployments, name).cached, d.players)
  }

  /** A step that only reads moves the worker on. */
  ghost predicate ReadsOn(st: State, st': State, name: string) {
    Flowing(st', name) && StepsToEnd(st'.worker) < StepsToEnd(st.worker) && SameCells(st, st', name)
  }

  lemma FlowApplies(st: State, name: string, d: Demand)
    requires Calm(st, name, d) && Flowing(st, name) && (forall k :: NeverForeign(Kid(st, k, name)))
    requires OutcomeOf(st, true, d.players).effect == Nothing && st.worker.Applying? && st.worker.todo < |KINDS|
    ensures ReadsOn(st, WorkStep(st, true, d.players), name)
  {
    var st' := WorkStep(st, true, d.players);
    assert forall k :: Kid(st', k, name) == Kid(st, k, name);
    assert NeverForeign(Kid(st, KINDS[st.worker.todo], name));
  }

  lemma FlowReads(st: State, name: string, d: Demand)
    requires Calm(st, name, d) && Flowing(st, name) && (forall k :: NeverForeign(Kid(st, k, name)))
    requires OutcomeOf(st, true, d.players).effect == Nothing
    ensures ReadsOn(st, WorkStep(st, true, d.players), name)
  {
    if st.worker.Applying? && st.worker.todo < |KINDS| {
      FlowApplies(st, name, d);
    } else {
      var st' := WorkStep(st, true, d.players);
      CalmResolution(st, name, d);
      assert forall k :: Kid(st', k, name) == Kid(st, k, name);
    }
  }

  lemma FlowWritesChild(st: State, name: string, d: Demand)
    requires Calm(st, name, d) && Flowing(st, name) && st.worker.Writing?
    ensures var st' := WorkStep(st, true, d.players);
            && Flowing(st', name) && StepsToEnd(st'.worker) < StepsToEnd(st.worker)
            && OwnWrite(st, Work(true, d.players), name)
  {
    var w, st' := st.worker, WorkStep(st, true, d.players);
    forall i | w.todo + 1 <= i < |KINDS| ensures |Kid(st', KINDS[i], name).pending| == 0 {
      assert KINDS[i] != KINDS[w.todo];
      assert Kid(st', KINDS[i], name) == Kid(st, KINDS[i], name);
    }
  }

  /** The last step: it writes the server, or there is nothing to write. */
  lemma FlowEnds(st: State, name: string, d: Demand)
    requires Calm(st, name, d) && Flowing(st, name) && (st.worker.Adopting? || st.worker.Saving?)
    ensures var st' := WorkStep(st, true, d.players);
            && st'.worker.Idle?
            && (!OwnWrite(st, Work(true, d.players), name) ==>
                  SameCells(st, st', name) && name !in st'.queue && StatusFits(st', name, d))
  {
    var st' := WorkStep(st, true, d.players);
    assert forall k :: Kid(st', k, name) == Kid(st, k, name);
  }

  /** The end of a reconcile: it has paid for a write, or it has found everything in place. */
  ghost predicate Concluding(st: State, st': State, name: string, d: Demand) {
    && st'.worker.Idle?
    && (Potential(st', name, d) < Potential(st, name, d)
        || (SameCells(st, st', name) && name !in st'.queue && StatusFits(st', name, d)))
  }

  /** What one step does to the course of the reconcile. */
  ghost predicate Moves(st: State, st': State, name: string, d: Demand) {
    if st.worker.Adopting? || st.worker.Saving? then
      st'.worker.Idle?
      && (OwnWrite(st, Work(true, d.players), name)
          || (SameCells(st, st', name) && name !in st'.queue && StatusFits(st', name, d)))
    else
      Flowing(st', name) && StepsToEnd(st'.worker) < StepsToEnd(st.worker)
      && (OwnWrite(st, Work(true, d.players), name) || SameCells(st, st', name))
  }

  lemma FlowMoves(st: State, name: string, d: Demand)
    requires Calm(st, name, d) && Flowing(st, name) && (forall k :: NeverForeign(Kid(st, k, name)))
    ensures Moves(st, WorkStep(st, true, d.players), name, d)
  {
    if st.worker.Adopting? || st.worker.Saving? {
      FlowEnds(st, name, d);
    } else if st.worker.Writing? {
      FlowWritesChild(st, name, d);
    } else {
      FlowReads(st, name, d);
    }
  }

  /** One step of it: it ends the reconcile or brings the end nearer, and either pays or leaves things as they are. */
  lemma FlowStep(st: State, st': State, name: string, d: Demand)
    requires Calm(st, name, d) && Flowing(st, name) && (forall k :: NeverForeign(Kid(st, k, name)))
    requires st' == Step(st, Work(true, d.players))
    ensures if st.worker.Adopting? || st.worker.Saving? then Concluding(st, st', name, d)
            else
              && Flowing(st', name) && StepsToEnd(st'.worker) < StepsToEnd(st.worker)
              && Potential(st', name, d) <= Potential(st, name, d)
              && (Potential(st', name, d) < Potential(st, name, d) || SameCells(st, st', name))
  {
    StepPays(st, Work(true, d.players), name, d);
    FlowMoves(st, name, d);
  }

  lemma ConcludingOn(st: State, mid: State, end: State, name: string, d: Demand)
    requires Concluding(mid, end, name, d) && Potential(mid, name, d) <= Potential(st, name, d)
    requires Potential(mid, name, d) < Potential(st, name, d) || SameCells(st, mid, name)
    requires Potential(end, name, d) <= Potential(mid, name, d)
    ensures Concluding(st, end, name, d)
  {
  }

  lemma {:induction false} Pass(st: State, name: string, d: Demand) returns (actions: seq<Action>)
    requires Fine(st, name, d) && Flowing(st, name)
    ensures Own(st, actions, d) && Concluding(st, Run(st, actions), name, d)
    decreases StepsToEnd(st.worker)
  {
    var first := Work(true, d.players);
    var st' := Step(st, first);
    StepFine(st, first, name, d);
    FlowStep(st, st', name, d);
    var rest := [];
    if !st.worker.Adopting? && !st.worker.Saving? {
      rest := Pass(st', name, d);
      WritesAreBounded(st', rest, name, d);
      ConcludingOn(st, st', Run(st', rest), name, d);
    }
    RunFirst(st, first, rest, d);
    actions := [first] + rest;
  }

  // ---- Reconciling until there is nothing left ----

  predicate Unoccupied(st: State, name: string) { st.worker.Idle? && name !in st.queue }

  /** With nothing on its way, a server that is not queued is at rest, but for the player count if it is ready. */
  lemma QueuedOrAtRest(st: State, name: string, d: Demand)
    requires OperatorSettling.Covered(st, name) && Calm(st, name, d)
    requires Unoccupied(st, name) && Backlog(st, name, d) == 0
    ensures AtRest(st, name, d) || (Srv(st, name).cached.Some? && Srv(st, name).cached.value.status.ready)
  {
    NoBacklog(st, name, d);
    assert !OperatorSettling.OnItsWay(st, name);
    OnlyPlayersDiffer(Srv(st, name).cached.value, Kid(st, Deployments, name).cached, d.players);
  }

  lemma OnlyPlayersDiffer(s: Server, deployment: Option<Child>, players: Option<int>)
    requires s.status == Report(s, deployment, None)
    ensures s.status == Report(s, deployment, players) || s.status.ready
  {
  }

  lemma TakeQueued(st: State, name: string, d: Demand)
    requires Fine(st, name, d) && st.worker.Idle? && name in st.queue
    requires |Srv(st, name).pending| == 0 && forall k: Kind :: |Kid(st, k, name).pending| == 0
    ensures var st' := Step(st, Take(name));
            && Fine(st', name, d) && Flowing(st', name) && SameCells(st, st', name)
            && Potential(st', name, d) <= Potential(st, name, d)
  {
    var st' := Step(st, Take(name));
    StepFine(st, Take(name), name, d);
    StepPays(st, Take(name), name, d);
    assert st' == st.(queue := st.queue - {name}, worker := Popped(name));
    assert forall k :: Kid(st', k, name) == Kid(st, k, name);
  }

  /** Take the server up: it is queued, or its player count is due. */
  lemma TakenUp(st: State, name: string, d: Demand) returns (actions: seq<Action>)
    requires Fine(st, name, d) && st.worker.Idle? && Backlog(st, name, d) == 0
    requires name in st.queue || (Srv(st, name).cached.Some? && Srv(st, name).cached.value.status.ready)
    ensures Own(st, actions, d)
    ensures var st' := Run(st, actions);
            && Fine(st', name, d) && Flowing(st', name) && SameCells(st, st', name)
            && Potential(st', name, d) <= Potential(st, name, d)
  {
    NoBacklog(st, name, d);
    actions := [Take(name)];
    if name in st.queue {
      TakeQueued(st, name, d);
      RunFirst(st, Take(name), [], d);
    } else {
      var mid := Step(st, Wake(name));
      WakeKeeps(st, name, d);
      TakeQueued(mid, name, d);
      RunFirst(mid, Take(name), [], d);
      RunFirst(st, Wake(name), actions, d);
      actions := [Wake(name)] + actions;
    }
  }

  lemma WakeKeeps(st: State, name: string, d: Demand)
    requires Fine(st, name, d) && Unprompted(st, Wake(name))
    ensures var st' := Step(st, Wake(name));
            && Fine(st', name, d) && SameCells(st, st', name) && name in st'.queue && st'.worker == st.worker
            && Potential(st', name, d) <= Potential(st, name, d)
  {
    StepFine(st, Wake(name), name, d);
    StepPays(st, Wake(name), name, d);
    assert forall k :: Kid(Step(st, Wake(name)), k, name) == Kid(st, k, name);
  }

  lemma NoBacklog(st: State, name: string, d: Demand)
    requires Backlog(st, name, d) == 0
    ensures |Srv(st, name).pending| == 0 && forall k: Kind :: |Kid(st, k, name).pending| == 0
  {
    forall k: Kind ensures |Kid(st, k, name).pending| == 0 {
      match k
      case ConfigMaps =>
      case Services =>
      case Deployments =>
      case HttpRoutes =>
      case UdpRoutes =>
    }
  }

  /** A reconcile that found everything in place has found the server at rest. */
  lemma FoundAtRest(st: State, name: string, d: Demand)
    requires Fine(st, name, d) && st.worker.Idle? && name !in st.queue && StatusFits(st, name, d)
    requires |Srv(st, name).pending| == 0 && forall k: Kind :: |Kid(st, k, name).pending| == 0
    ensures AtRest(st, name, d)
  {
    assert !OperatorSettling.OnItsWay(st, name);
  }

  /** Deliver everything; if the server is then queued or its player count is due, reconcile, and so on. */
  lemma {:induction false} ComesToRest(st: State, name: string, d: Demand) returns (actions: seq<Action>)
    requires Fine(st, name, d) && st.worker.Idle?
    ensures Own(st, actions, d) && AtRest(Run(st, actions), name, d) && Unoccupied(Run(st, actions), name)
    decreases Potential(st, name, d), 1
  {
    actions := DeliverAll(st, name, d);
    var st1 := Run(st, actions);
    RunFine(st, actions, name, d);
    if name !in st1.queue {
      QueuedOrAtRest(st1, name, d);
    }
    if name in st1.queue || !AtRest(st1, name, d) {
      var rest := FromDelivered(st1, name, d);
      RunJoin(st, actions, rest, d);
      actions := actions + rest;
    }
  }

  lemma {:induction false} FromDelivered(st: State, name: string, d: Demand) returns (actions: seq<Action>)
    requires Fine(st, name, d) && st.worker.Idle? && Backlog(st, name, d) == 0
    requires name in st.queue || (Srv(st, name).cached.Some? && Srv(st, name).cached.value.status.ready)
    ensures Own(st, actions, d) && AtRest(Run(st, actions), name, d) && Unoccupied(Run(st, actions), name)
    decreases Potential(st, name, d), 0
  {
    var first := TakenUp(st, name, d);
    var st2 := Run(st, first);
    var second := Pass(st2, name, d);
    var st3 := Run(st2, second);
    RunFine(st2, second, name, d);
    RunJoin(st, first, second, d);
    actions := first + second;
    if Potential(st3, name, d) < Potential(st2, name, d) {
      var rest := ComesToRest(st3, name, d);
      RunJoin(st, actions, rest, d);
      actions := actions + rest;
    } else {
      NoBacklog(st, name, d);
      FoundAtRest(st3, name, d);
    }
  }

  /**
   In every reachable state in which the versions of a server and of its template agree, and no
   other controller holds its children, the operator has a run of its own to a state where the
   server is at rest; and from there no run of its own, with whatever failures, changes a stored
   object of the server.
   */
  lemma CanComeToRest(world: World, past: seq<Action>, name: string, d: Demand) returns (actions: seq<Action>)
    requires OperatorSettling.AllTold(Init(world), past, name)
    requires var st := Run(Init(world), past);
             Calm(st, name, d) && forall k :: NeverForeign(Kid(st, k, name))
    ensures var st := Run(Init(world), past);
            && Own(st, actions, d) && AtRest(Run(st, actions), name, d) && Unoccupied(Run(st, actions), name)
            && forall later :: LeftAlone(Run(st, actions), later, d) ==>
                 SameStore(Run(st, actions), Run(Run(st, actions), later), name)
  {
    var st := Run(Init(world), past);
    OperatorSettling.RunKeeps(Init(world), past, name);
    var first := LetGo(st, d);
    RunFine(st, first, name, d);
    var rest := ComesToRest(Run(st, first), name, d);
    RunJoin(st, first, rest, d);
    actions := first + rest;
    forall later | LeftAlone(Run(st, actions), later, d)
      ensures SameStore(Run(st, actions), Run(Run(st, actions), later), name)
    {
      ReconcileIsIdempotent(Run(st, actions), later, name, d);
    }
  }
}
