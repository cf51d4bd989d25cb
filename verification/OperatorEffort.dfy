/**
 The operator comes to an end. While a server is left alone, each step that does something for it, a
 delivery, the taking of its request or a step of its reconcile, brings the end nearer, unless it
 fails or meets a conflict. So in every run there are only so many, however the rest of the system
 is interleaved; and when none is left to do, the server is in order.
 */
module OperatorEffort {
  import opened Wrappers
  import opened Operator
  import opened OperatorWrites
  import OperatorSettling
  import P = OperatorProgress

  // ---- Steps for a server, and what undoes them ----

  predicate Refers(d: Demand, template: string) { d.spec.templateRef == Some(template) }

  /** A step that does something for the server: it delivers, takes the request or works on it. */
  predicate Useful(st: State, a: Action, name: string, d: Demand) {
    match a
    case DeliverServer(n) => n == name && |Srv(st, name).pending| > 0
    case DeliverChild(kind, n) => n == name && |Kid(st, kind, name).pending| > 0
    case DeliverTemplate(t, _) => Refers(d, t) && |Tpl(st, t).pending| > 0
    case Take(n) => n == name && st.worker.Idle? && name in st.queue
    case Work(_, _) => Busy(st.worker, name)
    case _ => false
  }

  /** A step after which there is more to do: a failed call, a refresh, or a template whose status is rewritten. */
  predicate Disturbs(st: State, a: Action, name: string, d: Demand) {
    match a
    case Wake(n) => n == name
    case Work(ok, players) => Busy(st.worker, name) && OutcomeOf(st, ok, players) == AGAIN
    case WorkTemplate(_, _) => P.TemplateBacklog(Step(st, a), d) > P.TemplateBacklog(st, d)
    case _ => false
  }

  // ---- The measure ----

  function Queued(st: State, name: string): nat { if name in st.queue then 1 else 0 }

  function StepsLeft(st: State, name: string): nat { if Busy(st.worker, name) then P.StepsToEnd(st.worker) else 0 }

  /** What is on its way, queued and under way. A delivery may cost a request, and a request a reconcile. */
  function Outstanding(st: State, name: string, d: Demand): nat {
    22 * P.Backlog(st, name, d) + 21 * Queued(st, name) + StepsLeft(st, name)
  }

  /** A write still to come may cost a delivery and a request. */
  function Measure(st: State, name: string, d: Demand): nat {
    44 * Potential(st, name, d) + Outstanding(st, name, d)
  }

  function One(b: bool): nat { if b then 1 else 0 }

  /** The step is paid for by the measure, or by 22 for a disturbance. */
  ghost predicate Pays(st: State, a: Action, name: string, d: Demand) {
    One(Useful(st, a, name, d)) + Measure(Step(st, a), name, d)
    <= Measure(st, name, d) + 22 * One(Disturbs(st, a, name, d))
  }

  /** The same without the potential, which pays for a write of the controller's own. */
  ghost predicate Balances(st: State, a: Action, st': State, name: string, d: Demand) {
    One(Useful(st, a, name, d)) + Outstanding(st', name, d)
    <= Outstanding(st, name, d) + 22 * One(Disturbs(st, a, name, d)) + 44 * One(OwnWrite(st, a, name))
  }

  /** The step does nothing for the server and leaves what is to be done for it. */
  lemma OtherBalances(st: State, a: Action, st': State, name: string, d: Demand)
    requires !Useful(st, a, name, d) && Srv(st', name) == Srv(st, name)
    requires forall k :: Kid(st', k, name) == Kid(st, k, name)
    requires P.TemplateBacklog(st', d) == P.TemplateBacklog(st, d)
    requires name in st'.queue ==> name in st.queue
    requires StepsLeft(st', name) == StepsLeft(st, name)
    ensures Balances(st, a, st', name, d)
  {
    assert P.Backlog(st', name, d) == P.Backlog(st, name, d);
  }

  /** The step delivers something, and the server may be queued for it. */
  lemma DeliveryBalances(st: State, a: Action, st': State, name: string, d: Demand)
    requires P.Backlog(st', name, d) == P.Backlog(st, name, d) - 1 && st'.worker == st.worker
    ensures Balances(st, a, st', name, d)
  {
  }

  // ---- Deliveries ----

  lemma ServerDeliveryBalances(st: State, n: string, name: string, d: Demand)
    ensures Balances(st, DeliverServer(n), Step(st, DeliverServer(n)), name, d)
  {
    var a, st' := DeliverServer(n), ServerEvent(st, n);
    if n == name && |Srv(st, name).pending| > 0 {
      P.ServerCounts(st, name);
      SameKids(st, st', name);
      DeliveryBalances(st, a, st', name, d);
    } else {
      OtherBalances(st, a, st', name, d);
    }
  }

  lemma SameKids(st: State, st': State, name: string)
    requires st'.children == st.children
    ensures P.KidsBacklog(st', name) == P.KidsBacklog(st, name)
  {
  }

  lemma ChildDeliveryBalances(st: State, kind: Kind, n: string, name: string, d: Demand)
    ensures Balances(st, DeliverChild(kind, n), Step(st, DeliverChild(kind, n)), name, d)
  {
    var a, st' := DeliverChild(kind, n), ChildEvent(st, kind, n);
    if n == name && |Kid(st, kind, name).pending| > 0 {
      P.ChildDeliveryCounts(st, kind, name);
      P.KidsCount(st, kind, name);
      DeliveryBalances(st, a, st', name, d);
    } else {
      OtherBalances(st, a, st', name, d);
    }
  }

  lemma TemplateDeliveryBalances(st: State, t: string, listed: bool, name: string, d: Demand)
    requires Calm(st, name, d)
    ensures Balances(st, DeliverTemplate(t, listed), Step(st, DeliverTemplate(t, listed)), name, d)
  {
    var a, st' := DeliverTemplate(t, listed), TemplateEvent(st, t, listed);
    SameKids(st, st', name);
    if Refers(d, t) && |Tpl(st, t).pending| > 0 {
      DeliveryBalances(st, a, st', name, d);
    } else {
      assert !Refers(d, t) ==> name !in Users(st, t);
      OtherBalances(st, a, st', name, d);
    }
  }

  // ---- Work ----

  /** Unless it has to start again, the worker gets on with each step. */
  lemma WorkGetsOn(st: State, name: string, d: Demand, ok: bool)
    requires Calm(st, name, d) && Busy(st.worker, name) && (st.worker.Resolving? ==> ok)
    ensures var o := OutcomeOf(st, ok, d.players);
            && (o.next.Idle? || o.next.name == name)
            && (o != AGAIN ==> (if o.next.Idle? then 0 else P.StepsToEnd(o.next)) < P.StepsToEnd(st.worker))
  {
    CalmResolution(st, name, d);
  }

  predicate Changes(st: State, e: Effect, name: string) {
    match e
    case Nothing => false
    case ToServer(s) => s != Stored(Srv(st, name))
    case ToChild(kind, c) => Some(c) != Stored(Kid(st, kind, name))
  }

  /** A write adds at most one version, and none if nothing changes. */
  lemma WriteBacklog(st: State, e: Effect, name: string, d: Demand)
    ensures P.Backlog(Changed(st, name, e), name, d) <= P.Backlog(st, name, d) + One(Changes(st, e, name))
  {
    var st' := Changed(st, name, e);
    match e
    case Nothing =>
    case ToServer(s) =>
      StoredAfterWrite(Srv(st, name), s);
      SameKids(st, st', name);
    case ToChild(kind, c) =>
      StoredAfterWrite(Kid(st, kind, name), Some(c));
      OneKidMore(st, kind, Some(c), name);
  }

  lemma OneKidMore(st: State, kind: Kind, c: Option<Child>, name: string)
    ensures var st' := WriteChild(st, kind, name, c);
            P.KidsBacklog(st', name) <= P.KidsBacklog(st, name) + One(c != Stored(Kid(st, kind, name)))
  {
    var st' := WriteChild(st, kind, name, c);
    assert forall k :: k != kind ==> Kid(st', k, name) == Kid(st, k, name);
    StoredAfterWrite(Kid(st, kind, name), c);
  }

  lemma QueueAndWorkerApart(st: State, w: Worker, queue: set<string>, name: string, d: Demand)
    ensures P.Backlog(st.(worker := w, queue := queue), name, d) == P.Backlog(st, name, d)
  {
  }

  /** The worker asks for its request again only after a write or a failure. */
  lemma RequeuesForReason(st: State, name: string, d: Demand, ok: bool)
    requires Calm(st, name, d) && Busy(st.worker, name) && (st.worker.Resolving? ==> ok)
    ensures var o := OutcomeOf(st, ok, d.players); o.requeue ==> o == AGAIN || Changes(st, o.effect, name)
  {
    CalmResolution(st, name, d);
  }

  lemma OwnWorkBalances(st: State, ok: bool, name: string, d: Demand)
    requires Calm(st, name, d) && Busy(st.worker, name) && (st.worker.Resolving? ==> ok)
    ensures Balances(st, Work(ok, d.players), WorkStep(st, ok, d.players), name, d)
  {
    var o := OutcomeOf(st, ok, d.players);
    var mid, st' := Changed(st, name, o.effect), WorkStep(st, ok, d.players);
    WorkGetsOn(st, name, d, ok);
    RequeuesForReason(st, name, d, ok);
    WriteBacklog(st, o.effect, name, d);
    QueueAndWorkerApart(mid, st'.worker, st'.queue, name, d);
    assert OwnWrite(st, Work(ok, d.players), name) == Changes(st, o.effect, name);
  }

  lemma OtherWorkBalances(st: State, ok: bool, name: string, d: Demand)
    requires !Busy(st.worker, name)
    ensures Balances(st, Work(ok, d.players), Step(st, Work(ok, d.players)), name, d)
  {
    var st' := WorkStep(st, ok, d.players);
    if !st.worker.Idle? {
      OutcomeStays(st, ok, d.players);
      OtherConcluded(st, st.worker.name, OutcomeOf(st, ok, d.players), name);
    }
    OtherBalances(st, Work(ok, d.players), st', name, d);
  }

  lemma OtherConcluded(st: State, n: string, o: Outcome, name: string)
    requires n != name
    ensures var st' := Concluded(st, n, o);
            && Srv(st', name) == Srv(st, name) && (forall k :: Kid(st', k, name) == Kid(st, k, name))
            && st'.templates == st.templates && st'.worker == o.next && (name in st'.queue ==> name in st.queue)
  {
  }

  // ---- The other steps ----

  lemma QueueingBalances(st: State, a: Action, name: string, d: Demand)
    requires Queueing(a)
    ensures Balances(st, a, Step(st, a), name, d)
  {
    var st' := Step(st, a);
    QueueingKeeps(st, a);
    SameKids(st, st', name);
    assert P.Backlog(st', name, d) == P.Backlog(st, name, d);
  }

  lemma TemplateWorkBalances(st: State, ok: bool, listing: seq<string>, name: string, d: Demand)
    ensures Balances(st, WorkTemplate(ok, listing), Step(st, WorkTemplate(ok, listing)), name, d)
  {
    var st' := WorkTemplateStep(st, ok, listing);
    TemplateWorkKeeps(st, ok, listing);
    SameKids(st, st', name);
    WritesAtMostOne(st, ok, listing, d);
  }

  lemma WritesAtMostOne(st: State, ok: bool, listing: seq<string>, d: Demand)
    ensures P.TemplateBacklog(WorkTemplateStep(st, ok, listing), d) <= P.TemplateBacklog(st, d) + 1
  {
  }

  lemma StepBalances(st: State, a: Action, name: string, d: Demand)
    requires Calm(st, name, d) && Internal(st, a, d)
    ensures Balances(st, a, Step(st, a), name, d)
  {
    match a
    case DeliverServer(n) => ServerDeliveryBalances(st, n, name, d);
    case DeliverChild(kind, n) => ChildDeliveryBalances(st, kind, n, name, d);
    case DeliverTemplate(t, listed) => TemplateDeliveryBalances(st, t, listed, name, d);
    case WorkTemplate(ok, listing) => TemplateWorkBalances(st, ok, listing, name, d);
    case Work(ok, _) =>
      if Busy(st.worker, name) {
        OwnWorkBalances(st, ok, name, d);
      } else {
        OtherWorkBalances(st, ok, name, d);
      }
    case _ => QueueingBalances(st, a, name, d);
  }

  lemma EachStepPays(st: State, a: Action, name: string, d: Demand)
    requires Calm(st, name, d) && Internal(st, a, d)
    ensures Pays(st, a, name, d)
  {
    StepPays(st, a, name, d);
    StepBalances(st, a, name, d);
  }

  // ---- Whole runs ----

  function UsefulSteps(st: State, actions: seq<Action>, name: string, d: Demand): nat
    decreases |actions|
  {
    if |actions| == 0 then 0
    else One(Useful(st, actions[0], name, d)) + UsefulSteps(Step(st, actions[0]), actions[1..], name, d)
  }

  function Disturbances(st: State, actions: seq<Action>, name: string, d: Demand): nat
    decreases |actions|
  {
    if |actions| == 0 then 0
    else One(Disturbs(st, actions[0], name, d)) + Disturbances(Step(st, actions[0]), actions[1..], name, d)
  }

  /** Every run that leaves the server alone does only so much for it, and what it has done brings the end nearer. */
  lemma {:induction false} EffortIsBounded(st: State, actions: seq<Action>, name: string, d: Demand)
    requires Calm(st, name, d) && LeftAlone(st, actions, d)
    ensures UsefulSteps(st, actions, name, d) + Measure(Run(st, actions), name, d)
         <= Measure(st, name, d) + 22 * Disturbances(st, actions, name, d)
    decreases |actions|
  {
    if |actions| > 0 {
      EachStepPays(st, actions[0], name, d);
      StaysCalm(st, actions[0], name, d);
      EffortIsBounded(Step(st, actions[0]), actions[1..], name, d);
    }
  }

  /** Nothing is left to do for the server, and the worker does not keep it waiting. */
  ghost predicate Exhausted(st: State, name: string, d: Demand) {
    st.worker.Idle? && forall a :: !Useful(st, a, name, d)
  }

  lemma ExhaustedIsQuiet(st: State, name: string, d: Demand)
    requires Exhausted(st, name, d)
    ensures P.Backlog(st, name, d) == 0 && P.Unoccupied(st, name)
  {
    if P.Backlog(st, name, d) > 0 {
      P.NextDeliveryPending(st, name, d);
      assert Useful(st, P.NextDelivery(st, name, d), name, d);
    }
    assert !Useful(st, Take(name), name, d);
  }

  /** The server is at rest, or it is ready and at most its player count has to be refreshed. */
  ghost predicate InOrder(st: State, name: string, d: Demand) {
    && OperatorSettling.Settled(st, name)
    && (AtRest(st, name, d) || (Srv(st, name).cached.Some? && Srv(st, name).cached.value.status.ready))
  }

  /**
   From every reachable state in which the versions of a server and of its template agree: in every
   run that leaves the server alone and loses no event of its template, the steps done for the server
   are bounded by the measure of that state and the number of disturbances; and if no further such
   step is possible, the server is in order.
   */
  lemma EveryRunComesToRest(world: World, past: seq<Action>, actions: seq<Action>, name: string, d: Demand)
    requires OperatorSettling.AllTold(Init(world), past, name)
    requires var st := Run(Init(world), past);
             Calm(st, name, d) && LeftAlone(st, actions, d) && OperatorSettling.AllTold(st, actions, name)
    ensures var st, end := Run(Init(world), past), Run(Run(Init(world), past), actions);
            && UsefulSteps(st, actions, name, d) <= Measure(st, name, d) + 22 * Disturbances(st, actions, name, d)
            && (Exhausted(end, name, d) ==> InOrder(end, name, d))
  {
    var st := Run(Init(world), past);
    var end := Run(st, actions);
    EffortIsBounded(st, actions, name, d);
    OperatorSettling.RunKeeps(Init(world), past, name);
    OperatorSettling.RunKeeps(st, actions, name);
    RunStaysCalm(st, actions, name, d);
    if Exhausted(end, name, d) {
      ExhaustedIsQuiet(end, name, d);
      P.QueuedOrAtRest(end, name, d);
      P.NoBacklog(end, name, d);
    }
  }

  lemma {:induction false} RunStaysCalm(st: State, actions: seq<Action>, name: string, d: Demand)
    requires Calm(st, name, d) && LeftAlone(st, actions, d)
    ensures Calm(Run(st, actions), name, d)
    decreases |actions|
  {
    if |actions| > 0 {
      StaysCalm(st, actions[0], name, d);
      RunStaysCalm(Step(st, actions[0]), actions[1..], name, d);
    }
  }

  /** In numbers: what is on its way, and what may still be written. */
  lemma MeasureBound(st: State, name: string, d: Demand)
    ensures Measure(st, name, d)
         <= 1317 + 176 * |Kid(st, Deployments, name).pending| + 22 * P.Backlog(st, name, d)
  {
    PotentialBound(st, name, d);
  }
}
