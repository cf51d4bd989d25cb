/**
 The template index: in every reachable state each template is queued, about to be queued by an
 event on its way, being worked on with up-to-date data, or it is ready and its `usedBy` names
 exactly the servers that refer to it, each once.
 */
module OperatorTemplates {
  import opened Wrappers
  import opened Operator

  predicate Listed(st: State, template: string) {
    var cached := Tpl(st, template).cached;
    cached.Some? ==> cached.value.ready && IsListing(st, template, cached.value.usedBy)
  }

  predicate BusyWith(w: TemplateWorker, template: string) { !w.Free? && w.name == template }

  predicate GoodListing(st: State, w: TemplateWorker) {
    match w
    case Free => true
    case Fetching(_) => true
    case Listing(name, t) => Tpl(st, name).cached == Some(t)
    case Updating(name, t, usedBy) => Tpl(st, name).cached == Some(t) && IsListing(st, name, usedBy)
  }

  predicate TemplateCovered(st: State, template: string) {
    || template in st.templateQueue
    || |Tpl(st, template).pending| > 0
    || (if BusyWith(st.templateWorker, template) then GoodListing(st, st.templateWorker) else Listed(st, template))
  }

  // ---- The index ----

  lemma UsersAre(st: State, template: string, name: string)
    ensures name in Users(st, template) <==> Uses(st, name, template)
  {
  }

  lemma SameUsers(st: State, st': State, template: string)
    requires forall n :: Uses(st', n, template) == Uses(st, n, template)
    ensures Users(st', template) == Users(st, template)
  {
    forall n ensures n in Users(st', template) <==> n in Users(st, template) {
      UsersAre(st, template, n);
      UsersAre(st', template, n);
    }
  }

  /** A step that leaves the template's cell, its users and the worker alone. */
  lemma TemplateQuietStep(st: State, st': State, template: string)
    requires TemplateCovered(st, template)
    requires forall n :: Srv(st', n).cached == Srv(st, n).cached
    requires Tpl(st', template).cached == Tpl(st, template).cached
    requires Tpl(st, template).pending <= Tpl(st', template).pending
    requires template in st.templateQueue ==> template in st'.templateQueue
    requires BusyWith(st'.templateWorker, template) == BusyWith(st.templateWorker, template)
    requires BusyWith(st.templateWorker, template) ==> st'.templateWorker == st.templateWorker
    ensures TemplateCovered(st', template)
  {
    SameUsers(st, st', template);
  }

  // ---- Events ----

  /** A server's event queues the template it referred to and the one it refers to: the others have the same users. */
  lemma ServerEventListed(st: State, n: string, template: string)
    requires TemplateCovered(st, template)
    ensures TemplateCovered(ServerEvent(st, n), template)
  {
    var st' := ServerEvent(st, n);
    if |Srv(st, n).pending| > 0 && template !in st'.templateQueue {
      assert forall m :: m != n ==> Srv(st', m) == Srv(st, m);
      assert !Uses(st, n, template) && !Uses(st', n, template);
      SameUsers(st, st', template);
    }
  }

  /** Switching from template `a` to template `b` makes both stale, and both are queued. */
  lemma SwitchQueuesBoth(st: State, n: string, a: string, b: string)
    requires |Srv(st, n).pending| > 0 && Uses(st, n, a)
    requires Srv(st, n).pending[0].Some? && Srv(st, n).pending[0].value.spec.templateRef == Some(b)
    ensures var st' := ServerEvent(st, n);
            && a in st'.templateQueue && b in st'.templateQueue
            && Uses(st', n, b) && (a != b ==> !Uses(st', n, a))
  {
  }

  lemma TemplateEventListed(st: State, t: string, listed: bool, template: string)
    requires TemplateCovered(st, template)
    ensures TemplateCovered(TemplateEvent(st, t, listed), template)
  {
    if |Tpl(st, t).pending| > 0 && t != template {
      TemplateQuietStep(st, TemplateEvent(st, t, listed), template);
    }
  }

  lemma ChildEventListed(st: State, kind: Kind, n: string, template: string)
    requires TemplateCovered(st, template)
    ensures TemplateCovered(ChildEvent(st, kind, n), template)
  {
    TemplateQuietStep(st, ChildEvent(st, kind, n), template);
  }

  lemma RestartListed(st: State, template: string)
    ensures TemplateCovered(Restarted(st), template)
  {
  }

  // ---- Writes ----

  lemma WriteServerListed(st: State, n: string, s: Option<Server>)
    ensures var st' := WriteServer(st, n, s);
            (forall m :: Srv(st', m).cached == Srv(st, m).cached) && st'.templates == st.templates
            && st'.templateQueue == st.templateQueue && st'.templateWorker == st.templateWorker
  {
  }

  lemma EnvironmentListed(st: State, a: Action, template: string)
    requires TemplateCovered(st, template)
    requires a.PutServer? || a.DeleteServer? || a.PutTemplate? || a.DeleteTemplate? || a.PutChild?
    ensures TemplateCovered(Step(st, a), template)
  {
    match a {
      case PutServer(n, uid, spec, finalizer, foreign) =>
        WriteServerListed(st, n, Edited(Stored(Srv(st, n)), uid, spec, finalizer, foreign));
      case DeleteServer(n) => WriteServerListed(st, n, Marked(Stored(Srv(st, n))));
      case PutTemplate(t, config) =>
      case DeleteTemplate(t) =>
      case PutChild(k, n, c) =>
    }
    TemplateQuietStep(st, Step(st, a), template);
  }

  // ---- The controllers ----

  lemma WorkListed(st: State, ok: bool, players: Option<int>, template: string)
    requires TemplateCovered(st, template)
    ensures TemplateCovered(WorkStep(st, ok, players), template)
  {
    if !st.worker.Idle? {
      ConcludedListed(st, st.worker.name, OutcomeOf(st, ok, players), template);
    }
  }

  lemma ConcludedListed(st: State, n: string, o: Outcome, template: string)
    requires TemplateCovered(st, template)
    ensures TemplateCovered(Concluded(st, n, o), template)
  {
    if o.effect.ToServer? {
      WriteServerListed(st, n, o.effect.server);
    }
    TemplateQuietStep(st, Concluded(st, n, o), template);
  }

  lemma TemplateWorkListed(st: State, ok: bool, listing: seq<string>, template: string)
    requires TemplateCovered(st, template)
    ensures TemplateCovered(WorkTemplateStep(st, ok, listing), template)
  {
    var w, st' := st.templateWorker, WorkTemplateStep(st, ok, listing);
    if !BusyWith(w, template) {
      TemplateQuietStep(st, st', template);
    } else {
      OwnTemplateListed(st, ok, listing, template);
    }
  }

  lemma OwnTemplateListed(st: State, ok: bool, listing: seq<string>, template: string)
    requires TemplateCovered(st, template) && BusyWith(st.templateWorker, template)
    ensures TemplateCovered(WorkTemplateStep(st, ok, listing), template)
  {
    var st' := WorkTemplateStep(st, ok, listing);
    assert st'.servers == st.servers;
    assert Users(st', template) == Users(st, template);
  }

  lemma QueueStepListed(st: State, a: Action, template: string)
    requires TemplateCovered(st, template) && (a.Wake? || a.WakeTemplate? || a.Take? || a.TakeTemplate?)
    ensures TemplateCovered(Step(st, a), template)
  {
    if !(a.TakeTemplate? && a.name == template && st.templateWorker.Free?) {
      TemplateQuietStep(st, Step(st, a), template);
    }
  }

  lemma StepListed(st: State, a: Action, template: string)
    requires TemplateCovered(st, template)
    ensures TemplateCovered(Step(st, a), template)
  {
    match a
    case Restart => RestartListed(st, template);
    case DeliverServer(n) => ServerEventListed(st, n, template);
    case DeliverTemplate(t, listed) => TemplateEventListed(st, t, listed, template);
    case DeliverChild(k, n) => ChildEventListed(st, k, n, template);
    case Work(ok, players) => WorkListed(st, ok, players, template);
    case WorkTemplate(ok, listing) => TemplateWorkListed(st, ok, listing, template);
    case Wake(_) => QueueStepListed(st, a, template);
    case WakeTemplate(_) => QueueStepListed(st, a, template);
    case Take(_) => QueueStepListed(st, a, template);
    case TakeTemplate(_) => QueueStepListed(st, a, template);
    case _ => EnvironmentListed(st, a, template);
  }

  lemma {:induction false} RunListed(st: State, actions: seq<Action>, template: string)
    requires TemplateCovered(st, template)
    ensures TemplateCovered(Run(st, actions), template)
    decreases |actions|
  {
    if |actions| > 0 {
      StepListed(st, actions[0], template);
      RunListed(Step(st, actions[0]), actions[1..], template);
    }
  }

  /** Over every run, every template is listed or on the way to be. */
  lemma IndexAgrees(world: World, actions: seq<Action>, template: string)
    ensures TemplateCovered(Run(Init(world), actions), template)
  {
    RunListed(Init(world), actions, template);
  }
}
