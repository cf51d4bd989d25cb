/**
 The parts of the controllers that update objects step by step: the status of a server
 (`updateStatus`, `setCondition`) and the list of a template's users.
 */
module OperatorObjects {
  import opened Wrappers
  import opened Operator
  import opened OperatorStatus

  /** Where the one condition of the type is found, or else at the end. */
  lemma {:induction false} SetAt(conditions: seq<Condition>, c: Condition, i: nat)
    requires i <= |conditions| && forall j :: 0 <= j < i ==> conditions[j].kind != c.kind
    requires i < |conditions| ==> conditions[i].kind == c.kind
    ensures SetCondition(conditions, c) == if i < |conditions| then conditions[i := c] else conditions + [c]
    decreases i
  {
    if i > 0 {
      SetAt(conditions[1..], c, i - 1);
    }
  }

  /** `server.Status`, which a reconcile fills in before it saves it. */
  class StatusObject {
    var ready: bool
    var players: int
    var templateRef: string
    var endpoint: Option<string>
    var gamePort: nat
    var conditions: seq<Condition>

    constructor (s: Status)
      ensures Value() == s
    {
      ready, players, templateRef := s.ready, s.players, s.templateRef;
      endpoint, gamePort, conditions := s.endpoint, s.gamePort, s.conditions;
    }

    function Value(): Status
      reads this
    {
      Status(ready, players, templateRef, endpoint, gamePort, conditions)
    }

    /** Replaces the condition of this type, or appends one. */
    method SetStatusCondition(kind: ConditionType, status: bool, reason: Reason)
      modifies this`conditions
      ensures Value() == With(old(Value()), kind, status, reason)
    {
      var c := Condition(kind, status, reason);
      var i := 0;
      while i < |conditions| && conditions[i].kind != kind
        invariant i <= |conditions|
        invariant forall j :: 0 <= j < i ==> conditions[j].kind != kind
      {
        i := i + 1;
      }
      SetAt(conditions, c, i);
      if i < |conditions| {
        conditions := conditions[i := c];
      } else {
        conditions := conditions + [c];
      }
    }

    /** The template was resolved, or there is none. */
    method MarkResolved(ref: Option<string>)
      modifies this
      ensures forall s: Server :: s.status == old(Value()) && s.spec.templateRef == ref ==> Value() == AfterResolve(s)
    {
      if ref.Some? {
        templateRef := ref.value;
        SetStatusCondition(TemplateResolved, true, TemplateFound);
      }
    }

    /** `updateStatus` up to the API call; the answer is whether the server is ready. */
    method UpdateStatus(spec: ServerSpec, deployment: Option<Child>, queried: Option<int>) returns (serverReady: bool)
      modifies this
      ensures Value() == EndpointStatus(
                           ReadyStatus(PausedStatus(old(Value()), spec.paused), spec.paused, deployment, queried),
                           spec.gateway)
      ensures serverReady == ready == (deployment.Some? && deployment.value.ready > 0 && !spec.paused)
      ensures players == if ready then queried.GetOr(old(players)) else 0
    {
      if spec.paused {
        SetStatusCondition(Paused, true, ServerPaused);
      } else {
        SetStatusCondition(Paused, false, ServerRunning);
      }
      serverReady := false;
      if deployment.None? {
        ready, players := false, 0;
        SetStatusCondition(Ready, false, DeploymentNotFound);
      } else {
        serverReady := UpdateReady(spec.paused, deployment.value.ready > 0, queried);
      }
      if spec.gateway.Some? && spec.gateway.value.hostname != "" {
        endpoint := Some(spec.gateway.value.hostname);
      }
      gamePort := GAME_PORT;
    }

    /** There is a Deployment. */
    method UpdateReady(paused: bool, available: bool, queried: Option<int>) returns (serverReady: bool)
      modifies this
      ensures forall d: Child ::
                (d.ready > 0) == available ==> Value() == ReadyStatus(old(Value()), paused, Some(d), queried)
      ensures ready == (available && !paused) && players == if ready then queried.GetOr(old(players)) else 0
      ensures serverReady == ready
    {
      serverReady := false;
      ready := available;
      if paused {
        ready, players := false, 0;
        SetStatusCondition(Ready, false, ServerPaused);
      } else if available {
        serverReady := true;
        SetStatusCondition(Ready, true, ServerReady);
        if queried.Some? {
          players := queried.value;
        }
      } else {
        players := 0;
        SetStatusCondition(Ready, false, ServerNotReady);
      }
    }
  }

  /** A whole pass over a status is the report that the protocol saves, and it keeps the status consistent. */
  method FillIn(s: Server, deployment: Option<Child>, queried: Option<int>) returns (status: Status, serverReady: bool)
    ensures status == Report(s, deployment, queried) && serverReady == status.ready
    ensures Says(s, deployment, queried, status)
    ensures Consistent(s.status) ==> Consistent(status)
  {
    var record := new StatusObject(s.status);
    record.MarkResolved(s.spec.templateRef);
    serverReady := record.UpdateStatus(s.spec, deployment, queried);
    status := record.Value();
    ReportSays(s, deployment, queried);
    if Consistent(s.status) {
      ReportConsistent(s, deployment, queried);
    }
  }

  // ---- usedBy ----

  datatype Item = Item(name: string, server: Server)

  /** The index on `spec.templateRef`. */
  function IndexKeys(server: Server): seq<string> {
    match server.spec.templateRef { case None => [] case Some(t) => [t] }
  }

  /** The cached servers, each once, in some order. */
  ghost predicate Enumerates(st: State, items: seq<Item>) {
    && (forall i, j :: 0 <= i < j < |items| ==> items[i].name != items[j].name)
    && (forall i :: 0 <= i < |items| ==> Srv(st, items[i].name).cached == Some(items[i].server))
    && (forall n :: Srv(st, n).cached.Some? ==> exists i :: 0 <= i < |items| && items[i].name == n)
  }

  /** The loop over the listed items: the names of those the index gives for the template, each once. */
  method UsedBy(items: seq<Item>, template: string) returns (usedBy: seq<string>)
    requires forall i, j :: 0 <= i < j < |items| ==> items[i].name != items[j].name
    ensures NamesUsing(items, template, usedBy)
  {
    usedBy := [];
    for k := 0 to |items|
      invariant NamesUsing(items[..k], template, usedBy)
    {
      OneMoreItem(items, template, usedBy, k);
      if template in IndexKeys(items[k].server) {
        usedBy := usedBy + [items[k].name];
      }
    }
    assert items[..|items|] == items;
  }

  ghost predicate NamesUsing(items: seq<Item>, template: string, names: seq<string>) {
    && Distinct(names)
    && (forall n :: n in names <==>
          exists i :: 0 <= i < |items| && items[i].name == n && template in IndexKeys(items[i].server))
  }

  lemma OneMoreItem(items: seq<Item>, template: string, names: seq<string>, k: nat)
    requires k < |items| && NamesUsing(items[..k], template, names)
    requires forall i, j :: 0 <= i < j < |items| ==> items[i].name != items[j].name
    ensures NamesUsing(items[..k + 1], template,
                       if template in IndexKeys(items[k].server) then names + [items[k].name] else names)
  {
    var item := items[k];
    assert items[..k + 1] == items[..k] + [item];
    assert item.name !in names;
  }

  /** Whatever the order of the cached servers, what the loop collects is a listing of the template's users. */
  lemma CollectedIsListing(st: State, items: seq<Item>, template: string, usedBy: seq<string>)
    requires Enumerates(st, items) && NamesUsing(items, template, usedBy)
    ensures IsListing(st, template, usedBy)
  {
    assert (set n | n in usedBy) == Users(st, template);
  }
}
