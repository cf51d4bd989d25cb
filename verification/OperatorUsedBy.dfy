/**
 The order of `usedBy`. The template controller writes the users in the order in which the index
 happens to list them, so its writes are bounded exactly for templates with at most one user: with
 two or more, nothing in the code keeps it from rewriting the list for ever.
 */
module OperatorUsedBy {
  import opened Wrappers
  import opened ConfigSpec
  import opened Operator
  import opened OperatorTemplates

  lemma SwapFirst(names: seq<string>)
    requires Distinct(names) && |names| >= 2
    ensures var swapped := [names[1], names[0]] + names[2..];
            Distinct(swapped) && swapped != names && (set n | n in swapped) == (set n | n in names)
  {
    var swapped := [names[1], names[0]] + names[2..];
    assert names == [names[0], names[1]] + names[2..];
    assert swapped[0] != names[0];
  }

  lemma {:induction false} DistinctSize(names: seq<string>)
    requires Distinct(names)
    ensures |set n | n in names| == |names|
  {
    if |names| > 0 {
      var init, last := names[..|names| - 1], names[|names| - 1];
      DistinctSize(init);
      assert names == init + [last];
      assert (set n | n in names) == (set n | n in init) + {last};
      assert last !in init;
    }
  }

  lemma FewNamesOneOrder(a: seq<string>, b: seq<string>)
    requires Distinct(a) && Distinct(b) && (set n | n in a) == (set n | n in b) && |a| <= 1
    ensures a == b
  {
    DistinctSize(a);
    DistinctSize(b);
    if |a| == 1 {
      assert a[0] in (set n | n in a);
      assert a[0] in b;
    }
  }

  /** The listing is determined exactly when there is at most one user. */
  lemma OrderIsDetermined(st: State, template: string, usedBy: seq<string>)
    requires IsListing(st, template, usedBy)
    ensures (forall listing :: IsListing(st, template, listing) ==> listing == usedBy) <==> |Users(st, template)| <= 1
  {
    DistinctSize(usedBy);
    if |usedBy| <= 1 {
      forall listing | IsListing(st, template, listing) ensures listing == usedBy {
        FewNamesOneOrder(usedBy, listing);
      }
    } else {
      SwapFirst(usedBy);
      assert IsListing(st, template, [usedBy[1], usedBy[0]] + usedBy[2..]);
    }
  }

  /** The template is queued, and nothing about it is on its way. */
  predicate Due(st: State, template: string) {
    && template in st.templateQueue && st.templateWorker.Free?
    && |Tpl(st, template).pending| == 0 && Tpl(st, template).cached.Some?
  }

  /** It is queued although it is up to date. */
  predicate Restless(st: State, template: string) {
    Due(st, template) && IsListing(st, template, Tpl(st, template).cached.value.usedBy)
  }

  function TakeRound(st: State, template: string, listing: seq<string>): State {
    var fetched := Step(Step(st, TakeTemplate(template)), WorkTemplate(true, listing));
    Step(Step(fetched, WorkTemplate(true, listing)), WorkTemplate(true, listing))
  }

  /** One reconcile, on data that is up to date, with a listing of its own. */
  lemma ListingIsStored(st: State, template: string, listing: seq<string>)
    requires Due(st, template) && IsListing(st, template, listing)
    ensures var st' := TakeRound(st, template, listing);
            && Stored(Tpl(st', template)) == Some(Tpl(st, template).cached.value.(usedBy := listing, ready := true))
            && st'.templateWorker.Free? && st'.servers == st.servers
            && Tpl(st', template) == Write(Tpl(st, template), Stored(Tpl(st', template)))
  {
    var t := Tpl(st, template).cached.value;
    var st1 := Step(st, TakeTemplate(template));
    var st2 := Step(st1, WorkTemplate(true, listing));
    assert st2.templateWorker == Listing(template, t);
    assert Users(st2, template) == Users(st, template);
    var st3 := Step(st2, WorkTemplate(true, listing));
    assert st3.templateWorker == Updating(template, t, listing);
  }

  /**
   One round leaves a template that is up to date and marked ready alone, however its users are
   listed, exactly when it has at most one.
   */
  lemma RoundIsQuiet(st: State, template: string)
    requires Restless(st, template) && Tpl(st, template).cached.value.ready
    ensures (forall listing :: IsListing(st, template, listing) ==>
               Tpl(TakeRound(st, template, listing), template) == Tpl(st, template))
            <==> |Users(st, template)| <= 1
  {
    var t := Tpl(st, template).cached.value;
    forall listing | IsListing(st, template, listing)
      ensures Tpl(TakeRound(st, template, listing), template) == Tpl(st, template) <==> listing == t.usedBy
    {
      ListingIsStored(st, template, listing);
    }
    OrderIsDetermined(st, template, t.usedBy);
  }

  // ---- A template whose users stay the same ----

  /** Whether a version of a server refers to the template; one that does is not being deleted. */
  predicate Agrees(v: Option<Server>, template: string, uses: bool) {
    && ((v.Some? && v.value.spec.templateRef == Some(template)) <==> uses)
    && (uses ==> !v.value.deleting)
  }

  predicate VersionsAgree(c: Cell<Server>, template: string, uses: bool) {
    Agrees(c.cached, template, uses) && forall i :: 0 <= i < |c.pending| ==> Agrees(c.pending[i], template, uses)
  }

  /** The template exists, and no deletion of it is on its way. */
  predicate Exists(c: Cell<Template>) {
    Stored(c).Some? && forall i :: 0 <= i < |c.pending| ==> c.pending[i].Some?
  }

  /** All versions of all servers agree on who uses the template. */
  ghost predicate Steady(st: State, template: string, users: set<string>) {
    Exists(Tpl(st, template)) && forall n :: VersionsAgree(Srv(st, n), template, n in users)
  }

  /** The users may do what they like, as long as it does not change who uses the template. */
  ghost predicate SteadyRun(st: State, actions: seq<Action>, template: string, users: set<string>)
    decreases |actions|
  {
    Steady(st, template, users)
    && (|actions| == 0 || SteadyRun(Step(st, actions[0]), actions[1..], template, users))
  }

  /** A step in which the template controller changes the template. */
  predicate Rewrites(st: State, a: Action, template: string) {
    a.WorkTemplate? && Stored(Tpl(Step(st, a), template)) != Stored(Tpl(st, template))
  }

  function TemplateWrites(st: State, actions: seq<Action>, template: string): nat
    decreases |actions|
  {
    if |actions| == 0 then 0
    else
      (if Rewrites(st, actions[0], template) then 1 else 0)
      + TemplateWrites(Step(st, actions[0]), actions[1..], template)
  }

  lemma SteadyUsers(st: State, template: string, users: set<string>)
    requires Steady(st, template, users)
    ensures Users(st, template) == users
  {
    forall n ensures n in Users(st, template) <==> n in users {
      UsersAre(st, template, n);
      assert VersionsAgree(Srv(st, n), template, n in users);
    }
  }

  /** What the system does by itself, restarts included. */
  predicate ByItself(a: Action) {
    || a.DeliverServer? || a.DeliverTemplate? || a.DeliverChild? || a.Take? || a.TakeTemplate? || a.Work?
    || a.WorkTemplate? || a.Wake? || a.WakeTemplate? || a.Restart?
  }

  lemma WriteAgrees(st: State, name: string, s: Option<Server>, template: string, users: set<string>)
    requires Steady(st, template, users) && Agrees(s, template, name in users)
    ensures Steady(WriteServer(st, name, s), template, users)
  {
    var st' := WriteServer(st, name, s);
    forall n ensures VersionsAgree(Srv(st', n), template, n in users) {
      assert VersionsAgree(Srv(st, n), template, n in users);
    }
  }

  /** The server controller keeps what a server refers to, and takes no server away that is not being deleted. */
  lemma WorkSteady(st: State, ok: bool, players: Option<int>, template: string, users: set<string>)
    requires Steady(st, template, users)
    ensures Steady(WorkStep(st, ok, players), template, users)
  {
    if !st.worker.Idle? {
      var name, o := st.worker.name, OutcomeOf(st, ok, players);
      assert VersionsAgree(Srv(st, name), template, name in users);
      if o.effect.ToServer? {
        assert Agrees(Stored(Srv(st, name)), template, name in users);
        assert Agrees(o.effect.server, template, name in users);
        WriteAgrees(st, name, o.effect.server, template, users);
        SteadyElsewhere(WriteServer(st, name, o.effect.server), Concluded(st, name, o), template, users);
      } else {
        SteadyElsewhere(st, Concluded(st, name, o), template, users);
      }
    }
  }

  lemma SteadyElsewhere(st: State, st': State, template: string, users: set<string>)
    requires Steady(st, template, users) && st'.servers == st.servers && st'.templates == st.templates
    ensures Steady(st', template, users)
  {
    forall n ensures VersionsAgree(Srv(st', n), template, n in users) {
      assert VersionsAgree(Srv(st, n), template, n in users);
    }
  }

  lemma EventSteady(st: State, a: Action, template: string, users: set<string>)
    requires Steady(st, template, users) && (a.DeliverServer? || a.DeliverTemplate? || a.Restart?)
    ensures Steady(Step(st, a), template, users)
  {
    var st' := Step(st, a);
    forall n ensures VersionsAgree(Srv(st', n), template, n in users) {
      assert VersionsAgree(Srv(st, n), template, n in users);
    }
  }

  lemma TemplateWorkSteady(st: State, ok: bool, listing: seq<string>, template: string, users: set<string>)
    requires Steady(st, template, users)
    ensures Steady(WorkTemplateStep(st, ok, listing), template, users)
  {
    var st' := WorkTemplateStep(st, ok, listing);
    forall n ensures VersionsAgree(Srv(st', n), template, n in users) {
      assert VersionsAgree(Srv(st, n), template, n in users);
    }
  }

  /** Only the users can change who uses a template. */
  lemma StaysSteady(st: State, a: Action, template: string, users: set<string>)
    requires Steady(st, template, users) && ByItself(a)
    ensures Steady(Step(st, a), template, users)
  {
    match a
    case Work(ok, players) => WorkSteady(st, ok, players, template, users);
    case WorkTemplate(ok, listing) => TemplateWorkSteady(st, ok, listing, template, users);
    case DeliverServer(_) => EventSteady(st, a, template, users);
    case DeliverTemplate(_, _) => EventSteady(st, a, template, users);
    case Restart => EventSteady(st, a, template, users);
    case _ => SteadyElsewhere(st, Step(st, a), template, users);
  }

  // ---- With one user at most the writes are bounded ----

  predicate Names(names: seq<string>, users: set<string>) {
    Distinct(names) && (set n | n in names) == users
  }

  /** The template lists its users and is marked ready. */
  predicate UpToDate(t: Option<Template>, users: set<string>) {
    t.Some? && Names(t.value.usedBy, users) && t.value.ready
  }

  /** The worker is about to write a list that it made before. */
  predicate Stale(w: TemplateWorker, template: string, users: set<string>) {
    w.Updating? && w.name == template && !Names(w.usedBy, users)
  }

  /** An upper bound on the writes still to come. */
  function Debt(st: State, template: string, users: set<string>): nat {
    (if UpToDate(Stored(Tpl(st, template)), users) then 0 else 1)
    + (if Stale(st.templateWorker, template, users) then 2 else 0)
  }

  lemma SameNames(a: seq<string>, b: seq<string>, users: set<string>)
    requires Names(a, users) && Names(b, users) && |users| <= 1
    ensures a == b
  {
    DistinctSize(a);
    FewNamesOneOrder(a, b);
  }

  lemma UpdatePays(st: State, ok: bool, listing: seq<string>, template: string, users: set<string>)
    requires |users| <= 1 && st.templateWorker.Updating?
    ensures var a := WorkTemplate(ok, listing);
            && Debt(Step(st, a), template, users) <= Debt(st, template, users)
            && (Rewrites(st, a, template) ==> Debt(Step(st, a), template, users) < Debt(st, template, users))
  {
    var w := st.templateWorker;
    if w.name == template && Rewrites(st, WorkTemplate(ok, listing), template) {
      if Names(w.usedBy, users) && UpToDate(Stored(Tpl(st, template)), users) {
        SameNames(w.usedBy, w.template.usedBy, users);
      }
    }
  }

  /** A list that is made now names the users. */
  lemma ListingPays(st: State, ok: bool, listing: seq<string>, template: string, users: set<string>)
    requires Steady(st, template, users) && !st.templateWorker.Updating?
    ensures var a := WorkTemplate(ok, listing);
            Debt(Step(st, a), template, users) <= Debt(st, template, users) && !Rewrites(st, a, template)
  {
    SteadyUsers(st, template, users);
  }

  /** Whatever happens, as long as the users of the template stay the same. */
  lemma TemplateStepPays(st: State, a: Action, template: string, users: set<string>)
    requires |users| <= 1 && Steady(st, template, users) && Steady(Step(st, a), template, users)
    ensures Debt(Step(st, a), template, users) <= Debt(st, template, users)
    ensures Rewrites(st, a, template) ==> Debt(Step(st, a), template, users) < Debt(st, template, users)
  {
    if a.WorkTemplate? {
      if st.templateWorker.Updating? {
        UpdatePays(st, a.ok, a.listing, template, users);
      } else {
        ListingPays(st, a.ok, a.listing, template, users);
      }
    } else if a.DeliverTemplate? || a.Restart? {
      assert Stored(Tpl(Step(st, a), template)) == Stored(Tpl(st, template));
    } else if !a.PutTemplate? && !a.DeleteTemplate? {
      OtherStepsKeepTemplates(st, a);
    }
  }

  lemma OtherStepsKeepTemplates(st: State, a: Action)
    requires !a.WorkTemplate? && !a.PutTemplate? && !a.DeleteTemplate? && !a.DeliverTemplate? && !a.Restart?
    ensures var st' := Step(st, a);
            && st'.templates == st.templates
            && (st'.templateWorker == st.templateWorker || st'.templateWorker.Fetching?)
  {
  }

  /** Every run in which the users of the template stay the same, with at most one, has at most three writes. */
  lemma {:induction false} TemplateWritesAreBounded(st: State, actions: seq<Action>, template: string,
                                                     users: set<string>)
    requires |users| <= 1 && SteadyRun(st, actions, template, users)
    ensures TemplateWrites(st, actions, template) + Debt(Run(st, actions), template, users)
         <= Debt(st, template, users) <= 3
    decreases |actions|
  {
    if |actions| > 0 {
      TemplateStepPays(st, actions[0], template, users);
      TemplateWritesAreBounded(Step(st, actions[0]), actions[1..], template, users);
    }
  }

  // ---- With two users they are not ----

  /** With two users, a reconcile may store another order, whose event queues the template again. */
  lemma RewriteRound(st: State, template: string) returns (listing: seq<string>)
    requires Restless(st, template) && |Users(st, template)| >= 2
    ensures IsListing(st, template, listing)
    ensures var mid := TakeRound(st, template, listing);
            var st' := Step(mid, DeliverTemplate(template, true));
            && Restless(st', template) && Users(st', template) == Users(st, template)
            && Stored(Tpl(mid, template)) != Stored(Tpl(st, template))
  {
    var usedBy := Tpl(st, template).cached.value.usedBy;
    DistinctSize(usedBy);
    SwapFirst(usedBy);
    listing := [usedBy[1], usedBy[0]] + usedBy[2..];
    ListingIsStored(st, template, listing);
    var mid := TakeRound(st, template, listing);
    var st' := Step(mid, DeliverTemplate(template, true));
    assert Users(st', template) == Users(st, template);
  }

  lemma RunFirst(st: State, first: Action, rest: seq<Action>, template: string, users: set<string>)
    requires ByItself(first) && Steady(st, template, users) && SteadyRun(Step(st, first), rest, template, users)
    ensures SteadyRun(st, [first] + rest, template, users)
    ensures Run(st, [first] + rest) == Run(Step(st, first), rest)
    ensures TemplateWrites(st, [first] + rest, template)
         == (if Rewrites(st, first, template) then 1 else 0) + TemplateWrites(Step(st, first), rest, template)
  {
    assert ([first] + rest)[1..] == rest;
  }

  /** The steps of the template controller, none of them failing, and the delivery of the template. */
  predicate ControllerAlone(actions: seq<Action>) {
    forall a :: a in actions ==> a.TakeTemplate? || (a.WorkTemplate? && a.ok) || a.DeliverTemplate?
  }

  /** One round put in front of a run. */
  lemma RoundFirst(st: State, template: string, listing: seq<string>, rest: seq<Action>, users: set<string>)
    returns (actions: seq<Action>)
    requires Restless(st, template) && IsListing(st, template, listing) && Steady(st, template, users)
    requires ControllerAlone(rest)
    requires var mid := TakeRound(st, template, listing);
             && Stored(Tpl(mid, template)) != Stored(Tpl(st, template))
             && SteadyRun(Step(mid, DeliverTemplate(template, true)), rest, template, users)
    ensures SteadyRun(st, actions, template, users) && ControllerAlone(actions)
    ensures TemplateWrites(st, actions, template)
         == 1 + TemplateWrites(Step(TakeRound(st, template, listing), DeliverTemplate(template, true)), rest, template)
  {
    var work := WorkTemplate(true, listing);
    var st1 := Step(st, TakeTemplate(template));
    var st2 := Step(st1, work);
    var st3 := Step(st2, work);
    var st4 := Step(st3, work);
    StaysSteady(st, TakeTemplate(template), template, users);
    StaysSteady(st1, work, template, users);
    StaysSteady(st2, work, template, users);
    StaysSteady(st3, work, template, users);
    ReadsDoNotRewrite(st, template, listing);
    actions := [DeliverTemplate(template, true)] + rest;
    RunFirst(st4, DeliverTemplate(template, true), rest, template, users);
    RunFirst(st3, work, actions, template, users);
    actions := [work] + actions;
    RunFirst(st2, work, actions, template, users);
    actions := [work] + actions;
    RunFirst(st1, work, actions, template, users);
    actions := [work] + actions;
    RunFirst(st, TakeTemplate(template), actions, template, users);
    actions := [TakeTemplate(template)] + actions;
  }

  lemma ReadsDoNotRewrite(st: State, template: string, listing: seq<string>)
    requires Restless(st, template) && IsListing(st, template, listing)
    ensures var st1 := Step(st, TakeTemplate(template));
            var st2 := Step(st1, WorkTemplate(true, listing));
            var st3 := Step(st2, WorkTemplate(true, listing));
            && st1.templates == st.templates && st2.templates == st.templates && st3.templates == st.templates
  {
  }

  /** For every number there is a run of the controller alone with that many writes to the template. */
  lemma {:induction false} RewritesWithoutEnd(st: State, template: string, users: set<string>, k: nat)
    returns (actions: seq<Action>)
    requires Restless(st, template) && Steady(st, template, users) && |users| >= 2
    ensures SteadyRun(st, actions, template, users) && ControllerAlone(actions)
    ensures TemplateWrites(st, actions, template) == k
    decreases k
  {
    actions := [];
    if k > 0 {
      SteadyUsers(st, template, users);
      var listing := RewriteRound(st, template);
      var st' := Step(TakeRound(st, template, listing), DeliverTemplate(template, true));
      RoundSteady(st, template, listing, users);
      var rest := RewritesWithoutEnd(st', template, users, k - 1);
      actions := RoundFirst(st, template, listing, rest, users);
    }
  }

  lemma RoundSteady(st: State, template: string, listing: seq<string>, users: set<string>)
    requires Steady(st, template, users)
    ensures Steady(Step(TakeRound(st, template, listing), DeliverTemplate(template, true)), template, users)
  {
    var work := WorkTemplate(true, listing);
    var st1 := Step(st, TakeTemplate(template));
    StaysSteady(st, TakeTemplate(template), template, users);
    StaysSteady(st1, work, template, users);
    StaysSteady(Step(st1, work), work, template, users);
    StaysSteady(Step(Step(st1, work), work), work, template, users);
    StaysSteady(TakeRound(st, template, listing), DeliverTemplate(template, true), template, users);
  }

  ghost predicate WritesAtMost(st: State, template: string, users: set<string>, bound: nat) {
    forall actions :: SteadyRun(st, actions, template, users) ==> TemplateWrites(st, actions, template) <= bound
  }

  /**
   The writes to a template that is up to date, over all runs in which its users stay the same, are
   bounded exactly when it has at most one user.
   */
  lemma BoundedExactly(st: State, template: string, users: set<string>)
    requires Restless(st, template) && Steady(st, template, users)
    ensures (exists bound: nat :: WritesAtMost(st, template, users, bound)) <==> |users| <= 1
  {
    if |users| <= 1 {
      forall actions | SteadyRun(st, actions, template, users) ensures TemplateWrites(st, actions, template) <= 3 {
        TemplateWritesAreBounded(st, actions, template, users);
      }
      assert WritesAtMost(st, template, users, 3);
    } else {
      forall bound: nat ensures !WritesAtMost(st, template, users, bound) {
        var actions := RewritesWithoutEnd(st, template, users, bound + 1);
      }
    }
  }

  // ---- Two users are easily had ----

  /** A new server that uses the template. */
  function NewServer(name: string, uid: nat, template: string): Action {
    PutServer(name, uid, ServerSpec(None, Some(template), None, false), false, false)
  }

  function Created(uid: nat, template: string): Server {
    Server(uid, ServerSpec(None, Some(template), None, false), false, false, false, NEW_STATUS)
  }

  function Stores(first: Action, second: Action, st: State): State { Step(Step(st, first), second) }

  lemma RunPair(st: State, first: Action, second: Action, rest: seq<Action>)
    ensures Run(st, [first, second] + rest) == Run(Stores(first, second, st), rest)
  {
    var actions := [first, second] + rest;
    assert actions[1..] == [second] + rest && actions[1..][1..] == rest;
  }

  lemma ServerStored(st: State, name: string, uid: nat, template: string)
    requires Srv(st, name) == Cell(None, [])
    ensures var st' := Stores(NewServer(name, uid, template), DeliverServer(name), st);
            && Srv(st', name) == Cell(Some(Created(uid, template)), []) && VersionsAgree(Srv(st', name), template, true)
            && (forall n :: n != name ==> Srv(st', n) == Srv(st, n))
            && st'.world == st.world && st'.templates == st.templates && st'.children == st.children
            && st'.worker == st.worker && st'.templateWorker == st.templateWorker && template in st'.templateQueue
  {
    var put := Step(st, NewServer(name, uid, template));
    assert Srv(put, name) == Cell(None, [Some(Created(uid, template))]);
  }

  lemma TemplateStored(world: World, template: string, config: Option<ServerConfig>)
    ensures var st := Stores(PutTemplate(template, config), DeliverTemplate(template, true), Init(world));
            && Tpl(st, template) == Cell(Some(Template(config, [], false)), [])
            && st.world == world && st.servers == map[] && st.children == map[] && st.worker.Idle?
            && st.templateWorker.Free?
  {
    var put := Step(Init(world), PutTemplate(template, config));
    assert Tpl(put, template) == Cell(None, [Some(Template(config, [], false))]);
  }

  /** A template and two servers that use it, all delivered; the template is queued. */
  lemma TwoUsersStored(world: World, template: string, config: Option<ServerConfig>, a: string, b: string)
    returns (actions: seq<Action>)
    requires a != b
    ensures var st := Run(Init(world), actions);
            && Due(st, template) && Steady(st, template, {a, b})
            && Tpl(st, template).cached == Some(Template(config, [], false))
  {
    var st1 := Stores(PutTemplate(template, config), DeliverTemplate(template, true), Init(world));
    var st2 := Stores(NewServer(a, 0, template), DeliverServer(a), st1);
    var st3 := Stores(NewServer(b, 1, template), DeliverServer(b), st2);
    TemplateStored(world, template, config);
    ServerStored(st1, a, 0, template);
    ServerStored(st2, b, 1, template);
    RunPair(st2, NewServer(b, 1, template), DeliverServer(b), []);
    RunPair(st1, NewServer(a, 0, template), DeliverServer(a), [NewServer(b, 1, template), DeliverServer(b)] + []);
    actions := [NewServer(a, 0, template), DeliverServer(a)] + ([NewServer(b, 1, template), DeliverServer(b)] + []);
    RunPair(Init(world), PutTemplate(template, config), DeliverTemplate(template, true), actions);
    actions := [PutTemplate(template, config), DeliverTemplate(template, true)] + actions;
    forall n ensures VersionsAgree(Srv(st3, n), template, n in {a, b}) {
      assert n != a && n != b ==> Srv(st3, n) == Cell(None, []);
    }
  }

  /** One reconcile of such a template, with its event delivered. */
  lemma FirstRound(st: State, template: string, a: string, b: string)
    requires Due(st, template) && !Tpl(st, template).cached.value.ready && Steady(st, template, {a, b}) && a != b
    ensures var st' := Step(TakeRound(st, template, [a, b]), DeliverTemplate(template, true));
            Restless(st', template) && Steady(st', template, {a, b})
  {
    SteadyUsers(st, template, {a, b});
    assert (set n | n in [a, b]) == {a, b};
    ListingIsStored(st, template, [a, b]);
    RoundSteady(st, template, [a, b], {a, b});
    SteadyUsers(Step(TakeRound(st, template, [a, b]), DeliverTemplate(template, true)), template, {a, b});
  }

  lemma {:induction false} RunAppend(st: State, first: seq<Action>, second: seq<Action>)
    ensures Run(st, first + second) == Run(Run(st, first), second)
    decreases |first|
  {
    if |first| == 0 {
      assert first + second == second;
    } else {
      assert (first + second)[1..] == first[1..] + second;
      RunAppend(Step(st, first[0]), first[1..], second);
    }
  }

  lemma RoundRuns(st: State, template: string, listing: seq<string>) returns (actions: seq<Action>)
    ensures Run(st, actions) == Step(TakeRound(st, template, listing), DeliverTemplate(template, true))
  {
    var take, work, deliver := TakeTemplate(template), WorkTemplate(true, listing), DeliverTemplate(template, true);
    var fetched := Stores(take, work, st);
    RunPair(TakeRound(st, template, listing), deliver, deliver, []);
    RunPair(fetched, work, work, [deliver]);
    RunPair(st, take, work, [work, work] + [deliver]);
    actions := [take, work] + ([work, work] + [deliver]);
    assert [deliver][1..] == [];
  }

  /** From the initial state there is a run after which a template with two users is rewritten as often as one likes. */
  lemma RestlessIsReachable(world: World, template: string, config: Option<ServerConfig>, a: string, b: string)
    returns (actions: seq<Action>)
    requires a != b
    ensures var st := Run(Init(world), actions);
            Restless(st, template) && Steady(st, template, {a, b}) && |Users(st, template)| == 2
  {
    var start := TwoUsersStored(world, template, config, a, b);
    var st := Run(Init(world), start);
    FirstRound(st, template, a, b);
    var round := RoundRuns(st, template, [a, b]);
    RunAppend(Init(world), start, round);
    actions := start + round;
    SteadyUsers(Run(st, round), template, {a, b});
  }
}
