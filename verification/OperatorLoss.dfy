/**
 The one way in which the operator does forget a server: the handler of a template's event lists the
 servers that use the template, and when that fails it drops the event.
 */
module OperatorLoss {
  import opened Wrappers
  import opened ConfigSpec
  import opened Operator
  import opened OperatorSettling
  import opened OperatorUsedBy
  import W = OperatorWrites
  import P = OperatorProgress

  // ---- Events that nobody hears ----

  /** Deliver all versions of a template, with a listing that fails each time. */
  lemma {:induction false} Unheard(st: State, template: string) returns (actions: seq<Action>)
    ensures var st' := Run(st, actions);
            && st'.world == st.world && st'.servers == st.servers && st'.children == st.children
            && st'.worker == st.worker && st'.queue == st.queue
            && Tpl(st', template).cached == Stored(Tpl(st, template))
    decreases |Tpl(st, template).pending|
  {
    actions := [];
    if |Tpl(st, template).pending| > 0 {
      var event := DeliverTemplate(template, false);
      actions := Unheard(Step(st, event), template);
      assert ([event] + actions)[1..] == actions;
      actions := [event] + actions;
    }
  }

  /** A server is not in order when its ConfigMap holds something else than its specification asks for. */
  lemma OtherData(st: State, name: string, s: Server, config: ServerConfig)
    requires Srv(st, name).cached == Some(s) && !s.deleting && Resolution(st, s.spec) == Some(config)
    requires var data := Kid(st, ConfigMaps, name).cached;
             data.Some? && data.value.body != ConfigData(st.world.yaml(config))
    ensures !Settled(st, name)
  {
    assert !KindDone(st, name, s, config, KINDS[0]);
  }

  /** Of a configuration, the children hold only its text. */
  lemma SameText(st: State, name: string, base: Server, a: ServerConfig, b: ServerConfig)
    requires DoneUpTo(st, name, base, a, |KINDS|) && st.world.yaml(a) == st.world.yaml(b)
    ensures DoneUpTo(st, name, base, b, |KINDS|)
  {
    forall i | 0 <= i < |KINDS| ensures KindDone(st, name, base, b, KINDS[i]) {
      assert KindDone(st, name, base, a, KINDS[i]);
    }
  }

  /**
   From rest, an edit of the template whose events are not heard leaves the server in order exactly
   when the text generated from it is still the same, and behind otherwise.
   */
  lemma EditUnheard(st: State, name: string, d: W.Demand, template: string, config: Option<ServerConfig>)
    returns (actions: seq<Action>)
    requires W.AtRest(st, name, d) && P.Unoccupied(st, name) && d.spec.templateRef == Some(template)
    ensures Covered(Run(st, actions), name)
            <==> st.world.yaml(st.world.merge(d.spec.config, config)) == st.world.yaml(W.ConfigOf(st.world, d))
  {
    var edit := PutTemplate(template, config);
    var mid := Step(st, edit);
    var events := Unheard(mid, template);
    actions := [edit] + events;
    assert actions[1..] == events;
    var s, st', merged := Srv(st, name).cached.value, Run(mid, events), st.world.merge(d.spec.config, config);
    W.CalmResolution(st, name, d);
    assert forall k :: Kid(st', k, name) == Kid(st, k, name);
    assert DoneUpTo(st', name, s, W.ConfigOf(st.world, d), |KINDS|) by {
      forall i | 0 <= i < |KINDS| ensures KindDone(st', name, s, W.ConfigOf(st.world, d), KINDS[i]) {
        assert KindDone(st, name, s, W.ConfigOf(st.world, d), KINDS[i]);
      }
    }
    assert Resolution(st', s.spec) == Some(merged);
    if st.world.yaml(merged) == st.world.yaml(W.ConfigOf(st.world, d)) {
      SameText(st', name, s, W.ConfigOf(st.world, d), merged);
    } else {
      assert KindDone(st', name, s, W.ConfigOf(st.world, d), KINDS[0]);
      OtherData(st', name, s, merged);
    }
  }

  // ---- Such a run from the start ----

  function SpecUsing(template: string): ServerSpec { ServerSpec(None, Some(template), None, false) }

  lemma {:induction false} HeardIsTold(st: State, actions: seq<Action>, name: string)
    requires forall a :: a in actions && a.DeliverTemplate? ==> a.listed
    ensures AllTold(st, actions, name)
    decreases |actions|
  {
    if |actions| > 0 {
      assert actions[0] in actions;
      HeardIsTold(Step(st, actions[0]), actions[1..], name);
    }
  }

  /** A template and one server that uses it, all delivered. */
  lemma OneUserStored(world: World, template: string, config: Option<ServerConfig>, name: string)
    returns (actions: seq<Action>)
    ensures AllTold(Init(world), actions, name)
    ensures var st := Run(Init(world), actions);
            && W.Calm(st, name, W.Demand(0, SpecUsing(template), config, None))
            && (forall k :: P.NeverForeign(Kid(st, k, name)))
  {
    var put, heard := PutTemplate(template, config), DeliverTemplate(template, true);
    var st1 := Stores(put, heard, Init(world));
    var create, seen := NewServer(name, 0, template), DeliverServer(name);
    TemplateStored(world, template, config);
    ServerStored(st1, name, 0, template);
    RunPair(st1, create, seen, []);
    RunPair(Init(world), put, heard, [create, seen] + []);
    actions := [put, heard] + ([create, seen] + []);
    HeardIsTold(Init(world), actions, name);
  }

  /**
   From the initial state there is a run that leaves a server behind: nothing about it is queued, on
   its way or being worked on, and yet it is not in order.
   */
  lemma FailedListingForgets(world: World, template: string, name: string, first: Option<ServerConfig>,
                             second: Option<ServerConfig>)
    returns (actions: seq<Action>)
    requires world.yaml(world.merge(None, first)) != world.yaml(world.merge(None, second))
    ensures !Covered(Run(Init(world), actions), name)
  {
    var d := W.Demand(0, SpecUsing(template), first, None);
    var past := OneUserStored(world, template, first, name);
    var st := Run(Init(world), past);
    var settling := P.CanComeToRest(world, past, name, d);
    var rest := Run(st, settling);
    RunKeepsWorld(Init(world), past);
    RunKeepsWorld(st, settling);
    var lost := EditUnheard(rest, name, d, template, second);
    RunAppend(st, settling, lost);
    RunAppend(Init(world), past, settling + lost);
    actions := past + (settling + lost);
  }
}
