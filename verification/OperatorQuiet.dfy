/**
 What holds where the operator has come to rest, server by server and template by template: the
 store itself, not just the cache, is as the users asked, whatever the rest of the cluster does.
 */
module OperatorQuiet {
  import opened Wrappers
  import opened Quoting
  import opened ConfigSpec
  import opened Operator
  import opened OperatorSettling
  import opened OperatorStatus
  import opened OperatorTemplates
  import OperatorRestraint
  import Console
  import Pipeline
  import RotationLimits
  import YamlConfig
  import YamlRoundTrip
  import ServerCfgMeaning
  import Cfg = ServerCfg

  ghost predicate NothingPending(st: State, name: string) {
    |Srv(st, name).pending| == 0 && forall k :: |Kid(st, k, name).pending| == 0
  }

  /** The template that a server refers to has no version on its way. */
  predicate TemplateDelivered(st: State, name: string) {
    var s := Stored(Srv(st, name));
    s.Some? && s.value.spec.templateRef.Some? ==> |Tpl(st, s.value.spec.templateRef.value).pending| == 0
  }

  /** Nothing is queued, on its way or being worked on for this server. */
  ghost predicate Rests(st: State, name: string) {
    && name !in st.queue && !Busy(st.worker, name)
    && NothingPending(st, name) && TemplateDelivered(st, name)
  }

  predicate TemplateRests(st: State, template: string) {
    template !in st.templateQueue && !BusyWith(st.templateWorker, template) && |Tpl(st, template).pending| == 0
  }

  function MergeOver(inline: Option<ServerConfig>, base: Option<ServerConfig>): ServerConfig {
    match base
    case Some(b) => Merge(b, inline.GetOr(EMPTY))
    case None => inline.GetOr(EMPTY)
  }

  /** The operator with its real merge and its real printer. */
  function Real(printable: PrintTable): World {
    World(MergeOver, (c: ServerConfig) => YamlConfig.ConfigYaml(Some(c), printable))
  }

  /** The templates in the store, with their configurations. */
  function StoredTemplates(st: State): TemplateConfigs {
    map t | t in st.templates && Stored(Tpl(st, t)).Some? :: Stored(Tpl(st, t)).value.config
  }

  ghost predicate StoredAs(st: State, kind: Kind, name: string, uid: nat, body: Body) {
    Matches(Stored(Kid(st, kind, name)), uid, body)
  }

  /** The store agrees with a server's specification. Routes that are not asked for may be left over. */
  ghost predicate InOrder(st: State, name: string, s: Server, printable: PrintTable) {
    var config := ConfigSpec.Resolve(s.spec.config, s.spec.templateRef, StoredTemplates(st));
    && s.finalizer && config.Resolved?
    && StoredAs(st, ConfigMaps, name, s.uid, ConfigData(YamlConfig.ConfigYaml(Some(config.config), printable)))
    && StoredAs(st, Services, name, s.uid, ServicePorts)
    && StoredAs(st, Deployments, name, s.uid, Replicas(if s.spec.paused then 0 else 1))
    && (s.spec.gateway.Some? ==> RoutesInOrder(st, name, s.uid, s.spec.gateway.value))
    && Says(s, Stored(Kid(st, Deployments, name)), None, s.status)
  }

  ghost predicate RoutesInOrder(st: State, name: string, uid: nat, g: Gateway) {
    && (g.enabled && g.hostname != "" ==>
          StoredAs(st, HttpRoutes, name, uid, HttpTo(g.hostname, OperatorRestraint.Target(g))))
    && (g.enabled && g.gatewayRef.Some? ==>
          StoredAs(st, UdpRoutes, name, uid, UdpTo(OperatorRestraint.Target(g).value)))
  }

  lemma RestIsSynced(st: State, name: string)
    requires Rests(st, name)
    ensures Stored(Srv(st, name)) == Srv(st, name).cached
    ensures forall k :: Stored(Kid(st, k, name)) == Kid(st, k, name).cached
  {
  }

  lemma RestIsSettled(st: State, name: string)
    requires Rests(st, name) && Covered(st, name)
    ensures Settled(st, name)
  {
    assert !OnItsWay(st, name);
  }

  /** What the worker merges is what `resolveConfig` gives on the stored templates. */
  lemma ResolutionIsResolve(st: State, spec: ServerSpec, printable: PrintTable)
    requires st.world == Real(printable)
    requires spec.templateRef.Some? ==> |Tpl(st, spec.templateRef.value).pending| == 0
    ensures var config := ConfigSpec.Resolve(spec.config, spec.templateRef, StoredTemplates(st));
            Resolution(st, spec) == if config.Resolved? then Some(config.config) else None
  {
  }

  /** A status that a report would not change tells the truth. */
  lemma ReportTells(s: Server, deployment: Option<Child>, players: Option<int>)
    requires s.status == Report(s, deployment, players)
    ensures Says(s, deployment, players, s.status)
  {
    ReportSays(s, deployment, players);
  }

  lemma KindsInOrder(st: State, name: string, s: Server, config: ServerConfig)
    requires NothingPending(st, name) && DoneUpTo(st, name, s, config, |KINDS|)
    ensures StoredAs(st, ConfigMaps, name, s.uid, ConfigData(st.world.yaml(config)))
    ensures StoredAs(st, Services, name, s.uid, ServicePorts)
    ensures StoredAs(st, Deployments, name, s.uid, Replicas(if s.spec.paused then 0 else 1))
    ensures s.spec.gateway.Some? ==> RoutesInOrder(st, name, s.uid, s.spec.gateway.value)
  {
    assert forall k :: Stored(Kid(st, k, name)) == Kid(st, k, name).cached;
    assert KindDone(st, name, s, config, KINDS[0]);
    assert KindDone(st, name, s, config, KINDS[1]);
    assert KindDone(st, name, s, config, KINDS[2]);
    assert KindDone(st, name, s, config, KINDS[3]);
    assert KindDone(st, name, s, config, KINDS[4]);
  }

  lemma SettledInOrder(st: State, name: string, printable: PrintTable)
    requires Rests(st, name) && Settled(st, name) && st.world == Real(printable)
    ensures match Stored(Srv(st, name))
            case None => true
            case Some(s) => if s.deleting then !s.finalizer else InOrder(st, name, s, printable)
  {
    RestIsSynced(st, name);
    var stored := Stored(Srv(st, name));
    if stored.Some? && !stored.value.deleting {
      var s := stored.value;
      ResolutionIsResolve(st, s.spec, printable);
      KindsInOrder(st, name, s, Resolution(st, s.spec).value);
      ReportTells(s, Kid(st, Deployments, name).cached, None);
    }
  }

  /** After any run, a stored server at rest is in order, and none that is being deleted still waits for us. */
  lemma AtRestServersAreInOrder(actions: seq<Action>, name: string, printable: PrintTable)
    requires AllTold(Init(Real(printable)), actions, name) && Rests(Run(Init(Real(printable)), actions), name)
    ensures var st := Run(Init(Real(printable)), actions);
            match Stored(Srv(st, name))
            case None => true
            case Some(s) => if s.deleting then !s.finalizer else InOrder(st, name, s, printable)
  {
    var st := Run(Init(Real(printable)), actions);
    NothingForgotten(Real(printable), actions, name);
    RunKeepsWorld(Init(Real(printable)), actions);
    RestIsSettled(st, name);
    SettledInOrder(st, name, printable);
  }

  /** The stored servers that refer to a template. */
  ghost predicate RefersTo(st: State, name: string, template: string) {
    var s := Stored(Srv(st, name));
    s.Some? && s.value.spec.templateRef == Some(template)
  }

  /**
   A stored template at rest is ready, and its `usedBy` names each server once, and names a server that
   has no version on its way exactly when the stored server refers to the template.
   */
  lemma AtRestTemplatesAreListed(world: World, actions: seq<Action>, template: string, name: string)
    requires TemplateRests(Run(Init(world), actions), template)
    requires Stored(Tpl(Run(Init(world), actions), template)).Some?
    ensures var st := Run(Init(world), actions);
            var usedBy := Stored(Tpl(st, template)).value.usedBy;
            && Stored(Tpl(st, template)).value.ready && Distinct(usedBy)
            && (|Srv(st, name).pending| == 0 ==> (name in usedBy <==> RefersTo(st, name, template)))
  {
    var st := Run(Init(world), actions);
    IndexAgrees(world, actions, template);
    var usedBy := Stored(Tpl(st, template)).value.usedBy;
    assert name in usedBy <==> name in (set n | n in usedBy);
    UsersAre(st, template, name);
  }

  /** What a server asks for, over the defaults of the game container. */
  function Wish(config: ServerConfig): Cfg.Config { YamlRoundTrip.Overlay(Cfg.DEFAULT, config) }

  /** The configuration can be printed, and its overrides leave the rotation alone if it is to be followed. */
  predicate Playable(config: ServerConfig, printable: PrintTable, k: nat) {
    && YamlRoundTrip.Fits(config) && ServerCfgMeaning.Printable(Wish(config), printable)
    && ServerCfgMeaning.Rotates(Wish(config), k)
  }

  /** The stored server asks for this configuration, over its template. */
  ghost predicate AsksFor(st: State, name: string, config: ServerConfig) {
    var s := Stored(Srv(st, name));
    && s.Some? && !s.value.deleting
    && ConfigSpec.Resolve(s.value.spec.config, s.value.spec.templateRef, StoredTemplates(st)) == Resolved(config)
  }

  /** The game that compiles this text does what the configuration says. */
  ghost predicate GameObeys(config: ServerConfig, yaml: string, printable: PrintTable, console: Console.State, k: nat,
                            depth: nat, variable: string)
  {
    var script := Pipeline.Compile(yaml, printable);
    && script.Script? && Pipeline.Obeys(Wish(config), script.text, console, k, depth, variable)
    && Pipeline.AsSpecified(config, script.text, console, k, depth)
  }

  /** The game of a server runs the text in its ConfigMap. */
  ghost predicate GameRuns(data: Option<Child>, config: ServerConfig, printable: PrintTable, console: Console.State,
                           k: nat, depth: nat, variable: string)
  {
    && data.Some? && data.value.body.ConfigData?
    && GameObeys(config, data.value.body.yaml, printable, console, k, depth, variable)
  }

  lemma PrintedGameObeys(config: ServerConfig, printable: PrintTable, console: Console.State, k: nat, depth: nat,
                         variable: string)
    requires Playable(config, printable, k) && depth >= 2 && RotationLimits.NotASlot(variable)
    ensures GameObeys(config, YamlConfig.ConfigYaml(Some(config), printable), printable, console, k, depth, variable)
  {
    Pipeline.EndToEnd(config, printable, console, k, depth, variable);
    Pipeline.FieldsEndToEnd(config, printable, console, k, depth);
  }

  /**
   The whole chain: the text in the ConfigMap of a server at rest, compiled by the game container
   and executed by the game, leaves every console variable after k map ends at the value that the
   server's specification over its template gives it, with the specified maps loaded in order.
   */
  lemma AtRestTheGameRunsTheSpecification(actions: seq<Action>, name: string, config: ServerConfig,
                                          printable: PrintTable, console: Console.State, k: nat, depth: nat,
                                          variable: string)
    requires AllTold(Init(Real(printable)), actions, name)
    requires var st := Run(Init(Real(printable)), actions); Rests(st, name) && AsksFor(st, name, config)
    requires Playable(config, printable, k) && depth >= 2 && RotationLimits.NotASlot(variable)
    ensures GameRuns(Stored(Kid(Run(Init(Real(printable)), actions), ConfigMaps, name)), config, printable, console,
                     k, depth, variable)
  {
    AtRestServersAreInOrder(actions, name, printable);
    PrintedGameObeys(config, printable, console, k, depth, variable);
  }
}
