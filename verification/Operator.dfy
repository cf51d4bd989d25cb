/**
 The operator as a work-queue protocol: the server controller and the template controller
 (operator/internal/controller/) around one object store, as a state machine.

 An object is a `Cell`: what the controllers' cache shows, and the versions that the store has
 written since and the watch has yet to deliver. Reads see the cache; a write succeeds only on the
 version it was computed from. Each step of a controller is one read or one API call, and every
 call may fail, so anything can happen in between. A delivered update is mapped to reconcile
 requests for its old and for its new object.
 */
module Operator {
  import opened Wrappers
  import opened ConfigSpec

  // ---- Objects, cache and store ----

  datatype Cell<V> = Cell(cached: Option<V>, pending: seq<Option<V>>)

  function Stored<V>(c: Cell<V>): Option<V> {
    if |c.pending| == 0 then c.cached else c.pending[|c.pending| - 1]
  }

  /** A write that changes nothing emits no event. */
  function Write<V(==)>(c: Cell<V>, v: Option<V>): Cell<V> {
    if v == Stored(c) then c else c.(pending := c.pending + [v])
  }

  function At<K, V>(m: map<K, Cell<V>>, key: K): Cell<V> {
    if key in m then m[key] else Cell(None, [])
  }

  datatype GatewayRef = GatewayRef(name: string, namespace: string)
  datatype Gateway = Gateway(enabled: bool, hostname: string, gatewayRef: Option<GatewayRef>)

  /** `paused` is the annotation. */
  datatype ServerSpec = ServerSpec(config: Option<ServerConfig>, templateRef: Option<string>,
                                   gateway: Option<Gateway>, paused: bool)

  datatype ConditionType = TemplateResolved | Paused | Ready
  datatype Reason = TemplateFound | ResolutionFailed | ServerPaused | ServerRunning | DeploymentNotFound
                  | ServerReady | ServerNotReady
  datatype Condition = Condition(kind: ConditionType, status: bool, reason: Reason)

  /** `endpoint` is the host of the https address, when one has been set. */
  datatype Status = Status(ready: bool, players: int, templateRef: string, endpoint: Option<string>, gamePort: nat,
                           conditions: seq<Condition>)

  /** `foreign` stands for the finalizers of others. */
  datatype Server = Server(uid: nat, spec: ServerSpec, deleting: bool, finalizer: bool, foreign: bool, status: Status)

  datatype Template = Template(config: Option<ServerConfig>, usedBy: seq<string>, ready: bool)

  datatype Kind = ConfigMaps | Services | Deployments | HttpRoutes | UdpRoutes
  datatype Owner = Nobody | OwnedBy(uid: nat) | Another
  datatype Body = ConfigData(yaml: string) | ServicePorts | Replicas(count: nat)
                | HttpTo(hostname: string, parent: Option<GatewayRef>) | UdpTo(gateway: GatewayRef)

  /** `ready` counts the ready replicas of a Deployment. */
  datatype Child = Child(owner: Owner, body: Body, ready: nat)

  const NEW_STATUS := Status(false, 0, "", None, 0, [])
  const GAME_PORT := 27960

  // ---- State ----

  /** The two pure parts of the work: merging an inline configuration over a template's, and printing it. */
  datatype World = World(merge: (Option<ServerConfig>, Option<ServerConfig>) -> ServerConfig,
                         yaml: ServerConfig -> string)

  /** Where the server controller's worker is, with what it holds of its snapshot `base`. */
  datatype Worker =
    | Idle
    | Popped(name: string)
    | Finalizing(name: string, base: Server)
    | Adopting(name: string, base: Server)
    | Resolving(name: string, base: Server)
    | Rejecting(name: string, base: Server)
    | Applying(name: string, base: Server, config: ServerConfig, todo: nat)
    | Writing(name: string, base: Server, config: ServerConfig, todo: nat, body: Body, seen: Option<Child>)
    | Reporting(name: string, base: Server, config: ServerConfig)
    | Saving(name: string, base: Server, config: ServerConfig, deployment: Option<Child>, players: Option<int>)

  datatype TemplateWorker =
    | Free
    | Fetching(name: string)
    | Listing(name: string, template: Template)
    | Updating(name: string, template: Template, usedBy: seq<string>)

  datatype State = State(world: World, servers: map<string, Cell<Server>>, templates: map<string, Cell<Template>>,
                         children: map<(Kind, string), Cell<Child>>, queue: set<string>, templateQueue: set<string>,
                         worker: Worker, templateWorker: TemplateWorker)

  predicate Busy(w: Worker, name: string) { !w.Idle? && w.name == name }

  function Srv(st: State, name: string): Cell<Server> { At(st.servers, name) }
  function Tpl(st: State, name: string): Cell<Template> { At(st.templates, name) }
  function Kid(st: State, kind: Kind, name: string): Cell<Child> { At(st.children, (kind, name)) }

  function Init(world: World): State { State(world, map[], map[], map[], {}, {}, Idle, Free) }

  // ---- What a server asks for ----

  const KINDS := [ConfigMaps, Services, Deployments, HttpRoutes, UdpRoutes]

  function Parent(ref: GatewayRef): GatewayRef {
    if ref.namespace == "" then ref.(namespace := "default") else ref
  }

  function HttpWanted(g: Gateway): Option<Body> {
    if g.enabled && g.hostname != "" then
      Some(HttpTo(g.hostname, if g.gatewayRef.Some? then Some(Parent(g.gatewayRef.value)) else None))
    else None
  }

  function UdpWanted(g: Gateway): Option<Body> {
    if g.enabled && g.gatewayRef.Some? then Some(UdpTo(Parent(g.gatewayRef.value))) else None
  }

  /** The child of one kind that a reconcile with this configuration sets, if it sets one at all. */
  function Wanted(w: World, spec: ServerSpec, config: ServerConfig, kind: Kind): Option<Body> {
    match kind
    case ConfigMaps => Some(ConfigData(w.yaml(config)))
    case Services => Some(ServicePorts)
    case Deployments => Some(Replicas(if spec.paused then 0 else 1))
    case HttpRoutes => if spec.gateway.Some? then HttpWanted(spec.gateway.value) else None
    case UdpRoutes => if spec.gateway.Some? then UdpWanted(spec.gateway.value) else None
  }

  /** The template's configuration as the cache shows it; no template named is like one without configuration. */
  function TemplateSeen(st: State, spec: ServerSpec): Option<Option<ServerConfig>> {
    if spec.templateRef.None? then Some(None)
    else match Tpl(st, spec.templateRef.value).cached
      case Some(t) => Some(t.config)
      case None => None
  }

  function Resolution(st: State, spec: ServerSpec): Option<ServerConfig> {
    match TemplateSeen(st, spec)
    case Some(c) => Some(st.world.merge(spec.config, c))
    case None => None
  }

  /** The object that `CreateOrUpdate` builds from the one it has read. */
  function Adjusted(seen: Option<Child>, uid: nat, body: Body): Child {
    Child(OwnedBy(uid), body, match seen { case Some(c) => c.ready case None => 0 })
  }

  function Matches(c: Option<Child>, uid: nat, body: Body): bool {
    c.Some? && c.value.owner == OwnedBy(uid) && c.value.body == body
  }

  // ---- Status ----

  function SetCondition(conditions: seq<Condition>, c: Condition): seq<Condition> {
    if |conditions| == 0 then [c]
    else if conditions[0].kind == c.kind then [c] + conditions[1..]
    else [conditions[0]] + SetCondition(conditions[1..], c)
  }

  function With(s: Status, kind: ConditionType, status: bool, reason: Reason): Status {
    s.(conditions := SetCondition(s.conditions, Condition(kind, status, reason)))
  }

  /** The status in memory once the configuration is resolved. */
  function AfterResolve(s: Server): Status {
    match s.spec.templateRef
    case Some(t) => With(s.status, TemplateResolved, true, TemplateFound).(templateRef := t)
    case None => s.status
  }

  function AfterReject(s: Server): Status { With(s.status, TemplateResolved, false, ResolutionFailed) }

  function PausedStatus(s: Status, paused: bool): Status {
    With(s, Paused, paused, if paused then ServerPaused else ServerRunning)
  }

  function ReadyStatus(s: Status, paused: bool, deployment: Option<Child>, players: Option<int>): Status {
    if deployment.None? then With(s.(ready := false, players := 0), Ready, false, DeploymentNotFound)
    else if paused then With(s.(ready := false, players := 0), Ready, false, ServerPaused)
    else if deployment.value.ready > 0 then
      With(s.(ready := true, players := players.GetOr(s.players)), Ready, true, ServerReady)
    else With(s.(ready := false, players := 0), Ready, false, ServerNotReady)
  }

  function EndpointStatus(s: Status, gateway: Option<Gateway>): Status {
    s.(gamePort := GAME_PORT,
       endpoint := if gateway.Some? && gateway.value.hostname != "" then Some(gateway.value.hostname) else s.endpoint)
  }

  /** `updateStatus`, from the Deployment it reads and the player count it is told, if it is told one. */
  function Report(s: Server, deployment: Option<Child>, players: Option<int>): Status {
    EndpointStatus(
      ReadyStatus(PausedStatus(AfterResolve(s), s.spec.paused), s.spec.paused, deployment, players), s.spec.gateway)
  }

  // ---- Requests that events are mapped to ----

  function RefOf(s: Option<Server>): set<string> {
    if s.Some? && s.value.spec.templateRef.Some? then {s.value.spec.templateRef.value} else {}
  }

  predicate Uses(st: State, server: string, template: string) {
    var s := Srv(st, server).cached;
    s.Some? && s.value.spec.templateRef == Some(template)
  }

  /** The servers that the cache's index lists for a template. */
  function Users(st: State, template: string): set<string> {
    set n | n in st.servers && Uses(st, n, template)
  }

  predicate Owned(c: Option<Child>) { c.Some? && c.value.owner.OwnedBy? }

  // ---- Steps ----

  datatype Action =
    // The users, the cluster and time.
    | PutServer(name: string, uid: nat, spec: ServerSpec, finalizer: bool, foreign: bool)
    | DeleteServer(name: string)
    | PutTemplate(name: string, config: Option<ServerConfig>)
    | DeleteTemplate(name: string)
    | PutChild(kind: Kind, name: string, child: Option<Child>)
    | Wake(name: string)
    | WakeTemplate(name: string)
    | Restart
    // The watches. `listed` says whether the handler of a template's event could list the template's users.
    | DeliverServer(name: string)
    | DeliverTemplate(name: string, listed: bool)
    | DeliverChild(kind: Kind, name: string)
    // The controllers. `ok` says whether the API call of this step goes through.
    | Take(name: string)
    | Work(ok: bool, players: Option<int>)
    | TakeTemplate(name: string)
    | WorkTemplate(ok: bool, listing: seq<string>)

  function WriteServer(st: State, name: string, s: Option<Server>): State {
    st.(servers := st.servers[name := Write(Srv(st, name), s)])
  }

  function WriteTemplate(st: State, name: string, t: Option<Template>): State {
    st.(templates := st.templates[name := Write(Tpl(st, name), t)])
  }

  function WriteChild(st: State, kind: Kind, name: string, c: Option<Child>): State {
    st.(children := st.children[(kind, name) := Write(Kid(st, kind, name), c)])
  }

  /** An object that is being deleted goes away with its last finalizer. */
  function Swept(s: Server): Option<Server> {
    if s.deleting && !s.finalizer && !s.foreign then None else Some(s)
  }

  /** A new server, or an edit of all that a user can edit: not the status, not the identity. */
  function Edited(was: Option<Server>, uid: nat, spec: ServerSpec, finalizer: bool, foreign: bool): Option<Server> {
    match was
    case None => Some(Server(uid, spec, false, finalizer, foreign, NEW_STATUS))
    case Some(s) => Swept(s.(spec := spec, finalizer := finalizer, foreign := foreign))
  }

  function Marked(was: Option<Server>): Option<Server> {
    match was { case None => None case Some(s) => Swept(s.(deleting := true)) }
  }

  /** An edit of a template's specification keeps its status. */
  function EditedTemplate(was: Option<Template>, config: Option<ServerConfig>): Template {
    match was { case None => Template(config, [], false) case Some(t) => t.(config := config) }
  }

  function Popping<V>(c: Cell<V>): Cell<V>
    requires |c.pending| > 0
  {
    Cell(c.pending[0], c.pending[1..])
  }

  function ServerEvent(st: State, name: string): State {
    var c := Srv(st, name);
    if |c.pending| == 0 then st
    else st.(servers := st.servers[name := Popping(c)], queue := st.queue + {name},
             templateQueue := st.templateQueue + RefOf(c.cached) + RefOf(c.pending[0]))
  }

  /** The handler returns no requests when its listing fails. */
  function TemplateEvent(st: State, name: string, listed: bool): State {
    var c := Tpl(st, name);
    if |c.pending| == 0 then st
    else st.(templates := st.templates[name := Popping(c)], templateQueue := st.templateQueue + {name},
             queue := if listed then st.queue + Users(st, name) else st.queue)
  }

  function ChildEvent(st: State, kind: Kind, name: string): State {
    var c := Kid(st, kind, name);
    if |c.pending| == 0 then st
    else st.(children := st.children[(kind, name) := Popping(c)],
             queue := if Owned(c.cached) || Owned(c.pending[0]) then st.queue + {name} else st.queue)
  }

  function Synced<K, V>(cells: map<K, Cell<V>>): map<K, Cell<V>> {
    map k | k in cells :: Cell(Stored(cells[k]), [])
  }

  /** A new process lists everything and gets a create event for each object. */
  function Restarted(st: State): State {
    State(st.world, Synced(st.servers), Synced(st.templates), Synced(st.children), st.servers.Keys,
          st.templates.Keys, Idle, Free)
  }

  // ---- The server controller, one call at a time ----

  /** The one object that a step writes, if any. */
  datatype Effect = Nothing | ToServer(server: Option<Server>) | ToChild(kind: Kind, child: Child)

  /** What a step comes to: where the worker goes, what it writes, and whether the request is queued again. */
  datatype Outcome = Outcome(next: Worker, effect: Effect, requeue: bool)

  const AGAIN := Outcome(Idle, Nothing, true)

  function Goto(w: Worker): Outcome { Outcome(w, Nothing, false) }

  function Fetched(st: State, name: string): Worker {
    match Srv(st, name).cached
    case None => Idle
    case Some(s) =>
      if s.deleting then Finalizing(name, s) else if !s.finalizer then Adopting(name, s) else Resolving(name, s)
  }

  function ResolveNext(st: State, name: string, base: Server, ok: bool): Worker {
    var config := Resolution(st, base.spec);
    if config.Some? && (ok || base.spec.templateRef.None?) then Applying(name, base, config.value, 0)
    else Rejecting(name, base)
  }

  /** Reads the next child and decides whether it has to be written. */
  function Apply(st: State, name: string, base: Server, config: ServerConfig, todo: nat, ok: bool): Outcome
    requires todo < |KINDS|
  {
    var body := Wanted(st.world, base.spec, config, KINDS[todo]);
    var seen := Kid(st, KINDS[todo], name).cached;
    if body.None? then Goto(Applying(name, base, config, todo + 1))
    else if !ok || (seen.Some? && seen.value.owner.Another?) then AGAIN
    else if seen == Some(Adjusted(seen, base.uid, body.value)) then Goto(Applying(name, base, config, todo + 1))
    else Goto(Writing(name, base, config, todo, body.value, seen))
  }

  /** The update of a server object needs the version it was computed from. */
  predicate Current(st: State, name: string, base: Server, ok: bool) { ok && Stored(Srv(st, name)) == Some(base) }

  function OutcomeOf(st: State, ok: bool, players: Option<int>): Outcome {
    match st.worker
    case Idle => Goto(Idle)
    case Popped(name) => if ok then Goto(Fetched(st, name)) else AGAIN
    case Finalizing(name, base) =>
      if Current(st, name, base, ok) then Outcome(Idle, ToServer(Swept(base.(finalizer := false))), false) else AGAIN
    case Adopting(name, base) =>
      if Current(st, name, base, ok) then Outcome(Idle, ToServer(Some(base.(finalizer := true))), true) else AGAIN
    case Resolving(name, base) => Goto(ResolveNext(st, name, base, ok))
    case Rejecting(name, base) =>
      if Current(st, name, base, ok) then Outcome(Idle, ToServer(Some(base.(status := AfterReject(base)))), true)
      else AGAIN
    case Applying(name, base, config, todo) =>
      if todo < |KINDS| then Apply(st, name, base, config, todo, ok) else Goto(Reporting(name, base, config))
    case Writing(name, base, config, todo, body, seen) =>
      if todo < |KINDS| && ok && Stored(Kid(st, KINDS[todo], name)) == seen
      then Outcome(Applying(name, base, config, todo + 1), ToChild(KINDS[todo], Adjusted(seen, base.uid, body)), false)
      else AGAIN
    case Reporting(name, base, config) =>
      if ok then Goto(Saving(name, base, config, Kid(st, Deployments, name).cached, players)) else AGAIN
    case Saving(name, base, config, deployment, players') =>
      if Current(st, name, base, ok)
      then Outcome(Idle, ToServer(Some(base.(status := Report(base, deployment, players')))), false)
      else AGAIN
  }

  function Changed(st: State, name: string, e: Effect): State {
    match e
    case Nothing => st
    case ToServer(s) => WriteServer(st, name, s)
    case ToChild(kind, c) => WriteChild(st, kind, name, Some(c))
  }

  function Concluded(st: State, name: string, o: Outcome): State {
    Changed(st, name, o.effect).(worker := o.next, queue := if o.requeue then st.queue + {name} else st.queue)
  }

  function WorkStep(st: State, ok: bool, players: Option<int>): State {
    if st.worker.Idle? then st else Concluded(st, st.worker.name, OutcomeOf(st, ok, players))
  }

  // ---- The template controller ----

  predicate Distinct(names: seq<string>) { forall i, j :: 0 <= i < j < |names| ==> names[i] != names[j] }

  /** The index lists each user once, in an order of its own. */
  predicate IsListing(st: State, template: string, listing: seq<string>) {
    Distinct(listing) && (set n | n in listing) == Users(st, template)
  }

  function RequeueTemplate(st: State, name: string): State {
    st.(templateWorker := Free, templateQueue := st.templateQueue + {name})
  }

  function WorkTemplateStep(st: State, ok: bool, listing: seq<string>): State {
    match st.templateWorker
    case Free => st
    case Fetching(name) =>
      if !ok then RequeueTemplate(st, name)
      else st.(templateWorker := match Tpl(st, name).cached { case None => Free case Some(t) => Listing(name, t) })
    case Listing(name, t) =>
      if !ok then RequeueTemplate(st, name)
      else if IsListing(st, name, listing) then st.(templateWorker := Updating(name, t, listing))
      else st
    case Updating(name, t, usedBy) =>
      if !ok || Stored(Tpl(st, name)) != Some(t) then RequeueTemplate(st, name)
      else WriteTemplate(st, name, Some(t.(usedBy := usedBy, ready := true))).(templateWorker := Free)
  }

  function Step(st: State, a: Action): State {
    match a
    case PutServer(n, uid, spec, finalizer, foreign) =>
      WriteServer(st, n, Edited(Stored(Srv(st, n)), uid, spec, finalizer, foreign))
    case DeleteServer(n) => WriteServer(st, n, Marked(Stored(Srv(st, n))))
    case PutTemplate(t, config) => WriteTemplate(st, t, Some(EditedTemplate(Stored(Tpl(st, t)), config)))
    case DeleteTemplate(t) => WriteTemplate(st, t, None)
    case PutChild(k, n, c) => WriteChild(st, k, n, c)
    case Wake(n) => st.(queue := st.queue + {n})
    case WakeTemplate(t) => st.(templateQueue := st.templateQueue + {t})
    case Restart => Restarted(st)
    case DeliverServer(n) => ServerEvent(st, n)
    case DeliverTemplate(t, listed) => TemplateEvent(st, t, listed)
    case DeliverChild(k, n) => ChildEvent(st, k, n)
    case Take(n) => if st.worker.Idle? && n in st.queue then st.(queue := st.queue - {n}, worker := Popped(n)) else st
    case Work(ok, players) => WorkStep(st, ok, players)
    case TakeTemplate(t) =>
      if st.templateWorker.Free? && t in st.templateQueue
      then st.(templateQueue := st.templateQueue - {t}, templateWorker := Fetching(t)) else st
    case WorkTemplate(ok, listing) => WorkTemplateStep(st, ok, listing)
  }

  function Run(st: State, actions: seq<Action>): State
    decreases |actions|
  {
    if |actions| == 0 then st else Run(Step(st, actions[0]), actions[1..])
  }

  // ---- What the steps leave alone ----

  predicate Queueing(a: Action) { a.Wake? || a.WakeTemplate? || a.Take? || a.TakeTemplate? }

  lemma QueueingKeeps(st: State, a: Action)
    requires Queueing(a)
    ensures var st' := Step(st, a);
            && st'.world == st.world && st'.servers == st.servers && st'.templates == st.templates
            && st'.children == st.children && (st'.worker == st.worker || (st.worker.Idle? && st'.worker.Popped?))
  {
  }

  lemma TemplateWorkKeeps(st: State, ok: bool, listing: seq<string>)
    ensures var st' := WorkTemplateStep(st, ok, listing);
            && st'.world == st.world && st'.servers == st.servers && st'.children == st.children
            && st'.worker == st.worker && st'.queue == st.queue
            && forall t :: Tpl(st', t).cached == Tpl(st, t).cached
  {
  }

  lemma ServerEventKeeps(st: State, n: string, name: string)
    ensures var st' := ServerEvent(st, n);
            && st'.world == st.world && st'.templates == st.templates && st'.children == st.children
            && st'.worker == st.worker && Stored(Srv(st', name)) == Stored(Srv(st, name))
  {
  }

  lemma TemplateEventKeeps(st: State, t: string, listed: bool)
    ensures var st' := TemplateEvent(st, t, listed);
            && st'.world == st.world && st'.servers == st.servers && st'.children == st.children
            && st'.worker == st.worker
  {
  }

  lemma ChildEventKeeps(st: State, kind: Kind, n: string, name: string)
    ensures var st' := ChildEvent(st, kind, n);
            && st'.world == st.world && st'.servers == st.servers && st'.templates == st.templates
            && st'.worker == st.worker && forall k :: Stored(Kid(st', k, name)) == Stored(Kid(st, k, name))
  {
  }

  lemma StepKeepsWorld(st: State, a: Action)
    ensures Step(st, a).world == st.world
  {
  }

  lemma {:induction false} RunKeepsWorld(st: State, actions: seq<Action>)
    ensures Run(st, actions).world == st.world
    decreases |actions|
  {
    if |actions| > 0 {
      StepKeepsWorld(st, actions[0]);
      RunKeepsWorld(Step(st, actions[0]), actions[1..]);
    }
  }
}
