# Quake Kube, modelled in Dafny

This project models the behaviour of Quake Kube that is hard to see from one function at a time,
and proves it.

* **The operator** (`Operator*.dfy`, `MergeHeap.dfy`, `SpecHeap.dfy`, `ConfigSpec.dfy`). Two
  controllers share one object store. They read a cache that lags behind, write with optimistic
  concurrency, and are woken by events. `Operator.dfy` is the state machine: every step is one read
  or one API call, every call may fail, and users, drift, readiness and event delivery come in
  between. The event rule is that of controller-runtime v0.16.3: an update is mapped for the old
  and for the new object. On top of it: nothing is forgotten in any run (`OperatorSettling`,
  `OperatorTemplates`), with the one exception shown in `OperatorLoss`; agreement of the store
  wherever the operator is at rest, server by server and template by template (`OperatorQuiet`);
  consistent and truthful statuses in every run (`OperatorStatus`); what the controller leaves alone
  (`OperatorRestraint`); bounds on the writes the operator causes
  itself (`OperatorWrites`, `OperatorUsedBy`); and, once the users leave a server alone, a run to rest
  (`OperatorProgress`) and a bound on the steps for it in every run (`OperatorEffort`).
  `resolveConfig` with its deep copies and updates in place is proved on the heap against the
  field-wise merge.
* **The configuration compilers** (`Yaml*.dfy`, `Durations.dfy`, `Quoting.dfy`, `ServerCfg*.dfy`,
  `Rotation*.dfy`, `Pipeline.dfy`). A specification becomes YAML, is read over the defaults, and
  becomes a Quake console script. `Console.dfy` is an interpreter for that script: lines, quotes,
  `;`, `//`, `set`/`seta`/`sets`/bare variables, `vstr`, `map`. The rotation compiler is proved
  against the direct cyclic semantics, and the whole chain, after any number of map ends, against an
  overlay of the fields that are set.
* **The two status parsers** (`StatusPacket.dfy`, `OperatorNet.dfy`, `ServerNet.dfy`,
  `StatusAgreement.dfy`): a round trip, and what the two agree on over all texts.
* **Debounce, reload and restart** (`Debounce.dfy`, `Reload.dfy`) and **the WebSocket/UDP proxy**
  (`Proxy.dfy`), as timed or interleaved processes.

`Text.dfy` and `Wrappers.dfy` hold what the others share. `dafny verify dfyconfig.toml` checks the
project.

## What the proofs turned up

* The template controller writes `usedBy` in the order in which the index happens to list the
  servers. With two or more users that order is not determined, every rewrite is an event that
  queues the template again, and nothing in the code ends this: from a state that
  `OperatorUsedBy.RestlessIsReachable` reaches there are runs with any number of writes
  (`OperatorUsedBy.RewritesWithoutEnd`). With at most one user there are at most three
  (`OperatorUsedBy.TemplateWritesAreBounded`), so the writes are bounded exactly then
  (`OperatorUsedBy.BoundedExactly`).
* The handler of a template's event drops the event when it cannot list the template's users. A
  server can then stay out of order with nothing queued that would put it right
  (`OperatorLoss.FailedListingForgets`); this is the only way to forget a server. The lost edit does
  no harm exactly when the text generated from it is the same (`OperatorLoss.EditUnheard`).
* `reload` unmarshals into a pointer. A configuration file without content (blank, comments only,
  or null, with whatever white space and comments around it) sets it to nil, and printing the
  configuration then panics and ends the container (`Pipeline.SurvivesUnlessNull`).
* The watch on the configuration file starts after the first reload. An edit in between has
  no effect until there is another one (`Reload.EarlyEditStays`), and neither has one whose tick
  falls into a reload that has already read the file (`Reload.DroppedTickStays`).
* A failing write can damage `server.cfg` while the old process goes on (`Reload.TornStays`); this
  is the only case in which a waiting loop's process is older than the file
  (`Reload.WaitingMeansCurrent`).
* A game process that exits by itself and has been waited for is not started again; the next reload
  that gets as far as the restart ends the loop (`Reload.CrashIsFinal`).
* When the proxy's handler leaves because of the context, one pump goroutine can never end
  (`Proxy.CancelExitLeavesAPump`).
* A setting reaches the game unchanged exactly when `strconv.Quote` has nothing to escape, because
  the console knows no escapes (`ServerCfgMeaning.SettingSurvives`). The download address is printed
  without quotes, so the console takes what follows its `//` for a comment: of
  `http://host/` only `http:` arrives (`ServerCfgMeaning.SchemeArrives`).
* `README.md:166` of the repository shows `timeLimit: 30` for a map. The code needs a duration with
  a unit; the model follows the code, so a file with such a line does not parse and the reload fails
  (`YamlRoundTrip.BareTimeLimitRejected`).

## Conventions of the model

* A name identifies a server together with its five children, each under its kind: the code derives
  the child names from the server name, injectively for each kind.
* A write that changes nothing emits no event. A write computed from an outdated version conflicts;
  comparing whole objects stands for comparing resource versions, and since any call may also fail
  by choice, this covers every real outcome.
* A failed request is queued again; the back-off delay is part of being queued. The periodic refresh
  is the step `Wake`, which may come at any time; the runs that `OperatorProgress` constructs use it
  only for servers that are ready, as the code does.
* A Go struct is a datatype and a pointer to one an object. `nil` and an empty slice mean the same.
* `printable` is the table of characters above ASCII that `strconv.Quote` prints as they are, and
  `other` is `strconv.Unquote` on anything but plain ASCII in double quotes. Of the first it is only
  assumed that it has no control characters, line separators and noncharacters, of the second nothing.
* The configuration file is decoded as by the YAML library that go.mod names: lines end as in
  YAML 1.1, forbidden characters are refused, and a null is empty, `~`, `null`, `Null` or `NULL`.
* The console ignores commands that it does not know. `Console.BEYOND` names those of the engine that
  run or delay text, load maps, end the game or change variables in ways of their own; results about
  overrides exclude them.
* The `depth` of the console bounds nested `vstr` calls. The statements hold for every depth from 1
  or 2 on, which is all that the printed scripts need.

## Model

| member | source | states |
|---|---|---|
| OperatorSettling.NothingForgotten | operator/internal/controller/quakeserver_controller.go:74-192 | in every run in which no event of the server's own template is lost to a failing list, each server is queued, has an event on its way that will queue it, is being worked on with an up-to-date snapshot, or is settled: finalizer set, template resolved, every wanted child as generated, status as reported |
| OperatorLoss.FailedListingForgets | operator/internal/controller/quakeserver_controller.go:1106-1117 | that condition is needed: there is a run from the start in which the list inside the event handler fails and a server stays out of order with nothing queued, on its way or being worked on |
| OperatorLoss.EditUnheard | operator/internal/controller/quakeserver_controller.go:1106-1117 | for any server at rest, after a template edit whose list fails the server is still in order or on its way to it if and only if the edit does not change the generated text |
| OperatorSettling.StepCovers | operator/internal/controller/quakeserver_controller.go:1087-1101 | that invariant is kept by every step of users, cluster, watches and both controllers |
| OperatorSettling.OwnCovered | operator/internal/controller/quakeserver_controller.go:100-192 | one read or API call of the worker, failing or not, keeps the invariant for the server it works on |
| OperatorSettling.OthersCovered | operator/internal/controller/quakeserver_controller.go:74-192 | and for every other server |
| OperatorSettling.TemplateEventCovers | operator/internal/controller/quakeserver_controller.go:1106-1136 | a template's event queues every server that refers to it if the list succeeds; for the others nothing is invalidated either way |
| OperatorSettling.ServerEventCovers | operator/internal/controller/quakeserver_controller.go:1087-1089 | a server's event queues that server and invalidates no other |
| OperatorSettling.ChildEventCovers | operator/internal/controller/quakeserver_controller.go:1090-1094 | an event of an owned child queues the owner; one about a child nobody owned before or after invalidates nothing |
| OperatorSettling.UnownedEventCovers | operator/internal/controller/quakeserver_controller.go:1090-1094 | the case of the unowned child, including versions still on their way |
| OperatorSettling.AppliedGood | operator/internal/controller/quakeserver_controller.go:359-370 | walking through the children, each one found as wanted or written stays accounted for |
| OperatorSettling.WroteChild | operator/internal/controller/quakeserver_controller.go:359-370 | a child that is written carries the owner reference, so its event comes back to the server |
| OperatorSettling.WroteServer | operator/internal/controller/quakeserver_controller.go:890-955 | saving a status that changes nothing leaves the server settled |
| OperatorSettling.NothingToReport | operator/internal/controller/quakeserver_controller.go:890-955 | a report that equals the stored status also equals the report without a player count |
| OperatorSettling.RestartCovers | operator/internal/controller/quakeserver_controller.go:1087-1101 | a restarted operator lists everything, so the invariant holds at once |
| OperatorTemplates.IndexAgrees | operator/internal/controller/quakeservertemplate_controller.go:36-86 | in every run, each template is queued, has an event on its way, is being worked on with current data, or it is ready and its usedBy lists exactly its users, each once |
| OperatorTemplates.StepListed | operator/internal/controller/quakeservertemplate_controller.go:91-133 | that invariant is kept by every step |
| OperatorTemplates.ServerEventListed | operator/internal/controller/quakeservertemplate_controller.go:120-133 | a server's event queues the old and the new template, and changes no other template's users |
| OperatorTemplates.SwitchQueuesBoth | operator/internal/controller/quakeservertemplate_controller.go:120-133 | a server that switches from template a to b makes both stale and queues both |
| OperatorTemplates.OwnTemplateListed | operator/internal/controller/quakeservertemplate_controller.go:36-86 | each call of the template reconcile keeps the invariant |
| OperatorUsedBy.OrderIsDetermined | operator/internal/controller/quakeservertemplate_controller.go:44-60 | the listing of a template's users is unique if and only if it has at most one user |
| OperatorUsedBy.RoundIsQuiet | operator/internal/controller/quakeservertemplate_controller.go:44-79 | for an up-to-date template that is queued: every round leaves it alone, whatever the listing, if and only if it has at most one user |
| OperatorUsedBy.TemplateWritesAreBounded | operator/internal/controller/quakeservertemplate_controller.go:44-79 | in every run in which its users stay the same, with at most one, the controller writes a template at most three times |
| OperatorUsedBy.TemplateStepPays | operator/internal/controller/quakeservertemplate_controller.go:44-79 | no step raises the bound on the writes to come, and a write lowers it |
| OperatorUsedBy.StaysSteady | operator/internal/controller/quakeserver_controller.go:74-192 | only users change who uses a template: steps of the system and restarts keep what all versions of all servers agree on |
| OperatorUsedBy.BoundedExactly | operator/internal/controller/quakeservertemplate_controller.go:36-86 | over all runs in which its users stay the same, the writes to an up-to-date template are bounded if and only if it has at most one user |
| OperatorUsedBy.RewriteRound | operator/internal/controller/quakeservertemplate_controller.go:44-79 | with two or more, a reconcile may store another order, and its own event queues the template again |
| OperatorUsedBy.RewritesWithoutEnd | operator/internal/controller/quakeservertemplate_controller.go:44-79 | so for every k the template controller alone, no call failing, has a run with k writes to the template |
| OperatorUsedBy.RestlessIsReachable | operator/internal/controller/quakeservertemplate_controller.go:36-133 | such a template is reached from the initial state: one template, two servers that use it, one reconcile |
| OperatorQuiet.AtRestServersAreInOrder | operator/internal/controller/quakeserver_controller.go:74-192 | after any run, for a server that is not queued or worked on and has no version of itself, its children or its template on the way, in the store: finalizer set, ConfigMap text is the generated text of inline over template, Deployment has 0 replicas exactly when paused, wanted routes present with their targets, status telling the truth; if it is being deleted it does not wait for us |
| OperatorQuiet.AtRestTemplatesAreListed | operator/internal/controller/quakeservertemplate_controller.go:36-86 | after any run, a template at rest is ready, and usedBy of a template that is not queued, worked on or on its way lists each server once, and lists a server without undelivered versions exactly when the stored server refers to it |
| OperatorQuiet.AtRestTheGameRunsTheSpecification | operator/internal/controller/quakeserver_controller.go:352-490 | for a server at rest, the ConfigMap's text, compiled and executed, leaves each console variable after k map ends at the value the specification over its template gives, with the maps loaded in cyclic order |
| OperatorQuiet.ResolutionIsResolve | operator/internal/controller/quakeserver_controller.go:225-253 | what the worker resolves from the cache is resolveConfig on the stored templates |
| OperatorQuiet.KindsInOrder | operator/internal/controller/quakeserver_controller.go:352-383 | the five kinds of children one by one, routes only as far as they are wanted |
| OperatorQuiet.ReportTells | operator/internal/controller/quakeserver_controller.go:890-955 | a status that a report would not change says how things are, in every field |
| OperatorStatus.ReportSays | operator/internal/controller/quakeserver_controller.go:890-955 | every field of a report in terms of specification, Deployment and query: ready, the queried player count or else the old one, none on a server that is not ready, the three conditions with their reasons, template, endpoint and game port |
| OperatorStatus.SavedSays | operator/internal/controller/quakeserver_controller.go:890-955 | the version of the server that a saving step writes differs from the one read in its status only, which says this |
| OperatorStatus.ReportIsStored | operator/internal/controller/quakeserver_controller.go:890-955 | the last two calls of a reconcile: what the Deployment shows and the query answers is what the stored status says |
| OperatorStatus.RejectSays | operator/internal/controller/quakeserver_controller.go:113-122 | a template that cannot be resolved makes the condition TemplateResolved false and changes nothing else of the server, and the request is queued again |
| OperatorRestraint.RoutesAreAskedFor | operator/internal/controller/quakeserver_controller.go:158-171 | in every run, a route that a step of the controller writes is asked for by the specification it has read (gateway enabled, host name for HTTP, target for UDP), goes to that host and target, in namespace default unless one is named, and is owned by the server |
| OperatorRestraint.NobodyAskedNoRoute | operator/internal/controller/quakeserver_controller.go:158-171 | in every run in which no version of a server has asked for a route of a kind and nobody else has put one there, there is none |
| OperatorRestraint.OthersObjectsStay | operator/internal/controller/quakeserver_controller.go:359-370 | in every run, no step of the controller changes an object that another controller controls |
| OperatorRestraint.UsersPartStays | operator/internal/controller/quakeserver_controller.go:74-222 | no lost updates: a step of the controller, however old what it has read, keeps the stored specification, identity, deletion mark and finalizers of others, and a server goes away only when it is being deleted and nobody else holds it |
| OperatorRestraint.ReplicasStay | operator/internal/controller/quakeserver_controller.go:545-605 | children are never removed, and the number of ready replicas is kept |
| OperatorRestraint.TemplateConfigStays | operator/internal/controller/quakeservertemplate_controller.go:36-79 | the template controller keeps the configuration of every template |
| OperatorStatus.StatusMakesSense | operator/internal/controller/quakeserver_controller.go:890-955 | in every run every persisted status is consistent: Ready flag iff Ready condition, not ready implies no players, paused implies not ready, one condition per type |
| OperatorStatus.ReportConsistent | operator/internal/controller/quakeserver_controller.go:890-955 | updateStatus turns a consistent status into a consistent one on each of its branches |
| OperatorStatus.ResolveConsistent | operator/internal/controller/quakeserver_controller.go:113-132 | so do the template conditions of the success and of the failure path |
| OperatorStatus.OutcomeConsistent | operator/internal/controller/quakeserver_controller.go:74-192 | whatever a step writes or keeps in hand is consistent |
| OperatorStatus.SetThenFind | operator/internal/controller/quakeserver_controller.go:986-995 | setting a condition makes it the one of its type and leaves the others |
| OperatorStatus.SetKeepsOnePerType | operator/internal/controller/quakeserver_controller.go:986-995 | and never duplicates a type |
| OperatorObjects.StatusObject.SetStatusCondition | operator/internal/controller/quakeserver_controller.go:986-995 | the update in place of the list of conditions |
| OperatorObjects.StatusObject.UpdateStatus | operator/internal/controller/quakeserver_controller.go:890-955 | the update in place of the whole status, branch by branch, with the player count of a ready server as queried or else as it was, and none otherwise |
| OperatorObjects.StatusObject.UpdateReady | operator/internal/controller/quakeserver_controller.go:915-939 | its part for an existing Deployment, the player count included |
| OperatorObjects.StatusObject.MarkResolved | operator/internal/controller/quakeserver_controller.go:125-132 | the status after the template was resolved |
| OperatorObjects.FillIn | operator/internal/controller/quakeserver_controller.go:890-955 | a whole pass gives the report that the protocol saves, which says how things are in every field, the queried player count included, and keeps the status consistent |
| OperatorObjects.UsedBy | operator/internal/controller/quakeservertemplate_controller.go:44-57 | the loop collects the names of the listed servers whose index key is the template, each once |
| OperatorObjects.CollectedIsListing | operator/internal/controller/quakeservertemplate_controller.go:44-57 | in whatever order the index lists the cached servers, what the loop collects is a listing of the template's users |
| OperatorWrites.WritesAreBounded | operator/internal/controller/quakeserver_controller.go:103-192 | while users and cluster leave a server alone, own writes plus remaining potential never exceed the potential at the start, in every interleaving with deliveries, conflicts and failures |
| OperatorWrites.PotentialBound | operator/internal/controller/quakeserver_controller.go:103-192 | that potential is at most 29 plus 4 for each undelivered version of the Deployment |
| OperatorWrites.StepPays | operator/internal/controller/quakeserver_controller.go:103-192 | every step keeps or lowers the potential, and a write of the controller lowers it |
| OperatorWrites.SavingPays | operator/internal/controller/quakeserver_controller.go:954 | saving a status pays, also when the Deployment has changed since it was read |
| OperatorWrites.WritingPays | operator/internal/controller/quakeserver_controller.go:545-605 | writing a child pays for the event it causes |
| OperatorWrites.ReportAgain | operator/internal/controller/quakeserver_controller.go:890-955 | reporting the same facts on a reported status changes nothing |
| OperatorWrites.StaysCalm | operator/internal/controller/quakeserver_controller.go:74-192 | own steps do not disturb what all versions of the server and its template agree on |
| OperatorProgress.CanComeToRest | operator/internal/controller/quakeserver_controller.go:74-192 | in every reachable state in which the versions of a server and its template agree and nobody else holds its children, the operator has a run of its own, queueing only what events queue and ready servers for their player count, to a state where the server is at rest, and no later run of its own changes its stored objects |
| OperatorProgress.QueuedOrAtRest | operator/internal/controller/quakeserver_controller.go:184-190 | once all is delivered, a server that is not queued is at rest, but perhaps for the player count of a ready one |
| OperatorProgress.ComesToRest | operator/internal/controller/quakeserver_controller.go:74-192 | delivering everything and reconciling what that has queued, again as long as it has paid for a write, brings the server to rest |
| OperatorProgress.Pass | operator/internal/controller/quakeserver_controller.go:100-192 | a reconcile on delivered data meets no conflict, ends, and has either paid for a write or found everything in place |
| OperatorEffort.EveryRunComesToRest | operator/internal/controller/quakeserver_controller.go:74-192 | from every such state, in every run that leaves the server alone and loses no event of its template, with all other servers interleaved: the steps done for the server (deliveries, taking its request, calls of its reconcile) are at most a number fixed by the state, plus 22 for each failed call, refresh or rewritten template; and if the worker is idle and no such step is left, the server is settled and at rest, but perhaps for the player count of a ready one |
| OperatorEffort.EffortIsBounded | operator/internal/controller/quakeserver_controller.go:74-192 | the same for every calm state, with what is left of the measure at the end of the run |
| OperatorEffort.EachStepPays | operator/internal/controller/quakeserver_controller.go:100-192 | every step done for the server lowers the measure, unless it fails or meets a conflict, and no step of others raises it, but for a refresh or a rewritten template |
| OperatorEffort.MeasureBound | operator/internal/controller/quakeserver_controller.go:100-192 | the measure is at most 1317, 22 for each undelivered version and 176 more for each of the Deployment |
| OperatorEffort.WorkGetsOn | operator/internal/controller/quakeserver_controller.go:100-192 | a call of the reconcile that does not start it again brings it nearer to its end, conflicts with others or not |
| OperatorWrites.ReconcileIsIdempotent | operator/internal/controller/quakeserver_controller.go:74-192 | reconciling a server that is in order, however often and with whatever failures, changes no stored object of it |
| ConfigSpec.MergePrecedence | operator/internal/controller/quakeserver_controller.go:266-349 | the merge is the one configuration in which each option, text and list is the override's if that sets it and else the base's, a flag is set if either sets it, and a section that only one side has is taken whole |
| ConfigSpec.InlineTakesPrecedence | operator/internal/controller/quakeserver_controller.go:224-253 | what is resolved is the inline configuration field by field, and the template's where that sets nothing; without a reference it is the inline one alone, and a missing template is an error |
| ConfigSpec.MergeLaws | operator/internal/controller/quakeserver_controller.go:256-349 | merging is associative and idempotent, with the empty configuration as two-sided identity, nested sections included |
| ConfigSpec.MergeNilableLaws | operator/internal/controller/quakeserver_controller.go:256-264 | the same with nil configurations |
| MergeHeap.ResolveConfig | operator/internal/controller/quakeserver_controller.go:225-253 | nil exactly when the template is missing; otherwise, field by field, the inline configuration over the template's, in objects that are all new, with both inputs untouched |
| MergeHeap.MergeServerConfig | operator/internal/controller/quakeserver_controller.go:256-301 | the merge with its nil cases; the result shares only cells and slices of the override, and no struct |
| MergeHeap.MergeCopy | operator/internal/controller/quakeserver_controller.go:256-301 | the case of two configurations: deep copy of the base, updated in place |
| MergeHeap.MergeInto | operator/internal/controller/quakeserver_controller.go:266-301 | the updates in place, and which pointers they take over |
| MergeHeap.MergeGameConfig | operator/internal/controller/quakeserver_controller.go:303-325 | the game section, in place |
| MergeHeap.MergeServerSettings | operator/internal/controller/quakeserver_controller.go:327-337 | the server section, in place |
| MergeHeap.MergeBotConfig | operator/internal/controller/quakeserver_controller.go:339-349 | the bot section, in place |
| SpecHeap.DeepCopyInto | operator/api/v1alpha1/zz_generated.deepcopy.go:366-405 | the copy has the same value and leads only to new objects |
| SpecHeap.DeepCopy | operator/api/v1alpha1/zz_generated.deepcopy.go:408-415 | the same, with the nil case |
| SpecHeap.CopyMaps | operator/api/v1alpha1/zz_generated.deepcopy.go:391-397 | the slice of maps, cell by cell |
| SpecHeap.CopyCommands | operator/api/v1alpha1/zz_generated.deepcopy.go:398-402 | the slice of commands |
| SpecHeap.DeepGameCopyInto | operator/api/v1alpha1/zz_generated.deepcopy.go:39-57 | the game section |
| SpecHeap.DeepBotCopyInto | operator/api/v1alpha1/zz_generated.deepcopy.go:14-27 | the bot section |
| SpecHeap.DeepSettingsCopyInto | operator/api/v1alpha1/zz_generated.deepcopy.go:418-425 | the server section |
| SpecHeap.CopySlot | operator/api/v1alpha1/zz_generated.deepcopy.go:104-122 | one map with its limits |
| YamlConfig.GenerateConfigYaml | operator/internal/controller/quakeserver_controller.go:386-490 | the printer, loops and branches as written, prints exactly the lines of the document |
| YamlConfig.MapsYaml | operator/internal/controller/quakeserver_controller.go:461-479 | its loop over the maps |
| YamlConfig.CommandsYaml | operator/internal/controller/quakeserver_controller.go:481-487 | its loop over the commands |
| YamlText.DocumentReadsBack | operator/internal/controller/quakeserver_controller.go:386-490 | a document of plain lines parses back to the same lines |
| YamlText.QuoteReadsBack | operator/internal/controller/quakeserver_controller.go:427 | a string printed with %q reads back unchanged under the double-quoted style of section 7.3.1 of YAML 1.2 with the escapes of section 5.7 |
| Durations.DurationRoundTrip | operator/internal/controller/quakeserver_controller.go:403 | every number of nanoseconds printed as a duration parses back, from ns, µs and ms with their fractions to hours, minutes and seconds |
| Durations.UnitsMean | operator/internal/controller/quakeserver_controller.go:403 | what a whole number of each unit is in nanoseconds |
| YamlRoundTrip.RoundTrip | internal/quake/server/server.go:233-242 | reading the printed text over any configuration whose maps carry names only, like the defaults, gives the set fields and keeps the others, a flag that is false being unset |
| YamlRoundTrip.NilPrintsLikeEmpty | operator/internal/controller/quakeserver_controller.go:387-389 | no configuration prints as the one that sets nothing |
| YamlRoundTrip.BareTimeLimitRejected | internal/quake/server/server.go:237-240 | a file in which a time limit is a bare number, for the game or in the maps section, is rejected whatever else it holds |
| YamlRoundTrip.MapReads | operator/internal/controller/quakeserver_controller.go:463-478 | the map part of it, type and limits included; no type means FreeForAll |
| YamlRoundTrip.GameReads | operator/internal/controller/quakeserver_controller.go:421-445 | the game part of it |
| Pipeline.EndToEnd | internal/quake/server/server.go:233-250 | specification to YAML to server.cfg to console: after k map ends every variable that is not a rotation slot has the value the specification over the defaults gives, and exactly positions 0 to k have been loaded |
| Pipeline.FieldsEndToEnd | internal/quake/server/server.go:78-107 | from the specification to the console, field by field: each variable that the overrides spare has the value that the specification sets and else the literal default, after any number of map ends |
| Pipeline.MapsEndToEnd | internal/quake/server/game.go:8-50 | the specification's maps are loaded in their order, over and over, each under the number of its type: 0 for FreeForAll, FFA or none, up to 4 for CaptureTheFlag or CTF |
| Pipeline.LimitsEndToEnd | internal/quake/server/server.go:233-250 | the specification's own frag and time limits are in force until a map sets its own, which then sticks, the capture limit by CaptureTheFlag maps alone |
| YamlText.NullRead | internal/quake/server/server.go:237-240 | for every text, the reader takes it for a single null scalar if and only if each line is blank or a comment, or one line is a null spelling that at most white space and comments surround, where line breaks, trailing blanks, comments after the scalar, tabs and forbidden characters count as in the decoder |
| YamlConfig.NilExactly | internal/quake/server/server.go:237-240 | unmarshalling leaves the pointer to the configuration nil exactly for these texts, whatever the configuration was before |
| Pipeline.SurvivesUnlessNull | internal/quake/server/server.go:233-251 | over whole runs of the container, with edits, events, ticks, exits and failures in any order: the program ends in a panic if and only if at some point of the run it reads a file that says null |
| Pipeline.NothingSetIsDefault | internal/quake/server/server.go:78-107 | an empty specification runs exactly the defaults |
| Pipeline.NoChatCannotBeSwitchedOff | operator/internal/controller/quakeserver_controller.go:414-416 | no specification can make the bots talk |
| ServerCfg.Marshal | internal/quake/server/config.go:98-151 | the printer writes settings, then the rotation, then the overrides |
| ServerCfg.WriteSettings | internal/quake/server/config.go:101-133 | all settings, in file order |
| ServerCfg.WriteOverrides | internal/quake/server/config.go:144-148 | the loop over the overrides |
| ServerCfgMeaning.CfgMeaning | internal/quake/server/config.go:98-151 | after the file has run and k maps have ended, each variable has the value of the last map at positions 1 to k that sets it, else of the last override that assigns it, else of map 0's program, else of the configuration, else what it had |
| ServerCfgMeaning.CfgLoads | internal/quake/server/config.go:98-151 | and exactly the maps at positions 0 to k modulo n have been loaded, each under its own game type |
| ServerCfgFields.CfgFields | internal/quake/server/config.go:98-134 | once the file has run and k maps have ended, each of the 24 variables that the overrides spare holds its own field of the configuration: numbers in decimal, flags as 1 or 0, inactivity in whole seconds, the address if it is set and arrives; type of game and limits without maps |
| ServerCfgFields.CfgLimits | internal/quake/server/config.go:102-103 | when the overrides leave the limits alone, each limit is that of the last map at positions 0 to k that sets one, the capture limit only by maps of type 4, and else the file's global one, times in whole minutes |
| ServerCfgMeaning.CfgRuns | internal/quake/server/config.go:98-151 | running the file assigns the settings, plays map 0 and only then runs the overrides, whatever these are |
| ServerCfgMeaning.AddressArrives | internal/quake/server/config.go:118-121 | a download address arrives unchanged if and only if it has no two slashes in a row |
| ServerCfgMeaning.SchemeArrives | internal/quake/server/config.go:118-121 | of an address with a scheme only the scheme and its colon arrive |
| ServerCfgMeaning.OverridesAreRead | internal/quake/server/config.go:144-148 | whatever the overrides are, the console reads the commands of each by itself, of all of them and in order |
| ServerCfgMeaning.PlainOverride | internal/quake/server/config.go:144-148 | an override without quotes, semicolons and comments is one command of its words |
| ServerCfgMeaning.CfgReads | internal/quake/server/config.go:98-151 | the console reads the file as exactly the printed commands |
| ServerCfgMeaning.SettingSurvives | internal/quake/server/config.go:102-133 | a quoted setting reaches the console unchanged if and only if quoting has nothing to escape |
| ServerCfgMeaning.RunTame | internal/quake/server/config.go:144-148 | of any list of override commands other than those named in `BEYOND` the last assignment of a variable wins, and no map is loaded; a bare name assigns only a variable that is known by then |
| Quoting.EscapedDiffers | internal/quake/server/config.go:102-133 | where quoting escapes something, the console sees a different text |
| Rotation.Command | internal/quake/server/maps.go:20-33 | the program of one map, built by appending under branches |
| Rotation.MarshalMaps | internal/quake/server/maps.go:36-46 | the loop prints the rotation |
| Rotation.NextIsMod | internal/quake/server/maps.go:39 | the slot after the last is the first |
| RotationPlay.RotationCorrect | internal/quake/server/maps.go:36-46 | executing the printed script and then firing `vstr nextmap` k times gives the direct cyclic semantics, for every list of maps and every k |
| RotationPlay.RotationReadsBack | internal/quake/server/maps.go:40 | the console lexer reads the script as one definition per map and the jump |
| RotationPlay.BodyReadsBack | internal/quake/server/maps.go:32 | it reads each stored program as the map's commands |
| RotationPlay.ScriptPlaysFirst | internal/quake/server/maps.go:42-44 | the script itself plays map 0 |
| RotationPlay.MapEndPlaysNext | internal/quake/server/maps.go:39-40 | each end of map plays the next one |
| RotationPlay.MapEndsPlay | internal/quake/server/maps.go:39-40 | wherever the programs and the pointer are in place, k map ends are k steps of direct cyclic play |
| RotationLimits.RotationLoads | internal/quake/server/maps.go:36-46 | after k map ends the maps loaded are those at positions 0 to k modulo n, each under its own game type |
| RotationLimits.LapVisitsOnce | internal/quake/server/maps.go:39 | every map is visited exactly once per lap |
| RotationLimits.PositionIsMod | internal/quake/server/maps.go:39 | the position after k map ends is k modulo n |
| RotationLimits.ValuesStick | internal/quake/server/maps.go:22-30 | each variable has the value of the last map so far that sets it, else what it was; capturelimit only from CaptureTheFlag maps |
| RotationLimits.RotationLimitsStick | internal/quake/server/maps.go:22-30 | the three limits on the fields of the maps: after k map ends the capture limit is that of the last map up to k modulo n whose type is 4 and whose limit is not 0, and frag and time limit those of the last map with one, the time in whole minutes; without such a map they are as they were |
| Rotation.MinutesAreWhole | internal/quake/server/maps.go:29 | the minutes of a duration are whole, what is left being cut off toward zero |
| RotationLimits.ValuesRepeat | internal/quake/server/maps.go:22-30 | from the last map of the first lap on, all values repeat with period n |
| OperatorNet.ParseStatusResponse | operator/internal/quakenet/client.go:105-125 | the operator's parser against its specification, on every text |
| OperatorNet.ParsePlayers | operator/internal/quakenet/client.go:145-180 | its loop over the player lines, skipping malformed ones |
| StatusPacket.ParsePairs | operator/internal/quakenet/client.go:128-142 | the step-2 loop over keys and values that both programs have |
| ServerNet.ParseStatus | internal/quake/net/net.go:108-138 | the server's parser against its specification |
| ServerNet.ParsePlayers | internal/quake/net/net.go:67-93 | its loop, giving up at the first malformed line |
| StatusAgreement.LineByLine | operator/internal/quakenet/client.go:145-180 | the operator skips a line without three fields or whose first two are no numbers, and makes one player of every other, in its place, with the numbers of its fields and the unquoted name, or else the name without the quotes around it |
| StatusAgreement.ServerGivesUpExactly | internal/quake/net/net.go:67-93 | the server's player list fails if and only if some line has three fields of which one cannot be read |
| StatusAgreement.RefusedExactly | operator/internal/quakenet/client.go:105-125 | both parsers refuse a reply if and only if it has a single line |
| StatusPacket.LastPairWins | operator/internal/quakenet/client.go:136-141 | the value of a key is what follows its last occurrence |
| StatusAgreement.ParsersAgree | internal/quake/net/net.go:108-138 | on every text both accept or reject, with the same configuration; the server's players equal the operator's if and only if all lines are sound or there are none, and are empty otherwise |
| StatusAgreement.PlayersAgree | operator/internal/quakenet/client.go:145-180 | the server's player list is the operator's when every line is sound, else an error |
| StatusAgreement.PlayerCountIgnoresNames | operator/internal/quakenet/client.go:58-64 | the operator's player count does not depend on the name fields |
| StatusAgreement.ReplyRoundTrip | operator/internal/quakenet/client.go:105-180 | printing distinct plain pairs and any players whose names are unquoted as they were quoted as a reply and parsing it gives them back |
| StatusPacket.PlainIsCarried | operator/internal/quakenet/client.go:167-171 | which every ASCII name without quote, backslash and newline is |
| Debounce.Watch | internal/quake/server/server.go:294-341 | the loop of the goroutine against the fold of its turns; its log holds exactly the relevant events and the notifications before the end, and deliveries plus drops are the notifications |
| Debounce.LogIsWhatCame | internal/quake/server/server.go:294-341 | in every run the log is what came in: one entry for each relevant event and each notification before the end, in order |
| Debounce.AttemptsAreDebounced | internal/quake/server/server.go:312-327 | over the turns of every timed run: a notification comes at least the interval after every relevant event before it |
| Debounce.OneEventBetween | internal/quake/server/server.go:312-327 | between two notifications a relevant event has come in |
| Debounce.NoEventIsLost | internal/quake/server/server.go:320-327 | whenever no timer is armed, every relevant event has been followed by a notification, at least the interval later |
| Debounce.OneAttemptPerBurst | internal/quake/server/server.go:312-327 | of what came in there is exactly one notification per burst of events; only the open burst has none yet |
| Reload.Host.Reload | internal/quake/server/server.go:233-251 | a successful reload leaves the compiled file; one that fails or panics leaves server.cfg alone unless the write itself fails |
| Reload.FailedReloadIsHarmless | internal/quake/server/server.go:215-222 | in every run, whatever comes in between: a reload that is given up leaves the process as it was when it started, but for exiting by itself, and server.cfg as it was, but for what a failing write as its last step left |
| Reload.SuccessfulReload | internal/quake/server/server.go:233-251 | in every run, whatever comes in between: a reload gets as far as starting or restarting the game only when the directory has been made and the file written, and then server.cfg is what the file that it read compiles to |
| Reload.RestartReplaces | pkg/exec/exec.go:15-31 | in every run: the loop waits again only when the old process, not waited for before, has been killed and a new one started, which runs on the server.cfg of that reload |
| Reload.PanicsExactly | internal/quake/server/server.go:208-251 | for any compiler, a run ends in a panic if and only if somewhere along it the main loop reads a file on which the compiler panics |
| Reload.RunPanicExplained | internal/quake/server/server.go:238-242 | in every run, the last file that a panicked program has read is one on which the compiler panics, and the game is gone with it |
| Reload.WaitingMeansCurrent | pkg/exec/exec.go:15-31 | whenever the loop waits, a process that still runs was started after the last write of server.cfg, exactly unless a failing write has touched it since |
| Reload.QuietMeansFresh | internal/quake/server/server.go:208-251 | at rest, an edit is unread if and only if a tick was dropped after it or it came before the watch; if the last reload succeeded and the latest file compiles, server.cfg is its compiled form unless there is such an edit and it makes a difference, and exactly then |
| Reload.DroppedTickStays | internal/quake/server/server.go:320-327 | a tick that falls into a reload after its read leaves server.cfg stale at rest |
| Reload.EarlyEditStays | internal/quake/server/server.go:169-186 | so does an edit between the first read and the start of the watch |
| Reload.TornStays | internal/quake/server/server.go:250 | a failing write leaves the loop at rest, the old game running and server.cfg damaged |
| Reload.CrashIsFinal | pkg/exec/exec.go:15-31 | once a game has exited by itself and been waited for, no run ever starts one again, and the first reload that gets as far as the restart ends the loop |
| Proxy.PumpToBackend | internal/quake/client/proxy.go:73-104 | the pump's loop sends all messages but those that start with four bytes 0xff and `port`, in order, up to the first failure |
| Proxy.NothingIsReordered | internal/quake/client/proxy.go:73-119 | over all interleavings: datagrams sent are all but the `port` messages of a prefix of those read, at increasing positions, WebSocket messages a prefix of the datagrams received, each leaving out one at most |
| Proxy.ErrorExitBlocksNobody | internal/quake/client/proxy.go:121-126 | once the handler has left by taking an error, no pump can be blocked on the channel |
| Proxy.ErrorExitEnds | internal/quake/client/proxy.go:121-126 | and both pumps reach their end, each step bringing them nearer |
| Proxy.CancelExitLeavesAPump | internal/quake/client/proxy.go:126-128 | once it has left because of the context, at least one pump never ends |

## Left out

- MergeHeap.ResolveConfig: what an `*int` points to is a constant, since none of these functions writes through such a pointer; an error of the template lookup other than "not found" is part of `Operator`, not of this method.
- Durations.DurationRoundTrip: Go scales a fraction in floating point; the model cuts it off exactly, which is the same for every duration that is printed.
- YamlRoundTrip.RoundTrip: over a configuration whose maps set more than names, since the decoder keeps the other fields of the elements it reuses; map names that are plain-safe YAML scalars, numbers and durations that fit Go's 64-bit types, game types the server knows; other names are not a document of the emitted subset.
- YamlRoundTrip.BareTimeLimitRejected: lines in the layout that the operator prints.
- Pipeline.SurvivesUnlessNull: files with document markers, directives, tags, anchors or a byte order mark, some of which say null as well; text that is not valid UTF-8.
- YamlText.DocumentReadsBack: flow style, block scalars, single quotes, scalars over several lines and comments after quoted scalars are read as errors, also where the decoder accepts them.
- YamlRoundTrip.GameReads: the sections `network` and `fs` and the key `log` of a file, which the operator never prints, are passed over by the reader, so that they keep their defaults.
- ServerCfgMeaning.CfgMeaning: strings that quoting does not escape, map names that are single words, a download address without blanks, quotes and semicolons, and overrides without the commands named in `Console.BEYOND`; after a map end also overrides that leave `nextmap` and the slots in use alone. Other overrides are arbitrary console programs.
- RotationPlay.RotationCorrect: map names that are single words and start no comment; comments between `/*` and `*/`, variable registration, the case of names and the game's own commands are not modelled.
- RotationLimits.ValuesStick: `Duration.Minutes()` is truncating integer division, not floating point.
- OperatorQuiet.AtRestServersAreInOrder: routes only as far as they are wanted, since the code never removes one; a condition or endpoint of an earlier specification stays as well.
- OperatorWrites.WritesAreBounded: writes to the server and its children; those to templates are bounded in `OperatorUsedBy`. The template must stay readable from the cache, and the player query must keep its answer.
- OperatorEffort.EveryRunComesToRest: fairness of the schedule. Calls that fail for ever, and a template whose status is rewritten for ever because it has two users, are disturbances that the bound counts.
- OperatorTemplates.IndexAgrees: the index is part of the server cache and changes with it in one step.
- Reload.QuietMeansFresh: the debounce interval is a timer that is armed or not; its timing is in `Debounce`. A watch that is lost when an editor replaces the watched file is not modelled.
- Events are delivered one version at a time and cache and handlers change together; a relist that skips versions is not modelled.
- API defaulting, labels, pod templates, probes, security contexts, the list of service ports, event recording, metrics and logs: constants or side effects.
- Observed generations, transition times and the texts of condition messages.
- Webhook validation and defaulting, the game type tables beyond their names, resource names as strings.
- Sockets, HTTP, TLS, the content server, file walking and archive extraction.
- The start of a server without a configuration file, and cancellation of its context.
- The close handshake of the proxy's WebSocket and its two concurrent writers.
