# Verified models of the Hexagon agent framework

Dafny models of the parts of the framework that keep protocols, state and formats together, with proofs of
what they promise. `dafny verify dfyconfig.toml` checks everything.

| modules | system |
|---|---|
| BrowserState, BrowserSteps | the browser coordinator as a state machine: one step per critical section, channel operation or driver call, in any interleaving, with any driver answer |
| BrowserGate, BrowserChooser, BrowserSticky, BrowserReconcile, BrowserGeneration, BrowserReconnect, BrowserServer, BrowserCleanup, BrowserMade, BrowserCloseOnce | invariants of all its runs |
| BrowserAlone, BrowserAloneExecute, BrowserAloneFinish, BrowserAloneSession, BrowserAloneClose | what each public call comes to when nothing else happens meanwhile, for every answer of the driver |
| BrowserFrame | what a step leaves alone |
| BrowserCloseTwice, BrowserStaleClose | runs that show what two of them need |
| BrowserCoordinator | its methods that run in one critical section, and the page-closing loop, as imperative code |
| ClosedPages, Decimals | the set of closed pages kept as a prefix and merged ranges |
| Schema, SchemaLoops, SchemaMeaning, SchemaParse, SchemaRoundTrip | JSON Schema documents to the framework's schema values and back, with an evaluator for each side |
| Signals, Resume, ResumeDelivery, Codecs | interrupt signals, what a resumed run hands to whom, and the saved form of signals |
| ToolWire, ToolWireRoundTrip, ToolWireAccepts | the stored form of nested tool outputs |
| WireSchemas, SseCapture, CapturedSchemas | capturing tools/list responses from a body read in pieces |
| Diffs | configuration differences and applying them |
| PluginPins, PluginReferences | pins on plugin generations, and what a plugin reference identifies |
| Network, NetworkAlone | the message router's queue and the nodes' inboxes |
| Checkpoints | the checkpoint contract, the memory and the file backend |
| Team | the four modes of running a team, and a run's output from its tool calls |
| Wrappers | what the others share |

How the models stand to the code:

- A lock section, a channel operation or a driver call is one step; the call to the driver and its answer are
  one step. Driver answers, cancellations and everything a callback decides are free inputs.
- Fields marked as history in BrowserState (who holds a token, who is replacing, which generations were
  published and drained, which pages the driver made and which were recorded as created and closed, which tasks
  are uncertain) are read by no step. `BrowserSticky.UnknownOutcomeTaints`, `BrowserSticky.TaintStays`,
  `BrowserMade.MadeExactly`, `BrowserMade.CreatedExactly` and `BrowserCloseOnce.ClosedExactly` say exactly what
  changes the records of uncertain tasks and of pages.
- When a new session may be published is stated exactly, for all runs: `BrowserGeneration.RunEarlyExactly`. The
  other generation claims hold in just those runs. The sticky claims assume a task confined to one profile, stated
  as `Confined`; the claim that no page is closed twice assumes less, that cleanups of a task do not overlap.
- Claims about what later generations mean take generation numbers to stay below the largest 64-bit one, where
  they wrap; they say so as `Unwrapped`.
- A chooser is kept per profile but the driver is addressed by server. `BrowserServer.ChooserExcludesOnServer`
  says when the one protects the other.
- In the state machine Acquire may end up on any live profile; the exact choice is
  `BrowserCoordinator.Coordinator.Select`.
- A schema's instances are judged by `Valid`, after JSON Schema draft 2020-12. What references, patterns,
  formats and unknown keywords mean is a parameter (`World`), so the results hold for every meaning they may
  have. `WellFormed` is what the standard asks of the keywords that are translated, with two exceptions that
  `SchemaRoundTrip` states exactly: length bounds must be readable (`LeastLengthSurvives`,
  `GreatestLengthSurvives`), and a reference must not be the empty string, which the converter takes for none
  (`ReferenceSurvives`).
- The words that the schema converter asks for have constructors of their own in `Schema.Text`, as have the
  field names in `ToolWire.Key`; every other string is wrapped.
- In `Codecs` the encoders and decoders are function values, and what JSON makes of a signal's information is a
  parameter. The text of a key is name, NUL, version, as in the code.
- `SseCapture.JsonLike` is all that is assumed of the test for a JSON value: white space is none, and in an
  object brackets pair up and strings are quoted. What decoding makes of a payload is a parameter of `CapturedSchemas`.
- `Checkpoints.Format` stands for the hash that names files and for JSON text. The proofs assume that
  different namespaces get different names and that a chain's text reads back.
- A Go map is walked by taking any remaining key, so loops over maps are proved for every order.
- The comment at checkpoint/checkpoint.go:52 calls Latest the most recently written checkpoint. Overwriting
  an id keeps its place in the chain, so the model follows the code: see `Checkpoints.LatestIsPutExactly`.

## Model

| member | source | states |
|---|---|---|
| `BrowserGate.TokensAlways` | browserruntime/coordinator.go:176-181 | in every run of every interleaving, each profile's gate, each lease's operation lock and each profile's transition channel has its one token in exactly one place |
| `BrowserGate.StepKeepsTokens` | browserruntime/coordinator.go:416-571 | every step of every call - waiting, binding, publishing, acting, cleaning up, releasing, closing, replacing, confirming a stop - keeps that accounting, with any driver answer |
| `BrowserGate.ExactlyOneHolder` | browserruntime/coordinator.go:176-181 | of the gate, the calls in flight, the unreleased leases and "stranded", exactly one holds a profile's token |
| `BrowserGate.LeasesExclude` | browserruntime/coordinator.go:553-571 | two unreleased leases never coexist on a profile |
| `BrowserGate.SendsNeverBlock` | browserruntime/coordinator.go:998-1031 | no send into a gate, an operation lock or a transition channel ever finds it full |
| `BrowserGate.StrandedGateIsEmpty` | browserruntime/coordinator.go:525-541 | a profile stranded by a bind of unknown outcome has no token in its gate |
| `BrowserGate.OperationsAndReplacementsExclude` | browserruntime/coordinator.go:596-611 | one operation at a time on a lease, one replacement at a time on a profile |
| `BrowserChooser.ChooserAlways` | browserruntime/coordinator.go:475-495 | the chooser invariant holds in every run: whoever works on a profile with a pending chooser works on the chooser's page for its owner |
| `BrowserChooser.ChooserExcludesOtherActions` | browserruntime/coordinator.go:671-677 | while a chooser is pending on a profile every action handed to the driver is a file upload, a cleanup's cancelling upload is for that very chooser, and no page is closed |
| `BrowserServer.ApartAlways` | browserruntime/coordinator.go:203-229 | in every run no two live sessions are of one server |
| `BrowserServer.ChooserExcludesOnServer` | browserruntime/coordinator.go:668-677 | while a chooser of a live session is pending on a server, what it excludes reaches that server only through a lease whose own session was closed after its call had checked it, as long as no generation number is the largest one |
| `BrowserStaleClose.StaleCleanupCanDisturb` | browserruntime/coordinator.go:915-927 | that exception can happen: a run is given in which a cleanup whose session was closed meanwhile is about to close a page on a server where another session's chooser is pending |
| `BrowserChooser.ChooserIsInherited` | browserruntime/coordinator.go:141-144 | a lease handed out while a chooser is pending is on the chooser's page and generation, for the chooser's owner |
| `BrowserSticky.StickyAlways` | browserruntime/coordinator.go:556-559 | in every run the recorded uncertainty of a task reaches every lease that could act for it |
| `BrowserSticky.UnknownOutcomeBlocksTask` | browserruntime/coordinator.go:668-674 | for a task confined to one profile, nothing is handed to driver.Execute while an earlier action's outcome is unknown, across Release and a new Acquire |
| `BrowserSticky.TaintStays` | browserruntime/coordinator.go:967-995 | a recorded unknown outcome is lifted exactly by the end of a reconciliation, the end of a cleanup, or a FinishTask that finds no binding to clean; how a reconciliation comes to its end is in BrowserReconcile |
| `BrowserSticky.UnknownOutcomeTaints` | browserruntime/coordinator.go:940-954 | a task becomes uncertain exactly when an observation, a bind, an action, the cancelling of a chooser or the close of a page leaves its outcome unknown |
| `BrowserReconcile.ReconcileExactly` | browserruntime/coordinator.go:971-990 | a call that reconciles a lease goes on to lift the uncertainty exactly when the lease is unreleased, its session is found live under the lease's generation, and the driver and the verification confirm; otherwise it only gives the operation lock back |
| `BrowserReconcile.LiftsExactly` | browserruntime/coordinator.go:988-993 | lifting clears the lease's mark and then the task's, and the end of a call clears neither |
| `BrowserReconcile.LiftingWasConfirmed` | browserruntime/coordinator.go:975-990 | in every run, a call that is about to lift a lease's uncertainty was so confirmed, and has been about to lift it ever since |
| `BrowserReconcile.LiftedOnlyByConfirmed` | browserruntime/coordinator.go:966-995 | in every run a task's uncertainty ends only by a reconciliation that was so confirmed on one of its leases, or with the task itself |
| `BrowserReconcile.ConfirmedIsLifted` | browserruntime/coordinator.go:985-994 | in every run a confirmed reconciliation lifts the uncertainty with its call's next step |
| `BrowserAlone.ReconcileAlone` | browserruntime/coordinator.go:967-995 | run by itself, Reconcile clears the marks of its lease and its task exactly when it is confirmed, and otherwise changes nothing |
| `BrowserAlone.ObserveAlone` | browserruntime/coordinator.go:635-657 | run by itself, Observe marks the task exactly when a look that is allowed has an unknown outcome, and changes nothing else |
| `BrowserAlone.ReleaseAlone` | browserruntime/coordinator.go:998-1032 | run by itself, Release gives up an unreleased lease and its gate token, an uncertain one only after its session was confirmed stopped or the driver came to rest; otherwise it changes nothing |
| `BrowserAloneExecute.PageActionAlone` | browserruntime/coordinator.go:660-741 | select_page and new_page: refused, unknown or failed as stated, and otherwise the lease and the binding are on the page the driver bound, which a new page makes the task's own |
| `BrowserAloneExecute.ActionAlone` | browserruntime/coordinator.go:660-742 | any other action reaches the driver exactly when it is not refused and its observation bind succeeds |
| `BrowserAloneExecute.DispatchAlone` | browserruntime/coordinator.go:742-788 | what follows the driver's answer: the mark of an unknown outcome, the chooser, the stop of a closed browser, the page a tab action shows or opened, the observation |
| `BrowserGeneration.RegistrationRaises` | browserruntime/coordinator.go:203-229 | a registration raises the generation exactly when it is not the largest 64-bit number, where it wraps |
| `BrowserGeneration.GenerationsOnlyGrow` | browserruntime/coordinator.go:203-229 | no step lowers a generation, and a profile that died lives again only under a higher one |
| `BrowserGeneration.RegisterEarlyExactly` | browserruntime/coordinator.go:203-229 | a registration publishes over a generation that was not stopped and drained exactly when it is accepted and the current generation was published and not both stopped and drained |
| `BrowserGeneration.RunEarlyExactly` | browserruntime/coordinator.go:203-229 | in every run, direct registrations at any time included, nothing is published too early exactly when every registration met that guard |
| `BrowserReconnect.ReconnectAfterClose` | browserruntime/coordinator.go:288-323 | from the return of a CloseSession to the next registration on its profile every registration meets the guard, whatever else happens meanwhile, as long as no generation number is the largest one |
| `BrowserReconnect.CloseEndsTheSession` | browserruntime/coordinator.go:290-323 | when CloseSession returns without an error the session it closed is dead, confirmed stopped and drained, unless another was registered by then |
| `BrowserGeneration.GenerationsAlways` | browserruntime/coordinator.go:233-267 | the generation invariant holds in every run whose registrations meet the guard |
| `BrowserGeneration.PublishedOnlyOverTheStopped` | browserruntime/coordinator.go:290-323 | in those runs every generation published before the current one was confirmed stopped and its gate drained, and unreleased leases are of the current generation |
| `BrowserReconnect.ReplacementIsGuarded` | browserruntime/coordinator.go:233-267 | what a BeginReplacement publishes meets the guard in every run in which nobody registers directly on a profile that is being replaced |
| `BrowserReconnect.UndisturbedEarlyExactly` | browserruntime/coordinator.go:233-267 | in such a run nothing is published too early exactly when the direct registrations met the guard |
| `BrowserGeneration.DirectRegistrationCanPublishEarly` | browserruntime/coordinator.go:300-308 | the guard can be missed: a run is given in which a failed stop and a direct registration publish generation 2 over a generation 1 nobody saw stop |
| `BrowserGeneration.WaiterStaysInItsGeneration` | browserruntime/coordinator.go:450-482 | a call queued under one generation never receives a lease of another |
| `BrowserCleanup.PagesAlways` | browserruntime/coordinator.go:844-870 | in every run, what is owned was recorded as created by its task, and every work list is within it |
| `BrowserCleanup.ClosesOnlyOwnPages` | browserruntime/coordinator.go:912-927 | a page handed to driver.ClosePage was recorded as created by that task on the lease's server and generation, is not retained, and its generation was not confirmed stopped at the snapshot |
| `BrowserCleanup.OwnedUntilTreated` | browserruntime/coordinator.go:912-937 | a page leaves a task's ownership only by being retained, by the task's removal, or as the page a cleanup has just treated; a failed close takes nothing away |
| `BrowserMade.MadeAlways` | browserruntime/coordinator.go:503-562 | in every run, what is recorded as created was made by the driver because that task asked for a page of its own, in an Acquire, by new_page or by opening a tab |
| `BrowserMade.MadeExactly` | browserruntime/coordinator.go:503-523 | the driver makes a page exactly for an Acquire on a session that owns its browser and is no extension, whose caller named no page, reuses no binding, demands no existing session and does not ask for the current page, and for new_page and a tab action that opens one |
| `BrowserMade.CreatedExactly` | browserruntime/coordinator.go:553-562 | a page is recorded as created exactly when such an Acquire publishes it or such an action takes it over, and then the driver made it and the task owns it |
| `BrowserMade.WishStays` | browserruntime/coordinator.go:416-503 | what an Acquire was asked for stays as it was until it is published |
| `BrowserMade.ClosesOnlyMadePages` | browserruntime/coordinator.go:912-927 | a page handed to driver.ClosePage was made by the driver for that task: never one the user had open |
| `BrowserAloneSession.AcquireStarts` | browserruntime/coordinator.go:423-470 | Acquire waits exactly on a live profile, and with a reused binding only on its own page and generation |
| `BrowserAloneSession.GotAlone` | browserruntime/coordinator.go:475-503 | behind the gate Acquire goes on exactly when its session is still the live one and no foreign chooser is pending, on the page asked for, and asks for a new page exactly in the case above |
| `BrowserAloneSession.BindAlone` | browserruntime/coordinator.go:503-570 | from the bind on: the profile is stranded exactly by an unknown outcome whose generation was not confirmed stopped; nothing is lent without a page; otherwise the lease, the binding and the ownership of a new page are recorded |
| `BrowserAloneSession.InspectAlone` | browserruntime/coordinator.go:328-412 | inspecting changes nothing |
| `BrowserAloneFinish.FinishAlone` | browserruntime/coordinator.go:844-871 | a cleanup starts with a snapshot of the task's pages |
| `BrowserAloneFinish.SnapshotAlone` | browserruntime/coordinator.go:857-911 | then it stops at an uncertain lease or another's chooser, cancels its own chooser where a page is to be closed, and goes on only if that is confirmed |
| `BrowserAloneFinish.PagesAlone` | browserruntime/coordinator.go:912-931 | then it treats the pages in order up to the first that fails: each before it is closed if it is to be closed, and no longer owned |
| `BrowserAloneFinish.EndAlone` | browserruntime/coordinator.go:932-937 | and at the end forgets the task |
| `BrowserAloneFinish.ThenReleases` | browserruntime/coordinator.go:820-839 | however the cleanup ended, FinishTask then releases the lease |
| `BrowserAloneClose.CloseAlone` | browserruntime/coordinator.go:290-323 | run by itself on a profile without a lease, CloseSession leaves the session dead, and if it could be stopped, confirmed stopped and drained |
| `BrowserAloneClose.CloseWithLease` | browserruntime/coordinator.go:310-316 | with a lease, it gives that lease up first |
| `BrowserAloneClose.ReplacementStarts` | browserruntime/coordinator.go:233-251 | BeginReplacement takes the transition token and closes the session |
| `BrowserAloneClose.ReplacementEnds` | browserruntime/coordinator.go:252-267 | finish registers the session that was connected, if it is of that profile, and gives the token back |
| `BrowserAloneClose.RegisterAlone` | browserruntime/coordinator.go:203-229 | a registration is accepted exactly where the profile and the server have no live session, under the generation asked for if it is higher and otherwise the next |
| `BrowserAloneClose.PrepareAlone` | browserruntime/coordinator.go:184-200 | a profile is prepared exactly once |
| `BrowserAloneClose.ConfirmAlone` | browserruntime/coordinator.go:270-286 | a confirmed stop ends the generation's chooser, liveness and stranding, and nothing else |
| `BrowserAloneClose.RetainAlone` | browserruntime/coordinator.go:799-803 | retaining a page takes exactly that page out of the task's ownership |
| `BrowserAloneClose.FinishUnbound` | browserruntime/coordinator.go:806-816 | FinishTask forgets a task without a binding or profile |
| `BrowserAloneClose.FinishStarts` | browserruntime/coordinator.go:817-839 | and otherwise cleans up on the task's own lease, or on one made for it when the gate is free |
| `BrowserCloseOnce.OnceAlways` | browserruntime/coordinator.go:912-931 | as long as no two cleanups of the task on that server and generation overlap, a page it still owns or has still to close was not closed for it, unless it is the page just treated |
| `BrowserCloseOnce.NeverClosedTwice` | browserruntime/coordinator.go:912-931 | in every run in which no two cleanups of a task on a server and generation overlap, a page about to be handed to driver.ClosePage was not acknowledged as closed for that task since it was last recorded as created |
| `BrowserCloseOnce.SoloNeverOverlaps` | browserruntime/coordinator.go:844-870 | the cleanups of a task whose leases on a server and generation are on one profile never overlap |
| `BrowserCloseOnce.NeverClosedTwiceOnOneProfile` | browserruntime/coordinator.go:912-931 | so such a task, and any task confined to one profile, never closes a page there twice |
| `BrowserCloseOnce.NeverClosedTwiceByAnyone` | browserruntime/coordinator.go:912-931 | ... nor for any other task, if each page was recorded by one task only |
| `BrowserCloseOnce.ClosedExactly` | browserruntime/coordinator.go:923-927 | the record of closed pages used above gains a page exactly by an acknowledged close and loses it exactly when the page is recorded as created again |
| `BrowserCloseTwice.TwoProfilesCanCloseTwice` | browserruntime/coordinator.go:875-927 | overlapping cleanups can: a run is given in which a task with leases on two profiles of one server and generation is about to close a page already closed for it |
| `BrowserCoordinator.Coordinator.RegisterSession` | browserruntime/coordinator.go:203-229 | the scan over the profiles, in any order, comes to one outcome and one new map |
| `BrowserCoordinator.Coordinator.PrepareProfile` | browserruntime/coordinator.go:184-200 | a profile is prepared once and never moves to another server |
| `BrowserCoordinator.Coordinator.ConfirmSessionStopped` | browserruntime/coordinator.go:270-286 | the chooser goes exactly if it was of that generation, liveness exactly if that generation is the current one, the gate gets its token back exactly if it was stranded under that generation; other profiles stay |
| `BrowserCoordinator.Coordinator.Select` | browserruntime/coordinator.go:416-448 | Acquire selects a profile exactly when one and only one live profile fits the target, in any order of the map |
| `BrowserCoordinator.TaskPages.Finish` | browserruntime/coordinator.go:912-937 | one cleanup's loop: the pages issued are distinct pages to close; finished, all of them are closed and nothing is owned; after a failure at a page, it and all unacknowledged ones are still owned |
| `SchemaLoops.SchemasAppend` | mcp/official.go:867-879 | of a list exactly the objects and booleans are kept as schemas, each in its place |
| `SchemaMeaning.EmitSound` | mcp/official.go:888-1005 | every schema value is written as a document that accepts the same instances; at the root, where a schema without a type becomes an object schema, the same objects and nothing else |
| `SchemaMeaning.EmitFields` | mcp/official.go:888-1005 | the written object holds exactly one entry per keyword of the schema value, and the unknown keywords unchanged |
| `SchemaMeaning.EmptyFields` | mcp/official.go:912-972 | empty definitions and an empty list of required names are left out; an empty map of properties is written exactly for an object |
| `SchemaParse.ParseSound` | mcp/official.go:686-829 | a well-formed document is read into a schema value that accepts the same instances |
| `SchemaParse.UnionPlaced` | mcp/official.go:789-796 | a list of types takes nothing away from anyOf or allOf: both it and they must hold |
| `SchemaParse.UnionMembers` | mcp/official.go:707-714 | an instance fits a type list exactly when it fits one of the names kept |
| `SchemaParse.BooleanSound` | mcp/official.go:817-830 | the schema values standing for true and false accept everything and nothing |
| `SchemaRoundTrip.TranslationKeepsMeaning` | mcp/official.go:686-1015 | received and returned, a well-formed subschema accepts the same instances |
| `SchemaRoundTrip.DocumentKeepsMeaning` | mcp/official.go:884-921 | a whole document accepts the same instances, except that one without a single type name comes to demand an object |
| `SchemaRoundTrip.DefinitionsKeepMeaning` | mcp/official.go:698-705 | each definition a reference may name keeps its name and its meaning |
| `SchemaRoundTrip.Reparsed` | mcp/official.go:888-1015 | a schema value written and read again is the same value, at the root with the type object filled in |
| `SchemaRoundTrip.ParsedIsClean` | mcp/official.go:804-812 | what the parser makes never shadows a keyword with an unknown one |
| `SchemaRoundTrip.TranslationSettles` | mcp/official.go:686-1015 | well-formed or not, a document no longer changes after one translation |
| `SchemaRoundTrip.AnnotationsSurvive` | mcp/official.go:692-723 | a translated document has the same non-empty title, description and dialect and the same non-null default as the received one |
| `SchemaRoundTrip.LeastLengthSurvives` | mcp/official.go:849-865 | a least length keeps its meaning exactly when it is read as an integer or says nothing: the literal 2.0 is lost |
| `SchemaRoundTrip.GreatestLengthSurvives` | mcp/official.go:849-865 | a greatest length keeps its meaning exactly when it is read as an integer |
| `SchemaRoundTrip.ReferenceSurvives` | mcp/official.go:692-694 | a reference keeps its meaning exactly when it is not the empty string, or the empty reference accepts everything |
| `SchemaLoops.SchemaStringSlice` | mcp/official.go:832-847 | the loop keeps the strings in order |
| `SchemaLoops.ParseSchemaList` | mcp/official.go:867-879 | the loop gives the schemas of the list in order, and no list where there is none |
| `SchemaLoops.ParseSchemas` | mcp/official.go:763-771 | filling the map of properties in any order gives the same map |
| `SchemaLoops.SchemaListToSDK` | mcp/official.go:1007-1015 | the loop writes every member in order |
| `Resume.AddressEquals` | interrupt/address.go:76-86 | equality, both ways |
| `Resume.IsDescendantOf` | interrupt/address.go:90-100 | a descendant is strictly below, both ways |
| `Resume.ResumeInfo.AppendAddressSegment` | interrupt/address.go:120-163 | walking the map in some order gives the context and the used marks of that order |
| `Resume.ResumeInfo.Resume` | interrupt/resume.go:46-70 | every given id is asked for without data |
| `Resume.ResumeInfo.BatchResumeWithData` | interrupt/resume.go:99-120 | every id of the map is asked for, in any order |
| `Resume.ScanTold` | interrupt/address.go:132-159 | a context takes what waits at its address, is a target exactly when data waits at or below it, and marks used exactly what waited there |
| `Resume.ScanMarks` | interrupt/address.go:132-159 | in any order of the map, a context is a target exactly when unused data is asked for at or below it, and the marks grow by exactly what stands at it |
| `ResumeDelivery.OrderFreeExactly` | interrupt/address.go:137-159 | what a context shows is independent of map order exactly when the states waiting at its address are all the same and data waits there for at most one interrupt |
| `ResumeDelivery.RecordIsOrderFree` | interrupt/address.go:137-159 | the used marks and the target flag never depend on map order |
| `ResumeDelivery.DeliveredOnce` | interrupt/address.go:140-151 | in every run each interrupt's state and data go to at most one context, however often it is asked for |
| `ResumeDelivery.ContextMeans` | interrupt/address.go:120-163 | with addresses apart, a context holds exactly the state and data that wait at its address |
| `ResumeDelivery.ResumeReaches` | interrupt/persist.go:20-84 | flattened, populated and asked for, an interrupt's own state and data reach the component at its address whatever the run did before, and every component above it is a target |
| `ResumeDelivery.WalkFromRoot` | interrupt/address.go:120-163 | building the address up from the root, every prefix is a target and the full address gets that interrupt's state and data |
| `ResumeDelivery.OthersAreNoTargets` | interrupt/address.go:153-158 | an address with nothing asked for at or below it is no target and gets no data |
| `Signals.SavedMaps.Flatten` | interrupt/persist.go:36-45 | the recursive walk writes the signals in the tree's order |
| `Signals.FlattenedHolds` | interrupt/persist.go:20-45 | with distinct ids the two maps hold each signal's address and state, and nothing else |
| `Signals.RequestedChildInterrupt` | agent/agent_tool.go:388-398 | the search down a tree finds the first signal asked for in the tree's order, where an asked empty id ends the search below it |
| `Signals.ReachedExactly` | agent/agent_tool.go:388-398 | the search comes to a signal exactly when no signal above it has the empty id while the empty id is asked for |
| `Signals.FirstAskedMeans` | agent/agent_tool.go:388-398 | what is found is asked for and in the tree, nothing before it is asked for, and nothing is found only when nothing is |
| `Codecs.StateCodecs.Register` | interrupt/codec.go:49-75 | the maps by type and by version stay one to one and no entry ever changes; every refusal has its reason, and registering a type again under its own key keeps the old codec; once a type is registered, every state of it that its codec takes is saved |
| `Codecs.EncodeExactly` | interrupt/codec.go:82-108 | saving succeeds exactly for no state and for a state whose type is registered and whose codec takes it, and leaves that codec's name, version and data; each refusal has its own cause |
| `Codecs.DecodeExactly` | interrupt/codec.go:110-135 | restoring succeeds exactly when the named codec is there and gives a value of its own type; each refusal has its own cause |
| `Codecs.StateRoundTrip` | interrupt/codec.go:82-135 | a state its codec takes is saved and read back by the codec that wrote it, whatever was registered since |
| `Codecs.SignalRoundTrip` | interrupt/codec.go:147-199 | saving and restoring a tree keeps ids, addresses, states, root marks and shape, also after later registrations |
| `Codecs.SavedExactly` | interrupt/codec.go:147-174 | a tree can be saved exactly when each signal's state is none or taken by the codec of its type, and its information can be written |
| `Codecs.RestoredExactly` | interrupt/codec.go:176-199 | a saved tree is restored as a given tree exactly when ids, addresses, marks and shape agree, each state is what its codec reads and each information what JSON reads, nothing where nothing was written |
| `Codecs.RestoredResumesAlike` | interrupt/codec.go:176-199 | a restored tree fills the resume maps as the interrupted one did |
| `ToolWireRoundTrip.RoundTrip` | agent/agent_tool.go:621-684 | decoding what was encoded succeeds exactly when every child run on the typed path has version 1, and gives the value back up to what JSON forgets |
| `ToolWire.EmptyIsLeftOut` | agent/agent_tool.go:566-584 | an empty list of calls or children and an empty error are left out of what is written, typed or not |
| `ToolWireAccepts.AcceptedExactly` | agent/agent_tool.go:652-722 | whatever was stored, a tool output is read exactly when it is of version 1 and of a known kind at every typed place in it and each of its fields has the right form |
| `ToolWireAccepts.PayloadAcceptedExactly` | agent/agent_tool.go:602-611 | a call's payload is read exactly when it is of its kind, of version 1 and a result |
| `ToolWireAccepts.KindDecides` | agent/agent_tool.go:652-684 | what is read is of the kind that was stored |
| `ToolWireRoundTrip.TypedExactly` | agent/agent_tool.go:561-566 | a value comes back as a child run or stored result exactly when it went in as one, whatever a map says of itself |
| `ToolWireRoundTrip.OutputRoundTrip` | agent/agent_tool.go:685-725 | an agent's output comes back with its calls and children in order, or fails as a whole |
| `ToolWireRoundTrip.PayloadRoundTrip` | agent/agent_tool.go:594-620 | the payload of a tool call comes back |
| `ToolWireRoundTrip.NormalSettles` | agent/agent_tool.go:621-684 | a value that came back does not change by being stored again |
| `ToolWireRoundTrip.JsonSettles` | agent/agent_tool.go:656-659 | plain JSON comes back as scalars, lists and maps, and means the same JSON |
| `ClosedPages.IndexExactly` | browserruntime/mcp_driver.go:116-116 | an id has a page number exactly when it is that number's decimal writing after the browser's prefix |
| `ClosedPages.Merge` | browserruntime/mcp_driver.go:121-122 | merging sorted ranges gives sorted ranges with gaps that cover the same numbers |
| `ClosedPages.Absorb` | browserruntime/mcp_driver.go:123-123 | absorbing ranges into the prefix keeps what is covered and leaves a gap behind it |
| `ClosedPages.InsertCovers` | browserruntime/mcp_driver.go:121-121 | sorting one more number in covers exactly one more number |
| `ClosedPages.TotalCounts` | browserruntime/mcp_driver.go:127-127 | the prefix and the lengths of the ranges add up to how many numbers they stand for |
| `ClosedPages.ClosedSet.Add` | browserruntime/mcp_driver.go:119-125 | adding an id adds it to the set it stands for, and nothing else |
| `ClosedPages.ClosedSet.Has` | browserruntime/mcp_driver.go:126-126 | an id is found exactly when it was added |
| `ClosedPages.ClosedSet.Size` | browserruntime/mcp_driver.go:127-127 | the size is the number of distinct page ids added |
| `Decimals.TextIsInjective` | mcp/schema_wire.go:41-42 | different whole numbers are written differently, and each ends with a digit |
| `WireSchemas.KeyExactly` | mcp/schema_wire.go:29-45 | two usable ids share a key exactly when they are the same string or the same number |
| `WireSchemas.Schemas.Request` | mcp/schema_wire.go:48-67 | the pending ids grow exactly for a tools/list request with a usable id, and by that id's key |
| `WireSchemas.Schemas.Capture` | mcp/schema_wire.go:70-99 | a response without a method under a pending id uses up exactly that id, and each tool with a name and an input has afterwards the last input given for it; other tools keep what they had, and otherwise nothing changes |
| `WireSchemas.AbsorbedExactly` | mcp/schema_wire.go:84-98 | what a response leaves is told by its id and its tools alone |
| `WireSchemas.LearnMeans` | mcp/schema_wire.go:91-98 | a tool's schema is the last one given for it; other tools keep theirs |
| `WireSchemas.ConsumedOnce` | mcp/schema_wire.go:84-90 | in every run no more responses are let in under an id than requests asked under it |
| `WireSchemas.PendingExactly` | mcp/schema_wire.go:48-90 | in every run an answer is awaited exactly under the keys of the requests that were neither given up nor answered since |
| `WireSchemas.ChangesOnlyByAnswers` | mcp/schema_wire.go:84-98 | the stored schemas change only when a response is let in |
| `SseCapture.ResponseBody.Read` | mcp/schema_wire.go:225-256 | one read does to the parser what its bytes do one by one |
| `SseCapture.ResponseBody.TakeLines` | mcp/schema_wire.go:230-237 | taking complete lines off the buffer equals reading byte by byte |
| `SseCapture.StreamIsPieceFree` | mcp/schema_wire.go:225-248 | an event stream read in any pieces ends in the same state with the same payloads |
| `SseCapture.StreamDelivers` | mcp/schema_wire.go:194-248 | events with names, ids, comments and payloads of several lines, written with either line end and read in any pieces: the payloads of the unnamed and the "message" events are handed on one by one, unchanged, also the last one where the body ends early; the body may be resumed exactly if an event has an id |
| `SseCapture.TrimMeans` | mcp/schema_wire.go:212-222 | trimming takes the white space off both ends, and nothing else |
| `SseCapture.JsonPieceFreeExactly` | mcp/schema_wire.go:249-253 | a JSON body is handed on whole in every cutting exactly when no proper beginning of it is JSON by itself |
| `SseCapture.JsonMeansAlikeExactly` | mcp/schema_wire.go:249-253 | what a JSON body means is the same in every cutting exactly when no beginning of it is JSON of another meaning |
| `SseCapture.ObjectIsPieceFree` | mcp/schema_wire.go:249-253 | a JSON object is handed on in every cutting, short of white space behind it at most |
| `CapturedSchemas.JsonStoresAlikeExactly` | mcp/schema_wire.go:70-99 | a JSON body leaves the same schemas and pending ids in every cutting exactly when no beginning of it is JSON that leaves others |
| `CapturedSchemas.ObjectStoresAlike` | mcp/schema_wire.go:225-256 | a JSON object leaves the same schemas and pending ids in every cutting |
| `CapturedSchemas.StreamStores` | mcp/schema_wire.go:194-256 | responses written among other events in a stream leave, in every cutting, what they leave one by one in order: each uses up its id and gives its tools their last inputs |
| `Diffs.DiffMaps` | config/diff.go:188-226 | walking the two maps in any order lists every difference once and nothing else |
| `Diffs.DiffValues` | config/diff.go:229-316 | the differences of two values |
| `Diffs.DiffConfigs` | config/diff.go:77-112 | added, removed and modified counts are right and sum to the list's length; there are changes exactly when the configurations differ |
| `Diffs.OfKindCounts` | config/diff.go:86-115 | the count of a kind is the number of places that hold a difference of that kind |
| `Diffs.NoDiffExactly` | config/diff.go:229-316 | there is no difference exactly when the values are equal |
| `Diffs.ApplySettles` | config/diff.go:188-226 | applying one difference settles it and touches no other |
| `Diffs.PatchReachesNew` | config/diff.go:188-316 | applied in any order the differences turn the old value into the new one |
| `Diffs.PatchReachesOld` | config/diff.go:188-316 | turned round and applied in any order they lead back |
| `Diffs.WrittenAlikeExactly` | config/diff.go:319-324 | two paths are written alike exactly when they agree after empty keys in front are dropped and keys are cut at their dots |
| `Diffs.WrittenIsInjective` | config/diff.go:319-324 | with keys that are not empty and hold no dot, written paths are told apart |
| `Diffs.WrittenPathsCanCollide` | config/diff.go:319-324 | with other keys they are not: two examples |
| `PluginReferences.SameReferenceIdentity` | plugin/dependencies.go:169-177 | two references are the same exactly when they agree, at every depth and in order, in everything but where a definition is kept and what it says |
| `PluginReferences.SameExactly` | plugin/dependencies.go:169-177 | references are the same exactly when name, version and configuration are, and the dependencies one by one in order |
| `PluginPins.Registry.CaptureDependencies` | plugin/dependencies.go:75-106 | it succeeds exactly when every name leads to a generation that is neither retired nor forced; then the names pinned are those given, each once, in the order of first occurrence, and each generation's count rises by the number of different names leading to it; otherwise nothing changed and the first unavailable name is reported |
| `PluginPins.DistinctIsEachOnce` | plugin/dependencies.go:79-84 | the names that are looked up: exactly the names given, none twice, in the order in which each first stands |
| `PluginPins.PinnedExactly` | plugin/dependencies.go:80-103 | in the interleaving, a generation is pinned exactly when a capture comes to a new name leading to it and it is neither retired nor forced |
| `PluginPins.Registry.ReleaseDependencyBindings` | plugin/dependencies.go:54-72 | every binding gives back its pin, a retired generation is drained exactly when it gives back its last one, and a second call changes nothing |
| `PluginPins.Registry.RetireGeneration` | plugin/generation.go:408-417 | a generation that nothing pins is drained once, by its first retirement, and by no later one |
| `PluginPins.AlwaysBalanced` | plugin/dependencies.go:54-106 | in every interleaving each count equals the outstanding pins, and the drained signal has fired once if the generation is retired and unpinned, and otherwise never |
| `PluginPins.DrainedStays` | plugin/dependencies.go:90-97 | a drained generation is never pinned again |
| `Network.StepIsSound` | agent/network.go:860-1034 | every step of Route, deliver, Stop, CloseInbox and Start keeps locks exclusive, flags and channels in accord and messages in place |
| `Network.NeverPanics` | agent/network.go:966-1034 | in every interleaving nothing is sent on a closed channel and no channel is closed twice |
| `Network.DeliversInOrder` | agent/network.go:860-884 | a channel hands out what was sent, in order, within its capacity |
| `Network.SentOnce` | agent/network.go:966-1002 | a call's message is in one channel at most, and there once |
| `Network.ClosedTakesNothing` | agent/network.go:174-182 | once a port's closed flag is set nothing more gets in |
| `NetworkAlone.RouteAlone` | agent/network.go:860-884 | a stopped router refuses a message, a running one queues it or waits for room until the context is over, one that does not run delivers it itself |
| `NetworkAlone.DeliverAlone` | agent/network.go:966-1002 | a closed or offline node takes nothing; otherwise the message is in the inbox where there is room, and refused where there is none or the context is over |
| `NetworkAlone.CloseAlone` | agent/network.go:1026-1034 | Stop and CloseInbox close the channel once and leave its messages; a second call changes nothing |
| `NetworkAlone.StartAlone` | agent/network.go:1005-1010 | Start marks the router as running and goes on to receive |
| `NetworkAlone.ReceivesInOrder` | agent/network.go:1010-1019 | the consumer takes what is there, in the order of sending |
| `NetworkAlone.ReceiveEnds` | agent/network.go:1011-1017 | it ends with its context or when the queue is closed and empty, and waits at an open empty one |
| `NetworkAlone.InboxMeans` | agent/network.go:148-164 | a reader gets the oldest message that is left; setting a status touches that node alone |
| `NetworkAlone.LockedOut` | agent/network.go:174-182 | in any interleaving, while a call holds a port's lock for writing no other call gets it, and while one sends none gets to write |
| `NetworkAlone.SentExactly` | agent/network.go:875-883 | in any interleaving, a channel gains exactly the message of a call whose select goes through while there is room, and loses none |
| `Checkpoints.PutMeans` | checkpoint/checkpoint.go:45-54 | put keeps ids apart and in their places, is read back, is idempotent, touches no other id and lengthens the chain exactly by a new one |
| `Checkpoints.OperationMeans` | checkpoint/checkpoint.go:43-61 | every operation in terms of what the chains hold: put replaces the checkpoint of that namespace and id and fills in a missing time, delete empties one namespace, the rest only look |
| `Checkpoints.LatestIsPutExactly` | checkpoint/checkpoint.go:52-52 | the latest checkpoint is the one just put exactly when it was new or already last; the comment promises it always |
| `Checkpoints.LatestHeadsTheList` | checkpoint/memory.go:78-90 | the latest heads every list; a list goes from new to old, and a positive limit below the length cuts it to just that many of the newest |
| `Checkpoints.Clone` | checkpoint/checkpoint.go:64-74 | a copy has the same value and shares neither payload array nor metadata map |
| `Checkpoints.Memory.Put` | checkpoint/memory.go:34-52 | the chain by value is the one with the checkpoint put, and the stored array is the memory's own |
| `Checkpoints.Memory.Get` | checkpoint/memory.go:55-64 | the first checkpoint with the id, as a copy |
| `Checkpoints.Memory.Latest` | checkpoint/memory.go:67-75 | the last of the chain, as a copy |
| `Checkpoints.Memory.List` | checkpoint/memory.go:78-90 | the chain from new to old within the limit, as copies |
| `Checkpoints.Memory.Delete` | checkpoint/memory.go:93-98 | the namespace's chain is gone, the others stay |
| `Checkpoints.PutThenWrite` | checkpoint/checkpoint.go:64-74 | writing to the payload after putting it does not reach the stored checkpoint |
| `Checkpoints.CrashIsAtomic` | checkpoint/file.go:62-87 | a crash at any point of writing leaves the old or the new chain, the new one only after all of it was in the temporary file, and every other file alone |
| `Checkpoints.File.WriteChain` | checkpoint/file.go:62-87 | a failed write leaves the disk as it was, but for the temporary file where its removal fails too |
| `Checkpoints.File.Put` | checkpoint/file.go:90-114 | read, replace or append, write back; an unreadable file or a failed write changes nothing |
| `Checkpoints.File.Get` | checkpoint/file.go:117-130 | the loop finds the first checkpoint with the id, or reports the unreadable file |
| `Checkpoints.File.Latest` | checkpoint/file.go:133-144 | the last of the chain on disk |
| `Checkpoints.File.List` | checkpoint/file.go:147-162 | the chain on disk from new to old within the limit |
| `Checkpoints.File.Delete` | checkpoint/file.go:165-172 | that namespace's file is gone and nothing else |
| `Checkpoints.BothAnswer` | checkpoint/file.go:46-172 | run side by side over every sequence of operations, the memory's code and the files' code give the same answers, those the operations mean |
| `Checkpoints.FilesAnswer` | checkpoint/file.go:46-172 | over every sequence of operations the disk answers as the chains it stands for |
| `Checkpoints.NeverTwins` | checkpoint/memory.go:34-52 | no chain ever holds an id twice |
| `Team.AppendTeamChild` | agent/team.go:311-326 | usage, calls, blocks and content stay those of the children |
| `Team.ContentMeans` | agent/team.go:311-326 | the content is that of the last child that has any |
| `Team.RunSequential` | agent/team.go:272-305 | on every exit the output accounts for the members that ran, each asked with what the one before said and none started after the context ended; it is fine exactly when all were, and otherwise a member failed or the context ended |
| `Team.RunMembers` | agent/team.go:378-402 | the members' part under a manager, with its failures; it stops early only when the context ended before a member or the last member asked had a control error |
| `Team.RunHierarchical` | agent/team.go:349-420 | on every exit the output accounts for plan, members and summary; after a fine plan the summary is left out only when the context ended, a member had a control error or none was fine; all is fine exactly when each of them was |
| `Team.RunCollaborative` | agent/team.go:426-546 | every member is reported once in member order for every order of arrival, usage is the sum and calls are the concatenation over them |
| `Team.Collect` | agent/team.go:473-490 | answers arriving in any order are put in the members' order |
| `Team.RunRound` | agent/team.go:582-619 | one round of turns, and the ways it can stop |
| `Team.RunRoundRobin` | agent/team.go:567-627 | on every exit the output accounts for the turns taken, in order; it is fine exactly when no turn failed and the rounds were used up or the last turn ended the run |
| `Team.TurnInputMeans` | agent/team.go:582-619 | a turn is asked what the last turn before it that went well said, or the question itself |
| `Team.OutputFromRuntime` | agent/react.go:385-432 | each call has one record with its name, every error there is and the output of its payload, else of its raw result, else its bare value, else its text; it is successful exactly when it could be read, says so and recorded no error; each child run found in an output, stored or not, is one child, as last reported, counted once |
| `Team.FirstSeenOnce` | agent/react.go:415-422 | run ids are listed once each, and all that stand in an output |

## Left out

- Real browsers, MCP servers, HTTP, clocks, random ids and logging: their outcomes are inputs.
- Liveness: nothing is claimed about calls that wait for ever on a lock, a channel or a context.
- Driver.Inspect results, page titles, authorisation policies and screenshots: an authorisation is an input that can refuse.
- In the browser state machine a cleanup meets its pages in any order instead of sorted order, and the pending chooser is compared by value instead of by pointer.
- BrowserSteps: the session check and the driver's answer of Observe and of Reconcile are one step, which stands for the check; Reconcile's three answers are one, and clearing the two marks are steps of their own.
- BrowserSteps: reading lease.uncertain and the pending chooser at the start of an operation are one step together with taking the operation lock's snapshot; every other section is a step of its own.
- BrowserCoordinator.TaskPages.Finish: is one cleanup at a time; cleanups that interleave are in BrowserCloseOnce.
- `$ref` resolution, patternProperties, prefixItems and other unknown keywords are carried through unchanged; unevaluatedProperties and unevaluatedItems, whose meaning depends on neighbouring keywords, are covered only as far as `World.other` can express.
- minimum and maximum given as strings, and schema values with only the approximate float64 bound, are not modelled; bounds are exact numbers.
- A converted type that is not a plain map (Go structs passed to the SDK) is not modelled.
- Which keywords the schema value type knows comes from ai-core, which is not part of this model; they are taken to be those the parser handles.
- Typed access to states and data (GetInterruptState and GetResumeContext with a type parameter) and the user-facing list of interrupts (ToInterruptContexts) add only type assertions and a filter.
- An interrupt with the empty id is indistinguishable from none in ResumeTargetID; the context's target id is an option in the model.
- Values JSON cannot represent (json.Marshal errors) in tool outputs, and type errors inside fields that are carried unchanged.
- Offloading tool results to an artifact store, and the replay loop of runChildTask around requestedChildInterrupt, whose outcomes the task executor decides.
- Trimming of non-ASCII white space in event streams, and line ends other than LF and CRLF, which the capture does not recognise either.
- When a pending request id is forgotten after a body ended: Forget is an operation of `WireSchemas` that may come at any time.
- Collecting a generation's reference from its bindings (sorted by name) and copying references.
- Difference messages and formatted reports.
- PluginPins: pins are taken by captureDependencies only; leases on whole dependency graphs (Registry.Acquire) and the stop of a plugin are not modelled.
- PluginPins.Registry.CaptureDependencies: is proved for one call at a time; the state machine in the same module interleaves its steps with releases, retirements and forced stops.
- Rendezvous channels (capacity 0) and what message handlers do in Network.
- JSON's rounding of times and of invalid UTF-8 in the file backend, and file system errors while reading.
- Checkpoints.BothAnswer: runs without faults of the file system; what a fault leaves is in Checkpoints.File.Put, WriteChain and CrashIsAtomic.
- Team: texts of prompts and of the collaborative summary, the error values, and 64-bit overflow of token counts; usage is added in unbounded integers.
- LLM agents, prompts, voting, scoring and evaluation: their results come from the model.
