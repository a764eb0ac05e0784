# Launchpad installer services listener, modelled in Dafny

`ServicesListener` waits for three OSGi services: the `OsgiInstaller`, the
`LaunchpadContentProvider` and the `StartupHandler`. One watcher per service
kind (the inner class `Listener`) holds at most one acquired
`(reference, service)` pair. It acquires on a REGISTERED event when its slot is
empty and releases on an UNREGISTERING event when its slot is full. After every
change it calls `notifyChange`, which applies two effects to the current slot
contents:

- a one-shot call of `LaunchpadConfigInstaller.install(installer, provider)`,
  latched by the `installed` flag;
- a level-triggered registration of a `LaunchpadListener` wrapper around the
  startup handler. The wrapper is published while a handler is held and
  withdrawn when the handler goes away. Its handle is `launchpadListenerReg`.

The project has five modules:

- `LaunchpadTypes` (`types.dfy`) defines the value types. `Kind` covers the
  three service interfaces. `EventType` covers the framework's event types.
  References, service objects and registrations are opaque. `Answer` is the
  registry's reply to one acquire attempt. `Call` is one call to a
  collaborator.
- `CallLog` (`call_log.dfy`) works on the ghost record of collaborator calls.
  It counts install calls, finds the outstanding registration and checks that
  publish and withdraw calls alternate.
- `ServicesModel` (`model.dfy`) is the coordinator as a pure state machine.
  `Notify`, `Retain`, `Release`, `Changed`, `Start`, `Init` and `Deactivate`
  each give the state one operation leaves behind, and the log of calls it
  made. `Inv` is the invariant that holds between operations. The lemmas prove
  that every operation preserves it.
- `Traces` (`traces.dfy`) covers sequences of events. `Dispatch` delivers an
  event to a subscribed watcher. `Run` delivers a sequence. The lemmas hold for
  every event sequence, and the scenario lemmas give exact call logs for
  concrete sequences.
- `Launchpad` (`services_listener.dfy`) has the classes `Listener` and
  `ServicesListener`. Their fields change in place, as in the source. Each
  `ServicesListener` method is proved to leave `Abs()` equal to the matching `ServicesModel`
  function applied to the old state, and to keep `Valid()`.
  `Listener.GetService` is the pure read `getService`.

The registry and the collaborators are not modelled; they become parameters and
log entries instead:

- What `getServiceReference` and `getService` return is a parameter, an
  `Answer`.
- `ungetService`, `install`, `registerService` and `unregister` are entries
  appended to the ghost log.
- A registration is identified by the startup handler it wraps.

## Model

| member | source | states |
|---|---|---|
| `ServicesModel.InstallOnce` | src/main/java/org/apache/sling/launchpad/installer/impl/ServicesListener.java:74-79 | after the step, `installed` is the old flag or "installer and provider both held"; install is logged only when that turns the flag on, and it gets the two held objects; nothing else changes |
| `ServicesModel.SyncRegistration` | src/main/java/org/apache/sling/launchpad/installer/impl/ServicesListener.java:80-94 | afterwards a registration is held iff a startup handler is held; a new registration wraps the held handler; the step makes no call, exactly one registerService of the new wrapper (when a handler is held and nothing is registered), or exactly one unregister of the held handle (when no handler is held); an existing registration with a handler present, or no registration with no handler, is left as is; only the handle and the log change |
| `ServicesModel.Notify` | src/main/java/org/apache/sling/launchpad/installer/impl/ServicesListener.java:69-95 | notifyChange leaves every slot unchanged, sets the flag to old flag or both-present, and holds a registration iff the startup slot is full |
| `ServicesModel.Retain` | src/main/java/org/apache/sling/launchpad/installer/impl/ServicesListener.java:135-147 | retainService touches only its own slot and keeps its subscription; on a full slot it changes nothing at all; it keeps `reference` present iff `service` present; the slot becomes full exactly when it was empty and the lookup and the fetch both succeed |
| `ServicesModel.RetainOutcome` | src/main/java/org/apache/sling/launchpad/installer/impl/ServicesListener.java:136-145 | on an empty slot: when the registry offers a reference and its object, the slot then holds exactly that pair, notifyChange has run (flag is old flag or both-present, registration iff handler held) and the log extends the two registry calls; otherwise the reference is rolled back, `installed` and the registration are untouched, and the log gains only the lookup and, if a reference was found, the fetch |
| `ServicesModel.Release` | src/main/java/org/apache/sling/launchpad/installer/impl/ServicesListener.java:149-156 | releaseService touches only its own slot; on an empty slot it changes nothing; on a full slot it leaves reference and service both absent, notifyChange has run (flag is old flag or both-present, registration iff handler held), and the log extends the unget call |
| `ServicesModel.Changed` | src/main/java/org/apache/sling/launchpad/installer/impl/ServicesListener.java:161-167 | REGISTERED on an empty slot acquires exactly what the registry offers, and leaves the flag and the registration alone when it offers nothing; REGISTERED on a held service is ignored (first registered wins), UNREGISTERING on an empty slot is ignored, other event types are ignored, and any UNREGISTERING on a full slot empties it whichever service is going away; other slots never change |
| `ServicesModel.Start` | src/main/java/org/apache/sling/launchpad/installer/impl/ServicesListener.java:117-126 | start first acquires: an empty watcher ends holding exactly what the registry offers (nothing if the lookup or the fetch fails, with the flag and the registration then untouched; otherwise notifyChange has run), a full watcher keeps its pair; the watcher ends subscribed and no other watcher changes |
| `ServicesModel.Init` | src/main/java/org/apache/sling/launchpad/installer/impl/ServicesListener.java:59-67 | after construction each watcher is subscribed and holds exactly the pair its registry answer offered, or nothing |
| `ServicesModel.Deactivate` | src/main/java/org/apache/sling/launchpad/installer/impl/ServicesListener.java:100-104 | deactivate unsubscribes all three watchers and changes no slot contents, nor `installed`, nor the registration, nor the log |
| `ServicesModel.NotifyEstablishesInv` | src/main/java/org/apache/sling/launchpad/installer/impl/ServicesListener.java:69-95 | from sound slots, a sound call log and a registration, if any, that wraps the held handler, notifyChange reaches a state where install has run iff the flag is set, install has run if both are held, and the registration is exactly the wrapper of the held handler |
| `ServicesModel.NotifySettled` | src/main/java/org/apache/sling/launchpad/installer/impl/ServicesListener.java:69-95 | a notifyChange in a settled state changes nothing and calls nothing |
| `ServicesModel.NotifyIdempotent` | src/main/java/org/apache/sling/launchpad/installer/impl/ServicesListener.java:69-95 | calling notifyChange twice has the same effect as calling it once |
| `ServicesModel.RetainPreservesInv` | src/main/java/org/apache/sling/launchpad/installer/impl/ServicesListener.java:135-147 | retainService, including its rollback when the fetch yields nothing, keeps the invariant |
| `ServicesModel.ReleasePreservesInv` | src/main/java/org/apache/sling/launchpad/installer/impl/ServicesListener.java:149-156 | releaseService keeps the invariant |
| `ServicesModel.ChangedPreservesInv` | src/main/java/org/apache/sling/launchpad/installer/impl/ServicesListener.java:161-167 | serviceChanged keeps the invariant for every event type |
| `ServicesModel.ChangedInstalled` | src/main/java/org/apache/sling/launchpad/installer/impl/ServicesListener.java:74-78 | after any event the flag is the old flag or "installer and provider both held", so it only goes up, and it goes up exactly when both become held |
| `ServicesModel.StartPreservesInv` | src/main/java/org/apache/sling/launchpad/installer/impl/ServicesListener.java:117-126 | start keeps the invariant |
| `ServicesModel.DeactivatePreservesInv` | src/main/java/org/apache/sling/launchpad/installer/impl/ServicesListener.java:100-104 | deactivate keeps the invariant |
| `ServicesModel.InitInv` | src/main/java/org/apache/sling/launchpad/installer/impl/ServicesListener.java:59-67 | the constructor establishes the invariant and subscribes all three watchers; install has run during construction, exactly once, iff the registry offered both the installer and the provider; the registration wraps the offered startup handler, or is absent |
| `CallLog.TogglesAlternate` | src/main/java/org/apache/sling/launchpad/installer/impl/ServicesListener.java:82-92 | in a log where registration can only happen when none is held and unregistration only when one is held, publish and withdraw calls strictly alternate starting with a publish; each withdraw names the registration just published; a registration is held iff the number of such calls is odd |
| `Traces.DispatchPreservesInv` | src/main/java/org/apache/sling/launchpad/installer/impl/ServicesListener.java:161-167 | delivering one event keeps the invariant |
| `Traces.RunPreservesInv` | src/main/java/org/apache/sling/launchpad/installer/impl/ServicesListener.java:69-95 | every state reachable by events satisfies the invariant |
| `Traces.InstalledIsPermanent` | src/main/java/org/apache/sling/launchpad/installer/impl/ServicesListener.java:74-78 | once `installed` is true it stays true whatever events follow |
| `Traces.InstallAtMostOnce` | src/main/java/org/apache/sling/launchpad/installer/impl/ServicesListener.java:74-78 | over any event sequence install is called at most once, and it has been called iff `installed` is set |
| `Traces.InstallFiresIffBothEverPresent` | src/main/java/org/apache/sling/launchpad/installer/impl/ServicesListener.java:74-78 | starting before install, install has been called exactly once iff some prefix of the events left the installer and the provider both held, and never more than once |
| `Traces.RegistrationFollowsHandler` | src/main/java/org/apache/sling/launchpad/installer/impl/ServicesListener.java:80-94 | after any events, `launchpadListenerReg` is present iff the startup slot is full; it wraps the held handler and is the outstanding registration in the log |
| `Traces.RegistrationIsOrderIndependent` | src/main/java/org/apache/sling/launchpad/installer/impl/ServicesListener.java:80-94 | two histories that end holding the same startup handler hold the same registration, whatever the order of events |
| `Traces.PublishWithdrawAlternate` | src/main/java/org/apache/sling/launchpad/installer/impl/ServicesListener.java:82-92 | over any events, registerService and unregister calls strictly alternate, starting with a register, each unregister withdraws the registration just made, and a registration is held iff their number is odd |
| `Traces.DeactivatedIsInert` | src/main/java/org/apache/sling/launchpad/installer/impl/ServicesListener.java:128-130 | after deactivate no delivered event changes anything |
| `Traces.IdleIsQuiet` | src/main/java/org/apache/sling/launchpad/installer/impl/ServicesListener.java:59-67 | constructing while nothing is available yields `Quiet`, the state the scenarios start from: the three kinds only looked up, all watchers empty and subscribed, no install, no registration, and the invariant holds |
| `Traces.ScenarioHandlerInstallerProvider` | src/main/java/org/apache/sling/launchpad/installer/impl/ServicesListener.java:69-95 | handler, installer, provider arriving: registration after the first event, no install after the second, and the exact call log, with one install at the end |
| `Traces.ScenarioProviderFlaps` | src/main/java/org/apache/sling/launchpad/installer/impl/ServicesListener.java:74-78 | installer, provider, provider leaves, provider returns: install runs on the event that first leaves both held (the second) and is not repeated when the provider returns |
| `Traces.ScenarioDuplicateLeave` | src/main/java/org/apache/sling/launchpad/installer/impl/ServicesListener.java:161-166 | handler arrives and leaves twice: exactly one register and one unregister, and the duplicate UNREGISTERING changes nothing |
| `Traces.ScenarioHandlerReplaced` | src/main/java/org/apache/sling/launchpad/installer/impl/ServicesListener.java:80-94 | a handler that leaves and is replaced causes an unregister followed by a new register of the new handler; nothing is coalesced |
| `Traces.ScenarioFetchFails` | src/main/java/org/apache/sling/launchpad/installer/impl/ServicesListener.java:136-145 | a reference whose fetch yields nothing leaves the state as it was apart from the two registry calls, and the next REGISTERED acquires |
| `Launchpad.Listener.constructor` | src/main/java/org/apache/sling/launchpad/installer/impl/ServicesListener.java:113-115 | a new watcher is empty and unsubscribed |
| `Launchpad.Listener.GetService` | src/main/java/org/apache/sling/launchpad/installer/impl/ServicesListener.java:132-134 | returns the object the watcher holds, present iff the watcher's slot is full |
| `Launchpad.Listener.Deactivate` | src/main/java/org/apache/sling/launchpad/installer/impl/ServicesListener.java:128-130 | a watcher's deactivate only unsubscribes it; its reference and service stay |
| `Launchpad.ServicesListener.constructor` | src/main/java/org/apache/sling/launchpad/installer/impl/ServicesListener.java:59-67 | builds three distinct fresh watchers, starts them in order installer, provider, startup handler, and ends in `ServicesModel.Init` with the invariant |
| `Launchpad.ServicesListener.NotifyChange` | src/main/java/org/apache/sling/launchpad/installer/impl/ServicesListener.java:69-95 | the new state is `ServicesModel.Notify` of the old one: the flag is the old flag or both-present, a registration is held iff a handler is held, and a settled state is left unchanged |
| `Launchpad.ServicesListener.Start` | src/main/java/org/apache/sling/launchpad/installer/impl/ServicesListener.java:117-126 | the new state is `ServicesModel.Start` of the old one, and the invariant holds |
| `Launchpad.ServicesListener.RetainService` | src/main/java/org/apache/sling/launchpad/installer/impl/ServicesListener.java:135-147 | the new state is `ServicesModel.Retain` of the old one, and the invariant holds |
| `Launchpad.ServicesListener.ReleaseService` | src/main/java/org/apache/sling/launchpad/installer/impl/ServicesListener.java:149-156 | the new state is `ServicesModel.Release` of the old one, and the invariant holds |
| `Launchpad.ServicesListener.ServiceChanged` | src/main/java/org/apache/sling/launchpad/installer/impl/ServicesListener.java:161-167 | the new state is `ServicesModel.Changed` of the old one, and the invariant holds |
| `Launchpad.ServicesListener.Deactivate` | src/main/java/org/apache/sling/launchpad/installer/impl/ServicesListener.java:100-104 | the new state is `ServicesModel.Deactivate` of the old one, and the invariant holds |

## Left out

- Subscription through `addServiceListener` and `removeServiceListener` is a boolean per watcher. The LDAP filter text is not modelled, and neither is the `InvalidSyntaxException` path in `start`, because the filter is built from a fixed interface name.
- Event delivery is modelled by `Traces.Dispatch`, not by source code: the framework hands events only to subscribed listeners. `removeServiceListener` guarantees this, not `ServicesListener.java`.
- `synchronized` and `volatile`, and thread interleavings, are not modelled. Events are processed one at a time, each to completion.
- The unsynchronized read of `service` in `serviceChanged` is not modelled, and neither is the nested locking when `retainService` calls `notifyChange`. Both are concurrency concerns.
- Every collaborator call is taken to return normally; exceptions are not modelled. In the source, an exception from `install` (line 77) leaves `installed` true, because line 76 sets it first, and skips the registration step of that notification. `unregister` (line 91) throws on a registration that is already gone, and `launchpadListenerReg` then stays set. `registerService` (line 87), `getService` (line 139) and `ungetService` (line 152) throw when the bundle context is no longer valid.
- The body of `LaunchpadConfigInstaller.install` and the `LaunchpadListener` wrapper are not part of this model. Each call to them is a log entry (`InstallCall`, `RegisterCall`).
- The service properties attached to the registration (`SERVICE_DESCRIPTION`, `SERVICE_VENDOR`) are not modelled. They do not affect any decision.
- Java class casts and the service names used for lookup become the `Kind` datatype.
- The registry's answers are parameters, not a model of the registry. `getServiceReference` and `getService` become an `Answer`. Whether a fetch yields nothing is therefore chosen by the caller.
- The handle of a registration is identified by the handler it wraps. The framework's `ServiceRegistration` identity is not modelled.
- A `ServiceEvent`'s own reference is not carried by an event, because `serviceChanged` never looks at it.
- `Launchpad.ServicesListener.RetainService`, `ReleaseService`, `ServiceChanged` and `Start` are methods of the inner class `Listener` in the source. In the model they are coordinator methods that take the watcher's kind. The watcher object keeps only its own fields. Aliasing between a watcher and its enclosing object is therefore not modelled.
