# Verification of the DOBISS SX Evolution driver

A Dafny model of the Home Assistant driver for the DOBISS CAN bus, with proofs of what its stateful
parts are for. `dafny verify dfyconfig.toml` checks everything. Source paths below are under
`custom_components/dobiss_sx_evolution/` and are cited with that prefix.

## What is modelled

| file | part of the driver |
|---|---|
| `Runtime.dfy` | bus handle, notifier, reader loop, reconnects with back-off, repair issue, shutdown |
| `Controller.dfy`, `Cache.dfy` | ingest, state cache, listeners, commands, discovery, read loop, refresh |
| `Timing.dfy`, `RefreshLock.dfy` | when a refresh returns; any number of concurrent refreshes |
| `Light.dfy`, `Debounce.dfy` | optimistic brightness, commands in flight, debounced snapshot |
| `Dict.dfy`, `ModuleFlow.dfy`, `ConfigEntry.dfy` | output allocator, module and mood flows, imports |
| `Outputs.dfy` | from stored outputs to controller lists; non-interference of commands |
| `Registry.dfy`, `Reload.dfy` | entity pruning; full and platform-only reload |
| `Protocol.dfy` | BCD, state and mood frames, brightness scales (module `Brightness`) |

The source's objects are classes with the same fields; loops are loops proved against functions, and
the theorems are about those functions and about whole runs.

* **Awaits.** `Runtime` takes the outcome of every await from an arbitrary sequence: done, raised,
  timed out, cancelled, or cancelled when the future had just completed. What is proved holds for
  every such sequence, hence with a cancellation at any await. A ghost log records what was done to
  the outside world, `Legal` says when an entry is allowed, and every method can only append legal
  entries; `Real` says that the outcomes of the awaits bear each of them out. Every method also says that it ends at the first cancelled await and swallows none
  (`Propagates`). "Held" and "live" are read off the log alone, so the fields cannot hide a leak. A job
  counts as handed over when it is given to the executor, whether or not its await is then cancelled.
* **Two sides of one object.** `DobissController` is split: `Controller.DobissController` has its
  cache, listeners and timed loops, `Runtime.BusRuntime` its bus, notifier and reader.
* **Time** is in milliseconds. When a frame and a timer fall on the same instant, a Boolean decides
  which is first and every result holds for both answers.
* **Rounding** is on exact rationals, ties to even, as Python's `round` is documented.
* **Home Assistant** is taken to notify listeners on every `async_set_updated_data`
  (`always_update=False` only concerns polled refreshes), to refuse a subentry whose unique id is
  taken (which aborts an import), and to find or create registry entries by unique id. It runs one
  setup or reload of an entry at a time, drops the listener when an unload has succeeded, and calls it
  at once when the entry is updated. After a refused unload it refuses further reloads; the model
  also allows them to go through.
* **Stored keys.** `_expected_unique_ids` uses an output's stored key where the platforms use its
  number. These agree because no form or import stores a key with a leading zero
  (`ModuleFlow.EditKeepsKeys`, `Registry.ExpectedIsCreated`, `Dict.LeadingZero`).

## What does not hold

Each of these is proved, with the exact condition under which the code is right.

* A cancelled `turn_on` skips its exception handler and leaves the light reporting a brightness the
  cache contradicts, with nothing pending, until it is notified or switched again
  (`Light.CancelledTurnOnBreaksAgreement`; exactly when: `Light.ContradictedIff`).
* An update of the entry between the coordinator's constructor and the registration of the listener
  is missed (`Reload.UpdateDuringSetupIsMissed`; exactly when: `Reload.SettledFreshIff`).
* The listener moves its snapshots before the reload, so updates during an unload, or after one that
  was refused, can take the fast path on an old connection (`Reload.SnapshotsMoveTooEarly`; exactly
  when: `Reload.FastPathFreshIff`).
* A setup cancelled after its bus was opened leaves bus and notifier open, because the coordinator only
  catches `Exception`; a cancelled shutdown leaves the bus open exactly when it was waiting for the
  notifier (`Runtime.BusRuntime.AsyncSetup`, `AsyncShutdown`).
* A controller that is rebuilt while its repair issue is up, that is after six failures in a row, never
  clears it unless it raises it again itself (`Runtime.InheritedIssueStays`).
* An edit form completed after another flow removed its output can claim an output twice
  (`ModuleFlow.StaleEditBreaks`; exactly when: `ModuleFlow.EditWellFormedIff`).
* On module S a write of 1 is byte for byte a mood frame (`Protocol.MoodCollision`).

## Model

The main results come first, then what they rest on, module by module.

| member | source | states |
|---|---|---|
| `Runtime.BusRuntime.Lifecycle` | custom_components/dobiss_sx_evolution/controller.py:239-327 | Over every run of setup, read loop and shutdown, whatever each await does: if setup was not cancelled and shutdown returned, every bus that was opened has been released exactly once and every notifier that was started has been stopped exactly once; after a cancelled setup a bus is still held exactly when its future had completed; the reader runs up to the first cancelled await and shutdown takes two awaits at most |
| `Runtime.BusRuntime.ReadLoop` | custom_components/dobiss_sx_evolution/controller.py:554-606 | The loop ends at the first cancelled await and nowhere else, never stalls (while it reads every await but the last brings a message; otherwise it is one await after a failure or at most three into an attempt), and leaves a log in which read failures, sleeps and attempts follow each other in rounds, each sleep is as long as the failures in a row call for, an attempt succeeds right after a delivered dump on a new bus with a live notifier and fails right after a step of its own failed, and the issue comes up exactly at the sixth failure in a row after 63 s of back-off and goes down at the next success |
| `Runtime.BusRuntime.AsyncShutdown` | custom_components/dobiss_sx_evolution/controller.py:311-327 | A shutdown that returns leaves nothing held and nothing live; one that is cancelled leaves the bus open exactly when the cancellation hits the wait for the notifier to stop |
| `Runtime.BusOnce` | custom_components/dobiss_sx_evolution/controller.py:288-327 | In every legal log a bus is opened at most once and has been released exactly once or is still held |
| `Runtime.NotifierOnce` | custom_components/dobiss_sx_evolution/controller.py:256-286 | In every legal log a notifier is started at most once and has been stopped exactly once or is live on the bus it was started for |
| `Runtime.LedgerSound` | custom_components/dobiss_sx_evolution/controller.py:256-327 | In every legal log the bus of a live notifier is held and no bus has two live notifiers |
| `Runtime.OncePerOutage` | custom_components/dobiss_sx_evolution/controller.py:520-552 | Since the last reconnect the issue was raised at most once, never before the sixth failure, and re-authentication started at most as often |
| `Runtime.BackoffClosedForm` | custom_components/dobiss_sx_evolution/controller.py:46-47 | After k failures in a row the back-off is min(2^k, 60) s, at its ceiling exactly from the sixth on |
| `Runtime.InheritedIssueStays` | custom_components/dobiss_sx_evolution/controller.py:520-552 | When a controller is rebuilt, the issue registry ends up disagreeing with the new controller if and only if the old one left the issue up and the new one never raised it itself: no reconnect clears it |
| `Light.ContradictedIff` | custom_components/dobiss_sx_evolution/light.py:91-170 | For every interleaving of turn_on, turn_off and shutter commands that end in any order and any way, frames and flushes: with nothing in flight and no flush due, snapshot and cache are equal, and a light's optimistic pair contradicts them if and only if its last turn_on was cancelled, it has not been notified, switched or failed since, and the brightness that turn_on asked for does not quantise to the cached value |
| `Light.QuiescentAgreement` | custom_components/dobiss_sx_evolution/light.py:113-129 | At rest a dimmer reports the direct conversion of the cached value or a brightness that quantises to it, except exactly when such a turn_on asked for a brightness that is neither; and what it then reports is at most 14 away from the direct conversion (for 14..255) |
| `Light.SliderStays` | custom_components/dobiss_sx_evolution/light.py:113-129 | From the moment a dimmer is turned on with a brightness it reports exactly that brightness, from any state and through every continuation of other commands, frames, cancellations and notifications in which it is not switched again, no turn_on of it fails and every notification finds the cache where the turn_on puts it |
| `Light.ChainHolds` | custom_components/dobiss_sx_evolution/light.py:91-170 | Over the same runs at every moment: the optimistic pair is set or cleared together, its CAN value is that of its brightness, a mismatch with the cache means a flush is due, the light's own turn_on is in flight, or the exception above applies; and the snapshot is the cache unless a flush is due |
| `Light.CancelledTurnOnBreaksAgreement` | custom_components/dobiss_sx_evolution/light.py:153-163 | The exception is real: a cancelled turn_on skips the handler and the light reports 255 over a cache that says off, with nothing pending; the next notification puts it right |
| `Cache.CacheIsLastWrite` | custom_components/dobiss_sx_evolution/controller.py:650-679 | After any run of frames and local writes the skip-if-unchanged cache holds, for every key, the last value carried for it, found by a search from the end that knows nothing of the filter |
| `Cache.LateListenerAgrees` | custom_components/dobiss_sx_evolution/controller.py:226-237 | A listener that joins after any prefix, copies the cache and replays what it is told holds the cache at every later moment |
| `Cache.HandoffIrrelevant` | custom_components/dobiss_sx_evolution/controller.py:239-254 | Final cache and notifications do not depend on where a stream is split between discovery and read loop |
| `Cache.EchoIsStutter` | custom_components/dobiss_sx_evolution/controller.py:329-366 | For every command on an output 1..12 of a configured module the device's broadcast of our own write asks for exactly a value just cached, so it changes nothing and tells nobody, unless a shutter is opened or closed whose two directions are the same output |
| `Cache.CommandEffects` | custom_components/dobiss_sx_evolution/controller.py:329-366 | For each of the five commands, written out: which output and value go on the bus, what the cache holds afterwards, and that every write is notified; a dimmer is sent a whole number of steps next to the brightness asked for and cached at ten per step |
| `Controller.DobissController.DiscoverThenRead` | custom_components/dobiss_sx_evolution/controller.py:239-254 | On a real pair of loops: one dump, discovery up to its end condition, then reading from the next message up to the first gap of 300 s; no message is lost or repeated at the handoff, and any other handoff point gives the same cache |
| `Controller.DobissController.CollectInitialState` | custom_components/dobiss_sx_evolution/controller.py:463-518 | One dump, then the drain |
| `Timing.RefreshAtFirstQuiet` | custom_components/dobiss_sx_evolution/controller.py:402-437 | For every trace: the refresh returns at its deadline or at the first instant that ends a full idle window of silence after an arrival, whichever is first |
| `Timing.FirstQuietIsUnique` | custom_components/dobiss_sx_evolution/controller.py:402-437 | That description, which does not mention the loop, fixes the return time |
| `Controller.DobissController.RefreshAndSettle` | custom_components/dobiss_sx_evolution/controller.py:402-437 | One dump if the bus is open and delivers; the event slot is empty on every exit, every frame before the return has been read, and the return time is the specified function of the accepted arrival times alone |
| `Controller.RefreshIgnoresStates` | custom_components/dobiss_sx_evolution/controller.py:671-674 | Two refreshes with accepted frames at the same times return at the same time whatever states the frames carry and the caches hold |
| `RefreshLock.ArrivalBelongsToHolder` | custom_components/dobiss_sx_evolution/controller.py:397-437 | Over every run of any number of callers, cancelled anywhere: the event in the slot is the lock holder's, who is the one caller in the body; with nobody inside the slot is empty |
| `RefreshLock.FrameWakesTheWaiter` | custom_components/dobiss_sx_evolution/controller.py:671-674 | No lost wake-up: a frame sets the event of exactly the caller inside the body, and leaving the body empties the slot however it is left |
| `Debounce.DobissCoordinator.RunTrace` | custom_components/dobiss_sx_evolution/coordinator.py:182-193 | For every timed trace the loop of updates and timer makes exactly the flushes that the maximal bursts call for, each 50 ms after the end of its burst and with the cache of that moment |
| `Debounce.OneFlushPerBurst` | custom_components/dobiss_sx_evolution/coordinator.py:182-193 | The number of flushes is the number of maximal bursts |
| `Debounce.ArmedOrCurrent` | custom_components/dobiss_sx_evolution/coordinator.py:182-193 | At every instant after an update either fewer than 50 ms have passed, so the timer is armed, or the coordinator's data is the cache |
| `ModuleFlow.RunsStayWellFormed` | custom_components/dobiss_sx_evolution/config_flow.py:711-1042 | After any sequence of add, remove, retype and change-down steps whose edit keys are still configured: every key is the decimal of an output in 1..12, a shutter's two outputs differ, and no output is claimed twice |
| `ModuleFlow.EditWellFormedIff` | custom_components/dobiss_sx_evolution/config_flow.py:711-1042 | For every completed form: a well-formed module stays well formed if and only if the form is refused, adds or removes, its key is still there, or its number is unclaimed |
| `ModuleFlow.EditStores` | custom_components/dobiss_sx_evolution/config_flow.py:711-1028 | An accepted form stores the type it names under the key it names, with the name given or the name that was there, and leaves every other key alone |
| `ModuleFlow.RedownAcceptedIffWellFormed` | custom_components/dobiss_sx_evolution/config_flow.py:1003-1028 | The change-down form accepts a number if and only if the updated module is well formed |
| `ModuleFlow.TwelveOutputs` | custom_components/dobiss_sx_evolution/config_flow.py:104-115 | lights + switches + 2 * shutters + free outputs = 12 in every well-formed module |
| `ConfigEntry.OkMeansDistinct` | custom_components/dobiss_sx_evolution/config_flow.py:647-674 | Distinct subentry unique ids make module letters and mood numbers pairwise distinct and in range |
| `ConfigEntry.Entry.ImportModules` | custom_components/dobiss_sx_evolution/config_flow.py:1158-1204 | Keeps the invariant for every download, duplicate letters and modules added meanwhile included: all new modules in order, or everything before the first one whose unique id is taken |
| `Outputs.ListsSayWhatIsStored` | custom_components/dobiss_sx_evolution/coordinator.py:57-78 | In every entry the flows can store, stale edits included: an output is in the list its stored type and its module's dimmable flag call for and in no other; a shutter stored under n with down output m goes up on n and down on m |
| `Outputs.OwnedExactlyOnce` | custom_components/dobiss_sx_evolution/coordinator.py:48-80 | In every entry reached without an unsafe stale edit, a claimed output is owned by exactly one entry of exactly one list, any other by none |
| `Outputs.CommandsDoNotInterfere` | custom_components/dobiss_sx_evolution/controller.py:329-366 | A command of one entity, sent or failed, leaves the cached state of every other alone and is sent to none of its outputs |
| `Outputs.FramesDoNotCollide` | custom_components/dobiss_sx_evolution/protocol.py:86-102 | On the wire too: such commands are always encodable, two entities never send the same frame, and off module S none is taken for a mood |
| `Outputs.ShuttersNeverBothWays` | custom_components/dobiss_sx_evolution/controller.py:350-366 | Over every run of commands, sent or failed, from a cache with no shutter driven both ways, none ever is |
| `Registry.ReconciledExactly` | custom_components/dobiss_sx_evolution/__init__.py:207-235 | Whatever the registry held: after prune and platform setup the entries of current module subentries are exactly those the platforms create |
| `Registry.AllCreatedExactly` | custom_components/dobiss_sx_evolution/light.py:34-55 | Over all modules an entity is created exactly for a stored output, of the platform of its type, and belongs to that module's subentry |
| `Registry.EntityUidInjective` | custom_components/dobiss_sx_evolution/entity.py:33-33 | Equal unique ids mean the same subentry, platform and output, for any subentry ids |
| `Reload.FreshIff` | custom_components/dobiss_sx_evolution/__init__.py:88-129 | After any run of edits, setups, failed setups, queued reloads, unloads and refused unloads, at any moment: the live coordinator is what a fresh build from the present entry would be if and only if the entry its constructor read has the same link and the subentries its lists were last parsed from give the same lists |
| `Reload.SettledFreshIff` | custom_components/dobiss_sx_evolution/__init__.py:88-129 | With nothing on the way and no refused unload, that holds if and only if the entries at the constructor and at the registration of the listener have the same link, and the same lists or an update has come by the fast path since: what matters is only an update that setup missed |
| `Reload.FastPathFreshIff` | custom_components/dobiss_sx_evolution/__init__.py:259-306 | An update that takes the fast path, whatever came before (a refused unload, a reload that is unloading), gives a fresh coordinator if and only if its link is that of the entry the constructor read |
| `Reload.FastPathIff` | custom_components/dobiss_sx_evolution/__init__.py:259-286 | After any run, while a listener is registered: an update takes the fast path if and only if it leaves the seven connection fields and the (letter, dimmable) pairs of the module subentries as they are |
| `Reload.FastPathRefinesFreshBuild` | custom_components/dobiss_sx_evolution/__init__.py:255-306 | Over every run in which nothing is edited between constructor and registration and no unload is refused: whenever things are settled the coordinator is a fresh build from the latest entry, and an update takes the fast path if and only if it has the seven connection fields and the (letter, dimmable) pairs of the entry it was built from |
| `Protocol.ParseInvertsBuild` | custom_components/dobiss_sx_evolution/protocol.py:63-102 | A write is encodable exactly for an ASCII letter, output 1..100 and byte state, raises exactly for another output, and parsing what was built gives the arguments back |
| `Protocol.RebuildThenParse` | custom_components/dobiss_sx_evolution/protocol.py:63-102 | For any payload that parses, rebuilding works exactly up to output 100 and keeps the update even for non-canonical BCD; the bytes survive if and only if the BCD was canonical |
| `Protocol.MoodCollision` | custom_components/dobiss_sx_evolution/protocol.py:187-198 | A state write is a mood frame if and only if the letter is S, the value 1 and the BCD output byte the mood number |
| `Brightness.RoundTripError` | custom_components/dobiss_sx_evolution/protocol.py:227-244 | The full trip moves h by at most 14 if and only if h is in -14..0 or 14..269 |
| `Runtime.BusRuntime.ReadThenSleep` | custom_components/dobiss_sx_evolution/controller.py:564-576 | Reads up to the first await that brings no message; unless cancelled then or while stopping the notifier or sleeping, one read failure costs exactly one sleep of the current back-off, and streak and reconnect count stay |
| `Runtime.BusRuntime.TryReconnect` | custom_components/dobiss_sx_evolution/controller.py:577-606 | Unless cancelled, an attempt that succeeds ends the streak and adds one to the reconnect count, any other extends the streak by one and leaves the count; which of the two it is follows from its own awaits and its notifier |
| `Runtime.BusRuntime.NoteReconnect` | custom_components/dobiss_sx_evolution/controller.py:588-606 | A success resets streak, back-off and issue and counts once; a failure doubles the back-off up to the ceiling and raises the issue exactly when the streak reaches six |
| `Runtime.BusRuntime.NoteFailure` | custom_components/dobiss_sx_evolution/controller.py:588-600 | The issue is up after a failure exactly when at least six failures have happened in a row |
| `Runtime.BusRuntime.Reconnect` | custom_components/dobiss_sx_evolution/controller.py:577-585 | Success means, in this order: old notifier stopped, old bus released, new bus opened, notifier started on it, dump sent to it; an attempt that is not cancelled fails only because the bus could not be opened, the notifier not constructed or the dump not sent |
| `Runtime.BusRuntime.OpenBus` | custom_components/dobiss_sx_evolution/controller.py:288-309 | The notifier is stopped before the old bus is released, and that before a new one is opened; a failure leaves none; a cancellation leaves none or the old one, never a new one |
| `Runtime.BusRuntime.CloseStale` | custom_components/dobiss_sx_evolution/controller.py:292-299 | What was there is stopped and then released, errors of either are swallowed, cancellations are not |
| `Runtime.BusRuntime.MakeBus` | custom_components/dobiss_sx_evolution/controller.py:301-309 | A bus is held afterwards exactly when its future completed and the await was not cancelled; a bus that was already open when the cancellation arrived is released at once |
| `Runtime.BusRuntime.TeardownNotifier` | custom_components/dobiss_sx_evolution/controller.py:256-265 | Fields are cleared and stop is handed over before the await, so even a cancelled teardown hands the notifier over exactly once |
| `Runtime.BusRuntime.SetupNotifier` | custom_components/dobiss_sx_evolution/controller.py:267-286 | A started notifier always reads the current bus and never joins another live one; when constructing it raises there is none |
| `Runtime.BusRuntime.SendDump` | custom_components/dobiss_sx_evolution/controller.py:445-451 | The dump goes to the current bus, once, and only with a live notifier on it |
| `Runtime.BusRuntime.CollectInitialState` | custom_components/dobiss_sx_evolution/controller.py:479-504 | Exactly one dump, and only when bus and reader are both there; then messages up to a timeout or the deadline, and only an error of the reader raises |
| `Runtime.BusRuntime.AsyncSetup` | custom_components/dobiss_sx_evolution/controller.py:239-254 | However setup ends, a bus is held exactly when its future completed normally, and a setup cancelled after that leaves the notifier live; a setup that returns has opened it, started a notifier on it and sent the dump, in this order |
| `Runtime.BusRuntime.ReadFrames` | custom_components/dobiss_sx_evolution/controller.py:608-648 | Never returns; without a bus it fails at once, otherwise it constructs a missing notifier and reads up to the first await that brings no message |
| `Runtime.BusRuntime.RaiseRepairIssue` | custom_components/dobiss_sx_evolution/controller.py:520-544 | Idempotent while the issue is up; otherwise issue first, then re-authentication if the entry is still registered |
| `Runtime.BusRuntime.ClearRepairIssue` | custom_components/dobiss_sx_evolution/controller.py:546-552 | The issue is deleted exactly if it was up |
| `Runtime.FirstSixSleeps` | custom_components/dobiss_sx_evolution/controller.py:46-47 | The first six sleeps of an outage add up to 63 s |
| `Runtime.BusRuntime.StartAndDump` | custom_components/dobiss_sx_evolution/controller.py:582-585 | On an open bus: succeeds exactly if the notifier is constructed and the dump is sent; a failure leaves the bus open |
| `Runtime.IssueOfLife` | custom_components/dobiss_sx_evolution/controller.py:520-552 | In every legal log an issue is cleared only after it was raised in the same life, and what the registry holds after the life follows |
| `Runtime.RoundsAreComplete` | custom_components/dobiss_sx_evolution/controller.py:564-606 | In every legal log each read failure is followed by one sleep and each sleep by one attempt, but for the one the reader is at |
| `Runtime.BusRuntime.ReadUntilError` | custom_components/dobiss_sx_evolution/controller.py:631-648 | Reads exactly up to the first await that brings no message; a cancellation there touches nothing, an error stops the notifier, whether or not stopping it is then cancelled |
| `Runtime.BusRuntime.DrainMessages` | custom_components/dobiss_sx_evolution/controller.py:489-504 | Messages up to a timeout or the deadline; only an error of the reader raises |
| `Light.AdvanceKeepsInv` | custom_components/dobiss_sx_evolution/light.py:131-170 | Each single step keeps that invariant from any state that satisfies it, reachable or not |
| `Light.InFlightWillWrite` | custom_components/dobiss_sx_evolution/controller.py:329-342 | The command that explains a mismatch does repair it: completing it makes the cache hold the expected value |
| `Light.NoCancelNoStray` | custom_components/dobiss_sx_evolution/light.py:153-163 | Without cancelled sends the exception never applies: failures alone cannot break the agreement |
| `Light.DobissLight.BeginTurnOn` | custom_components/dobiss_sx_evolution/light.py:131-152 | The view before the await: only a dimmer takes an optimistic pair |
| `Light.DobissLight.HandleCoordinatorUpdate` | custom_components/dobiss_sx_evolution/light.py:91-106 | Both fields are cleared exactly if the cache does not hold the expected value, otherwise both stay |
| `Light.ChainShows` | custom_components/dobiss_sx_evolution/light.py:131-168 | Over the same runs: a light whose last turn_on is in flight or was cancelled shows what it asked for, unless it has been blanked |
| `Light.OwnFlushKeepsSlider` | custom_components/dobiss_sx_evolution/light.py:91-106 | In particular the brightness asked for stays through the flush after the command's own success |
| `Light.NotifyBlanksIff` | custom_components/dobiss_sx_evolution/light.py:101-105 | A notification clears a pair exactly if the cache does not hold the expected value, and otherwise leaves it alone |
| `Light.OffAndFailureFallBack` | custom_components/dobiss_sx_evolution/light.py:157-168 | A turn_off begun, or a turn_on of the light that fails, brings its reported brightness back to the cache at once |
| `Light.PlainLightHasNoBrightness` | custom_components/dobiss_sx_evolution/light.py:123-124 | A light that cannot be dimmed reports no brightness |
| `Light.OneHundredWouldSnap` | custom_components/dobiss_sx_evolution/light.py:116-121 | Without the optimistic pair a request for 100 would be reported as 113 |
| `Cache.ReplayIsCache` | custom_components/dobiss_sx_evolution/controller.py:453-461 | Replaying a run's notifications over its starting cache gives its final cache |
| `Cache.FramesNotifyChangesOnly` | custom_components/dobiss_sx_evolution/controller.py:675-679 | A frame notifies exactly when it changes the cache |
| `Cache.RunAppend` | custom_components/dobiss_sx_evolution/controller.py:650-679 | A run over two stretches is the run over the second from where the first ended, with both lists of notifications |
| `Cache.ConfiguredWritesAreBuilt` | custom_components/dobiss_sx_evolution/controller.py:439-443 | A command on an addressable output is always encodable: only the bus can make it fail |
| `Cache.AcceptedIff` | custom_components/dobiss_sx_evolution/controller.py:662-670 | A message gets through exactly if it is a state broadcast with four bytes or more, of a configured module and an output in 1..12, and then says that module, output and state; our own looped-back writes do not |
| `Cache.SwitchingIsSeen` | custom_components/dobiss_sx_evolution/light.py:108-111 | An output switched on reads as on, unless a dimmer was asked for no brightness, and one switched off reads as off |
| `Controller.DobissController.IngestMessage` | custom_components/dobiss_sx_evolution/controller.py:650-679 | The object's cache takes the step of the specification, the arrival event is set for every accepted frame even if the cache already matches, and replicas stay in step |
| `Controller.DobissController.ApplyLocal` | custom_components/dobiss_sx_evolution/controller.py:453-461 | The write happens and every listener that does not raise hears it, whatever the others do |
| `Controller.DobissController.AddListener` | custom_components/dobiss_sx_evolution/controller.py:226-237 | A listener that starts from the current cache joins those that agree with it |
| `Controller.DobissController.SendState` | custom_components/dobiss_sx_evolution/controller.py:439-443 | An unencodable write raises before anything is sent |
| `Controller.DobissController.AsyncTurnOn` | custom_components/dobiss_sx_evolution/controller.py:329-342 | Succeeds exactly when bus, encoding and delivery do; then one frame and the RX-scaled cache write, otherwise nothing changes |
| `Controller.DobissController.AsyncTurnOff` | custom_components/dobiss_sx_evolution/controller.py:344-348 | The same for off |
| `Controller.DobissController.AsyncOpenShutter` | custom_components/dobiss_sx_evolution/controller.py:350-354 | The frame [0, letter, up, 1]; up cached as 1, then down as 0; nothing if it fails |
| `Controller.DobissController.AsyncCloseShutter` | custom_components/dobiss_sx_evolution/controller.py:356-360 | The frame [0, letter, down, 1]; down cached as 1, then up as 0; nothing if it fails |
| `Controller.DobissController.AsyncStopShutter` | custom_components/dobiss_sx_evolution/controller.py:362-366 | The frame [0, letter, up, 0]; up cached as 0, then down; nothing if it fails |
| `Controller.DobissController.Drain` | custom_components/dobiss_sx_evolution/controller.py:486-507 | Reads a prefix in order and ends at the 15 s deadline, or once every configured module is seen 150 ms after the last message if that is earlier, and at no other time; the next message came too late, every one before in time |
| `Controller.SeenExactly` | custom_components/dobiss_sx_evolution/controller.py:505-507 | A module is seen exactly when it is configured and one of the ingested frames was accepted for it |
| `Controller.StatesAfterIsRun` | custom_components/dobiss_sx_evolution/controller.py:650-679 | Ingesting message by message is the specification's run over the prefix |
| `Controller.DobissController.ReadFrames` | custom_components/dobiss_sx_evolution/controller.py:631-641 | Messages are ingested in order until the first gap of 300 s, and the failure comes exactly at its end |
| `Controller.DobissController.AwaitResponse` | custom_components/dobiss_sx_evolution/controller.py:410-422 | The wait ends at the first accepted frame since the event was registered, or at the deadline |
| `Controller.DobissController.SettleLoop` | custom_components/dobiss_sx_evolution/controller.py:426-435 | The loop that clears and awaits the event returns when the specification says |
| `Controller.QuietBusEndsEarly` | custom_components/dobiss_sx_evolution/controller.py:494-504 | With every configured module seen, discovery ends 150 ms after the last message, or after its start if there is none |
| `Controller.AcceptedTimesExactly` | custom_components/dobiss_sx_evolution/controller.py:662-674 | The arrivals that count for a refresh are those of exactly the accepted frames |
| `Timing.SettleEndsQuiet` | custom_components/dobiss_sx_evolution/controller.py:426-435 | The loop never returns before the deadline without a full window of silence |
| `Timing.SettleNotLater` | custom_components/dobiss_sx_evolution/controller.py:426-435 | The loop never runs past an instant that ends such a window |
| `Timing.QuietAfterFirst` | custom_components/dobiss_sx_evolution/controller.py:412-413 | Windows seen from the request and from the first response are the same windows |
| `RefreshLock.MoveKeepsInv` | custom_components/dobiss_sx_evolution/controller.py:379-437 | Every step of any caller keeps lock, queue and slot consistent |
| `RefreshLock.LockIsNeeded` | custom_components/dobiss_sx_evolution/controller.py:208-210 | Without the lock a second caller loses the first one's wake-ups |
| `RefreshLock.LockHandsOver` | custom_components/dobiss_sx_evolution/controller.py:399-408 | A free lock goes to the first caller in the queue and only to it, with an unset event in the slot; with the bus closed that caller is done |
| `RefreshLock.BodyGetsOn` | custom_components/dobiss_sx_evolution/controller.py:409-437 | A caller in the body gets on to its wait and out of it, frees the lock when it leaves, and moves nobody else |
| `Debounce.FlushOfBurst` | custom_components/dobiss_sx_evolution/coordinator.py:182-193 | A flush comes 50 ms after an update and publishes the cache this update leaves if and only if no other update came in between |
| `Debounce.ChainFollowsClock` | custom_components/dobiss_sx_evolution/coordinator.py:182-193 | The untimed flushes of the light chain are those of the clock: pending exactly while the timer is armed, publishing what it publishes |
| `Debounce.NoUpdateBeforeFlush` | custom_components/dobiss_sx_evolution/coordinator.py:185-187 | No update lies inside the 50 ms before a flush |
| `ModuleFlow.EditKeepsWellFormed` | custom_components/dobiss_sx_evolution/config_flow.py:711-1042 | Each step keeps that, refused or accepted |
| `ModuleFlow.EntriesDisjoint` | custom_components/dobiss_sx_evolution/config_flow.py:104-115 | In a well-formed module any two entries claim disjoint outputs |
| `ModuleFlow.ClaimsOfEntry` | custom_components/dobiss_sx_evolution/config_flow.py:104-115 | Every stored entry is well formed by itself and its claims are counted as occupied |
| `ModuleFlow.PutWellFormed` | custom_components/dobiss_sx_evolution/config_flow.py:1010-1021 | Storing an entry keeps the module well formed exactly when the entry claims nothing beyond what is free or its own: subtracting own claims is exact |
| `ModuleFlow.PopWellFormed` | custom_components/dobiss_sx_evolution/config_flow.py:876-876 | Removing an entry frees exactly its claims |
| `ModuleFlow.AddAcceptedIffWellFormed` | custom_components/dobiss_sx_evolution/config_flow.py:711-854 | An add form accepts if and only if the output is no entry's key and the updated module is well formed |
| `ModuleFlow.StaleEditSafeIff` | custom_components/dobiss_sx_evolution/config_flow.py:946-1028 | An accepted edit on a key that may have vanished is safe if and only if the key is there or its number is unclaimed |
| `ModuleFlow.StaleEditBreaks` | custom_components/dobiss_sx_evolution/config_flow.py:946-973 | The unsafe case is reachable: two flows end with a switch on an output a shutter drives |
| `ModuleFlow.RoomForALight` | custom_components/dobiss_sx_evolution/config_flow.py:722-728 | So some light can be added exactly while that weight is below 12 |
| `ModuleFlow.OccupiedOutputsInModule` | custom_components/dobiss_sx_evolution/config_flow.py:104-115 | The loop returns the union of all claims |
| `ModuleFlow.Handler.StepAddLight` | custom_components/dobiss_sx_evolution/config_flow.py:711-751 | Result and new outputs for every number, error codes included |
| `ModuleFlow.Handler.StepAddShutter` | custom_components/dobiss_sx_evolution/config_flow.py:757-808 | The five refusals in the order of the form, then the pair is claimed |
| `ModuleFlow.Handler.StepAddSwitch` | custom_components/dobiss_sx_evolution/config_flow.py:814-854 | As for a light |
| `ModuleFlow.Handler.StepRemoveOutput` | custom_components/dobiss_sx_evolution/config_flow.py:860-903 | Abort on an empty module, error on a vanished key, else the entry is gone |
| `ModuleFlow.Handler.StepEditOutput` | custom_components/dobiss_sx_evolution/config_flow.py:909-944 | Arms the edit for a key that is there, stores nothing |
| `ModuleFlow.Handler.StepEditOutputType` | custom_components/dobiss_sx_evolution/config_flow.py:946-988 | Writes under the armed key without looking whether it is still there, keeps the name |
| `ModuleFlow.Handler.StepEditOutputDown` | custom_components/dobiss_sx_evolution/config_flow.py:990-1042 | Refusals minus own claims, then a shutter under the armed key |
| `ModuleFlow.EditKeepsKeys` | custom_components/dobiss_sx_evolution/config_flow.py:711-1042 | Output keys stay decimals of 1..12 whatever form is completed, stale or not |
| `ModuleFlow.RefusalMeans` | custom_components/dobiss_sx_evolution/config_flow.py:722-1015 | Which error or abort each form gives, each by its own condition on the numbers and the occupied outputs |
| `ModuleFlow.OccupiedExactly` | custom_components/dobiss_sx_evolution/config_flow.py:104-115 | An output is occupied exactly if it is some entry's number or some shutter's down output |
| `Dict.IntOfStr` | custom_components/dobiss_sx_evolution/config_flow.py:111-114 | Reading back the decimal of a number gives the number |
| `Dict.LeadingZero` | custom_components/dobiss_sx_evolution/config_flow.py:111-114 | The converse fails: a key with a leading zero would not survive |
| `ConfigEntry.NormalizedIsUpper` | custom_components/dobiss_sx_evolution/config_flow.py:97-101 | After strip and upper a letter passes validation exactly when it is one of A-Z, also for inputs such as a dotless i |
| `ConfigEntry.ParseConfigResponse` | custom_components/dobiss_sx_evolution/protocol.py:123-143 | The active slots of the first 18, each an upper-case ASCII letter; letters may repeat |
| `ConfigEntry.LettersAreUids` | custom_components/dobiss_sx_evolution/config_flow.py:657-673 | A letter is in use exactly when its unique id is, so the form and the registry agree |
| `ConfigEntry.MoodsAreUids` | custom_components/dobiss_sx_evolution/config_flow.py:1227-1239 | The same for mood numbers |
| `ConfigEntry.Entry.AddSubentry` | custom_components/dobiss_sx_evolution/config_flow.py:1198-1199 | A subentry with a taken unique id is refused, any other is appended |
| `ConfigEntry.Entry.AddModule` | custom_components/dobiss_sx_evolution/config_flow.py:641-674 | Keeps ids, letters and moods distinct, and claims disjoint if they were, for every input text; result and new subentries for each case |
| `ConfigEntry.Entry.EditModule` | custom_components/dobiss_sx_evolution/config_flow.py:1048-1085 | The same, with the module's own letter not in its way and its outputs kept |
| `ConfigEntry.Entry.EditOutputs` | custom_components/dobiss_sx_evolution/config_flow.py:711-1042 | An output form, stale or not, changes one module's outputs and nothing else of the entry, keeps its ids and keys, and keeps claims disjoint if and only if it is refused, its key is still there, or its number is free |
| `ConfigEntry.Entry.AddMood` | custom_components/dobiss_sx_evolution/config_flow.py:1213-1240 | Keeps the invariant; accepted exactly for a free number in 0..99 |
| `ConfigEntry.Entry.ImportMoods` | custom_components/dobiss_sx_evolution/config_flow.py:1327-1350 | The same for moods, empty and dash names skipped |
| `ConfigEntry.ImportedOutputs` | custom_components/dobiss_sx_evolution/config_flow.py:1179-1184 | The loop stores one light per downloaded name |
| `ConfigEntry.OutputsFromOk` | custom_components/dobiss_sx_evolution/config_flow.py:1179-1184 | Whatever the download, repeated indices included, an imported module is well formed |
| `ConfigEntry.LettersAndMoods` | custom_components/dobiss_sx_evolution/config_flow.py:657-661 | The letters and numbers in use are those of the subentries there are |
| `ConfigEntry.ReplaceContains` | custom_components/dobiss_sx_evolution/config_flow.py:1079-1085 | An update replaces one subentry and no other |
| `ConfigEntry.LetterTyped` | custom_components/dobiss_sx_evolution/config_flow.py:648-655 | Whatever space surrounds it, an ASCII letter is taken as its own upper case |
| `ConfigEntry.SlotsExactly` | custom_components/dobiss_sx_evolution/protocol.py:133-142 | A slot is reported exactly if its byte is an ASCII letter, as that letter in upper case, with its position |
| `ConfigEntry.SlotsInOrder` | custom_components/dobiss_sx_evolution/protocol.py:133-143 | Slots are reported in order, each at most once |
| `ConfigEntry.NameLandsOnOutput` | custom_components/dobiss_sx_evolution/config_flow.py:1179-1184 | The last name downloaded for index i is stored as a light on output i + 1, and nothing without a name is stored |
| `ConfigEntry.ImportedExactly` | custom_components/dobiss_sx_evolution/config_flow.py:1178-1199 | An import adds exactly one module per new letter, not dimmable, with its downloaded names, and keeps what was there |
| `ConfigEntry.ImportedMoodsExactly` | custom_components/dobiss_sx_evolution/config_flow.py:1327-1345 | An import adds exactly one mood per new usable number and keeps what was there |
| `Outputs.ParseOutputLists` | custom_components/dobiss_sx_evolution/coordinator.py:48-80 | The nested loops compute the lists the lemmas below are about |
| `Outputs.ClaimedAddressable` | custom_components/dobiss_sx_evolution/coordinator.py:57-63 | A claimed output is one of 1..12 on a module A-Z |
| `Outputs.EntitiesDisjoint` | custom_components/dobiss_sx_evolution/coordinator.py:48-80 | Two different entities share no output |
| `Outputs.StoredAtExactly` | custom_components/dobiss_sx_evolution/coordinator.py:57-63 | What is stored for a letter is what the one module with that letter holds |
| `Registry.ExpectedIsCreated` | custom_components/dobiss_sx_evolution/__init__.py:187-204 | For every module the flows can store the expected ids are exactly those light, switch and cover create, although one uses the stored key and the others its number |
| `Registry.ExpectedUniqueIds` | custom_components/dobiss_sx_evolution/__init__.py:187-204 | The loop computes those ids |
| `Registry.EntityRegistry.Prune` | custom_components/dobiss_sx_evolution/__init__.py:207-235 | Removes exactly the module entries that are not expected |
| `Registry.OthersUntouched` | custom_components/dobiss_sx_evolution/__init__.py:211-216 | Mood, hub and foreign entries come through unchanged and none appears among them |
| `Registry.PruneIdempotent` | custom_components/dobiss_sx_evolution/__init__.py:207-235 | A second prune removes nothing, nor does one after setup |
| `Registry.CreatedExactly` | custom_components/dobiss_sx_evolution/light.py:40-53 | Within a module: one light per stored light, one switch per switch, one cover per shutter, by number |
| `Registry.IdFormats` | custom_components/dobiss_sx_evolution/entity.py:33-33 | The ids are subentry-light_n, subentry-switch_n and subentry-cover_n |
| `Reload.RunsKeepInv` | custom_components/dobiss_sx_evolution/__init__.py:255-306 | Over every run: the registered snapshots are those of the present entry, the live coordinator is the fresh build of the entry it was constructed from with the lists parsed last, and the history above is as told |
| `Reload.FullReloadHeals` | custom_components/dobiss_sx_evolution/__init__.py:285-286 | Whatever went wrong before, an undisturbed full reload leaves a fresh coordinator and its listener |
| `Reload.UpdateDuringSetupIsMissed` | custom_components/dobiss_sx_evolution/__init__.py:90-129 | The first exception is real: an update between constructor and registration reaches no listener, everything settles, and the controller does not know the module |
| `Reload.MissedLinkStays` | custom_components/dobiss_sx_evolution/__init__.py:288-306 | If the missed update changed the link, no number of later output changes puts it right |
| `Reload.SnapshotsMoveTooEarly` | custom_components/dobiss_sx_evolution/__init__.py:279-285 | The second exception is real: the snapshots move before the reload, so an output change during its unload takes the fast path on the old connection, and stays there if the unload is refused |
| `Reload.SameKeySameLink` | custom_components/dobiss_sx_evolution/__init__.py:158-168 | What the listener compares fixes everything the fast path leaves alone |
| `Reload.Integration.BeginSetup` | custom_components/dobiss_sx_evolution/__init__.py:90-91 | Setup up to its first await reads the entry of that moment |
| `Reload.Integration.EndSetup` | custom_components/dobiss_sx_evolution/__init__.py:129-129 | Snapshots and listener come after the last await, from the entry of that moment |
| `Reload.Integration.OnUpdate` | custom_components/dobiss_sx_evolution/__init__.py:259-306 | An update with or without a listener, up to its first await: it reaches nobody, asks for a full reload exactly when a connection field or a (letter, dimmable) pair has changed, or rebuilds the lists in place |
| `Reload.ModuleConfigExactly` | custom_components/dobiss_sx_evolution/__init__.py:171-184 | A (letter, dimmable) pair is in the snapshot exactly if some module subentry has that letter and flag |
| `Reload.LinkExactly` | custom_components/dobiss_sx_evolution/coordinator.py:107-134 | Which differences of the connection data a coordinator is built from make a different connection |
| `Reload.ModulesOfExactly` | custom_components/dobiss_sx_evolution/controller.py:190-193 | A controller knows the modules of its outputs and no others |
| `Reload.SetupsAndUnloads` | custom_components/dobiss_sx_evolution/__init__.py:343-353 | A failed setup and a successful unload leave nothing, the next construction is fresh, a refused unload leaves coordinator and listener, a requested reload begins |
| `Protocol.ToBcd` | custom_components/dobiss_sx_evolution/protocol.py:26-30 | Defined exactly on 0..99; the nibbles are decimal digits and mean the value |
| `Protocol.CanonicalBytesAreFixed` | custom_components/dobiss_sx_evolution/protocol.py:26-30 | Encoding undoes decoding exactly on bytes of two decimal digits |
| `Protocol.NonCanonicalAlias` | custom_components/dobiss_sx_evolution/protocol.py:82-83 | 0x0A and 0x10 both name output 11 |
| `Protocol.StateFramesInjective` | custom_components/dobiss_sx_evolution/protocol.py:86-102 | Equal state frames mean equal writes |
| `Protocol.MoodFramesInjective` | custom_components/dobiss_sx_evolution/protocol.py:190-198 | Equal mood frames mean equal moods |
| `Protocol.MoodEncodable` | custom_components/dobiss_sx_evolution/protocol.py:190-198 | A mood is sent exactly for 0..99, as [0, 'S', number, 1] |
| `Protocol.FrameOnTheWire` | custom_components/dobiss_sx_evolution/protocol.py:86-102 | One frame byte for byte |
| `Brightness.Round` | custom_components/dobiss_sx_evolution/protocol.py:232-244 | The nearest integer, and the even one of two at equal distance |
| `Brightness.NeverATie` | custom_components/dobiss_sx_evolution/protocol.py:236-236 | h * 9 / 255 is never half-way between two integers, for any integer h |
| `Brightness.ScalesMonotone` | custom_components/dobiss_sx_evolution/protocol.py:227-244 | All three scales are monotone over all integers |
| `Brightness.WritesAreWholeSteps` | custom_components/dobiss_sx_evolution/protocol.py:232-244 | A write is a whole number of steps, its echo ten per step without rounding, and only h <= 0 writes zero |
| `Brightness.StepsRoundTrip` | custom_components/dobiss_sx_evolution/protocol.py:227-244 | Each of the ten steps survives the trip through RX and HA scales |
| `Brightness.CanToHaIsFloor` | custom_components/dobiss_sx_evolution/protocol.py:227-229 | The largest whole brightness not above the exact scale, 255 at most |

## Left out

- Runtime.BusRuntime.AsyncShutdown: starts once the cancelled reader coroutine has ended; concurrent shutdowns, and a shutdown cancelled while it waits for the reader, are not interleaved with it.
- Runtime.BusRuntime.OpenBus: a connect that is cancelled while `make_bus` still runs in its thread counts as returning no handle; what the thread opens later is not tracked.
- Runtime.BusRuntime.Lifecycle: handing a job over is what counts; whether `stop` or `shutdown` then succeeds in its thread is not modelled. Errors of a reauth start or of the issue registry are not modelled either.
- Controller.DobissController.CollectInitialState: a missing reader and a closed bus are one case here (nothing sent, nothing read); `Runtime.BusRuntime.CollectInitialState` distinguishes sending from reading. Its closing log message is not modelled.
- Controller.DobissController.AsyncTurnOn: send and local write are one call here; what happens between them is in `Light.dfy`. The dimmer set is constant while a command is in flight.
- Controller.DobissController.ApplyLocal: listeners neither call back into the controller nor add or remove listeners.
- Light.QuiescentAgreement: the set of lights and their dimmable flags are those of one setup; a platform reload starts a new run.
- Registry.ReconciledExactly: prune and platform setup read the same entry; an entity that a missed update (`Reload.UpdateDuringSetupIsMissed`) leaves behind waits for the next prune. Platform setup is a function from subentries to registry entries; its loops are not modelled as loops, and disabled or renamed registry entries are not distinguished.
- Reload.FreshIff: the controller's sorted module list is a set here; the controller's states, the devices and the entities of a coordinator are not compared. A setup that fails after its coordinator was published counts as failed.
- Registry.OthersUntouched: entries of foreign subentries whose ids end in a digit (none is created by this integration) may be taken over at setup.
- ConfigEntry.NormalizedIsUpper: characters whose upper case has several characters are left as they are; all of them are refused by the validation either way.
- ModuleFlow.RunsStayWellFormed: output types other than light, switch and shutter, which no form or import stores.
- Dict.LeadingZero: `int` on signs, underscores, spaces and non-ASCII digits, which no form or import stores.
- Real I/O: python-can, sockets, pyserial, executor threads and asyncio's own scheduling.
- `serial_client.py` and `tcp_client.py`: their downloads are input sequences.
- Connection, re-authentication and reconfigure forms, schemas, menus, labels, USB enumeration.
- Clock synchronisation, EEPROM requests and name filtering: short straight-line code.
- Diagnostics, sensors, scenes, services, translations, device names and titles, mood renaming, logging.
