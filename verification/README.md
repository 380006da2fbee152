# VCS SRS client: a Dafny model of its concurrent core

The client keeps a microphone open or shut across many goroutines. This project models the
logic that decides when, and proves what it keeps over every run.

- Objects whose methods change fields are classes here. Each of their methods is proved against
  a function of the old state; the promises are lemmas about those functions.
- Goroutines are step systems cut where the program takes a lock, touches an atomic or waits for
  the operating system. A run is any interleaving of those steps; timers may fire late, saves
  and opens may fail.
- What an operation does is also said in its own terms: which actions a key latches, which streams
  a poll takes down, what an update writes. The step systems are tied to the methods by lemmas
  about calls that nothing interrupts (`...InOneGo`, `StepsAreMethods`).
- The operating system, the network, the window layer and the audio hardware appear only as
  inputs to a step.

Run `dafny verify dfyconfig.toml` to check everything.

| File | What it models |
|---|---|
| `Edges.dfy` | actions, pressed and released edges, and what a well-formed stream of them is |
| `Dispatch.dfy` | the keyboard dispatcher: bindings, latches, generations, the watchdog |
| `Resolve.dfy`, `Joystick.dfy`, `Capture.dfy` | joystick specificity, the commit-then-notify edge machine, binding capture |
| `PressCount.dfy`, `Rebind.dfy`, `PttChain.dfy`, `DeliveryOrder.dfy` | joining the two sources, rebinding under held actions, the whole chain, and what its delivery order is worth |
| `Ring.dfy`, `AudioEpoch.dfy`, `Reopen.dfy`, `FrameBuffer.dfy`, `VoicePool.dfy`, `Gate.dfy` | the audio core |
| `VoiceTx.dfy`, `PttGate.dfy` | the transmit set, session swaps, own-transmission log, and the gate flag |
| `PersistCfg.dfy`, `HistoryLog.dfy`, `Held.dfy`, `Refresher.dfy` | state that must agree with the disk or the server |
| `Ledger.dfy`, `Hist.dfy`, `TriggerText.dfy`, `KeybindStore.dfy`, `Toml.dfy` | arithmetic, normal forms and round trips |
| `Order.dfy`, `Arithmetic.dfy`, `Wrappers.dfy` | shared: string order, products, a value that may be missing |

## Assumptions and findings

- An action's kind (hold or press) is fixed by its id: ids are a datatype and `Hold` a function of it.
- The composite `PttChain` makes two things one step that the program does not lock together: a
  keyboard commit with its handler calls (`KeyStep`), and the counting of an edge with its emission
  (`KeyStep` and `Answer`). The program calls the handler after the dispatcher's lock is released,
  and asks about the hold table, counts and emits in three separate steps.
- `DeliveryOrder` takes exactly those steps apart, per delivering goroutine. Keyboard edges come
  from the event reader, from whoever rebinds or suspends, and from watchdog timers; joystick
  deliveries exclude each other through the notify lock. Its results are about one hold action,
  any set of goroutines that deliver its edges, and any set of goroutines whose rebinds may drop
  it from the hold table. A rebind waits for joystick deliveries, but not for keyboard ones.
  - `DeliveryOrder.CountsFollowIff`: a hold action's count is the number of sources holding it, in
    every run, exactly if at most one goroutine delivers its keyboard edges and no other one may
    drop it from the hold table. `CountLeaks` is a run of two deliverers that ends with nothing
    held and a count of one. `DropLeaks` ends the same way with a single deliverer: its release
    is committed but not yet asked about when another goroutine's rebind finds nothing latched
    and drops the action, so the release passes uncounted.
  - `DeliveryOrder.ViewFollowsIff`: the application sees the action down exactly while a source
    holds it, in every run, exactly if its deliveries cannot cross (they are all joystick deliveries,
    or all of one goroutine) and nobody but its keyboard deliverer may drop it from the hold table.
    An action delivered by the joystick alone may be dropped by anyone. `OpenMicrophone` is a run
    of the keyboard alone that ends with nothing held, a count of zero and the action down;
    `SourcesCross` is one of keyboard and joystick that ends with the key held and the action up.
    `PressSwallowed` carries `DropLeaks` on: the action returns to the hold table, and its next
    press is swallowed by the count left behind.
- `PttChain` has one rebind at a time. Rebinds run under the settings lock, except for the two
  start-up calls (`internal/app/app.go:247`, `internal/app/settings.go:181`), which are taken not to
  overlap another.
- The gate flag is stored after the transmit set's lock is released. `PttGate.GateFollowsIffOneCaller`
  shows that the flag follows the set exactly if at most one goroutine dispatches push-to-talk
  edges; `PttGate.CrossedStores` is a run of two goroutines that ends with an action held and the
  gate shut.
- A store with a trigger under an id the loader does not recognise does not survive its own
  snapshot (the trigger comes back as a foreign entry). `KeybindStore.ReloadIffRecognised` gives the
  exact condition.
- The ledger's documentation asks for a window far below 2^23. `Ledger.WindowExactIff` shows that
  2^23 itself is still sound and anything above is not.
- A clean history log may be trusted to be on disk exactly if at most one flush is in flight
  (`HistoryLog.SafeIffOneFlusher`), which is why shutdown joins the ticker first.
- A newly installed voice session has no targets until the next press or release that keeps
  something held; the targets promise of `VoiceTx` starts there.
- Audio `Start` and `Stop` are called by one control thread; the abandoned poll goroutines are the
  concurrent parties. The clock never runs backwards.

## Model

| member | source | states |
|---|---|---|
| Edges.LegalAlternates | internal/app/settings.go:1039-1063 | in a well-formed edge stream a hold action's edges strictly alternate from a press on, press-kind actions never get a release, and what is down is what was last pressed |
| Edges.DownMeansLastPressed | internal/app/settings.go:1039-1063 | an action is down after a stream exactly if its last edge is a press |
| Edges.HoldKinds | internal/keybinds/actions.go:45-82 | the transmit actions and push-to-mute are held, every other action fires on its press |
| Dispatch.Dispatcher.TakeLatch | internal/hotkeys/dispatch.go:166-180 | removes one latch and owes one release exactly if a hold action was latched |
| Dispatch.Dispatcher.DrainLatched | internal/hotkeys/dispatch.go:199-208 | every latch is removed, each once, bindings and generation stay |
| Dispatch.Dispatcher.AddBinding | internal/hotkeys/dispatch.go:95-106 | replacing a binding releases the old one's latch |
| Dispatch.Dispatcher.ClearAll | internal/hotkeys/dispatch.go:112-121 | clearing releases every latch and leaves no binding |
| Dispatch.Dispatcher.ReleaseAllHeld | internal/hotkeys/dispatch.go:141-155 | a dead event stream releases every latch and keeps the bindings |
| Dispatch.Dispatcher.HandleDown | internal/hotkeys/dispatch.go:223-260 | a key going down latches exactly the unlatched actions bound to that key and modifier set |
| Dispatch.Dispatcher.HandleUp | internal/hotkeys/dispatch.go:223-260 | a key going up releases exactly the latched actions on that physical key, whatever the modifiers |
| Dispatch.Dispatcher.ForceRelease | internal/hotkeys/dispatch.go:285-305 | a watchdog releases only the latch of its own generation |
| Dispatch.BalancedNet | internal/hotkeys/dispatch.go:166-195 | in a balanced log presses minus releases of an action is one if it is open and zero otherwise |
| Dispatch.OpenWasPressed | internal/hotkeys/dispatch.go:184-195 | an open generation was pressed and not yet released |
| Dispatch.ReleasedOnce | internal/hotkeys/dispatch.go:166-180 | no generation is released twice, and only after its press |
| Dispatch.RunsAreSafe | internal/hotkeys/dispatch.go:95-305 | over every run of keys, rebinds, clears, stream deaths and late watchdogs: every latch is bound, net presses equal the latch, each generation is released at most once, a watchdog releases its own press or nothing |
| Dispatch.UpUndoesDown | internal/hotkeys/dispatch.go:223-260 | whatever a key latched, the same key coming up releases, under any modifiers; auto-repeat does nothing |
| Dispatch.StepLatches | internal/hotkeys/dispatch.go:95-305 | which actions are latched after each event: a key going down adds exactly those bound to that key with those modifiers, a key coming up removes exactly those on that key, a watchdog exactly the latch of its generation |
| Dispatch.StepReports | internal/hotkeys/dispatch.go:95-305 | the commits of an event are exactly the latches it changes, each once: a press for a new one, a release for a lost hold latch; no other binding or generation changes |
| Dispatch.EveryCommitHasCause | internal/hotkeys/dispatch.go:223-260 | over every run, each press comes from a key going down with exactly the key and modifiers of the binding live then, and each release from something that ends that very latch |
| Dispatch.EveryCauseCommits | internal/hotkeys/dispatch.go:223-260 | over every run, a key going down presses every unlatched action bound to exactly it, and whatever ends a hold latch releases it |
| Resolve.ComputeActive | internal/joystick/resolve.go:31-71 | the three passes compute the active set whatever order the map is visited in |
| Resolve.ActiveIff | internal/joystick/resolve.go:31-71 | an action is active exactly if it has a held combination, or a held bare button that belongs to no held combination of anyone |
| Resolve.BareOutsideFires | internal/joystick/resolve.go:52-71 | a held bare button outside every held combination fires |
| Resolve.SomethingFires | internal/joystick/resolve.go:31-71 | if any trigger is satisfied some action is active |
| Resolve.CombinationWins | internal/joystick/resolve.go:31-71 | a held combination silences actions bound only to its parts, and fires itself |
| Resolve.NoModifierNoSuppression | internal/joystick/resolve.go:31-71 | without a satisfied combination nothing is suppressed |
| Joystick.Manager.TakeActiveLocked | internal/joystick/manager.go:557-567 | hold actions leave the active set and are listed, press-kind ones stay |
| Joystick.Manager.ApplyBindings | internal/joystick/manager.go:252-277 | a rebind releases what is held before it forgets it |
| Joystick.Manager.SuspendDispatch | internal/joystick/manager.go:281-295 | the first suspend releases what is held; a second does nothing |
| Joystick.Manager.ResumeDispatch | internal/joystick/manager.go:299-303 | resuming delivers nothing |
| Joystick.Manager.ArmCapture | internal/joystick/capture.go:49-115 | starting a capture releases what is held; press-kind actions stay active |
| Joystick.Manager.CloseManager | internal/joystick/manager.go:331-357 | closing releases what is held, once |
| Joystick.Manager.CollectPresses | internal/joystick/manager.go:402-535 | exactly the actions newly wanted become active and are listed once |
| Joystick.Manager.CollectReleases | internal/joystick/manager.go:402-535 | exactly the unwanted actions leave, and the hold ones among them are listed once |
| Joystick.Manager.TickOnce | internal/joystick/manager.go:402-535 | one poll commits and delivers the difference between sample and active set; a failed poll releases everything held |
| Joystick.HandlerSeesBalancedEdges | internal/joystick/manager.go:39-62 | for every interleaving of tick, apply, suspend, resume, capture and close cut at both locks, the delivered edges are well formed, match the active set between spans, and leave nothing down after close |
| Joystick.TickTracksSample | internal/joystick/manager.go:402-535 | after a dispatching tick the active set is exactly the resolution of the sample, and the same sample again delivers nothing |
| Joystick.PressKindSurvivesTake | internal/joystick/manager.go:557-567 | a rebind or suspend does not refire a press-kind action whose button stays down |
| Joystick.CommitSwitches | internal/joystick/manager.go:252-357 | which section suspends, resumes, closes, arms and disarms, and what a rebind binds |
| Joystick.CommitActive | internal/joystick/manager.go:402-567 | which actions are active after each section: what the sample holds after a tick that is not switched off, no hold action after a section that takes them, otherwise what was |
| Joystick.CommitReports | internal/joystick/manager.go:402-567 | the edges of a section are exactly the actions it makes active and the hold actions it makes inactive, each once |
| Joystick.SwitchesAtOnce | internal/joystick/manager.go:299-303 | resuming and the end of a capture take effect at once, whatever is in flight, and deliver nothing |
| Joystick.SectionInOneGo | internal/joystick/manager.go:39-62 | a section that nothing interrupts has the effect of its method: the state moves on and its edges are delivered in order |
| Capture.CaptureState.Feed | internal/joystick/capture.go:140-217 | one sample appends the newly pressed inputs in order, and completes exactly when all captured inputs are up |
| Capture.Suppress | internal/joystick/capture.go:246-276 | a diagonal hides the cardinals of its own hat that it covers |
| Capture.SortInputs | internal/joystick/capture.go:140-217 | inputs pressed in the same sample are recorded in a fixed order |
| Capture.AdjacentAreCardinals | internal/joystick/capture.go:246-276 | a diagonal covers only cardinals of its own hat |
| Capture.DiagonalCovers | internal/joystick/capture.go:219-276 | which two cardinals each diagonal covers; cardinals and plain buttons cover nothing |
| Capture.CaptureMeansPressed | internal/joystick/capture.go:140-217 | a completed capture's inputs were all pressed and are all up, the modifier was down no later than any, the main input no earlier, they differ, and there is none exactly when one input was pressed |
| Capture.CompletesIff | internal/joystick/capture.go:140-217 | a capture completes exactly when something was pressed since arming and all of it is up |
| PressCount.Backend.Press | internal/app/presscount.go:27-32 | counts a source, true on the first |
| PressCount.Backend.Release | internal/app/presscount.go:40-53 | uncounts a source, true on the last; a release with nothing counted is ignored |
| PressCount.Backend.OnPressed | internal/app/settings.go:1039-1049 | only the first press of a hold action reaches the application |
| PressCount.Backend.OnReleased | internal/app/settings.go:1053-1063 | only the last release of a hold action reaches the application |
| PressCount.HandledCounts | internal/app/settings.go:1039-1063 | an edge that is not counted passes; a counted one passes exactly on the first press or the last release; a release with nothing held is ignored; no other count moves |
| PressCount.HandledJoins | internal/app/settings.go:1039-1063 | a fitting edge of one source keeps count, application view and the two held sets in agreement |
| PressCount.HandledAllJoins | internal/app/settings.go:1039-1063 | so does any well-formed list of edges of known actions |
| Rebind.Settings.BuildTables | internal/app/settings.go:1154-1264 | the keyboard and joystick tables hold exactly the triggers of registered actions, the hold table their hold actions |
| Rebind.TablesMean | internal/app/settings.go:1154-1180 | an action has a key exactly if it is registered and has a set chord, which that key is; its joystick bindings are exactly its joystick triggers; both carry its kind |
| Rebind.Settings.ApplyKeyboard | internal/hotkeys/hotkeys.go:89-122 | releases what is held, then registers what the system accepts; suspended, it only records |
| Rebind.Settings.ApplyJoystick | internal/joystick/manager.go:252-277 | the joystick half of a rebind and what it delivers |
| Rebind.Settings.ApplyHotkeys | internal/app/settings.go:1154-1264 | from any consistent state a rebind leaves nothing held, counted or down, including actions that left the registry, with the new tables live and the state consistent |
| Rebind.TablesTyped | internal/app/settings.go:1154-1264 | both tables carry each action's own kind |
| Rebind.KeyboardAppliedKeeps | internal/hotkeys/hotkeys.go:89-122 | the keyboard half keeps the chain consistent under the widened hold table |
| Rebind.JoystickAppliedKeeps | internal/joystick/manager.go:252-277 | so does the joystick half, which leaves nothing held there |
| Rebind.WidenKeeps | internal/app/settings.go:1154-1264 | taking the union of the old and new hold tables is safe at any time |
| Rebind.SwapKeeps | internal/app/settings.go:1154-1264 | dropping the old hold table is safe once nothing is held |
| Rebind.AppliedKeeps | internal/app/settings.go:1154-1264 | the whole rebind as one transition |
| Rebind.RebindInOneGo | internal/app/settings.go:1154-1264 | the rebind method is one of the runs of the chain: with nothing in between, the chain's moves lead to exactly the state it leaves behind |
| PttChain.ChainNeverLosesAHold | internal/app/settings.go:1154-1264 | in every reachable state of keyboard, joystick, count and rebind steps: a hold action's count is the number of sources holding it, the hold table covers every held action, the application sees it pressed exactly while the count is positive, and nothing held means nothing counted |
| PttChain.EveryKeyEventMoves | internal/hotkeys/dispatch.go:223-305 | key events, a dead stream and watchdogs can happen in any state of the chain |
| PttChain.SwitchedOff | internal/hotkeys/hotkeys.go:126-190 | suspending and closing leave no key bound |
| PttChain.ResumeInOneGo | internal/hotkeys/hotkeys.go:103-157 | resuming binds everything wanted that the system accepts |
| DeliveryOrder.TallyIsHandled | internal/app/settings.go:1039-1063 | the counting step is the application's counting, cut off from its emission |
| DeliveryOrder.CommitsOnce | internal/hotkeys/dispatch.go:223-260 | one commit of the dispatcher touches each action at most once |
| DeliveryOrder.RunKeepsInv | internal/app/settings.go:1039-1063 | over every run of commits, hold questions, counts, emissions and table swaps in which at most one goroutine delivers the action's keyboard edges and no other one drops it from the hold table, the count is what the sources have told, and each source has told all it holds but for at most one edge on its way |
| DeliveryOrder.CountLeaks | internal/hotkeys/dispatch.go:112-121 | a run of two keyboard goroutines: a clear is delivered before the press it undoes, leaving a count behind and the action down |
| DeliveryOrder.DropLeaks | internal/app/settings.go:1053-1063 | a run of one keyboard deliverer and another goroutine's rebind: the rebind finds nothing latched and drops the action while its release is under way, which passes uncounted and leaves a count behind |
| DeliveryOrder.PressSwallowed | internal/app/settings.go:1182-1258 | the run carried on: once the action is back in the hold table, its next press is swallowed, so a held action is up |
| DeliveryOrder.OpenMicrophone | internal/hotkeys/dispatch.go:247-259 | a run of two keyboard goroutines: counted in order, emitted in the other, the action stays down with nothing held and a count of zero |
| DeliveryOrder.SourcesCross | internal/app/settings.go:1039-1063 | a run of joystick and keyboard: a release counted first and emitted last leaves a held action up |
| DeliveryOrder.CountsFollowIff | internal/app/presscount.go:27-53 | the count follows the holders in every run exactly if at most one goroutine delivers the action's keyboard edges and no other one may drop it from the hold table |
| DeliveryOrder.ViewFollowsIff | internal/app/settings.go:1039-1063 | the application's view follows the holders in every run exactly if the action's deliveries cannot cross (all of the joystick, or all of one goroutine) and nobody but its keyboard deliverer may drop it from the hold table |
| Ring.ModIsRemainder | internal/audio/ring.go:50-80 | the masked index used here is the remainder |
| Ring.SubIsRemainder | internal/audio/ring.go:66-106 | index differences are taken modulo 2^64 |
| Ring.SlotOfWrapped | internal/audio/ring.go:66-106 | an index that wrapped at 2^64 still names the same slot |
| Ring.SubOfWrapped | internal/audio/ring.go:66-106 | the distance of two wrapped indices is the true one |
| Ring.RingIsSafe | internal/audio/ring.go:50-134 | for every interleaving of producer and consumer at each atomic and each sample: no slot is written that is buffered or being read, the fill is between zero and the size, chunks are kept or dropped whole and counted, and reads are the kept stream in order with only drains skipping |
| Ring.ReadDecides | internal/audio/ring.go:87-106 | an interleaved read takes what was buffered when it loaded the index, up to what it wants, and counts as short exactly if that is less |
| Ring.DrainSkips | internal/audio/ring.go:114-116 | an interleaved drain skips everything written when it loaded the index |
| Ring.WriteInOneGo | internal/audio/ring.go:66-80 | the write steps of the interleaving, run together, are the method: the whole chunk is kept exactly if it fits, else dropped and counted |
| Ring.ReadInOneGo | internal/audio/ring.go:87-106 | so are the read steps: the oldest samples, as many as are wanted and buffered |
| Ring.Buffer.constructor | internal/audio/ring.go:50-57 | the size is the least power of two that holds the frames |
| Ring.Buffer.Write | internal/audio/ring.go:66-80 | appends the chunk if it fits, else drops and counts all of it |
| Ring.Buffer.ReadInto | internal/audio/ring.go:87-106 | fills from the oldest samples, counts a short read and leaves the rest of the target alone |
| Ring.Buffer.Available | internal/audio/ring.go:130-134 | the number of samples buffered |
| Ring.Buffer.Drain | internal/audio/ring.go:114-116 | empties the ring |
| AudioEpoch.NoStreamLeaks | internal/audio/manager.go:1297-1493 | with any number of abandoned poll goroutines every opened stream is in exactly one place and stopped at most once |
| AudioEpoch.PublishedBelongsToCurrentGeneration | internal/audio/manager.go:617-844 | a published stream feeds the current generation's ring, and none is published once Stop has taken them |
| AudioEpoch.QuietAfterStop | internal/audio/manager.go:790-844 | after Stop, once every goroutine has come back, every opened stream has been stopped exactly once |
| AudioEpoch.PollCloseTakes | internal/audio/manager.go:1297-1389 | direction by direction: a poll of the live generation empties the slot of a direction whose device changed and holds its stream for stopping, and leaves any other slot alone; a superseded poll takes nothing |
| AudioEpoch.SlotChanges | internal/audio/manager.go:617-1493 | how each step can change a slot, and what it then holds |
| AudioEpoch.OnlyHeldIsStopped | internal/audio/manager.go:790-1493 | a step stops exactly the one stream its own thread holds for stopping, once |
| AudioEpoch.HealthyStreamStays | internal/audio/manager.go:1297-1389 | over every run a published stream stays published and is not stopped until Stop takes the streams or a poll of the live generation finds its own device changed |
| AudioEpoch.PublishedInOwnSlot | internal/audio/manager.go:617-788 | over every run the stream in a direction's slot was opened for that direction |
| AudioEpoch.GenerationsOwnRings | internal/audio/manager.go:617-788 | over every run no two poll goroutines feed one ring, and one of a superseded generation never feeds the live one |
| AudioEpoch.StartInOneGo | internal/audio/manager.go:617-788 | Start publishes what opened, for a new generation with a goroutine and a ring of its own |
| AudioEpoch.StopInOneGo | internal/audio/manager.go:790-844 | Stop comes to an end with nothing published and no goroutine current |
| AudioEpoch.QuietRound | internal/audio/manager.go:1227-1263 | a poll that finds nothing changed and nothing due looks at both directions and touches nothing |
| AudioEpoch.ReopenInOneGo | internal/audio/manager.go:1391-1493 | a direction is reopened exactly if its slot is empty, it is due and the goroutine is current, and what opens is published for it |
| AudioEpoch.LateOpenIsStopped | internal/audio/manager.go:1419-1432 | an open that outlived its generation is stopped, not published |
| Reopen.ResolveDevice | internal/audio/manager.go:554-571 | the configured device if present, else the default, else the first |
| Reopen.ResolvesToListed | internal/audio/manager.go:554-571 | resolution is unique and names a listed device whenever there is one |
| Reopen.Direction.CloseSuperseded | internal/audio/manager.go:1297-1389 | what one poll closes and which retry state it resets |
| Reopen.Direction.PollOnce | internal/audio/manager.go:1227-1263 | one poll of one direction: close, then reopen if due |
| Reopen.OpenMeansWanted | internal/audio/manager.go:1391-1446 | after a poll an open stream is on the resolved device |
| Reopen.PollPromises | internal/audio/manager.go:1297-1446 | a stream on its device is left alone; one whose device is gone is closed and replaced in the same poll; a closed one is tried at once after a change of selection or when a device appears, and otherwise exactly when its wait is over |
| Reopen.BackoffDoubles | internal/audio/manager.go:1498-1507 | after n + 1 failures the wait is a second doubled n times, at most half a minute |
| Reopen.FreeRetriesAreSeparated | internal/audio/manager.go:1297-1389 | with one configured id and no success, two free retries have a backed-off attempt between them |
| Reopen.ThreeAttemptsSpanTheBackoff | internal/audio/manager.go:1498-1507 | any three attempts span the backoff the first one set, and the backoff never shrinks |
| FrameBuffer.Accumulator.Push | internal/audio/frame_buffer.go:44-70 | emitted frames followed by the pending tail are the stream pushed so far, cut into whole frames |
| FrameBuffer.CutIsUnique | internal/audio/frame_buffer.go:44-70 | there is only one such cut |
| FrameBuffer.ChunkingIsInaudible | internal/audio/frame_buffer.go:44-70 | two chunkings of one stream give the same frames and the same tail |
| FrameBuffer.Filler.Pull | internal/audio/frame_buffer.go:86-97 | what was played followed by the rest of the frame is the fills so far |
| FrameBuffer.FewestFills | internal/audio/frame_buffer.go:86-97 | what was played is a prefix of the fills, and one fill fewer would not have reached it |
| VoicePool.Pool.Play | internal/audio/sfx.go:219-230 | a full queue of 32 loses its oldest request |
| VoicePool.NinthCostsOldest | internal/audio/sfx.go:235-244 | a new voice begins at its first sample, and only a ninth costs one, the oldest |
| VoicePool.Pool.AddVoice | internal/audio/sfx.go:235-244 | the eight-slot ring is a queue that loses its oldest voice when full |
| VoicePool.Pool.MixInto | internal/audio/sfx.go:250-284 | starts the pending effects if the queue's lock was acquired, adds every voice's next samples, keeps the unfinished ones in order |
| VoicePool.Pool.Compact | internal/audio/sfx.go:265-283 | the in-place compaction keeps exactly the survivors, in order |
| VoicePool.TurnedAt | internal/audio/sfx.go:235-244 | a slot index modulo eight is a position counted from the head |
| VoicePool.EvictRemovesFirst | internal/audio/sfx.go:235-244 | the evicted voice is the oldest still sounding |
| VoicePool.OutputIsSumOfStarts | internal/audio/sfx.go:235-284 | over any run every output sample is the sum of the effects sounding then, each heard in order and once from its begin until it ends or is evicted |
| VoicePool.HeardCompletely | internal/audio/sfx.go:250-284 | each sample of an effect that was never evicted is heard at its place, on top of the sum of all the others |
| Gate.Remembered | internal/audio/gate.go:88-151 | the counters of a mechanism are exactly what its frame history says, through any change of configuration |
| Gate.OpenIffHistory | internal/audio/gate.go:88-151 | a mechanism is open exactly if an active run completed its need, or the frame is inactive and the tail of the last such run, counted in inactive frames only, is not used up |
| Gate.StaysOpen | internal/audio/gate.go:79-85 | a configuration change never shuts a mechanism whose frames stay active |
| Gate.WholeFrames | internal/audio/gate.go:50-62 | delays count in whole frames of ten milliseconds, rounded down, and are never negative |
| Gate.PttTiming | internal/audio/gate.go:88-151 | from rest a press opens exactly behind the start delay, and a release stays open exactly within the release delay |
| Gate.VoxTiming | internal/audio/gate.go:88-151 | from rest loud frames open from the minimum length on, quiet ones stay open exactly within the hang time, and switched off it never opens |
| Gate.Gate.SetConfig | internal/audio/gate.go:79-85 | changes the tunables and nothing that is running |
| Gate.Gate.Step | internal/audio/gate.go:88-151 | the microphone is open exactly if either mechanism is, by its history, and it is not muted |
| VoiceTx.Voice.TargetsLocked | internal/app/voice.go:472-484 | exactly one target per frequency the held actions resolve to, taken from one of them |
| VoiceTx.Voice.InstallLocked | internal/app/history.go:183-230 | new frequencies start now, kept ones keep their start, ended ones become rows, and the session gets the list |
| VoiceTx.Voice.Press | internal/app/voice.go:512-534 | adds the action, counts a fresh transmission, cancels the clear and installs in one critical section |
| VoiceTx.Voice.Release | internal/app/voice.go:548-561 | removes the action, reports whether something is still held and then installs the rest |
| VoiceTx.Voice.ScheduleClear | internal/app/voice.go:604-617 | replaces the pending clear |
| VoiceTx.Voice.ClearIfStillIdle | internal/app/voice.go:646-656 | clears only if nothing is held |
| VoiceTx.Voice.Swap | internal/app/voice.go:363-382 | a teardown always proceeds and ends every interval; a session is installed only for the live generation |
| VoiceTx.Voice.NextGeneration | internal/app/voice.go:391-396 | a fresh generation |
| VoiceTx.SessionTransmitsWhatIsHeld | internal/app/voice.go:472-656 | in every reachable state: once installed on a session, targets are exactly the held frequencies while something is held, and idle targets remain only while a clear is armed or owed |
| VoiceTx.HeldIsTransmitted | internal/app/voice.go:512-656 | from the first press on a session until it is replaced, whatever stale timers fire, held actions are transmitted on exactly their frequencies |
| VoiceTx.HeldIsPressed | internal/app/voice.go:512-561 | over every run an action is held exactly if it was pressed and not released since, with the target of that press |
| VoiceTx.TransmissionsAreStarts | internal/app/voice.go:512-534 | over every run the live session counts exactly the steps since it was installed at which the held set went from empty to not empty |
| VoiceTx.TimersMove | internal/app/voice.go:604-656 | a clear timer may fire from its arming until it fires or a press or another arming stops it in time |
| VoiceTx.EachIdleReleaseArms | internal/app/voice.go:548-617 | over every run each release that leaves nothing held arms the clear once |
| VoiceTx.GenerationsMove | internal/app/voice.go:363-396 | a teardown and a new dial start a new generation, and nothing else does |
| VoiceTx.IdleIsSilent | internal/app/voice.go:604-656 | with nothing held and no clear outstanding a session has no target and no interval is open |
| VoiceTx.TeardownOutlivesDials | internal/app/voice.go:363-396 | a dial begun before a teardown installs nothing after it |
| VoiceTx.CloseInterval | internal/app/history.go:183-230 | a frequency leaving the set adds exactly the row of the interval that ends |
| VoiceTx.InstallKeepsLog | internal/app/history.go:183-230 | one install keeps every frequency's rows equal to its intervals |
| VoiceTx.OneRowPerTransmission | internal/app/history.go:183-230 | over every run the rows of a frequency are exactly the intervals it spent in the installed set, one row each, never overlapping; rows plus the open interval are the intervals begun; none is open without a session |
| PttGate.OneCallerFollows | internal/app/audio.go:224-319 | with one dispatching goroutine the gate flag follows the transmit set |
| PttGate.CrossedStores | internal/app/audio.go:224-319 | two goroutines can leave an action held and the gate shut |
| PttGate.GateFollowsIffOneCaller | internal/app/audio.go:224-319 | the gate flag follows the transmit set exactly if at most one goroutine dispatches |
| PersistCfg.ChooseSelection | internal/app/profiles.go:31-43 | the selection is kept if it names an enabled radio, else the first enabled one, else none |
| PersistCfg.SelectionIsUsable | internal/app/profiles.go:31-43 | the selection can transmit exactly if some radio can, and choosing again changes nothing |
| PersistCfg.TxnWrites | internal/app/profiles.go:155-215 | what each transaction changes and what it leaves; a loaded profile leaves a usable selection if it has one, and keeps the old one if it is usable |
| PersistCfg.Backend.Persist | internal/app/persistcfg.go:34-67 | a committed transaction is in memory and on disk; a refused or failed one is in neither |
| PersistCfg.Backend.SetCommsLayout | internal/app/profiles.go:766-787 | a drag changes blocks in memory, keeps the window size and owes a flush |
| PersistCfg.Backend.CaptureWindowSize | internal/app/profiles.go:813-830 | a resize beyond the echo tolerance changes memory and owes a flush |
| PersistCfg.Backend.Flush | internal/app/profiles.go:842-877 | a pending layout reaches the file or stays pending; without one the file is not touched |
| PersistCfg.StepKeepsInv | internal/app/persistcfg.go:34-67 | every lock-delimited step keeps the file a known distance from memory |
| PersistCfg.FileAgreesWithMemory | internal/app/persistcfg.go:34-67 | for every interleaving of transactions, failing saves, edits and flushes: memory is the committed changes in order, the free file differs only in a layout still owed, checks still hold at commit, and radio selections commit in the order they were requested |
| PersistCfg.NothingPendingMeansSaved | internal/app/profiles.go:842-877 | with no writer and nothing pending the file is memory |
| PersistCfg.RefusedIff | internal/app/voice.go:1152-1180 | a transaction is refused exactly if it is an ordered selection overtaken by a newer one, or clears a profile that is not active |
| PersistCfg.NewestIsRemembered | internal/app/voice.go:1152-1180 | over every run the number a selection is compared with is that of a committed one, and no committed one is newer |
| PersistCfg.TxnInOneGo | internal/app/persistcfg.go:34-67 | the steps of a transaction, run together, put it in memory and on disk or in neither |
| PersistCfg.FlushInOneGo | internal/app/profiles.go:842-877 | the steps of a flush, run together, write a pending layout or leave it pending |
| PersistCfg.EditsWait | internal/app/profiles.go:766-830 | a drag moves blocks and a resize the window, unless it echoes the stored size to within two pixels; both wait for a flush |
| HistoryLog.Log.Append | internal/history/history.go:84-97 | the log is the last entries appended since the last clear |
| HistoryLog.Log.Snapshot | internal/history/history.go:105-113 | a fresh copy of those, newest first |
| HistoryLog.Log.Clear | internal/history/history.go:123-132 | empties the log and marks it dirty |
| HistoryLog.Log.Flush | internal/history/store.go:105-158 | writes a dirty log, or leaves it dirty on failure |
| HistoryLog.Log.Tick | internal/history/store.go:86-98 | flushes exactly when dirty and quiet for the debounce window |
| HistoryLog.MemoryIsTail | internal/history/history.go:84-97 | memory is the tail of the appends in every interleaving |
| HistoryLog.OneFlusher | internal/history/store.go:105-158 | with one flusher a clean log equals the file after any interleaving with the unlocked write |
| HistoryLog.OldCopyWins | internal/history/store.go:105-158 | two flushers can leave a clean log with a stale file |
| HistoryLog.SafeIffOneFlusher | internal/app/history.go:62-79 | a clean log may be trusted to be on disk exactly if at most one flusher is at work |
| HistoryLog.FlushInOneGo | internal/history/store.go:105-158 | the steps of a flush, run together, write the log and clean it, or change nothing |
| HistoryLog.FinishCleans | internal/history/store.go:105-158 | a flush cleans the log only if nothing changed since its copy, and never dirties it |
| Held.HeldStream.Receive | internal/control/held.go:58-84 | before release an update is held or overflows the bound, afterwards it goes live |
| Held.HeldStream.Release | internal/control/held.go:102-114 | replays the held updates once, in order |
| Held.RouteWrites | internal/control/stream.go:48-107 | what each update writes; a missing payload writes nothing, nor does a blank secret |
| Held.LastWriteWins | internal/control/stream.go:48-107 | after any updates a key holds what the last one touching it wrote, or what was there |
| Held.ReplayConverges | internal/control/stream.go:48-107 | replaying from at or before the snapshot point equals a later snapshot |
| Held.HeldConverges | internal/control/held.go:58-114 | for any timing of release, what is routed is an in-order, exactly-once prefix of the arrivals, nothing before release, and the store is the server's |
| Held.StepsAreMethods | internal/control/held.go:58-114 | each step of the interleaving has the contract of the method it stands for |
| Refresher.NoWakeupLost | internal/app/keybindrefresh.go:45-98 | in every interleaving a waiting worker with work has a wake-up in the channel or on its way, and no job is lost or run twice |
| Refresher.JobsGetDone | internal/app/keybindrefresh.go:59-84 | while work is left a step is possible, and every such step leaves less |
| Refresher.WorkerFinishes | internal/app/keybindrefresh.go:59-84 | under any schedule of worker and enqueuers left alone, there are at most as many steps as there was work, and when none is possible every accepted job has run |
| Refresher.NothingStartsAfterStop | internal/app/keybindrefresh.go:89-98 | no job starts after the shutdown mark |
| Refresher.EveryChangeCounts | internal/app/keybindrefresh.go:45-57 | until the shutdown every accepted job has run, is running or is counted |
| Refresher.OneJob | internal/app/keybindrefresh.go:45-84 | one enqueued job takes a worker at rest through one run and back to rest |
| Refresher.ShutsDown | internal/app/keybindrefresh.go:89-98 | a shutdown discards what is counted, refuses what comes later, and a waiting worker leaves |
| Refresher.Queue.Enqueue | internal/app/keybindrefresh.go:45-57 | counts a job and leaves a wake-up, unless stopped |
| Refresher.Queue.Drain | internal/app/keybindrefresh.go:59-84 | one pass runs everything counted, and the last job leaves the current state applied |
| Ledger.Unwrap24 | internal/loadgen/ledger.go:7-21 | the representable value with these low 24 bits that is nearest the reference |
| Ledger.NearIsExact | internal/loadgen/ledger.go:7-21 | a value less than 2^23 away is recovered |
| Ledger.WindowExactIff | internal/loadgen/ledger.go:58-62 | every value of a window is recovered from every reference in it exactly if the window spans at most 2^23 |
| Ledger.TickBit | internal/loadgen/ledger.go:63-83 | setting one bit of the packed words changes no other |
| Ledger.RecvLedger.constructor | internal/loadgen/ledger.go:51-56 | an empty ledger; a negative count is none |
| Ledger.RecvLedger.Mark | internal/loadgen/ledger.go:63-83 | one arrival moves exactly one counter, and duplicate and reordered are told apart |
| Ledger.RecvLedger.Result | internal/loadgen/ledger.go:85-101 | the bursts are the maximal missing runs in order, and they sum to the lost count |
| Ledger.BurstsCover | internal/loadgen/ledger.go:85-101 | every missing number lies in a burst |
| Ledger.CountersAreDefinitions | internal/loadgen/ledger.go:63-83 | over any arrivals that can be told apart from the window, unique, dups, reordered and out-of-range are their definitions and every mark is counted once |
| Ledger.WindowArrivals | internal/loadgen/ledger.go:58-83 | over any arrivals of a window of at most 2^23 the same holds and none is out of range |
| Hist.HistIndex | internal/loadgen/hist.go:28-44 | the first bucket whose upper bound lies above the duration |
| Hist.HistUpper | internal/loadgen/hist.go:46-60 | the upper bound of a bucket |
| Hist.IndexMonotone | internal/loadgen/hist.go:28-44 | longer durations go to later buckets |
| Hist.UpperIsClose | internal/loadgen/hist.go:46-60 | a bucket's bound is above its durations and at most a tenth above them from 1 microsecond to 10 seconds |
| Hist.Saturates | internal/loadgen/hist.go:46-60 | beyond the range ten seconds are reported, before it one microsecond |
| Hist.RankExists | internal/loadgen/hist.go:86-109 | every rank up to the count names exactly one value |
| Hist.RankIsCeiling | internal/loadgen/hist.go:86-109 | a proper quantile asks for the smallest rank covering that share |
| Hist.RankEnds | internal/loadgen/hist.go:86-109 | not a number and nothing ask for the smallest observation, everything and more for the largest |
| Hist.Histogram.Record | internal/loadgen/hist.go:63-65 | adds one observation |
| Hist.Histogram.Count | internal/loadgen/hist.go:68-74 | the number of observations |
| Hist.Histogram.QuantileOf | internal/loadgen/hist.go:86-109 | strictly above the observation of the asked rank and at most a tenth above it; ten seconds and more saturate |
| Hist.Histogram.Merge | internal/loadgen/hist.go:112-118 | the histogram of both lists of observations, also when merged with itself |
| Hist.Histogram.Reset | internal/loadgen/hist.go:121-125 | no observations |
| TriggerText.PrintChord | internal/chord/chord.go:55-68 | modifiers in canonical order, then the key |
| TriggerText.ParseChord | internal/chord/chord.go:72-117 | the loop reads what the grammar says, with the same errors |
| TriggerText.ParsesIffSpells | internal/chord/chord.go:72-117 | a text parses to a chord exactly if it is the chord's modifiers in some order, each once, then its key |
| TriggerText.ChordRoundTrip | internal/chord/chord.go:55-117 | a valid chord is read back from its text |
| TriggerText.InputRoundTrip | internal/trigger/parse.go:86-145 | every button and hat direction is read back from its text |
| TriggerText.RoundTrip | internal/trigger/parse.go:35-145 | every valid trigger is read back from its text |
| TriggerText.ParsedIsValid | internal/trigger/parse.go:35-115 | only valid triggers are parsed |
| TriggerText.PrintIsCanonical | internal/trigger/parse.go:35-145 | printing what was parsed parses to the same trigger |
| TriggerText.TextInjective | internal/trigger/parse.go:118-145 | different triggers have different texts |
| TriggerText.ChordSpelling | internal/chord/chord.go:44-68 | Ctrl, Alt, Shift, Super, then the key |
| TriggerText.ButtonSpelling | internal/trigger/parse.go:139-145 | buttons are numbered from one |
| TriggerText.HatSpelling | internal/trigger/parse.go:27-31 | the name of each hat direction, clockwise from up, hats numbered from one |
| TriggerText.JoySpelling | internal/trigger/parse.go:118-137 | a joystick trigger is spelled modifier first, each input behind its device |
| TriggerText.ButtonRead | internal/trigger/parse.go:86-115 | exactly the buttons 1 to 128 are read |
| TriggerText.HatRead | internal/trigger/parse.go:86-115 | exactly the hats 1 to 4 are read, in every direction |
| TriggerText.SignedNumber | internal/trigger/parse.go:86-115 | a number may carry a sign |
| TriggerText.DeviceIds | internal/trigger/button.go:55-76 | which characters a device id may have |
| TriggerText.KeyFamilies | internal/chord/keycode.go:77-90 | letters, digits, keypad digits and function keys are key names |
| TriggerText.FunctionKeys | internal/chord/keycode.go:77-90 | there are exactly 24 function keys |
| KeybindStore.KeybindStore.Load | internal/keybinds/store.go:101-191 | whatever the file says, the loaded store has one owner per trigger, one chord per action and no empty list, and does not depend on map order |
| KeybindStore.KeybindStore.Snapshot | internal/keybinds/store.go:195-210 | every trigger as text, with the foreign entries |
| KeybindStore.KeybindStore.Add | internal/keybinds/store.go:246-289 | moves the trigger to the action, replaces its chord, and reports the one other action that held it |
| KeybindStore.KeybindStore.RemoveAt | internal/keybinds/store.go:292-304 | drops one trigger, or refuses an index out of range |
| KeybindStore.KeybindStore.Clear | internal/keybinds/store.go:307-311 | drops one action's triggers and nothing else |
| KeybindStore.KeybindStore.AddPersisted | internal/app/settings.go:413-441 | a bind that cannot be persisted is rolled back, the steal included: the store is as it was exactly if the loader recognises every bound action |
| KeybindStore.AddMovesOnly | internal/keybinds/store.go:246-289 | who holds what after an add: one trigger moved, one chord replaced, nothing else |
| KeybindStore.AddKeeps | internal/keybinds/store.go:246-289 | an add keeps one owner per trigger |
| KeybindStore.RemoveKeeps | internal/keybinds/store.go:292-304 | so does a removal |
| KeybindStore.SurvivingClean | internal/keybinds/store.go:101-191 | what survives a load of one list is clean, unclaimed and can be saved again |
| KeybindStore.JoySurvivesIff | internal/keybinds/store.go:101-191 | a joystick trigger survives a load exactly if nobody has claimed it and some entry spells it: unreadable entries cost nothing |
| KeybindStore.ChordSurvivesIff | internal/keybinds/store.go:101-191 | of the chords in a list exactly the first unclaimed one survives |
| KeybindStore.RadioIsRecognised | internal/keybinds/store.go:53-62 | the actions of any radio are recognised |
| KeybindStore.NamedIsRecognised | internal/keybinds/store.go:45-51 | so is every named action |
| KeybindStore.OthersAreForeign | internal/keybinds/store.go:53-62 | and nothing else but what starts and ends like a radio action |
| KeybindStore.LoadEstablishes | internal/keybinds/store.go:101-191 | any file loads into a store with one owner per trigger |
| KeybindStore.ReloadIffRecognised | internal/keybinds/store.go:101-210 | loading a snapshot is the identity exactly if every bound action is one the loader recognises |
| Order.SortedListUnique | internal/keybinds/store.go:101-191 | a set of ids has one sorted listing |
| Order.LessIff | internal/keybinds/store.go:101-191 | where two strings first differ, the one that ends or has the smaller character comes first |
| Order.Sorted | internal/keybinds/store.go:101-191 | lists the ids in sorted order |
| Toml.QuoteToml | internal/config/config.go:328-357 | the quoted text, character by character |
| Toml.MarshalToml | internal/config/config.go:299-308 | a lone keyboard chord as a string, everything else as an array |
| Toml.UnmarshalToml | internal/config/config.go:276-295 | a string or an array of strings, and nothing else |
| Toml.EscapeRoundTrip | internal/config/config.go:328-357 | every escape is read back as its character, whatever follows |
| Toml.RoundTrip | internal/config/config.go:276-357 | a decoder after TOML v1.0.0, sections "String" and "Array", reads every written list back, each text as its code points |
| Toml.UnchangedIffValid | internal/config/config.go:310-327 | a text comes back unchanged exactly if all of it was valid UTF-8 |
| Toml.NoControlWritten | internal/config/config.go:328-357 | no character that the standard forbids unescaped is written |
| Toml.PlainStays | internal/config/config.go:328-357 | only a quote, a backslash and control characters are escaped |
| Toml.WrittenForm | internal/config/config.go:299-308 | a list is written as a string exactly if it is one entry that does not start as a joystick trigger |

## Left out

- The window layer, tray, dialogs, data-transfer objects, event names and notifications: no state worth proving.
- The network (dialling, authentication, voice packets, load generation runners) and the operating system's input and audio backends: they appear as nondeterministic inputs.
- Floating-point signal processing (gain control, filters, noise suppression, resampling): ring samples are reals, mixed samples integers, the histogram's `q` a rational number.
- Audio `Start`, `Stop` and the poll goroutines are steps of one state value, not methods of an object: none of these calls runs without others in between. `PttGate` is a step system for the same reason.
- The registrar's stream restart protocol, connection health, the rate limiter and capture tokens: not part of this model.
- `tick`'s early returns and its capture branch: ticks may dispatch whenever the manager is neither suspended nor closed, which allows more runs than the program has.
- A build without joystick support is a joystick with no bindings.
- The order of handler calls within one key event: the program sorts them by id; here any order is allowed, so the results hold for each.
- Config transactions are the seven shapes the callers use, with the remaining settings as one string map; an empty config path, which skips the file, is not modelled.
- Files are values replaced at once by a save that may fail; JSON and temporary files are not modelled.
- Two flushes that share one temporary file could corrupt it; only the order of their renames is modelled.
- The own-transmission row's sender and radio name, which are looked up when the row is appended.
- Timers fire at any later step, also after a stop that came too late; how long a release tail lasts is not modelled.
- The keyboard key table is the program's; the platform tables behind it are not part of this model.
- Integer overflow of counters other than the ring's indices and the 24-bit sequence numbers.
- Effects' sound files and manifest; a lookup is a map.
- PressCount.Backend.OnPressed: models the counted path of hold actions and passes press-kind actions through; which consumer an action has is not modelled.
- Toml.RoundTrip: the decoder knows basic strings and arrays of them; comments, literal strings and multi-line strings are not read because nothing here writes them.
- Refresher.Queue.Drain: a job copies one field, standing for the state a refresh re-reads and applies.
- Joystick.Manager.TickOnce: starts at the dispatching half; the early returns of a poll and its capture branch are not in the method.
- PttChain.ChainNeverLosesAHold: takes a keyboard commit with its delivery, and counting with emission, as one step each; `DeliveryOrder` proves exactly when they may be taken apart.
- Held.HeldStream.Receive: the end of the stream, its error and the wait for the release are steps of the run machine, not of this method.
