# Autowalk automation script, modelled in Dafny

The modelled repository is a small script for a scriptable game client. Once the game is loaded it
walks the character diagonally, one `goTo(x + 50, y + 50)` per second. It also reacts to world
events. A forageable curio is picked up; after a 10 s cool-down it is studied (only a dandelion,
and only when enough attention is free) and walking resumes. An aggressive animal or a non-kin
player sends the character to its hearth fire, and walking resumes 10 s later. Scheduling goes
through four JavaScript helpers, `setTimeout`, `setInterval`, `clearTimeout` and `clearInterval`.
They wrap a host timer in a closure with a `counter` (starting at 1) and an `ids` table from id to
task.

Modules:

- `Wrappers`: an Option type for JavaScript's `null`/`undefined`.
- `Gateway`: the game object `g`, treated as an external collaborator. Its calls, and the
  blocking `sleep(2000)`, are recorded in order in a trace. Its answers (player coordinates,
  attention info) are supplied from outside.
- `Policy`: `isAggr`, `getMentalWeight` and the free-attention test, as pure functions.
- `Timers`: the helpers' closure as a value (`Table`), with one function per helper, a `Take`
  function for the host timer running a task, and class `Registry`. The class is the closure
  updated in place, and each of its methods is proved to produce the function's result. The lemma
  `IdsNeverReused` covers any sequence of helper calls.
- `Script`: every script function as a function over the script's whole state `World`. That state
  is `g != null`, `autoWalkingTimerId`, the timer closure and the trace. A handler returns `Err`
  when `stopAutoWalking` throws.
- `Host`: class `Session`, the running script with its globals, a `Registry` and the trace, updated
  in place. Each method is proved to leave exactly the state the `Script` function computes.
- `Invariants`: a `Step`/`Run` semantics over arbitrary event sequences, in which the host timer
  may run any due task at any time. It holds the coherence invariant and the run-level lemmas.

Behaviour of the code that the model keeps:

- `clearTimeout(id)` calls `ids[id].cancel()` without checking that the entry exists, so it throws
  for an absent id, and for `null` too. `stopAutoWalking` never resets `autoWalkingTimerId`. So an
  interrupt that arrives while a resume is still pending throws before it has any effect
  (`SecondInterruptThrows`). One consequence: an aggressive animal seen within 10 s of a curio
  pick-up does not send the character home. A cleaner design would make cancelling an
  already-cancelled handle a no-op, and would merge several quick interrupts into one resume timed
  from the latest. The code does neither. The model follows the code.
- For the same reason, interrupts never stack resumes. `AtMostOneWalkInterval` proves that in every
  run where `onGameLoaded` is called at most once, there is at most one walk interval at any time,
  and, once `onGameLoaded` has run, either it is live or exactly one resume is pending. Nothing in `startAutoWalking` enforces
  this: a second `onGameLoaded` while walking leaves two intervals running (`ReloadLeaksInterval`).
- A fired one-shot task stays in `ids`, marked as run, and is never removed. Only `clearTimeout`
  removes entries.
- `freeAttention >= mw` is false in JavaScript when `mw` is `undefined`, so `HasRoomFor` is false
  for an unknown curio.

## Model

| member | source | states |
|---|---|---|
| Policy.IsAggr | script.js:457-459 | true exactly for badger, lynx, bat, bear and boar |
| Policy.GetMentalWeight | script.js:465-471 | defined (weight 1) exactly for `dandelion`, undefined for every other curio name |
| Policy.HasRoomFor | script.js:334-336 | with a defined weight, true iff `used + weight <= max`; an undefined weight never has room |
| Timers.Insert | script.js:506-509 | returns the current counter and advances it by one; adds exactly that one key, which was not present in a valid table, and leaves every other entry unchanged |
| Timers.AddTimeout | script.js:505-510 | `setTimeout`: new one-shot, not-yet-run task under id `counter`, counter + 1, other entries unchanged |
| Timers.AddInterval | script.js:518-523 | `setInterval`: new repeating task under id `counter`, counter + 1, other entries unchanged |
| Timers.Remove | script.js:512-516 | `clearTimeout`/`clearInterval`: throws iff the id is absent; otherwise removes exactly that key and keeps the counter and all other entries |
| Timers.Take | script.js:507-508 | the host timer runs a task iff it is present and repeating or not yet run; a one-shot is then only marked as run and stays in the table with its callback and delay; counter, keys and other entries are unchanged |
| Timers.IdsNeverReused | script.js:502-523 | over any sequence of helper calls, the i-th id issued is `counter + i`: ids are shared by both kinds of task, distinct, never present before, and only the `set...` helpers advance the counter |
| Timers.IdsStartAtOne | script.js:502-506 | from the initial closure the issued ids are 1, 2, 3, ... |
| Timers.ClearTwiceThrows | script.js:512-516 | clearing an id a second time throws |
| Timers.Registry.constructor | script.js:500-503 | the closure starts with `counter = 1` and an empty table |
| Timers.Registry.SetTimeout | script.js:505-510 | in place, leaves the table and returns the id that `AddTimeout` gives |
| Timers.Registry.SetInterval | script.js:518-523 | in place, leaves the table and returns the id that `AddInterval` gives |
| Timers.Registry.ClearTimeout | script.js:512-516 | in place, acts as `Remove`; reports the throw on an absent id and then changes nothing |
| Timers.Registry.ClearInterval | script.js:525 | the same operation as `ClearTimeout`, with the same contract |
| Timers.Registry.Run | script.js:507-508 | in place, acts as `Take` |
| Script.StartAutoWalking | script.js:438-443 | adds exactly one repeating 1000 ms walk task under the next id and stores that id; every earlier entry, including an earlier interval, is kept |
| Script.StopAutoWalking | script.js:446-451 | succeeds iff the stored id is non-null and present; then removes exactly that entry and records the 2000 ms sleep; otherwise throws with that id |
| Script.OnGameLoaded | script.js:79-86 | sets `g`, registers the walk interval under the current counter, advances the counter by one, records nothing |
| Script.OnCurioFound | script.js:320-345 | no-op while `g` is null; otherwise either throws with no effect, or removes the walk interval, records sleep then `pickItem(id)`, and adds one 10000 ms curio resume |
| Script.OnCreatureFound | script.js:354-370 | no-op while `g` is null or the animal is not aggressive; otherwise stops, `travelToHearthFire` once, one 10000 ms resume, or throws with no effect |
| Script.OnPlayerFound | script.js:379-395 | no-op while `g` is null or the player is kin; otherwise as for an aggressive animal |
| Script.Fire | script.js:330-344 | a task that is not due changes nothing; a walk tick records `getPlayerCoords` then `goTo(x + 50, y + 50)`, and the table is unchanged, so the interval keeps repeating; a curio resume queries attention only for a dandelion and studies it iff `max - used >= 1`; a fired resume is marked as run, every other entry keeps its value, and one new walk interval is registered and its id stored; the same holds for the hearth resumes (lines 365-368 and 390-393) and the walk tick (lines 439-442) |
| Host.Session.constructor | script.js:36-41 | `g` and `autoWalkingTimerId` start null, the closure starts empty, nothing is recorded |
| Host.Session.StartAutoWalking | script.js:438-443 | in place, the state `Script.StartAutoWalking` gives |
| Host.Session.StopAutoWalking | script.js:446-451 | in place, the state and outcome `Script.StopAutoWalking` gives, unchanged on a throw |
| Host.Session.OnGameLoaded | script.js:79-86 | in place, the state `Script.OnGameLoaded` gives |
| Host.Session.OnCurioFound | script.js:320-345 | in place, the state and outcome `Script.OnCurioFound` gives |
| Host.Session.OnCreatureFound | script.js:354-370 | in place, the state and outcome `Script.OnCreatureFound` gives |
| Host.Session.OnPlayerFound | script.js:379-395 | in place, the state and outcome `Script.OnPlayerFound` gives |
| Host.Session.Fire | script.js:439-442 | in place, the state `Script.Fire` gives, for the walk tick and for the curio and hearth resumes (lines 330-344, 365-368 and 390-393) |
| Invariants.Step | script.js:82 | `g` becomes non-null only through `onGameLoaded` and never returns to null |
| Invariants.InitialCoherent | script.js:36-41 | the initial state is coherent |
| Invariants.GameLoadedCoherent | script.js:79-86 | the first `onGameLoaded` leaves the script walking |
| Invariants.InterruptCoherent | script.js:327-330 | an interrupt while walking suspends with exactly one pending resume; while suspended it throws |
| Invariants.HandlerCoherent | script.js:320-395 | every event handler preserves coherence |
| Invariants.FireCoherent | script.js:439-443 | any task firing preserves coherence; the pending resume firing returns the script to walking |
| Invariants.StepCoherent | script.js:320-451 | every event preserves coherence, provided `onGameLoaded` comes only while `g` is null |
| Invariants.RunCoherent | script.js:320-451 | coherence holds after any event sequence with at most one `onGameLoaded` |
| Invariants.CoherentHasOneInterval | script.js:438-451 | a coherent state has at most one interval in the table and at most one one-shot task still due |
| Invariants.AtMostOneWalkInterval | script.js:438-451 | from the initial state, after any events with at most one `onGameLoaded`, at most one walk interval exists |
| Invariants.ReloadLeaksInterval | script.js:438-443 | from any walking state, a further `onGameLoaded` keeps the old interval live beside the new one, and the state is no longer coherent |
| Invariants.ReloadFromStart | script.js:79-86 | two `onGameLoaded` calls from the initial state leave intervals 1 and 2 both live and repeating |
| Invariants.SecondInterruptThrows | script.js:446-451 | while suspended, a curio, an aggressive animal or a non-kin player makes the handler throw; other events are no-ops |
| Invariants.QuietBeforeGameLoaded | script.js:320-323 | before `onGameLoaded`, no sequence of events changes anything |
| Invariants.WalkTickScenario | script.js:439-442 | the first tick after loading records `getPlayerCoords` and `goTo(x + 50, y + 50)` for the position read |
| Invariants.CurioResumeBoundary | script.js:330-344 | with `{max: 10, used: 9}` the dandelion is studied, with `{max: 10, used: 10}` it is not; walking resumes in both cases |

## Left out

- `onLogin` and `onCharSelect` return hard-coded credentials and a character name; they have no state.
- `onFlowerMenuOpen`, `onUserInput`, `onChatMessage` and `onMapObjectHighlight` have empty bodies.
- The long comment that documents the game object's API is documentation of the client, not code.
- `print` (standard output) is not modelled. `sleep` is recorded as a `Sleep(2000)` trace step and does not block.
- The host timer (`java.util.Timer`, `JavaAdapter`, `cancel`, `purge`) and wall-clock time: a task runs
  only when `Fire` is called for it. Delays and periods are recorded in each entry but do not
  constrain the order in which tasks run, so the model allows every interleaving.
- Concurrency between the timer thread and event delivery is not modelled; each event and each
  task run is atomic. The source has no locking.
- What the game does with `goTo`, `pickItem`, `travelToHearthFire` and `studyCurio` (pathfinding,
  success or failure) is not modelled; these calls are trace entries only. Their return values are ignored by the script.
- Policy.GetMentalWeight: names inherited from `Object.prototype` (`toString`, `constructor`, `__proto__`, ...) are modelled as undefined, although `mws[curioName]` yields an inherited value for them; the script only ever looks up `'dandelion'`, and a comparison against such a value is false, as for undefined.
- JavaScript numbers are modelled as unbounded integers: coordinates, attention values and the id
  counter (no floating point, no loss of precision past 2^53).
- An exception thrown by an event handler is assumed to end that handler only. The model keeps the
  state as it was when the throw happened, and the script goes on receiving events. What the client does with the exception is not part of this model.
- A walk tick that runs while `g` is null would throw in the source. No run reaches it, because
  intervals exist only after `onGameLoaded`, so `Script.Fire` does not check `g`.
