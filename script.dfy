/**
 * The script's own logic as functions over its whole state: the two globals
 * `g` and `autoWalkingTimerId`, the timer helpers' closure, and the trace of
 * calls made on the game object. An event handler that throws (because
 * `stopAutoWalking` clears an id that is no longer in the table) returns Err
 * and has changed nothing: the throw happens before any other effect.
 */
module Script {

  import opened Wrappers
  import opened Gateway
  import opened Policy
  import opened Timers

  /** Autowalk period passed to `setInterval`. */
  const WalkPeriod: nat := 1000
  /** Delay of every resume passed to `setTimeout`. */
  const ResumeDelay: nat := 10000
  /** The `sleep` in `stopAutoWalking`. */
  const StopGrace: nat := 2000
  /** How far each autowalk tick moves along both axes. */
  const StepSize: int := 50

  /** The three function literals the script hands to the timer helpers. */
  datatype Callback =
    | WalkTick                   // the body of the interval in `startAutoWalking`
    | CurioResume(name: string)  // the timeout in `onCurioFound`, closing over `name`
    | HearthResume               // the timeout in `onCreatureFound` and `onPlayerFound`

  /** The TypeError thrown by `ids[id].cancel()` when `ids` has no entry for `id` (None: `null`). */
  datatype Error = MissingTimer(id: Option<nat>)

  datatype Result<V> = Ok(value: V) | Err(error: Error)

  /**
   * Everything the script's functions read or write. `gameLoaded` stands for
   * `g != null`.
   */
  datatype World = World(
    gameLoaded: bool,
    autoWalkingTimerId: Option<nat>,
    timers: Table<Callback>,
    trace: seq<Action>)

  /** The state when the script has been loaded and no event has arrived. */
  function Initial(): World
  {
    World(false, None, Init(), [])
  }

  /** The error a handler threw, if any. */
  function Thrown(r: Result<World>): Option<Error>
  {
    if r.Ok? then None else Some(r.error)
  }

  /** The state after a handler: unchanged when it threw. */
  function Settle(w: World, r: Result<World>): World
  {
    if r.Ok? then r.value else w
  }

  /** `clearInterval(autoWalkingTimerId)` finds an entry to cancel. */
  predicate WalkTimerPresent(w: World)
  {
    w.autoWalkingTimerId.Some? && w.autoWalkingTimerId.value in w.timers.ids
  }

  /** The one-shot resume task every interrupt schedules. */
  function ResumeTask(resume: Callback): Task<Callback>
  {
    Task(resume, ResumeDelay, false, false)
  }

  /**
   * `startAutoWalking()`: registers one more 1000 ms interval and stores its
   * id, overwriting the old id without clearing the old interval.
   */
  function StartAutoWalking(w: World): (r: World)
    ensures r.autoWalkingTimerId == Some(w.timers.counter)
    ensures r.timers.counter == w.timers.counter + 1
    ensures r.timers.ids == w.timers.ids[w.timers.counter := Task(WalkTick, WalkPeriod, true, false)]
    ensures Live(r.timers, w.timers.counter)
    ensures Valid(w.timers) ==> Valid(r.timers) && w.timers.counter !in w.timers.ids
    ensures Valid(w.timers) ==> forall k :: k in w.timers.ids ==> k in r.timers.ids && r.timers.ids[k] == w.timers.ids[k]
    ensures r.gameLoaded == w.gameLoaded && r.trace == w.trace
  {
    var s := AddInterval(w.timers, WalkTick, WalkPeriod);
    w.(autoWalkingTimerId := Some(s.id), timers := s.table)
  }

  /**
   * `stopAutoWalking()`: clears the stored id and sleeps 2000 ms. The stored
   * id itself is not reset. It throws when the stored id is `null` or was
   * already cleared.
   */
  function StopAutoWalking(w: World): (r: Result<World>)
    ensures r.Ok? <==> WalkTimerPresent(w)
    ensures r.Err? ==> r.error == MissingTimer(w.autoWalkingTimerId)
    ensures r.Ok? ==> r.value.timers == w.timers.(ids := w.timers.ids - {w.autoWalkingTimerId.value})
    ensures r.Ok? ==> r.value.trace == w.trace + [Sleep(StopGrace)]
    ensures r.Ok? ==> r.value.gameLoaded == w.gameLoaded && r.value.autoWalkingTimerId == w.autoWalkingTimerId
  {
    var cleared := if w.autoWalkingTimerId.Some? then Remove(w.timers, w.autoWalkingTimerId.value) else None;
    match cleared
    case None => Err(MissingTimer(w.autoWalkingTimerId))
    case Some(t) => Ok(w.(timers := t, trace := w.trace + [Sleep(StopGrace)]))
  }

  /** `onGameLoaded(game)`: sets `g`, then starts autowalking. */
  function OnGameLoaded(w: World): (r: World)
    ensures r.gameLoaded && r.trace == w.trace
    ensures r.autoWalkingTimerId == Some(w.timers.counter)
    ensures r.timers.counter == w.timers.counter + 1
    ensures r.timers.ids == w.timers.ids[w.timers.counter := Task(WalkTick, WalkPeriod, true, false)]
  {
    StartAutoWalking(w.(gameLoaded := true))
  }

  /**
   * What every interrupting handler does: `stopAutoWalking()`, then its own
   * calls on the game object, then one `setTimeout(resume, 10000)`.
   */
  function Interrupt(w: World, reaction: seq<Action>, resume: Callback): Result<World>
  {
    match StopAutoWalking(w)
    case Err(e) => Err(e)
    case Ok(stopped) =>
      var s := AddTimeout(stopped.timers, resume, ResumeDelay);
      Ok(stopped.(timers := s.table, trace := stopped.trace + reaction))
  }

  /**
   * The net effect of an interrupt: it throws and changes nothing when the
   * walk interval is not in the table; otherwise the walk interval is gone,
   * one resume is registered under the next id, the trace grows by the sleep
   * followed by the reaction, and both globals keep their values.
   */
  ghost predicate Interrupted(w: World, r: Result<World>, reaction: seq<Action>, resume: Callback)
  {
    if WalkTimerPresent(w) then
      r == Ok(World(w.gameLoaded, w.autoWalkingTimerId,
                    Table(w.timers.counter + 1,
                          (w.timers.ids - {w.autoWalkingTimerId.value})[w.timers.counter := ResumeTask(resume)]),
                    w.trace + [Sleep(StopGrace)] + reaction))
    else
      r == Err(MissingTimer(w.autoWalkingTimerId))
  }

  /** `onCurioFound(id, name, coords)`: always interrupts once `g` is set, and picks the curio. */
  function OnCurioFound(w: World, id: int, name: string): (r: Result<World>)
    ensures !w.gameLoaded ==> r == Ok(w)
    ensures w.gameLoaded ==> Interrupted(w, r, [PickItem(id)], CurioResume(name))
  {
    if !w.gameLoaded then Ok(w)
    else Interrupt(w, [PickItem(id)], CurioResume(name))
  }

  /** `onCreatureFound(id, name, coords)`: flees to the hearth fire from aggressive animals only. */
  function OnCreatureFound(w: World, id: int, name: string): (r: Result<World>)
    ensures !w.gameLoaded || !IsAggr(name) ==> r == Ok(w)
    ensures w.gameLoaded && IsAggr(name) ==> Interrupted(w, r, [TravelToHearthFire], HearthResume)
  {
    if !w.gameLoaded then Ok(w)
    else if IsAggr(name) then Interrupt(w, [TravelToHearthFire], HearthResume)
    else Ok(w)
  }

  /** `onPlayerFound(id, isKin, coords)`: flees to the hearth fire from non-kin players only. */
  function OnPlayerFound(w: World, id: int, isKin: bool): (r: Result<World>)
    ensures !w.gameLoaded || isKin ==> r == Ok(w)
    ensures w.gameLoaded && !isKin ==> Interrupted(w, r, [TravelToHearthFire], HearthResume)
  {
    if !w.gameLoaded then Ok(w)
    else if !isKin then Interrupt(w, [TravelToHearthFire], HearthResume)
    else Ok(w)
  }

  /** The calls the curio resume makes before restarting the walk. */
  function StudyCalls(name: string, info: AttentionInfo): seq<Action>
  {
    if name == "dandelion" then
      [GetCharAttentionInfo] + (if HasRoomFor(info, GetMentalWeight(name)) then [StudyCurio(name)] else [])
    else []
  }

  /** Runs one callback; `pos` and `info` are what the game object answers if asked. */
  function RunCallback(w: World, fn: Callback, pos: Coords, info: AttentionInfo): World
  {
    match fn
    case WalkTick =>
      w.(trace := w.trace + [GetPlayerCoords, GoTo(pos.x + StepSize, pos.y + StepSize)])
    case CurioResume(name) =>
      StartAutoWalking(w.(trace := w.trace + StudyCalls(name, info)))
    case HearthResume =>
      StartAutoWalking(w)
  }

  /**
   * Time passes until the host timer runs task `id`. A walk tick reads the
   * player's position `pos` and walks to `(x + 50, y + 50)`. A curio resume
   * studies a dandelion when `max - used >= 1`, then restarts walking; a
   * hearth resume only restarts walking. A task that is not due changes nothing.
   */
  function Fire(w: World, id: nat, pos: Coords, info: AttentionInfo): (r: World)
    ensures !Live(w.timers, id) ==> r == w
    ensures Live(w.timers, id) && w.timers.ids[id].fn == WalkTick ==>
      r.trace == w.trace + [GetPlayerCoords, GoTo(pos.x + 50, pos.y + 50)]
      && r.autoWalkingTimerId == w.autoWalkingTimerId && r.timers.counter == w.timers.counter
    ensures Live(w.timers, id) && w.timers.ids[id].fn.CurioResume? ==>
      var name := w.timers.ids[id].fn.name;
      r.trace == w.trace + (if name == "dandelion" then [GetCharAttentionInfo] else [])
                         + (if name == "dandelion" && info.max - info.used >= 1 then [StudyCurio(name)] else [])
    ensures Live(w.timers, id) && w.timers.ids[id].fn == HearthResume ==> r.trace == w.trace
    ensures Live(w.timers, id) && w.timers.ids[id].fn != WalkTick ==>
      r.autoWalkingTimerId == Some(w.timers.counter)
      && r.timers.counter == w.timers.counter + 1
      && w.timers.counter in r.timers.ids && r.timers.ids[w.timers.counter] == Task(WalkTick, WalkPeriod, true, false)
    ensures Live(w.timers, id) ==>
      var task := w.timers.ids[id];
      var taken := if task.repeating then w.timers.ids else w.timers.ids[id := task.(executed := true)];
      r.timers.ids == if task.fn == WalkTick then taken
                      else taken[w.timers.counter := Task(WalkTick, WalkPeriod, true, false)]
    ensures Live(w.timers, id) && w.timers.ids[id].repeating && w.timers.ids[id].fn == WalkTick ==>
      r.timers == w.timers
    ensures r.gameLoaded == w.gameLoaded
    ensures forall k :: k in w.timers.ids ==> k in r.timers.ids
  {
    var fired := Take(w.timers, id);
    match fired.fn
    case None => w
    case Some(fn) => RunCallback(w.(timers := fired.table), fn, pos, info)
  }
}
