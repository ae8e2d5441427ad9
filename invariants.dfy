/**
 * What holds across whole runs of the script. Events arrive in any order,
 * and the host timer may run any task that is still due at any point. As
 * long as the client calls `onGameLoaded` at most once, the script is, once
 * `onGameLoaded` has run, always either walking (exactly one live interval,
 * stored in `autoWalkingTimerId`, and no resume pending) or suspended (no
 * interval and exactly one resume pending). The throw in `clearTimeout` is what keeps
 * this: a second interrupt before the resume fires throws before it can
 * schedule a second resume.
 */
module Invariants {

  import opened Wrappers
  import opened Gateway
  import opened Policy
  import opened Timers
  import opened Script

  /** One thing that can happen to the script. */
  datatype Event =
    | GameLoaded
    | CurioFound(id: int, name: string)
    | CreatureFound(id: int, name: string)
    | PlayerFound(id: int, isKin: bool)
    | TimerFires(timerId: nat, pos: Coords, info: AttentionInfo)

  /** The script's state after one event; a handler that throws leaves the state as it was. */
  function Step(w: World, e: Event): (r: World)
    ensures r.gameLoaded == (w.gameLoaded || e.GameLoaded?)
  {
    match e
    case GameLoaded => OnGameLoaded(w)
    case CurioFound(id, name) => Settle(w, OnCurioFound(w, id, name))
    case CreatureFound(id, name) => Settle(w, OnCreatureFound(w, id, name))
    case PlayerFound(id, isKin) => Settle(w, OnPlayerFound(w, id, isKin))
    case TimerFires(id, pos, info) => Fire(w, id, pos, info)
  }

  function Run(w: World, events: seq<Event>): World
    decreases |events|
  {
    if events == [] then w else Run(Step(w, events[0]), events[1..])
  }

  /** How many times the client called `onGameLoaded`. */
  function Loads(events: seq<Event>): nat
    decreases |events|
  {
    if events == [] then 0 else (if events[0].GameLoaded? then 1 else 0) + Loads(events[1..])
  }

  /** The two kinds of entry the script registers: the walk interval and a resume. */
  ghost predicate WellShaped(task: Task<Callback>)
  {
    if task.repeating then task.fn == WalkTick && task.delay == WalkPeriod && !task.executed
    else task.fn != WalkTick && task.delay == ResumeDelay
  }

  /** `id` is the one task still due to run, and it is a one-shot resume. */
  ghost predicate OnlyPending(t: Table<Callback>, id: nat)
  {
    Live(t, id) && !t.ids[id].repeating && forall k :: k in t.ids && k != id ==> !Live(t, k)
  }

  /** Walking: the stored interval is in the table and nothing else is due to run. */
  ghost predicate Walking(w: World)
  {
    && w.autoWalkingTimerId.Some?
    && w.autoWalkingTimerId.value in w.timers.ids
    && w.timers.ids[w.autoWalkingTimerId.value].repeating
    && forall k :: k in w.timers.ids && k != w.autoWalkingTimerId.value ==> !Live(w.timers, k)
  }

  /** Suspended: the stored interval has been cleared and exactly one resume is due. */
  ghost predicate Suspended(w: World)
  {
    && w.autoWalkingTimerId.Some?
    && w.autoWalkingTimerId.value !in w.timers.ids
    && exists r :: OnlyPending(w.timers, r)
  }

  ghost predicate Coherent(w: World)
  {
    && Valid(w.timers)
    && (forall k :: k in w.timers.ids ==> WellShaped(w.timers.ids[k]))
    && if w.gameLoaded then Walking(w) || Suspended(w)
       else w.autoWalkingTimerId == None && w.timers.ids == map[]
  }

  lemma InitialCoherent()
    ensures Coherent(Initial())
  {
  }

  /** The first `onGameLoaded` starts the one walk interval. */
  lemma GameLoadedCoherent(w: World)
    requires Coherent(w) && !w.gameLoaded
    ensures Coherent(OnGameLoaded(w)) && Walking(OnGameLoaded(w))
  {
  }

  /** An interrupt from walking suspends; from suspended it throws. */
  lemma InterruptCoherent(w: World, r: Result<World>, reaction: seq<Action>, resume: Callback)
    requires Coherent(w) && w.gameLoaded && resume != WalkTick
    requires Interrupted(w, r, reaction, resume)
    ensures Walking(w) ==> r.Ok? && Suspended(r.value)
    ensures Suspended(w) ==> r.Err?
    ensures Coherent(Settle(w, r))
  {
    if Walking(w) {
      var w' := r.value;
      var c := w.timers.counter;
      forall k | k in w'.timers.ids && k != c
        ensures !Live(w'.timers, k)
      {
        assert k in w.timers.ids && k != w.autoWalkingTimerId.value;
      }
      assert OnlyPending(w'.timers, c);
    }
  }

  /** Handlers either change nothing or interrupt. */
  lemma HandlerCoherent(w: World, e: Event)
    requires Coherent(w) && !e.GameLoaded? && !e.TimerFires?
    ensures Coherent(Step(w, e))
  {
    match e
    case CurioFound(id, name) =>
      if w.gameLoaded { InterruptCoherent(w, OnCurioFound(w, id, name), [PickItem(id)], CurioResume(name)); }
    case CreatureFound(id, name) =>
      if w.gameLoaded && IsAggr(name) {
        InterruptCoherent(w, OnCreatureFound(w, id, name), [TravelToHearthFire], HearthResume);
      }
    case PlayerFound(id, isKin) =>
      if w.gameLoaded && !isKin {
        InterruptCoherent(w, OnPlayerFound(w, id, isKin), [TravelToHearthFire], HearthResume);
      }
  }

  /** A walk tick leaves the table alone; the pending resume firing restarts walking. */
  lemma FireCoherent(w: World, id: nat, pos: Coords, info: AttentionInfo)
    requires Coherent(w)
    ensures Coherent(Fire(w, id, pos, info))
    ensures Suspended(w) && Live(w.timers, id) ==> Walking(Fire(w, id, pos, info))
  {
    if Live(w.timers, id) {
      var w' := Fire(w, id, pos, info);
      if w.timers.ids[id].repeating {
        assert w'.timers == w.timers;
      } else {
        assert Suspended(w);
        var r :| OnlyPending(w.timers, r);
        assert r == id;
        var c := w.timers.counter;
        var taken := Take(w.timers, id).table;
        forall k | k in w'.timers.ids && k != c
          ensures !Live(w'.timers, k)
        {
          assert k in taken.ids && w'.timers.ids[k] == taken.ids[k];
          if k != id {
            assert !Live(w.timers, k);
          }
        }
        forall k | k in w'.timers.ids
          ensures WellShaped(w'.timers.ids[k])
        {
          if k != c {
            assert w'.timers.ids[k] == taken.ids[k];
            if k != id { assert taken.ids[k] == w.timers.ids[k]; }
          }
        }
      }
    }
  }

  lemma StepCoherent(w: World, e: Event)
    requires Coherent(w) && (e.GameLoaded? ==> !w.gameLoaded)
    ensures Coherent(Step(w, e))
  {
    match e
    case GameLoaded => GameLoadedCoherent(w);
    case TimerFires(id, pos, info) => FireCoherent(w, id, pos, info);
    case _ => HandlerCoherent(w, e);
  }

  /** Coherence survives any run in which `onGameLoaded` comes at most once. */
  lemma {:induction false} RunCoherent(w: World, events: seq<Event>)
    requires Coherent(w)
    requires Loads(events) <= if w.gameLoaded then 0 else 1
    ensures Coherent(Run(w, events))
    decreases |events|
  {
    if events != [] {
      StepCoherent(w, events[0]);
      RunCoherent(Step(w, events[0]), events[1..]);
    }
  }

  /** In a coherent state at most one interval is registered and at most one task is still due besides it. */
  lemma CoherentHasOneInterval(w: World)
    requires Coherent(w)
    ensures forall a, b ::
      (a in w.timers.ids && b in w.timers.ids && w.timers.ids[a].repeating && w.timers.ids[b].repeating) ==> a == b
    ensures forall a, b ::
      (Live(w.timers, a) && Live(w.timers, b) && !w.timers.ids[a].repeating && !w.timers.ids[b].repeating) ==> a == b
  {
    if w.gameLoaded && Suspended(w) {
      var r :| OnlyPending(w.timers, r);
    }
  }

  /**
   * Whatever the events and however the host timer interleaves, a script
   * whose `onGameLoaded` is called at most once never has two walk
   * intervals, nor two resumes pending.
   */
  lemma AtMostOneWalkInterval(events: seq<Event>)
    requires Loads(events) <= 1
    ensures Coherent(Run(Initial(), events))
    ensures var t := Run(Initial(), events).timers;
      forall a, b :: a in t.ids && b in t.ids && t.ids[a].repeating && t.ids[b].repeating ==> a == b
  {
    InitialCoherent();
    RunCoherent(Initial(), events);
    CoherentHasOneInterval(Run(Initial(), events));
  }

  /**
   * A second `onGameLoaded` while walking registers a new interval and
   * overwrites the stored id, leaving the old interval live beside it: the
   * state is then neither walking nor suspended.
   */
  lemma ReloadLeaksInterval(w: World)
    requires Coherent(w) && w.gameLoaded && Walking(w)
    ensures var a, r := w.autoWalkingTimerId.value, OnGameLoaded(w);
      && a != w.timers.counter
      && Live(r.timers, a) && r.timers.ids[a].repeating
      && Live(r.timers, w.timers.counter) && r.timers.ids[w.timers.counter].repeating
      && !Walking(r) && !Suspended(r) && !Coherent(r)
  {
    var a, r := w.autoWalkingTimerId.value, OnGameLoaded(w);
    assert a in r.timers.ids && a != w.timers.counter && r.timers.ids[a] == w.timers.ids[a];
    assert Live(r.timers, a);
  }

  /** Two loads from the initial state leave intervals 1 and 2 both running. */
  lemma ReloadFromStart()
    ensures var t := OnGameLoaded(OnGameLoaded(Initial())).timers;
      Live(t, 1) && Live(t, 2) && t.ids[1].repeating && t.ids[2].repeating
  {
  }

  /**
   * An interrupt that arrives while a resume is still pending throws in
   * `stopAutoWalking`: a creature or a non-kin player seen within the
   * cool-down does not send the character to the hearth fire.
   */
  lemma SecondInterruptThrows(w: World, id: int, name: string, isKin: bool)
    requires Coherent(w) && w.gameLoaded && Suspended(w)
    ensures OnCurioFound(w, id, name) == Err(MissingTimer(w.autoWalkingTimerId))
    ensures OnCreatureFound(w, id, name) == if IsAggr(name) then Err(MissingTimer(w.autoWalkingTimerId)) else Ok(w)
    ensures OnPlayerFound(w, id, isKin) == if isKin then Ok(w) else Err(MissingTimer(w.autoWalkingTimerId))
  {
  }

  /** Before `onGameLoaded` no event changes anything. */
  lemma {:induction false} QuietBeforeGameLoaded(w: World, events: seq<Event>)
    requires Coherent(w) && !w.gameLoaded && Loads(events) == 0
    ensures Run(w, events) == w
    decreases |events|
  {
    if events != [] {
      assert Step(w, events[0]) == w;
      QuietBeforeGameLoaded(w, events[1..]);
    }
  }

  /** The walk tick moves to the player's position read at that tick plus 50 on both axes. */
  lemma WalkTickScenario(pos: Coords, info: AttentionInfo)
    ensures Fire(OnGameLoaded(Initial()), 1, pos, info).trace == [GetPlayerCoords, GoTo(pos.x + 50, pos.y + 50)]
  {
  }

  /**
   * A dandelion is studied on resume exactly when `max - used >= 1`: with
   * `{max: 10, used: 9}` it is, with `{max: 10, used: 10}` it is not;
   * walking restarts either way.
   */
  lemma CurioResumeBoundary(id: int)
    ensures var w := OnCurioFound(OnGameLoaded(Initial()), id, "dandelion").value;
      && Fire(w, 2, Coords(0, 0), AttentionInfo(10, 9)).trace
         == [Sleep(2000), PickItem(id), GetCharAttentionInfo, StudyCurio("dandelion")]
      && Fire(w, 2, Coords(0, 0), AttentionInfo(10, 10)).trace
         == [Sleep(2000), PickItem(id), GetCharAttentionInfo]
      && Walking(Fire(w, 2, Coords(0, 0), AttentionInfo(10, 9)))
      && Walking(Fire(w, 2, Coords(0, 0), AttentionInfo(10, 10)))
  {
  }
}
