/**
 * The script as it runs: its two globals, the timer helpers' closure and the
 * calls made on the game object, updated in place. Each method is proved to
 * leave the state that the corresponding function of module Script computes.
 */
module Host {

  import opened Wrappers
  import opened Gateway
  import opened Policy
  import opened Timers
  import opened Script

  class Session {
    /** `g != null`. */
    var gameLoaded: bool
    var autoWalkingTimerId: Option<nat>
    /** The calls made on `g` so far, with the sleeps. */
    var trace: seq<Action>
    const timers: Registry<Callback>

    ghost function State(): World
      reads this, timers
    {
      World(gameLoaded, autoWalkingTimerId, timers.Snapshot(), trace)
    }

    constructor ()
      ensures State() == Initial() && fresh(timers)
    {
      gameLoaded := false;
      autoWalkingTimerId := None;
      trace := [];
      timers := new Registry();
    }

    method StartAutoWalking()
      modifies this, timers
      ensures State() == Script.StartAutoWalking(old(State()))
    {
      var id := timers.SetInterval(WalkTick, WalkPeriod);
      autoWalkingTimerId := Some(id);
    }

    method StopAutoWalking() returns (thrown: Option<Error>)
      modifies this, timers
      ensures thrown == Thrown(Script.StopAutoWalking(old(State())))
      ensures State() == Settle(old(State()), Script.StopAutoWalking(old(State())))
    {
      var ok := false;
      if autoWalkingTimerId.Some? {
        ok := timers.ClearInterval(autoWalkingTimerId.value);
      }
      if !ok {
        return Some(MissingTimer(autoWalkingTimerId));
      }
      trace := trace + [Sleep(StopGrace)];
      thrown := None;
    }

    method OnGameLoaded()
      modifies this, timers
      ensures State() == Script.OnGameLoaded(old(State()))
    {
      gameLoaded := true;
      StartAutoWalking();
    }

    /** The shared tail of the three interrupting handlers. */
    method Interrupt(reaction: seq<Action>, resume: Callback) returns (thrown: Option<Error>)
      modifies this, timers
      ensures thrown == Thrown(Script.Interrupt(old(State()), reaction, resume))
      ensures State() == Settle(old(State()), Script.Interrupt(old(State()), reaction, resume))
    {
      thrown := StopAutoWalking();
      if thrown.Some? {
        return;
      }
      trace := trace + reaction;
      var _ := timers.SetTimeout(resume, ResumeDelay);
    }

    method OnCurioFound(id: int, name: string) returns (thrown: Option<Error>)
      modifies this, timers
      ensures thrown == Thrown(Script.OnCurioFound(old(State()), id, name))
      ensures State() == Settle(old(State()), Script.OnCurioFound(old(State()), id, name))
    {
      if !gameLoaded {
        return None;
      }
      thrown := Interrupt([PickItem(id)], CurioResume(name));
    }

    method OnCreatureFound(id: int, name: string) returns (thrown: Option<Error>)
      modifies this, timers
      ensures thrown == Thrown(Script.OnCreatureFound(old(State()), id, name))
      ensures State() == Settle(old(State()), Script.OnCreatureFound(old(State()), id, name))
    {
      if !gameLoaded {
        return None;
      }
      thrown := None;
      if IsAggr(name) {
        thrown := Interrupt([TravelToHearthFire], HearthResume);
      }
    }

    method OnPlayerFound(id: int, isKin: bool) returns (thrown: Option<Error>)
      modifies this, timers
      ensures thrown == Thrown(Script.OnPlayerFound(old(State()), id, isKin))
      ensures State() == Settle(old(State()), Script.OnPlayerFound(old(State()), id, isKin))
    {
      if !gameLoaded {
        return None;
      }
      thrown := None;
      if !isKin {
        thrown := Interrupt([TravelToHearthFire], HearthResume);
      }
    }

    /** The host timer runs task `id`; `pos` and `info` are the game object's answers. */
    method Fire(id: nat, pos: Coords, info: AttentionInfo)
      modifies this, timers
      ensures State() == Script.Fire(old(State()), id, pos, info)
    {
      var fn := timers.Run(id);
      match fn {
        case None =>
        case Some(WalkTick) =>
          trace := trace + [GetPlayerCoords];
          trace := trace + [GoTo(pos.x + StepSize, pos.y + StepSize)];
        case Some(CurioResume(name)) =>
          if name == "dandelion" {
            var mw := GetMentalWeight(name);
            trace := trace + [GetCharAttentionInfo];
            if HasRoomFor(info, mw) {
              trace := trace + [StudyCurio(name)];
            }
          }
          StartAutoWalking();
        case Some(HearthResume) =>
          StartAutoWalking();
      }
    }
  }
}
