/**
 The `stateManager` struct and its methods, as an object whose fields the
 methods update in place. Every method is proved to do what the matching
 function of module Registry specifies, and to keep the registry invariant
 and the hook-order invariant of module Lifecycle.

 Calls into the states are external: the model records each of them in the
 ghost field `trace`, and what a state's hook or Update/Draw returns is a
 parameter of the method that makes the call.
 */
module Manager {
  import opened Registry
  import Lifecycle

  class StateManager {
    var states: map<string, State>
    var keys: seq<string>
    var current: Option<State>
    /** Every call made into a state so far, oldest first. */
    ghost var trace: seq<Event>

    function Model(): Snapshot
      reads this
    {
      Snapshot(states, keys, current)
    }

    /** The registry invariant, and the trace so far is a well-ordered
        sequence of calls ending in the phase of the active state. */
    ghost predicate Valid()
      reads this
    {
      && Registry.Valid(Model())
      && Lifecycle.Replay(Lifecycle.Idle, trace) == Some(Lifecycle.PhaseOf(current))
    }

    /** `New`. */
    constructor ()
      ensures Valid()
      ensures Model() == Registry.New() && trace == []
    {
      states := map[];
      keys := [];
      current := None;
      trace := [];
    }

    method Add(s: State) returns (err: Status)
      requires Valid()
      modifies this
      ensures Valid()
      ensures var st := Registry.Add(old(Model()), s);
              Model() == st.after && err == st.status && trace == old(trace) + st.events
    {
      if s.id in states {
        return Err(DuplicateId);
      }
      Lifecycle.AddConforms(Model(), s);
      Lifecycle.Extend(trace, current, [], current);
      assert trace + [] == trace;
      states := states[s.id := s];
      keys := keys + [s.id];
      err := Ok;
    }

    /** `SetActive`. `onExit` and `onEnter` stand for what the two hooks
        return on this call; the method drops both. */
    method SetActive(id: string, onExit: Status, onEnter: Status) returns (err: Status)
      requires Valid()
      modifies this
      ensures Valid()
      ensures var st := Registry.SetActive(old(Model()), id);
              Model() == st.after && err == st.status && trace == old(trace) + st.events
    {
      if id in states {
        ghost var calls := Registry.SetActive(Model(), id).events;
        Lifecycle.SetActiveConforms(Model(), id);
        Lifecycle.Extend(trace, current, calls, Some(states[id]));
        ghost var expected := trace + calls;
        if current.Some? {
          trace := trace + [Exit(current.value)];
        }
        current := Some(states[id]);
        trace := trace + [Enter(current.value)];
        assert trace == expected;
        return Ok;
      }
      return Err(NotFound);
    }

    /** `Update`. `result` stands for what the active state's Update returns. */
    method Update(result: Status) returns (err: Status)
      requires Valid()
      modifies this
      ensures Valid()
      ensures var st := Registry.Update(old(Model()), result);
              Model() == st.after && err == st.status && trace == old(trace) + st.events
    {
      if current.None? {
        return Err(NoActive);
      }
      Lifecycle.UpdateConforms(Model(), result);
      Lifecycle.Extend(trace, current, [UpdateCalled(current.value)], current);
      trace := trace + [UpdateCalled(current.value)];
      err := result;
    }

    /** `Draw`. `result` stands for what the active state's Draw returns. */
    method Draw(screen: Surface, result: Status) returns (err: Status)
      requires Valid()
      requires current.Some?
      modifies this
      ensures Valid()
      ensures var st := Registry.Draw(old(Model()), screen, result);
              Model() == st.after && err == st.status && trace == old(trace) + st.events
    {
      Lifecycle.DrawConforms(Model(), screen, result);
      Lifecycle.Extend(trace, current, [DrawCalled(current.value, screen)], current);
      trace := trace + [DrawCalled(current.value, screen)];
      err := result;
    }

    /** `States`: the registered ids in registration order, as a value. */
    method States() returns (ids: seq<string>)
      requires Valid()
      ensures ids == keys
      ensures NoDuplicates(ids) && (forall id :: id in ids <==> id in states)
    {
      ids := keys;
    }
  }
}
