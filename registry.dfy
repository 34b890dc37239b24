/**
 The value-level specification of the state registry of package statemanager.

 A `Snapshot` is the content of the three fields of a `stateManager`: the map
 from id to registered state, the list of ids in registration order and the
 active state, if any. Each registry operation is a function from a snapshot
 (and its arguments) to a `Step`: the snapshot afterwards, the error value the
 operation returns, and the calls it makes into the states (their hooks and
 their Update/Draw), in the order it makes them.
 */
module Registry {

  datatype Option<T> = None | Some(value: T)

  /** A caller-supplied game state, as far as the registry can observe it: the
      identity of the object (`handle`) and the id its `ID()` method reports. */
  datatype State = State(handle: nat, id: string)

  /** The host's drawing surface; the registry only passes it on. */
  datatype Surface = Surface(handle: nat)

  /** The registry's own failures, and a failure reported by a state. */
  datatype Error = DuplicateId | NotFound | NoActive | Reported(code: nat)

  /** An `error` result: `Ok` stands for nil. */
  datatype Status = Ok | Err(error: Error)

  /** A call the registry makes into one of its states. */
  datatype Event =
    | Enter(state: State)
    | Exit(state: State)
    | UpdateCalled(state: State)
    | DrawCalled(state: State, screen: Surface)

  datatype Snapshot = Snapshot(states: map<string, State>, keys: seq<string>, current: Option<State>)

  datatype Step = Step(after: Snapshot, status: Status, events: seq<Event>)

  predicate NoDuplicates(s: seq<string>) {
    forall i, j :: 0 <= i < j < |s| ==> s[i] != s[j]
  }

  /** `s` is stored in the registry, under its own id. */
  predicate Registered(m: Snapshot, s: State) {
    s.id in m.states && m.states[s.id] == s
  }

  /** The registry invariant: the key list has no duplicates and holds exactly
      the ids of the map, every state is stored under its own id, and the
      active state, if any, is a registered one. */
  ghost predicate Valid(m: Snapshot) {
    && NoDuplicates(m.keys)
    && (forall id :: id in m.keys <==> id in m.states)
    && (forall id :: id in m.states ==> m.states[id].id == id)
    && (m.current.Some? ==> Registered(m, m.current.value))
  }

  /** The registry `New` creates. */
  function New(): (m: Snapshot)
    ensures Valid(m)
    ensures |m.keys| == 0 && |m.states| == 0 && m.current.None?
  {
    Snapshot(map[], [], None)
  }

  /** `Add`: register `s` under `s.ID()` unless that id is taken. */
  function Add(m: Snapshot, s: State): (st: Step)
    ensures st.status == Ok <==> s.id !in m.states
    ensures st.status != Ok ==> st.status == Err(DuplicateId) && st.after == m
    ensures st.status == Ok ==>
              && st.after.keys == m.keys + [s.id]
              && st.after.states == m.states[s.id := s]
    ensures st.after.current == m.current
    ensures st.events == []
    ensures Valid(m) ==> Valid(st.after)
  {
    if s.id in m.states then
      Step(m, Err(DuplicateId), [])
    else
      Step(Snapshot(m.states[s.id := s], m.keys + [s.id], m.current), Ok, [])
  }

  /** `SetActive`: leave the active state (if any), make the state registered
      under `id` the active one and enter it. What `OnExit` and `OnEnter`
      return plays no part in the result. */
  function SetActive(m: Snapshot, id: string): (st: Step)
    ensures st.status == Ok <==> id in m.states
    ensures st.status != Ok ==> st.status == Err(NotFound) && st.after == m && st.events == []
    ensures st.after.states == m.states && st.after.keys == m.keys
    ensures st.status == Ok ==>
              && st.after.current == Some(m.states[id])
              && |st.events| == (if m.current.Some? then 2 else 1)
              && st.events[|st.events| - 1] == Enter(m.states[id])
              && (m.current.Some? ==> st.events[0] == Exit(m.current.value))
    ensures Valid(m) ==> Valid(st.after)
    ensures Valid(m) && st.status == Ok ==> st.after.current.value.id == id
  {
    if id in m.states then
      var exits := if m.current.Some? then [Exit(m.current.value)] else [];
      Step(m.(current := Some(m.states[id])), Ok, exits + [Enter(m.states[id])])
    else
      Step(m, Err(NotFound), [])
  }

  /** `Update`: with no active state, fail before dispatching; otherwise
      call the active state's Update once, which returns `result`, and pass
      that result on. */
  function Update(m: Snapshot, result: Status): (st: Step)
    ensures st.after == m
    ensures m.current.None? ==> st.status == Err(NoActive) && st.events == []
    ensures m.current.Some? ==> st.status == result && st.events == [UpdateCalled(m.current.value)]
  {
    match m.current
    case None => Step(m, Err(NoActive), [])
    case Some(s) => Step(m, result, [UpdateCalled(s)])
  }

  /** `Draw`: call the active state's Draw once on `screen`, which returns
      `result`, and pass that result on. There is no guard: the source
      dereferences the active state unconditionally. */
  function Draw(m: Snapshot, screen: Surface, result: Status): (st: Step)
    requires m.current.Some?
    ensures st.after == m
    ensures st.status == result
    ensures st.events == [DrawCalled(m.current.value, screen)]
  {
    Step(m, result, [DrawCalled(m.current.value, screen)])
  }

  /** `States`: the registered ids, in registration order. */
  function States(m: Snapshot): (ids: seq<string>)
    ensures Valid(m) ==> NoDuplicates(ids) && (forall id :: id in ids <==> id in m.states)
  {
    m.keys
  }

  /** In a valid registry, `States` lists as many ids as there are registered states. */
  lemma StatesCount(m: Snapshot)
    requires Valid(m)
    ensures |States(m)| == |m.states|
  {
    assert m.states.Keys == Elements(m.keys);
    DistinctCount(m.keys);
  }

  ghost function Elements(s: seq<string>): set<string> {
    set x | x in s
  }

  /** A list without duplicates has as many elements as the set of them. */
  lemma {:induction false} DistinctCount(s: seq<string>)
    requires NoDuplicates(s)
    ensures |Elements(s)| == |s|
  {
    if s != [] {
      var t := s[1..];
      assert NoDuplicates(t) by {
        forall i, j | 0 <= i < j < |t| ensures t[i] != t[j] {
          assert t[i] == s[i + 1] && t[j] == s[j + 1];
        }
      }
      DistinctCount(t);
      assert Elements(s) == {s[0]} + Elements(t);
      assert s[0] !in Elements(t);
    }
  }
}
