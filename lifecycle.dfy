/**
 The order in which the registry may call into its states.

 `Replay` runs a sequence of calls through a small automaton: a state must be
 entered while nothing is entered, left only while it is the entered one, and
 updated or drawn only between its entry and its exit. A trace that breaks
 these rules replays to `None`.
 */
module Lifecycle {
  import opened Registry

  datatype Phase = Idle | Active(state: State)

  /** The phase a registry with active state `current` is in. */
  function PhaseOf(current: Option<State>): Phase {
    match current
    case None => Idle
    case Some(s) => Active(s)
  }

  function Next(p: Phase, e: Event): Option<Phase> {
    match e
    case Enter(s) => if p == Idle then Some(Active(s)) else None
    case Exit(s) => if p == Active(s) then Some(Idle) else None
    case UpdateCalled(s) => if p == Active(s) then Some(p) else None
    case DrawCalled(s, _) => if p == Active(s) then Some(p) else None
  }

  function Replay(p: Phase, t: seq<Event>): Option<Phase>
    decreases |t|
  {
    if t == [] then Some(p)
    else
      match Next(p, t[0])
      case None => None
      case Some(q) => Replay(q, t[1..])
  }

  /** Replaying two traces one after the other is replaying their concatenation. */
  lemma {:induction false} ReplayAppend(p: Phase, a: seq<Event>, b: seq<Event>)
    ensures Replay(p, a + b) == match Replay(p, a) case None => None case Some(q) => Replay(q, b)
    decreases |a|
  {
    if a != [] {
      assert (a + b)[0] == a[0];
      assert (a + b)[1..] == a[1..] + b;
      match Next(p, a[0])
      case None =>
      case Some(q) => ReplayAppend(q, a[1..], b);
    } else {
      assert a + b == b;
    }
  }

  /** Extending a trace that ends in the phase of `before` with calls that
      lead from there to the phase of `after` gives a trace ending there. */
  lemma Extend(t: seq<Event>, before: Option<State>, events: seq<Event>, after: Option<State>)
    requires Replay(Idle, t) == Some(PhaseOf(before))
    requires Replay(PhaseOf(before), events) == Some(PhaseOf(after))
    ensures Replay(Idle, t + events) == Some(PhaseOf(after))
  {
    ReplayAppend(Idle, t, events);
  }

  /** Every registry operation calls into its states in an order the automaton
      accepts, and leaves it in the phase of the new active state. */
  lemma AddConforms(m: Snapshot, s: State)
    ensures Replay(PhaseOf(m.current), Add(m, s).events) == Some(PhaseOf(Add(m, s).after.current))
  {
  }

  lemma SetActiveConforms(m: Snapshot, id: string)
    ensures Replay(PhaseOf(m.current), SetActive(m, id).events) == Some(PhaseOf(SetActive(m, id).after.current))
  {
    var st := SetActive(m, id);
    if id in m.states && m.current.Some? {
      assert st.events == [Exit(m.current.value), Enter(m.states[id])];
      var entered := [Enter(m.states[id])];
      assert st.events[1..] == entered;
      assert entered[1..] == [];
      assert Replay(Idle, entered) == Some(Active(m.states[id]));
    }
  }

  lemma UpdateConforms(m: Snapshot, result: Status)
    ensures Replay(PhaseOf(m.current), Update(m, result).events) == Some(PhaseOf(Update(m, result).after.current))
  {
  }

  lemma DrawConforms(m: Snapshot, screen: Surface, result: Status)
    requires m.current.Some?
    ensures Replay(PhaseOf(m.current), Draw(m, screen, result).events) == Some(PhaseOf(Draw(m, screen, result).after.current))
  {
  }

  /** In a trace the automaton accepts from `Idle`, every entry happens while
      no state is entered: the state entered before, if any, has been left. */
  lemma {:induction false} EnterOnlyWhenIdle(t: seq<Event>, j: nat)
    requires Replay(Idle, t).Some?
    requires j < |t| && t[j].Enter?
    ensures Replay(Idle, t[..j]) == Some(Idle)
  {
    assert t == t[..j] + t[j..];
    ReplayAppend(Idle, t[..j], t[j..]);
    assert t[j..][0] == t[j];
  }

  /** ... and every update or draw reaches the state last entered and not yet left. */
  lemma {:induction false} DispatchOnlyToEntered(t: seq<Event>, j: nat)
    requires Replay(Idle, t).Some?
    requires j < |t| && (t[j].UpdateCalled? || t[j].DrawCalled?)
    ensures Replay(Idle, t[..j]) == Some(Active(t[j].state))
  {
    assert t == t[..j] + t[j..];
    ReplayAppend(Idle, t[..j], t[j..]);
    assert t[j..][0] == t[j];
  }

  /** `SetActive(b)` while `a` is active, where `a`'s OnExit itself calls
      `SetActive(c)` once and nothing else re-enters the registry: the inner
      call runs before the active state is reassigned, so it exits `a` a
      second time and enters `c`, and then the outer call enters `b` while
      `c` is still entered. The automaton rejects the calls made. */
  lemma ReentrantOnExitRejected(m: Snapshot, b: string, c: string)
    requires Valid(m) && m.current.Some? && b in m.states && c in m.states
    ensures var inner := SetActive(m, c);
            && inner.events == [Exit(m.current.value), Enter(m.states[c])]
            && Replay(PhaseOf(m.current), [Exit(m.current.value)] + inner.events + [Enter(m.states[b])]).None?
  {
  }
}
