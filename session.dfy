/**
 A game session: any sequence of calls the host makes on one registry, and
 what holds of every such sequence.
 */
module Session {
  import opened Registry
  import opened Lifecycle

  /** One call the host makes on the registry; `result` is what the active
      state's Update or Draw returns on that call. */
  datatype Op =
    | AddOp(state: State)
    | SetActiveOp(id: string)
    | UpdateOp(result: Status)
    | DrawOp(screen: Surface, result: Status)

  /** The call can be made: Draw only while a state is active (otherwise the
      source dereferences an absent state and the program panics). */
  predicate Allowed(m: Snapshot, op: Op) {
    op.DrawOp? ==> m.current.Some?
  }

  function Exec(m: Snapshot, op: Op): Step
    requires Allowed(m, op)
  {
    match op
    case AddOp(s) => Add(m, s)
    case SetActiveOp(id) => SetActive(m, id)
    case UpdateOp(r) => Update(m, r)
    case DrawOp(screen, r) => Draw(m, screen, r)
  }

  datatype Outcome = Outcome(after: Snapshot, statuses: seq<Status>, events: seq<Event>)

  function Last<T>(s: seq<T>): T
    requires s != []
  {
    s[|s| - 1]
  }

  function Init<T>(s: seq<T>): seq<T>
    requires s != []
  {
    s[..|s| - 1]
  }

  /** Make the calls `ops` in turn, starting from `m`: the registry at the
      end, what each call returned, and every call made into a state; `None`
      when some call is a Draw with nothing active, where the program panics. */
  function Run(m: Snapshot, ops: seq<Op>): (o: Option<Outcome>)
    ensures o.Some? ==> |o.value.statuses| == |ops|
    decreases |ops|
  {
    if ops == [] then Some(Outcome(m, [], []))
    else
      match Run(m, Init(ops))
      case None => None
      case Some(before) =>
        if Allowed(before.after, Last(ops)) then
          var st := Exec(before.after, Last(ops));
          Some(Outcome(st.after, before.statuses + [st.status], before.events + st.events))
        else
          None
  }

  /** One more call at the end of a session. */
  lemma RunSnoc(m: Snapshot, ops: seq<Op>, op: Op)
    requires Run(m, ops).Some? && Allowed(Run(m, ops).value.after, op)
    ensures var before := Run(m, ops).value;
            var st := Exec(before.after, op);
            Run(m, ops + [op]) == Some(Outcome(st.after, before.statuses + [st.status], before.events + st.events))
  {
    assert Init(ops + [op]) == ops;
  }

  /** A session without Draw calls never panics. */
  lemma {:induction false} RunWithoutDraw(m: Snapshot, ops: seq<Op>)
    requires forall i :: 0 <= i < |ops| ==> !ops[i].DrawOp?
    ensures Run(m, ops).Some?
    decreases |ops|
  {
    if ops != [] {
      RunWithoutDraw(m, Init(ops));
    }
  }

  /** The registry invariant holds after every session. */
  lemma {:induction false} RunPreservesValid(m: Snapshot, ops: seq<Op>)
    requires Valid(m) && Run(m, ops).Some?
    ensures Valid(Run(m, ops).value.after)
    decreases |ops|
  {
    if ops != [] {
      RunPreservesValid(m, Init(ops));
    }
  }

  /** In every session the states are called in the order the lifecycle
      automaton accepts, and the automaton ends in the phase of the active state. */
  lemma {:induction false} RunConforms(m: Snapshot, ops: seq<Op>)
    requires Run(m, ops).Some?
    ensures Replay(PhaseOf(m.current), Run(m, ops).value.events) == Some(PhaseOf(Run(m, ops).value.after.current))
    decreases |ops|
  {
    if ops != [] {
      var before := Run(m, Init(ops)).value;
      var st := Exec(before.after, Last(ops));
      RunConforms(m, Init(ops));
      match Last(ops) {
        case AddOp(s) => AddConforms(before.after, s);
        case SetActiveOp(id) => SetActiveConforms(before.after, id);
        case UpdateOp(r) => UpdateConforms(before.after, r);
        case DrawOp(screen, r) => DrawConforms(before.after, screen, r);
      }
      ReplayAppend(PhaseOf(m.current), before.events, st.events);
    }
  }

  /** A session that starts from `New` keeps the registry invariant, and its
      calls into the states form a well-ordered lifecycle. */
  lemma SessionFromNew(ops: seq<Op>)
    requires Run(New(), ops).Some?
    ensures Valid(Run(New(), ops).value.after)
    ensures Replay(Idle, Run(New(), ops).value.events) == Some(PhaseOf(Run(New(), ops).value.after.current))
  {
    RunPreservesValid(New(), ops);
    RunConforms(New(), ops);
  }

  /** Nothing is ever unregistered or replaced, the ids already listed keep
      their places, and once a state is active one always is. */
  lemma {:induction false} RunKeepsRegistrations(m: Snapshot, ops: seq<Op>)
    requires Run(m, ops).Some?
    ensures var after := Run(m, ops).value.after;
            && (forall id :: id in m.states ==> id in after.states && after.states[id] == m.states[id])
            && |m.keys| <= |after.keys| && after.keys[..|m.keys|] == m.keys
            && (m.current.Some? ==> after.current.Some?)
    decreases |ops|
  {
    if ops != [] {
      var before := Run(m, Init(ops)).value.after;
      var after := Run(m, ops).value.after;
      RunKeepsRegistrations(m, Init(ops));
      assert after.keys[..|before.keys|] == before.keys;
      assert after.keys[..|m.keys|] == after.keys[..|before.keys|][..|m.keys|];
    }
  }

  function AddOps(ss: seq<State>): (ops: seq<Op>)
    ensures |ops| == |ss|
    decreases |ss|
  {
    if ss == [] then [] else AddOps(Init(ss)) + [AddOp(Last(ss))]
  }

  function Ids(ss: seq<State>): (ids: seq<string>)
    decreases |ss|
  {
    if ss == [] then [] else Ids(Init(ss)) + [Last(ss).id]
  }

  /** Registering states with pairwise distinct new ids: every call succeeds,
      no hook is called, and the ids are listed after the old ones in call order. */
  lemma {:induction false} DistinctAddsInOrder(m: Snapshot, ss: seq<State>)
    requires Valid(m)
    requires forall i :: 0 <= i < |ss| ==> ss[i].id !in m.states
    requires forall i, j :: 0 <= i < j < |ss| ==> ss[i].id != ss[j].id
    ensures Run(m, AddOps(ss)).Some?
    ensures var o := Run(m, AddOps(ss)).value;
            && (forall i :: 0 <= i < |ss| ==> o.statuses[i] == Ok)
            && o.after.keys == m.keys + Ids(ss)
            && o.after.current == m.current
            && o.events == []
    decreases |ss|
  {
    if ss != [] {
      var init := Init(ss);
      DistinctAddsInOrder(m, init);
      RunPreservesValid(m, AddOps(init));
      IdsFresh(init, Last(ss));
      AddFreshStep(m, AddOps(init), Last(ss));
      assert AddOps(ss) == AddOps(init) + [AddOp(Last(ss))];
      assert Ids(ss) == Ids(init) + [Last(ss).id];
      assert m.keys + Ids(ss) == (m.keys + Ids(init)) + [Last(ss).id];
    }
  }

  /** Adding a state whose id is not yet registered, at the end of a session:
      the call succeeds, calls no hook, and lists the id last. */
  lemma AddFreshStep(m: Snapshot, ops: seq<Op>, s: State)
    requires Run(m, ops).Some?
    requires s.id !in Run(m, ops).value.after.states
    ensures var before := Run(m, ops).value;
            && Run(m, ops + [AddOp(s)]).Some?
            && Run(m, ops + [AddOp(s)]).value.statuses == before.statuses + [Ok]
            && Run(m, ops + [AddOp(s)]).value.after.keys == before.after.keys + [s.id]
            && Run(m, ops + [AddOp(s)]).value.after.current == before.after.current
            && Run(m, ops + [AddOp(s)]).value.events == before.events
  {
    RunSnoc(m, ops, AddOp(s));
    assert Run(m, ops).value.events + [] == Run(m, ops).value.events;
  }

  /** An id that differs from the id of every state of `ss` is not in `Ids(ss)`. */
  lemma {:induction false} IdsFresh(ss: seq<State>, s: State)
    requires forall i :: 0 <= i < |ss| ==> ss[i].id != s.id
    ensures s.id !in Ids(ss)
    decreases |ss|
  {
    if ss != [] {
      IdsFresh(Init(ss), s);
    }
  }

  /** The number of successful registrations among the calls `ops`, whose
      results were `statuses`. */
  function SuccessfulAdds(ops: seq<Op>, statuses: seq<Status>): nat
    requires |statuses| == |ops|
  {
    if ops == [] then 0
    else SuccessfulAdds(Init(ops), Init(statuses)) + (if Last(ops).AddOp? && Last(statuses) == Ok then 1 else 0)
  }

  /** The list of ids grows by exactly one per successful `Add`. */
  lemma {:induction false} KeysCountSuccessfulAdds(m: Snapshot, ops: seq<Op>)
    requires Run(m, ops).Some?
    ensures |Run(m, ops).value.after.keys| == |m.keys| + SuccessfulAdds(ops, Run(m, ops).value.statuses)
    decreases |ops|
  {
    if ops != [] {
      KeysCountSuccessfulAdds(m, Init(ops));
      assert Init(Run(m, ops).value.statuses) == Run(m, Init(ops)).value.statuses;
    }
  }

  /** A state is active at the end of a session exactly when one was active
      at its start or some `SetActive` of the session succeeded. */
  lemma {:induction false} ActiveIffActivated(m: Snapshot, ops: seq<Op>)
    requires Run(m, ops).Some?
    ensures var o := Run(m, ops).value;
            o.after.current.Some? <==>
              (m.current.Some? || exists i :: 0 <= i < |ops| && ops[i].SetActiveOp? && o.statuses[i] == Ok)
    decreases |ops|
  {
    if ops != [] {
      var n := |ops| - 1;
      var o := Run(m, ops).value;
      var before := Run(m, Init(ops)).value;
      ActiveIffActivated(m, Init(ops));
      assert forall i :: 0 <= i < n ==> ops[i] == Init(ops)[i] && o.statuses[i] == before.statuses[i];
    }
  }

  /** Registering a second state under a taken id fails, and the first one
      stays registered under it. */
  lemma DuplicateAddRejected(m: Snapshot, first: State, second: State)
    requires first.id !in m.states && second.id == first.id
    ensures Run(m, [AddOp(first), AddOp(second)]).Some?
    ensures var o := Run(m, [AddOp(first), AddOp(second)]).value;
            && o.statuses == [Ok, Err(DuplicateId)]
            && Registered(o.after, first)
            && o.after.keys == m.keys + [first.id]
  {
    RunSnoc(m, [], AddOp(first));
    assert [] + [AddOp(first)] == [AddOp(first)];
    RunSnoc(m, [AddOp(first)], AddOp(second));
    assert [AddOp(first)] + [AddOp(second)] == [AddOp(first), AddOp(second)];
  }

  /** Activating `a` and then another state `b`. */
  lemma SwitchTwice(m: Snapshot, a: string, b: string)
    requires Valid(m)
    requires a in m.states && b in m.states && a != b
    ensures var left := if m.current.Some? then [Exit(m.current.value)] else [];
            Run(m, [SetActiveOp(a), SetActiveOp(b)])
            == Some(Outcome(m.(current := Some(m.states[b])), [Ok, Ok],
                            left + [Enter(m.states[a]), Exit(m.states[a]), Enter(m.states[b])]))
  {
    var left := if m.current.Some? then [Exit(m.current.value)] else [];
    var p1 := [SetActiveOp(a)];
    var m1 := m.(current := Some(m.states[a]));
    assert SetActive(m, a) == Step(m1, Ok, left + [Enter(m.states[a])]);
    assert SetActive(m1, b) == Step(m.(current := Some(m.states[b])), Ok, [Exit(m.states[a]), Enter(m.states[b])]);
    var e1 := left + [Enter(m.states[a])];
    RunSnoc(m, [], SetActiveOp(a));
    assert [] + p1 == p1 && [] + [Ok] == [Ok] && [] + e1 == e1;
    assert Run(m, p1) == Some(Outcome(m1, [Ok], e1));
    RunSnoc(m, p1, SetActiveOp(b));
    assert p1 + [SetActiveOp(b)] == [SetActiveOp(a), SetActiveOp(b)];
    assert [Ok] + [Ok] == [Ok, Ok];
    assert e1 + [Exit(m.states[a]), Enter(m.states[b])]
           == left + [Enter(m.states[a]), Exit(m.states[a]), Enter(m.states[b])];
  }

  /** Switching from `a` to another state `b`: after the exit of the state
      active at the start, if any, `a` is entered, `a` is exited and `b` is
      entered, and the next update and the next draw both reach `b`. */
  lemma SwitchOrder(m: Snapshot, a: string, b: string, result: Status, screen: Surface, drawn: Status)
    requires Valid(m)
    requires a in m.states && b in m.states && a != b
    ensures Run(m, [SetActiveOp(a), SetActiveOp(b), UpdateOp(result), DrawOp(screen, drawn)]).Some?
    ensures var o := Run(m, [SetActiveOp(a), SetActiveOp(b), UpdateOp(result), DrawOp(screen, drawn)]).value;
            var left := if m.current.Some? then [Exit(m.current.value)] else [];
            && m.states[a] != m.states[b]
            && o.statuses == [Ok, Ok, result, drawn]
            && o.events == left + [Enter(m.states[a]), Exit(m.states[a]), Enter(m.states[b]),
                                   UpdateCalled(m.states[b]), DrawCalled(m.states[b], screen)]
  {
    var p2 := [SetActiveOp(a), SetActiveOp(b)];
    var p3 := p2 + [UpdateOp(result)];
    assert m.states[a].id == a && m.states[b].id == b;
    SwitchTwice(m, a, b);
    RunSnoc(m, p2, UpdateOp(result));
    RunSnoc(m, p3, DrawOp(screen, drawn));
    assert p3 + [DrawOp(screen, drawn)] == [SetActiveOp(a), SetActiveOp(b), UpdateOp(result), DrawOp(screen, drawn)];
  }

  /** Re-activating the active state is not a no-op: it is left and entered again. */
  lemma ReactivateIsNotNoop(m: Snapshot, s: State)
    requires Valid(m) && m.current == Some(s)
    ensures SetActive(m, s.id) == Step(m, Ok, [Exit(s), Enter(s)])
  {
  }
}
