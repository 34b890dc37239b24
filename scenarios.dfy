/**
 The scenarios of the package's tests, run on the model.

 The tests use one concrete kind of state, `testState`, whose hooks change
 two fields of the object: OnEnter sets `counter` to 0, Update adds one to it,
 OnExit sets `exited`; Draw changes nothing and every hook returns nil. Here
 the fields of one such object are recomputed from the calls the registry
 made into it, and each test becomes a lemma about a session started from `New`.
 */
module Scenarios {
  import opened Registry
  import opened Session

  datatype TestFields = TestFields(counter: int, exited: bool)

  /** The effect on the fields of test state `s` of one call of the registry:
      its OnEnter resets `counter`, its Update adds one to `counter`, its
      OnExit sets `exited`, and its Draw and every call into another state
      change nothing. */
  function Apply(f: TestFields, e: Event, s: State): (g: TestFields)
    ensures g.exited <==> f.exited || e == Exit(s)
    ensures g.counter == (if e == Enter(s) then 0 else if e == UpdateCalled(s) then f.counter + 1 else f.counter)
  {
    match e
    case Enter(x) => if x == s then f.(counter := 0) else f
    case Exit(x) => if x == s then f.(exited := true) else f
    case UpdateCalled(x) => if x == s then f.(counter := f.counter + 1) else f
    case DrawCalled(_, _) => f
  }

  /** The fields of test state `s`, fresh from `newTestState`, after the calls `t`. */
  function Fields(t: seq<Event>, s: State): TestFields
    decreases |t|
  {
    if t == [] then TestFields(0, false) else Apply(Fields(Init(t), s), Last(t), s)
  }

  lemma FieldsSnoc(t: seq<Event>, e: Event, s: State)
    ensures Fields(t + [e], s) == Apply(Fields(t, s), e, s)
  {
    assert Init(t + [e]) == t;
  }

  /** A test state's `exited` flag is set exactly when its OnExit has been called. */
  lemma {:induction false} FieldsExited(t: seq<Event>, s: State)
    ensures Fields(t, s).exited <==> Exit(s) in t
    decreases |t|
  {
    if t != [] {
      FieldsExited(Init(t), s);
      assert t == Init(t) + [Last(t)];
      assert Exit(s) in t <==> Exit(s) in Init(t) || Last(t) == Exit(s);
    }
  }

  /** After its OnEnter, a test state's `counter` is the number of calls of
      its Update since, as long as it was not entered again. */
  lemma {:induction false} FieldsCounter(t: seq<Event>, u: seq<Event>, s: State)
    requires Enter(s) !in u
    ensures Fields(t + [Enter(s)] + u, s).counter == multiset(u)[UpdateCalled(s)]
    decreases |u|
  {
    if u == [] {
      assert t + [Enter(s)] + u == t + [Enter(s)];
      FieldsSnoc(t, Enter(s), s);
    } else {
      var v := Init(u);
      assert u == v + [Last(u)];
      assert Enter(s) !in v;
      FieldsCounter(t, v, s);
      assert t + [Enter(s)] + u == (t + [Enter(s)] + v) + [Last(u)];
      FieldsSnoc(t + [Enter(s)] + v, Last(u), s);
      assert multiset(u) == multiset(v) + multiset{Last(u)};
    }
  }

  /** The two states of the tests: "test" and "test2", two distinct objects. */
  const state := State(0, "test")
  const state2 := State(1, "test2")

  /** One more call of a session from `New`: its outcome so far is `o`, the
      call takes step `st`, and the outcome afterwards is `next`. */
  lemma Then(ops: seq<Op>, o: Outcome, op: Op, st: Step, next: Outcome)
    requires Run(New(), ops) == Some(o) && Allowed(o.after, op) && Exec(o.after, op) == st
    requires next == Outcome(st.after, o.statuses + [st.status], o.events + st.events)
    ensures Run(New(), ops + [op]) == Some(next)
  {
    RunSnoc(New(), ops, op);
  }

  /** A registry holding `a` alone, and one holding `a` and then `b`. */
  function One(a: State, cur: Option<State>): Snapshot {
    Snapshot(map[a.id := a], [a.id], cur)
  }

  function Two(a: State, b: State, cur: Option<State>): Snapshot {
    Snapshot(map[a.id := a, b.id := b], [a.id, b.id], cur)
  }

  /* The calls of the tests, for any states `a` and `b` with distinct ids,
     one call per lemma. */

  lemma Added(a: State)
    ensures Run(New(), [AddOp(a)]) == Some(Outcome(One(a, None), [Ok], []))
  {
    Then([], Outcome(New(), [], []), AddOp(a), Step(One(a, None), Ok, []), Outcome(One(a, None), [Ok], []));
    assert [] + [AddOp(a)] == [AddOp(a)];
  }

  lemma Entered(a: State)
    ensures Run(New(), [AddOp(a), SetActiveOp(a.id)]) == Some(Outcome(One(a, Some(a)), [Ok, Ok], [Enter(a)]))
  {
    Added(a);
    Then([AddOp(a)], Outcome(One(a, None), [Ok], []), SetActiveOp(a.id),
         Step(One(a, Some(a)), Ok, [Enter(a)]), Outcome(One(a, Some(a)), [Ok, Ok], [Enter(a)]));
    assert [AddOp(a)] + [SetActiveOp(a.id)] == [AddOp(a), SetActiveOp(a.id)];
  }

  lemma Updated(a: State, r: Status)
    ensures Run(New(), [AddOp(a), SetActiveOp(a.id), UpdateOp(r)])
            == Some(Outcome(One(a, Some(a)), [Ok, Ok, r], [Enter(a), UpdateCalled(a)]))
  {
    Entered(a);
    var p := [AddOp(a), SetActiveOp(a.id)];
    Then(p, Outcome(One(a, Some(a)), [Ok, Ok], [Enter(a)]), UpdateOp(r),
         Step(One(a, Some(a)), r, [UpdateCalled(a)]), Outcome(One(a, Some(a)), [Ok, Ok, r], [Enter(a), UpdateCalled(a)]));
    assert p + [UpdateOp(r)] == [AddOp(a), SetActiveOp(a.id), UpdateOp(r)];
  }

  lemma Drawn(a: State, screen: Surface, r: Status)
    ensures Run(New(), [AddOp(a), SetActiveOp(a.id), DrawOp(screen, r)])
            == Some(Outcome(One(a, Some(a)), [Ok, Ok, r], [Enter(a), DrawCalled(a, screen)]))
  {
    Entered(a);
    var p := [AddOp(a), SetActiveOp(a.id)];
    Then(p, Outcome(One(a, Some(a)), [Ok, Ok], [Enter(a)]), DrawOp(screen, r),
         Step(One(a, Some(a)), r, [DrawCalled(a, screen)]), Outcome(One(a, Some(a)), [Ok, Ok, r], [Enter(a), DrawCalled(a, screen)]));
    assert p + [DrawOp(screen, r)] == [AddOp(a), SetActiveOp(a.id), DrawOp(screen, r)];
  }

  lemma UpdatedIdle(r: Status)
    ensures Run(New(), [UpdateOp(r)]) == Some(Outcome(New(), [Err(NoActive)], []))
  {
    Then([], Outcome(New(), [], []), UpdateOp(r), Step(New(), Err(NoActive), []), Outcome(New(), [Err(NoActive)], []));
    assert [] + [UpdateOp(r)] == [UpdateOp(r)];
  }

  lemma AddedUpdated(a: State, r: Status)
    ensures Run(New(), [AddOp(a), UpdateOp(r)]) == Some(Outcome(One(a, None), [Ok, Err(NoActive)], []))
  {
    Added(a);
    Then([AddOp(a)], Outcome(One(a, None), [Ok], []), UpdateOp(r),
         Step(One(a, None), Err(NoActive), []), Outcome(One(a, None), [Ok, Err(NoActive)], []));
    assert [AddOp(a)] + [UpdateOp(r)] == [AddOp(a), UpdateOp(r)];
  }

  lemma AddedDrawn(a: State, screen: Surface, r: Status)
    ensures Run(New(), [AddOp(a), DrawOp(screen, r)]).None?
  {
    Added(a);
    assert Init([AddOp(a), DrawOp(screen, r)]) == [AddOp(a)];
  }

  lemma AddedUnknown(a: State, id: string)
    requires id != a.id
    ensures Run(New(), [AddOp(a), SetActiveOp(id)]) == Some(Outcome(One(a, None), [Ok, Err(NotFound)], []))
  {
    Added(a);
    Then([AddOp(a)], Outcome(One(a, None), [Ok], []), SetActiveOp(id),
         Step(One(a, None), Err(NotFound), []), Outcome(One(a, None), [Ok, Err(NotFound)], []));
    assert [AddOp(a)] + [SetActiveOp(id)] == [AddOp(a), SetActiveOp(id)];
  }

  lemma AddedTwice(a: State)
    ensures Run(New(), [AddOp(a), AddOp(a)]) == Some(Outcome(One(a, None), [Ok, Err(DuplicateId)], []))
  {
    Added(a);
    Then([AddOp(a)], Outcome(One(a, None), [Ok], []), AddOp(a),
         Step(One(a, None), Err(DuplicateId), []), Outcome(One(a, None), [Ok, Err(DuplicateId)], []));
    assert [AddOp(a)] + [AddOp(a)] == [AddOp(a), AddOp(a)];
  }

  lemma AddedBoth(a: State, b: State)
    requires a.id != b.id
    ensures Run(New(), [AddOp(a), AddOp(b)]) == Some(Outcome(Two(a, b, None), [Ok, Ok], []))
  {
    Added(a);
    assert [a.id] + [b.id] == [a.id, b.id];
    Then([AddOp(a)], Outcome(One(a, None), [Ok], []), AddOp(b),
         Step(Two(a, b, None), Ok, []), Outcome(Two(a, b, None), [Ok, Ok], []));
    assert [AddOp(a)] + [AddOp(b)] == [AddOp(a), AddOp(b)];
  }

  lemma BothEntered(a: State, b: State)
    requires a.id != b.id
    ensures Run(New(), [AddOp(a), AddOp(b), SetActiveOp(a.id)]) == Some(Outcome(Two(a, b, Some(a)), [Ok, Ok, Ok], [Enter(a)]))
  {
    AddedBoth(a, b);
    var p := [AddOp(a), AddOp(b)];
    Then(p, Outcome(Two(a, b, None), [Ok, Ok], []), SetActiveOp(a.id),
         Step(Two(a, b, Some(a)), Ok, [Enter(a)]), Outcome(Two(a, b, Some(a)), [Ok, Ok, Ok], [Enter(a)]));
    assert p + [SetActiveOp(a.id)] == [AddOp(a), AddOp(b), SetActiveOp(a.id)];
  }

  /** The calls of TestOnEnter: `a` is added, entered and updated twice, then
      `b` is added and entered, and `a` entered again. */
  function Played(a: State): seq<Op> {
    [AddOp(a), SetActiveOp(a.id), UpdateOp(Ok), UpdateOp(Ok)]
  }

  function PlayedCalls(a: State): seq<Event> {
    [Enter(a), UpdateCalled(a), UpdateCalled(a)]
  }

  lemma UpdatedTwice(a: State)
    ensures Run(New(), Played(a)) == Some(Outcome(One(a, Some(a)), [Ok, Ok, Ok, Ok], PlayedCalls(a)))
  {
    Updated(a, Ok);
    var p := [AddOp(a), SetActiveOp(a.id), UpdateOp(Ok)];
    Then(p, Outcome(One(a, Some(a)), [Ok, Ok, Ok], [Enter(a), UpdateCalled(a)]), UpdateOp(Ok),
         Step(One(a, Some(a)), Ok, [UpdateCalled(a)]), Outcome(One(a, Some(a)), [Ok, Ok, Ok, Ok], PlayedCalls(a)));
    assert p + [UpdateOp(Ok)] == Played(a);
  }

  lemma PlayedAdded(a: State, b: State)
    requires a.id != b.id
    ensures Run(New(), Played(a) + [AddOp(b)]) == Some(Outcome(Two(a, b, Some(a)), [Ok, Ok, Ok, Ok, Ok], PlayedCalls(a)))
  {
    UpdatedTwice(a);
    assert [a.id] + [b.id] == [a.id, b.id];
    Then(Played(a), Outcome(One(a, Some(a)), [Ok, Ok, Ok, Ok], PlayedCalls(a)), AddOp(b),
         Step(Two(a, b, Some(a)), Ok, []), Outcome(Two(a, b, Some(a)), [Ok, Ok, Ok, Ok, Ok], PlayedCalls(a)));
  }

  lemma PlayedSwitched(a: State, b: State)
    requires a.id != b.id
    ensures Run(New(), Played(a) + [AddOp(b), SetActiveOp(b.id)])
            == Some(Outcome(Two(a, b, Some(b)), [Ok, Ok, Ok, Ok, Ok, Ok], PlayedCalls(a) + [Exit(a), Enter(b)]))
  {
    PlayedAdded(a, b);
    var p := Played(a) + [AddOp(b)];
    Then(p, Outcome(Two(a, b, Some(a)), [Ok, Ok, Ok, Ok, Ok], PlayedCalls(a)), SetActiveOp(b.id),
         Step(Two(a, b, Some(b)), Ok, [Exit(a), Enter(b)]),
         Outcome(Two(a, b, Some(b)), [Ok, Ok, Ok, Ok, Ok, Ok], PlayedCalls(a) + [Exit(a), Enter(b)]));
    assert p + [SetActiveOp(b.id)] == Played(a) + [AddOp(b), SetActiveOp(b.id)];
  }

  lemma PlayedBack(a: State, b: State)
    requires a.id != b.id
    ensures Run(New(), Played(a) + [AddOp(b), SetActiveOp(b.id), SetActiveOp(a.id)])
            == Some(Outcome(Two(a, b, Some(a)), [Ok, Ok, Ok, Ok, Ok, Ok, Ok],
                            PlayedCalls(a) + [Exit(a), Enter(b), Exit(b)] + [Enter(a)]))
  {
    PlayedSwitched(a, b);
    var p := Played(a) + [AddOp(b), SetActiveOp(b.id)];
    var switched := PlayedCalls(a) + [Exit(a), Enter(b)];
    assert switched + [Exit(b), Enter(a)] == PlayedCalls(a) + [Exit(a), Enter(b), Exit(b)] + [Enter(a)];
    Then(p, Outcome(Two(a, b, Some(b)), [Ok, Ok, Ok, Ok, Ok, Ok], switched), SetActiveOp(a.id),
         Step(Two(a, b, Some(a)), Ok, [Exit(b), Enter(a)]),
         Outcome(Two(a, b, Some(a)), [Ok, Ok, Ok, Ok, Ok, Ok, Ok], PlayedCalls(a) + [Exit(a), Enter(b), Exit(b)] + [Enter(a)]));
    assert p + [SetActiveOp(a.id)] == Played(a) + [AddOp(b), SetActiveOp(b.id), SetActiveOp(a.id)];
  }

  lemma EnteredAdded(a: State, b: State)
    requires a.id != b.id
    ensures Run(New(), [AddOp(a), SetActiveOp(a.id), AddOp(b)]) == Some(Outcome(Two(a, b, Some(a)), [Ok, Ok, Ok], [Enter(a)]))
  {
    Entered(a);
    var p := [AddOp(a), SetActiveOp(a.id)];
    assert [a.id] + [b.id] == [a.id, b.id];
    Then(p, Outcome(One(a, Some(a)), [Ok, Ok], [Enter(a)]), AddOp(b),
         Step(Two(a, b, Some(a)), Ok, []), Outcome(Two(a, b, Some(a)), [Ok, Ok, Ok], [Enter(a)]));
    assert p + [AddOp(b)] == [AddOp(a), SetActiveOp(a.id), AddOp(b)];
  }

  lemma EnteredSwitched(a: State, b: State)
    requires a.id != b.id
    ensures Run(New(), [AddOp(a), SetActiveOp(a.id), AddOp(b), SetActiveOp(b.id)])
            == Some(Outcome(Two(a, b, Some(b)), [Ok, Ok, Ok, Ok], [Enter(a), Exit(a), Enter(b)]))
  {
    EnteredAdded(a, b);
    var p := [AddOp(a), SetActiveOp(a.id), AddOp(b)];
    Then(p, Outcome(Two(a, b, Some(a)), [Ok, Ok, Ok], [Enter(a)]), SetActiveOp(b.id),
         Step(Two(a, b, Some(b)), Ok, [Exit(a), Enter(b)]),
         Outcome(Two(a, b, Some(b)), [Ok, Ok, Ok, Ok], [Enter(a), Exit(a), Enter(b)]));
    assert p + [SetActiveOp(b.id)] == [AddOp(a), SetActiveOp(a.id), AddOp(b), SetActiveOp(b.id)];
  }

  /* The tests themselves, on the states "test" and "test2". */

  /** TestAddValid: `Add` on a new registry succeeds; the following
      `SetActive` of its id succeeds and enters the state. */
  lemma AddThenEnter()
    ensures Run(New(), [AddOp(state)]) == Some(Outcome(One(state, None), [Ok], []))
    ensures Run(New(), [AddOp(state), SetActiveOp("test")]) == Some(Outcome(One(state, Some(state)), [Ok, Ok], [Enter(state)]))
  {
    Added(state);
    Entered(state);
  }

  /** TestAddFail, TestStates and TestAddMultiple: a second Add of the same
      state fails and leaves one id listed; two states with distinct ids are
      both listed, in the order they were added. */
  lemma AddScenarios()
    ensures Run(New(), [AddOp(state), AddOp(state)]) == Some(Outcome(One(state, None), [Ok, Err(DuplicateId)], []))
    ensures Run(New(), [AddOp(state), AddOp(state2)]) == Some(Outcome(Two(state, state2, None), [Ok, Ok], []))
    ensures States(One(state, None)) == ["test"] && States(Two(state, state2, None)) == ["test", "test2"]
  {
    AddedTwice(state);
    AddedBoth(state, state2);
  }

  /** TestUpdate: after Add and SetActive, one Update succeeds, and the
      state's counter is 1. */
  lemma UpdateScenario()
    ensures var o := Run(New(), [AddOp(state), SetActiveOp("test"), UpdateOp(Ok)]);
            && o == Some(Outcome(One(state, Some(state)), [Ok, Ok, Ok], [Enter(state), UpdateCalled(state)]))
            && Fields(o.value.events, state).counter == 1
  {
    Updated(state, Ok);
    FieldsCounter([], [UpdateCalled(state)], state);
    assert [] + [Enter(state)] + [UpdateCalled(state)] == [Enter(state), UpdateCalled(state)];
  }

  /** TestDraw: after Add and SetActive, one Draw succeeds and reaches the
      active state once, with the host's surface. */
  lemma DrawScenario(screen: Surface)
    ensures Run(New(), [AddOp(state), SetActiveOp("test"), DrawOp(screen, Ok)])
            == Some(Outcome(One(state, Some(state)), [Ok, Ok, Ok], [Enter(state), DrawCalled(state, screen)]))
  {
    Drawn(state, screen, Ok);
  }

  /** TestNoActive and an empty registry: Update with nothing active fails
      with NoActive and reaches no state; `States` of a new registry is empty. */
  lemma NoActiveScenario(r: Status)
    ensures |States(New())| == 0
    ensures Run(New(), [UpdateOp(r)]) == Some(Outcome(New(), [Err(NoActive)], []))
    ensures Run(New(), [AddOp(state), UpdateOp(r)]) == Some(Outcome(One(state, None), [Ok, Err(NoActive)], []))
  {
    UpdatedIdle(r);
    AddedUpdated(state, r);
  }

  /** The second half of TestNoActive: a Draw with nothing active has no
      result at all, because the source calls Draw on an absent state. */
  lemma NoActiveDrawPanics(screen: Surface, r: Status)
    ensures Run(New(), [AddOp(state), DrawOp(screen, r)]).None?
  {
    AddedDrawn(state, screen, r);
  }

  /** TestSetActive: with "test" and "test2" registered, activating "test"
      succeeds and enters it, and only it. */
  lemma SetActiveScenario()
    ensures Run(New(), [AddOp(state), AddOp(state2), SetActiveOp("test")])
            == Some(Outcome(Two(state, state2, Some(state)), [Ok, Ok, Ok], [Enter(state)]))
  {
    BothEntered(state, state2);
  }

  /** TestSetActiveFail: activating an id nobody registered fails with
      NotFound, activates nothing and calls no hook. */
  lemma SetActiveFailScenario()
    ensures Run(New(), [AddOp(state), SetActiveOp("not valid")]) == Some(Outcome(One(state, None), [Ok, Err(NotFound)], []))
  {
    AddedUnknown(state, "not valid");
  }

  /** Two Updates after its OnEnter leave a test state's counter at 2. */
  lemma CounterAfterTwoUpdates(a: State)
    ensures Fields(PlayedCalls(a), a).counter == 2
  {
    var updates := [UpdateCalled(a), UpdateCalled(a)];
    FieldsCounter([], updates, a);
    assert [] + [Enter(a)] + updates == PlayedCalls(a);
    assert multiset(updates)[UpdateCalled(a)] == 2;
  }

  /** Entering a test state again resets its counter. */
  lemma CounterAfterReentry(t: seq<Event>, a: State)
    ensures Fields(t + [Enter(a)], a).counter == 0
  {
    FieldsCounter(t, [], a);
    assert t + [Enter(a)] + [] == t + [Enter(a)];
  }

  /** TestOnEnter: two Updates leave the counter at 2; after switching to
      "test2" and back, OnEnter has reset it to 0. */
  lemma OnEnterScenario()
    ensures Run(New(), Played(state)).Some?
    ensures Fields(Run(New(), Played(state)).value.events, state).counter == 2
    ensures var back := Played(state) + [AddOp(state2), SetActiveOp("test2"), SetActiveOp("test")];
            && Run(New(), back).Some?
            && Run(New(), back).value.statuses == [Ok, Ok, Ok, Ok, Ok, Ok, Ok]
            && Fields(Run(New(), back).value.events, state).counter == 0
  {
    UpdatedTwice(state);
    CounterAfterTwoUpdates(state);
    PlayedBack(state, state2);
    CounterAfterReentry(PlayedCalls(state) + [Exit(state), Enter(state2), Exit(state2)], state);
  }

  /** TestOnExit: entering "test" does not set its `exited` flag; switching
      to "test2" does. */
  lemma OnExitScenario()
    ensures var entering := [AddOp(state), SetActiveOp("test")];
            && Run(New(), entering).Some?
            && !Fields(Run(New(), entering).value.events, state).exited
    ensures var leaving := [AddOp(state), SetActiveOp("test"), AddOp(state2), SetActiveOp("test2")];
            && Run(New(), leaving).Some?
            && Fields(Run(New(), leaving).value.events, state).exited
  {
    Entered(state);
    EnteredSwitched(state, state2);
    FieldsExited([Enter(state)], state);
    FieldsExited([Enter(state), Exit(state), Enter(state2)], state);
    assert [Enter(state), Exit(state), Enter(state2)][1] == Exit(state);
  }
}
