/**
 * What a pending action comes to: a fulfilled promise goes on with just the call that it held, and a
 * transition or state that is deferred and not interrupted is committed.
 */
module StateMachineProgress {
  import opened JsString
  import opened Wrappers
  import opened StateMachine
  import opened StateMachineSafety

  /** The promise of a deferred transition is fulfilled: that transition is called, from the state the
      machine is in by now, unless the table does not have it there. */
  lemma FulfilledTransitionIsCalled(table: Table, m: Machine, i: nat, t: string)
    requires i < |m.waiting| && m.waiting[i] == TransitionLater(t) && m.deferred.Some?
    ensures var n := Step(table, m, Resolve(i));
            && n == m.(deferred := None, waiting := m.waiting[..i] + m.waiting[i + 1..], frames := n.frames, calls := n.calls)
            && if m.state in table && t in table[m.state] then
                 n.frames == m.frames + [InHook(m.calls, t, m.state, table[m.state][t])] && n.calls == m.calls + 1
               else n.frames == m.frames && n.calls == m.calls
  {
  }

  /** The promise of a deferred state is fulfilled: the listeners of the call that deferred it are told
      that it is entered, unless the machine is destroyed; other callbacks do nothing. */
  lemma FulfilledStateIsEntered(table: Table, m: Machine, i: nat)
    requires i < |m.waiting| && !m.waiting[i].TransitionLater?
    ensures var n := Step(table, m, Resolve(i));
            var k := m.waiting[i];
            && n == m.(deferred := n.deferred, waiting := m.waiting[..i] + m.waiting[i + 1..], frames := n.frames)
            && if k.FinishLater? && m.deferred.Some? then
                 && n.deferred.None?
                 && n.frames == if m.destroyed then m.frames
                                else m.frames + [InListeners(k.call, k.transition, k.from, Enter(k.target))]
               else n.deferred == m.deferred && n.frames == m.frames
  {
  }

  // ----- what is deferred is committed -----

  predicate AllCalls(events: seq<Event>) {
    forall e <- events :: e.Call?
  }

  /** Direct calls that a pending action refuses change nothing. */
  lemma {:induction false} RefusedCallsDoNothing(table: Table, m: Machine, calls: seq<Event>)
    requires AllCalls(calls) && forall e <- calls :: !Accepts(table, m, e.transition)
    ensures Run(table, m, calls) == m
    decreases |calls|
  {
    if calls != [] {
      assert calls[0] in calls && forall e <- calls[1..] :: e in calls;
      RefusedCallsDoNothing(table, m, calls[1..]);
    }
  }

  /** The machine has entered the state by this call, unless its name reads as a cancellation. */
  function Entered(m: Machine, call: nat, from: string, t: string, to: string): Machine {
    if EqualsFalse(to) then m else m.(state := to, history := m.history + [Edge(call, from, t, to)])
  }

  lemma RunOne(table: Table, m: Machine, e: Event)
    ensures Run(table, m, [e]) == Step(table, m, e)
  {
    hide Step;
    assert Run(table, Step(table, m, e), []) == Step(table, m, e);
  }

  /** From a hook on top to the end of its call. */
  lemma HookThenListeners(table: Table, m: Machine, below: seq<Frame>, f: Frame, r: HookResult)
    requires m.frames == below + [f] && f.InHook? && !m.destroyed && f.from == m.state && (r.Nothing? || r.ToState?)
    ensures var to := if r.ToState? && r.state != "" then r.state else f.target;
            Run(table, m, [HookReturns(r), ListenersReturn])
            == Entered(m.(frames := below, asked := if r.ToState? then m.asked + {(f.call, r.state)} else m.asked),
                       f.call, f.from, f.transition, to)
  {
    hide EqualsFalse, AfterHook, AfterListeners;
    var to := if r.ToState? && r.state != "" then r.state else f.target;
    var n := Step(table, m, HookReturns(r));
    AfterHookOf(m, below, f, r);
    AfterListenersOf(n, below, InListeners(f.call, f.transition, f.from, Enter(to)));
    assert [HookReturns(r), ListenersReturn] == [HookReturns(r)] + [ListenersReturn];
    RunInTwo(table, m, [HookReturns(r)], [ListenersReturn]);
    RunOne(table, m, HookReturns(r));
    RunOne(table, n, ListenersReturn);
  }

  /** Main result: a transition that is deferred, with nothing but direct calls until its promise is
      fulfilled, is then called, and commits the target that the table has for it, or the state its hook
      asks for; the direct calls are refused. */
  lemma DeferredTransitionCommits(table: Table, m: Machine, t: string, calls: seq<Event>, r: HookResult)
    requires !m.destroyed && m.deferred.None? && AllCalls(calls) && (r.Nothing? || r.ToState?)
    requires m.state in table && t in table[m.state]
    ensures var to := if r.ToState? && r.state != "" then r.state else table[m.state][t];
            Run(table, m, [DeferTransition(t)] + calls + [Resolve(|m.waiting|), HookReturns(r), ListenersReturn])
            == Entered(m.(calls := m.calls + 1, asked := if r.ToState? then m.asked + {(m.calls, r.state)} else m.asked),
                       m.calls, m.state, t, to)
  {
    hide EqualsFalse, AfterHook, AfterListeners, OnResolve, Run;
    var n := m.(deferred := Some(DeferredTransition(t)), waiting := m.waiting + [TransitionLater(t)]);
    var i := |m.waiting|;
    var end := [HookReturns(r), ListenersReturn];
    RunOne(table, m, DeferTransition(t));
    RefusedCallsDoNothing(table, n, calls);
    FulfilledTransitionIsCalled(table, n, i, t);
    assert n.waiting[..i] + n.waiting[i + 1..] == m.waiting;
    RunOne(table, n, Resolve(i));
    var called := Step(table, n, Resolve(i));
    HookThenListeners(table, called, m.frames, InHook(m.calls, t, m.state, table[m.state][t]), r);
    RunInTwo(table, m, [DeferTransition(t)], calls);
    RunInTwo(table, m, [DeferTransition(t)] + calls, [Resolve(i)] + end);
    RunInTwo(table, n, [Resolve(i)], end);
    assert [Resolve(i)] + end == [Resolve(i), HookReturns(r), ListenersReturn];
  }

  /** Main result: a state that a call's hook defers is entered by that call when its promise is
      fulfilled, whatever its name and the table's target, if nothing but direct calls to other targets
      comes between. */
  lemma DeferredStateCommits(table: Table, m: Machine, t: string, target: string, calls: seq<Event>)
    requires !m.destroyed && m.deferred.None? && m.state in table && t in table[m.state]
    requires AllCalls(calls) && forall e <- calls :: Lookup(table, m.state, e.transition) != Some(target)
    ensures var begin := [Call(t), DeferState(target), HookReturns(ToDeferred(target)), ListenersReturn];
            Run(table, m, begin + calls + [Resolve(|m.waiting| + 1), ListenersReturn])
            == Entered(m.(calls := m.calls + 1, waiting := m.waiting + [ClearOnReject], asked := m.asked + {(m.calls, target)}),
                       m.calls, m.state, t, target)
  {
    hide EqualsFalse, AfterHook, OnResolve, Run, Effects;
    var begin := [Call(t), DeferState(target), HookReturns(ToDeferred(target)), ListenersReturn];
    var end := [Resolve(|m.waiting| + 1), ListenersReturn];
    DeferringCall(table, m, t, target);
    var d := Run(table, m, begin[..3]);
    PopOf(m.frames, InListeners(m.calls, t, m.state, Defer(target)));
    var n := Step(table, d, ListenersReturn);
    assert begin == begin[..3] + [ListenersReturn];
    assert begin[..3] == [Call(t), DeferState(target), HookReturns(ToDeferred(target))];
    RunInTwo(table, m, begin[..3], [ListenersReturn]);
    RunOne(table, d, ListenersReturn);
    RefusedCallsDoNothing(table, n, calls);
    hide AfterListeners;
    FulfilledThenListeners(table, n, |m.waiting| + 1, m.frames);
    assert n.waiting[..|m.waiting| + 1] + n.waiting[|m.waiting| + 2..] == m.waiting + [ClearOnReject];
    RunInTwo(table, m, begin, calls);
    RunInTwo(table, m, begin + calls, end);
  }

  lemma FulfilledThenListeners(table: Table, m: Machine, i: nat, below: seq<Frame>)
    requires i < |m.waiting| && m.waiting[i].FinishLater? && m.deferred.Some? && !m.destroyed && m.frames == below
    requires m.waiting[i].from == m.state
    ensures var k := m.waiting[i];
            Run(table, m, [Resolve(i), ListenersReturn])
            == Entered(m.(deferred := None, waiting := m.waiting[..i] + m.waiting[i + 1..]),
                       k.call, k.from, k.transition, k.target)
  {
    hide EqualsFalse, AfterListeners, OnResolve;
    var k := m.waiting[i];
    FulfilledStateIsEntered(table, m, i);
    var n := Step(table, m, Resolve(i));
    AfterListenersOf(n, below, InListeners(k.call, k.transition, k.from, Enter(k.target)));
    assert [Resolve(i), ListenersReturn] == [Resolve(i)] + [ListenersReturn];
    RunInTwo(table, m, [Resolve(i)], [ListenersReturn]);
    RunOne(table, m, Resolve(i));
    RunOne(table, n, ListenersReturn);
  }
}
