/**
 * The state machine as it is written: an object whose fields its methods change. Whatever the
 * surrounding program does to it, its history stays one path of justified edges and no call is in
 * two places.
 */
module StateMachineInstance {
  import opened JsString
  import opened Wrappers
  import opened StateMachine
  import opened StateMachineSafety

  class Instance {
    const table: Table
    const initial: string
    var state: string
    var deferred: Option<Deferred>
    var destroyed: bool
    // The calls in progress, innermost last, and the promise callbacks still to run.
    var frames: seq<Frame>
    var waiting: seq<Continuation>
    var calls: nat
    // What has happened, for the specification only.
    ghost var history: seq<Edge>
    ghost var asked: set<(nat, string)>

    ghost function View(): Machine
      reads this
    {
      Machine(state, deferred, destroyed, frames, waiting, calls, history, asked)
    }

    ghost predicate Valid()
      reads this
    {
      PathInv(table, initial, View()) && Linear(View())
    }

    /** Both invariants hold of whatever state the step leads to. */
    lemma Kept(m: Machine, e: Event)
      requires PathInv(table, initial, m) && Linear(m)
      ensures PathInv(table, initial, Step(table, m, e)) && Linear(Step(table, m, e))
    {
      StepKeepsPath(table, initial, m, e);
      StepKeepsLinear(table, m, e);
    }

    constructor (table: Table, initial: string)
      ensures Valid() && View() == Start(initial) && this.table == table && this.initial == initial
    {
      this.table, this.initial := table, initial;
      state, deferred, destroyed, frames, waiting, calls := initial, None, false, [], [], 0;
      history, asked := [], {};
    }

    /** `transition`, as far as its hook: nothing but the stack and the pending action changes. */
    method Transition(transition: string) returns (threw: bool)
      requires Valid()
      modifies this
      ensures Valid() && View() == Step(table, old(View()), Call(transition))
      ensures threw <==> !Accepts(table, old(View()), transition)
      ensures threw ==> View() == old(View())
      ensures !threw ==> deferred.None? && frames[..|frames| - 1] == old(frames)
                         && Last(frames).InHook? && Last(frames).from == state
      ensures state == old(state) && history == old(history) && waiting == old(waiting)
    {
      Kept(View(), Call(transition));
      hide PathInv, Linear;
      var from := state;
      var found := Lookup(table, from, transition);
      if found.None? {
        return true;
      }
      if deferred.Some? {
        if deferred.value.DeferredState? && found.value == deferred.value.target {
          deferred := None;
        } else {
          return true;
        }
      }
      frames := frames + [InHook(calls, transition, from, found.value)];
      calls := calls + 1;
      threw := false;
    }

    /** The hook has returned: `finishTransition` begins. A destroyed machine and a hook that threw end
        the call for good; otherwise its listeners are told, and what it will do is what the table or
        the hook said. */
    method FinishHook(result: HookResult)
      requires Valid()
      requires frames != [] && Last(frames).InHook?
      modifies this
      ensures Valid() && View() == Step(table, old(View()), HookReturns(result))
      ensures state == old(state) && history == old(history) && deferred == old(deferred) && waiting == old(waiting)
      ensures destroyed || result.Throws? ==>
                frames == Pop(old(frames)) && Over(View(), Last(old(frames)).call)
                && !CommittedBy(View(), Last(old(frames)).call)
      ensures !destroyed && !result.Throws? ==>
                && |frames| == |old(frames)| && Last(frames).InListeners? && Last(frames).call == Last(old(frames)).call
                && FrameJustified(table, asked, Last(frames))
                && (Last(frames).next.Defer? <==> result.ToDeferred?) && !Last(frames).next.Cancelled?
    {
      ghost var m := View();
      Kept(m, HookReturns(result));
      AfterHookIsExact(table, initial, m, result);
      hide PathInv, Linear, Over, CommittedBy, FrameJustified;
      var f := frames[|frames| - 1];
      frames := frames[..|frames| - 1];
      if destroyed || result.Throws? {
        return;
      }
      var next := Enter(f.target);
      match result {
        case ToState(s) =>
          asked := asked + {(f.call, s)};
          if s != "" {
            next := Enter(s);
          }
        case ToDeferred(t) =>
          asked := asked + {(f.call, t)};
          next := Defer(t);
        case _ =>
      }
      frames := frames + [InListeners(f.call, f.transition, f.from, next)];
    }

    /** The callback handed to listeners of the "transition" event: that call, and no other, is
        cancelled, and nothing else changes. */
    method CancelTransition(call: nat)
      requires Valid()
      modifies this`frames
      ensures Valid() && View() == Step(table, old(View()), Cancel(call))
      ensures |frames| == |old(frames)|
      ensures forall i :: 0 <= i < |frames| ==>
                frames[i] == if old(frames[i]).InListeners? && old(frames[i]).call == call
                             then old(frames[i]).(next := Cancelled) else old(frames[i])
    {
      Kept(View(), Cancel(call));
      CancelInIsExact(frames, call);
      hide PathInv, Linear;
      var done: seq<Frame> := [];
      var todo := frames;
      while todo != []
        invariant View() == old(View())
        invariant done + CancelIn(todo, call) == CancelIn(old(frames), call)
        decreases |todo|
      {
        var f := todo[0];
        done := done + [if f.InListeners? && f.call == call then f.(next := Cancelled) else f];
        todo := todo[1..];
      }
      assert done + [] == done;
      frames := done;
      assert View() == Step(table, old(View()), Cancel(call));
    }

    /** All listeners have been told: the rest of `finishTransition`. This is the only method that
        changes `$state`: by one edge, from the state the call began in, to where the table or its hook
        said, and never twice for one call. */
    method FinishListeners()
      requires Valid()
      requires frames != [] && Last(frames).InListeners?
      modifies this
      ensures Valid() && View() == Step(table, old(View()), ListenersReturn)
      ensures frames == Pop(old(frames)) && calls == old(calls) && destroyed == old(destroyed)
      ensures var f := Last(old(frames));
              if f.next.Enter? && !EqualsFalse(f.next.state) && old(state) == f.from then
                && state == f.next.state && history == old(history) + [Edge(f.call, f.from, f.transition, state)]
                && Justified(table, asked, f.call, f.transition, f.from, state)
                && !CommittedBy(old(View()), f.call)
              else state == old(state) && history == old(history)
      ensures deferred == (if Last(old(frames)).next.Defer? then Some(DeferredState(Last(old(frames)).next.target))
                           else old(deferred))
    {
      ghost var m := View();
      Kept(m, ListenersReturn);
      TopIsJustified(table, initial, m);
      hide PathInv, Linear, EqualsFalse, Justified, CommittedBy;
      var f := frames[|frames| - 1];
      frames := frames[..|frames| - 1];
      match f.next {
        case Cancelled =>
        case Defer(t) =>
          deferred := Some(DeferredState(t));
          waiting := waiting + [FinishLater(f.call, f.transition, f.from, t)];
        case Enter(s) =>
          if !EqualsFalse(s) && state == f.from {
            state := s;
            history := history + [Edge(f.call, f.from, f.transition, s)];
          }
      }
    }

    /** `$deferredState`. */
    method ScheduleState(target: string) returns (threw: bool)
      requires Valid()
      modifies this`deferred, this`waiting
      ensures Valid() && View() == Step(table, old(View()), DeferState(target))
      ensures threw <==> old(deferred).Some?
      ensures threw ==> View() == old(View())
      ensures !threw ==> deferred == Some(DeferredState(target))
    {
      Kept(View(), DeferState(target));
      hide PathInv, Linear;
      if deferred.Some? {
        return true;
      }
      deferred := Some(DeferredState(target));
      waiting := waiting + [ClearOnReject];
      threw := false;
    }

    /** `$deferredTransition`. */
    method ScheduleTransition(transition: string) returns (threw: bool)
      requires Valid()
      modifies this`deferred, this`waiting
      ensures Valid() && View() == Step(table, old(View()), DeferTransition(transition))
      ensures threw <==> old(deferred).Some?
      ensures threw ==> View() == old(View())
      ensures !threw ==> deferred == Some(DeferredTransition(transition))
    {
      Kept(View(), DeferTransition(transition));
      hide PathInv, Linear;
      if deferred.Some? {
        return true;
      }
      deferred := Some(DeferredTransition(transition));
      waiting := waiting + [TransitionLater(transition)];
      threw := false;
    }

    /** The promise of a waiting callback is fulfilled: that callback is gone, no state is entered yet,
        and unless an action was pending nothing else changes. A deferred transition is called, if the
        table has it in the present state; the listeners of a call that deferred a state are told. */
    method Fulfil(i: nat)
      requires Valid() && i < |waiting|
      modifies this
      ensures Valid() && View() == Step(table, old(View()), Resolve(i))
      ensures state == old(state) && history == old(history) && waiting == Remove(old(waiting), i)
      ensures old(deferred).None? ==> frames == old(frames) && deferred.None? && calls == old(calls)
      ensures old(deferred).Some? && !old(waiting[i]).ClearOnReject? ==> deferred.None?
      ensures var k := old(waiting[i]);
              old(deferred).Some? && k.TransitionLater? ==>
                if state in table && k.transition in table[state] then
                  && frames == old(frames) + [InHook(old(calls), k.transition, state, table[state][k.transition])]
                  && calls == old(calls) + 1
                else frames == old(frames) && calls == old(calls)
      ensures var k := old(waiting[i]);
              !k.TransitionLater? ==>
                && calls == old(calls)
                && frames == if old(deferred).Some? && k.FinishLater? && !destroyed
                             then old(frames) + [InListeners(k.call, k.transition, k.from, Enter(k.target))] else old(frames)
      ensures destroyed && old(waiting[i]).FinishLater? ==>
                Over(View(), old(waiting[i]).call) && !CommittedBy(View(), old(waiting[i]).call)
    {
      ghost var m := View();
      Kept(m, Resolve(i));
      SettledIsOver(table, m, i);
      hide PathInv, Linear, Over, CommittedBy;
      var k := waiting[i];
      waiting := waiting[..i] + waiting[i + 1..];
      if deferred.None? {
        return;
      }
      match k {
        case ClearOnReject =>
        case TransitionLater(t) =>
          deferred := None;
          CallAgain(t);
        case FinishLater(call, t, from, target) =>
          deferred := None;
          if !destroyed {
            frames := frames + [InListeners(call, t, from, Enter(target))];
          }
      }
    }

    /** The deferred transition is called; a refusal is left to the promise. */
    method CallAgain(transition: string)
      requires deferred.None?
      modifies this`frames, this`calls
      ensures View() == Begin(table, old(View()), transition)
    {
      var found := Lookup(table, state, transition);
      if found.Some? {
        frames := frames + [InHook(calls, transition, state, found.value)];
        calls := calls + 1;
      }
    }

    /** The promise of a waiting callback is rejected: the call that it held is over for good, or the
        pending action is cleared. */
    method Fail(i: nat)
      requires Valid() && i < |waiting|
      modifies this`waiting, this`deferred
      ensures Valid() && View() == Step(table, old(View()), Reject(i))
      ensures waiting == Remove(old(waiting), i)
      ensures if old(waiting[i]).FinishLater?
              then deferred == old(deferred) && Over(View(), old(waiting[i]).call) && !CommittedBy(View(), old(waiting[i]).call)
              else deferred.None?
    {
      ghost var m := View();
      Kept(m, Reject(i));
      SettledIsOver(table, m, i);
      hide PathInv, Linear, Over, CommittedBy;
      var k := waiting[i];
      waiting := waiting[..i] + waiting[i + 1..];
      if !k.FinishLater? {
        deferred := None;
      }
    }

    method Destroy()
      requires Valid()
      modifies this`destroyed
      ensures Valid() && View() == Step(table, old(View()), Event.Destroy) && destroyed
    {
      Kept(View(), Event.Destroy);
      hide PathInv, Linear;
      destroyed := true;
    }

    /** Whatever the surrounding program does next. */
    method Perform(e: Event)
      requires Valid()
      modifies this
      ensures Valid() && View() == Step(table, old(View()), e)
    {
      hide PathInv, Linear;
      match e {
        case Call(t) => var _ := Transition(t);
        case HookReturns(r) => if frames != [] && Last(frames).InHook? { FinishHook(r); }
        case Cancel(call) => CancelTransition(call);
        case ListenersReturn => if frames != [] && Last(frames).InListeners? { FinishListeners(); }
        case DeferState(target) => var _ := ScheduleState(target);
        case DeferTransition(t) => var _ := ScheduleTransition(t);
        case Resolve(i) => if i < |waiting| { Fulfil(i); }
        case Reject(i) => if i < |waiting| { Fail(i); }
        case Destroy => Destroy();
      }
    }
  }

  /** Main result: after anything at all has been done to a new machine, its committed changes lead in
      one path from its initial state to the state it is in, and no call has committed twice. */
  method Drive(table: Table, initial: string, events: seq<Event>) returns (sm: Instance)
    ensures fresh(sm) && sm.Valid() && sm.View() == Run(table, Start(initial), events)
    ensures Connected(initial, sm.history, sm.state)
    ensures forall e <- sm.history :: Justified(table, sm.asked, e.call, e.transition, e.from, e.to)
    ensures forall i, j :: 0 <= i < j < |sm.history| ==> sm.history[i].call != sm.history[j].call
  {
    sm := new Instance(table, initial);
    var todo := events;
    while todo != []
      invariant fresh(sm) && sm.Valid() && sm.table == table && sm.initial == initial
      invariant Run(table, Start(initial), events) == Run(table, sm.View(), todo)
      decreases |todo|
    {
      hide PathInv, Linear, Step;
      sm.Perform(todo[0]);
      todo := todo[1..];
    }
    forall i, j | 0 <= i < j < |sm.history| ensures sm.history[i].call != sm.history[j].call {
      CallCommitsAtMostOnce(table, initial, events, i, j);
    }
  }
}
