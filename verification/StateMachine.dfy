/**
 * The generic state machine with deferred actions. Everything the surrounding program may do
 * is an event: call a transition (from outside, or again from inside a hook or listener), let
 * a hook return, cancel from a listener, schedule a deferred action, settle any outstanding
 * promise in any order, destroy the machine.
 */
module StateMachine {
  import opened JsString
  import opened Wrappers

  /** Which transitions a state has, and where each leads. */
  type Table = map<string, map<string, string>>

  datatype Deferred = DeferredState(target: string) | DeferredTransition(transition: string)

  /** What a transition call in progress will do once the listeners have been told. */
  datatype Next = Enter(state: string) | Defer(target: string) | Cancelled

  /** A `transition` or `finishTransition` call on the stack. `call` numbers the calls. */
  datatype Frame =
    | InHook(call: nat, transition: string, from: string, target: string)
    | InListeners(call: nat, transition: string, from: string, next: Next)

  /** A promise callback that has not run yet. */
  datatype Continuation =
    | FinishLater(call: nat, transition: string, from: string, target: string)
    | TransitionLater(transition: string)
    | ClearOnReject

  /** A committed change of state, and the call that made it. */
  datatype Edge = Edge(call: nat, from: string, transition: string, to: string)

  datatype Machine = Machine(
    state: string,
    deferred: Option<Deferred>,
    destroyed: bool,
    frames: seq<Frame>,
    waiting: seq<Continuation>,
    calls: nat,
    history: seq<Edge>,
    asked: set<(nat, string)>)

  /** What a hook returns: nothing (or `false`), a state, a deferred state, or an exception. */
  datatype HookResult = Nothing | ToState(state: string) | ToDeferred(target: string) | Throws

  datatype Event =
    | Call(transition: string)
    | HookReturns(result: HookResult)
    | Cancel(call: nat)
    | ListenersReturn
    | DeferState(target: string)
    | DeferTransition(transition: string)
    | Resolve(index: nat)
    | Reject(index: nat)
    | Destroy

  function Start(initial: string): Machine {
    Machine(initial, None, false, [], [], 0, [], {})
  }

  function Lookup(table: Table, state: string, transition: string): Option<string> {
    if state in table && transition in table[state] then Some(table[state][transition]) else None
  }

  /** `$canTransition`. */
  predicate CanTransition(table: Table, m: Machine, transition: string) {
    m.deferred.None? && Lookup(table, m.state, transition).Some?
  }

  /** `deferredTargetState`: for a deferred transition the table is indexed by the transition's
      name, so no target is ever found. */
  function DeferredTarget(d: Deferred): Option<string> {
    if d.DeferredState? then Some(d.target) else None
  }

  /** Whether a call gets past the checks that precede its hook. */
  predicate Accepts(table: Table, m: Machine, transition: string) {
    var target := Lookup(table, m.state, transition);
    target.Some? && (m.deferred.None? || DeferredTarget(m.deferred.value) == target)
  }

  /** `transition`, up to its hook: a refused call throws and changes nothing. */
  function Begin(table: Table, m: Machine, transition: string): Machine {
    if !Accepts(table, m, transition) then m
    else m.(deferred := None,
            frames := m.frames + [InHook(m.calls, transition, m.state, Lookup(table, m.state, transition).value)],
            calls := m.calls + 1)
  }

  function Pop<T>(s: seq<T>): seq<T>
    requires s != []
  {
    s[..|s| - 1]
  }

  function Last<T>(s: seq<T>): T
    requires s != []
  {
    s[|s| - 1]
  }

  /** From the hook's return to the listeners: a destroyed machine or a throwing hook ends the call. */
  function AfterHook(m: Machine, result: HookResult): Machine {
    if m.frames == [] || !Last(m.frames).InHook? then m
    else
      var f := Last(m.frames);
      if m.destroyed || result.Throws? then m.(frames := Pop(m.frames))
      else
        var next := match result
          case ToState(s) => if s == "" then Enter(f.target) else Enter(s)
          case ToDeferred(t) => Defer(t)
          case _ => Enter(f.target);
        m.(frames := Pop(m.frames) + [InListeners(f.call, f.transition, f.from, next)],
           asked := match result
             case ToState(s) => m.asked + {(f.call, s)}
             case ToDeferred(t) => m.asked + {(f.call, t)}
             case _ => m.asked)
  }

  /** A listener cancels the call it was told about, which need not be the innermost one. */
  function CancelIn(frames: seq<Frame>, call: nat): seq<Frame> {
    if frames == [] then []
    else
      var f := frames[0];
      [if f.InListeners? && f.call == call then f.(next := Cancelled) else f] + CancelIn(frames[1..], call)
  }

  /** The rest of `finishTransition`: nothing, a deferral, or a commit if the state is still `from`.
      A name that compares equal to `false` reads as a cancellation. */
  function AfterListeners(m: Machine): Machine {
    if m.frames == [] || !Last(m.frames).InListeners? then m
    else
      var f := Last(m.frames);
      var popped := m.(frames := Pop(m.frames));
      match f.next
      case Cancelled => popped
      case Defer(t) => popped.(deferred := Some(DeferredState(t)),
                               waiting := m.waiting + [FinishLater(f.call, f.transition, f.from, t)])
      case Enter(s) =>
        if EqualsFalse(s) || m.state != f.from then popped
        else popped.(state := s, history := m.history + [Edge(f.call, f.from, f.transition, s)])
  }

  function Remove<T>(s: seq<T>, i: nat): seq<T>
    requires i < |s|
  {
    s[..i] + s[i + 1..]
  }

  function OnResolve(table: Table, m: Machine, i: nat): Machine {
    if i >= |m.waiting| then m
    else
      var rest := m.(waiting := Remove(m.waiting, i));
      match m.waiting[i]
      case ClearOnReject => rest
      case TransitionLater(t) => if m.deferred.None? then rest else Begin(table, rest.(deferred := None), t)
      case FinishLater(call, t, from, target) =>
        if m.deferred.None? then rest
        else if m.destroyed then rest.(deferred := None)
        else rest.(deferred := None, frames := m.frames + [InListeners(call, t, from, Enter(target))])
  }

  function OnReject(m: Machine, i: nat): Machine {
    if i >= |m.waiting| then m
    else
      var rest := m.(waiting := Remove(m.waiting, i));
      if m.waiting[i].FinishLater? then rest else rest.(deferred := None)
  }

  function Step(table: Table, m: Machine, e: Event): Machine {
    match e
    case Call(t) => Begin(table, m, t)
    case HookReturns(r) => AfterHook(m, r)
    case Cancel(call) => m.(frames := CancelIn(m.frames, call))
    case ListenersReturn => AfterListeners(m)
    case DeferState(target) =>
      if m.deferred.Some? then m
      else m.(deferred := Some(DeferredState(target)), waiting := m.waiting + [ClearOnReject])
    case DeferTransition(t) =>
      if m.deferred.Some? then m
      else m.(deferred := Some(DeferredTransition(t)), waiting := m.waiting + [TransitionLater(t)])
    case Resolve(i) => OnResolve(table, m, i)
    case Reject(i) => OnReject(m, i)
    case Destroy => m.(destroyed := true)
  }

  function Run(table: Table, m: Machine, events: seq<Event>): Machine
    decreases |events|
  {
    if events == [] then m else Run(table, Step(table, m, events[0]), events[1..])
  }
}
